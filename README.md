# R_Native screens: a Dafny model

R_Native is a React Native client for the JSONPlaceholder demo API. It has five screens
(posts, albums, photos, users, settings) below a header that logs a user in by e-mail. This
project models the client-side logic of those screens. Each screen component becomes a Dafny
`class`. Its React state variables become fields, and each event handler or mount effect
becomes a `method` that updates those fields. The rules behind the screens are pure
functions, and lemmas state what they guarantee:

- the pager of the posts and photos screens;
- the posts screen's id order and author lookup;
- the session kept in the device's key-value store;
- the users screen's offline fallback to the copies it stores.

Modules, one per file:

- `Basics`: `Option` (`null`/`undefined`), `Min`, `Max`.
- `Decimal`: `Number.prototype.toString` and `JSON.parse` for integers. Proved: a round trip and injectivity.
- `Storage`: the AsyncStorage key-value store, as a class over a `map<string, string>`.
- `Remote`: the API's records, the requests the screens issue, and `Response<T>` (data received, or the request failed).
- `Serialization`: `JSON.stringify`/`JSON.parse` of the mirrored user and todo lists. The text is an unambiguous length-prefixed encoding with a proved round trip.
- `Pager`: page count, page slice with `Array.prototype.slice` clipping, prev/next moves, and the pagination bar's disabled flags.
- `PostOrder`: the in-place sort of the posts array by id, highest first.
- `Session`: what a login writes to the store, and how the posts screen reads back the author id.
- `PostsScreen`, `PhotosScreen`, `UsersScreen`, `HeaderBar`, `SettingsScreen`, `AppShell`: the screens and the shell.

Network calls and store reads are not performed. Each handler takes the outcome of its
request (`Received(data)` or `Failed`) as a parameter and returns the requests it issued.
A request made after a mutation, such as the refetch of the posts list, is modelled as
completing before the handler returns. Its outcome is one more parameter.

Three behaviours of the code that the model keeps as they are:

- A failed users or todos fetch with no stored copy leaves the list as it was.
- An empty posts or photos list has page count 0. On such a list the "next" button is
  enabled but does nothing.
- The photos screen's "previous" button is disabled by `currentPage === pageCount`. `PhotosScreen.PhotosView.PaginationBar` renders that bar, and
  `PhotosScreen.PhotosView.CorrectedPaginationBar` is the fixed one. See Findings.

The shell keeps the photos screen mounted while it stays on the photos view. Choosing
"photos" in the header while an album's photos are shown therefore changes the mounted
screen's properties. The album is reset, the photos are fetched again unfiltered, and the
current page is kept. `PhotosScreen.PhotosView.ReceiveProps` models this.

## Model

| member | source | states |
|---|---|---|
| Decimal.NatToString | components/Header.tsx:49 | `id.toString()` of a natural number is a non-empty digit string with no leading zero unless it is "0" |
| Decimal.IntToString | components/Header.tsx:49 | `id.toString()` is non-empty, starts with "-" exactly for a negative id, and is otherwise a JSON integer literal |
| Decimal.ParseInt | components/Posts.tsx:161 | `JSON.parse` of an integer text: the empty text does not parse, and a parsed value's own text is the text read (except "-0") |
| Decimal.LiteralRoundTrip | components/Posts.tsx:161 | a JSON integer literal is exactly the `toString()` text of its value |
| Decimal.IntRoundTrip | components/Posts.tsx:161 | `JSON.parse` of a stored `id.toString()` gives back the same integer |
| Decimal.IntToStringInjective | components/Posts.tsx:269 | two ids have the same string form only when they are equal, so the ownership test by string compares ids |
| Serialization.TokensRoundTrip | components/Users.tsx:38-43 | the list encoding decodes back to exactly the encoded strings, whatever they contain |
| Serialization.StringifyUsers | components/Users.tsx:38 | `JSON.stringify(users)` gives a bracketed list text, never empty |
| Serialization.ParseUsers | components/Users.tsx:43 | `JSON.parse` of the stored users succeeds only on a bracketed list text, so an empty or missing text never yields a list |
| Serialization.StringifyTodos | components/Users.tsx:58-61 | `JSON.stringify(todos)` gives a bracketed list text, never empty |
| Serialization.ParseTodos | components/Users.tsx:66 | `JSON.parse` of the stored todos succeeds only on a bracketed list text |
| Serialization.UsersRoundTrip | components/Users.tsx:38-43 | the stored users text is truthy (non-empty) and parses back to exactly the users that were stored |
| Serialization.TodosRoundTrip | components/Users.tsx:58-66 | the stored todos text is truthy and parses back to exactly the todos that were stored |
| Storage.Lookup | components/Header.tsx:26 | `getItem` gives the stored value for a present key and `null` for a missing one |
| Storage.KeyValueStore.GetItem | components/Users.tsx:41 | `getItem` answers the stored value for a present key and `null` for a missing one, changing nothing |
| Storage.KeyValueStore.SetItem | components/Users.tsx:38 | `setItem` maps the key to the value and leaves every other key as it was |
| Storage.KeyValueStore.Clear | components/Header.tsx:61 | `clear` removes every key |
| Pager.PageCount | components/Posts.tsx:96 | `Math.ceil(length / pageSize)`: the least number of pages that hold the list; 0 exactly for an empty list |
| Pager.Clip | components/Posts.tsx:95 | the index `slice` uses: a negative index counts from the end and every index is clipped to `[0, length]` |
| Pager.Slice | components/Posts.tsx:95 | `slice(start, end)` with `0 <= start <= end` gives the items from `start` to `end`, both cut at the list's end; it is empty when the clipped end is not past the clipped start |
| Pager.Page | components/Posts.tsx:91-95 | for a page number of at least 1, the page holds at most `pageSize` items, and they are the list's items from `(page-1)*pageSize` up to `page*pageSize`, cut at the list's end |
| Pager.PagesThroughIsPrefix | components/Posts.tsx:91-95 | pages 1 to n, concatenated, are the first `n*pageSize` items of the list |
| Pager.PagesPartitionList | components/Posts.tsx:91-96 | pages 1 to `pageCount`, concatenated, give the whole list in order: every item is shown on exactly one page |
| Pager.PagesInRangeAreFilled | components/Posts.tsx:91-96 | a page number from 1 on is non-empty exactly when it is at most `pageCount` |
| Pager.Step | components/Posts.tsx:102-112 | a prev/next press leaves the page as it is exactly when its guard fails (page 1 for prev, `page >= pageCount` for next), and otherwise moves one page within `1..pageCount` |
| Pager.WalkStaysInRange | components/Posts.tsx:102-112 | from a page in `1..max(1, pageCount)`, any sequence of prev/next presses stays in that range |
| Pager.NextReachesEveryPage | components/Posts.tsx:108-112 | k presses of "next" from page 1 reach page `min(1+k, max(1, pageCount))`, so every page is reachable |
| Pager.PaginationBar | components/Posts.tsx:391-406 | the posts screen's bar shows "page X of Y"; with the page in range "previous" is disabled exactly when pressing it would do nothing, and "next" exactly when pressing it would do nothing on a non-empty list (over an empty list it is enabled and does nothing) |
| Pager.PhotosPaginationBarAsWritten | components/Photos.tsx:121-135 | the photos screen's bar as written: "previous" and "next" are always disabled together, on the last page |
| Pager.PhotosPrevDisabledAsWrittenIsWrong | components/Photos.tsx:125-128 | for every list of two or more pages, the photos screen's "previous" is enabled on page 1, where it does nothing, and disabled on the last page, where it would go back one page; only a single page makes it right |
| PostOrder.SortByIdDescending | components/Posts.tsx:94 | after the sort the array is a permutation of what it held, with ids non-increasing |
| PostOrder.SortedOrderIsUnique | components/Posts.tsx:94-95 | with distinct ids, two sorted permutations of the same posts are equal, so the pages shown depend only on which posts were fetched |
| Session.AfterLogin | components/Header.tsx:47-51 | a login as a user stores that user's id string and e-mail, leaves every other key as it was, and leaves the store logged in |
| Session.LoginSetsPostAuthor | components/Posts.tsx:151-161 | after a login as a user, a new post is sent with that user's id as author |
| Session.LoggedIn | components/Header.tsx:26-27 | someone is logged in exactly when a non-empty `userId` is stored; an empty store is logged out |
| Session.PostAuthor | components/Posts.tsx:151-161 | a new post gets an author only when someone is logged in, and the author is the id whose text is stored |
| PostsScreen.FindUser | components/Posts.tsx:115 | `find` gives the first user with the id, or none when no user has it |
| PostsScreen.Author | components/Posts.tsx:114-117 | the author line is the e-mail of the first user with the post's author id, or "Nieznany" when there is none |
| PostsScreen.CanModify | components/Posts.tsx:269 | the controls show only for a logged-in session whose stored id parses to the post's author |
| PostsScreen.ControlsOnlyOnOwnPosts | components/Posts.tsx:269 | after a login as a user, the edit and delete controls show on exactly the posts whose `userId` is that user's id |
| PostsScreen.PostsView.constructor | components/Posts.tsx:32-49 | the initial state: no posts, page 1, every dialog closed, every field empty |
| PostsScreen.PostsView.FetchPosts | components/Posts.tsx:69-78 | on success the posts become the received list; on failure nothing changes |
| PostsScreen.PostsView.Mount | components/Posts.tsx:51-67 | mounting requests posts and users, shows "add post" exactly when logged in, and records the stored id |
| PostsScreen.PostsView.Render | components/Posts.tsx:91-96 | a render sorts the posts in place (a permutation, ids non-increasing), shows one card per post of the current page with its author and ownership flag, and shows the pagination bar |
| PostsScreen.PostsView.HandlePrevPage | components/Posts.tsx:102-106 | "previous" takes one step back unless on page 1, and keeps the page in range |
| PostsScreen.PostsView.HandleNextPage | components/Posts.tsx:108-112 | "next" takes one step forward unless on the last page, and keeps the page in range |
| PostsScreen.PostsView.HandleOpenLightbox | components/Posts.tsx:119-129 | requests the post's comments; on success shows them in the opened lightbox; on failure changes nothing |
| PostsScreen.PostsView.HandleAddPost | components/Posts.tsx:140-142 | opens the new-post dialog and changes nothing else |
| PostsScreen.PostsView.HandleAddComment | components/Posts.tsx:144-147 | remembers the post and opens the new-comment dialog |
| PostsScreen.PostsView.HandleNewPost | components/Posts.tsx:149-171 | logged out: no request and an error alert; otherwise one create request with the form and the stored author id, then on success a refetch, a success alert and the dialog closed |
| PostsScreen.PostsView.HandleNewComment | components/Posts.tsx:173-196 | with no stored e-mail: no request and an error alert; otherwise one create request for the remembered post; the list is never refetched |
| PostsScreen.PostsView.HandleEdit | components/Posts.tsx:198-211 | remembers the post and requests it; on success fills the edit fields and opens the edit dialog; on failure shows an error |
| PostsScreen.PostsView.HandleEditPost | components/Posts.tsx:213-230 | one update request with the edit fields; on success a refetch, a success alert and the dialog closed; on failure an error alert |
| PostsScreen.PostsView.HandleDelete | components/Posts.tsx:232-235 | remembers the post and opens the delete confirmation |
| PostsScreen.PostsView.HandleDeletePost | components/Posts.tsx:237-250 | one delete request for the remembered post; on success a refetch, a success alert and the dialog closed; on failure an error alert |
| PhotosScreen.PhotosRequest | components/Photos.tsx:42-51 | the photos request filters by album exactly when an album is selected |
| PhotosScreen.PhotosView.constructor | components/Photos.tsx:27-35 | the initial state: no photos, page 1, lightbox closed |
| PhotosScreen.PhotosView.FetchPhotos | components/Photos.tsx:37-59 | requests the album's photos (or all); on success they replace the list, on failure nothing changes |
| PhotosScreen.PhotosView.HandlePrevPage | components/Photos.tsx:70-74 | one step back unless on page 1, keeping the page in range |
| PhotosScreen.PhotosView.HandleNextPage | components/Photos.tsx:76-80 | one step forward unless on the last page, keeping the page in range |
| PhotosScreen.PhotosView.HandleOpenLightbox | components/Photos.tsx:82-85 | selects the photo and opens the lightbox |
| PhotosScreen.PhotosView.CurrentPhotos | components/Photos.tsx:61-63 | the photos shown are at most 20, and are the fetched photos from `(currentPage-1)*20` up to `currentPage*20`, cut at the list's end |
| PhotosScreen.PhotosView.PaginationBar | components/Photos.tsx:121-135 | the bar as rendered: both buttons disabled exactly on the last page, so on page 1 of several pages "previous" is enabled though pressing it does nothing |
| PhotosScreen.PhotosView.CorrectedPaginationBar | components/Photos.tsx:125-134 | the corrected bar: "previous" disabled exactly when pressing it does nothing, "next" disabled on the last page |
| PhotosScreen.PhotosView.ReceiveProps | components/Photos.tsx:37-59 | new properties: the photos are requested again, for the new album, exactly when the album changed; the page, lightbox and selected photo are kept |
| UsersScreen.TodosKey | components/Users.tsx:58-64 | the key `todos_<id>` is never the users, id or e-mail key |
| UsersScreen.TodosKeysAreDistinct | components/Users.tsx:58-64 | different users' todos are stored under different keys |
| UsersScreen.MirroredUsersReadBack | components/Users.tsx:38-43 | after a successful fetch has stored the users, a failed fetch restores exactly those users |
| UsersScreen.MirroredTodosReadBack | components/Users.tsx:58-66 | after one user's todos are stored, a failed fetch for that user restores them, even after another user's todos are stored |
| UsersScreen.SessionWritesKeepMirrorsReadable | components/Header.tsx:49-50 | the session writes of a login or of a settings change never make a stored copy unreadable |
| UsersScreen.UsersView.constructor | components/Users.tsx:27-29 | the initial state: no users, no todos, lightbox closed |
| UsersScreen.UsersView.FetchUsers | components/Users.tsx:32-48 | on success shows and stores the received users; on failure the store is unchanged and the stored copy, if any, is shown; readable copies stay readable; the catch branch is `Restored` (a truthy stored copy, parsed) and `ParseThrows` (a truthy copy that does not parse) |
| UsersScreen.UsersView.HandleOpenLightbox | components/Users.tsx:51-71 | the same for one user's todos under `todos_<id>`; the lightbox then opens unless the stored copy cannot be parsed; the catch branch uses the same `Restored` and `ParseThrows` |
| HeaderBar.HeaderView.constructor | components/Header.tsx:21-23 | the initial state: empty field, logged-out controls, no e-mail |
| HeaderBar.HeaderView.HandleChange | components/Header.tsx:25-34 | the logged-in controls show exactly when a truthy id is stored; the e-mail is re-read only then |
| HeaderBar.HeaderView.HandleLogin | components/Header.tsx:40-58 | looks the typed e-mail up; on a match the first user's session is stored and shown; otherwise nothing but the alert changes |
| HeaderBar.HeaderView.HandleLogout | components/Header.tsx:60-63 | clears the whole store, mirrored lists included, and hides the logged-in controls and the e-mail |
| HeaderBar.HeaderView.EmailLabel | components/Header.tsx:72 | the e-mail shows exactly when logged in and the e-mail is truthy |
| SettingsScreen.SettingsView.constructor | components/Settings.tsx:7-9 | the initial state: both fields empty, shown e-mail "" |
| SettingsScreen.SettingsView.Mount | components/Settings.tsx:11-18 | shows the stored e-mail, or nothing |
| SettingsScreen.SettingsView.ChangeEmail | components/Settings.tsx:20-47 | different fields: no request and an error; equal fields: a replace request for user 1, and only on success the e-mail is stored and shown; the stored id never changes |
| AppShell.RenderedScreens | App.tsx:34-45 | exactly one screen renders, the current mode's; the photos screen gets the selected album |
| AppShell.App.constructor | App.tsx:11-15 | starts on the posts screen with no album |
| AppShell.App.HandleViewChange | App.tsx:17-23 | switches screens and forgets the album, so the photos screen reached this way asks for all photos |
| AppShell.App.HandleAlbumSelected | App.tsx:25-29 | shows the photos screen scoped to the chosen album |

## Left out

- Rendering, styles, alert wording and console logging are not modelled. Each alert is modelled as which alert shows.
- Typing into text fields (`onChangeText`) is not modelled: each field holds whatever was last typed.
- The close buttons that only reset one flag (`setLightboxOpen(false)`, `setDeleteMode(false)`) are not modelled.
- The photos screen's header text (`selectedAlbumTitle.toUpperCase()`) and the comment and title upper-casing are not modelled: they are display only.
- Albums.tsx is not part of this model. Its one effect on the model is the `handleAlbumSelected` callback, which is modelled.
- Network and store: requests are not performed, and AsyncStorage never fails in the model. A request's outcome is a parameter.
- Concurrency: effects and handlers run one at a time, and a refetch after a mutation completes before the handler returns. Interleavings of the asynchronous calls are not modelled.
- JSON: the stored users and todos use a length-prefixed text encoding instead of JSON syntax. What is kept is that parsing the stored text gives back the stored list. A stored text that does not parse is treated as `JSON.parse` throwing.
- Decimal.IntToString: ids are taken to be safe integers. JavaScript writes numbers of 1e21 or more in exponent notation ("1e+21"), and that is not modelled.
- Decimal.ParseInt: reads only integer literals, which are all the model ever stores. JSON numbers with fractions or exponents, and precision beyond 2^53, are not modelled.
- HeaderBar.HeaderView.HandleLogin: `fetch` resolving with an HTTP error status is folded into the two outcomes (a list or a failure).
- SettingsScreen.SettingsView.ChangeEmail: the logged response body and the unused stored id are not modelled beyond the id staying unchanged.
- PostsScreen.PostsView.HandlePrevPage: the page stays in range only while the list keeps its length. A refetch that shortens the list can leave the current page past the last one, as in the code.
- PhotosScreen.PhotosView.ReceiveProps: the page kept after a change of album can be past the new list's last page, as in the code. Range is promised only while the list keeps its length.
- PostOrder.SortByIdDescending: does not state that the sort is stable (posts with equal ids keep their order). The API's ids are distinct, and `PostOrder.SortedOrderIsUnique` shows the order is then fully determined.

## Findings

| source | as written | input that shows it | evidently intended | confidence | as-written member | corrected member |
|---|---|---|---|---|---|---|
| components/Photos.tsx:125-128 | "previous" is disabled when `currentPage === pageCount`, the same test as "next" | any list of two or more pages, e.g. 40 photos: on page 1 "previous" is enabled but does nothing; on page 2 it is disabled though it would go back to page 1 (`Pager.PhotosPrevDisabledAsWrittenIsWrong`) | disabled when `currentPage === 1`, as on the posts screen (components/Posts.tsx:396) | not executed; the condition is read directly from the code | PhotosScreen.PhotosView.PaginationBar | PhotosScreen.PhotosView.CorrectedPaginationBar |
