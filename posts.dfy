/**
 * The posts screen (components/Posts.tsx): a pager of 8 posts, newest id first, each with its
 * author's e-mail and, for the logged-in author, edit and delete controls; dialogs to create
 * a post or a comment, edit a post and delete it. Every mutation is one request; a successful
 * create, edit or delete then fetches the whole list again.
 */
module PostsScreen {
  import opened Basics
  import opened Remote
  import opened Storage
  import Decimal
  import Pager
  import PostOrder
  import Session

  const PageSize: nat := 8

  /** What the screen shows for an author it does not know. */
  const UnknownAuthor: string := "Nieznany"

  /** Which of the screen's two alerts a handler ends with, if any. */
  datatype Alert = NoAlert | SuccessAlert | ErrorAlert

  /** The screen's dialog flags. */
  datatype Dialogs = Dialogs(lightboxOpen: bool, addPostOpen: bool, addCommentOpen: bool, editMode: bool, deleteMode: bool)

  /** The text fields of the screen's dialogs, as last typed. */
  datatype Form = Form(title: string, body: string, newTitle: string, newBody: string, comment: string)

  /** One post as rendered: the post, its author line, and whether edit and delete are offered. */
  datatype Card = Card(post: Post, author: string, controls: bool)

  /** `users.find(user => user.id === id)`, as the index of the first match. */
  function FindUser(users: seq<User>, id: int): (r: Option<nat>)
    ensures r.Some? ==> r.value < |users| && users[r.value].id == id
    ensures r.Some? ==> forall j :: 0 <= j < r.value ==> users[j].id != id
    ensures r.None? ==> forall j :: 0 <= j < |users| ==> users[j].id != id
    decreases |users|
  {
    if users == [] then None
    else if users[0].id == id then Some(0)
    else
      match FindUser(users[1..], id)
      case None => None
      case Some(k) => Some(k + 1)
  }

  /** `getAuthor`: the e-mail of the first user with the post's author id, else "Nieznany". */
  function Author(users: seq<User>, userId: int): (author: string)
    ensures (forall j :: 0 <= j < |users| ==> users[j].id != userId) ==> author == UnknownAuthor
    ensures forall k :: 0 <= k < |users| && users[k].id == userId && (forall j :: 0 <= j < k ==> users[j].id != userId) ==>
              author == users[k].email
  {
    match FindUser(users, userId)
    case Some(k) => users[k].email
    case None => UnknownAuthor
  }

  /** Edit and delete are offered when `post.userId.toString() === userId`. */
  predicate CanModify(post: Post, session: Option<string>)
    ensures CanModify(post, session) ==> Truthy(session) && Decimal.ParseInt(session.value) == Some(post.userId)
  {
    Decimal.IntRoundTrip(post.userId);
    session == Some(Decimal.IntToString(post.userId))
  }

  /** After a login as `u`, the controls appear on exactly the posts whose author is `u`. */
  lemma ControlsOnlyOnOwnPosts(entries: map<string, string>, u: User, post: Post)
    ensures CanModify(post, Lookup(Session.AfterLogin(entries, u), UserIdKey)) <==> post.userId == u.id
  {
    Decimal.IntToStringInjective(post.userId, u.id);
  }

  class PostsView {
    var posts: array<Post>
    var users: seq<User>
    var comments: seq<Comment>
    var currentPage: int
    /** The `userId` state: the stored session id as read when the screen mounted. */
    var session: Option<string>
    /** Whether the "add post" button shows. */
    var show: bool
    var dialogs: Dialogs
    var form: Form
    var currentPost: Option<int>

    /** The state before any effect has run. */
    constructor ()
      ensures posts.Length == 0 && users == [] && comments == [] && currentPage == 1
      ensures session == None && !show && currentPost == None
      ensures dialogs == Dialogs(false, false, false, false, false)
      ensures form == Form("", "", "", "", "")
    {
      posts := new Post[0];
      users, comments, currentPage := [], [], 1;
      session, show, currentPost := None, false, None;
      dialogs := Dialogs(false, false, false, false, false);
      form := Form("", "", "", "", "");
    }

    function PageCount(): (count: nat)
      reads this
    {
      Pager.PageCount(posts.Length, PageSize)
    }

    /** `fetchPosts`: on success the state array is replaced by the received list, on failure kept. */
    method FetchPosts(response: Response<seq<Post>>) returns (request: Request)
      modifies this
      ensures request == GetPosts
      ensures response.Received? ==> fresh(posts) && posts[..] == response.data
      ensures response.Failed? ==> posts == old(posts)
      ensures users == old(users) && comments == old(comments) && currentPage == old(currentPage)
      ensures session == old(session) && show == old(show) && dialogs == old(dialogs)
      ensures form == old(form) && currentPost == old(currentPost)
    {
      request := GetPosts;
      if response.Received? {
        var data := response.data;
        posts := new Post[|data|](i requires 0 <= i < |data| => data[i]);
      }
    }

    /** The mount effects: `handleUser`, `fetchPosts`, `fetchUsers` and `fetchUserId`. */
    method Mount(store: KeyValueStore, postsResponse: Response<seq<Post>>, usersResponse: Response<seq<User>>)
      returns (requests: seq<Request>)
      modifies this
      ensures requests == [GetPosts, GetUsers]
      ensures show == Session.LoggedIn(store.entries)
      ensures session == Lookup(store.entries, UserIdKey)
      ensures postsResponse.Received? ==> fresh(posts) && posts[..] == postsResponse.data
      ensures postsResponse.Failed? ==> posts == old(posts)
      ensures users == if usersResponse.Received? then usersResponse.data else old(users)
      ensures comments == old(comments) && currentPage == old(currentPage) && dialogs == old(dialogs)
      ensures form == old(form) && currentPost == old(currentPost)
    {
      var stored := store.GetItem(UserIdKey);
      show := Truthy(stored);
      var first := FetchPosts(postsResponse);
      if usersResponse.Received? {
        users := usersResponse.data;
      }
      session := store.GetItem(UserIdKey);
      requests := [first, GetUsers];
    }

    /**
     * One render: sort the state array by id, highest first, in place; show the current page
     * of it as cards; and show the pagination bar and, when logged in, the "add post" button.
     */
    method Render() returns (cards: seq<Card>, bar: Pager.Bar, addButton: bool)
      modifies posts
      ensures PostOrder.IdsNonIncreasing(posts[..])
      ensures multiset(posts[..]) == multiset(old(posts[..]))
      ensures var shown := Pager.Page(posts[..], currentPage, PageSize);
        |cards| == |shown| &&
        forall i :: 0 <= i < |cards| ==>
          cards[i] == Card(shown[i], Author(users, shown[i].userId), CanModify(shown[i], session))
      ensures bar == Pager.PaginationBar(currentPage, PageCount())
      ensures addButton == show
    {
      PostOrder.SortByIdDescending(posts);
      var shown, known, id := Pager.Page(posts[..], currentPage, PageSize), users, session;
      cards := seq(|shown|, i requires 0 <= i < |shown| =>
        Card(shown[i], Author(known, shown[i].userId), CanModify(shown[i], id)));
      bar := Pager.PaginationBar(currentPage, Pager.PageCount(posts.Length, PageSize));
      addButton := show;
    }

    /** `handlePrevPage`: back one page unless on page 1. */
    method HandlePrevPage()
      modifies this
      ensures currentPage == Pager.Step(old(currentPage), PageCount(), Pager.Prev)
      ensures Pager.InRange(old(currentPage), PageCount()) ==> Pager.InRange(currentPage, PageCount())
      ensures posts == old(posts) && users == old(users) && comments == old(comments)
      ensures session == old(session) && show == old(show) && dialogs == old(dialogs)
      ensures form == old(form) && currentPost == old(currentPost)
    {
      if currentPage > 1 {
        currentPage := currentPage - 1;
      }
    }

    /** `handleNextPage`: forward one page unless already at (or past) the last one. */
    method HandleNextPage()
      modifies this
      ensures currentPage == Pager.Step(old(currentPage), PageCount(), Pager.Next)
      ensures Pager.InRange(old(currentPage), PageCount()) ==> Pager.InRange(currentPage, PageCount())
      ensures posts == old(posts) && users == old(users) && comments == old(comments)
      ensures session == old(session) && show == old(show) && dialogs == old(dialogs)
      ensures form == old(form) && currentPost == old(currentPost)
    {
      if currentPage < Pager.PageCount(posts.Length, PageSize) {
        currentPage := currentPage + 1;
      }
    }

    /** `handleOpenLightbox`: fetch the post's comments and open the comment list. */
    method HandleOpenLightbox(postId: int, response: Response<seq<Comment>>) returns (requests: seq<Request>)
      modifies this
      ensures requests == [GetComments(postId)]
      ensures response.Received? ==> comments == response.data && dialogs == old(dialogs).(lightboxOpen := true)
      ensures response.Failed? ==> comments == old(comments) && dialogs == old(dialogs)
      ensures posts == old(posts) && users == old(users) && currentPage == old(currentPage)
      ensures session == old(session) && show == old(show)
      ensures form == old(form) && currentPost == old(currentPost)
    {
      requests := [GetComments(postId)];
      if response.Received? {
        comments := response.data;
        dialogs := dialogs.(lightboxOpen := true);
      }
    }

    /** `handleAddPost`: open the new-post dialog. */
    method HandleAddPost()
      modifies this
      ensures dialogs == old(dialogs).(addPostOpen := true)
      ensures posts == old(posts) && users == old(users) && comments == old(comments)
      ensures currentPage == old(currentPage) && session == old(session) && show == old(show)
      ensures form == old(form) && currentPost == old(currentPost)
    {
      dialogs := dialogs.(addPostOpen := true);
    }

    /** `handleAddComment`: remember the post and open the new-comment dialog. */
    method HandleAddComment(postId: int)
      modifies this
      ensures currentPost == Some(postId) && dialogs == old(dialogs).(addCommentOpen := true)
      ensures posts == old(posts) && users == old(users) && comments == old(comments)
      ensures currentPage == old(currentPage) && session == old(session) && show == old(show)
      ensures form == old(form)
    {
      currentPost := Some(postId);
      dialogs := dialogs.(addCommentOpen := true);
    }

    /**
     * `handleNewPost`: without a stored session id nothing is sent and the error alert shows;
     * otherwise the post is sent with the stored id as its author, and only when that succeeds
     * the dialog closes and the list is fetched again, once.
     */
    method HandleNewPost(store: KeyValueStore, created: Response<()>, refetched: Response<seq<Post>>)
      returns (requests: seq<Request>, alert: Alert)
      modifies this
      ensures Session.PostAuthor(store.entries).None? ==> requests == [] && alert == ErrorAlert && unchanged(this)
      ensures var author := Session.PostAuthor(store.entries);
        author.Some? && created.Failed? ==>
          requests == [CreatePost(old(form).title, old(form).body, author.value)] &&
          alert == ErrorAlert && unchanged(this)
      ensures var author := Session.PostAuthor(store.entries);
        author.Some? && created.Received? ==>
          requests == [CreatePost(old(form).title, old(form).body, author.value), GetPosts] && alert == SuccessAlert &&
          dialogs == old(dialogs).(addPostOpen := false) &&
          (refetched.Received? ==> fresh(posts) && posts[..] == refetched.data) &&
          (refetched.Failed? ==> posts == old(posts)) &&
          users == old(users) && comments == old(comments) && currentPage == old(currentPage) &&
          session == old(session) && show == old(show) && form == old(form) && currentPost == old(currentPost)
    {
      var stored := store.GetItem(UserIdKey);
      if !Truthy(stored) {
        return [], ErrorAlert;
      }
      var authorId := Decimal.ParseInt(stored.value);
      if authorId.None? {
        return [], ErrorAlert;
      }
      var post := CreatePost(form.title, form.body, authorId.value);
      if created.Failed? {
        return [post], ErrorAlert;
      }
      dialogs := dialogs.(addPostOpen := false);
      var refetch := FetchPosts(refetched);
      requests, alert := [post, refetch], SuccessAlert;
    }

    /**
     * `handleNewComment`: without a stored e-mail nothing is sent and the error alert shows;
     * otherwise the comment is sent under that e-mail, and on success the dialog closes.
     * The post list is never fetched again.
     */
    method HandleNewComment(store: KeyValueStore, created: Response<()>) returns (requests: seq<Request>, alert: Alert)
      modifies this
      ensures !Truthy(Lookup(store.entries, UserEmailKey)) ==> requests == [] && alert == ErrorAlert && unchanged(this)
      ensures Truthy(Lookup(store.entries, UserEmailKey)) ==>
        requests == [CreateComment(old(currentPost), old(form).comment, store.entries[UserEmailKey])]
      ensures Truthy(Lookup(store.entries, UserEmailKey)) && created.Failed? ==> alert == ErrorAlert && unchanged(this)
      ensures Truthy(Lookup(store.entries, UserEmailKey)) && created.Received? ==>
        alert == SuccessAlert && dialogs == old(dialogs).(addCommentOpen := false) &&
        posts == old(posts) && users == old(users) && comments == old(comments) &&
        currentPage == old(currentPage) && session == old(session) && show == old(show) &&
        form == old(form) && currentPost == old(currentPost)
    {
      var stored := store.GetItem(UserEmailKey);
      if !Truthy(stored) {
        return [], ErrorAlert;
      }
      requests := [CreateComment(currentPost, form.comment, stored.value)];
      if created.Failed? {
        return requests, ErrorAlert;
      }
      alert := SuccessAlert;
      dialogs := dialogs.(addCommentOpen := false);
    }

    /** `handleEdit`: remember the post, fetch it, and open the edit dialog filled with its text. */
    method HandleEdit(postId: int, response: Response<Post>) returns (requests: seq<Request>, alert: Alert)
      modifies this
      ensures requests == [GetPost(postId)] && currentPost == Some(postId)
      ensures response.Received? ==>
        alert == NoAlert && dialogs == old(dialogs).(editMode := true) &&
        form == old(form).(newTitle := response.data.title, newBody := response.data.body)
      ensures response.Failed? ==> alert == ErrorAlert && dialogs == old(dialogs) && form == old(form)
      ensures posts == old(posts) && users == old(users) && comments == old(comments)
      ensures currentPage == old(currentPage) && session == old(session) && show == old(show)
    {
      currentPost := Some(postId);
      requests := [GetPost(postId)];
      if response.Received? {
        form := form.(newTitle := response.data.title, newBody := response.data.body);
        dialogs := dialogs.(editMode := true);
        alert := NoAlert;
      } else {
        alert := ErrorAlert;
      }
    }

    /** `handleEditPost`: send the edited text; on success close the dialog and fetch the list again, once. */
    method HandleEditPost(updated: Response<()>, refetched: Response<seq<Post>>) returns (requests: seq<Request>, alert: Alert)
      modifies this
      ensures updated.Failed? ==>
        requests == [UpdatePost(old(currentPost), old(form).newTitle, old(form).newBody)] &&
        alert == ErrorAlert && unchanged(this)
      ensures updated.Received? ==>
        requests == [UpdatePost(old(currentPost), old(form).newTitle, old(form).newBody), GetPosts] &&
        alert == SuccessAlert &&
        dialogs == old(dialogs).(editMode := false) &&
        (refetched.Received? ==> fresh(posts) && posts[..] == refetched.data) &&
        (refetched.Failed? ==> posts == old(posts)) &&
        users == old(users) && comments == old(comments) && currentPage == old(currentPage) &&
        session == old(session) && show == old(show) && form == old(form) && currentPost == old(currentPost)
    {
      var update := UpdatePost(currentPost, form.newTitle, form.newBody);
      if updated.Failed? {
        return [update], ErrorAlert;
      }
      dialogs := dialogs.(editMode := false);
      var refetch := FetchPosts(refetched);
      requests, alert := [update, refetch], SuccessAlert;
    }

    /** `handleDelete`: remember the post and ask for confirmation. */
    method HandleDelete(postId: int)
      modifies this
      ensures currentPost == Some(postId) && dialogs == old(dialogs).(deleteMode := true)
      ensures posts == old(posts) && users == old(users) && comments == old(comments)
      ensures currentPage == old(currentPage) && session == old(session) && show == old(show)
      ensures form == old(form)
    {
      currentPost := Some(postId);
      dialogs := dialogs.(deleteMode := true);
    }

    /** `handleDeletePost`: delete the post; on success close the dialog and fetch the list again, once. */
    method HandleDeletePost(deleted: Response<()>, refetched: Response<seq<Post>>) returns (requests: seq<Request>, alert: Alert)
      modifies this
      ensures deleted.Failed? ==> requests == [DeletePost(old(currentPost))] && alert == ErrorAlert && unchanged(this)
      ensures deleted.Received? ==>
        requests == [DeletePost(old(currentPost)), GetPosts] && alert == SuccessAlert &&
        dialogs == old(dialogs).(deleteMode := false) &&
        (refetched.Received? ==> fresh(posts) && posts[..] == refetched.data) &&
        (refetched.Failed? ==> posts == old(posts)) &&
        users == old(users) && comments == old(comments) && currentPage == old(currentPage) &&
        session == old(session) && show == old(show) && form == old(form) && currentPost == old(currentPost)
    {
      var delete := DeletePost(currentPost);
      if deleted.Failed? {
        return [delete], ErrorAlert;
      }
      dialogs := dialogs.(deleteMode := false);
      var refetch := FetchPosts(refetched);
      requests, alert := [delete, refetch], SuccessAlert;
    }
  }
}
