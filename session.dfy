/**
 * The session as the screens see it: two store entries, `userId` (the user's id as decimal
 * text) and `userEmail`, written at login, removed by logout's clear, and re-read by every
 * screen on its own.
 */
module Session {
  import opened Basics
  import opened Storage
  import opened Remote
  import Decimal

  /** Someone is logged in: the stored `userId` is truthy (the header's and the posts screen's `show`). */
  predicate LoggedIn(entries: map<string, string>)
    ensures LoggedIn(entries) <==> UserIdKey in entries && entries[UserIdKey] != ""
    ensures entries == map[] ==> !LoggedIn(entries)
  {
    Truthy(Lookup(entries, UserIdKey))
  }

  /** The store after a login as `u`: `setItem('userId', u.id.toString())`, then `setItem('userEmail', u.email)`. */
  function AfterLogin(entries: map<string, string>, u: User): (after: map<string, string>)
    ensures LoggedIn(after)
    ensures Lookup(after, UserIdKey) == Some(Decimal.IntToString(u.id))
    ensures Lookup(after, UserEmailKey) == Some(u.email)
    ensures forall k :: k != UserIdKey && k != UserEmailKey ==> Lookup(after, k) == Lookup(entries, k)
  {
    entries[UserIdKey := Decimal.IntToString(u.id)][UserEmailKey := u.email]
  }

  /**
   * The author id a new post is sent with: the stored `userId` must be truthy and
   * `JSON.parse(userId)` must succeed; `None` means no post is sent.
   */
  function PostAuthor(entries: map<string, string>): (author: Option<int>)
    ensures author.Some? ==> LoggedIn(entries)
    ensures author.Some? ==>
      Decimal.IntToString(author.value) == entries[UserIdKey] || entries[UserIdKey] == "-0"
  {
    var stored := Lookup(entries, UserIdKey);
    if !Truthy(stored) then None else Decimal.ParseInt(stored.value)
  }

  /** After logging in as `u`, new posts are sent with `u`'s id as their author. */
  lemma LoginSetsPostAuthor(entries: map<string, string>, u: User)
    ensures PostAuthor(AfterLogin(entries, u)) == Some(u.id)
  {
    Decimal.IntRoundTrip(u.id);
  }
}
