/**
 * The users screen (components/Users.tsx): the user list and, for a chosen user, that user's
 * todo list. Both are fetched with a fallback: a received list replaces the one shown and is
 * mirrored into the store under a fixed key; on a failed request the last mirrored copy, if
 * any, is read back instead.
 */
module UsersScreen {
  import opened Basics
  import opened Remote
  import opened Storage
  import opened Serialization
  import Decimal

  /** The key a user's todo list is mirrored under: `todos_${userId}`. */
  function TodosKey(userId: int): (key: string)
    ensures key != UsersKey && key != UserIdKey && key != UserEmailKey
  {
    var key := "todos_" + Decimal.IntToString(userId);
    assert key[0] == 't' && |key| > 6;
    key
  }

  /** Every user's todos have a key of their own. */
  lemma TodosKeysAreDistinct(u: int, v: int)
    ensures TodosKey(u) == TodosKey(v) <==> u == v
  {
    if TodosKey(u) == TodosKey(v) {
      assert TodosKey(u)[6..] == Decimal.IntToString(u);
      assert TodosKey(v)[6..] == Decimal.IntToString(v);
      Decimal.IntToStringInjective(u, v);
    }
  }

  /**
   * What the failure branch reads back: the parsed copy when the stored text is truthy and
   * parses, `None` when there is nothing usable (the list shown is then left as it was).
   */
  function Restored<T>(stored: Option<string>, parse: string -> Option<seq<T>>): Option<seq<T>>
  {
    if Truthy(stored) then parse(stored.value) else None
  }

  /** The failure branch's `JSON.parse` throws: a truthy stored copy that does not parse. */
  predicate ParseThrows<T>(stored: Option<string>, parse: string -> Option<seq<T>>)
  {
    Truthy(stored) && parse(stored.value).None?
  }

  /** After a list is mirrored, a failed fetch reads back exactly that list. */
  lemma MirroredUsersReadBack(entries: map<string, string>, data: seq<User>)
    ensures Restored(Lookup(entries[UsersKey := StringifyUsers(data)], UsersKey), ParseUsers) == Some(data)
  {
    UsersRoundTrip(data);
  }

  /**
   * A user's mirrored todos are read back for that user, whatever is mirrored later for
   * another user.
   */
  lemma MirroredTodosReadBack(entries: map<string, string>, u: int, data: seq<Todo>, v: int, other: seq<Todo>)
    requires u != v
    ensures var after := entries[TodosKey(u) := StringifyTodos(data)][TodosKey(v) := StringifyTodos(other)];
      Restored(Lookup(after, TodosKey(u)), ParseTodos) == Some(data)
  {
    TodosKeysAreDistinct(u, v);
    TodosRoundTrip(data);
  }

  /** No stored mirror would make the failure branch throw (every mirror the app writes is readable). */
  ghost predicate MirrorsReadable(entries: map<string, string>)
  {
    !ParseThrows(Lookup(entries, UsersKey), ParseUsers) &&
    forall u :: !ParseThrows(Lookup(entries, TodosKey(u)), ParseTodos)
  }

  /** Login, logout and the settings screen keep the mirrors readable: they write only session keys. */
  lemma SessionWritesKeepMirrorsReadable(entries: map<string, string>, key: string, value: string)
    requires key == UserIdKey || key == UserEmailKey
    requires MirrorsReadable(entries)
    ensures MirrorsReadable(entries[key := value])
    ensures MirrorsReadable(map[])
  {
    forall u ensures Lookup(entries[key := value], TodosKey(u)) == Lookup(entries, TodosKey(u)) {
      TodosKeysAreDistinct(u, u);
    }
  }

  class UsersView {
    var users: seq<User>
    var todos: seq<Todo>
    var lightboxOpen: bool

    /** The state before any effect has run. */
    constructor ()
      ensures users == [] && todos == [] && !lightboxOpen
    {
      users, todos, lightboxOpen := [], [], false;
    }

    /**
     * `fetchUsers`: a received list is shown and mirrored under "users"; on failure the store
     * is only read, and a readable mirrored copy replaces the list shown.
     */
    method FetchUsers(store: KeyValueStore, response: Response<seq<User>>) returns (request: Request)
      modifies this, store
      ensures request == GetUsers
      ensures response.Received? ==>
        users == response.data && store.entries == old(store.entries)[UsersKey := StringifyUsers(response.data)]
      ensures response.Failed? ==>
        store.entries == old(store.entries) &&
        users == Restored(Lookup(old(store.entries), UsersKey), ParseUsers).GetOr(old(users))
      ensures todos == old(todos) && lightboxOpen == old(lightboxOpen)
      ensures MirrorsReadable(old(store.entries)) ==> MirrorsReadable(store.entries)
    {
      request := GetUsers;
      if response.Received? {
        users := response.data;
        store.SetItem(UsersKey, StringifyUsers(response.data));
        UsersRoundTrip(response.data);
        forall u ensures Lookup(store.entries, TodosKey(u)) == Lookup(old(store.entries), TodosKey(u)) {
          TodosKeysAreDistinct(u, u);
        }
      } else {
        var stored := store.GetItem(UsersKey);
        if Truthy(stored) {
          var parsed := ParseUsers(stored.value);
          if parsed.Some? {
            users := parsed.value;
          }
          // otherwise JSON.parse throws and the effect ends here
        }
      }
    }

    /**
     * `handleOpenLightbox`: fetch the user's todos with the same fallback under `todos_<id>`,
     * then open the todo list, unless the fallback's parse threw.
     */
    method HandleOpenLightbox(store: KeyValueStore, userId: int, response: Response<seq<Todo>>) returns (request: Request)
      modifies this, store
      ensures request == GetTodos(userId)
      ensures response.Received? ==>
        todos == response.data && lightboxOpen &&
        store.entries == old(store.entries)[TodosKey(userId) := StringifyTodos(response.data)]
      ensures response.Failed? ==>
        store.entries == old(store.entries) &&
        todos == Restored(Lookup(old(store.entries), TodosKey(userId)), ParseTodos).GetOr(old(todos)) &&
        lightboxOpen == (old(lightboxOpen) || !ParseThrows(Lookup(old(store.entries), TodosKey(userId)), ParseTodos))
      ensures users == old(users)
      ensures MirrorsReadable(old(store.entries)) ==> MirrorsReadable(store.entries) && lightboxOpen
    {
      request := GetTodos(userId);
      if response.Received? {
        todos := response.data;
        store.SetItem(TodosKey(userId), StringifyTodos(response.data));
        TodosRoundTrip(response.data);
        TodosKeysAreDistinct(userId, userId);
        forall u | u != userId ensures Lookup(store.entries, TodosKey(u)) == Lookup(old(store.entries), TodosKey(u)) {
          TodosKeysAreDistinct(u, userId);
        }
      } else {
        var stored := store.GetItem(TodosKey(userId));
        if Truthy(stored) {
          var parsed := ParseTodos(stored.value);
          if parsed.None? {
            return;  // JSON.parse throws inside the catch block: the todo list does not open
          }
          todos := parsed.value;
        }
      }
      lightboxOpen := true;
    }
  }
}
