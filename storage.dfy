/**
 * The device's persistent key-value store (AsyncStorage): string keys, string values,
 * `getItem` answering `null` for a missing key, `setItem` and `clear`.
 * Failures of the store itself are not modelled.
 */
module Storage {
  import opened Basics

  /** Key of the logged-in user's id, written at login (components/Header.tsx). */
  const UserIdKey: string := "userId"
  /** Key of the logged-in user's e-mail, written at login and by the settings screen. */
  const UserEmailKey: string := "userEmail"
  /** Key of the mirrored user list (components/Users.tsx). */
  const UsersKey: string := "users"

  /** What `getItem(key)` answers for the given contents. */
  function Lookup(entries: map<string, string>, key: string): (v: Option<string>)
    ensures v.Some? <==> key in entries
    ensures v.Some? ==> v.value == entries[key]
  {
    if key in entries then Some(entries[key]) else None
  }

  /** JavaScript truthiness of a `getItem` answer: `null` and the empty string are falsy. */
  predicate Truthy(v: Option<string>)
  {
    v.Some? && v.value != ""
  }

  class KeyValueStore {
    var entries: map<string, string>

    /** A store with nothing in it, as on a fresh installation. */
    constructor ()
      ensures entries == map[]
    {
      entries := map[];
    }

    method GetItem(key: string) returns (v: Option<string>)
      ensures v.Some? <==> key in entries
      ensures v.Some? ==> v.value == entries[key]
    {
      v := Lookup(entries, key);
    }

    method SetItem(key: string, value: string)
      modifies this
      ensures entries == old(entries)[key := value]
    {
      entries := entries[key := value];
    }

    /** Removes every entry, whoever wrote it. */
    method Clear()
      modifies this
      ensures entries == map[]
    {
      entries := map[];
    }
  }
}
