/** The browser's `localStorage` as the session core uses it: a shared, mutable map from
    string keys to string values, of which two keys hold the persisted session. */
module LocalStorage {
  import opened Wrappers

  /** Holds the session token. */
  const AuthTokenKey := "authToken"
  /** Holds the JSON text of the session identity. */
  const UserKey := "user"

  /** What `getItem(key)` returns from the entries `items`: `None` is `null`. */
  function Get(items: map<string, string>, key: string): Option<string>
  {
    if key in items then Some(items[key]) else None
  }

  /** The store with both session keys removed and every other key kept. */
  function Cleared(items: map<string, string>): (r: map<string, string>)
  {
    items - {AuthTokenKey, UserKey}
  }

  /** JavaScript truthiness of the string-or-null that `getItem` returns. */
  predicate Truthy(v: Option<string>)
  {
    v.Some? && v.value != ""
  }

  /** Clearing removes both keys, keeps every other entry, and a second clearing changes nothing. */
  lemma ClearedSpec(items: map<string, string>)
    ensures AuthTokenKey !in Cleared(items) && UserKey !in Cleared(items)
    ensures forall k :: k in items && k != AuthTokenKey && k != UserKey ==> k in Cleared(items) && Cleared(items)[k] == items[k]
    ensures Cleared(items).Keys <= items.Keys
    ensures Cleared(Cleared(items)) == Cleared(items)
  {
  }

  class Storage {
    var items: map<string, string>

    constructor (initial: map<string, string>)
      ensures items == initial
    {
      items := initial;
    }

    /** `localStorage.getItem(key)`. */
    function GetItem(key: string): (r: Option<string>)
      reads this
      ensures r.Some? <==> key in items
      ensures r.Some? ==> r.value == items[key]
    {
      Get(items, key)
    }

    /** `localStorage.setItem(key, value)`. */
    method SetItem(key: string, value: string)
      modifies this
      ensures items == old(items)[key := value]
    {
      items := items[key := value];
    }

    /** `localStorage.removeItem(key)`: removing an absent key is allowed and changes nothing. */
    method RemoveItem(key: string)
      modifies this
      ensures items == old(items) - {key}
    {
      items := items - {key};
    }

    /** The two `removeItem` calls that every session-clearing path makes. */
    method RemoveSession()
      modifies this
      ensures items == Cleared(old(items))
    {
      RemoveItem(AuthTokenKey);
      RemoveItem(UserKey);
    }
  }
}
