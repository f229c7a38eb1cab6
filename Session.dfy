/** The browser's persistent key-value store, where the login token lives. */
module Session {
  import opened Optional

  /** The key the login form writes and the listing form reads. */
  const TokenKey := "token"

  class Storage {
    var items: map<string, string>

    /** A store with nothing in it, as at first start. */
    constructor ()
      ensures items == map[]
    {
      items := map[];
    }

    /** `getItem`: the stored string, or `None` (JavaScript's null) when the key was never set. */
    function GetItem(key: string): (r: Option<string>)
      reads this
      ensures r.Some? <==> key in items
      ensures r.Some? ==> r.value == items[key]
    {
      Find(items, key)
    }

    /** `setItem`: stores `value` under `key`, replacing any earlier value. */
    method SetItem(key: string, value: string)
      modifies this
      ensures items == old(items)[key := value]
      ensures GetItem(key) == Some(value)
      ensures forall k | k != key :: GetItem(k) == old(GetItem(k))
    {
      items := items[key := value];
    }
  }
}
