/** The browser's `localStorage`: a string-to-string map that the panel reads and writes. */
module Storage {
  import opened Wrappers

  /** `localStorage.getItem(key)` as a value: absent keys give `null`. */
  function Lookup(m: map<string, string>, key: string): (v: Option<string>)
    ensures v.Some? <==> key in m
    ensures v.Some? ==> v.value == m[key]
  {
    if key in m then Some(m[key]) else None
  }

  class LocalStorage {
    var items: map<string, string>

    constructor (initial: map<string, string>)
      ensures items == initial
    {
      items := initial;
    }

    method GetItem(key: string) returns (v: Option<string>)
      ensures v == Lookup(items, key)
    {
      v := if key in items then Some(items[key]) else None;
    }

    /** `setItem` stores the value under the key, replacing any earlier one. */
    method SetItem(key: string, value: string)
      modifies this
      ensures items == old(items)[key := value]
    {
      items := items[key := value];
    }

    /** `removeItem` deletes the key; a missing key is not an error. */
    method RemoveItem(key: string)
      modifies this
      ensures items == old(items) - {key}
    {
      items := items - {key};
    }

    /** `clear` deletes every key. */
    method Clear()
      modifies this
      ensures items == map[]
    {
      items := map[];
    }
  }
}
