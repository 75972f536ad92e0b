/** The browser's `localStorage`: a string-to-string store that survives a page reload. */
module Storage {
  import opened Wrappers

  /** Removing a key forgets any value it was just given. */
  lemma RemoveAfterSet(m: map<string, string>, k: string, v: string, keys: set<string>)
    requires k in keys
    ensures m[k := v] - keys == m - keys
  {
  }

  /** Removing keys a second time, or after removing some of them, changes nothing more. */
  lemma RemoveAbsorbs(m: map<string, string>, first: set<string>, keys: set<string>)
    requires first <= keys
    ensures m - first - keys == m - keys
  {
  }

  /** Removing again keys that are already gone changes nothing. */
  lemma RemoveWithin(m: map<string, string>, keys: set<string>, again: set<string>)
    requires again <= keys
    ensures m - keys - again == m - keys
  {
  }

  /** Setting a key makes a removal of that key just before it irrelevant. */
  lemma SetAfterRemove(m: map<string, string>, k: string, v: string)
    ensures (m - {k})[k := v] == m[k := v]
  {
  }

  /** Giving a key the value it was just given changes nothing. */
  lemma SetTwice(m: map<string, string>, k: string, v: string)
    ensures m[k := v][k := v] == m[k := v]
  {
  }

  class LocalStorage {
    var items: map<string, string>

    constructor (initial: map<string, string>)
      ensures items == initial
    {
      items := initial;
    }

    /** `getItem(key)`: `None` stands for the `null` returned for a missing key. */
    function GetItem(key: string): (r: Option<string>)
      reads this
      ensures r.Some? <==> key in items
      ensures r.Some? ==> r.value == items[key]
    {
      if key in items then Some(items[key]) else None
    }

    /** `setItem(key, value)`: only `key` changes. */
    method SetItem(key: string, value: string)
      modifies this
      ensures items == old(items)[key := value]
    {
      items := items[key := value];
    }

    /** `removeItem(key)`: only `key` changes; removing a missing key changes nothing. */
    method RemoveItem(key: string)
      modifies this
      ensures items == old(items) - {key}
    {
      items := items - {key};
    }
  }
}
