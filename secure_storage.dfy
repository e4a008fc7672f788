/**
 * The device's secure key-value store, which outlives a component: what one
 * instance writes, a later instance reads back on mount.
 */
module SecureStorage {
  import opened Wrappers

  class SecureStore {
    var items: map<string, string>

    constructor (initial: map<string, string>)
      ensures items == initial
    {
      items := initial;
    }

    /** `getItemAsync(key)`: the stored text, or null when nothing is stored under the key. */
    method GetItem(key: string) returns (v: Option<string>)
      ensures v.Some? <==> key in items
      ensures v.Some? ==> v.value == items[key]
    {
      v := if key in items then Some(items[key]) else None;
    }

    /** `setItemAsync(key, value)`: stores `value` under `key`, leaving other keys alone. */
    method SetItem(key: string, value: string)
      modifies this
      ensures items == old(items)[key := value]
    {
      items := items[key := value];
    }
  }
}
