/**
 * The device's secure key-value store, as the application uses it: three
 * fixed keys, read, written and deleted one at a time.
 */
module Storage {
  import opened Wrappers
  import opened Types

  const TokenKey := "token"
  const RefreshTokenKey := "refresh_token"
  const UserKey := "user"

  /**
   * A stored value: plain text (the two tokens), or the driver profile that
   * the application writes as JSON. The JSON text itself is not modelled.
   */
  datatype StoredValue = Text(text: string) | UserRecord(user: User)

  /** What `getItemAsync(key)` yields: the stored value, or None when the key is absent. */
  function Lookup(items: map<string, StoredValue>, key: string): Option<StoredValue> {
    if key in items then Some(items[key]) else None
  }

  /** What reading the `token` key yields as a string, or None. */
  function StoredToken(items: map<string, StoredValue>): Option<string> {
    if TokenKey in items && items[TokenKey].Text? then Some(items[TokenKey].text) else None
  }

  /** The secure store: one map that every read, write and delete goes through. */
  class SecureStore {
    var items: map<string, StoredValue>

    constructor (initial: map<string, StoredValue>)
      ensures items == initial
    {
      items := initial;
    }

    method GetItem(key: string) returns (v: Option<StoredValue>)
      ensures v == Lookup(items, key)
    {
      v := if key in items then Some(items[key]) else None;
    }

    method SetItem(key: string, v: StoredValue)
      modifies this
      ensures items == old(items)[key := v]
    {
      items := items[key := v];
    }

    method DeleteItem(key: string)
      modifies this
      ensures items == old(items) - {key}
    {
      items := items - {key};
    }
  }
}
