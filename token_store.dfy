/**
 * The browser's `localStorage` as the session code uses it: a string-to-string
 * map under two keys, shared by the session provider and the HTTP client.
 */
module TokenStore {
  import opened Wrappers

  const AuthTokenKey: string := "authToken"
  const RefreshTokenKey: string := "refreshToken"

  /** `localStorage.getItem(key)`: `None` plays the part of JavaScript's `null`. */
  function Lookup(items: map<string, string>, key: string): Option<string> {
    if key in items then Some(items[key]) else None
  }

  class LocalStorage {
    var items: map<string, string>

    constructor (initial: map<string, string>)
      ensures items == initial
    {
      items := initial;
    }

    method GetItem(key: string) returns (v: Option<string>)
      ensures v.Some? <==> key in items
      ensures v.Some? ==> v.value == items[key]
    {
      v := Lookup(items, key);
    }

    method SetItem(key: string, value: string)
      modifies this
      ensures items == old(items)[key := value]
    {
      items := items[key := value];
    }

    method RemoveItem(key: string)
      modifies this
      ensures items == old(items) - {key}
    {
      items := items - {key};
    }
  }
}
