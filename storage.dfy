/** `window.localStorage`: a string-keyed, string-valued store shared by the whole client. */
module Storage {
  import opened Wrappers

  const TokenKey := "accessToken"
  const UserKey := "user"
  const ThemeKey := "codeTheme"

  /** `localStorage.getItem(key)`, with `None` for null. */
  function GetItem(items: map<string, string>, key: string): (r: Option<string>)
    ensures r.Some? <==> key in items
  {
    if key in items then Some(items[key]) else None
  }

  /** `!!localStorage.getItem(key)`: the key holds a non-empty string. */
  predicate HasText(items: map<string, string>, key: string) {
    key in items && items[key] != ""
  }

  class Store {
    var items: map<string, string>

    constructor (initial: map<string, string>)
      ensures items == initial
    {
      items := initial;
    }

    method SetItem(key: string, value: string)
      modifies this
      ensures items == old(items)[key := value]
    {
      items := items[key := value];
    }

    method RemoveItem(key: string)
      modifies this
      ensures items == old(items) - {key}
    {
      items := items - {key};
    }
  }
}
