/** The browser globals the pages share: `localStorage`, the requests sent with
    `fetch`, the destinations passed to `navigate`, and the `dark-mode` class on
    `document.body`. */
module Web {
  import opened Entities
  import opened Api

  /** The storage keys the pages use. */
  datatype Key = UserKey | AuthToken | ApiKey | DarkMode | Token

  /** A stored value: plain text, or the user profile the pages write with
      `JSON.stringify` and read back with `JSON.parse`. */
  datatype Entry = Text(text: string) | Json(user: User)

  type Storage = map<Key, Entry>

  /** Only the `user` key holds a profile; every other key holds text. */
  ghost predicate WellTyped(s: Storage)
  {
    forall k :: k in s ==> (s[k].Json? <==> k == UserKey)
  }

  /** `localStorage.getItem(k)` for a text key; `None` is `null`. */
  function GetItem(s: Storage, k: Key): (r: Option<string>)
    ensures WellTyped(s) && k != UserKey ==> (r.Some? <==> k in s)
    ensures r.Some? ==> k in s && s[k] == Text(r.value)
  {
    if k in s && s[k].Text? then Some(s[k].text) else None
  }

  /** `!!localStorage.getItem(k)`: the key is present and not empty. */
  predicate Has(s: Storage, k: Key): (b: bool)
    ensures b <==> k in s && s[k].Text? && s[k].text != ""
  {
    Truthy(GetItem(s, k))
  }

  /** `JSON.parse(localStorage.getItem("user"))`; `None` is `null`. */
  function StoredUser(s: Storage): (u: Option<User>)
    ensures WellTyped(s) ==> (u.Some? <==> UserKey in s)
    ensures u.Some? ==> UserKey in s && s[UserKey] == Json(u.value)
  {
    if UserKey in s && s[UserKey].Json? then Some(s[UserKey].user) else None
  }

  /** A call to `navigate(path, { state })`. */
  datatype Navigation = Navigation(path: string, draft: Option<BookingDraft>)

  function GoTo(path: string): Navigation
  {
    Navigation(path, None)
  }

  class Browser {
    var storage: Storage
    var sent: seq<Request>
    var visited: seq<Navigation>
    var darkModeClass: bool

    ghost predicate Valid()
      reads this
    {
      WellTyped(storage)
    }

    constructor (initial: Storage)
      requires WellTyped(initial)
      ensures Valid()
      ensures storage == initial && sent == [] && visited == [] && !darkModeClass
    {
      storage := initial;
      sent := [];
      visited := [];
      darkModeClass := false;
    }

    /** `localStorage.setItem(k, v)`. */
    method SetItem(k: Key, e: Entry)
      requires Valid()
      requires e.Json? <==> k == UserKey
      modifies this`storage
      ensures Valid()
      ensures storage == old(storage)[k := e]
    {
      storage := storage[k := e];
    }

    /** `localStorage.removeItem(k)`. */
    method RemoveItem(k: Key)
      requires Valid()
      modifies this`storage
      ensures Valid()
      ensures storage == old(storage) - {k}
    {
      storage := storage - {k};
    }

    /** `fetch(...)`: the request leaves the page. */
    method Send(r: Request)
      modifies this`sent
      ensures sent == old(sent) + [r]
    {
      sent := sent + [r];
    }

    /** `navigate(...)`. */
    method Navigate(n: Navigation)
      modifies this`visited
      ensures visited == old(visited) + [n]
    {
      visited := visited + [n];
    }
  }
}
