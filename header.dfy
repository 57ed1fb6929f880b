/** The site header: the dark-mode switch persisted in storage and mirrored on
    the page body, the logout action, and the login link or avatar menu. */
module Header {
  import opened Entities
  import opened Web

  const PlaceholderAvatar := "https://upload.wikimedia.org/wikipedia/commons/7/7c/Profile_avatar_placeholder_large.png"

  /** `JSON.stringify(darkMode)`. */
  function DarkModeText(on: bool): (t: string)
    ensures t != ""
    ensures t == "true" <==> on
  {
    if on then "true" else "false"
  }

  /** `JSON.parse(stored) || false` for the values the header itself writes
      and for an absent key: only "true" turns dark mode on. */
  function InitialDarkMode(stored: Option<string>): (on: bool)
    ensures on <==> stored == Some("true")
  {
    stored == Some("true")
  }

  /** Reading back what was persisted restores the setting. */
  lemma DarkModeRoundTrip(on: bool)
    ensures InitialDarkMode(Some(DarkModeText(on))) == on
  {
  }

  /** The session after a confirmed logout: `user` and `authToken` are gone. */
  function LoggedOut(s: Storage): (r: Storage)
    ensures UserKey !in r && AuthToken !in r
    ensures forall k :: k != UserKey && k != AuthToken ==> (k in r <==> k in s) && (k in s ==> r[k] == s[k])
  {
    s - {UserKey, AuthToken}
  }

  /** Logout keeps the API key, the dark-mode choice and the `token` key, and
      leaves no stored user or token behind. */
  lemma LogoutKeepsKeyAndTheme(s: Storage)
    ensures GetItem(LoggedOut(s), ApiKey) == GetItem(s, ApiKey)
    ensures GetItem(LoggedOut(s), DarkMode) == GetItem(s, DarkMode)
    ensures GetItem(LoggedOut(s), Token) == GetItem(s, Token)
    ensures StoredUser(LoggedOut(s)) == None && !Has(LoggedOut(s), AuthToken)
  {
  }

  /** What the navigation area shows: a login link, or the avatar button of
      the menu with the picture it uses. */
  datatype NavView = LoginLink | Menu(avatarSrc: string)

  function RenderNav(user: Option<User>): (v: NavView)
    ensures v.LoginLink? <==> user.None?
    ensures user.Some? && user.value.avatar.Some? && user.value.avatar.value.url != "" ==> v == Menu(user.value.avatar.value.url)
    ensures user.Some? && (user.value.avatar.None? || user.value.avatar.value.url == "") ==> v == Menu(PlaceholderAvatar)
  {
    match user
    case None => LoginLink
    case Some(u) =>
      Menu(if u.avatar.Some? && u.avatar.value.url != "" then u.avatar.value.url else PlaceholderAvatar)
  }

  class HeaderBar {
    var user: Option<User>
    var darkMode: bool
    var menuOpen: bool

    /** Mounting: the user and the dark-mode setting are read from storage, and
        the setting is at once persisted and applied to the body. */
    constructor (b: Browser)
      requires b.Valid()
      modifies b`storage, b`darkModeClass
      ensures b.Valid()
      ensures user == StoredUser(old(b.storage)) && !menuOpen
      ensures darkMode == InitialDarkMode(GetItem(old(b.storage), DarkMode))
      ensures b.storage == old(b.storage)[DarkMode := Text(DarkModeText(darkMode))]
      ensures b.darkModeClass == darkMode
    {
      user := StoredUser(b.storage);
      darkMode := InitialDarkMode(GetItem(b.storage, DarkMode));
      menuOpen := false;
      new;
      Persist(b);
    }

    /** The effect that runs whenever `darkMode` changes. */
    method Persist(b: Browser)
      requires b.Valid()
      modifies b`storage, b`darkModeClass
      ensures b.Valid()
      ensures b.storage == old(b.storage)[DarkMode := Text(DarkModeText(darkMode))]
      ensures b.darkModeClass == darkMode
    {
      b.SetItem(DarkMode, Text(DarkModeText(darkMode)));
      b.darkModeClass := darkMode;
    }

    /** `toggleDarkMode`, followed by the persisting effect. */
    method ToggleDarkMode(b: Browser)
      requires b.Valid()
      modifies this`darkMode, b`storage, b`darkModeClass
      ensures b.Valid()
      ensures darkMode == !old(darkMode)
      ensures b.storage == old(b.storage)[DarkMode := Text(DarkModeText(darkMode))]
      ensures b.darkModeClass == darkMode
      ensures InitialDarkMode(GetItem(b.storage, DarkMode)) == darkMode
    {
      darkMode := !darkMode;
      Persist(b);
    }

    /** `handleLogout`: a cancelled confirmation changes nothing; otherwise the
        user and token are removed and the login page opens. */
    method Logout(b: Browser, confirmed: bool)
      requires b.Valid()
      modifies this`user, b`storage, b`visited
      ensures b.Valid()
      ensures !confirmed ==> user == old(user) && b.storage == old(b.storage) && b.visited == old(b.visited)
      ensures confirmed ==> user == None && b.storage == LoggedOut(old(b.storage))
      ensures confirmed ==> b.visited == old(b.visited) + [GoTo("/login")]
    {
      if !confirmed {
        return;
      }
      b.RemoveItem(UserKey);
      b.RemoveItem(AuthToken);
      assert b.storage == LoggedOut(old(b.storage));
      user := None;
      b.Navigate(GoTo("/login"));
    }

    function Nav(): NavView
      reads this
    {
      RenderNav(user)
    }
  }

  /** Toggling twice restores the setting, the stored value and the body class. */
  method ToggleTwice(h: HeaderBar, b: Browser)
    requires b.Valid()
    requires b.storage == b.storage[DarkMode := Text(DarkModeText(h.darkMode))] && b.darkModeClass == h.darkMode
    modifies h`darkMode, b`storage, b`darkModeClass
    ensures b.Valid()
    ensures h.darkMode == old(h.darkMode) && b.storage == old(b.storage) && b.darkModeClass == old(b.darkModeClass)
  {
    h.ToggleDarkMode(b);
    h.ToggleDarkMode(b);
  }
}
