/** The dashboard: the stored profile on show, and the "become a venue
    manager" action that rewrites it. */
module Dashboard {
  import opened Entities
  import opened Web

  /** The profile after `becomeVenueManager`: the flag set, nothing else touched. */
  function Promoted(u: User): (r: User)
    ensures r.venueManager
    ensures r.name == u.name && r.email == u.email && r.avatar == u.avatar && r.banner == u.banner
    ensures r.accessToken == u.accessToken
    ensures u.venueManager ==> r == u
  {
    u.(venueManager := true)
  }

  /** Promoting twice is promoting once. */
  lemma PromotedIdempotent(u: User)
    ensures Promoted(Promoted(u)) == Promoted(u)
  {
  }

  /** The session after the action: the promoted profile replaces the stored one. */
  function PromotedSession(s: Storage, u: User): (r: Storage)
    ensures StoredUser(r) == Some(Promoted(u))
    ensures forall k :: k != UserKey ==> (k in r <==> k in s) && (k in s ==> r[k] == s[k])
  {
    s[UserKey := Json(Promoted(u))]
  }

  /** Applying the action to the session it produced changes nothing more. */
  lemma PromotedSessionIdempotent(s: Storage, u: User)
    ensures PromotedSession(PromotedSession(s, u), Promoted(u)) == PromotedSession(s, u)
  {
  }

  class DashboardPage {
    var user: Option<User>
    var isVenueManager: bool
    var showRegisterButton: bool

    constructor ()
      ensures user == None && !isVenueManager && !showRegisterButton
    {
      user := None;
      isVenueManager := false;
      showRegisterButton := false;
    }

    /** The effect on mount: no stored user sends the visitor to the login
        page; otherwise the profile is shown and the manager flag mirrors it. */
    method Mount(b: Browser)
      modifies this`user, this`isVenueManager, b`visited
      ensures StoredUser(b.storage).None? ==>
                b.visited == old(b.visited) + [GoTo("/login")] && user == old(user) && isVenueManager == old(isVenueManager)
      ensures StoredUser(b.storage).Some? ==>
                b.visited == old(b.visited) && user == StoredUser(b.storage) && isVenueManager == user.value.venueManager
    {
      var stored := StoredUser(b.storage);
      if stored.None? {
        b.Navigate(GoTo("/login"));
      } else {
        user := stored;
        isVenueManager := stored.value.venueManager;
      }
    }

    /** `becomeVenueManager`: a no-op until a profile is loaded; then the
        promoted profile is shown, stored, and the register button appears. */
    method BecomeVenueManager(b: Browser)
      requires b.Valid()
      modifies this`user, this`isVenueManager, this`showRegisterButton, b`storage
      ensures b.Valid()
      ensures old(user).None? ==>
                user == old(user) && isVenueManager == old(isVenueManager)
                && showRegisterButton == old(showRegisterButton) && b.storage == old(b.storage)
      ensures old(user).Some? ==>
                user == Some(Promoted(old(user).value)) && isVenueManager && showRegisterButton
                && b.storage == PromotedSession(old(b.storage), old(user).value)
    {
      if user.None? {
        return;
      }
      var updated := Promoted(user.value);
      user := Some(updated);
      isVenueManager := true;
      b.SetItem(UserKey, Json(updated));
      showRegisterButton := true;
    }

    /** The register button shows only to a manager who used the action here. */
    predicate RegisterButtonShown()
      reads this
    {
      isVenueManager && showRegisterButton
    }
  }

  /** Using the action twice leaves the stored profile as one use does, and
      the register button is shown afterwards. */
  method PromoteTwice(page: DashboardPage, b: Browser)
    requires b.Valid() && page.user.Some?
    modifies page`user, page`isVenueManager, page`showRegisterButton, b`storage
    ensures b.Valid()
    ensures b.storage == PromotedSession(old(b.storage), old(page.user).value)
    ensures page.RegisterButtonShown()
  {
    page.BecomeVenueManager(b);
    page.BecomeVenueManager(b);
    PromotedSessionIdempotent(old(b.storage), old(page.user).value);
  }
}
