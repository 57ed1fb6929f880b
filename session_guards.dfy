/** The credential checks of the pages side by side, and how the operations
    that write the session move a visitor between them. Each page checks a
    different set of stored keys. */
module SessionGuards {
  import opened Entities
  import opened Api
  import opened Web
  import VenueDetails
  import Login
  import Header
  import Dashboard
  import Avatar
  import MyBookings
  import MyVenues

  /** The booking check on the venue page: a stored token. */
  predicate BookingAllowed(s: Storage)
  {
    Has(s, AuthToken)
  }

  /** The check of the venue edit form's submit: token and API key. */
  predicate EditAllowed(s: Storage)
  {
    Has(s, AuthToken) && Has(s, ApiKey)
  }

  /** The venue page goes on to the confirmation page exactly when the booking
      check passes. */
  lemma BookingGuardIsToken(s: Storage, venue: Venue, start: Option<int>, end: Option<int>, guests: int)
    ensures VenueDetails.ConfirmNavigation(s, venue, start, end, guests).path == "/confirm" <==> BookingAllowed(s)
  {
  }

  /** The checks are nested: the two list pages agree with each other and ask
      for more than the edit form, which asks for more than booking. */
  lemma GuardsNested(s: Storage)
    ensures MyVenues.Authorized(s) <==> MyBookings.Authorized(s)
    ensures MyBookings.Authorized(s) ==> EditAllowed(s)
    ensures EditAllowed(s) ==> BookingAllowed(s)
  {
  }

  /** The nesting is strict: a token alone lets a visitor book but not edit,
      and token and key without a stored profile let a visitor edit but not
      list bookings or venues. */
  lemma GuardsDiffer()
    ensures var s := map[AuthToken := Text("t")];
            BookingAllowed(s) && !EditAllowed(s)
    ensures var s := map[AuthToken := Text("t"), ApiKey := Text("k")];
            EditAllowed(s) && !MyBookings.Authorized(s) && !MyVenues.Authorized(s)
  {
    var s := map[AuthToken := Text("t"), ApiKey := Text("k")];
    assert StoredUser(s) == None;
  }

  /** A login with a non-empty token that ends with an API key stored passes
      every check but the creation page's, whose `token` key it leaves as it was. */
  lemma LoginPassesGuards(s: Storage, user: User, keyResponse: Response<string>)
    requires user.accessToken != ""
    requires Has(s, ApiKey) || (keyResponse.Ok? && keyResponse.payload != "")
    ensures var r := Login.AfterLogin(s, user, keyResponse);
            BookingAllowed(r) && EditAllowed(r) && MyBookings.Authorized(r) && MyVenues.Authorized(r)
    ensures GetItem(Login.AfterLogin(s, user, keyResponse), Token) == GetItem(s, Token)
  {
    Login.LoginProvidesCredentials(s, user, keyResponse);
  }

  /** After logout every check fails, though the API key is still stored. */
  lemma LogoutFailsGuards(s: Storage)
    ensures var r := Header.LoggedOut(s);
            !BookingAllowed(r) && !EditAllowed(r) && !MyBookings.Authorized(r) && !MyVenues.Authorized(r)
    ensures GetItem(Header.LoggedOut(s), ApiKey) == GetItem(s, ApiKey)
  {
  }

  /** After the My Bookings page clears a session, every check fails as after
      logout, and the session is the one logout leaves. */
  lemma ClearedEqualsLoggedOut(s: Storage)
    ensures MyBookings.Cleared(s) == Header.LoggedOut(s)
  {
  }

  /** Rewriting the stored profile (becoming a manager, a new avatar) keeps or
      grants every check: a profile is then stored and token and key are untouched. */
  lemma ProfileRewritesKeepGuards(s: Storage, u: User, url: string)
    ensures var r := Dashboard.PromotedSession(s, u);
            (EditAllowed(r) <==> EditAllowed(s)) && (MyBookings.Authorized(r) <==> EditAllowed(s))
    ensures var r := s[UserKey := Json(Avatar.WithAvatar(u, url))];
            (EditAllowed(r) <==> EditAllowed(s)) && (MyVenues.Authorized(r) <==> EditAllowed(s))
  {
  }

  /** No session operation writes the `token` key the creation page reads, so
      a session that starts without it keeps sending that page's requests with
      no credential. */
  lemma NothingWritesToken(s: Storage, user: User, keyResponse: Response<string>, url: string)
    ensures GetItem(Login.AfterLogin(s, user, keyResponse), Token) == GetItem(s, Token)
    ensures GetItem(Header.LoggedOut(s), Token) == GetItem(s, Token)
    ensures GetItem(MyBookings.Cleared(s), Token) == GetItem(s, Token)
    ensures GetItem(Dashboard.PromotedSession(s, user), Token) == GetItem(s, Token)
    ensures GetItem(s[UserKey := Json(Avatar.WithAvatar(user, url))], Token) == GetItem(s, Token)
  {
  }
}
