/** The "My Bookings" page: a credential check that clears the session when
    it fails, then the user's bookings or an error message. */
module MyBookings {
  import opened Entities
  import opened Api
  import opened Web

  const FetchError := "Failed to fetch bookings."

  /** The page's credential check: token, profile and API key all stored. */
  predicate Authorized(s: Storage)
  {
    Has(s, AuthToken) && StoredUser(s).Some? && Has(s, ApiKey)
  }

  /** The session the failed check leaves: token and profile removed, the API
      key and everything else kept. */
  function Cleared(s: Storage): (r: Storage)
    ensures AuthToken !in r && UserKey !in r
    ensures forall k :: k != AuthToken && k != UserKey ==> (k in r <==> k in s) && (k in s ==> r[k] == s[k])
  {
    s - {AuthToken, UserKey}
  }

  /** Clearing a session leaves one the check refuses, and clearing it again
      changes nothing. */
  lemma ClearedStaysUnauthorized(s: Storage)
    ensures !Authorized(Cleared(s))
    ensures Cleared(Cleared(s)) == Cleared(s)
    ensures GetItem(Cleared(s), ApiKey) == GetItem(s, ApiKey)
  {
  }

  /** What the page renders. */
  datatype View = Loading | ErrorText(message: string) | NoBookings | BookingList(bookings: seq<Booking>)

  /** Loading first, then a non-empty error, then the empty notice or the list. */
  function Render(loading: bool, error: Option<string>, bookings: seq<Booking>): (v: View)
    ensures loading <==> v == Loading
    ensures !loading && Truthy(error) ==> v == ErrorText(error.value)
    ensures v == NoBookings <==> !loading && !Truthy(error) && bookings == []
    ensures v.BookingList? ==> v.bookings == bookings && bookings != []
  {
    if loading then Loading
    else if Truthy(error) then ErrorText(error.value)
    else if bookings == [] then NoBookings
    else BookingList(bookings)
  }

  class MyBookingsPage {
    var bookings: seq<Booking>
    var loading: bool
    var error: Option<string>

    constructor ()
      ensures bookings == [] && loading && error == None
    {
      bookings := [];
      loading := true;
      error := None;
    }

    /** `fetchBookings`. A failed check clears the session, goes to the login
        page, sends nothing and leaves the page loading. Otherwise the request
        names the stored user's profile and loading ends on every path. */
    method FetchBookings(b: Browser, response: Response<seq<Booking>>)
      requires b.Valid()
      modifies this, b`storage, b`sent, b`visited
      ensures b.Valid()
      ensures !Authorized(old(b.storage)) ==>
                b.storage == Cleared(old(b.storage)) && b.sent == old(b.sent)
                && b.visited == old(b.visited) + [GoTo("/login")]
                && bookings == old(bookings) && loading == old(loading) && error == old(error)
      ensures var s := old(b.storage);
              Authorized(s) ==>
                b.storage == s && b.visited == old(b.visited) && !loading
                && b.sent == old(b.sent) + [ProfileBookings(StoredUser(s).value.name, GetItem(s, AuthToken).value, GetItem(s, ApiKey).value)]
      ensures Authorized(old(b.storage)) && response.Ok? ==> bookings == response.payload && error == old(error)
      ensures Authorized(old(b.storage)) && !response.Ok? ==> bookings == old(bookings) && error == Some(ThrownMessage(response, FetchError))
    {
      var token := GetItem(b.storage, AuthToken);
      var user := StoredUser(b.storage);
      var apiKey := GetItem(b.storage, ApiKey);
      if !Truthy(token) || user.None? || !Truthy(apiKey) {
        b.RemoveItem(AuthToken);
        b.RemoveItem(UserKey);
        assert b.storage == Cleared(old(b.storage));
        b.Navigate(GoTo("/login"));
        return;
      }
      b.Send(ProfileBookings(user.value.name, token.value, apiKey.value));
      if response.Ok? {
        bookings := response.payload;
      } else {
        error := Some(ThrownMessage(response, FetchError));
      }
      loading := false;
    }

    function Shown(): View
      reads this
    {
      Render(loading, error, bookings)
    }
  }
}
