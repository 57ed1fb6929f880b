/** The "My Venues" page: a credential check that leaves the session alone,
    then the manager's venues or an error message. */
module MyVenues {
  import opened Entities
  import opened Api
  import opened Web

  const FetchError := "Failed to fetch venues."

  /** The page's credential check: profile, token and API key all stored. */
  predicate Authorized(s: Storage)
  {
    StoredUser(s).Some? && Has(s, AuthToken) && Has(s, ApiKey)
  }

  /** The rating line: a missing or zero rating reads "Not Rated" (`None`). */
  function RatingText(rating: Option<real>): (r: Option<real>)
    ensures r.None? <==> rating.None? || rating.value == 0.0
    ensures r.Some? ==> r == rating
  {
    if rating.Some? && rating.value != 0.0 then rating else None
  }

  /** One listed venue and the two pages its buttons open. */
  datatype VenueEntry = VenueEntry(name: string, rating: Option<real>, editPath: string, viewPath: string)

  function RenderVenue(v: Venue): (e: VenueEntry)
    ensures e.name == v.name && e.rating == RatingText(v.rating)
    ensures e.viewPath == "/venues/" + v.id && e.editPath == e.viewPath + "/edit"
  {
    VenueEntry(v.name, RatingText(v.rating), "/venues/" + v.id + "/edit", "/venues/" + v.id)
  }

  function RenderVenues(venues: seq<Venue>): (r: seq<VenueEntry>)
    ensures |r| == |venues|
    ensures forall i :: 0 <= i < |venues| ==> r[i] == RenderVenue(venues[i])
  {
    if venues == [] then [] else [RenderVenue(venues[0])] + RenderVenues(venues[1..])
  }

  /** What the page renders. */
  datatype View = Loading | ErrorText(message: string) | NoVenues | VenueList(entries: seq<VenueEntry>)

  function Render(loading: bool, error: Option<string>, venues: seq<Venue>): (v: View)
    ensures loading <==> v == Loading
    ensures !loading && Truthy(error) ==> v == ErrorText(error.value)
    ensures v == NoVenues <==> !loading && !Truthy(error) && venues == []
    ensures v.VenueList? ==> v.entries == RenderVenues(venues) && venues != []
  {
    if loading then Loading
    else if Truthy(error) then ErrorText(error.value)
    else if venues == [] then NoVenues
    else VenueList(RenderVenues(venues))
  }

  class MyVenuesPage {
    var venues: seq<Venue>
    var loading: bool
    var error: Option<string>

    constructor ()
      ensures venues == [] && loading && error == None
    {
      venues := [];
      loading := true;
      error := None;
    }

    /** The effect on mount. A failed check goes to the login page and sends
        nothing, without touching storage. Otherwise the request names the
        stored user's profile and loading ends on every path. */
    method FetchVenues(b: Browser, response: Response<seq<Venue>>)
      modifies this, b`sent, b`visited
      ensures !Authorized(b.storage) ==>
                b.sent == old(b.sent) && b.visited == old(b.visited) + [GoTo("/login")]
                && venues == old(venues) && loading == old(loading) && error == old(error)
      ensures var s := b.storage;
              Authorized(s) ==>
                b.visited == old(b.visited) && !loading
                && b.sent == old(b.sent) + [ProfileVenues(StoredUser(s).value.name, GetItem(s, AuthToken).value, GetItem(s, ApiKey).value)]
      ensures Authorized(b.storage) && response.Ok? ==> venues == response.payload && error == old(error)
      ensures Authorized(b.storage) && !response.Ok? ==> venues == old(venues) && error == Some(ThrownMessage(response, FetchError))
    {
      var user := StoredUser(b.storage);
      var token := GetItem(b.storage, AuthToken);
      var apiKey := GetItem(b.storage, ApiKey);
      if user.None? || !Truthy(token) || !Truthy(apiKey) {
        b.Navigate(GoTo("/login"));
        return;
      }
      b.Send(ProfileVenues(user.value.name, token.value, apiKey.value));
      if response.Ok? {
        venues := response.payload;
      } else {
        error := Some(ThrownMessage(response, FetchError));
      }
      loading := false;
    }

    function Shown(): View
      reads this
    {
      Render(loading, error, venues)
    }
  }
}
