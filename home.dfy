/** The home page: installs the fetched venue list and filters it by name. */
module Home {
  import opened Strings
  import opened Entities
  import opened Api
  import opened Web

  const FetchError := "Failed to fetch venues. Please try again later."

  /** The test of the search filter: the lower-cased name contains the
      lower-cased query. */
  predicate NameMatches(v: Venue, query: string)
  {
    Includes(Lower(v.name), Lower(query))
  }

  /** `venues.filter(...)` with `NameMatches`: exactly the matching venues. */
  function FilterByName(venues: seq<Venue>, query: string): (r: seq<Venue>)
    ensures |r| <= |venues|
    ensures forall v :: v in r ==> v in venues && NameMatches(v, query)
    ensures forall v :: v in venues && NameMatches(v, query) ==> v in r
  {
    if venues == [] then []
    else
      var rest := FilterByName(venues[1..], query);
      if NameMatches(venues[0], query) then [venues[0]] + rest else rest
  }

  /** `r` is `s` with some elements left out, the rest in their original order. */
  predicate IsSubsequence<T(==)>(r: seq<T>, s: seq<T>)
  {
    r == [] || (s != [] && ((r[0] == s[0] && IsSubsequence(r[1..], s[1..])) || IsSubsequence(r, s[1..])))
  }

  /** What `handleSearch` installs as `filteredVenues`: the whole list for an
      empty destination, the name filter over the whole list otherwise. */
  function SearchResult(venues: seq<Venue>, destination: string): (r: seq<Venue>)
    ensures |r| <= |venues|
    ensures destination == "" ==> r == venues
    ensures destination != "" ==> forall v :: v in venues ==> (v in r <==> NameMatches(v, destination))
  {
    if destination == "" then venues else FilterByName(venues, destination)
  }

  /** The filter keeps the order of the list it filters. */
  lemma {:induction false} FilterIsSubsequence(venues: seq<Venue>, query: string)
    ensures IsSubsequence(FilterByName(venues, query), venues)
  {
    if venues != [] {
      FilterIsSubsequence(venues[1..], query);
      var rest := FilterByName(venues[1..], query);
      if !NameMatches(venues[0], query) && rest != [] {
        assert IsSubsequence(rest, venues[1..]);
      }
    }
  }

  /** Filtering a filtered list again with the same query changes nothing. */
  lemma {:induction false} FilterIdempotent(venues: seq<Venue>, query: string)
    ensures FilterByName(FilterByName(venues, query), query) == FilterByName(venues, query)
  {
    if venues != [] {
      FilterIdempotent(venues[1..], query);
      var rest := FilterByName(venues[1..], query);
      if NameMatches(venues[0], query) {
        assert ([venues[0]] + rest)[1..] == rest;
      }
    }
  }

  /** The empty query matches every name, so the early return for an empty
      destination agrees with what the filter would give. */
  lemma {:induction false} FilterEmptyQuery(venues: seq<Venue>)
    ensures FilterByName(venues, "") == venues
  {
    if venues != [] {
      FilterEmptyQuery(venues[1..]);
      assert NameMatches(venues[0], "");
      assert [venues[0]] + venues[1..] == venues;
    }
  }

  /** A search result is an order-preserving selection from the full list that
      keeps a venue exactly when it matches, and searching it again with the
      same destination gives it back. */
  lemma SearchProperties(venues: seq<Venue>, destination: string)
    ensures IsSubsequence(SearchResult(venues, destination), venues)
    ensures forall v :: v in venues ==> (v in SearchResult(venues, destination) <==> NameMatches(v, destination))
    ensures SearchResult(SearchResult(venues, destination), destination) == SearchResult(venues, destination)
  {
    if destination == "" {
      FilterEmptyQuery(venues);
      FilterIsSubsequence(venues, "");
    } else {
      FilterIsSubsequence(venues, destination);
      FilterIdempotent(venues, destination);
    }
  }

  class HomePage {
    var venues: seq<Venue>
    var filteredVenues: seq<Venue>
    var loading: bool
    var error: Option<string>

    constructor ()
      ensures venues == [] && filteredVenues == [] && !loading && error == None
    {
      venues := [];
      filteredVenues := [];
      loading := false;
      error := None;
    }

    /** `fetchVenues`: an OK answer installs the list as both the full and the
        filtered list; any failure keeps both lists and sets the error. */
    method FetchVenues(b: Browser, response: Response<seq<Venue>>)
      modifies this, b`sent
      ensures b.sent == old(b.sent) + [ListVenues]
      ensures !loading
      ensures response.Ok? ==> venues == response.payload && filteredVenues == venues && error == None
      ensures !response.Ok? ==> venues == old(venues) && filteredVenues == old(filteredVenues)
      ensures !response.Ok? ==> error == Some(FetchError)
    {
      loading := true;
      error := None;
      b.Send(ListVenues);
      if response.Ok? {
        var list := response.payload;
        venues := list;
        filteredVenues := list;
      } else {
        error := Some(FetchError);
      }
      loading := false;
    }

    /** `handleSearch`: recomputes the filtered list from the full list and the
        destination alone; the full list is left as it was. */
    method HandleSearch(destination: string)
      modifies this`filteredVenues
      ensures venues == old(venues)
      ensures filteredVenues == SearchResult(venues, destination)
    {
      if destination == "" {
        filteredVenues := venues;
        return;
      }
      filteredVenues := FilterByName(venues, destination);
    }
  }
}
