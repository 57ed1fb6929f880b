/** The venue page: the total price shown for the chosen dates, and the
    "book now" action that hands the choice on to the confirmation page. */
module VenueDetails {
  import opened Entities
  import opened Api
  import opened Web

  /** `1000 * 60 * 60 * 24`. */
  const MsPerDay := 86400000

  /** `Math.ceil(ms / MsPerDay)` for a whole number of milliseconds: the least
      number of days whose length reaches `ms`. */
  function CeilDays(ms: int): (days: int)
    ensures (days - 1) * MsPerDay < ms <= days * MsPerDay
  {
    -((-ms) / MsPerDay)
  }

  /** What the page shows after "Total Price:": "N/A", a dollar amount, or
      `$NaN` when the venue has no price. */
  datatype TotalLabel = NotAvailable | Total(amount: int) | NotANumber

  /** The total-price expression: both dates must be chosen; the number of
      started days between them times the nightly price. */
  function TotalPrice(start: Option<int>, end: Option<int>, price: Option<int>): (t: TotalLabel)
    ensures t == NotAvailable <==> start.None? || end.None?
    ensures t == NotANumber <==> start.Some? && end.Some? && price.None?
    ensures t.Total? ==> var days := CeilDays(end.value - start.value);
                         (days - 1) * MsPerDay < end.value - start.value <= days * MsPerDay
                         && t.amount == days * price.value
  {
    if start.None? || end.None? then NotAvailable
    else if price.None? then NotANumber
    else Total(CeilDays(end.value - start.value) * price.value)
  }

  /** `CeilDays` is determined by its bounds. */
  lemma CeilDaysUnique(ms: int, d: int)
    requires (d - 1) * MsPerDay < ms <= d * MsPerDay
    ensures CeilDays(ms) == d
  {
  }

  /** A stay of exactly `k` days costs `k` nights; any part of a further day
      costs one more night. */
  lemma TotalForDays(start: int, k: int, extra: int, price: int)
    requires 0 <= extra < MsPerDay
    ensures extra == 0 ==> TotalPrice(Some(start), Some(start + k * MsPerDay), Some(price)) == Total(k * price)
    ensures extra > 0 ==> TotalPrice(Some(start), Some(start + k * MsPerDay + extra), Some(price)) == Total((k + 1) * price)
  {
    if extra == 0 {
      CeilDaysUnique(k * MsPerDay, k);
      assert start + k * MsPerDay - start == k * MsPerDay;
    } else {
      CeilDaysUnique(k * MsPerDay + extra, k + 1);
      assert start + k * MsPerDay + extra - start == k * MsPerDay + extra;
    }
  }

  /** Equal dates cost nothing. */
  lemma SameDayIsFree(start: int, price: int)
    ensures TotalPrice(Some(start), Some(start), Some(price)) == Total(0)
  {
    CeilDaysUnique(0, 0);
  }

  /** Later end dates never lower the total of a non-negative price. */
  lemma TotalMonotoneInEnd(start: int, end1: int, end2: int, price: int)
    requires end1 <= end2 && price >= 0
    ensures TotalPrice(Some(start), Some(end1), Some(price)).amount
         <= TotalPrice(Some(start), Some(end2), Some(price)).amount
  {
    var d1 := CeilDays(end1 - start);
    var d2 := CeilDays(end2 - start);
    assert d1 <= d2;
    assert d1 * price <= d2 * price by {
      assert (d2 - d1) * price >= 0;
    }
  }

  /** `handleConfirm`: without a stored `authToken` go to the login page;
      otherwise go to the confirmation page carrying exactly the venue id and
      name, both dates and the guest count. Nothing else is checked. */
  function ConfirmNavigation(s: Storage, venue: Venue, start: Option<int>, end: Option<int>, guests: int): (n: Navigation)
    ensures !Has(s, AuthToken) ==> n == GoTo("/login")
    ensures Has(s, AuthToken) ==> n.path == "/confirm"
    ensures Has(s, AuthToken) ==> n.draft == Some(BookingDraft(venue.id, venue.name, start, end, guests))
  {
    if !Has(s, AuthToken) then GoTo("/login")
    else Navigation("/confirm", Some(BookingDraft(venue.id, venue.name, start, end, guests)))
  }

  /** The booking guard is the token alone: two storages that agree on whether
      a token is stored lead to the same navigation, whatever they hold for
      `apiKey` or `user`. */
  lemma ConfirmChecksOnlyToken(s1: Storage, s2: Storage, venue: Venue, start: Option<int>, end: Option<int>, guests: int)
    requires Has(s1, AuthToken) == Has(s2, AuthToken)
    ensures ConfirmNavigation(s1, venue, start, end, guests) == ConfirmNavigation(s2, venue, start, end, guests)
  {
  }

  class VenueDetailsPage {
    var venue: Option<Venue>
    var startDate: Option<int>
    var endDate: Option<int>
    var numberOfGuests: int

    constructor ()
      ensures venue == None && startDate == None && endDate == None && numberOfGuests == 1
    {
      venue := None;
      startDate := None;
      endDate := None;
      numberOfGuests := 1;
    }

    /** The "Total Price" line for the current choice. */
    function ShownTotal(): TotalLabel
      reads this
      requires venue.Some?
    {
      TotalPrice(startDate, endDate, venue.value.price)
    }

    /** `handleConfirm`. The button exists only once the venue has loaded. */
    method HandleConfirm(b: Browser)
      requires venue.Some?
      modifies b`visited
      ensures b.visited == old(b.visited) + [ConfirmNavigation(b.storage, venue.value, startDate, endDate, numberOfGuests)]
      ensures !Has(b.storage, AuthToken) ==> b.visited[|b.visited| - 1].path == "/login"
    {
      var token := GetItem(b.storage, AuthToken);
      if !Truthy(token) {
        b.Navigate(GoTo("/login"));
        return;
      }
      var v := venue.value;
      b.Navigate(Navigation("/confirm", Some(BookingDraft(v.id, v.name, startDate, endDate, numberOfGuests))));
    }
  }

  /** The worked example: two days at 100 a night cost 200. */
  lemma TwoNightsAtHundred(start: int)
    ensures TotalPrice(Some(start), Some(start + 2 * MsPerDay), Some(100)) == Total(200)
  {
    TotalForDays(start, 2, 0, 100);
  }
}
