/** One booking in the "My Bookings" list: a header that opens and closes the
    details, and the booking value computed from the venue price and guests. */
module BookingListItem {
  import opened Entities

  const UnknownVenue := "Unknown Venue"
  const UnknownContact := "Unknown"
  const NoEmail := "No email"

  /** `booking.venue?.price ?? 0`: only a missing venue or price gives 0. */
  function PricePerNight(b: Booking): (p: int)
    ensures b.venue.Some? && b.venue.value.price.Some? ==> p == b.venue.value.price.value
    ensures b.venue.None? || b.venue.value.price.None? ==> p == 0
  {
    if b.venue.Some? then b.venue.value.price.GetOr(0) else 0
  }

  /** `booking.guests ?? 1`: a missing count is one guest, a stored 0 stays 0. */
  function Guests(b: Booking): (g: int)
    ensures b.guests.Some? ==> g == b.guests.value
    ensures b.guests.None? ==> g == 1
  {
    b.guests.GetOr(1)
  }

  /** The booking value: price per night times guests; `|| 0` changes nothing
      for whole numbers. The dates play no part. */
  function BookingValue(b: Booking): (v: int)
    ensures v == PricePerNight(b) * Guests(b)
    ensures PricePerNight(b) >= 0 && Guests(b) >= 0 ==> v >= 0
  {
    var product := PricePerNight(b) * Guests(b);
    if product != 0 then product else 0
  }

  /** Moving a booking's dates, however far apart, leaves its value alone: the
      number of nights is not counted. */
  lemma ValueIgnoresDates(b: Booking, from: int, to: int)
    ensures BookingValue(b.(dateFrom := from, dateTo := to)) == BookingValue(b)
  {
  }

  /** A booking without venue is worth 0; one without a guest count is worth
      one night's price. */
  lemma ValueDefaults(b: Booking)
    ensures b.venue.None? ==> BookingValue(b) == 0
    ensures b.guests.None? ==> BookingValue(b) == PricePerNight(b)
  {
  }

  /** The details panel. */
  datatype Details = Details(value: int, pricePerNight: int, guests: int, contact: string, email: string)

  function RenderDetails(b: Booking): (d: Details)
    ensures d.value == BookingValue(b) && d.pricePerNight == PricePerNight(b) && d.guests == Guests(b)
    ensures b.customer.Some? && Truthy(b.customer.value.name) ==> d.contact == b.customer.value.name.value
    ensures !(b.customer.Some? && Truthy(b.customer.value.name)) ==> d.contact == UnknownContact
    ensures b.customer.Some? && Truthy(b.customer.value.email) ==> d.email == b.customer.value.email.value
    ensures !(b.customer.Some? && Truthy(b.customer.value.email)) ==> d.email == NoEmail
  {
    var contact := if b.customer.Some? then MessageOr(b.customer.value.name, UnknownContact) else UnknownContact;
    var email := if b.customer.Some? then MessageOr(b.customer.value.email, NoEmail) else NoEmail;
    Details(BookingValue(b), PricePerNight(b), Guests(b), contact, email)
  }

  /** The header's venue name. */
  function VenueTitle(b: Booking): (t: string)
    ensures b.venue.Some? && b.venue.value.name != "" ==> t == b.venue.value.name
    ensures !(b.venue.Some? && b.venue.value.name != "") ==> t == UnknownVenue
  {
    if b.venue.Some? && b.venue.value.name != "" then b.venue.value.name else UnknownVenue
  }

  class BookingItem {
    const booking: Booking
    var isOpen: bool

    constructor (booking: Booking)
      ensures this.booking == booking && !isOpen
    {
      this.booking := booking;
      isOpen := false;
    }

    /** The details, shown only while the item is open. */
    function Shown(): (d: Option<Details>)
      reads this
      ensures d.Some? <==> isOpen
      ensures d.Some? ==> d.value.value == BookingValue(booking)
    {
      if isOpen then Some(RenderDetails(booking)) else None
    }

    /** A click on the header. */
    method Toggle()
      modifies this`isOpen
      ensures isOpen == !old(isOpen)
    {
      isOpen := !isOpen;
    }
  }

  /** Two clicks leave the item as it was. */
  method ToggleTwice(item: BookingItem)
    modifies item`isOpen
    ensures item.isOpen == old(item.isOpen)
    ensures item.Shown() == old(item.Shown())
  {
    item.Toggle();
    item.Toggle();
  }
}
