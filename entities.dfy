/** The records the pages receive from the venue-booking API and keep in their
    state. Every property the pages read with `?.`, `||` or `??` is optional here. */
module Entities {

  datatype Option<+T> = None | Some(value: T)
  {
    function GetOr(default: T): T
    {
      match this
      case Some(v) => v
      case None => default
    }
  }

  /** JavaScript truthiness of a string that may be `null`/`undefined`:
      present and not the empty string. */
  predicate Truthy(s: Option<string>)
  {
    s.Some? && s.value != ""
  }

  /** `m || fallback` for an optional message string. */
  function MessageOr(m: Option<string>, fallback: string): (r: string)
    ensures Truthy(m) ==> r == m.value
    ensures !Truthy(m) ==> r == fallback
  {
    if Truthy(m) then m.value else fallback
  }

  /** An `{url, alt}` object, as the API returns venue media and profile avatars. */
  datatype Image = Image(url: string, alt: string)

  /** The profile object of a login response, kept under the `user` storage key. */
  datatype User = User(
    name: string,
    email: string,
    avatar: Option<Image>,
    banner: Option<Image>,
    venueManager: bool,
    accessToken: string)

  datatype Location = Location(
    address: Option<string>,
    city: Option<string>,
    zip: Option<string>,
    country: Option<string>)

  /** A venue as the API returns it; prices are whole currency units. */
  datatype Venue = Venue(
    id: string,
    name: string,
    description: Option<string>,
    price: Option<int>,
    maxGuests: Option<int>,
    media: Option<seq<Image>>,
    location: Option<Location>,
    rating: Option<real>)

  datatype Customer = Customer(name: Option<string>, email: Option<string>)

  /** A booking with its venue and customer embedded; dates are milliseconds. */
  datatype Booking = Booking(
    id: string,
    dateFrom: int,
    dateTo: int,
    guests: Option<int>,
    venue: Option<Venue>,
    customer: Option<Customer>)

  /** The `url` property of a media entry in the venue edit form: the form keeps
      whatever it was given, a string or a whole API image object. */
  datatype UrlValue = UrlText(text: string) | UrlImage(image: Image)

  /** One element of the venue edit form's `media` array: either a bare string
      or an object with a `url` property. */
  datatype MediaEntry = Plain(text: string) | Entry(url: UrlValue)

  /** A scalar held by a form: the text typed into an input, or a number the
      form was initialised or loaded with. */
  datatype FormValue = StrValue(text: string) | NumValue(number: int)
}
