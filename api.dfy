/** The calls the pages make to the remote venue-booking API, recorded as data,
    and the shape of the answers they look at. Nothing here talks to a network:
    an answer is an input of the operation that awaits it. */
module Api {
  import opened Entities

  /** What an awaited `fetch` gave the page: a rejected promise (its error
      message), a response that is not OK (the `message` of its JSON body, if
      any) or an OK response carrying the payload the page reads. */
  datatype Response<T> = NetworkError(reason: string) | Failed(message: Option<string>) | Ok(payload: T)

  /** The error a page shows when it throws `new Error(message || fallback)`
      on a refusal and its `catch` installs `err.message`: the refusal's
      message or the fallback, or the rejected fetch's own message. */
  function ThrownMessage<T>(response: Response<T>, fallback: string): (m: string)
    requires !response.Ok?
    ensures response.Failed? && Truthy(response.message) ==> m == response.message.value
    ensures response.Failed? && !Truthy(response.message) ==> m == fallback
    ensures response.NetworkError? ==> m == response.reason
  {
    if response.Failed? then MessageOr(response.message, fallback) else response.reason
  }

  /** JSON body of the registration POST. */
  datatype RegisterBody = RegisterBody(
    name: string,
    email: string,
    password: string,
    avatar: Option<string>,
    venueManager: bool)

  /** JSON body of the venue PUT. `price` and `maxGuests` are sent as the form
      holds them; the `Number(...)` conversion is not modelled. */
  datatype VenueBody = VenueBody(
    fields: map<string, FormValue>,
    media: seq<MediaEntry>,
    location: map<string, string>)

  /** JSON body of the venue POST: the form's fields and the split media. */
  datatype NewVenueBody = NewVenueBody(fields: map<string, string>, media: seq<string>)

  /** What the venue page hands to the confirmation page when navigating. */
  datatype BookingDraft = BookingDraft(
    id: string,
    venueName: string,
    startDate: Option<int>,
    endDate: Option<int>,
    guests: int)

  /** One outgoing request. Credentials are the values read from storage at the
      time of the call; `None` is a header built from `null`. */
  datatype Request =
    | ListVenues
    | Login(credentials: map<string, string>)
    | CreateApiKey(bearer: string)
    | Register(registration: RegisterBody)
    | GetVenue(id: string, bearerOpt: Option<string>)
    | UpdateVenue(id: string, bearer: string, apiKey: string, update: VenueBody)
    | DeleteVenue(id: string, bearerOpt: Option<string>, apiKeyOpt: Option<string>)
    | CurrentUser(bearerOpt: Option<string>)
    | CreateVenue(bearerOpt: Option<string>, newVenue: NewVenueBody)
    | UpdateAvatar(profile: string, bearer: string, avatar: Image)
    | ProfileBookings(profile: string, bearer: string, apiKey: string)
    | ProfileVenues(profile: string, bearer: string, apiKey: string)
}
