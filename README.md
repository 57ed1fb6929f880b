# Holidaze booking front end — a Dafny model

Holidaze is a React front end for a venue-booking API. Visitors browse and
search venues, see a nightly total for chosen dates and go on to book. Users
register, log in, change their avatar and list their bookings. Venue
managers create, edit, delete and list their venues. All of its state lives
in component state and in the browser's `localStorage`. This project models
the logic of those pages and proves what it promises:

- **The persisted session.** `localStorage` is a map from the keys `user`,
  `authToken`, `apiKey`, `darkMode` and `token` to stored values (module
  `Web`). A class `Browser` holds it together with the requests sent and the
  navigations made. Login, API-key provisioning, logout, "become venue
  manager", the avatar update and the My Bookings guard change it through
  methods with `modifies` frames. Each state change is specified by a pure
  function (`Login.AfterLogin`, `Header.LoggedOut`, `Dashboard.PromotedSession`,
  `MyBookings.Cleared`, `Avatar.WithAvatar`), and lemmas relate those
  functions.
- **The page checks.** Each page reads its own set of keys before acting.
  Module `SessionGuards` puts these checks side by side and proves:
  - how they nest, and that the nesting is strict;
  - which operations open or close them;
  - that nothing writes the `token` key the creation page reads.
- **Pure helpers.** These are:
  - the case-insensitive home-page search;
  - the registration checks;
  - the nightly total;
  - card-title truncation and display fallbacks;
  - star activation;
  - the booking value;
  - the venue edit form's nested updates and its comma-separated media text,
    with a proved parse/join round trip.

The modules follow the source files: `Home`, `Register`, `VenueDetails`,
`EditVenue`, `CreateVenue`, `VenueCard`, `Rating`, `BookingListItem`,
`Login`, `Header`, `Dashboard`, `Avatar`, `MyBookings` and `MyVenues`. They
share `Strings` (ASCII `toLowerCase`, `includes`, `trim`, `split`, `join`),
`Entities` (the API records), `Api` (requests and responses) and `Web`.

Nothing here talks to a network. Each of the following is a parameter of the
operation that awaits it:

- every awaited `fetch` (a `Response` value: network error, refusal with an
  optional message, or OK with payload);
- `window.confirm`;
- the outcome of `new URL(...)`.

`alert` has no effect. `navigate` appends to `Browser.visited`.

Some behaviours of the code worth noting:

- Booking from the venue page checks only `authToken`. It does not check
  `apiKey`, the user, the dates or the guest bounds
  (`VenueDetails.ConfirmChecksOnlyToken`).
- Logout removes `user` and `authToken` but keeps `apiKey`
  (`Header.LogoutKeepsKeyAndTheme`).
- The code has no central route guard. Each page makes its own check, and the
  checks differ (`SessionGuards.GuardsDiffer`).
- The venue creation page reads a `token` key that no code writes
  (`SessionGuards.NothingWritesToken`).

## Model

| member | source | states |
|---|---|---|
| Strings.Lower | src/pages/Home/HomePage.jsx:65 | lower-casing keeps the length and maps each character by the ASCII rule |
| Strings.IncludesAt | src/pages/Home/HomePage.jsx:65 | `includes` holds exactly when the query occurs at some position of the name |
| Strings.OccursInTail | src/pages/Home/HomePage.jsx:65 | a query that is not a prefix occurs in a name exactly when it occurs in the name's tail |
| Strings.Trim | src/components/EditVenue.jsx:132 | `trim` returns the contiguous part of its input between a leading and a trailing run of white space, and that part neither starts nor ends with white space |
| Strings.Split | src/components/EditVenue.jsx:132 | `split` on a character gives one more piece than separators, none containing the separator |
| Strings.SplitJoin | src/components/CreateVenue.jsx:119 | splitting pieces joined with a separator they do not contain gives back the pieces |
| Home.FilterByName | src/pages/Home/HomePage.jsx:64-66 | the filter keeps exactly the venues whose lower-cased name contains the lower-cased query |
| Home.SearchResult | src/pages/Home/HomePage.jsx:58-68 | an empty destination installs the whole list; otherwise a venue of the list is installed exactly when its name matches; never longer than the list |
| Home.FilterIsSubsequence | src/pages/Home/HomePage.jsx:64-66 | the filtered list keeps the original order |
| Home.FilterIdempotent | src/pages/Home/HomePage.jsx:64-66 | filtering a result again with the same query changes nothing |
| Home.FilterEmptyQuery | src/pages/Home/HomePage.jsx:59-66 | the empty query matches every venue, so the early return agrees with the filter |
| Home.SearchProperties | src/pages/Home/HomePage.jsx:58-69 | a search result is an ordered selection of the full list that keeps a venue iff it matches, and repeating the search is idempotent |
| Home.HomePage.FetchVenues | src/pages/Home/HomePage.jsx:33-56 | an OK answer installs the list as both full and filtered list; a failure keeps both and sets the fixed error; loading ends false |
| Home.HomePage.HandleSearch | src/pages/Home/HomePage.jsx:58-69 | the full list is untouched and the filtered list is the search over the full list, not over the previous result |
| Register.HandleChange | src/pages/Register/RegisterPage.jsx:26-32 | only the target field changes: `checked` for the checkbox, `value` otherwise |
| Register.RegisterPage.Change | src/pages/Register/RegisterPage.jsx:26-32 | the form becomes `HandleChange` of the old form and the event, and nothing else changes |
| Register.Validate | src/pages/Register/RegisterPage.jsx:37-45 | the e-mail suffix is checked first and case-sensitively, then the 8-character minimum; both pass exactly when neither fails |
| Register.RequestBody | src/pages/Register/RegisterPage.jsx:53-59 | `avatar` is sent iff `avatarUrl` is non-empty; the other fields are copied |
| Register.RefusalMessage | src/pages/Register/RegisterPage.jsx:66-72 | a refusal shows the first error's message, "Registration failed." without an errors array, and the generic text when that array is empty |
| Register.RegisterPage.Submit | src/pages/Register/RegisterPage.jsx:34-74 | a failed check sets its message and sends nothing; otherwise the POST is sent, and success goes to the login page while a refusal or a network failure sets the matching message |
| VenueDetails.CeilDays | src/pages/VenueDetails/VenueDetailsPage.jsx:150 | the day count is the least whole number of days covering the span |
| VenueDetails.TotalPrice | src/pages/VenueDetails/VenueDetailsPage.jsx:150 | "N/A" exactly when a date is missing; `$NaN` exactly when both dates are set and the venue has no price; otherwise the price times the least number of days whose length reaches the stay |
| VenueDetails.CeilDaysUnique | src/pages/VenueDetails/VenueDetailsPage.jsx:150 | the bounds determine the rounded-up day count |
| VenueDetails.TotalForDays | src/pages/VenueDetails/VenueDetailsPage.jsx:150 | an exact k-day span costs k nights and any partial further day costs one more |
| VenueDetails.SameDayIsFree | src/pages/VenueDetails/VenueDetailsPage.jsx:150 | equal dates give a total of 0 |
| VenueDetails.TotalMonotoneInEnd | src/pages/VenueDetails/VenueDetailsPage.jsx:150 | with a non-negative price a later end date never lowers the total |
| VenueDetails.TwoNightsAtHundred | src/pages/VenueDetails/VenueDetailsPage.jsx:150 | two days at 100 a night cost 200 |
| VenueDetails.ConfirmNavigation | src/pages/VenueDetails/VenueDetailsPage.jsx:108-126 | without a token the page goes to /login; with one it goes to /confirm carrying exactly id, name, both dates and the guest count |
| VenueDetails.ConfirmChecksOnlyToken | src/pages/VenueDetails/VenueDetailsPage.jsx:108-126 | storages that agree on the token lead to the same navigation, whatever else they hold |
| VenueDetails.VenueDetailsPage.HandleConfirm | src/pages/VenueDetails/VenueDetailsPage.jsx:108-126 | the one navigation made is the confirm navigation, and it is /login when no token is stored |
| VenueDetails.VenueDetailsPage.ShownTotal | src/pages/VenueDetails/VenueDetailsPage.jsx:150 | the "Total Price" line is `TotalPrice` of the chosen dates and the loaded venue's price |
| EditVenue.LocationKey | src/components/EditVenue.jsx:120-121 | the location field is the text after "location." up to the next dot |
| EditVenue.ParseMedia | src/components/EditVenue.jsx:132 | the empty string gives no media; otherwise there is one url entry per comma-separated piece, so commas + 1, and entry i holds piece i trimmed |
| EditVenue.HandleChange | src/components/EditVenue.jsx:117-141 | a `location.X` name sets that location field; `media` replaces the media with the parse; any other name overwrites that top-level field |
| EditVenue.EditVenueForm.Change | src/components/EditVenue.jsx:117-141 | the form becomes `HandleChange` of the old form, name and value |
| EditVenue.LocationChangeIsLocal | src/components/EditVenue.jsx:120-128 | a location change leaves the top-level fields, the media and every other location field unchanged |
| EditVenue.SplitCommaBlank | src/components/EditVenue.jsx:132 | splitting a ", "-joined list at the commas gives the first element and the others with one leading blank |
| EditVenue.TrimBlanked | src/components/EditVenue.jsx:132 | trimming those pieces gives the well-formed URLs back |
| EditVenue.MediaText | src/components/EditVenue.jsx:285 | no media shows an empty box; when no shown URL holds a comma, splitting the box at commas gives back the shown URLs, the later ones after one blank |
| EditVenue.MediaRoundTrip | src/components/EditVenue.jsx:285 | parsing the media box text of non-empty, comma-free, trimmed URLs gives the same media entries |
| EditVenue.FormatMedia | src/components/EditVenue.jsx:156-158 | string entries become trimmed url objects and object entries are kept as they are |
| EditVenue.SubmitBody | src/components/EditVenue.jsx:169-176 | the PUT carries name, description, price and maxGuests as the form holds them, plus the formatted media and the location |
| EditVenue.LoadedLocation | src/components/EditVenue.jsx:100-105 | the loaded location has all four fields, each "" when missing |
| EditVenue.LoadedMediaAsWritten | src/components/EditVenue.jsx:99 | as written, each API image object is wrapped whole as the `url` of a new entry |
| EditVenue.LoadedMediaAsWrittenShowsObject | src/components/EditVenue.jsx:99 | as written, a loaded image shows as "[object Object]" and is sent nested under `url` |
| EditVenue.LoadedMedia | src/components/EditVenue.jsx:99 | corrected: one url entry per image carrying its URL string |
| EditVenue.LoadedMediaShowsUrls | src/components/EditVenue.jsx:99 | corrected: the media box shows the image URLs joined with ", " and parses back to the loaded media |
| EditVenue.LoadedForm | src/components/EditVenue.jsx:94-106 | the loaded form holds the corrected media and a complete location |
| EditVenue.EditVenueForm.Load | src/components/EditVenue.jsx:83-112 | the GET carries the stored token; an OK answer installs `LoadedForm`, whose media are the corrected ones of the finding below, not the wrapped objects of line 99; a failure sets the fixed error; loading ends false |
| EditVenue.EditVenueForm.Submit | src/components/EditVenue.jsx:143-205 | without both token and API key the form goes to /login and sends nothing; otherwise it sends the PUT with both, and goes to /my-venues only on success |
| EditVenue.EditVenueForm.Delete | src/components/EditVenue.jsx:207-235 | a cancelled confirmation does nothing; a confirmed one sends the DELETE with whatever credentials are stored, unchecked |
| CreateVenue.GateNavigation | src/components/CreateVenue.jsx:72-95 | a failed profile fetch leads to /login, a role other than "Venue Manager" to /dashboard, and only that role stays |
| CreateVenue.RequestBody | src/components/CreateVenue.jsx:115-120 | the POST copies every field but media and splits the media text at commas, untrimmed, one entry more than the commas; the form always holds a media text |
| CreateVenue.EmptyMediaSendsOneEmptyUrl | src/components/CreateVenue.jsx:119 | an empty media box sends one empty URL |
| CreateVenue.MediaTypedAsList | src/components/CreateVenue.jsx:119 | comma-free URLs typed with commas between them are sent as typed |
| CreateVenue.FailureMessage | src/components/CreateVenue.jsx:125-132 | a refusal shows its message or "Failed to create venue."; a network failure shows the generic text |
| CreateVenue.CreateVenuePage.Mount | src/components/CreateVenue.jsx:72-95 | the profile request carries the `token` key; the page leaves as the gate says, or shows the form |
| CreateVenue.CreateVenuePage.FormShown | src/components/CreateVenue.jsx:139 | the form renders only once the role is exactly "Venue Manager" |
| CreateVenue.CreateVenuePage.Change | src/components/CreateVenue.jsx:97-100 | a change overwrites exactly the named field |
| CreateVenue.Complete | src/components/CreateVenue.jsx:104 | name, description, price and maxGuests are all present and non-empty; media is not required (see `FilledFormIsComplete`) |
| CreateVenue.CreateVenuePage.Submit | src/components/CreateVenue.jsx:102-133 | a missing name, description, price or maxGuests sets "All fields are required." and sends nothing; otherwise the POST carries the `token` key, and success goes to /dashboard |
| CreateVenue.FilledFormIsComplete | src/components/CreateVenue.jsx:104 | four filled fields pass the check whatever the media holds, and the initial form fails it |
| VenueCard.TruncateName | src/components/Home/VenueCard.jsx:15-17 | names of at most 40 characters are shown unchanged; longer ones as their first 40 characters and "...", at most 43 in all |
| VenueCard.TruncateIdempotent | src/components/Home/VenueCard.jsx:15-17 | truncating a shown title again changes nothing |
| VenueCard.PriceText | src/components/Home/VenueCard.jsx:26 | a missing or zero price asks for contact; any other price is shown |
| VenueCard.GuestsText | src/components/Home/VenueCard.jsx:27 | a missing or zero guest count shows "N/A" |
| VenueCard.AddressText | src/components/Home/VenueCard.jsx:24 | a missing or empty address shows "Location not available" |
| VenueCard.CardImage | src/components/Home/VenueCard.jsx:10-12 | an image is drawn iff the media list is non-empty, from its first entry, with the name or "Venue image" as alternative text |
| VenueCard.CardRating | src/components/Home/VenueCard.jsx:20 | a missing rating is passed on as 0 |
| VenueCard.RenderCard | src/components/Home/VenueCard.jsx:8-33 | the card links to the venue's page and its title is at most 43 characters |
| VenueCard.BareVenueCard | src/components/Home/VenueCard.jsx:8-33 | a venue with only id and name shows every fallback |
| Rating.RenderStar | src/components/Home/Rating.jsx:8-19 | a star is active iff its index is below the rating plus one half, and uses the half icon iff it is half but not full |
| Rating.Stars | src/components/Home/Rating.jsx:23 | exactly five stars with indices 1 to 5 |
| Rating.ActiveIsPrefix | src/components/Home/Rating.jsx:9-16 | active stars come first |
| Rating.PrefixCount | src/components/Home/Rating.jsx:9-16 | stars active exactly in their first k positions count k |
| Rating.CountPointwise | src/components/Home/Rating.jsx:9-16 | more active positions never give a smaller count |
| Rating.ActiveCountMonotone | src/components/Home/Rating.jsx:9-16 | a higher rating never lights fewer stars |
| Rating.WholeRating | src/components/Home/Rating.jsx:9-16 | a whole rating r from 0 to 5 lights exactly r stars, none with the half icon |
| Rating.HalfRatingAddsNoStar | src/components/Home/Rating.jsx:10 | a rating of k and a half lights k stars; star k + 1 is exactly one half away and stays unlit |
| Rating.RatingExtremes | src/components/Home/Rating.jsx:9-16 | rating 0 lights no star and 5 or more lights all five |
| BookingListItem.PricePerNight | src/components/BookingListItem.jsx:81 | a missing venue or price gives 0 |
| BookingListItem.Guests | src/components/BookingListItem.jsx:82 | a missing guest count gives 1, a stored 0 stays 0 |
| BookingListItem.BookingValue | src/components/BookingListItem.jsx:83 | the value is price per night times guests, non-negative for non-negative inputs |
| BookingListItem.ValueIgnoresDates | src/components/BookingListItem.jsx:83 | changing the dates never changes the value |
| BookingListItem.ValueDefaults | src/components/BookingListItem.jsx:81-83 | no venue is worth 0; no guest count is worth one night's price |
| BookingListItem.RenderDetails | src/components/BookingListItem.jsx:99-129 | the details show the value, price and guests; the customer's name and e-mail when set and non-empty, the fallback texts otherwise |
| BookingListItem.VenueTitle | src/components/BookingListItem.jsx:88 | a missing or empty venue name shows "Unknown Venue" |
| BookingListItem.BookingItem.Shown | src/components/BookingListItem.jsx:99 | details are shown iff the item is open |
| BookingListItem.BookingItem.Toggle | src/components/BookingListItem.jsx:87 | a click flips `isOpen` |
| BookingListItem.ToggleTwice | src/components/BookingListItem.jsx:87 | two clicks restore the state and what is shown |
| Login.StoreLogin | src/pages/Login/LoginPage.jsx:74-75 | the profile goes under `user` and its token under `authToken`; nothing else changes |
| Login.LoginPage.Change | src/pages/Login/LoginPage.jsx:19-21 | exactly the named field takes the new value |
| Login.AfterLogin | src/pages/Login/LoginPage.jsx:24-84 | after login the profile and token are stored; a key is stored only when none was, the token is non-empty and the key answer is OK |
| Login.ExistingKeyKept | src/pages/Login/LoginPage.jsx:79-81 | a stored API key is never overwritten |
| Login.LoginKeepsOtherKeys | src/pages/Login/LoginPage.jsx:74-81 | login keeps the storage well typed and never writes `token` or `darkMode` |
| Login.LoginProvidesCredentials | src/pages/Login/LoginPage.jsx:74-81 | with a non-empty token and a stored or granted key, token and key are both present afterwards |
| Login.LoginPage.CreateApiKey | src/pages/Login/LoginPage.jsx:24-52 | without a token nothing is sent or written; otherwise the request is sent and only an OK answer stores the key |
| Login.LoginPage.Submit | src/pages/Login/LoginPage.jsx:55-89 | a refused login writes nothing and stays; a successful one leaves the session given by `AfterLogin`, asks for a key only when none is stored, and goes to /dashboard |
| Header.InitialDarkMode | src/components/Header.jsx:109-111 | dark mode starts on only for a stored "true" |
| Header.DarkModeText | src/components/Header.jsx:128 | the stored text is non-empty and is "true" exactly when dark mode is on |
| Header.DarkModeRoundTrip | src/components/Header.jsx:109-128 | reading back the persisted setting restores it |
| Header.LoggedOut | src/components/Header.jsx:144-145 | logout removes exactly `user` and `authToken` |
| Header.LogoutKeepsKeyAndTheme | src/components/Header.jsx:142-150 | logout keeps the API key, the dark-mode choice and `token` |
| Header.RenderNav | src/components/Header.jsx:159-170 | no user shows the login link; a user shows the menu with the avatar URL or the placeholder |
| Header.HeaderBar.constructor | src/components/Header.jsx:107-135 | mounting reads the stored user and the stored dark-mode setting, writes the setting straight back and applies it to the body class; the menu starts closed |
| Header.HeaderBar.Persist | src/components/Header.jsx:126-135 | the setting is stored as "true"/"false" and the body class follows it |
| Header.HeaderBar.ToggleDarkMode | src/components/Header.jsx:137-140 | toggling flips the setting, persists it and sets the body class to match |
| Header.HeaderBar.Logout | src/components/Header.jsx:142-150 | a cancelled logout changes nothing; a confirmed one clears the user, leaves the `LoggedOut` session and goes to /login |
| Header.ToggleTwice | src/components/Header.jsx:137-140 | two toggles restore the setting, the stored value and the body class |
| Dashboard.Promoted | src/pages/Dashboard/DashboardPage.jsx:130 | the promoted profile is a venue manager with every other field unchanged |
| Dashboard.PromotedSession | src/pages/Dashboard/DashboardPage.jsx:133 | only the stored profile changes, to the promoted one |
| Dashboard.PromotedSessionIdempotent | src/pages/Dashboard/DashboardPage.jsx:127-136 | promoting again leaves the session as it was |
| Dashboard.DashboardPage.Mount | src/pages/Dashboard/DashboardPage.jsx:108-116 | no stored user goes to /login; otherwise the profile is shown and the manager flag mirrors it |
| Dashboard.DashboardPage.BecomeVenueManager | src/pages/Dashboard/DashboardPage.jsx:127-136 | without a profile nothing changes; otherwise the profile is promoted, stored, and the register button appears |
| Dashboard.DashboardPage.RegisterButtonShown | src/pages/Dashboard/DashboardPage.jsx:177-188 | the register button shows only to a manager who used the action on this page |
| Dashboard.PromoteTwice | src/pages/Dashboard/DashboardPage.jsx:127-136 | using the action twice stores what one use stores |
| Avatar.CheckSubmit | src/components/Avatar.jsx:26-44 | the checks run in order: URL, then profile with a name, then token |
| Avatar.GuardMessage | src/components/Avatar.jsx:27-41 | every failed check shows a non-empty message, and a passing one shows none |
| Avatar.BlankUrlRefusedFirst | src/components/Avatar.jsx:26 | a blank URL is refused whatever the session holds |
| Avatar.WithAvatar | src/components/Avatar.jsx:68 | the new profile has the new picture with alt "User avatar" and every other field unchanged |
| Avatar.AvatarForm.Change | src/components/Avatar.jsx:91 | the URL field takes the typed value |
| Avatar.FailureMessage | src/components/Avatar.jsx:64-73 | a refusal shows its message or the fixed failure text; a network failure shows its own message or the generic text |
| Avatar.AvatarForm.Submit | src/components/Avatar.jsx:21-77 | a failed check shows its message, sends and writes nothing, and the last two checks go to /login; otherwise the PUT is sent, only an OK answer stores the updated profile, and loading ends false |
| MyBookings.Cleared | src/components/MyBookings.jsx:77-78 | the failed check removes exactly token and profile |
| MyBookings.Authorized | src/components/MyBookings.jsx:71-76 | token, profile and API key all stored; its relation to the other checks is `SessionGuards.GuardsNested` |
| MyBookings.ClearedStaysUnauthorized | src/components/MyBookings.jsx:75-81 | a cleared session fails the check, clearing is idempotent and the key survives |
| Api.ThrownMessage | src/components/MyBookings.jsx:100-110 | a refusal thrown as `new Error(message || fallback)` shows its non-empty message or the page's fallback ("Failed to fetch bookings." here); a rejected fetch shows its own message |
| MyBookings.Render | src/components/MyBookings.jsx:119-134 | loading first, then a non-empty error, then "No bookings found." for an empty list |
| MyBookings.MyBookingsPage.FetchBookings | src/components/MyBookings.jsx:69-117 | a failed check clears the session, goes to /login and sends nothing; otherwise the request names the stored user, and loading ends false on both paths |
| MyVenues.RatingText | src/components/MyVenues.jsx:168 | a missing or zero rating reads "Not Rated" |
| MyVenues.Authorized | src/components/MyVenues.jsx:106-110 | profile, token and API key all stored; `SessionGuards.GuardsNested` proves it the same check as the My Bookings page |
| MyVenues.RenderVenue | src/components/MyVenues.jsx:157-193 | each venue links to its page and its edit page |
| MyVenues.Render | src/components/MyVenues.jsx:146-193 | loading first, then a non-empty error, then the "haven't created any venues" text for an empty list; otherwise one `RenderVenue` entry per venue, in order |
| MyVenues.MyVenuesPage.FetchVenues | src/components/MyVenues.jsx:105-144 | a failed check goes to /login, sends nothing and leaves storage alone; otherwise the request names the stored user, and loading ends false on both paths; an OK answer replaces the list, a failure sets the error to `Api.ThrownMessage` with "Failed to fetch venues." |
| SessionGuards.BookingGuardIsToken | src/pages/VenueDetails/VenueDetailsPage.jsx:109-117 | the venue page reaches /confirm exactly when a token is stored |
| SessionGuards.BookingAllowed | src/pages/VenueDetails/VenueDetailsPage.jsx:109-113 | a stored, non-empty token; `BookingGuardIsToken` proves it the venue page's check |
| SessionGuards.EditAllowed | src/components/EditVenue.jsx:146-149 | a stored token and a stored API key, both non-empty |
| SessionGuards.GuardsNested | src/components/MyVenues.jsx:110 | the list pages' checks agree and imply the edit check, which implies the booking check |
| SessionGuards.GuardsDiffer | src/components/EditVenue.jsx:149 | a token alone allows booking but not editing; token and key without a profile allow editing but not the list pages |
| SessionGuards.LoginPassesGuards | src/pages/Login/LoginPage.jsx:74-81 | a login that ends with a key stored passes every check but the creation page's |
| SessionGuards.LogoutFailsGuards | src/components/Header.jsx:144-145 | after logout every check fails while the key survives |
| SessionGuards.ClearedEqualsLoggedOut | src/components/MyBookings.jsx:77-78 | the My Bookings clearing leaves the same session as logout |
| SessionGuards.ProfileRewritesKeepGuards | src/components/Avatar.jsx:69 | rewriting the stored profile keeps the token and key checks and grants the list checks when they hold |
| SessionGuards.NothingWritesToken | src/components/CreateVenue.jsx:77 | no session operation writes the `token` key the creation page reads |
| Web.Browser.SetItem | src/pages/Login/LoginPage.jsx:74-75 | a write replaces one key and keeps the storage well typed |
| Web.Browser.RemoveItem | src/components/Header.jsx:144-145 | a removal drops one key and keeps the storage well typed |
| Web.GetItem | src/components/EditVenue.jsx:146-147 | in a well-typed storage every text key is found exactly when present, and what is found is the stored text |
| Web.Has | src/components/EditVenue.jsx:149 | `!!getItem(k)`: the key is present with non-empty text |
| Web.StoredUser | src/components/MyVenues.jsx:106 | in a well-typed storage the profile is found exactly when the `user` key is present, and it is the stored one |

## Left out

- Fetching and JSON: requests are recorded, and answers are inputs. Bodies whose `response.json()` would throw, and `data.data || data` on the home page, are not modelled. Every OK payload is the list or record the page reads.
- `JSON.parse`/`JSON.stringify` of the stored profile: the profile is stored as a record.
- React scheduling: hooks, effect ordering and re-rendering. Also the `MutationObserver` and `storage`-event dark-mode syncing on the dashboard and the list pages.
- `alert`, `console` and styling: they have no modelled effect.
- Date objects, `toISOString` and `toLocaleDateString`: dates are whole milliseconds.
- VenueDetails.CeilDays: does not model floating-point division, because dates are whole milliseconds and the integer ceiling is exact for them.
- Fractional prices, `toFixed(2)`, `Number(...)` on form input and `Math.round` of the rating: prices and guest counts are whole numbers.
- EditVenue.SubmitBody: sends price and guest count as the form holds them, because `Number(...)` is not modelled.
- CreateVenue.RequestBody: sends price and guest count as the form holds them, for the same reason.
- Strings.Lower: covers only ASCII letters, because Unicode case folding is not modelled.
- Strings.Trim: removes only ASCII white space.
- Lengths count characters, not UTF-16 code units.
- Avatar.AvatarForm.Submit: takes the outcome of `new URL(...)` as an input, because URL parsing is a browser library.
- Header.InitialDarkMode: recognises only "true", because the page itself only ever writes "true" or "false". Other stored JSON values are not modelled.
- EditVenue.EditVenueForm.Load: installs the corrected media (`LoadedMedia`) where EditVenue.jsx:99 as written wraps each image object whole; the as-written media are `LoadedMediaAsWritten`, and the finding below shows what the page then displays and sends.
- EditVenue.LoadedFields: a property missing from the API answer is absent from the form, where the page holds `undefined`.
- The venue page's own fetch and its rating row (`Math.round`). Only its total and its booking action are modelled.
- The route table (`App.js`): each page's own check is modelled instead.
- The booking confirmation page, the search bar, the booking editor and the footer: they only render or forward values.

## Findings

| source | as written | input that shows it | evidently intended | confidence | as-written member | corrected member |
|---|---|---|---|---|---|---|
| src/components/EditVenue.jsx:99 | each image object `{url, alt}` from the API is wrapped whole as the `url` of a new object | a venue whose media is one image with URL "https://img.example/a.jpg". The media box shows "[object Object]", and an unchanged submit sends the image object nested under `url` (EditVenue.LoadedMediaAsWrittenShowsObject) | take each image's URL string, as the venue card and the venue page read `media[0].url` from the same API. Proved: the box then shows the URLs and parses back to the loaded media (EditVenue.LoadedMediaShowsUrls) | not executed | EditVenue.LoadedMediaAsWritten | EditVenue.LoadedMedia |
