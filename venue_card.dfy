/** The venue card on the home page: the shortened title and the fallbacks
    for every property a venue may lack. */
module VenueCard {
  import opened Entities

  const MaxTitle := 40
  const Ellipsis := "..."
  const NoAddress := "Location not available"
  const DefaultAlt := "Venue image"

  /** The title: names of at most 40 characters as they are, longer ones cut
      to their first 40 characters followed by "...". */
  function TruncateName(name: string): (r: string)
    ensures |r| <= MaxTitle + |Ellipsis|
    ensures |name| <= MaxTitle ==> r == name
    ensures |name| > MaxTitle ==> |r| == MaxTitle + |Ellipsis| && name[..MaxTitle] <= r && r[MaxTitle..] == Ellipsis
  {
    if |name| > MaxTitle then name[..MaxTitle] + Ellipsis else name
  }

  /** Shortening a title again changes nothing. */
  lemma TruncateIdempotent(name: string)
    ensures TruncateName(TruncateName(name)) == TruncateName(name)
  {
    if |name| > MaxTitle {
      var t := TruncateName(name);
      assert t[..MaxTitle] == name[..MaxTitle];
      assert t[..MaxTitle] + Ellipsis == t;
    }
  }

  /** The price line: a missing or zero price asks the visitor to make contact. */
  datatype PriceLabel = ContactForPricing | Amount(price: int)

  function PriceText(price: Option<int>): (r: PriceLabel)
    ensures r == ContactForPricing <==> price.None? || price.value == 0
    ensures r.Amount? ==> r.price == price.value
  {
    if price.Some? && price.value != 0 then Amount(price.value) else ContactForPricing
  }

  /** The guests line: a missing or zero `maxGuests` shows "N/A" (`None`). */
  function GuestsText(maxGuests: Option<int>): (r: Option<int>)
    ensures r.None? <==> maxGuests.None? || maxGuests.value == 0
    ensures r.Some? ==> r == maxGuests
  {
    if maxGuests.Some? && maxGuests.value != 0 then maxGuests else None
  }

  /** The address line: the location's address, or the fallback text. */
  function AddressText(location: Option<Location>): (r: string)
    ensures location.Some? && Truthy(location.value.address) ==> r == location.value.address.value
    ensures !(location.Some? && Truthy(location.value.address)) ==> r == NoAddress
  {
    if location.Some? then MessageOr(location.value.address, NoAddress) else NoAddress
  }

  /** The card image: drawn only for a non-empty media list, from its first
      entry, with the venue name (or a fixed text) as its alternative text. */
  function CardImage(v: Venue): (r: Option<Image>)
    ensures r.Some? <==> v.media.Some? && |v.media.value| > 0
    ensures r.Some? ==> r.value.url == v.media.value[0].url
    ensures r.Some? && v.name != "" ==> r.value.alt == v.name
    ensures r.Some? && v.name == "" ==> r.value.alt == DefaultAlt
  {
    if v.media.Some? && |v.media.value| > 0 then
      Some(Image(v.media.value[0].url, if v.name != "" then v.name else DefaultAlt))
    else None
  }

  /** The rating handed to the star widget: a missing rating counts as 0. */
  function CardRating(rating: Option<real>): (r: real)
    ensures rating.Some? ==> r == rating.value
    ensures rating.None? ==> r == 0.0
  {
    rating.GetOr(0.0)
  }

  /** Everything a card shows and where it links to. */
  datatype Card = Card(
    link: string,
    image: Option<Image>,
    title: string,
    rating: real,
    address: string,
    price: PriceLabel,
    guests: Option<int>)

  function RenderCard(v: Venue): (c: Card)
    ensures c.link == "/venues/" + v.id
    ensures |c.title| <= MaxTitle + |Ellipsis|
  {
    Card("/venues/" + v.id, CardImage(v), TruncateName(v.name), CardRating(v.rating),
         AddressText(v.location), PriceText(v.price), GuestsText(v.maxGuests))
  }

  /** A venue the API returned with only its id and name still yields a full
      card, every line showing its fallback. */
  lemma BareVenueCard(id: string, name: string)
    requires |name| <= MaxTitle
    ensures RenderCard(Venue(id, name, None, None, None, None, None, None))
         == Card("/venues/" + id, None, name, 0.0, NoAddress, ContactForPricing, None)
  {
  }
}
