/** The venue edit form: loading a venue into the form, the change handler
    (nested location fields, the comma-separated media text), the update and
    the confirmed delete. */
module EditVenue {
  import opened Strings
  import opened Entities
  import opened Api
  import opened Web

  /** `venueData`: the top-level scalar fields by name, the media array and
      the nested location object. */
  datatype VenueForm = VenueForm(
    fields: map<string, FormValue>,
    media: seq<MediaEntry>,
    location: map<string, string>)

  const InitialForm := VenueForm(
    map["name" := StrValue(""), "description" := StrValue(""), "maxGuests" := NumValue(1), "price" := NumValue(1)],
    [],
    map["address" := "", "city" := "", "zip" := "", "country" := ""])

  const LocationPrefix := "location."
  const LoadError := "Failed to load venue details."
  /** The scalar fields the PUT body copies from the form. */
  const SentFields := {"name", "description", "price", "maxGuests"}

  /** `name.split(".")[1]` for a name starting with "location.": the text after
      the prefix up to the next dot. */
  function LocationKey(name: string): (key: string)
    requires LocationPrefix <= name
    ensures '.' !in key
    ensures key == Split(name[|LocationPrefix|..], '.')[0]
  {
    assert name == "location" + ['.'] + name[|LocationPrefix|..];
    SplitFront("location", '.', name[|LocationPrefix|..]);
    Split(name, '.')[1]
  }

  /** One `{url}` object per piece, each piece trimmed. */
  function TrimmedUrls(pieces: seq<string>): (r: seq<MediaEntry>)
    ensures |r| == |pieces|
    ensures forall i :: 0 <= i < |pieces| ==> r[i] == Entry(UrlText(Trim(pieces[i])))
  {
    if pieces == [] then [] else [Entry(UrlText(Trim(pieces[0])))] + TrimmedUrls(pieces[1..])
  }

  /** The media text box's parse: the empty string gives no media; otherwise one
      `{url}` per comma-separated piece, trimmed, so one more than the commas. */
  function ParseMedia(value: string): (r: seq<MediaEntry>)
    ensures value == "" ==> r == []
    ensures value != "" ==> |r| == Count(value, ',') + 1
    ensures value != "" ==> forall i :: 0 <= i < |r| ==> r[i] == Entry(UrlText(Trim(Split(value, ',')[i])))
  {
    if value == "" then [] else TrimmedUrls(Split(value, ','))
  }

  /** `handleChange`. The form has no input named "location". */
  function HandleChange(form: VenueForm, name: string, value: string): (r: VenueForm)
    requires name != "location"
    ensures LocationPrefix <= name ==>
              r == form.(location := form.location[LocationKey(name) := value])
    ensures name == "media" ==> r == form.(media := ParseMedia(value))
    ensures !(LocationPrefix <= name) && name != "media" ==>
              r == form.(fields := form.fields[name := StrValue(value)])
  {
    if LocationPrefix <= name then
      form.(location := form.location[LocationKey(name) := value])
    else if name == "media" then
      form.(media := ParseMedia(value))
    else
      form.(fields := form.fields[name := StrValue(value)])
  }

  /** A location change touches one location key and nothing else. */
  lemma LocationChangeIsLocal(form: VenueForm, name: string, value: string, other: string)
    requires LocationPrefix <= name
    requires other != LocationKey(name)
    ensures HandleChange(form, name, value).fields == form.fields
    ensures HandleChange(form, name, value).media == form.media
    ensures other in form.location ==> other in HandleChange(form, name, value).location
    ensures other in form.location ==> HandleChange(form, name, value).location[other] == form.location[other]
    ensures HandleChange(form, name, value).location[LocationKey(name)] == value
  {
  }

  /** `m.url` as `join` renders it: a bare string has no `url` and renders
      empty, an object `url` renders as "[object Object]". */
  function ShownUrl(m: MediaEntry): string
  {
    match m
    case Plain(_) => ""
    case Entry(UrlText(s)) => s
    case Entry(UrlImage(_)) => "[object Object]"
  }

  function ShownUrls(media: seq<MediaEntry>): (r: seq<string>)
    ensures |r| == |media|
    ensures forall i :: 0 <= i < |media| ==> r[i] == ShownUrl(media[i])
  {
    if media == [] then [] else [ShownUrl(media[0])] + ShownUrls(media[1..])
  }

  /** The media text box's value: the URLs joined with ", ". No media shows an
      empty box; when no shown URL holds a comma, splitting the box at its
      commas gives back the shown URLs, each after the first with the blank
      the join put before it. */
  function MediaText(media: seq<MediaEntry>): (t: string)
    ensures media == [] ==> t == ""
    ensures media != [] && (forall i :: 0 <= i < |media| ==> ',' !in ShownUrl(media[i])) ==>
              Split(t, ',') == [ShownUrl(media[0])] + Blanked(ShownUrls(media)[1..])
  {
    var shown := ShownUrls(media);
    assert media != [] && (forall i :: 0 <= i < |media| ==> ',' !in ShownUrl(media[i])) ==>
             Split(Join(shown, ", "), ',') == [shown[0]] + Blanked(shown[1..]) by {
      if media != [] && (forall i :: 0 <= i < |media| ==> ',' !in ShownUrl(media[i])) {
        SplitCommaBlank(shown);
      }
    }
    Join(shown, ", ")
  }

  /** The form entries for a list of URL strings. */
  function UrlEntries(urls: seq<string>): (r: seq<MediaEntry>)
    ensures |r| == |urls|
    ensures forall i :: 0 <= i < |urls| ==> r[i] == Entry(UrlText(urls[i]))
  {
    if urls == [] then [] else [Entry(UrlText(urls[0]))] + UrlEntries(urls[1..])
  }

  /** URLs the text box can carry unchanged: not empty, no comma, no white
      space at either end. */
  predicate WellFormedUrl(u: string)
  {
    u != "" && ',' !in u && IsTrimmed(u)
  }

  /** Each element but the first with one leading blank. */
  function Blanked(parts: seq<string>): (r: seq<string>)
    ensures |r| == |parts|
    ensures forall i :: 0 <= i < |parts| ==> r[i] == " " + parts[i]
  {
    if parts == [] then [] else [" " + parts[0]] + Blanked(parts[1..])
  }

  /** Splitting a ", "-joined list on commas gives the first element and the
      others with their leading blank. */
  lemma {:induction false} SplitCommaBlank(parts: seq<string>)
    requires |parts| >= 1
    requires forall i :: 0 <= i < |parts| ==> ',' !in parts[i]
    ensures Split(Join(parts, ", "), ',') == [parts[0]] + Blanked(parts[1..])
  {
    if |parts| > 1 {
      var tail := Join(parts[1..], ", ");
      SplitCommaBlank(parts[1..]);
      assert Join(parts, ", ") == parts[0] + [','] + (" " + tail);
      SplitFront(parts[0], ',', " " + tail);
      assert (" " + tail)[1..] == tail;
      var rest := Split(tail, ',');
      assert Split(" " + tail, ',') == [" " + rest[0]] + rest[1..];
      assert rest[0] == parts[1];
      assert Blanked(parts[1..]) == [" " + parts[1]] + Blanked(parts[2..]);
      assert parts[1..][1..] == parts[2..];
    } else {
      SplitNoSeparator(parts[0], ',');
    }
  }

  /** Trimming the pieces of a ", "-joined list of well-formed URLs gives the URLs. */
  lemma {:induction false} TrimBlanked(parts: seq<string>)
    requires |parts| >= 1
    requires forall i :: 0 <= i < |parts| ==> WellFormedUrl(parts[i])
    ensures TrimmedUrls([parts[0]] + Blanked(parts[1..])) == UrlEntries(parts)
  {
    var pieces := [parts[0]] + Blanked(parts[1..]);
    var l := TrimmedUrls(pieces);
    var r := UrlEntries(parts);
    forall i | 0 <= i < |parts|
      ensures l[i] == r[i]
    {
      TrimmedIsFixpoint(parts[i]);
      if i > 0 {
        assert pieces[i] == " " + parts[i];
        TrimLeadingBlank(parts[i]);
      }
    }
  }

  /** Round trip of the media text box: showing well-formed URLs joined with
      ", " and parsing the text back gives the same media entries. */
  lemma MediaRoundTrip(urls: seq<string>)
    requires forall i :: 0 <= i < |urls| ==> WellFormedUrl(urls[i])
    ensures ParseMedia(MediaText(UrlEntries(urls))) == UrlEntries(urls)
  {
    var shown := ShownUrls(UrlEntries(urls));
    assert shown == urls;
    if |urls| > 0 {
      SplitCommaBlank(urls);
      TrimBlanked(urls);
      JoinEmpty(urls, ", ");
    }
  }

  /** Submit's formatting of one media element: a bare string becomes a
      trimmed `{url}` object, an object is sent as it is. */
  function FormatEntry(m: MediaEntry): MediaEntry
  {
    if m.Plain? then Entry(UrlText(Trim(m.text))) else m
  }

  /** Submit's `formattedMedia`: every element becomes an object with a `url`,
      bare strings trimmed, objects unchanged. */
  function FormatMedia(media: seq<MediaEntry>): (r: seq<MediaEntry>)
    ensures |r| == |media|
    ensures forall i :: 0 <= i < |media| ==> r[i] == FormatEntry(media[i])
  {
    if media == [] then [] else [FormatEntry(media[0])] + FormatMedia(media[1..])
  }

  /** Formatting is idempotent, and the media a corrected load or the text box
      produce are already formatted. */
  lemma FormatMediaFixpoints(media: seq<MediaEntry>, urls: seq<string>, value: string)
    ensures FormatMedia(FormatMedia(media)) == FormatMedia(media)
    ensures FormatMedia(UrlEntries(urls)) == UrlEntries(urls)
    ensures FormatMedia(ParseMedia(value)) == ParseMedia(value)
    ensures forall i :: 0 <= i < |media| ==> FormatMedia(media)[i].Entry?
  {
  }

  /** The PUT body: the four scalar fields the form holds, the formatted media
      and the location object. */
  function SubmitBody(form: VenueForm): (body: VenueBody)
    ensures body.fields.Keys == form.fields.Keys * SentFields
    ensures forall k :: k in body.fields ==> body.fields[k] == form.fields[k]
    ensures body.media == FormatMedia(form.media) && body.location == form.location
  {
    VenueBody(map k | k in form.fields && k in SentFields :: form.fields[k], FormatMedia(form.media), form.location)
  }

  /** `x?.field || ""` for the loaded location. */
  function LocationText(l: Option<Location>, field: string): string
  {
    if l.None? then ""
    else if field == "address" then MessageOr(l.value.address, "")
    else if field == "city" then MessageOr(l.value.city, "")
    else if field == "zip" then MessageOr(l.value.zip, "")
    else MessageOr(l.value.country, "")
  }

  /** The loaded location object: every one of the four fields, "" when missing. */
  function LoadedLocation(l: Option<Location>): (r: map<string, string>)
    ensures r.Keys == {"address", "city", "zip", "country"}
    ensures l.None? ==> forall k :: k in r ==> r[k] == ""
    ensures l.Some? ==> r["address"] == MessageOr(l.value.address, "") && r["city"] == MessageOr(l.value.city, "")
    ensures l.Some? ==> r["zip"] == MessageOr(l.value.zip, "") && r["country"] == MessageOr(l.value.country, "")
  {
    map["address" := LocationText(l, "address"), "city" := LocationText(l, "city"),
        "zip" := LocationText(l, "zip"), "country" := LocationText(l, "country")]
  }

  /** The scalar fields of a loaded venue; a property the API left out is
      `undefined` in the form and absent here. */
  function LoadedFields(v: Venue): map<string, FormValue>
  {
    map["name" := StrValue(v.name)]
    + (if v.description.Some? then map["description" := StrValue(v.description.value)] else map[])
    + (if v.price.Some? then map["price" := NumValue(v.price.value)] else map[])
    + (if v.maxGuests.Some? then map["maxGuests" := NumValue(v.maxGuests.value)] else map[])
  }

  /** The media of a loaded venue, as the load handler builds them: each API
      image object wrapped whole as the `url` of a new object. */
  function LoadedMediaAsWritten(media: Option<seq<Image>>): (r: seq<MediaEntry>)
    ensures media.None? ==> r == []
    ensures media.Some? ==> |r| == |media.value|
    ensures media.Some? ==> forall i :: 0 <= i < |r| ==> r[i] == Entry(UrlImage(media.value[i]))
  {
    if media.None? then [] else ImageEntries(media.value)
  }

  function ImageEntries(images: seq<Image>): (r: seq<MediaEntry>)
    ensures |r| == |images|
    ensures forall i :: 0 <= i < |r| ==> r[i] == Entry(UrlImage(images[i]))
  {
    if images == [] then [] else [Entry(UrlImage(images[0]))] + ImageEntries(images[1..])
  }

  function ImageUrls(images: seq<Image>): (r: seq<string>)
    ensures |r| == |images|
    ensures forall i :: 0 <= i < |r| ==> r[i] == images[i].url
  {
    if images == [] then [] else [images[0].url] + ImageUrls(images[1..])
  }

  /** The media of a loaded venue as the form evidently means to hold them:
      one `{url}` object per image, carrying the image's URL string. */
  function LoadedMedia(media: Option<seq<Image>>): (r: seq<MediaEntry>)
    ensures media.None? ==> r == []
    ensures media.Some? ==> r == UrlEntries(ImageUrls(media.value))
  {
    if media.None? then [] else UrlEntries(ImageUrls(media.value))
  }

  /** The form after a successful load. */
  function LoadedForm(v: Venue): (f: VenueForm)
    ensures f.location.Keys == {"address", "city", "zip", "country"}
    ensures f.media == LoadedMedia(v.media)
  {
    VenueForm(LoadedFields(v), LoadedMedia(v.media), LoadedLocation(v.location))
  }

  /** As the load handler is written, a venue with one image shows
      "[object Object]" in the media box instead of the image URL, and an
      unchanged form sends the image object nested as the `url` of another. */
  lemma LoadedMediaAsWrittenShowsObject()
    ensures var media := LoadedMediaAsWritten(Some([Image("https://img.example/a.jpg", "")]));
            && MediaText(media) == "[object Object]"
            && FormatMedia(media) == [Entry(UrlImage(Image("https://img.example/a.jpg", "")))]
  {
    var media := LoadedMediaAsWritten(Some([Image("https://img.example/a.jpg", "")]));
    assert ShownUrls(media) == ["[object Object]"];
  }

  /** With the corrected load, the media box shows the venue's image URLs, and
      for well-formed URLs parsing the box back gives the loaded media. */
  lemma LoadedMediaShowsUrls(images: seq<Image>)
    requires forall i :: 0 <= i < |images| ==> WellFormedUrl(images[i].url)
    ensures MediaText(LoadedMedia(Some(images))) == Join(ImageUrls(images), ", ")
    ensures ParseMedia(MediaText(LoadedMedia(Some(images)))) == LoadedMedia(Some(images))
  {
    var urls := ImageUrls(images);
    assert ShownUrls(UrlEntries(urls)) == urls;
    MediaRoundTrip(urls);
  }

  class EditVenueForm {
    const id: string
    var venueData: VenueForm
    var loading: bool
    var error: string

    constructor (id: string)
      ensures this.id == id && venueData == InitialForm && loading && error == ""
    {
      this.id := id;
      venueData := InitialForm;
      loading := true;
      error := "";
    }

    /** `fetchVenueDetails`: an OK answer installs the loaded form, any failure
        sets the error; loading ends either way. */
    method Load(b: Browser, response: Response<Venue>)
      modifies this`venueData, this`loading, this`error, b`sent
      ensures b.sent == old(b.sent) + [GetVenue(id, GetItem(b.storage, AuthToken))]
      ensures response.Ok? ==> venueData == LoadedForm(response.payload) && error == old(error)
      ensures !response.Ok? ==> venueData == old(venueData) && error == LoadError
      ensures !loading
    {
      b.Send(GetVenue(id, GetItem(b.storage, AuthToken)));
      if response.Ok? {
        venueData := LoadedForm(response.payload);
      } else {
        error := LoadError;
      }
      loading := false;
    }

    method Change(name: string, value: string)
      requires name != "location"
      modifies this`venueData
      ensures venueData == HandleChange(old(venueData), name, value)
    {
      venueData := HandleChange(venueData, name, value);
    }

    /** `handleSubmit`: without both `authToken` and `apiKey` go to the login
        page and send nothing; otherwise send the PUT, and go to "My Venues"
        when it succeeds. */
    method Submit(b: Browser, response: Response<()>)
      modifies b`sent, b`visited
      ensures !(Has(b.storage, AuthToken) && Has(b.storage, ApiKey)) ==>
                b.sent == old(b.sent) && b.visited == old(b.visited) + [GoTo("/login")]
      ensures Has(b.storage, AuthToken) && Has(b.storage, ApiKey) ==>
                b.sent == old(b.sent) + [UpdateVenue(id, GetItem(b.storage, AuthToken).value,
                                                     GetItem(b.storage, ApiKey).value, SubmitBody(venueData))]
      ensures Has(b.storage, AuthToken) && Has(b.storage, ApiKey) ==>
                b.visited == old(b.visited) + (if response.Ok? then [GoTo("/my-venues")] else [])
    {
      var token := GetItem(b.storage, AuthToken);
      var apiKey := GetItem(b.storage, ApiKey);
      if !Truthy(token) || !Truthy(apiKey) {
        b.Navigate(GoTo("/login"));
        return;
      }
      b.Send(UpdateVenue(id, token.value, apiKey.value, SubmitBody(venueData)));
      if response.Ok? {
        b.Navigate(GoTo("/my-venues"));
      }
    }

    /** `handleDelete`: nothing happens unless the user confirms; then the
        DELETE is sent with whatever credentials are stored, unchecked, and a
        success goes to "My Venues". */
    method Delete(b: Browser, confirmed: bool, response: Response<()>)
      modifies b`sent, b`visited
      ensures !confirmed ==> b.sent == old(b.sent) && b.visited == old(b.visited)
      ensures confirmed ==>
                b.sent == old(b.sent) + [DeleteVenue(id, GetItem(b.storage, AuthToken), GetItem(b.storage, ApiKey))]
      ensures confirmed ==>
                b.visited == old(b.visited) + (if response.Ok? then [GoTo("/my-venues")] else [])
    {
      if !confirmed {
        return;
      }
      b.Send(DeleteVenue(id, GetItem(b.storage, AuthToken), GetItem(b.storage, ApiKey)));
      if response.Ok? {
        b.Navigate(GoTo("/my-venues"));
      }
    }
  }
}
