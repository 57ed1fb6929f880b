/** The venue creation page: a role gate on mount, a required-fields check and
    the POST of the new venue. */
module CreateVenue {
  import opened Strings
  import opened Entities
  import opened Api
  import opened Web

  const ManagerRole := "Venue Manager"
  const RequiredError := "All fields are required."
  const CreateError := "Failed to create venue."
  const GenericError := "Something went wrong. Please try again."

  /** `formData`: every input's text, all empty at first. */
  const InitialForm: map<string, string> :=
    map["name" := "", "description" := "", "price" := "", "maxGuests" := "", "media" := ""]

  /** Where the role gate sends the user, if anywhere: the login page when the
      profile cannot be read, the dashboard when its `role` is not exactly
      "Venue Manager". */
  function GateNavigation(response: Response<Option<string>>): (n: Option<Navigation>)
    ensures n == None <==> response.Ok? && response.payload == Some(ManagerRole)
    ensures !response.Ok? ==> n == Some(GoTo("/login"))
    ensures response.Ok? && response.payload != Some(ManagerRole) ==> n == Some(GoTo("/dashboard"))
  {
    if !response.Ok? then Some(GoTo("/login"))
    else if response.payload != Some(ManagerRole) then Some(GoTo("/dashboard"))
    else None
  }

  /** `!!formData[field]`: the field is present and not empty. */
  predicate Filled(form: map<string, string>, field: string)
  {
    field in form && form[field] != ""
  }

  /** The required-fields test: name, description, price and maxGuests are
      all filled; media is optional. */
  predicate Complete(form: map<string, string>)
  {
    Filled(form, "name") && Filled(form, "description") && Filled(form, "price") && Filled(form, "maxGuests")
  }

  /** The POST body: every form field but `media`, and the media text split at
      each comma, untrimmed. */
  function RequestBody(form: map<string, string>): (body: NewVenueBody)
    requires "media" in form
    ensures body.fields.Keys == form.Keys - {"media"}
    ensures forall k :: k in body.fields ==> body.fields[k] == form[k]
    ensures |body.media| == Count(form["media"], ',') + 1
  {
    NewVenueBody(map k | k in form && k != "media" :: form[k], Split(form["media"], ','))
  }

  /** An empty media box still sends one media entry, the empty string. */
  lemma EmptyMediaSendsOneEmptyUrl(form: map<string, string>)
    requires "media" in form && form["media"] == ""
    ensures RequestBody(form).media == [""]
  {
    SplitNoSeparator("", ',');
  }

  /** URLs typed with plain commas between them and none inside are sent as
      typed, one entry each. */
  lemma MediaTypedAsList(form: map<string, string>, urls: seq<string>)
    requires |urls| >= 1
    requires forall i :: 0 <= i < |urls| ==> ',' !in urls[i]
    requires "media" in form && form["media"] == Join(urls, ",")
    ensures RequestBody(form).media == urls
  {
    SplitJoin(urls, ',');
  }

  /** The message a failed POST shows. */
  function FailureMessage(response: Response<()>): (m: string)
    requires !response.Ok?
    ensures response.Failed? ==> m == MessageOr(response.message, CreateError)
    ensures response.NetworkError? ==> m == GenericError
    ensures m != ""
  {
    if response.Failed? then MessageOr(response.message, CreateError) else GenericError
  }

  class CreateVenuePage {
    var formData: map<string, string>
    var error: string
    var userRole: string

    constructor ()
      ensures formData == InitialForm && error == "" && userRole == ""
    {
      formData := InitialForm;
      error := "";
      userRole := "";
    }

    /** The form is rendered only for a venue manager. */
    predicate FormShown()
      reads this
    {
      userRole == ManagerRole
    }

    /** `fetchUserData`: asks for the current profile with the `token` key's
        value and either leaves the page or records the manager role. */
    method Mount(b: Browser, response: Response<Option<string>>)
      modifies this`userRole, b`sent, b`visited
      ensures b.sent == old(b.sent) + [CurrentUser(GetItem(b.storage, Token))]
      ensures GateNavigation(response).Some? ==>
                b.visited == old(b.visited) + [GateNavigation(response).value] && userRole == old(userRole)
      ensures GateNavigation(response).None? ==> b.visited == old(b.visited) && FormShown()
    {
      b.Send(CurrentUser(GetItem(b.storage, Token)));
      var gate := GateNavigation(response);
      if gate.Some? {
        b.Navigate(gate.value);
      } else {
        userRole := response.payload.value;
      }
    }

    method Change(name: string, value: string)
      modifies this`formData
      ensures formData == old(formData)[name := value]
    {
      formData := formData[name := value];
    }

    /** `handleSubmit`: an incomplete form sets the required-fields message and
        sends nothing; otherwise the POST carries the `token` key's value and
        success goes to the dashboard. */
    method Submit(b: Browser, response: Response<()>)
      requires "media" in formData
      modifies this`error, b`sent, b`visited
      ensures !Complete(formData) ==> error == RequiredError && b.sent == old(b.sent) && b.visited == old(b.visited)
      ensures Complete(formData) ==> b.sent == old(b.sent) + [CreateVenue(GetItem(b.storage, Token), RequestBody(formData))]
      ensures Complete(formData) && response.Ok? ==> b.visited == old(b.visited) + [GoTo("/dashboard")] && error == old(error)
      ensures Complete(formData) && !response.Ok? ==> b.visited == old(b.visited) && error == FailureMessage(response)
    {
      if !Filled(formData, "name") || !Filled(formData, "description") || !Filled(formData, "price") || !Filled(formData, "maxGuests") {
        error := RequiredError;
        return;
      }
      b.Send(CreateVenue(GetItem(b.storage, Token), RequestBody(formData)));
      if response.Ok? {
        b.Navigate(GoTo("/dashboard"));
      } else {
        error := FailureMessage(response);
      }
    }
  }

  /** Filling the four required fields is enough to pass the check, whatever
      the media box holds, and the initial form does not pass it. */
  lemma FilledFormIsComplete(name: string, description: string, price: string, maxGuests: string, media: string)
    requires name != "" && description != "" && price != "" && maxGuests != ""
    ensures Complete(InitialForm["name" := name]["description" := description]["price" := price]["maxGuests" := maxGuests]["media" := media])
    ensures !Complete(InitialForm)
  {
  }
}
