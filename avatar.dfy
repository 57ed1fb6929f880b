/** The avatar page: a URL checked locally, then the profile update sent with
    the stored credentials and, on success, copied into the stored profile. */
module Avatar {
  import opened Strings
  import opened Entities
  import opened Api
  import opened Web

  const InvalidUrlError := "❌ Please enter a valid image URL."
  const NoUserError := "❌ User not found! Please log in again."
  const NoTokenError := "❌ Authentication token missing! Please log in again."
  const UpdateFailed := "❌ Failed to update avatar."
  const GenericError := "❌ Something went wrong. Please try again."
  const Updated := "✅ Avatar updated successfully!"
  const AvatarAlt := "User avatar"

  /** The first check of `handleSubmit` that fails, in their order. */
  datatype Guard = BadUrl | NoUser | NoToken | Pass

  /** The URL must be non-blank and parse as a URL (`urlValid`, the outcome of
      `new URL(...)`); then a stored profile with a name is needed; then a
      stored token. */
  function CheckSubmit(url: string, urlValid: bool, s: Storage): (g: Guard)
    ensures g == BadUrl <==> Trim(url) == "" || !urlValid
    ensures g == NoUser <==> Trim(url) != "" && urlValid && (StoredUser(s).None? || StoredUser(s).value.name == "")
    ensures g == Pass ==> StoredUser(s).Some? && StoredUser(s).value.name != "" && Has(s, AuthToken)
    ensures g == NoToken ==> StoredUser(s).Some? && !Has(s, AuthToken)
  {
    if Trim(url) == "" || !urlValid then BadUrl
    else if StoredUser(s).None? || StoredUser(s).value.name == "" then NoUser
    else if !Has(s, AuthToken) then NoToken
    else Pass
  }

  /** A blank URL is refused whatever the session holds, even a complete one. */
  lemma BlankUrlRefusedFirst(url: string, s: Storage)
    requires forall i :: 0 <= i < |url| ==> IsSpace(url[i])
    ensures CheckSubmit(url, true, s) == BadUrl
  {
  }

  /** The message a failed check shows. */
  function GuardMessage(g: Guard): (m: string)
    ensures m == "" <==> g == Pass
  {
    match g
    case BadUrl => InvalidUrlError
    case NoUser => NoUserError
    case NoToken => NoTokenError
    case Pass => ""
  }

  /** The stored profile after a successful update: the new picture, every
      other field as it was. */
  function WithAvatar(u: User, url: string): (r: User)
    ensures r.avatar == Some(Image(url, AvatarAlt))
    ensures r.name == u.name && r.email == u.email && r.banner == u.banner
    ensures r.venueManager == u.venueManager && r.accessToken == u.accessToken
  {
    u.(avatar := Some(Image(url, AvatarAlt)))
  }

  /** Setting the same picture again changes nothing more. */
  lemma WithAvatarIdempotent(u: User, url: string)
    ensures WithAvatar(WithAvatar(u, url), url) == WithAvatar(u, url)
  {
  }

  /** The error a failed request leaves: the server's message or the fixed
      failure text for a refusal, the rejection's own message or the generic
      text for a network failure. */
  function FailureMessage(response: Response<()>): (m: string)
    requires !response.Ok?
    ensures m != ""
    ensures response.Failed? ==> m == MessageOr(response.message, UpdateFailed)
    ensures response.NetworkError? ==> m == MessageOr(Some(response.reason), GenericError)
  {
    if response.Failed? then MessageOr(response.message, UpdateFailed)
    else MessageOr(Some(response.reason), GenericError)
  }

  class AvatarForm {
    var avatarUrl: string
    var loading: bool
    var error: string
    var success: string

    constructor ()
      ensures avatarUrl == "" && !loading && error == "" && success == ""
    {
      avatarUrl := "";
      loading := false;
      error := "";
      success := "";
    }

    method Change(value: string)
      modifies this`avatarUrl
      ensures avatarUrl == value
    {
      avatarUrl := value;
    }

    /** `handleSubmit`. Both messages are cleared first. A failed check sets
        its message, sends nothing and writes nothing, and the last two also
        go to the login page. A request that passes the checks ends with
        `loading` false and stores the new picture only on an OK answer. */
    method Submit(b: Browser, urlValid: bool, response: Response<()>)
      requires b.Valid()
      modifies this`loading, this`error, this`success, b`storage, b`sent, b`visited
      ensures b.Valid()
      ensures loading == old(loading) || !loading
      ensures var g := CheckSubmit(avatarUrl, urlValid, old(b.storage));
              g != Pass ==> error == GuardMessage(g) && success == "" && loading == old(loading)
                            && b.storage == old(b.storage) && b.sent == old(b.sent)
      ensures CheckSubmit(avatarUrl, urlValid, old(b.storage)) == BadUrl ==> b.visited == old(b.visited)
      ensures CheckSubmit(avatarUrl, urlValid, old(b.storage)) in {NoUser, NoToken} ==>
                b.visited == old(b.visited) + [GoTo("/login")]
      ensures var s := old(b.storage);
              CheckSubmit(avatarUrl, urlValid, s) == Pass ==>
                !loading && b.visited == old(b.visited)
                && b.sent == old(b.sent) + [UpdateAvatar(StoredUser(s).value.name, GetItem(s, AuthToken).value, Image(avatarUrl, AvatarAlt))]
      ensures var s := old(b.storage);
              CheckSubmit(avatarUrl, urlValid, s) == Pass && response.Ok? ==>
                b.storage == s[UserKey := Json(WithAvatar(StoredUser(s).value, avatarUrl))] && success == Updated && error == ""
      ensures CheckSubmit(avatarUrl, urlValid, old(b.storage)) == Pass && !response.Ok? ==>
                b.storage == old(b.storage) && success == "" && error == FailureMessage(response)
    {
      error := "";
      success := "";
      if Trim(avatarUrl) == "" || !urlValid {
        error := InvalidUrlError;
        return;
      }
      var user := StoredUser(b.storage);
      var token := GetItem(b.storage, AuthToken);
      if user.None? || user.value.name == "" {
        error := NoUserError;
        b.Navigate(GoTo("/login"));
        return;
      }
      if !Truthy(token) {
        error := NoTokenError;
        b.Navigate(GoTo("/login"));
        return;
      }
      loading := true;
      b.Send(UpdateAvatar(user.value.name, token.value, Image(avatarUrl, AvatarAlt)));
      if response.Ok? {
        b.SetItem(UserKey, Json(WithAvatar(user.value, avatarUrl)));
        success := Updated;
      } else {
        error := FailureMessage(response);
      }
      loading := false;
    }
  }
}
