/** The login page: a successful login stores the profile and the access
    token, and provisions an API key when none is stored yet. */
module Login {
  import opened Entities
  import opened Api
  import opened Web

  const InitialForm: map<string, string> := map["email" := "", "password" := ""]

  /** The session right after the login answer is stored: the profile under
      `user` and its access token under `authToken`. */
  function StoreLogin(s: Storage, user: User): (r: Storage)
    ensures StoredUser(r) == Some(user)
    ensures GetItem(r, AuthToken) == Some(user.accessToken)
    ensures forall k :: k != UserKey && k != AuthToken ==> (k in r <==> k in s) && (k in s ==> r[k] == s[k])
  {
    s[UserKey := Json(user)][AuthToken := Text(user.accessToken)]
  }

  /** Whether `createApiKey` is called and gets as far as its request: no key
      is stored, and the token it reads back is not empty. */
  predicate RequestsKey(s: Storage, user: User)
  {
    !Has(s, ApiKey) && user.accessToken != ""
  }

  /** The session a login leaves behind. A key is stored only when one was
      requested and the answer was OK; a failed key request is swallowed. */
  function AfterLogin(s: Storage, user: User, keyResponse: Response<string>): (r: Storage)
    ensures StoredUser(r) == Some(user) && GetItem(r, AuthToken) == Some(user.accessToken)
    ensures RequestsKey(s, user) && keyResponse.Ok? ==> GetItem(r, ApiKey) == Some(keyResponse.payload)
    ensures !(RequestsKey(s, user) && keyResponse.Ok?) ==> (ApiKey in r <==> ApiKey in s) && (ApiKey in s ==> r[ApiKey] == s[ApiKey])
    ensures forall k :: k != UserKey && k != AuthToken && k != ApiKey ==> (k in r <==> k in s) && (k in s ==> r[k] == s[k])
  {
    var stored := StoreLogin(s, user);
    if RequestsKey(s, user) && keyResponse.Ok? then stored[ApiKey := Text(keyResponse.payload)] else stored
  }

  /** A stored key survives every login untouched, whatever the key service answers. */
  lemma ExistingKeyKept(s: Storage, user: User, keyResponse: Response<string>)
    requires Has(s, ApiKey)
    ensures GetItem(AfterLogin(s, user, keyResponse), ApiKey) == GetItem(s, ApiKey)
  {
  }

  /** Logging in keeps the session well typed, never writes the `token` key
      and leaves the dark-mode choice alone. */
  lemma LoginKeepsOtherKeys(s: Storage, user: User, keyResponse: Response<string>)
    requires WellTyped(s)
    ensures WellTyped(AfterLogin(s, user, keyResponse))
    ensures GetItem(AfterLogin(s, user, keyResponse), Token) == GetItem(s, Token)
    ensures GetItem(AfterLogin(s, user, keyResponse), DarkMode) == GetItem(s, DarkMode)
  {
  }

  /** After a login whose key request succeeds (or with a key already stored)
      and whose token is not empty, token and key are both present. */
  lemma LoginProvidesCredentials(s: Storage, user: User, keyResponse: Response<string>)
    requires user.accessToken != ""
    requires Has(s, ApiKey) || (keyResponse.Ok? && keyResponse.payload != "")
    ensures Has(AfterLogin(s, user, keyResponse), AuthToken)
    ensures Has(AfterLogin(s, user, keyResponse), ApiKey)
  {
  }

  class LoginPage {
    var formData: map<string, string>

    constructor ()
      ensures formData == InitialForm
    {
      formData := InitialForm;
    }

    method Change(name: string, value: string)
      modifies this`formData
      ensures formData == old(formData)[name := value]
    {
      formData := formData[name := value];
    }

    /** `createApiKey`: nothing without a stored token; otherwise the request is
        sent and only an OK answer stores the key. */
    static method CreateApiKey(b: Browser, response: Response<string>)
      requires b.Valid()
      modifies b`storage, b`sent
      ensures b.Valid()
      ensures !Has(old(b.storage), AuthToken) ==> b.storage == old(b.storage) && b.sent == old(b.sent)
      ensures Has(old(b.storage), AuthToken) ==>
                b.sent == old(b.sent) + [Request.CreateApiKey(GetItem(old(b.storage), AuthToken).value)]
      ensures Has(old(b.storage), AuthToken) && response.Ok? ==> b.storage == old(b.storage)[ApiKey := Text(response.payload)]
      ensures Has(old(b.storage), AuthToken) && !response.Ok? ==> b.storage == old(b.storage)
    {
      var token := GetItem(b.storage, AuthToken);
      if !Truthy(token) {
        return;
      }
      b.Send(Request.CreateApiKey(token.value));
      if response.Ok? {
        b.SetItem(ApiKey, Text(response.payload));
      }
    }

    /** `handleSubmit`: a refused login writes nothing and stays on the page;
        a successful one stores the session, asks for a key when none is
        stored, and goes to the dashboard. */
    method Submit(b: Browser, loginResponse: Response<User>, keyResponse: Response<string>)
      requires b.Valid()
      modifies b`storage, b`sent, b`visited
      ensures b.Valid()
      ensures !loginResponse.Ok? ==>
                b.storage == old(b.storage) && b.sent == old(b.sent) + [Login(formData)] && b.visited == old(b.visited)
      ensures loginResponse.Ok? ==> b.storage == AfterLogin(old(b.storage), loginResponse.payload, keyResponse)
      ensures loginResponse.Ok? ==> b.visited == old(b.visited) + [GoTo("/dashboard")]
      ensures loginResponse.Ok? ==>
                b.sent == old(b.sent) + [Login(formData)]
                          + (if RequestsKey(old(b.storage), loginResponse.payload)
                             then [Request.CreateApiKey(loginResponse.payload.accessToken)] else [])
    {
      b.Send(Login(formData));
      if !loginResponse.Ok? {
        return;
      }
      var user := loginResponse.payload;
      b.SetItem(UserKey, Json(user));
      b.SetItem(AuthToken, Text(user.accessToken));
      if !Truthy(GetItem(b.storage, ApiKey)) {
        CreateApiKey(b, keyResponse);
      }
      b.Navigate(GoTo("/dashboard"));
    }
  }
}
