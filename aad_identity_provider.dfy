/**
 * The OAuth2 identity provider the host calls: its key and name, the
 * authorization request that starts the code flow, the login naming
 * strategies, and the callback that turns the authority's answer into an
 * authenticated host identity or fails without authenticating anyone.
 */
module Provider {
  import opened Wrappers
  import opened JavaStrings
  import opened HostApi
  import opened Settings

  const FAIL_PREFIX: string := "Fail to authenticate the user:"
  const STRATEGY_NOT_FOUND: string := "Login strategy not found : "
  /** How `Throwable.toString` prefixes the message of an `IllegalStateException`. */
  const ILLEGAL_STATE: string := "java.lang.IllegalStateException: "
  /** How `Throwable.toString` prefixes the message of an `IllegalArgumentException`. */
  const ILLEGAL_ARGUMENT: string := "java.lang.IllegalArgumentException: "
  /** `Throwable.toString` of a `NullPointerException` that carries no message. */
  const NULL_POINTER: string := "java.lang.NullPointerException"
  const STATE_PARAM: string := "&state="

  /** The user the token exchange reports. */
  datatype AadUser = AadUser(givenName: string, familyName: string, displayableId: string)

  /** What the authorization-code exchange sends to the authority. */
  datatype TokenRequest = TokenRequest(
    authority: string,
    code: Option<string>,
    redirectUri: string,
    clientId: Option<string>,
    clientSecret: Option<string>,
    resource: string)

  /**
   * The answer to the exchange: a result carrying user info (which may be
   * null), a null result, or the text of the exception the exchange raised.
   */
  datatype Exchange =
    | Exchanged(user: Option<AadUser>)
    | NoResult
    | ExchangeFailed(description: string)

  /** How a callback ends: normally, by the host's CSRF check throwing, or by the adapter's catch-all. */
  datatype CallbackOutcome = Completed | CsrfRejected | Failed(message: string)

  /**
   * The host calls a callback makes: the CSRF check always comes first; the
   * identity is authenticated exactly when the check passed and the identity
   * could be built, once, and the redirect to the requested page follows it.
   */
  function CallbackCalls(csrfOk: bool, attempt: Result<UserIdentity, string>): (calls: seq<HostCall>)
    ensures |calls| > 0 && calls[0] == HostCall.VerifyCsrfState
    ensures forall k :: 0 <= k < |calls| && calls[k].Authenticate? ==>
              k == 1 && k + 1 < |calls| && calls[k + 1] == HostCall.RedirectToRequestedPage
    ensures (exists k :: 0 <= k < |calls| && calls[k].Authenticate?) <==> csrfOk && attempt.Ok?
    ensures forall k :: 0 <= k < |calls| && calls[k].Authenticate? ==> calls[k].identity == attempt.value
    ensures HostCall.RedirectToRequestedPage in calls <==> csrfOk && attempt.Ok?
  {
    if csrfOk && attempt.Ok? then
      var calls := [HostCall.VerifyCsrfState, HostCall.Authenticate(attempt.value), HostCall.RedirectToRequestedPage];
      assert calls[1].Authenticate?;
      calls
    else [HostCall.VerifyCsrfState]
  }

  /** The callback's outcome: any failure inside the protected part becomes one reported failure. */
  function CallbackResult(csrfOk: bool, attempt: Result<UserIdentity, string>): (r: CallbackOutcome)
    ensures r == CsrfRejected <==> !csrfOk
    ensures r == Completed <==> csrfOk && attempt.Ok?
    ensures r.Failed? ==> r.message == FAIL_PREFIX + attempt.error
  {
    if !csrfOk then CsrfRejected
    else match attempt
      case Ok(_) => Completed
      case Err(e) => Failed(FAIL_PREFIX + e)
  }

  class AadIdentityProvider {
    const settings: AadSettings

    constructor (settings: AadSettings)
      ensures this.settings == settings
    {
      this.settings := settings;
    }

    /** The provider key; it holds no '@', so it can follow the separator of a unique login. */
    function GetKey(): (r: string)
      ensures r == "aad" && '@' !in r
    {
      "aad"
    }

    function GetName(): (r: string)
      ensures r == "Azure AD"
    {
      "Azure AD"
    }

    /**
     * The authorization request for the code flow: the authorization
     * endpoint, then client id, response type, redirect URI and state as
     * query parameters, with no encoding of any value.
     */
    function AuthorizationRequestUrl(callbackUrl: string, state: string): (r: string)
      ensures r == settings.AuthorizationUrl() + "?client_id=" + Render(settings.ClientId())
                   + "&response_type=code&redirect_uri=" + callbackUrl + "&state=" + state
      ensures r == RequestHead(callbackUrl) + STATE_PARAM + state
    {
      RequestHead(callbackUrl) + STATE_PARAM + state
    }

    /** The authorization request up to, not including, the state parameter. */
    function RequestHead(callbackUrl: string): (r: string) {
      settings.AuthorizationUrl() + "?client_id=" + Render(settings.ClientId())
      + "&response_type=code&redirect_uri=" + callbackUrl
    }

    /** The unique login: the displayable id, '@', the provider key. */
    function GenerateUniqueLogin(aadUser: AadUser): (r: string)
      ensures |r| == |aadUser.displayableId| + 1 + |GetKey()|
      ensures r[..|aadUser.displayableId|] == aadUser.displayableId
      ensures r[|aadUser.displayableId|] == '@'
      ensures r[|aadUser.displayableId| + 1..] == GetKey()
    {
      aadUser.displayableId + "@" + GetKey()
    }

    /**
     * The login for the configured strategy, or the text of the exception
     * computing it raises: any strategy other than the two offered raises
     * "Login strategy not found" before the user info is touched; a null user
     * info under an offered strategy raises a null dereference.
     */
    function GetLogin(aadUser: Option<AadUser>): (r: Result<string, string>)
      ensures r.Ok? <==> settings.LoginStrategy().value in LOGIN_STRATEGY_OPTIONS && aadUser.Some?
      ensures aadUser.Some? && settings.LoginStrategy() == Some(LOGIN_STRATEGY_UNIQUE) ==>
                r == Ok(GenerateUniqueLogin(aadUser.value))
      ensures aadUser.Some? && settings.LoginStrategy() == Some(LOGIN_STRATEGY_PROVIDER_ID) ==>
                r == Ok(aadUser.value.displayableId)
      ensures settings.LoginStrategy().value !in LOGIN_STRATEGY_OPTIONS ==>
                r == Err(ILLEGAL_STATE + STRATEGY_NOT_FOUND + Render(settings.LoginStrategy()))
      ensures settings.LoginStrategy().value in LOGIN_STRATEGY_OPTIONS && aadUser.None? ==> r == Err(NULL_POINTER)
    {
      var loginStrategy := settings.LoginStrategy();
      if loginStrategy == Some(LOGIN_STRATEGY_UNIQUE) then
        if aadUser.Some? then Ok(GenerateUniqueLogin(aadUser.value)) else Err(NULL_POINTER)
      else if loginStrategy == Some(LOGIN_STRATEGY_PROVIDER_ID) then
        if aadUser.Some? then Ok(aadUser.value.displayableId) else Err(NULL_POINTER)
      else Err(ILLEGAL_STATE + STRATEGY_NOT_FOUND + Render(loginStrategy))
    }

    /**
     * The builder's state before `build()`: the provider name as provider
     * login, the strategy's login, "given family" as name, the displayable id
     * as email, no groups.
     */
    function Assembled(aadUser: AadUser, login: string): (id: UserIdentity)
      ensures id.providerLogin == Some(GetName()) && id.login == Some(login)
      ensures id.name == Some(aadUser.givenName + " " + aadUser.familyName)
      ensures id.email == Some(aadUser.displayableId) && id.groups == None
    {
      EmptyIdentity.(providerLogin := Some(GetName()), login := Some(login),
                     name := Some(aadUser.givenName + " " + aadUser.familyName),
                     email := Some(aadUser.displayableId))
    }

    /**
     * The identity handed to the host: the assembled identity when the login
     * can be computed and the host's builder accepts it; otherwise the text
     * of whichever exception came first.
     */
    function BuildIdentity(aadUser: Option<AadUser>, check: IdentityCheck): (r: Result<UserIdentity, string>)
      ensures GetLogin(aadUser).Err? ==> r == Err(GetLogin(aadUser).error)
      ensures GetLogin(aadUser).Ok? ==>
                aadUser.Some?
                && var id := Assembled(aadUser.value, GetLogin(aadUser).value);
                   (r.Ok? <==> check(id).None?)
                   && (r.Ok? ==> r.value == id)
                   && (r.Err? ==> r.error == ILLEGAL_ARGUMENT + check(id).value)
    {
      match GetLogin(aadUser)
      case Err(e) => Err(e)
      case Ok(login) =>
        var id := Assembled(aadUser.value, login);
        match check(id)
        case None => Ok(id)
        case Some(m) => Err(ILLEGAL_ARGUMENT + m)
    }

    /** The code-for-token request made from a callback's request parameters. */
    function TokenRequestFor(code: Option<string>, callbackUrl: string): (r: TokenRequest)
      ensures r.authority == settings.AuthorityUrl() && r.redirectUri == callbackUrl && r.code == code
      ensures r.clientId == settings.ClientId() && r.clientSecret == settings.ClientSecret()
      ensures r.resource == SECURE_RESOURCE_URL
    {
      TokenRequest(settings.AuthorityUrl(), code, callbackUrl, settings.ClientId(), settings.ClientSecret(),
                   SECURE_RESOURCE_URL)
    }

    /** Everything inside the callback's catch-all: the exchange, then the identity. */
    function Attempt(exchanged: Exchange, check: IdentityCheck): (r: Result<UserIdentity, string>)
      ensures exchanged.ExchangeFailed? ==> r == Err(exchanged.description)
      ensures exchanged.NoResult? ==> r == Err(NULL_POINTER)
      ensures exchanged.Exchanged? ==> r == BuildIdentity(exchanged.user, check)
    {
      match exchanged
      case ExchangeFailed(d) => Err(d)
      case NoResult => Err(NULL_POINTER)
      case Exchanged(u) => BuildIdentity(u, check)
    }

    /** Asks the host for a fresh state and redirects the browser to the authorization request. */
    method Init(context: InitContext)
      modifies context
      ensures context.calls == old(context.calls) + [HostCall.GenerateCsrfState,
                HostCall.RedirectTo(AuthorizationRequestUrl(context.callbackUrl, context.csrfState))]
    {
      var state := context.GenerateCsrfState();
      var authUrl := AuthorizationRequestUrl(context.callbackUrl, state);
      context.RedirectTo(authUrl);
    }

    /**
     * Checks the CSRF state, exchanges the code, builds the identity, then
     * authenticates it and redirects; a failure anywhere after the CSRF check
     * authenticates no one and is reported as one failure.
     */
    method Callback(context: CallbackContext, exchange: TokenRequest -> Exchange, check: IdentityCheck)
      returns (outcome: CallbackOutcome)
      modifies context
      ensures var attempt := Attempt(exchange(TokenRequestFor(context.code, context.callbackUrl)), check);
              context.calls == old(context.calls) + CallbackCalls(context.csrfValid, attempt)
              && outcome == CallbackResult(context.csrfValid, attempt)
    {
      var ok := context.VerifyCsrfState();
      if !ok {
        return CsrfRejected;
      }
      var oAuthVerifier := context.code;
      var result := exchange(TokenRequestFor(oAuthVerifier, context.callbackUrl));
      match result {
        case ExchangeFailed(description) =>
          return Failed(FAIL_PREFIX + description);
        case NoResult =>
          return Failed(FAIL_PREFIX + NULL_POINTER);
        case Exchanged(aadUser) =>
          var userIdentity := BuildIdentity(aadUser, check);
          if userIdentity.Err? {
            return Failed(FAIL_PREFIX + userIdentity.error);
          }
          context.Authenticate(userIdentity.value);
          context.RedirectToRequestedPage();
          return Completed;
      }
    }
  }

  /**
   * The text after the last '@' of a unique login is the provider key, and
   * what precedes that '@' is the displayable id, whatever '@'s the id holds.
   */
  lemma UniqueLoginEndsWithKey(p: AadIdentityProvider, u: AadUser)
    ensures var login := p.GenerateUniqueLogin(u);
            SubstringAfterLast(login, "@") == p.GetKey()
            && LastIndexOf(login, "@") == |u.displayableId|
  {
    LastIndexOfMarker(u.displayableId, "@", p.GetKey());
  }

  /**
   * The state is the last query parameter: as long as it does not itself hold
   * "&state=", it is exactly what follows the last "&state=" in the request.
   */
  lemma StateIsLastParameter(p: AadIdentityProvider, callbackUrl: string, state: string)
    requires !Contains(state, STATE_PARAM)
    ensures SubstringAfterLast(p.AuthorizationRequestUrl(callbackUrl, state), STATE_PARAM) == state
  {
    LastIndexOfMarker(p.RequestHead(callbackUrl), STATE_PARAM, state);
  }

  /** Logins made by the unique strategy determine the displayable id they were made from. */
  lemma UniqueLoginInjective(p: AadIdentityProvider, a: AadUser, b: AadUser)
    requires p.GenerateUniqueLogin(a) == p.GenerateUniqueLogin(b)
    ensures a.displayableId == b.displayableId
  {
  }

  /** Fail closed: with a strategy outside the offered two, no callback ever authenticates anyone. */
  lemma UnknownStrategyNeverAuthenticates(p: AadIdentityProvider, csrfOk: bool, exchanged: Exchange, check: IdentityCheck)
    requires p.settings.LoginStrategy().value !in LOGIN_STRATEGY_OPTIONS
    ensures forall c :: c in CallbackCalls(csrfOk, p.Attempt(exchanged, check)) ==> !c.Authenticate?
    ensures csrfOk ==> CallbackResult(csrfOk, p.Attempt(exchanged, check)).Failed?
  {
  }

  /** Only identities the host's builder accepts are ever authenticated, and they carry the provider's name. */
  lemma AuthenticatedIdentityIsAccepted(p: AadIdentityProvider, csrfOk: bool, exchanged: Exchange, check: IdentityCheck)
    ensures forall c :: c in CallbackCalls(csrfOk, p.Attempt(exchanged, check)) && c.Authenticate? ==>
              check(c.identity) == None && c.identity.providerLogin == Some(p.GetName())
  {
  }

  /**
   * An identity the host's builder refuses fails the callback with the
   * builder's message, and no one is authenticated.
   */
  lemma RejectedIdentityFailsCallback(p: AadIdentityProvider, u: AadUser, check: IdentityCheck, message: string)
    requires p.settings.LoginStrategy().value in LOGIN_STRATEGY_OPTIONS
    requires check(p.Assembled(u, p.GetLogin(Some(u)).value)) == Some(message)
    ensures CallbackResult(true, p.Attempt(Exchanged(Some(u)), check)) == Failed(FAIL_PREFIX + ILLEGAL_ARGUMENT + message)
    ensures CallbackCalls(true, p.Attempt(Exchanged(Some(u)), check)) == [HostCall.VerifyCsrfState]
  {
  }

  /**
   * Missing user info fails the callback with a null dereference under an
   * offered strategy, and with the strategy error otherwise.
   */
  lemma MissingUserInfoFailsCallback(p: AadIdentityProvider, check: IdentityCheck)
    ensures var r := CallbackResult(true, p.Attempt(Exchanged(None), check));
            if p.settings.LoginStrategy().value in LOGIN_STRATEGY_OPTIONS then r == Failed(FAIL_PREFIX + NULL_POINTER)
            else r == Failed(FAIL_PREFIX + ILLEGAL_STATE + STRATEGY_NOT_FOUND + Render(p.settings.LoginStrategy()))
  {
  }

  /** Two authorization requests for the same configuration differ only in the trailing state. */
  lemma AuthorizationRequestsDifferOnlyInState(p: AadIdentityProvider, callbackUrl: string, s1: string, s2: string)
    ensures var u1 := p.AuthorizationRequestUrl(callbackUrl, s1);
            var u2 := p.AuthorizationRequestUrl(callbackUrl, s2);
            |u1| - |s1| == |u2| - |s2| && u1[..|u1| - |s1|] == u2[..|u2| - |s2|]
  {
  }

  /**
   * The redirect the tests expect for client id "id" in single-tenant mode
   * with no tenant id, written piece by piece as the format assembles it.
   */
  lemma InitUrlExample(p: AadIdentityProvider)
    requires CLIENT_ID in p.settings.properties && p.settings.properties[CLIENT_ID] == "id"
    requires MULTI_TENANT !in p.settings.properties && TENANT_ID !in p.settings.properties
    ensures p.AuthorizationRequestUrl("http://localhost/callback", "state")
            == "https://login.microsoftonline.com/null/oauth2/authorize" + "?client_id=" + "id"
               + "&response_type=code&redirect_uri=" + "http://localhost/callback" + "&state=" + "state"
  {
    MissingTenantUrlExample(p.settings);
    assert Render(p.settings.ClientId()) == "id";
  }
}
