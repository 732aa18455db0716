/**
 * The plugin's configuration: the property keys it declares, the defaults its
 * property definitions give, and the derived authorization and token endpoint
 * URLs. The host's property store is a map from key to raw value; a key that
 * is absent (or was set to null) reads as the declared default, if any.
 */
module Settings {
  import opened Wrappers
  import opened JavaStrings

  const CLIENT_ID: string := "sonar.auth.aad.clientId.secured"
  const CLIENT_SECRET: string := "sonar.auth.aad.clientSecret.secured"
  const ENABLED: string := "sonar.auth.aad.enabled"
  const ALLOW_USERS_TO_SIGN_UP: string := "sonar.auth.aad.allowUsersToSignUp"
  const TENANT_ID: string := "sonar.auth.aad.tenantId"
  const LOGIN_STRATEGY: string := "sonar.auth.aad.loginStrategy"
  const LOGIN_STRATEGY_UNIQUE: string := "Unique"
  const LOGIN_STRATEGY_PROVIDER_ID: string := "Same as Azure AD login"
  const LOGIN_STRATEGY_DEFAULT_VALUE: string := LOGIN_STRATEGY_UNIQUE
  const MULTI_TENANT: string := "sonar.auth.aad.multiTenant"

  const ROOT_URL: string := "https://login.microsoftonline.com"
  const AUTHORIZATION_URL: string := "oauth2/authorize"
  const AUTHORITY_URL: string := "oauth2/token"
  const COMMON_URL: string := "common"
  const SECURE_RESOURCE_URL: string := "https://graph.windows.net"

  /** The choices the login-strategy setting offers, in the order offered. */
  const LOGIN_STRATEGY_OPTIONS: seq<string> := [LOGIN_STRATEGY_UNIQUE, LOGIN_STRATEGY_PROVIDER_ID]

  /** Default values declared by the property definitions. */
  const DEFAULTS: map<string, string> := map[
    ENABLED := "false",
    MULTI_TENANT := "false",
    ALLOW_USERS_TO_SIGN_UP := "true",
    LOGIN_STRATEGY := LOGIN_STRATEGY_DEFAULT_VALUE]

  /** `Boolean.parseBoolean`: "true" in any letter case. */
  predicate ParsesAsTrue(s: string) {
    |s| == 4 && s[0] in "tT" && s[1] in "rR" && s[2] in "uU" && s[3] in "eE"
  }

  /** `url` is the authority root, then a tenant segment, then a path. */
  predicate IsTenantUrl(url: string, segment: string, path: string) {
    |url| == |ROOT_URL| + 1 + |segment| + 1 + |path|
    && url[..|ROOT_URL| + 1] == ROOT_URL + "/"
    && url[|ROOT_URL| + 1..|ROOT_URL| + 1 + |segment|] == segment
    && url[|ROOT_URL| + 1 + |segment|..] == "/" + path
  }

  datatype AadSettings = AadSettings(properties: map<string, string>) {

    /** The host's `Settings.getString`: the stored value, else the declared default, else null. */
    function GetString(key: string): (r: Option<string>) {
      if key in properties then Some(properties[key])
      else if key in DEFAULTS then Some(DEFAULTS[key])
      else None
    }

    /** The host's `Settings.getBoolean`: a non-empty value that parses as true. */
    function GetBoolean(key: string): (r: bool) {
      var v := GetString(key);
      v.Some? && |v.value| > 0 && ParsesAsTrue(v.value)
    }

    /** The client id exactly as stored; there is no default. */
    function ClientId(): (r: Option<string>)
      ensures r.Some? <==> CLIENT_ID in properties
      ensures r.Some? ==> r.value == properties[CLIENT_ID]
    {
      GetString(CLIENT_ID)
    }

    /** Users may sign up unless the setting is present and not "true". */
    function AllowUsersToSignUp(): (r: bool)
      ensures ALLOW_USERS_TO_SIGN_UP !in properties ==> r
      ensures ALLOW_USERS_TO_SIGN_UP in properties ==> (r <==> ParsesAsTrue(properties[ALLOW_USERS_TO_SIGN_UP]))
    {
      GetBoolean(ALLOW_USERS_TO_SIGN_UP)
    }

    /** Multi-tenant mode is off unless the setting is present and "true". */
    function MultiTenant(): (r: bool)
      ensures r <==> MULTI_TENANT in properties && ParsesAsTrue(properties[MULTI_TENANT])
    {
      GetBoolean(MULTI_TENANT)
    }

    /** The tenant id exactly as stored; there is no default. */
    function TenantId(): (r: Option<string>)
      ensures r.Some? <==> TENANT_ID in properties
      ensures r.Some? ==> r.value == properties[TENANT_ID]
    {
      GetString(TENANT_ID)
    }

    /** The client secret exactly as stored; there is no default. */
    function ClientSecret(): (r: Option<string>)
      ensures r.Some? <==> CLIENT_SECRET in properties
      ensures r.Some? ==> r.value == properties[CLIENT_SECRET]
    {
      GetString(CLIENT_SECRET)
    }

    /**
     * Enabled exactly when the flag is true and both client credentials are
     * configured. The null check on the login strategy never fails, because
     * that setting has a declared default.
     */
    function IsEnabled(): (r: bool)
      ensures r <==> ENABLED in properties && ParsesAsTrue(properties[ENABLED])
                     && CLIENT_ID in properties && CLIENT_SECRET in properties
    {
      GetBoolean(ENABLED) && ClientId() != None && ClientSecret() != None && LoginStrategy() != None
    }

    /** The tenant segment of the endpoint URLs: "common" in multi-tenant mode, else the tenant id. */
    function Endpoint(): (r: string)
      ensures MultiTenant() ==> r == COMMON_URL
      ensures !MultiTenant() && TENANT_ID in properties ==> r == properties[TENANT_ID]
      ensures !MultiTenant() && TENANT_ID !in properties ==> r == "null"
    {
      if MultiTenant() then COMMON_URL else Render(TenantId())
    }

    function AuthorizationUrl(): (r: string)
      ensures IsTenantUrl(r, Endpoint(), AUTHORIZATION_URL)
    {
      ROOT_URL + "/" + Endpoint() + "/" + AUTHORIZATION_URL
    }

    function AuthorityUrl(): (r: string)
      ensures IsTenantUrl(r, Endpoint(), AUTHORITY_URL)
    {
      ROOT_URL + "/" + Endpoint() + "/" + AUTHORITY_URL
    }

    /** The configured strategy; never null, since "Unique" is the declared default. */
    function LoginStrategy(): (r: Option<string>)
      ensures r.Some?
      ensures LOGIN_STRATEGY in properties ==> r.value == properties[LOGIN_STRATEGY]
      ensures LOGIN_STRATEGY !in properties ==> r.value == LOGIN_STRATEGY_UNIQUE
    {
      GetString(LOGIN_STRATEGY)
    }
  }

  /** A tenant URL determines its segment: the decomposition is unique. */
  lemma TenantUrlSegmentUnique(url: string, s1: string, s2: string, path: string)
    requires IsTenantUrl(url, s1, path) && IsTenantUrl(url, s2, path)
    ensures s1 == s2
  {
  }

  /** Two configurations yield the same authorization URL exactly when they select the same tenant segment. */
  lemma AuthorizationUrlDeterminesEndpoint(a: AadSettings, b: AadSettings)
    ensures a.AuthorizationUrl() == b.AuthorizationUrl() <==> a.Endpoint() == b.Endpoint()
  {
    if a.AuthorizationUrl() == b.AuthorizationUrl() {
      TenantUrlSegmentUnique(a.AuthorizationUrl(), a.Endpoint(), b.Endpoint(), AUTHORIZATION_URL);
    }
  }

  /**
   * The two endpoints agree on everything up to the final path and are never
   * the same URL, whatever the configuration.
   */
  lemma EndpointsDifferOnlyInPath(s: AadSettings)
    ensures var n := |ROOT_URL| + 1 + |s.Endpoint()| + 1;
            |s.AuthorizationUrl()| > n && |s.AuthorityUrl()| > n
            && s.AuthorizationUrl()[..n] == s.AuthorityUrl()[..n]
            && s.AuthorizationUrl() != s.AuthorityUrl()
  {
    var n := |ROOT_URL| + 1 + |s.Endpoint()| + 1;
    // Both paths begin "oauth2/"; they part at the next character.
    assert s.AuthorizationUrl()[n - 1..] == "/" + AUTHORIZATION_URL;
    assert s.AuthorityUrl()[n - 1..] == "/" + AUTHORITY_URL;
    assert s.AuthorizationUrl()[n + 7] == 'a' && s.AuthorityUrl()[n + 7] == 't';
  }

  lemma DefaultLoginStrategyIsUnique(s: AadSettings)
    requires LOGIN_STRATEGY !in s.properties
    ensures s.LoginStrategy() == Some(LOGIN_STRATEGY_UNIQUE)
    ensures LOGIN_STRATEGY_UNIQUE in LOGIN_STRATEGY_OPTIONS
  {
  }

  /** The single-tenant URL the tests expect. */
  lemma SingleTenantUrlExample()
    ensures AadSettings(map[MULTI_TENANT := "false", TENANT_ID := "tenantId"]).AuthorizationUrl()
            == "https://login.microsoftonline.com/tenantId/oauth2/authorize"
  {
    var s := AadSettings(map[MULTI_TENANT := "false", TENANT_ID := "tenantId"]);
    assert !ParsesAsTrue("false");
    assert s.Endpoint() == "tenantId";
  }

  /** The multi-tenant URL the tests expect. */
  lemma MultiTenantUrlExample()
    ensures AadSettings(map[MULTI_TENANT := "true"]).AuthorizationUrl()
            == "https://login.microsoftonline.com/common/oauth2/authorize"
  {
    var s := AadSettings(map[MULTI_TENANT := "true"]);
    assert ParsesAsTrue("true");
    assert s.Endpoint() == "common";
  }

  /** Single-tenant mode without a tenant id prints the segment as "null". */
  lemma MissingTenantUrlExample(s: AadSettings)
    requires MULTI_TENANT !in s.properties && TENANT_ID !in s.properties
    ensures s.AuthorizationUrl() == "https://login.microsoftonline.com/null/oauth2/authorize"
  {
  }

  /** Enabled with both credentials and the default strategy; switching the flag off, or dropping a credential, disables. */
  lemma IsEnabledExamples()
    ensures AadSettings(map[CLIENT_ID := "id", CLIENT_SECRET := "secret", ENABLED := "true"]).IsEnabled()
    ensures !AadSettings(map[CLIENT_ID := "id", CLIENT_SECRET := "secret", ENABLED := "false"]).IsEnabled()
    ensures !AadSettings(map[CLIENT_SECRET := "secret", ENABLED := "true"]).IsEnabled()
    ensures !AadSettings(map[CLIENT_ID := "id", ENABLED := "true"]).IsEnabled()
  {
  }
}
