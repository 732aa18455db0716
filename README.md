# Azure AD authentication for SonarQube — a Dafny model of the core

This project models the core of an Azure Active Directory identity provider
plugin for SonarQube. The plugin sends the browser to the Azure AD authorization
endpoint (the authorization-code flow of section 4.1 of RFC 6749), and receives
the callback. It exchanges the code for tokens and turns the result into a
SonarQube `UserIdentity`. The modelled parts are:

- **Settings** (`aad_settings.dfy`): the plugin's property keys and declared
  defaults, read from a property map. The tenant segment is `common` in
  multi-tenant mode, otherwise the tenant id, printed as `null` when missing.
  The authorization and token endpoint URLs are built from it, and the
  enablement check is modelled here.
- **Identity provider** (`aad_identity_provider.dfy`): the provider key and
  name, and the authorization-request redirect (no percent-encoding). It has
  the two login strategies (`Unique` gives `displayableId@aad`; `Same as Azure
  AD login` gives the displayable id), and fails closed on any other. The
  callback is a method over the host context: it checks CSRF, exchanges the
  code, builds the identity, authenticates, then redirects. Any failure after
  the CSRF check authenticates no one. A ghost trace records every host call.
- **User info** (`aad_user_info.dfy`): the fallback chains over the claims
  `preferred_username`, `email` and `name` of section 5.1 of OpenID Connect
  Core 1.0. Azure AD's object-id claim `oid` has no fallback; it is copied
  only when present.
  The membership-page walk collects group display names into a set. It is a
  `while` loop proved against a recursive specification, and its result is
  all or nothing. `AadUserInfo` is a class whose constructor parses the token
  and fetches groups only when asked to.
- **JSON helpers** (`json_helper.dfy`): reading the `value` array, the
  next-page link (the text after the last `memberOf?`), and copying a JSON
  object's string attributes into a group record. The reflective loop over
  the declared fields becomes an explicit list of fields and setters.
- **Group record** (`aad_group.dfy`): a class with three nullable fields. Each
  setter writes exactly one field.
- Support: `wrappers.dfy` (Option/Result), `java_strings.dfy` (Java's
  printing of `null`, `String.lastIndexOf`, and Apache Commons'
  `StringUtils.substringAfterLast`), `host_api.dfy` (the host's identity record
  and the init and callback contexts).

Java `null` is `None`. An exception is an `Err` result or a failed outcome.
The Microsoft Graph directory is the sequence of responses it gives, in
request order. A page has a next link exactly when another response follows
it. A response is a page of optional display names, "no page" (null), or a
failure. The token exchange is a function from the token request to its
answer.

Some consequences of the code that the model makes explicit:

- The unique login is built from the displayable id, so it holds more than
  one `@` when that id is an e-mail address. What is proved is that the text
  after the LAST `@` is the provider key, and that the text before it is the
  id.
- The display name falls back only to the sentinel `No name provided`, never
  to `preferred_username`.
- `isEnabled` checks only that the login strategy is non-null, not that it is
  one of the two offered. That conjunct never fails, because the strategy
  has a declared default.
- When a group-page fetch fails part-way through the walk, the pages already
  read are discarded. The group set keeps its initial empty value.
- The callback builds the identity with the host's builder, whose `build()`
  may refuse it. The builder's validation is a parameter of the callback
  (`HostApi.IdentityCheck`). A refusal fails the callback like any other
  exception inside it.

## Model

| member | source | states |
|---|---|---|
| `Settings.AadSettings.ClientId` | src/main/java/org/almrangers/auth/aad/AadSettings.java:136-138 | the client id is the stored value unchanged; null when unset (no default) |
| `Settings.AadSettings.ClientSecret` | src/main/java/org/almrangers/auth/aad/AadSettings.java:151-153 | the client secret is the stored value unchanged; null when unset |
| `Settings.AadSettings.TenantId` | src/main/java/org/almrangers/auth/aad/AadSettings.java:147-149 | the tenant id is the stored value unchanged; null when unset |
| `Settings.AadSettings.AllowUsersToSignUp` | src/main/java/org/almrangers/auth/aad/AadSettings.java:140-142 | sign-up is allowed when unset (declared default true), otherwise exactly when the stored value reads as true |
| `Settings.AadSettings.MultiTenant` | src/main/java/org/almrangers/auth/aad/AadSettings.java:143-145 | multi-tenant mode holds exactly when the setting is stored and reads as true |
| `Settings.AadSettings.IsEnabled` | src/main/java/org/almrangers/auth/aad/AadSettings.java:155-157 | enabled exactly when the flag is true and both client id and secret are set; the strategy conjunct never fails |
| `Settings.AadSettings.Endpoint` | src/main/java/org/almrangers/auth/aad/AadSettings.java:159-164 | the segment is `common` in multi-tenant mode, else the tenant id, printed `null` when missing |
| `Settings.AadSettings.AuthorizationUrl` | src/main/java/org/almrangers/auth/aad/AadSettings.java:166-168 | the URL splits into root `https://login.microsoftonline.com/`, the tenant segment, and `/oauth2/authorize` |
| `Settings.AadSettings.AuthorityUrl` | src/main/java/org/almrangers/auth/aad/AadSettings.java:170-172 | the URL splits into the same root and segment, then `/oauth2/token` |
| `Settings.AadSettings.LoginStrategy` | src/main/java/org/almrangers/auth/aad/AadSettings.java:174-176 | the strategy is never null: the stored value, else the declared default `Unique` |
| `Settings.TenantUrlSegmentUnique` | src/main/java/org/almrangers/auth/aad/AadSettings.java:166-172 | a tenant URL has only one way to split into root, segment and path |
| `Settings.AuthorizationUrlDeterminesEndpoint` | src/main/java/org/almrangers/auth/aad/AadSettings.java:159-168 | two configurations give the same authorization URL if and only if they select the same tenant segment |
| `Settings.EndpointsDifferOnlyInPath` | src/main/java/org/almrangers/auth/aad/AadSettings.java:166-172 | for every configuration the authorization and token URLs agree up to the final path and are never equal |
| `Settings.DefaultLoginStrategyIsUnique` | src/main/java/org/almrangers/auth/aad/AadSettings.java:128-129 | with no stored strategy the strategy is `Unique`, one of the two offered options |
| `Settings.SingleTenantUrlExample` | src/main/java/org/almrangers/auth/aad/AadSettings.java:159-168 | single tenant `tenantId` gives `https://login.microsoftonline.com/tenantId/oauth2/authorize` |
| `Settings.MultiTenantUrlExample` | src/main/java/org/almrangers/auth/aad/AadSettings.java:159-168 | multi-tenant gives `https://login.microsoftonline.com/common/oauth2/authorize` |
| `Settings.MissingTenantUrlExample` | src/main/java/org/almrangers/auth/aad/AadSettings.java:159-168 | single tenant without a tenant id gives `.../null/oauth2/authorize` |
| `Settings.IsEnabledExamples` | src/main/java/org/almrangers/auth/aad/AadSettings.java:155-157 | enabled with id, secret and flag; disabled when the flag is false or either credential is missing |
| `Groups.AadGroup.constructor` | src/main/java/org/almrangers/auth/aad/AadGroup.java:30-32 | a new group has all three fields null |
| `Groups.AadGroup.SetObjectId` | src/main/java/org/almrangers/auth/aad/AadGroup.java:35-42 | the getter returns the value set; only `objectId` may change |
| `Groups.AadGroup.SetObjectType` | src/main/java/org/almrangers/auth/aad/AadGroup.java:45-52 | the getter returns the value set; only `objectType` may change |
| `Groups.AadGroup.SetDisplayName` | src/main/java/org/almrangers/auth/aad/AadGroup.java:55-62 | the getter returns the value set; only `displayName` may change |
| `JavaStrings.Render` | src/main/java/org/almrangers/auth/aad/AadSettings.java:167 | formatting a null string prints `null`; any other string prints as itself |
| `JavaStrings.LastIndexOf` | src/main/java/org/almrangers/auth/aad/JSONHelper.java:53 | the result is an occurrence of the separator with none after it, or -1 exactly when there is none |
| `JavaStrings.SubstringAfterLast` | src/main/java/org/almrangers/auth/aad/JSONHelper.java:53 | when the separator occurs, the input is (text before the last occurrence) + separator + result; otherwise the result is empty |
| `JavaStrings.AfterLastHasNoSeparator` | src/main/java/org/almrangers/auth/aad/JSONHelper.java:53 | the text after the last separator never contains the separator |
| `JavaStrings.LastIndexOfMarker` | src/main/java/org/almrangers/auth/aad/AadIdentityProvider.java:94 | for a marker whose first character does not recur in it (such as `@` or `&state=`), an occurrence followed by text free of the marker is the last one, so the text after it comes back intact |
| `JsonHelpers.OptString` | src/main/java/org/almrangers/auth/aad/JSONHelper.java:80 | a missing or JSON-null key reads as the empty string; a string value reads as itself |
| `JsonHelpers.FetchDirectoryObjectJSONArray` | src/main/java/org/almrangers/auth/aad/JSONHelper.java:41-43 | the `value` array of the response message, or null exactly when that key is missing or not an array |
| `JsonHelpers.FetchNextPageLink` | src/main/java/org/almrangers/auth/aad/JSONHelper.java:52-54 | null exactly when there is no `odata.nextLink`. Otherwise the text after the last `memberOf?` (the link is prefix + `memberOf?` + result), never containing `memberOf?`, and empty when the link lacks it |
| `JsonHelpers.InvokeSetter` | src/main/java/org/almrangers/auth/aad/JSONHelper.java:76-80 | the setter for one field sets that field and leaves the other two alone |
| `JsonHelpers.ConvertJSONObjectToDirectoryObject` | src/main/java/org/almrangers/auth/aad/JSONHelper.java:64-83 | after the loop over the declared string fields, each field holds the same-named JSON value, with `""` for a missing key |
| `UserInfos.ResolveDisplayId` | src/main/java/org/almrangers/auth/aad/AadUserInfo.java:90-94 | a non-empty `preferred_username`, else a non-empty `email`, else unset; never set to the empty string |
| `UserInfos.ResolveDisplayName` | src/main/java/org/almrangers/auth/aad/AadUserInfo.java:100-104 | the non-empty `name` claim, else exactly `No name provided`; never empty |
| `UserInfos.ResolveUserEmail` | src/main/java/org/almrangers/auth/aad/AadUserInfo.java:109-113 | a non-empty `email`, else `preferred_username` whenever present, else unset |
| `UserInfos.ClaimFallbackExamples` | src/main/java/org/almrangers/auth/aad/AadUserInfo.java:88-113 | the tests' four tokens resolve to the expected id, name and email |
| `UserInfos.NamesOnExactly` | src/main/java/org/almrangers/auth/aad/AadUserInfo.java:177-184 | a page contributes exactly its non-null display names |
| `UserInfos.MemberGroupsExactly` | src/main/java/org/almrangers/auth/aad/AadUserInfo.java:171-195 | the walk fails exactly when it reaches a failed request. Otherwise the set holds exactly the non-null names on the pages before the stop |
| `UserInfos.PaginationExamples` | src/main/java/org/almrangers/auth/aad/AadUserInfo.java:171-195 | two pages give both names; duplicates and nulls collapse; a failure on page 2 of 3 gives no set |
| `UserInfos.AadUserInfo.constructor` | src/main/java/org/almrangers/auth/aad/AadUserInfo.java:63-73 | fields come from the fallback chains. Groups are empty unless the flag is TRUE; then they are the fetched set, or empty when any request failed |
| `UserInfos.AadUserInfo.ParseToken` | src/main/java/org/almrangers/auth/aad/AadUserInfo.java:75-114 | each field gets its chain's value; a chain that yields nothing leaves its field unchanged |
| `UserInfos.AadUserInfo.ProcessGroups` | src/main/java/org/almrangers/auth/aad/AadUserInfo.java:130-169 | the group set becomes the complete fetched set, or keeps its old value on any failure; never a partial set |
| `UserInfos.AadUserInfo.ProcessMemberGroupCollection` | src/main/java/org/almrangers/auth/aad/AadUserInfo.java:171-195 | the page loop computes exactly the specified walk result |
| `UserInfos.AadUserInfo.BuildUserId` | src/main/java/org/almrangers/auth/aad/AadUserInfo.java:116-127 | provider login, name and email copy the resolved fields; groups are set exactly when requested |
| `Provider.AadIdentityProvider.constructor` | src/main/java/org/almrangers/auth/aad/AadIdentityProvider.java:58-60 | the provider keeps the settings it is given |
| `Provider.AadIdentityProvider.GetKey` | src/main/java/org/almrangers/auth/aad/AadIdentityProvider.java:72-74 | the key is `aad`, which holds no `@` |
| `Provider.AadIdentityProvider.GetName` | src/main/java/org/almrangers/auth/aad/AadIdentityProvider.java:77-79 | the name is `Azure AD` |
| `Provider.AadIdentityProvider.AuthorizationRequestUrl` | src/main/java/org/almrangers/auth/aad/AadIdentityProvider.java:92-96 | the request is exactly the authorization URL, `?client_id=` and the client id (`null` when unset), `&response_type=code&redirect_uri=` and the callback URL, `&state=` and the state; nothing is encoded |
| `Provider.AadIdentityProvider.GenerateUniqueLogin` | src/main/java/org/almrangers/auth/aad/AadIdentityProvider.java:148-150 | the login is the displayable id, then `@`, then the key, and nothing else |
| `Provider.AadIdentityProvider.GetLogin` | src/main/java/org/almrangers/auth/aad/AadIdentityProvider.java:137-150 | succeeds exactly for the two offered strategies and present user info (`Unique` gives the unique login, the other gives the displayable id). Any other strategy fails with `Login strategy not found : <strategy>` before the user info is read; null user info under an offered strategy fails with a null dereference |
| `Provider.AadIdentityProvider.Assembled` | src/main/java/org/almrangers/auth/aad/AadIdentityProvider.java:117-121 | the builder holds provider login `Azure AD`, the strategy's login, name `given + " " + family` and email = displayable id, and no groups |
| `Provider.AadIdentityProvider.BuildIdentity` | src/main/java/org/almrangers/auth/aad/AadIdentityProvider.java:116-122 | a login failure is the failure. Otherwise the assembled identity, exactly when the host's builder accepts it; a refusal fails with the builder's `IllegalArgumentException` text |
| `Provider.AadIdentityProvider.TokenRequestFor` | src/main/java/org/almrangers/auth/aad/AadIdentityProvider.java:109-113 | the exchange goes to the token URL with the code, the callback URL, the client credentials and the Graph resource |
| `Provider.AadIdentityProvider.Attempt` | src/main/java/org/almrangers/auth/aad/AadIdentityProvider.java:107-124 | inside the catch-all: an exchange failure is the failure, a null exchange result is a null dereference, otherwise the identity build decides |
| `Provider.AadIdentityProvider.Init` | src/main/java/org/almrangers/auth/aad/AadIdentityProvider.java:92-96 | exactly one state request, then exactly one redirect to the authorization request carrying that state |
| `Provider.AadIdentityProvider.Callback` | src/main/java/org/almrangers/auth/aad/AadIdentityProvider.java:99-135 | the host calls made are exactly the specified sequence for this CSRF result, exchange answer and builder validation; the outcome is the specified one |
| `Provider.CallbackCalls` | src/main/java/org/almrangers/auth/aad/AadIdentityProvider.java:99-135 | CSRF check first. Authenticate happens exactly when the check passed and the identity was built, only once, at position 1, followed by the redirect |
| `Provider.CallbackResult` | src/main/java/org/almrangers/auth/aad/AadIdentityProvider.java:99-133 | a failed CSRF check is its own outcome (the host's exception, not the wrapped one). After a passed check it completes exactly when the attempt succeeded, and otherwise fails with `Fail to authenticate the user:` + the cause |
| `Provider.UniqueLoginEndsWithKey` | src/main/java/org/almrangers/auth/aad/AadIdentityProvider.java:148-150 | the last `@` of a unique login comes right after the displayable id, and what follows it is the key |
| `Provider.StateIsLastParameter` | src/main/java/org/almrangers/auth/aad/AadIdentityProvider.java:94 | the state is recovered as the text after the last `&state=`, unless the state itself contains `&state=` |
| `Provider.UniqueLoginInjective` | src/main/java/org/almrangers/auth/aad/AadIdentityProvider.java:148-150 | different displayable ids never share a unique login |
| `Provider.UnknownStrategyNeverAuthenticates` | src/main/java/org/almrangers/auth/aad/AadIdentityProvider.java:117-146 | fail closed: with an unknown strategy no callback calls authenticate, and a callback past the CSRF check fails |
| `Provider.AuthenticatedIdentityIsAccepted` | src/main/java/org/almrangers/auth/aad/AadIdentityProvider.java:117-123 | every identity a callback authenticates passed the host builder's validation and carries provider login `Azure AD` |
| `Provider.RejectedIdentityFailsCallback` | src/main/java/org/almrangers/auth/aad/AadIdentityProvider.java:117-132 | when the builder refuses the identity, the callback authenticates no one and fails with `Fail to authenticate the user:java.lang.IllegalArgumentException: ` + the builder's message |
| `Provider.MissingUserInfoFailsCallback` | src/main/java/org/almrangers/auth/aad/AadIdentityProvider.java:116-146 | null user info fails the callback with a null dereference under an offered strategy, and with the strategy error otherwise |
| `Provider.AuthorizationRequestsDifferOnlyInState` | src/main/java/org/almrangers/auth/aad/AadIdentityProvider.java:92-96 | two authorization requests for one configuration agree on everything before the state |
| `Provider.InitUrlExample` | src/main/java/org/almrangers/auth/aad/AadIdentityProvider.java:92-96 | client id `id` with no tenant gives `https://login.microsoftonline.com/null/oauth2/authorize?client_id=id&response_type=code&redirect_uri=http://localhost/callback&state=state` |

## Left out

- ID-token validation (`AadTokenHelper`) is not part of this model: it is a remote key-set fetch, RSA signature checks and library claim checks. The claims reach the model as an already validated map.
- The HTTP helpers (`HttpClientHelper`) are stream I/O and JSON parsing. The model takes parsed JSON values.
- Graph client construction, the `select("id,displayName")` and `top(999)` request options, and the access token are not modelled. The directory is only the sequence of responses it returns.
- The adal4j exchange runs on a one-thread pool, and the pool is shut down on failure. Both are replaced by a function from the token request to its answer. A malformed callback URL (`new URI`) is folded into a failed exchange.
- Exceptions during the group fetch other than Graph service exceptions are not modelled. Examples are network client errors, and the cast failure when a membership entry is not a group. In the source they escape from the `AadUserInfo` constructor.
- Host calls (`authenticate`, `redirectToRequestedPage`, `redirectTo`) never fail in the model. The host's CSRF failure is the `CsrfRejected` outcome.
- The property definitions (`definitions()`) are UI metadata. Only their default values and the strategy options are modelled. The host's own `Settings` behaviour is assumed: lookup falls back to the declared default, and booleans are non-empty text that `Boolean.parseBoolean` accepts.
- `getDisplay` (icon and colour) and all logging are presentation only.
- The provider's `isEnabled` and `allowsUsersToSignUp` only forward to the settings, where they are modelled.
- `DirectoryObject` declares accessors only; it is folded into `Groups.AadGroup`.
- Region selection, Graph URL builders and the other APIs named only by tests are absent from the modelled source.
- `Provider.AadUser`: the adal4j user fields are non-null strings. A null given name, family name or id is not modelled. Null user info and a null exchange result are modelled.
- `Provider.NULL_POINTER`: a null dereference is reported as the bare `java.lang.NullPointerException`, as on Java 8. The detail message that newer runtimes add is not modelled.
- `HostApi.IdentityCheck`: the host builder's rules (blank provider login or name, login and e-mail lengths) belong to the host library, which is not part of this model. They enter only as this parameter, so no particular rule is promised.
- `UserInfos.Claims`: claims are string-valued. A claim of another JSON type, which makes `getStringClaim` throw a parse exception, is not modelled.
- `UserInfos.ResolveDisplayId` requires a non-empty `preferred_username` or a present `email`. The source dereferences a null `email` otherwise.
- `JsonHelpers.FetchNextPageLink` requires a `responseMsg` object, because the source dereferences a null otherwise. It also requires the link value to be a JSON scalar, because the text of arrays and objects is not modelled.
- `JsonHelpers.FetchDirectoryObjectJSONArray` requires a `responseMsg` object, because the source dereferences a null otherwise.
- `JsonHelpers.ConvertJSONObjectToDirectoryObject` requires the three attribute values to be JSON scalars, for the same reason. The field order of Java reflection is unspecified. The model uses declaration order, and each field is written once either way.
