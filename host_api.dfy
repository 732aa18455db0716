/**
 * The host application's side of the OAuth2 identity-provider interface, as
 * far as the adapter uses it: the identity record it builds, and the two
 * request contexts handed to `init` and `callback`. The contexts are stand-ins
 * for the host: each records, in a ghost trace, which host operations the
 * adapter invoked and in what order.
 */
module HostApi {
  import opened Wrappers

  /**
   * The host's `UserIdentity` builder state. A field the adapter never set is
   * `None`; `groups` is `None` until `setGroups` is called.
   */
  datatype UserIdentity = UserIdentity(
    providerLogin: Option<string>,
    login: Option<string>,
    name: Option<string>,
    email: Option<string>,
    groups: Option<set<string>>)

  /** A builder on which nothing has been set yet. */
  const EmptyIdentity: UserIdentity := UserIdentity(None, None, None, None, None)

  /**
   * The validation the host's builder applies in `build()`: `None` when it
   * accepts the identity, otherwise the message of the
   * `IllegalArgumentException` it throws (a blank provider login or name, a
   * login or e-mail of a length it refuses, and so on).
   */
  type IdentityCheck = UserIdentity -> Option<string>

  /** One call from the adapter into the host. */
  datatype HostCall =
    | GenerateCsrfState
    | RedirectTo(url: string)
    | VerifyCsrfState
    | Authenticate(identity: UserIdentity)
    | RedirectToRequestedPage

  /** The context of the first leg of the flow. */
  class InitContext {
    /** The anti-forgery state the host hands out when asked. */
    const csrfState: string
    /** The host's callback URL for this provider. */
    const callbackUrl: string
    ghost var calls: seq<HostCall>

    constructor (csrfState: string, callbackUrl: string)
      ensures this.csrfState == csrfState && this.callbackUrl == callbackUrl
      ensures calls == []
    {
      this.csrfState := csrfState;
      this.callbackUrl := callbackUrl;
      calls := [];
    }

    method GenerateCsrfState() returns (state: string)
      modifies this
      ensures state == csrfState
      ensures calls == old(calls) + [HostCall.GenerateCsrfState]
    {
      state := csrfState;
      calls := calls + [HostCall.GenerateCsrfState];
    }

    method RedirectTo(url: string)
      modifies this
      ensures calls == old(calls) + [HostCall.RedirectTo(url)]
    {
      calls := calls + [HostCall.RedirectTo(url)];
    }
  }

  /** The context of the second leg of the flow, when the authority redirects back. */
  class CallbackContext {
    /** Whether the state carried by the request matches the one the host issued. */
    const csrfValid: bool
    const callbackUrl: string
    /** The request's `code` parameter. */
    const code: Option<string>
    ghost var calls: seq<HostCall>

    constructor (csrfValid: bool, callbackUrl: string, code: Option<string>)
      ensures this.csrfValid == csrfValid && this.callbackUrl == callbackUrl && this.code == code
      ensures calls == []
    {
      this.csrfValid := csrfValid;
      this.callbackUrl := callbackUrl;
      this.code := code;
      calls := [];
    }

    /** The host throws when the state does not match; here that is a `false` answer. */
    method VerifyCsrfState() returns (ok: bool)
      modifies this
      ensures ok == csrfValid
      ensures calls == old(calls) + [HostCall.VerifyCsrfState]
    {
      ok := csrfValid;
      calls := calls + [HostCall.VerifyCsrfState];
    }

    method Authenticate(identity: UserIdentity)
      modifies this
      ensures calls == old(calls) + [HostCall.Authenticate(identity)]
    {
      calls := calls + [HostCall.Authenticate(identity)];
    }

    method RedirectToRequestedPage()
      modifies this
      ensures calls == old(calls) + [HostCall.RedirectToRequestedPage]
    {
      calls := calls + [HostCall.RedirectToRequestedPage];
    }
  }
}
