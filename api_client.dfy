/** The client's HTTP layer: the request interceptor that attaches the
    bearer token, the response interceptor that turns failures into errors,
    and the three profile calls. */
module ApiClient {
  import opened Outcomes
  import opened Text
  import opened UserService

  const AuthorizationKey := "Authorization"

  /** The header value the interceptor sends: "Bearer " + token. */
  function BearerHeader(token: string): (h: string)
    ensures StartsWith(h, BearerPrefix) && h[|BearerPrefix|..] == token
  {
    assert (BearerPrefix + token)[..|BearerPrefix|] == BearerPrefix;
    BearerPrefix + token
  }

  /** The Authorization header as the service reads it from a header map. */
  function AuthorizationOf(headers: map<string, string>): (h: Option<string>)
    ensures h.Some? <==> AuthorizationKey in headers
  {
    if AuthorizationKey in headers then Some(headers[AuthorizationKey]) else None
  }

  /** The configuration of one outgoing request, which the request
      interceptor changes in place. */
  class RequestConfig {
    var headers: map<string, string>

    constructor (headers: map<string, string>)
      ensures this.headers == headers
    {
      this.headers := headers;
    }

    /** The request interceptor. `token` is what the signed-in user's
        `getIdToken()` resolved to, `None` when nobody is signed in. */
    method AttachToken(token: Option<string>)
      modifies this
      ensures token.Some? ==> headers == old(headers)[AuthorizationKey := BearerHeader(token.value)]
      ensures token.None? ==> headers == old(headers)
    {
      if token.Some? {
        headers := headers[AuthorizationKey := BearerHeader(token.value)];
      }
    }
  }

  /** What the service makes of the header the interceptor attaches: it
      extracts the very token the client sent (tokens never contain
      "Bearer "), so authentication is decided by the verifier alone. */
  lemma InterceptedTokenReachesVerifier(token: string, verify: string -> Option<Identity>)
    requires !Contains(token, BearerPrefix)
    ensures ExtractToken(Some(BearerHeader(token))) == Some(token)
    ensures Authenticate(Some(BearerHeader(token)), verify).Authenticated? <==> verify(token).Some?
    ensures verify(token).Some? ==>
      Authenticate(Some(BearerHeader(token)), verify).user == verify(token).value
  {
    ExtractTokenOfBearer(token);
  }

  /** A request sent with no user signed in carries no Authorization header
      (unless the caller put one there) and the service rejects it with 401
      before looking at the table. */
  lemma SignedOutRequestRejected(headers: map<string, string>, verify: string -> Option<Identity>,
                                 t: Table, fault: StoreFault)
    requires AuthorizationKey !in headers
    ensures GetProfileRoute(t, AuthorizationOf(headers), verify, fault) ==
      Response(401, ErrorBody("Unauthorized", NoTokenMessage, None))
  {
  }

  // ------------------------------------------------------------ responses

  /** How an axios call ended: the service answered (any status), nothing
      came back, or the request could not be sent at all. */
  datatype Reply = Answered(response: Response) | NoAnswer | SetupFailed(err: JsError)

  const DefaultServerMessage := "An error occurred"
  const NoResponseMessage := "No response from server. Please check if the server is running."

  /** The statuses axios resolves with. */
  predicate Accepted(status: nat) {
    200 <= status < 300
  }

  /** The response interceptor: an accepted response resolves with its data;
      an error response rejects with an Error whose message is the body's
      message (or "An error occurred"); no response rejects with a fixed
      message; any other error passes through unchanged. */
  function Settle(reply: Reply): (r: Outcome<Body>)
    ensures r.Done? <==> reply.Answered? && Accepted(reply.response.status)
    ensures r.Done? ==> r.value == reply.response.body
    ensures reply.Answered? && !Accepted(reply.response.status) ==>
      r == Threw(JsError(None, OptOrElse(reply.response.body.MessageKey(), DefaultServerMessage)))
    ensures reply.NoAnswer? ==> r == Threw(JsError(None, NoResponseMessage))
    ensures reply.SetupFailed? ==> r == Threw(reply.err)
  {
    match reply
    case Answered(resp) =>
      if Accepted(resp.status) then Done(resp.body)
      else Threw(JsError(None, OptOrElse(resp.body.MessageKey(), DefaultServerMessage)))
    case NoAnswer => Threw(JsError(None, NoResponseMessage))
    case SetupFailed(e) => Threw(e)
  }

  /** Every error response of the users service carries a message, so the
      client shows the service's own words and never the default. */
  lemma ServiceErrorsKeepTheirMessage(resp: Response)
    requires resp.body.ErrorBody? && resp.body.message != "" && !Accepted(resp.status)
    ensures Settle(Answered(resp)) == Threw(JsError(None, resp.body.message))
  {
  }

  // ----------------------------------------------------------------- calls

  datatype Verb = Get | Post | Put

  datatype ApiRequest = ApiRequest(verb: Verb, path: string, body: Option<ProfileBody>)

  /** A call: the request it sends and what it resolves or rejects with. */
  datatype ApiCall = ApiCall(request: ApiRequest, result: Outcome<Body>)

  /** `bootstrapUser`: POST /api/bootstrap, resolving with `response.data`. */
  function BootstrapUser(reply: Reply): (c: ApiCall)
    ensures c.request == ApiRequest(Post, "/api/bootstrap", None)
    ensures c.result == Settle(reply)
    ensures c.result.Done? ==> reply.Answered? && c.result.value == reply.response.body
  {
    ApiCall(ApiRequest(Post, "/api/bootstrap", None), Settle(reply))
  }

  /** `getProfile`: GET /api/profile, resolving with `response.data`. */
  function GetProfileCall(reply: Reply): (c: ApiCall)
    ensures c.request == ApiRequest(Get, "/api/profile", None)
    ensures c.result == Settle(reply)
    ensures c.result.Done? ==> reply.Answered? && c.result.value == reply.response.body
  {
    ApiCall(ApiRequest(Get, "/api/profile", None), Settle(reply))
  }

  /** `updateProfile(data)`: PUT /api/profile with `data` as the body,
      resolving with `response.data`. */
  function UpdateProfileCall(data: ProfileBody, reply: Reply): (c: ApiCall)
    ensures c.request == ApiRequest(Put, "/api/profile", Some(data))
    ensures c.result == Settle(reply)
    ensures c.result.Done? ==> reply.Answered? && c.result.value == reply.response.body
  {
    ApiCall(ApiRequest(Put, "/api/profile", Some(data)), Settle(reply))
  }

  /** A signed-in user whose token verifies gets, from `bootstrapUser`, the
      user the service's bootstrap returns, and its record afterwards exists
      (unless a store call threw, which the client sees as an error). */
  lemma BootstrapUserEndToEnd(t: Table, token: string, verify: string -> Option<Identity>,
                              newId: string, stamp: string, fault: StoreFault)
    requires !Contains(token, BearerPrefix) && verify(token).Some?
    ensures var served := BootstrapRoute(t, Some(BearerHeader(token)), verify, newId, stamp, fault);
      var call := BootstrapUser(Answered(served.response));
      && (call.result.Done? <==> served.response.status in {200, 201})
      && (call.result.Done? ==>
            && verify(token).value.uid in served.table
            && call.result.value.user == Format(served.table[verify(token).value.uid]))
  {
    InterceptedTokenReachesVerifier(token, verify);
  }

  /** `getProfile` before any bootstrap rejects with the service's
      "User profile not found". */
  lemma GetProfileBeforeBootstrap(t: Table, token: string, verify: string -> Option<Identity>)
    requires !Contains(token, BearerPrefix) && verify(token).Some?
    requires verify(token).value.uid !in t
    ensures GetProfileCall(Answered(GetProfileRoute(t, Some(BearerHeader(token)), verify, Healthy))).result
      == Threw(JsError(None, "User profile not found"))
  {
    InterceptedTokenReachesVerifier(token, verify);
  }
}
