/** The cloud API client: its exception hierarchy, base-URL normalisation,
    request headers, and the mapping from each network outcome to the value
    returned or the exception raised by pair, post-readings, get-status and unpair. */
module Api {
  import opened Wrappers
  import opened JsonValues
  import opened Readings

  const DefaultApiUrl: string := "https://green-energy-topaz.vercel.app"

  // ---------------------------------------------------------------------------
  // Exception hierarchy

  /** The exception classes the client raises. */
  datatype ErrorClass =
    | GreenEnergyApiErrorClass
    | InvalidPairingCodeClass
    | CannotConnectClass
    | AuthenticationErrorClass

  /** The direct base class of each class; the hierarchy is one level deep. */
  function BaseOf(c: ErrorClass): Option<ErrorClass> {
    if c == GreenEnergyApiErrorClass then None else Some(GreenEnergyApiErrorClass)
  }

  /** Python's `issubclass` over the hierarchy. */
  predicate IsSubclass(c: ErrorClass, d: ErrorClass) {
    c == d || BaseOf(c) == Some(d)
  }

  datatype ConnectCause = RequestTimedOut | ConnectionError
  datatype AuthCause = NotAuthenticated | TokenRejected

  /** What a plain `GreenEnergyApiError` reports: the server's `error` field of a
      400 reply, or an unexpected status code. */
  datatype Detail = ServerError(error: Json) | UnexpectedStatus(status: int)

  /** A raised client exception. */
  datatype ApiError =
    | InvalidPairingCode
    | CannotConnect(connectCause: ConnectCause)
    | AuthenticationError(authCause: AuthCause)
    | GreenEnergyApiError(detail: Detail)

  function ClassOf(e: ApiError): ErrorClass {
    match e
    case InvalidPairingCode => InvalidPairingCodeClass
    case CannotConnect(_) => CannotConnectClass
    case AuthenticationError(_) => AuthenticationErrorClass
    case GreenEnergyApiError(_) => GreenEnergyApiErrorClass
  }

  /** Python's `isinstance(e, c)`. */
  predicate IsInstance(e: ApiError, c: ErrorClass) {
    IsSubclass(ClassOf(e), c)
  }

  /** The index of the first `except` clause in `handlers` that catches `e`, as
      Python selects it, or `None` when the exception propagates. */
  function CatchingClause(e: ApiError, handlers: seq<ErrorClass>): (r: Option<nat>)
    ensures r.Some? ==> r.value < |handlers| && IsInstance(e, handlers[r.value])
    ensures r.Some? ==> forall j :: 0 <= j < r.value ==> !IsInstance(e, handlers[j])
    ensures r.None? <==> forall j :: 0 <= j < |handlers| ==> !IsInstance(e, handlers[j])
  {
    if |handlers| == 0 then None
    else if IsInstance(e, handlers[0]) then Some(0)
    else
      match CatchingClause(e, handlers[1..])
      case None => None
      case Some(k) => Some(k + 1)
  }

  /** Every client exception derives from `GreenEnergyApiError`, so a clause
      catching that class catches everything the client raises, and each of the
      three specific classes catches exactly its own exceptions. */
  lemma HierarchyRootCatchesAll(e: ApiError, handlers: seq<ErrorClass>)
    requires GreenEnergyApiErrorClass in handlers
    ensures CatchingClause(e, handlers).Some?
    ensures IsInstance(e, InvalidPairingCodeClass) <==> e.InvalidPairingCode?
    ensures IsInstance(e, CannotConnectClass) <==> e.CannotConnect?
    ensures IsInstance(e, AuthenticationErrorClass) <==> e.AuthenticationError?
  {
  }

  // ---------------------------------------------------------------------------
  // Client state, URL and headers

  /** The client's state: the normalised base URL and the credentials, which are
      `JNull` until known and, after pairing, whatever the server returned. */
  datatype Client = Client(apiUrl: string, token: Json, instanceId: Json)

  /** `str.rstrip("/")`. */
  function StripTrailingSlashes(s: string): (r: string)
    ensures |r| <= |s| && r == s[..|r|]
    ensures forall i :: |r| <= i < |s| ==> s[i] == '/'
    ensures |r| == 0 || r[|r| - 1] != '/'
  {
    if |s| > 0 && s[|s| - 1] == '/' then StripTrailingSlashes(s[..|s| - 1]) else s
  }

  /** Stripping is idempotent: a normalised URL is left unchanged. */
  lemma StripTrailingSlashesIdempotent(s: string)
    ensures StripTrailingSlashes(StripTrailingSlashes(s)) == StripTrailingSlashes(s)
  {
  }

  /** The client constructor: the base URL loses its trailing slashes and the
      credentials are stored exactly as given; an omitted credential is Python's
      `None`, here `JNull`. */
  function NewClient(apiUrl: string, token: Json, instanceId: Json): (c: Client)
    ensures c.apiUrl == StripTrailingSlashes(apiUrl)
    ensures |c.apiUrl| == 0 || c.apiUrl[|c.apiUrl| - 1] != '/'
    ensures c.token == token && c.instanceId == instanceId
    ensures Authenticated(c) <==> Truthy(token) && Truthy(instanceId)
  {
    Client(StripTrailingSlashes(apiUrl), token, instanceId)
  }

  /** The request headers: JSON content negotiation always, and a bearer
      `Authorization` header exactly when the token is truthy. */
  function Headers(c: Client): (h: map<string, string>)
    ensures "Content-Type" in h && h["Content-Type"] == "application/json"
    ensures "Accept" in h && h["Accept"] == "application/json"
    ensures "Authorization" in h <==> Truthy(c.token)
    ensures "Authorization" in h ==> h["Authorization"] == "Bearer " + PyStr(c.token)
    ensures h.Keys <= {"Content-Type", "Accept", "Authorization"}
  {
    var base := map["Content-Type" := "application/json", "Accept" := "application/json"];
    if Truthy(c.token) then base["Authorization" := "Bearer " + PyStr(c.token)] else base
  }

  /** Operations other than pairing refuse to run without both credentials. */
  predicate Authenticated(c: Client) {
    Truthy(c.token) && Truthy(c.instanceId)
  }

  // ---------------------------------------------------------------------------
  // Requests and network outcomes

  datatype Method = GET | POST

  datatype Payload =
    | PairPayload(pairingCode: string)
    | ReadingsPayload(instanceId: Json, readings: seq<Reading>)
    | UnpairPayload(instanceId: Json)
    | NoPayload

  /** An HTTP request as the client issues it. */
  datatype Request = Request(verb: Method, url: string, query: map<string, Json>, payload: Payload, headers: map<string, string>)

  /** What the network produced for a request: the 30-second timeout expired,
      the transport failed, or a response arrived with a status and decoded body. */
  datatype NetOutcome = Timeout | ClientError | Response(status: int, body: Body)

  /** The request an operation sent (if any) and what it returned or raised. */
  datatype Exchange<+T, +E> = Exchange(sent: Option<Request>, result: Result<T, E>)

  /** Timeouts and transport errors both become `CannotConnect`. */
  function TransportFailure(out: NetOutcome): (e: ApiError)
    requires !out.Response?
    ensures e.CannotConnect?
  {
    if out.Timeout? then CannotConnect(RequestTimedOut) else CannotConnect(ConnectionError)
  }

  // ---------------------------------------------------------------------------
  // Pairing

  /** Pairing raises a client exception, or a `KeyError` when a 200 reply lacks a
      credential field. */
  datatype PairError = PairFailed(error: ApiError) | MissingField(key: string)

  /** The client after pairing, and what pairing sent and returned or raised. */
  datatype Paired = Paired(client: Client, exchange: Exchange<Body, PairError>)

  function PairRequest(c: Client, code: string): Request {
    Request(POST, c.apiUrl + "/api/ha/pair", map[], PairPayload(code), Headers(c))
  }

  /** `async_pair`: the pairing request is always sent; the outcome decides the
      result, and a 200 reply stores the returned credentials in the client.
      `api_token` is stored before `instance_id` is read, so a reply lacking only
      `instance_id` leaves the new token in place. */
  function Pair(c: Client, code: string, out: NetOutcome): (r: Paired)
    ensures r.exchange.sent == Some(PairRequest(c, code))
    ensures r.client.apiUrl == c.apiUrl
    ensures !out.Response? ==> r == Paired(c, Exchange(Some(PairRequest(c, code)), Failure(PairFailed(TransportFailure(out)))))
    ensures r.exchange.result == Failure(PairFailed(InvalidPairingCode)) <==>
              out.Response? && (out.status == 401 || (out.status == 400 && Get(out.body, "error", JNull) == JStr("invalid_code")))
    ensures out.Response? && out.status == 400 && Get(out.body, "error", JNull) != JStr("invalid_code") ==>
              r.exchange.result == Failure(PairFailed(GreenEnergyApiError(ServerError(Get(out.body, "error", JStr("Unknown error"))))))
    ensures out.Response? && out.status !in {200, 400, 401} ==>
              r.exchange.result == Failure(PairFailed(GreenEnergyApiError(UnexpectedStatus(out.status))))
    ensures out.Response? && out.status != 200 ==> r.client == c
    ensures out.Response? && out.status == 200 && "api_token" !in out.body ==>
              r == Paired(c, Exchange(Some(PairRequest(c, code)), Failure(MissingField("api_token"))))
    ensures out.Response? && out.status == 200 && "api_token" in out.body && "instance_id" !in out.body ==>
              r == Paired(c.(token := out.body["api_token"]), Exchange(Some(PairRequest(c, code)), Failure(MissingField("instance_id"))))
    ensures r.exchange.result.Success? <==>
              out.Response? && out.status == 200 && "api_token" in out.body && "instance_id" in out.body
    ensures r.exchange.result.Success? ==>
              r.exchange.result.value == out.body && r.client == c.(token := out.body["api_token"], instanceId := out.body["instance_id"])
  {
    var sent := Some(PairRequest(c, code));
    match out
    case Timeout => Paired(c, Exchange(sent, Failure(PairFailed(TransportFailure(out)))))
    case ClientError => Paired(c, Exchange(sent, Failure(PairFailed(TransportFailure(out)))))
    case Response(status, body) =>
      if status == 400 then
        if Get(body, "error", JNull) == JStr("invalid_code") then
          Paired(c, Exchange(sent, Failure(PairFailed(InvalidPairingCode))))
        else
          Paired(c, Exchange(sent, Failure(PairFailed(GreenEnergyApiError(ServerError(Get(body, "error", JStr("Unknown error"))))))))
      else if status == 401 then
        Paired(c, Exchange(sent, Failure(PairFailed(InvalidPairingCode))))
      else if status != 200 then
        Paired(c, Exchange(sent, Failure(PairFailed(GreenEnergyApiError(UnexpectedStatus(status))))))
      else if "api_token" !in body then
        Paired(c, Exchange(sent, Failure(MissingField("api_token"))))
      else
        var c' := c.(token := body["api_token"]);
        if "instance_id" !in body then
          Paired(c', Exchange(sent, Failure(MissingField("instance_id"))))
        else
          Paired(c'.(instanceId := body["instance_id"]), Exchange(sent, Success(body)))
  }

  /** After a successful pairing with string credentials, the client is
      authenticated and sends the new bearer token. */
  lemma PairAuthenticates(c: Client, code: string, token: string, instanceId: string, body: Body)
    requires token != "" && instanceId != ""
    requires "api_token" in body && body["api_token"] == JStr(token)
    requires "instance_id" in body && body["instance_id"] == JStr(instanceId)
    ensures var r := Pair(c, code, Response(200, body));
            && r.exchange.result == Success(body)
            && Authenticated(r.client)
            && Headers(r.client)["Authorization"] == "Bearer " + token
  {
  }

  // ---------------------------------------------------------------------------
  // Authenticated operations

  /** The shared status mapping of post-readings and get-status: 401 means the
      token was rejected, any other non-200 status is a generic error, and 200
      returns the decoded body. */
  function ClassifyReply(out: NetOutcome): (r: Result<Body, ApiError>)
    ensures r.Success? <==> out.Response? && out.status == 200
    ensures r.Success? ==> r.value == out.body
    ensures r == Failure(AuthenticationError(TokenRejected)) <==> out.Response? && out.status == 401
    ensures r.Failure? && r.error.GreenEnergyApiError? <==> out.Response? && out.status != 200 && out.status != 401
    ensures r.Failure? && r.error.CannotConnect? <==> !out.Response?
    ensures !r.Failure? || !r.error.InvalidPairingCode?
  {
    match out
    case Timeout => Failure(TransportFailure(out))
    case ClientError => Failure(TransportFailure(out))
    case Response(status, body) =>
      if status == 401 then Failure(AuthenticationError(TokenRejected))
      else if status != 200 then Failure(GreenEnergyApiError(UnexpectedStatus(status)))
      else Success(body)
  }

  function ReadingsRequest(c: Client, readings: seq<Reading>): Request {
    Request(POST, c.apiUrl + "/api/ha/readings", map[], ReadingsPayload(c.instanceId, readings), Headers(c))
  }

  function StatusRequest(c: Client): Request {
    Request(GET, c.apiUrl + "/api/ha/status", map["instance_id" := c.instanceId], NoPayload, Headers(c))
  }

  function UnpairRequest(c: Client): Request {
    Request(POST, c.apiUrl + "/api/ha/unpair", map[], UnpairPayload(c.instanceId), Headers(c))
  }

  /** `async_post_readings`: without credentials it raises `AuthenticationError`
      and sends nothing, whatever the network would have done; otherwise it sends
      the batch and maps the outcome as `ClassifyReply` does. */
  function PostReadings(c: Client, readings: seq<Reading>, out: NetOutcome): (r: Exchange<Body, ApiError>)
    ensures !Authenticated(c) ==> r == Exchange(None, Failure(AuthenticationError(NotAuthenticated)))
    ensures Authenticated(c) ==> r.sent == Some(ReadingsRequest(c, readings)) && r.result == ClassifyReply(out)
    ensures r.result.Success? <==> Authenticated(c) && out.Response? && out.status == 200
  {
    if !Authenticated(c) then Exchange(None, Failure(AuthenticationError(NotAuthenticated)))
    else Exchange(Some(ReadingsRequest(c, readings)), ClassifyReply(out))
  }

  /** `async_get_status`: the same credential check and status mapping as
      post-readings, on a GET carrying the instance id as a query parameter. */
  function GetStatus(c: Client, out: NetOutcome): (r: Exchange<Body, ApiError>)
    ensures !Authenticated(c) ==> r == Exchange(None, Failure(AuthenticationError(NotAuthenticated)))
    ensures Authenticated(c) ==> r.sent == Some(StatusRequest(c)) && r.result == ClassifyReply(out)
    ensures r.result.Success? <==> Authenticated(c) && out.Response? && out.status == 200
  {
    if !Authenticated(c) then Exchange(None, Failure(AuthenticationError(NotAuthenticated)))
    else Exchange(Some(StatusRequest(c)), ClassifyReply(out))
  }

  /** `async_unpair`: 401 raises `AuthenticationError`; any other response returns
      whether the status was 200, so no other status raises. */
  function Unpair(c: Client, out: NetOutcome): (r: Exchange<bool, ApiError>)
    ensures !Authenticated(c) ==> r == Exchange(None, Failure(AuthenticationError(NotAuthenticated)))
    ensures Authenticated(c) ==> r.sent == Some(UnpairRequest(c))
    ensures Authenticated(c) && !out.Response? ==> r.result == Failure(TransportFailure(out))
    ensures Authenticated(c) && out.Response? && out.status == 401 ==> r.result == Failure(AuthenticationError(TokenRejected))
    ensures Authenticated(c) && out.Response? && out.status != 401 ==> r.result == Success(out.status == 200)
    ensures r.result == Success(true) <==> Authenticated(c) && out.Response? && out.status == 200
  {
    if !Authenticated(c) then Exchange(None, Failure(AuthenticationError(NotAuthenticated)))
    else
      var sent := Some(UnpairRequest(c));
      match out
      case Timeout => Exchange(sent, Failure(TransportFailure(out)))
      case ClientError => Exchange(sent, Failure(TransportFailure(out)))
      case Response(status, _) =>
        if status == 401 then Exchange(sent, Failure(AuthenticationError(TokenRejected)))
        else Exchange(sent, Success(status == 200))
  }

  /** Without credentials, posting readings, fetching the status and unpairing
      never reach the network: their results do not depend on what the network
      would have answered. (Pairing needs no credentials and always sends.) */
  lemma UnauthenticatedSendsNothing(c: Client, readings: seq<Reading>, out1: NetOutcome, out2: NetOutcome)
    requires !Authenticated(c)
    ensures PostReadings(c, readings, out1) == PostReadings(c, readings, out2)
    ensures GetStatus(c, out1) == GetStatus(c, out2)
    ensures Unpair(c, out1) == Unpair(c, out2)
    ensures PostReadings(c, readings, out1).sent.None? && GetStatus(c, out1).sent.None? && Unpair(c, out1).sent.None?
  {
  }

  /** A timeout or transport failure becomes `CannotConnect` in pairing, and in
      every other operation that reaches the network. */
  lemma TransportFailuresCannotConnect(c: Client, code: string, readings: seq<Reading>, out: NetOutcome)
    requires !out.Response?
    ensures TransportFailure(out).CannotConnect?
    ensures Pair(c, code, out).exchange.result == Failure(PairFailed(TransportFailure(out)))
    ensures Authenticated(c) ==> PostReadings(c, readings, out).result == Failure(TransportFailure(out))
    ensures Authenticated(c) ==> GetStatus(c, out).result == Failure(TransportFailure(out))
    ensures Authenticated(c) ==> Unpair(c, out).result == Failure(TransportFailure(out))
  {
  }
}
