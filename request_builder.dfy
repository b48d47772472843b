/** The request builders: each checks the credentials it is given against what its kind of
    request allows, then chooses between a body and query items. */
module RequestBuilder {
  import opened Wrappers
  import opened Rest
  import opened Credentials
  import opened Endpoints

  /** The request `FMRest.createRequest` builds, kept as the record of what goes into it: the
      endpoint's method, the endpoint itself (whose path FMRest reads off it), the credentials'
      headers, the query items, the body and the server. */
  datatype RequestSpec = RequestSpec(
    httpMethod: HttpMethod,
    endpoint: Endpoint,
    headers: seq<Header>,
    query: seq<QueryItem>,
    body: Option<Body>,
    server: Option<ServerView>)

  type Built = Result<RequestSpec, APIError>

  /** The four kinds of builder. */
  datatype BuilderKind = TokenRequest | AnonymousRequest | UploadRequest | AuthRequest

  /** Which credentials each kind of builder accepts, variant by variant. */
  predicate Accepts(kind: BuilderKind, c: Credentials) {
    match kind
    case TokenRequest => c.Token?
    case AnonymousRequest => true
    case UploadRequest => c.ClarisId? || c.Basic? || c.OAuth? || c.Token?
    case AuthRequest => c.ClarisId? || c.Basic? || c.OAuth?
  }

  /** The error a builder raises for credentials it refuses. */
  function Refusal(kind: BuilderKind, c: Credentials): APIError {
    match kind
    case TokenRequest => ApiError("Credentials do not contain a token")
    case AuthRequest =>
      if c.Token? then AuthTypeError("Already authenticated with token")
      else AuthTypeError("Credentials set to invalid")
    case _ => AuthTypeError("Credentials set to invalid")
  }

  /** The built request is for endpoint `e` on `server`, authenticated by `c`. */
  predicate Addressed(r: RequestSpec, c: Credentials, server: Option<ServerView>, e: Endpoint) {
    r.httpMethod == Method(e) && r.endpoint == e && r.headers == Headers(c) && r.server == server
  }

  /** `FMRest.createRequest`, which is not part of this model: the record of what it is given. */
  function Make(c: Credentials, server: Option<ServerView>, e: Endpoint, query: seq<QueryItem>,
                body: Option<Body>): (r: RequestSpec)
    ensures Addressed(r, c, server, e) && r.query == query && r.body == body
  {
    RequestSpec(Method(e), e, Headers(c), query, body, server)
  }

  /** `createBaseRequest`, and the `createRequest` overloads with credentials that forward to
      it with an empty query or no body: a token is required; a body, when given, replaces the
      query items. */
  function CreateBaseRequest(c: Credentials, server: Option<ServerView>, e: Endpoint,
                             query: seq<QueryItem>, body: Option<Body>): (r: Built)
    ensures r.Success? <==> Accepts(TokenRequest, c)
    ensures r.Failure? ==> r.error == Refusal(TokenRequest, c)
    ensures r.Success? ==> Addressed(r.value, c, server, e) && r.value.body == body
    ensures r.Success? ==> r.value.query == if body.Some? then [] else query
  {
    if !c.Token? then Failure(ApiError("Credentials do not contain a token"))
    else if body.Some? then Success(Make(c, server, e, [], body))
    else Success(Make(c, server, e, query, None))
  }

  /** `createRequest(server:endpoint:)`: no credentials, no query, no body; it cannot fail. */
  function CreateAnonymousRequest(server: Option<ServerView>, e: Endpoint): (r: Built)
    ensures r.Success? && Addressed(r.value, Invalid, server, e)
    ensures r.value.query == [] && r.value.body == None
  {
    Success(Make(Invalid, server, e, [], None))
  }

  /** `createUploadRequest`: anything but invalid credentials; the file is the body and the
      query items are not used. */
  function CreateUploadRequest(c: Credentials, server: Option<ServerView>, e: Endpoint,
                               query: seq<QueryItem>, file: ContainerFile): (r: Built)
    ensures r.Success? <==> Accepts(UploadRequest, c)
    ensures r.Failure? ==> r.error == Refusal(UploadRequest, c)
    ensures r.Success? ==> Addressed(r.value, c, server, e)
    ensures r.Success? ==> r.value.body == Some(FileBody(file)) && r.value.query == []
  {
    match c
    case Invalid => Failure(AuthTypeError("Credentials set to invalid"))
    case _ => Success(Make(c, server, e, [], Some(FileBody(file))))
  }

  /** `createAuthRequest`: only login credentials (not a token, not invalid); the body is sent
      when given, and there are never query items. */
  function CreateAuthRequest(c: Credentials, server: Option<ServerView>, e: Endpoint,
                             body: Option<Body>): (r: Built)
    ensures r.Success? <==> Accepts(AuthRequest, c)
    ensures r.Failure? ==> r.error == Refusal(AuthRequest, c)
    ensures r.Success? ==> Addressed(r.value, c, server, e)
    ensures r.Success? ==> r.value.body == body && r.value.query == []
  {
    match c
    case Token(_) => Failure(AuthTypeError("Already authenticated with token"))
    case Invalid => Failure(AuthTypeError("Credentials set to invalid"))
    case _ =>
      if body.Some? then Success(Make(c, server, e, [], body))
      else Success(Make(c, server, e, [], None))
  }

  /** Any builder, by kind: it succeeds exactly when its kind accepts the credentials and
      otherwise raises that kind's refusal; a built request is for the endpoint, with its
      method, on the server given, sends the credentials' headers (none when anonymous), and
      never carries both a body and query items. */
  function Build(kind: BuilderKind, c: Credentials, server: Option<ServerView>, e: Endpoint,
                 query: seq<QueryItem>, body: Option<Body>, file: ContainerFile): (r: Built)
    ensures r.Success? <==> Accepts(kind, c)
    ensures r.Failure? ==> r.error == Refusal(kind, c)
    ensures r.Success? ==> !(r.value.body.Some? && r.value.query != [])
    ensures r.Success? ==>
      r.value.httpMethod == Method(e) && r.value.endpoint == e && r.value.server == server
    ensures r.Success? ==> r.value.headers == Headers(if kind.AnonymousRequest? then Invalid else c)
  {
    match kind
    case TokenRequest => CreateBaseRequest(c, server, e, query, body)
    case AnonymousRequest => CreateAnonymousRequest(server, e)
    case UploadRequest => CreateUploadRequest(c, server, e, query, file)
    case AuthRequest => CreateAuthRequest(c, server, e, body)
  }

  /** The credential table, builder kind by credential variant: a token builder takes only a
      token, an auth builder takes everything but a token or invalid credentials, an upload
      builder everything but invalid ones, and the anonymous builder anything. */
  lemma AcceptanceTable(c: Credentials)
    ensures Accepts(TokenRequest, c) <==> c.Token?
    ensures Accepts(AuthRequest, c) <==> !c.Token? && !c.Invalid?
    ensures Accepts(UploadRequest, c) <==> !c.Invalid?
    ensures Accepts(AnonymousRequest, c)
    ensures c.Token? ==> Refusal(AuthRequest, c) == AuthTypeError("Already authenticated with token")
    ensures c.Invalid? ==> Refusal(AuthRequest, c) == AuthTypeError("Credentials set to invalid")
    ensures Refusal(UploadRequest, c) == AuthTypeError("Credentials set to invalid")
    ensures Refusal(TokenRequest, c) == ApiError("Credentials do not contain a token")
  {
  }

  /** Every built request authenticates as the credentials it was built with; the anonymous
      builder sends none. */
  lemma BuiltAuthenticates(kind: BuilderKind, c: Credentials, server: Option<ServerView>, e: Endpoint,
                           query: seq<QueryItem>, body: Option<Body>, file: ContainerFile)
    ensures var r := Build(kind, c, server, e, query, body, file);
      r.Success? ==> FromHeaders(r.value.headers) == (if kind.AnonymousRequest? then Invalid else c)
  {
    HeadersDetermineCredentials(if kind.AnonymousRequest? then Invalid else c);
  }
}
