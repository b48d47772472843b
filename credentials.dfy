/** The five authentication modes of a database session, the HTTP headers each one sends, and
    the per-data-source credentials a login may carry in its body. */
module Credentials {
  import opened Wrappers
  import opened Rest
  import opened Json
  import Base64
  import Utf8

  datatype Credentials =
    | ClarisId(fmid: string)
    | Basic(userPassBase64: string)
    | OAuth(requestId: string, identifier: string)
    | Token(sessionToken: string)
    | Invalid

  /** `headers`: what each credential sends; only `.invalid` sends nothing, and every
      credential but OAuth sends an `Authorization` header. */
  function Headers(c: Credentials): (h: seq<Header>)
    ensures h == [] <==> c.Invalid?
    ensures Authorization(h).Some? <==> (c.ClarisId? || c.Basic? || c.Token?)
  {
    match c
    case ClarisId(fmid) => [Header("Authorization", "FMID " + fmid)]
    case Basic(userPass) =>
      [Header("Authorization", "Basic " + userPass), Header("Content-Type", "application/json")]
    case OAuth(requestId, identifier) =>
      var h := [Header("X-FM-Data-OAuth-Request-Id", requestId), Header("X-FM-Data-OAuth-Identifier", identifier)];
      assert h[1..][1..] == [];
      assert Authorization(h[1..]) == None;
      h
    case Token(token) => [Header("Authorization", "Bearer " + token)]
    case Invalid => []
  }

  /** The value of the first `Authorization` header, if any. */
  function Authorization(h: seq<Header>): Option<string> {
    if h == [] then None
    else if h[0].field == "Authorization" then Some(h[0].value)
    else Authorization(h[1..])
  }

  /** Reads a credential back from the headers it sends. */
  function FromHeaders(h: seq<Header>): Credentials {
    if |h| == 2 && h[0].field == "X-FM-Data-OAuth-Request-Id" && h[1].field == "X-FM-Data-OAuth-Identifier" then
      OAuth(h[0].value, h[1].value)
    else if |h| == 2 && h[0].field == "Authorization" && "Basic " <= h[0].value
         && h[1] == Header("Content-Type", "application/json") then
      Basic(h[0].value[6..])
    else if |h| == 1 && h[0].field == "Authorization" && "FMID " <= h[0].value then
      ClarisId(h[0].value[5..])
    else if |h| == 1 && h[0].field == "Authorization" && "Bearer " <= h[0].value then
      Token(h[0].value[7..])
    else Invalid
  }

  /** The headers determine the credential: no two credentials send the same headers. */
  lemma HeadersDetermineCredentials(c: Credentials)
    ensures FromHeaders(Headers(c)) == c
  {
    match c
    case ClarisId(fmid) =>
      assert ("FMID " + fmid)[5..] == fmid;
      assert !("Bearer " <= "FMID " + fmid) by { assert ("FMID " + fmid)[0] == 'F'; }
    case Basic(userPass) =>
      assert ("Basic " + userPass)[6..] == userPass;
    case OAuth(_, _) =>
    case Token(token) =>
      assert ("Bearer " + token)[7..] == token;
      assert !("FMID " <= "Bearer " + token) by { assert ("Bearer " + token)[0] == 'B'; }
    case Invalid =>
  }

  /** Which credentials send an `Authorization` header, and with which value. */
  lemma AuthorizationHeader(c: Credentials)
    ensures Authorization(Headers(c)) == match c
      case ClarisId(fmid) => Some("FMID " + fmid)
      case Basic(userPass) => Some("Basic " + userPass)
      case Token(token) => Some("Bearer " + token)
      case OAuth(_, _) => None
      case Invalid => None
  {
    if c.OAuth? {
      var rest := Headers(c)[1..];
      assert rest == [Header("X-FM-Data-OAuth-Identifier", c.identifier)];
      assert rest[1..] == [];
      assert Authorization(rest) == Authorization(rest[1..]) == None;
    }
  }

  /** `Credentials(user:password:)`: Basic of the Base64 of the UTF-8 bytes of
      `user:password`, from which both can be read back. */
  function UserPassword(user: string, password: string): (c: Credentials)
    ensures c.Basic?
    ensures Base64.Decode(c.userPassBase64) == Some(Utf8.Encode(user + ":" + password))
    ensures Utf8.Decode(Base64.Decode(c.userPassBase64).value) == Some(user + ":" + password)
  {
    var bytes := Utf8.Encode(user + ":" + password);
    Base64.DecodeEncode(bytes);
    Utf8.DecodeEncode(user + ":" + password);
    Basic(Base64.Encode(bytes))
  }

  /** `Credentials(oAuthId:oAuthIdentifier:)`. */
  function OAuthId(oAuthId: string, oAuthIdentifier: string): (c: Credentials)
    ensures c.OAuth? && c.requestId == oAuthId && c.identifier == oAuthIdentifier
  {
    OAuth(oAuthId, oAuthIdentifier)
  }

  /** `Credentials(clarisId:)`. */
  function ClarisIdToken(clarisId: string): (c: Credentials)
    ensures c.ClarisId? && c.fmid == clarisId
  {
    ClarisId(clarisId)
  }

  /** `Credentials(token:)`. */
  function SessionToken(token: string): (c: Credentials)
    ensures c.Token? && c.sessionToken == token
  {
    Token(token)
  }

  // The optional login body that names the credentials for each external data source.

  datatype AuthType =
    | BasicLogin(user: string, password: string)
    | OAuthLogin(requestId: string, identifier: string)

  datatype DataSourceCredentials = DataSourceCredentials(database: string, credentials: AuthType)

  datatype DataSourceAuth = DataSourceAuth(fmDataSource: seq<DataSourceCredentials>)

  /** The JSON object one data source's credentials encode to: the database always, then
      either a user name and password or an OAuth pair, never a mix. */
  function DataSourceObject(d: DataSourceCredentials): (m: map<string, Value>)
    ensures "database" in m && m["database"] == JStr(d.database)
    ensures d.credentials.BasicLogin? ==>
      && m.Keys == {"database", "username", "password"}
      && m["username"] == JStr(d.credentials.user)
      && m["password"] == JStr(d.credentials.password)
    ensures d.credentials.OAuthLogin? ==>
      && m.Keys == {"database", "oAuthRequestId", "oAuthIdentifier"}
      && m["oAuthRequestId"] == JStr(d.credentials.requestId)
      && m["oAuthIdentifier"] == JStr(d.credentials.identifier)
  {
    match d.credentials
    case BasicLogin(user, password) =>
      map["database" := JStr(d.database), "username" := JStr(user), "password" := JStr(password)]
    case OAuthLogin(requestId, identifier) =>
      map["database" := JStr(d.database), "oAuthRequestId" := JStr(requestId),
          "oAuthIdentifier" := JStr(identifier)]
  }

  /** `FMDataSourceAuth.Credentials.encode(to:)`: the keys are written one at a time. */
  method EncodeDataSource(d: DataSourceCredentials) returns (container: map<string, Value>)
    ensures container == DataSourceObject(d)
  {
    container := map[];
    container := container["database" := JStr(d.database)];
    match d.credentials {
      case BasicLogin(user, password) =>
        container := container["username" := JStr(user)];
        container := container["password" := JStr(password)];
      case OAuthLogin(requestId, identifier) =>
        container := container["oAuthRequestId" := JStr(requestId)];
        container := container["oAuthIdentifier" := JStr(identifier)];
    }
  }

  /** The login body: `fmDataSource` holding one object per data source, in order. */
  function DataSourceBody(a: DataSourceAuth): (m: map<string, Value>)
    ensures m.Keys == {"fmDataSource"}
    ensures m["fmDataSource"].JArr? && |m["fmDataSource"].items| == |a.fmDataSource|
    ensures forall i :: 0 <= i < |a.fmDataSource| ==>
      m["fmDataSource"].items[i] == JObj(DataSourceObject(a.fmDataSource[i]))
  {
    map["fmDataSource" := JArr(seq(|a.fmDataSource|, i requires 0 <= i < |a.fmDataSource| =>
      JObj(DataSourceObject(a.fmDataSource[i]))))]
  }
}
