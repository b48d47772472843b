/** The handles a client holds: a `Server` that owns a set of databases, and a `Database` that
    owns its session credential and its layout and script lists. Both are objects updated in
    place; the operations that only build a request read their state. */
module Handles {
  import opened Wrappers
  import opened Text
  import opened Rest
  import opened Json
  import opened Credentials
  import opened Endpoints
  import opened RequestBuilder

  /** `DataAPI.Layout`: a layout name and the database it belongs to, if any. */
  datatype Layout = Layout(name: string, database: Option<Database>)

  /** An entry of a database's layout list: one layout, or a named folder of entries. */
  datatype LayoutListItem =
    | LayoutItem(layout: Layout)
    | Folder(name: string, layouts: seq<LayoutListItem>)

  /** An entry of a database's script list: one script, or a named folder of entries. */
  datatype ScriptItem =
    | Script(name: string)
    | ScriptFolder(name: string, scripts: seq<ScriptItem>)

  /** The payload of a login reply: the token, when the body carries one. */
  datatype AccessToken = AccessToken(token: Option<string>)

  // Layout trees as names and nesting only, to say what `connectLayouts` keeps.

  datatype Outline = Leaf(name: string) | Branch(name: string, children: seq<Outline>)

  function OutlineOf(items: seq<LayoutListItem>): seq<Outline>
    decreases items, 1
  {
    if items == [] then [] else [OutlineOfItem(items[0])] + OutlineOf(items[1..])
  }

  function OutlineOfItem(item: LayoutListItem): Outline
    decreases item, 0
  {
    match item
    case LayoutItem(layout) => Leaf(layout.name)
    case Folder(name, layouts) => Branch(name, OutlineOf(layouts))
  }

  /** `LayoutListItem.name`: a layout's own name, or the folder's; the outline keeps it. */
  function Name(item: LayoutListItem): (s: string)
    ensures s == OutlineOfItem(item).name
  {
    match item
    case LayoutItem(layout) => layout.name
    case Folder(name, _) => name
  }

  /** Every layout in the tree belongs to `d`. */
  predicate ConnectedTo(items: seq<LayoutListItem>, d: Database)
    decreases items, 1
  {
    forall i :: 0 <= i < |items| ==> ItemConnectedTo(items[i], d)
  }

  predicate ItemConnectedTo(item: LayoutListItem, d: Database)
    decreases item, 0
  {
    match item
    case LayoutItem(layout) => layout.database == Some(d)
    case Folder(_, layouts) => ConnectedTo(layouts, d)
  }

  // Database identity: Swift's `==`, `hash(into:)` and `<` look at the name alone.

  predicate SameDatabase(a: Database, b: Database) {
    a.name == b.name
  }

  function HashKey(d: Database): string {
    d.name
  }

  predicate Precedes(a: Database, b: Database) {
    Less(a.name, b.name)
  }

  /** Equal databases hash alike, and `<` is a strict total order up to equality: of
      `a < b`, `a == b` and `b < a` exactly one holds, and `<` is transitive. */
  lemma DatabaseOrder(a: Database, b: Database, c: Database)
    ensures SameDatabase(a, b) ==> HashKey(a) == HashKey(b)
    ensures SameDatabase(a, b) ==> !Precedes(a, b) && !Precedes(b, a)
    ensures !SameDatabase(a, b) ==> (Precedes(a, b) <==> !Precedes(b, a))
    ensures Precedes(a, b) && Precedes(b, c) ==> Precedes(a, c)
  {
    LessIrreflexive(a.name);
    if !SameDatabase(a, b) {
      LessTotal(a.name, b.name);
      if Precedes(a, b) && Precedes(b, a) {
        LessTransitive(a.name, b.name, a.name);
      }
    }
    if Precedes(a, b) && Precedes(b, c) {
      LessTransitive(a.name, b.name, c.name);
    }
  }

  // A set of databases under Swift's name-based equality.

  predicate HasName(s: set<Database>, name: string) {
    exists e :: e in s && e.name == name
  }

  /** No two databases of the set share a name: what a `Set<Database>` can hold. */
  predicate UniqueNames(s: set<Database>) {
    forall a, b :: a in s && b in s && a.name == b.name ==> a == b
  }

  /** `Set.insert` with name equality: a database whose name is already present is not added. */
  function Insert(s: set<Database>, d: Database): (r: set<Database>)
    ensures s <= r && HasName(r, d.name)
    ensures r == s || r == s + {d}
    ensures d in r <==> d in s || !HasName(s, d.name)
    ensures UniqueNames(s) ==> UniqueNames(r)
  {
    if HasName(s, d.name) then s else s + {d}
  }

  class Server {
    const host: string
    var databases: set<Database>
    const config: Config

    /** `init(host:databases:config:)`; the set is empty and the configuration the default
        one unless given. A `Set<Database>` never holds two databases of one name. */
    constructor (host: string, databases: set<Database> := {}, config: Config := DefaultConfig)
      requires UniqueNames(databases)
      ensures this.host == host && this.databases == databases && this.config == config
      ensures UniqueNames(this.databases)
    {
      this.host := host;
      this.databases := databases;
      this.config := config;
    }

    /** What a request builder reads off the server. */
    function View(): (v: ServerView)
      ensures v.host == host && v.config == config
    {
      ServerView(host, config)
    }

    /** `addDatabase`: a new database of that name on this server, inserted into the set
        unless one of that name is there already. */
    method AddDatabase(name: string) returns (d: Database)
      requires UniqueNames(databases)
      modifies this`databases
      ensures UniqueNames(databases)
      ensures fresh(d) && d.name == name && d.server == this
      ensures d.credentials == Invalid && d.layoutList == [] && d.scriptList == []
      ensures databases == Insert(old(databases), d)
    {
      d := new Database(name, this);
      if !HasName(databases, name) {
        databases := databases + {d};
      }
    }

    /** `getProductInfo`: an anonymous request, which cannot fail to build. */
    function GetProductInfo(): (r: Built)
      ensures r.Success? && r.value.headers == []
      ensures r.value.httpMethod == Get && Path(r.value.endpoint) == "/productInfo"
      ensures r.value.query == [] && r.value.body == None && r.value.server == Some(View())
    {
      CreateAnonymousRequest(Some(View()), ProductInfo)
    }

    /** `getDatabaseNames`: a request with login credentials and no body. */
    function GetDatabaseNames(c: Credentials): (r: Built)
      ensures c.Token? ==> r == Failure(AuthTypeError("Already authenticated with token"))
      ensures c.Invalid? ==> r == Failure(AuthTypeError("Credentials set to invalid"))
      ensures r.Success? <==> c.ClarisId? || c.Basic? || c.OAuth?
      ensures r.Success? ==> && r.value.httpMethod == Get && Path(r.value.endpoint) == "/databases"
                             && r.value.headers == Headers(c) && r.value.server == Some(View())
                             && r.value.query == [] && r.value.body == None
    {
      CreateAuthRequest(c, Some(View()), DatabaseNames, None)
    }

    /** `validateSession`: a token request with no query items. */
    function ValidateSession(c: Credentials): (r: Built)
      ensures !c.Token? ==> r == Failure(ApiError("Credentials do not contain a token"))
      ensures r.Success? <==> c.Token?
      ensures r.Success? ==> && r.value.httpMethod == Get && Path(r.value.endpoint) == "/validateSession"
                             && r.value.headers == [Header("Authorization", "Bearer " + c.sessionToken)]
                             && r.value.query == [] && r.value.body == None
    {
      CreateBaseRequest(c, Some(View()), Validate, [], None)
    }
  }

  /** The token a login reply carries: the `authToken` header, else the body's token. */
  function ReplyToken(reply: Reply<AccessToken>): (t: Option<string>)
    ensures t.Some? ==> reply.Envelope?
    ensures reply.Envelope? && reply.authToken.Some? ==> t == reply.authToken
    ensures t.None? <==> || reply.TransportFailure?
                         || (&& reply.authToken.None?
                             && (reply.response.None? || reply.response.value.token.None?))
  {
    match reply
    case TransportFailure(_) => None
    case Envelope(authToken, response) =>
      if authToken.Some? then authToken
      else if response.Some? then response.value.token
      else None
  }

  /** The login body: the data-source credentials, when given. */
  function LoginBody(dataSource: Option<DataSourceAuth>): (b: Option<Body>)
    ensures b.Some? <==> dataSource.Some?
    ensures b.Some? ==> b.value.JsonBody? && b.value.fields.Keys == {"fmDataSource"}
  {
    if dataSource.Some? then Some(JsonBody(DataSourceBody(dataSource.value))) else None
  }

  /** The request `login` sends, built from the credentials it is handed. */
  function LoginRequest(server: Option<ServerView>, database: string, c: Credentials,
                        dataSource: Option<DataSourceAuth>): (r: Built)
    ensures server.None? ==> r == Failure(ApiError("no attached server"))
    ensures server.Some? ==> (r.Success? <==> Accepts(AuthRequest, c))
    ensures server.Some? && r.Failure? ==> r.error == Refusal(AuthRequest, c)
    ensures r.Success? ==> && r.value.httpMethod == Post
                           && Path(r.value.endpoint) == "/databases/" + database + "/sessions"
                           && r.value.headers == Headers(c) && r.value.query == []
                           && r.value.body == LoginBody(dataSource)
  {
    if server.None? then Failure(ApiError("no attached server"))
    else CreateAuthRequest(c, server, Auth(database), LoginBody(dataSource))
  }

  /** What `login` delivers for a given transport reply: a token credential, or the first
      error met, in the order the guards run. */
  function LoginOutcome(server: Option<ServerView>, database: string, c: Credentials,
                        dataSource: Option<DataSourceAuth>, reply: Reply<AccessToken>)
    : (r: Result<Credentials, APIError>)
    ensures server.None? ==> r == Failure(ApiError("no attached server"))
    ensures server.Some? && !Accepts(AuthRequest, c) ==> r == Failure(Refusal(AuthRequest, c))
    ensures LoginRequest(server, database, c, dataSource).Success? && reply.TransportFailure?
        ==> r == Failure(reply.error)
    ensures LoginRequest(server, database, c, dataSource).Success? && reply.Envelope?
            && reply.authToken.None? && (reply.response.None? || reply.response.value.token.None?)
        ==> r == Failure(ResponseError("Response missing"))
    ensures r.Success? <==> server.Some? && Accepts(AuthRequest, c) && ReplyToken(reply).Some?
    ensures r.Success? && reply.authToken.Some? ==> r.value == Token(reply.authToken.value)
    ensures r.Success? && reply.authToken.None? ==> r.value == Token(reply.response.value.token.value)
  {
    var request := LoginRequest(server, database, c, dataSource);
    if request.Failure? then Failure(request.error)
    else if reply.TransportFailure? then Failure(reply.error)
    else if ReplyToken(reply).None? then Failure(ResponseError("Response missing"))
    else Success(Token(ReplyToken(reply).value))
  }

  class Database {
    const name: string
    var server: Server?
    var credentials: Credentials
    var layoutList: seq<LayoutListItem>
    var scriptList: seq<ScriptItem>

    /** `init(name:server:credentials:layoutList:scriptList:)`: invalid credentials and empty
        lists unless given. */
    constructor (name: string, server: Server, credentials: Credentials := Invalid,
                 layoutList: seq<LayoutListItem> := [], scriptList: seq<ScriptItem> := [])
      ensures this.name == name && this.server == server && this.credentials == credentials
      ensures this.layoutList == layoutList && this.scriptList == scriptList
    {
      this.name := name;
      this.credentials := credentials;
      this.layoutList := layoutList;
      this.server := server;
      this.scriptList := scriptList;
    }

    /** The server as a builder sees it. */
    function Attached(): Option<ServerView>
      reads this
    {
      if server == null then None else Some(server.View())
    }

    /** `addLayout`: a layout of that name belonging to this database, appended to the list. */
    method AddLayout(layoutName: string) returns (layout: Layout)
      modifies this`layoutList
      ensures layout == Layout(layoutName, Some(this))
      ensures layoutList == old(layoutList) + [LayoutItem(layout)]
    {
      layout := Layout(layoutName, Some(this));
      layoutList := layoutList + [LayoutItem(layout)];
    }

    /** `connectLayouts`: the same tree with every layout attached to this database. */
    function ConnectLayouts(items: seq<LayoutListItem>): (r: seq<LayoutListItem>)
      ensures OutlineOf(r) == OutlineOf(items) && ConnectedTo(r, this)
      decreases items, 1
    {
      if items == [] then []
      else [ConnectItem(items[0])] + ConnectLayouts(items[1..])
    }

    function ConnectItem(item: LayoutListItem): (r: LayoutListItem)
      ensures OutlineOfItem(r) == OutlineOfItem(item) && ItemConnectedTo(r, this)
      ensures Name(r) == Name(item)
      decreases item, 0
    {
      match item
      case LayoutItem(layout) => LayoutItem(Layout(layout.name, Some(this)))
      case Folder(name, layouts) => Folder(name, ConnectLayouts(layouts))
    }

    /** `login`: checks the credentials it is given, and on a reply with a token keeps that
        token as the database's credential; on any failure the credential is unchanged. */
    method Login(c: Credentials, dataSource: Option<DataSourceAuth>, reply: Reply<AccessToken>)
      returns (r: Result<Credentials, APIError>)
      modifies this`credentials
      ensures r == LoginOutcome(old(Attached()), name, c, dataSource, reply)
      ensures credentials == if r.Success? then r.value else old(credentials)
    {
      if server == null {
        return Failure(ApiError("no attached server"));
      }
      var request := CreateAuthRequest(c, Some(server.View()), Auth(name), LoginBody(dataSource));
      if request.Failure? {
        return Failure(request.error);
      }
      if reply.TransportFailure? {
        return Failure(reply.error);
      }
      var token := if reply.authToken.Some? then reply.authToken
                   else if reply.response.Some? then reply.response.value.token
                   else None;
      if token.None? {
        return Failure(ResponseError("Response missing"));
      }
      credentials := Token(token.value);
      r := Success(credentials);
    }

    /** `logOut`: the session's own token is required before the server is looked at; the
        request deletes that session. */
    function LogOut(): (r: Built)
      reads this
      ensures !credentials.Token? ==> r == Failure(AuthTypeError("No token to deauthenticate"))
      ensures credentials.Token? && server == null ==> r == Failure(ApiError("no attached server"))
      ensures r.Success? <==> credentials.Token? && server != null
      ensures r.Success? ==> && r.value.httpMethod == Delete
                             && Path(r.value.endpoint) == "/databases/" + name + "/sessions/" + credentials.sessionToken
                             && r.value.headers == [Header("Authorization", "Bearer " + credentials.sessionToken)]
                             && r.value.query == [] && r.value.body == None
    {
      if !credentials.Token? then Failure(AuthTypeError("No token to deauthenticate"))
      else if server == null then Failure(ApiError("no attached server"))
      else CreateBaseRequest(credentials, Attached(), DeAuth(name, credentials.sessionToken), [], None)
    }

    /** `getLayoutNames`: a token request for the layout list. */
    function GetLayoutNames(): (r: Built)
      reads this
      ensures server == null ==> r == Failure(ApiError("no attached server"))
      ensures server != null && !credentials.Token?
          ==> r == Failure(ApiError("Credentials do not contain a token"))
      ensures r.Success? <==> server != null && credentials.Token?
      ensures r.Success? ==> && r.value.httpMethod == Get && Path(r.value.endpoint) == "/databases/" + name + "/layouts"
                             && r.value.headers == Headers(credentials)
                             && r.value.query == [] && r.value.body == None
    {
      if server == null then Failure(ApiError("no attached server"))
      else CreateBaseRequest(credentials, Attached(), LayoutNames(name), [], None)
    }

    /** `getScriptNames`: a token request for the script list. */
    function GetScriptNames(): (r: Built)
      reads this
      ensures server == null ==> r == Failure(ApiError("no attached server"))
      ensures server != null && !credentials.Token?
          ==> r == Failure(ApiError("Credentials do not contain a token"))
      ensures r.Success? <==> server != null && credentials.Token?
      ensures r.Success? ==> && r.value.httpMethod == Get && Path(r.value.endpoint) == "/databases/" + name + "/scripts"
                             && r.value.headers == Headers(credentials)
                             && r.value.query == [] && r.value.body == None
    {
      if server == null then Failure(ApiError("no attached server"))
      else CreateBaseRequest(credentials, Attached(), ScriptNames(name), [], None)
    }

    /** `setGlobalFields`: a token request whose body is the field-to-value dictionary. */
    function SetGlobalFields(globalFields: map<string, string>): (r: Built)
      reads this
      ensures server == null ==> r == Failure(ApiError("no attached server"))
      ensures server != null && !credentials.Token?
          ==> r == Failure(ApiError("Credentials do not contain a token"))
      ensures r.Success? <==> server != null && credentials.Token?
      ensures r.Success? ==> && r.value.httpMethod == Patch && Path(r.value.endpoint) == "/databases/" + name + "/globals/"
                             && r.value.headers == Headers(credentials) && r.value.query == []
                             && r.value.body.Some? && r.value.body.value.JsonBody?
                             && r.value.body.value.fields.Keys == globalFields.Keys
                             && forall k :: k in globalFields ==> r.value.body.value.fields[k] == JStr(globalFields[k])
    {
      if server == null then Failure(ApiError("no attached server"))
      else CreateBaseRequest(credentials, Attached(), Endpoints.SetGlobalFields(name), [],
                             Some(JsonBody(map k | k in globalFields :: JStr(globalFields[k]))))
    }
  }

  /** A tree that is already attached to `d` is its own connection, and two trees of the same
      shape both attached to `d` are equal: `connectLayouts` is determined by the shape. */
  lemma {:induction false} ConnectedByShape(d: Database, a: seq<LayoutListItem>, b: seq<LayoutListItem>)
    requires OutlineOf(a) == OutlineOf(b) && ConnectedTo(a, d) && ConnectedTo(b, d)
    ensures a == b
    decreases a, 1
  {
    if a != [] {
      assert b != [];
      assert OutlineOf(a)[0] == OutlineOfItem(a[0]) && OutlineOf(b)[0] == OutlineOfItem(b[0]);
      assert OutlineOf(a)[1..] == OutlineOf(a[1..]) && OutlineOf(b)[1..] == OutlineOf(b[1..]);
      assert ItemConnectedTo(a[0], d) && ItemConnectedTo(b[0], d);
      assert forall i :: 0 <= i < |a[1..]| ==> a[1..][i] == a[i + 1];
      assert forall i :: 0 <= i < |b[1..]| ==> b[1..][i] == b[i + 1];
      ItemConnectedByShape(d, a[0], b[0]);
      ConnectedByShape(d, a[1..], b[1..]);
      assert a == [a[0]] + a[1..] && b == [b[0]] + b[1..];
    }
  }

  lemma {:induction false} ItemConnectedByShape(d: Database, a: LayoutListItem, b: LayoutListItem)
    requires OutlineOfItem(a) == OutlineOfItem(b) && ItemConnectedTo(a, d) && ItemConnectedTo(b, d)
    ensures a == b
    decreases a, 0
  {
    match a
    case LayoutItem(_) =>
    case Folder(_, layouts) =>
      ConnectedByShape(d, layouts, b.layouts);
  }

  /** Connecting twice is connecting once, and a list already attached to `d` is unchanged. */
  lemma ConnectIdempotent(d: Database, items: seq<LayoutListItem>)
    ensures d.ConnectLayouts(d.ConnectLayouts(items)) == d.ConnectLayouts(items)
    ensures ConnectedTo(items, d) ==> d.ConnectLayouts(items) == items
  {
    var once := d.ConnectLayouts(items);
    ConnectedByShape(d, d.ConnectLayouts(once), once);
    if ConnectedTo(items, d) {
      ConnectedByShape(d, once, items);
    }
  }
}
