/** The record, script, container and metadata operations of a layout. Each one needs the
    layout's database, whose credentials and server it builds its request with. */
module LayoutMethods {
  import opened Wrappers
  import opened Text
  import opened Rest
  import opened Json
  import opened Credentials
  import opened RequestBuilder
  import opened Handles
  import Endpoints
  import RO = RequestObjects

  const NoDatabase := "No database associated with layout"

  /** What a layout operation reads: the layout's database, if it has one. */
  function Owner(layout: Layout): set<object> {
    if layout.database.Some? then {layout.database.value} else {}
  }

  /** The name of the layout's database, which the endpoint path carries. */
  function DatabaseName(layout: Layout): string {
    if layout.database.Some? then layout.database.value.name else ""
  }

  /** The shape every layout operation has: without a database it fails with `NoDatabase`;
      with one, the builder of kind `kind` decides, with the database's credentials, and the
      request goes to endpoint `e` on the database's server. */
  predicate Routed(r: Built, layout: Layout, kind: BuilderKind, e: Endpoints.Endpoint)
    reads Owner(layout)
  {
    if layout.database.None? then r == Failure(ApiError(NoDatabase))
    else
      var db := layout.database.value;
      && (r.Success? <==> Accepts(kind, db.credentials))
      && (r.Failure? ==> r.error == Refusal(kind, db.credentials))
      && (r.Success? ==> Addressed(r.value, db.credentials, db.Attached(), e))
  }

  /** The query items of an optional record query: none without one. */
  function RecordQueryItems(q: Option<RO.RecordQuery>): seq<QueryItem> {
    if q.Some? then q.value.QueryParameters() else []
  }

  /** The query items of an optional script query: none without one. */
  function ScriptQueryItems(q: Option<RO.ScriptQuery>): seq<QueryItem> {
    if q.Some? then q.value.QueryParameters() else []
  }

  /** `getRecords`: a token request carrying the record query as query items. */
  function GetRecords(layout: Layout, recordQuery: Option<RO.RecordQuery>): (r: Built)
    reads Owner(layout)
    ensures Routed(r, layout, TokenRequest, Endpoints.GetRecords(DatabaseName(layout), layout.name))
    ensures r.Success? ==> r.value.query == RecordQueryItems(recordQuery) && r.value.body == None
  {
    if layout.database.None? then Failure(ApiError(NoDatabase))
    else
      var db := layout.database.value;
      CreateBaseRequest(db.credentials, db.Attached(), Endpoints.GetRecords(db.name, layout.name),
                        RecordQueryItems(recordQuery), None)
  }

  /** `createRecord`: a token request whose body is the encoded record. */
  function CreateRecord(layout: Layout, record: RO.EditRecord): (r: Built)
    reads Owner(layout)
    ensures Routed(r, layout, TokenRequest, Endpoints.CreateRecord(DatabaseName(layout), layout.name))
    ensures r.Success? ==> r.value.query == [] && r.value.body == Some(JsonBody(RO.EditRecordObject(record)))
  {
    if layout.database.None? then Failure(ApiError(NoDatabase))
    else
      var db := layout.database.value;
      CreateBaseRequest(db.credentials, db.Attached(), Endpoints.CreateRecord(db.name, layout.name), [],
                        Some(JsonBody(RO.EditRecordObject(record))))
  }

  /** `getRecordById`: like `getRecords`, for one record. */
  function GetRecordById(layout: Layout, recordId: Int64, recordQuery: Option<RO.RecordQuery>): (r: Built)
    reads Owner(layout)
    ensures Routed(r, layout, TokenRequest, Endpoints.GetRecord(DatabaseName(layout), layout.name, recordId))
    ensures r.Success? ==> r.value.query == RecordQueryItems(recordQuery) && r.value.body == None
  {
    if layout.database.None? then Failure(ApiError(NoDatabase))
    else
      var db := layout.database.value;
      CreateBaseRequest(db.credentials, db.Attached(), Endpoints.GetRecord(db.name, layout.name, recordId),
                        RecordQueryItems(recordQuery), None)
  }

  /** `editRecord` as written: routed through the login builder, so it accepts only login
      credentials and refuses the session token every other record operation needs. */
  function EditRecord(layout: Layout, record: RO.EditRecord, recordId: Int64): (r: Built)
    reads Owner(layout)
    ensures Routed(r, layout, AuthRequest, Endpoints.EditRecord(DatabaseName(layout), layout.name, recordId))
    ensures r.Success? ==> r.value.query == [] && r.value.body == Some(JsonBody(RO.EditRecordObject(record)))
  {
    if layout.database.None? then Failure(ApiError(NoDatabase))
    else
      var db := layout.database.value;
      CreateAuthRequest(db.credentials, db.Attached(), Endpoints.EditRecord(db.name, layout.name, recordId),
                        Some(JsonBody(RO.EditRecordObject(record))))
  }

  /** `editRecord` as the other record operations are built: a token request whose body is the
      encoded edit. */
  function EditRecordIntended(layout: Layout, record: RO.EditRecord, recordId: Int64): (r: Built)
    reads Owner(layout)
    ensures Routed(r, layout, TokenRequest, Endpoints.EditRecord(DatabaseName(layout), layout.name, recordId))
    ensures r.Success? ==> r.value.query == [] && r.value.body == Some(JsonBody(RO.EditRecordObject(record)))
  {
    if layout.database.None? then Failure(ApiError(NoDatabase))
    else
      var db := layout.database.value;
      CreateBaseRequest(db.credentials, db.Attached(), Endpoints.EditRecord(db.name, layout.name, recordId),
                        [], Some(JsonBody(RO.EditRecordObject(record))))
  }

  /** With a session token the record can be read but, as written, not edited: the login
      builder refuses the token, while the intended edit goes through. */
  lemma EditRefusedWithSession(layout: Layout, record: RO.EditRecord, recordId: Int64)
    requires layout.database.Some? && layout.database.value.credentials.Token?
    ensures EditRecord(layout, record, recordId) == Failure(AuthTypeError("Already authenticated with token"))
    ensures GetRecordById(layout, recordId, None).Success?
    ensures EditRecordIntended(layout, record, recordId).Success?
  {
  }

  /** Under the intended routing, editing is allowed exactly when reading the record is. */
  lemma EditLikeRead(layout: Layout, record: RO.EditRecord, recordId: Int64, q: Option<RO.RecordQuery>)
    ensures EditRecordIntended(layout, record, recordId).Success? <==> GetRecordById(layout, recordId, q).Success?
    ensures EditRecordIntended(layout, record, recordId).Failure?
        ==> EditRecordIntended(layout, record, recordId).error == GetRecordById(layout, recordId, q).error
  {
  }

  /** `deleteRecord`: the script query travels as query items. */
  function DeleteRecord(layout: Layout, recordId: Int64, scriptQuery: Option<RO.ScriptQuery>): (r: Built)
    reads Owner(layout)
    ensures Routed(r, layout, TokenRequest, Endpoints.DeleteRecord(DatabaseName(layout), layout.name, recordId))
    ensures r.Success? ==> r.value.query == ScriptQueryItems(scriptQuery) && r.value.body == None
  {
    if layout.database.None? then Failure(ApiError(NoDatabase))
    else
      var db := layout.database.value;
      CreateBaseRequest(db.credentials, db.Attached(), Endpoints.DeleteRecord(db.name, layout.name, recordId),
                        ScriptQueryItems(scriptQuery), None)
  }

  /** The body `duplicateRecord` sends: when a script query is given, an object holding
      exactly its present fields, each under its key; otherwise none. */
  function ScriptQueryBody(scriptQuery: Option<RO.ScriptQuery>): (b: Option<Body>)
    ensures b.Some? <==> scriptQuery.Some?
    ensures b.Some? ==> b.value.JsonBody?
    ensures b.Some? ==> forall k :: 0 <= k < 6 ==>
      (RO.ScriptKeys[k] in b.value.fields <==> scriptQuery.value.Values()[k].Some?)
    ensures b.Some? ==> forall k :: 0 <= k < 6 && scriptQuery.value.Values()[k].Some? ==>
      b.value.fields[RO.ScriptKeys[k]] == JStr(scriptQuery.value.Values()[k].value)
    ensures b.Some? ==> forall key :: key in b.value.fields ==> key in RO.ScriptKeys
  {
    if scriptQuery.None? then None
    else
      var fields := RO.WithScript(map[], scriptQuery);
      assert forall k :: 0 <= k < 6 ==>
        && (RO.ScriptKeys[k] in fields <==> scriptQuery.value.Values()[k].Some?)
        && (scriptQuery.value.Values()[k].Some? ==> fields[RO.ScriptKeys[k]] == JStr(scriptQuery.value.Values()[k].value)) by {
        forall k | 0 <= k < 6
          ensures RO.ScriptKeys[k] in fields <==> scriptQuery.value.Values()[k].Some?
          ensures scriptQuery.value.Values()[k].Some? ==> fields[RO.ScriptKeys[k]] == JStr(scriptQuery.value.Values()[k].value)
        {
          RO.WithScriptKey(map[], scriptQuery, k);
        }
      }
      RO.WithScriptKeySet(map[], scriptQuery);
      Some(JsonBody(fields))
  }

  /** `duplicateRecord`: the script query travels as the body; without one there is neither a
      body nor query items. */
  function DuplicateRecord(layout: Layout, recordId: Int64, scriptQuery: Option<RO.ScriptQuery>): (r: Built)
    reads Owner(layout)
    ensures Routed(r, layout, TokenRequest, Endpoints.DuplicateRecord(DatabaseName(layout), layout.name, recordId))
    ensures r.Success? ==> r.value.query == [] && r.value.body == ScriptQueryBody(scriptQuery)
  {
    if layout.database.None? then Failure(ApiError(NoDatabase))
    else
      var db := layout.database.value;
      CreateBaseRequest(db.credentials, db.Attached(), Endpoints.DuplicateRecord(db.name, layout.name, recordId),
                        [], ScriptQueryBody(scriptQuery))
  }

  /** `findRecords`: a token request whose body is the encoded find query. */
  function FindRecords(layout: Layout, query: RO.FindQuery): (r: Built)
    reads Owner(layout)
    ensures Routed(r, layout, TokenRequest, Endpoints.FindRecords(DatabaseName(layout), layout.name))
    ensures r.Success? ==> r.value.query == [] && r.value.body == Some(JsonBody(RO.FindQueryObject(query)))
  {
    if layout.database.None? then Failure(ApiError(NoDatabase))
    else
      var db := layout.database.value;
      CreateBaseRequest(db.credentials, db.Attached(), Endpoints.FindRecords(db.name, layout.name), [],
                        Some(JsonBody(RO.FindQueryObject(query))))
  }

  /** `executeScript`: exactly one query item, `script.param`, whose value may be absent. */
  function ExecuteScript(layout: Layout, script: string, scriptParam: Option<string>): (r: Built)
    reads Owner(layout)
    ensures Routed(r, layout, TokenRequest, Endpoints.ExecuteScript(DatabaseName(layout), layout.name, script))
    ensures r.Success? ==> |r.value.query| == 1 && r.value.body == None
    ensures r.Success? ==> r.value.query[0].name == "script.param" && r.value.query[0].value == scriptParam
  {
    if layout.database.None? then Failure(ApiError(NoDatabase))
    else
      var db := layout.database.value;
      CreateBaseRequest(db.credentials, db.Attached(), Endpoints.ExecuteScript(db.name, layout.name, script),
                        [QueryItem("script.param", scriptParam)], None)
  }

  /** The single query item an optional integer adds under `name`, spelled in decimal. */
  predicate OptionalIntItem(query: seq<QueryItem>, name: string, n: Option<Int64>) {
    && |query| == (if n.Some? then 1 else 0)
    && (n.Some? ==> && query[0] == QueryItem(name, Some(Decimal(n.value)))
                    && ParseInt(query[0].value.value) == n)
  }

  /** `uploadToContainerField`: a `modId` query item is assembled exactly when a
      modification id is given, and then dropped by the upload builder, which accepts any
      credentials but invalid ones and sends the file as the body. */
  method UploadToContainerField(layout: Layout, fieldName: string, recordId: Int64,
                                repetition: Option<Int64>, modId: Option<Int64>, file: ContainerFile)
    returns (query: seq<QueryItem>, r: Built)
    ensures layout.database.Some? ==> OptionalIntItem(query, "modId", modId)
    ensures layout.database.None? ==> query == []
    ensures Routed(r, layout, UploadRequest,
                   Endpoints.UploadToContainer(DatabaseName(layout), layout.name, recordId, fieldName, repetition))
    ensures r.Success? ==> r.value.body == Some(FileBody(file)) && r.value.query == []
  {
    query := [];
    if layout.database.None? {
      r := Failure(ApiError(NoDatabase));
      return;
    }
    var db := layout.database.value;
    if modId.Some? {
      ParseDecimal(modId.value);
      query := query + [QueryItem("modId", Some(Decimal(modId.value)))];
    }
    r := CreateUploadRequest(db.credentials, db.Attached(),
           Endpoints.UploadToContainer(db.name, layout.name, recordId, fieldName, repetition), query, file);
  }

  /** `getLayoutMetadata`: a token request with a `recordId` query item exactly when a record
      id is given. */
  method GetLayoutMetadata(layout: Layout, recordId: Option<Int64>) returns (query: seq<QueryItem>, r: Built)
    ensures layout.database.Some? ==> OptionalIntItem(query, "recordId", recordId)
    ensures layout.database.None? ==> query == []
    ensures Routed(r, layout, TokenRequest, Endpoints.LayoutMetadata(DatabaseName(layout), layout.name))
    ensures r.Success? ==> r.value.query == query && r.value.body == None
  {
    query := [];
    if layout.database.None? {
      r := Failure(ApiError(NoDatabase));
      return;
    }
    var db := layout.database.value;
    if recordId.Some? {
      ParseDecimal(recordId.value);
      query := query + [QueryItem("recordId", Some(Decimal(recordId.value)))];
    }
    r := CreateBaseRequest(db.credentials, db.Attached(), Endpoints.LayoutMetadata(db.name, layout.name),
                           query, None);
  }
}
