/** The Data API's operations: each one's URL path below the versioned root, and its HTTP
    method. */
module Endpoints {
  import opened Wrappers
  import opened Text
  import opened Rest

  datatype Endpoint =
    | ProductInfo
    | DatabaseNames
    | LayoutNames(database: string)
    | ScriptNames(database: string)
    | LayoutMetadata(database: string, layout: string)
    | LayoutMetadataOld(database: string, layout: string)
    | Auth(database: string)
    | DeAuth(database: string, token: string)
    | Validate
    | GetRecords(database: string, layout: string)
    | CreateRecord(database: string, layout: string)
    | GetRecord(database: string, layout: string, recordId: Int64)
    | EditRecord(database: string, layout: string, recordId: Int64)
    | DeleteRecord(database: string, layout: string, recordId: Int64)
    | DuplicateRecord(database: string, layout: string, recordId: Int64)
    | FindRecords(database: string, layout: string)
    | ExecuteScript(database: string, layout: string, scriptName: string)
    | UploadToContainer(database: string, layout: string, recordId: Int64, containerName: string,
                        fieldRepetition: Option<Int64>)
    | SetGlobalFields(database: string)
  {
    predicate DatabaseScoped() {
      !(ProductInfo? || DatabaseNames? || Validate?)
    }

    predicate LayoutScoped() {
      DatabaseScoped() && !(LayoutNames? || ScriptNames? || Auth? || DeAuth? || SetGlobalFields?)
    }
  }

  function DatabasePrefix(database: string): string {
    "/databases/" + database
  }

  function LayoutPrefix(database: string, layout: string): string {
    DatabasePrefix(database) + "/layouts/" + layout
  }

  function RecordPath(database: string, layout: string, recordId: Int64): string {
    LayoutPrefix(database, layout) + "/records/" + Decimal(recordId)
  }

  /** `path`: every path is absolute. */
  function Path(e: Endpoint): (p: string)
    ensures |p| > 0 && p[0] == '/'
  {
    match e
    case ProductInfo => "/productInfo"
    case DatabaseNames => "/databases"
    case LayoutNames(db) => DatabasePrefix(db) + "/layouts"
    case ScriptNames(db) => DatabasePrefix(db) + "/scripts"
    case LayoutMetadata(db, layout) => LayoutPrefix(db, layout)
    case LayoutMetadataOld(db, layout) => LayoutPrefix(db, layout) + "/metadata"
    case Auth(db) => DatabasePrefix(db) + "/sessions"
    case DeAuth(db, token) => DatabasePrefix(db) + "/sessions/" + token
    case Validate => "/validateSession"
    case GetRecords(db, layout) => LayoutPrefix(db, layout) + "/records"
    case CreateRecord(db, layout) => LayoutPrefix(db, layout) + "/records"
    case GetRecord(db, layout, id) => RecordPath(db, layout, id)
    case EditRecord(db, layout, id) => RecordPath(db, layout, id)
    case DeleteRecord(db, layout, id) => RecordPath(db, layout, id)
    case DuplicateRecord(db, layout, id) => RecordPath(db, layout, id)
    case FindRecords(db, layout) => LayoutPrefix(db, layout) + "/_find"
    case ExecuteScript(db, layout, script) => LayoutPrefix(db, layout) + "/script/" + script
    case UploadToContainer(db, layout, id, container, repetition) =>
      RecordPath(db, layout, id) + "/containers/" + container + "/" + Decimal(repetition.GetOr(1))
    case SetGlobalFields(db) => DatabasePrefix(db) + "/globals/"
  }

  /** `method`: the endpoints that patch, delete and post; every other endpoint reads. */
  function Method(e: Endpoint): (m: HttpMethod)
    ensures m == Patch <==> e.EditRecord? || e.SetGlobalFields?
    ensures m == Delete <==> e.DeAuth? || e.DeleteRecord?
    ensures m == Post <==> || e.Auth? || e.CreateRecord? || e.DuplicateRecord? || e.FindRecords?
                           || e.UploadToContainer?
  {
    match e
    case ProductInfo => Get
    case DatabaseNames => Get
    case LayoutNames(_) => Get
    case ScriptNames(_) => Get
    case LayoutMetadata(_, _) => Get
    case LayoutMetadataOld(_, _) => Get
    case Auth(_) => Post
    case DeAuth(_, _) => Delete
    case Validate => Get
    case GetRecords(_, _) => Get
    case CreateRecord(_, _) => Post
    case GetRecord(_, _, _) => Get
    case EditRecord(_, _, _) => Patch
    case DeleteRecord(_, _, _) => Delete
    case DuplicateRecord(_, _, _) => Post
    case FindRecords(_, _) => Post
    case ExecuteScript(_, _, _) => Get
    case UploadToContainer(_, _, _, _, _) => Post
    case SetGlobalFields(_) => Patch
  }

  /** Every path of a layout-scoped operation starts with `/databases/<database>/layouts/<layout>`. */
  lemma LayoutPathPrefix(e: Endpoint)
    requires e.LayoutScoped()
    ensures LayoutPrefix(e.database, e.layout) <= Path(e)
    ensures DatabasePrefix(e.database) <= Path(e)
  {
    var lp := LayoutPrefix(e.database, e.layout);
    match e {
      case LayoutMetadata(_, _) =>
      case LayoutMetadataOld(_, _) => Extends(lp, "/metadata", "");
      case GetRecords(_, _) => Extends(lp, "/records", "");
      case CreateRecord(_, _) => Extends(lp, "/records", "");
      case FindRecords(_, _) => Extends(lp, "/_find", "");
      case ExecuteScript(_, _, script) => Extends(lp, "/script/", script);
      case UploadToContainer(db, layout, id, container, repetition) =>
        var rp := RecordPath(db, layout, id);
        Extends(lp, "/records/", Decimal(id));
        Extends(rp, "/containers/", container);
        Extends(rp + "/containers/" + container, "/", Decimal(repetition.GetOr(1)));
        PrefixTransitive(lp, rp, rp + "/containers/" + container);
        PrefixTransitive(lp, rp + "/containers/" + container, Path(e));
      case GetRecord(_, _, id) => Extends(lp, "/records/", Decimal(id));
      case EditRecord(_, _, id) => Extends(lp, "/records/", Decimal(id));
      case DeleteRecord(_, _, id) => Extends(lp, "/records/", Decimal(id));
      case DuplicateRecord(_, _, id) => Extends(lp, "/records/", Decimal(id));
    }
    Extends(DatabasePrefix(e.database), "/layouts/", e.layout);
    PrefixTransitive(DatabasePrefix(e.database), lp, Path(e));
  }

  /** Every path of a database-scoped operation starts with `/databases/<database>`; the three
      others are fixed. */
  lemma DatabasePathPrefix(e: Endpoint)
    ensures e.DatabaseScoped() ==> DatabasePrefix(e.database) <= Path(e)
    ensures e.ProductInfo? ==> Path(e) == "/productInfo"
    ensures e.DatabaseNames? ==> Path(e) == "/databases"
    ensures e.Validate? ==> Path(e) == "/validateSession"
  {
    if e.LayoutScoped() {
      LayoutPathPrefix(e);
    } else if e.DatabaseScoped() {
      var dp := DatabasePrefix(e.database);
      match e {
        case LayoutNames(_) => Extends(dp, "/layouts", "");
        case ScriptNames(_) => Extends(dp, "/scripts", "");
        case Auth(_) => Extends(dp, "/sessions", "");
        case DeAuth(_, token) => Extends(dp, "/sessions/", token);
        case SetGlobalFields(_) => Extends(dp, "/globals/", "");
      }
    }
  }

  /** Prefixes of a concatenation, and their transitivity. */
  lemma Extends(a: string, b: string, c: string)
    ensures a <= a + b + c && a <= a + b
  {
    assert a + b + c == a + (b + c);
  }

  lemma PrefixTransitive(a: string, b: string, c: string)
    requires a <= b && b <= c
    ensures a <= c
  {
    assert c[..|a|] == b[..|a|];
  }

  /** The four single-record operations share one path and differ only in method. */
  lemma SingleRecordOperations(db: string, layout: string, id: Int64)
    ensures Path(GetRecord(db, layout, id)) == Path(EditRecord(db, layout, id))
         == Path(DeleteRecord(db, layout, id)) == Path(DuplicateRecord(db, layout, id))
         == "/databases/" + db + "/layouts/" + layout + "/records/" + Decimal(id)
    ensures Method(GetRecord(db, layout, id)) == Get
    ensures Method(EditRecord(db, layout, id)) == Patch
    ensures Method(DeleteRecord(db, layout, id)) == Delete
    ensures Method(DuplicateRecord(db, layout, id)) == Post
  {
  }

  /** Listing and creating records share a path and differ by method. */
  lemma RecordCollectionOperations(db: string, layout: string)
    ensures Path(GetRecords(db, layout)) == Path(CreateRecord(db, layout))
         == "/databases/" + db + "/layouts/" + layout + "/records"
    ensures Method(GetRecords(db, layout)) == Get && Method(CreateRecord(db, layout)) == Post
  {
  }

  /** A container upload names the field and its repetition, which is 1 when not given. */
  lemma UploadPath(db: string, layout: string, id: Int64, container: string, repetition: Option<Int64>)
    ensures Path(UploadToContainer(db, layout, id, container, repetition))
         == RecordPath(db, layout, id) + "/containers/" + container + "/"
            + (if repetition.Some? then Decimal(repetition.value) else "1")
    ensures Method(UploadToContainer(db, layout, id, container, repetition)) == Post
  {
  }

  /** Opening a session posts to `sessions`; closing one deletes the token below it. */
  lemma SessionPaths(db: string, token: string)
    ensures Path(Auth(db)) == "/databases/" + db + "/sessions" && Method(Auth(db)) == Post
    ensures Path(DeAuth(db, token)) == "/databases/" + db + "/sessions/" + token
    ensures Method(DeAuth(db, token)) == Delete
  {
  }

  /** The methods, case by case: GET exactly for the read operations. */
  lemma MethodTable(e: Endpoint)
    ensures Method(e) == Get <==>
      e.ProductInfo? || e.DatabaseNames? || e.LayoutNames? || e.ScriptNames? || e.LayoutMetadata?
      || e.LayoutMetadataOld? || e.Validate? || e.GetRecords? || e.GetRecord? || e.ExecuteScript?
    ensures Method(e) == Post <==>
      e.Auth? || e.CreateRecord? || e.DuplicateRecord? || e.FindRecords? || e.UploadToContainer?
    ensures Method(e) == Patch <==> e.EditRecord? || e.SetGlobalFields?
    ensures Method(e) == Delete <==> e.DeAuth? || e.DeleteRecord?
  {
  }

  /** The global-fields path keeps its trailing slash; a find posts to `_find`. */
  lemma GlobalsAndFind(db: string, layout: string)
    ensures Path(SetGlobalFields(db)) == "/databases/" + db + "/globals/"
    ensures Method(SetGlobalFields(db)) == Patch
    ensures Path(FindRecords(db, layout)) == "/databases/" + db + "/layouts/" + layout + "/_find"
    ensures Method(FindRecords(db, layout)) == Post
  {
  }
}
