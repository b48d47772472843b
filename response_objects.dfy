/** The response decoders: the Data API's reply objects read through Swift's keyed-container
    rules, with the record and modification ids sent as decimal strings and converted to
    integers after every key has been read. Encoders of the same shapes state what a decoder
    recovers. */
module ResponseObjects {
  import opened Wrappers
  import opened Text
  import opened Json
  import opened Handles
  import RO = RequestObjects

  // Script results

  /** `ScriptResponse`: the result and error of each script stage, each when reported. */
  datatype ScriptResponse = ScriptResponse(
    scriptResult: Option<string>,
    scriptError: Option<string>,
    scriptErrorPreRequest: Option<string>,
    scriptResultPreRequest: Option<string>,
    scriptResultPreSort: Option<string>,
    scriptErrorPreSort: Option<string>)

  /** Where `decodeIfPresent(String.self, ...)` succeeds: absent, null or a string. */
  predicate StringOrAbsent(c: map<string, Value>, key: string) {
    key !in c || c[key] == JNull || c[key].JStr?
  }

  /** What `decodeIfPresent(String.self, ...)` yields where it succeeds. */
  function StringAt(c: map<string, Value>, key: string): Option<string> {
    if key in c && c[key].JStr? then Some(c[key].s) else None
  }

  /** Each of the six script keys can be read as an optional string. */
  predicate ScriptFieldsReadable(c: map<string, Value>) {
    && StringOrAbsent(c, "scriptResult") && StringOrAbsent(c, "scriptError")
    && StringOrAbsent(c, "scriptError.prerequest") && StringOrAbsent(c, "scriptResult.prerequest")
    && StringOrAbsent(c, "scriptResult.presort") && StringOrAbsent(c, "scriptError.presort")
  }

  /** None of the six script keys is present. */
  predicate NoScriptFields(m: map<string, Value>) {
    && "scriptResult" !in m && "scriptError" !in m
    && "scriptError.prerequest" !in m && "scriptResult.prerequest" !in m
    && "scriptResult.presort" !in m && "scriptError.presort" !in m
  }

  /** The synthesized `ScriptResponse.init(from:)`: six optional strings of one object. */
  function DecodeScriptResponse(v: Value): (r: Decoded<ScriptResponse>)
    ensures r.Success? <==> v.JObj? && ScriptFieldsReadable(v.fields)
    ensures r.Success? ==> && r.value.scriptResult == StringAt(v.fields, "scriptResult")
                           && r.value.scriptError == StringAt(v.fields, "scriptError")
                           && r.value.scriptErrorPreRequest == StringAt(v.fields, "scriptError.prerequest")
                           && r.value.scriptResultPreRequest == StringAt(v.fields, "scriptResult.prerequest")
                           && r.value.scriptResultPreSort == StringAt(v.fields, "scriptResult.presort")
                           && r.value.scriptErrorPreSort == StringAt(v.fields, "scriptError.presort")
  {
    var c :- Container(v);
    var scriptResult :- OptionalString(c, "scriptResult");
    var scriptError :- OptionalString(c, "scriptError");
    var scriptErrorPreRequest :- OptionalString(c, "scriptError.prerequest");
    var scriptResultPreRequest :- OptionalString(c, "scriptResult.prerequest");
    var scriptResultPreSort :- OptionalString(c, "scriptResult.presort");
    var scriptErrorPreSort :- OptionalString(c, "scriptError.presort");
    Success(ScriptResponse(scriptResult, scriptError, scriptErrorPreRequest, scriptResultPreRequest,
                           scriptResultPreSort, scriptErrorPreSort))
  }

  /** The script keys of a response, in the order of the fields of `ScriptResponse`. */
  const ScriptResponseKeys: seq<string> := ["scriptResult", "scriptError", "scriptError.prerequest",
    "scriptResult.prerequest", "scriptResult.presort", "scriptError.presort"]

  /** The fields of `s`, in the order of `ScriptResponseKeys`. */
  function ScriptValues(s: ScriptResponse): (vs: seq<Option<string>>)
    ensures |vs| == 6
  {
    [s.scriptResult, s.scriptError, s.scriptErrorPreRequest, s.scriptResultPreRequest,
     s.scriptResultPreSort, s.scriptErrorPreSort]
  }

  /** The script fields of `s` written into `m`, each present one under its key. */
  function WithScriptResponse(m: map<string, Value>, s: ScriptResponse): map<string, Value> {
    RO.PutAll(m, ScriptResponseKeys, ScriptValues(s))
  }

  /** Each script field is read back from an object it was written into, when its key was
      not there before. */
  lemma ScriptFieldRead(m: map<string, Value>, s: ScriptResponse, i: nat)
    requires i < 6 && ScriptResponseKeys[i] !in m
    ensures var c := WithScriptResponse(m, s);
      StringOrAbsent(c, ScriptResponseKeys[i]) && StringAt(c, ScriptResponseKeys[i]) == ScriptValues(s)[i]
  {
    var lengths := [12, 11, 22, 23, 20, 19];
    assert forall j :: 0 <= j < 6 ==> |ScriptResponseKeys[j]| == lengths[j];
    RO.PutAllAt(m, ScriptResponseKeys, ScriptValues(s), i);
  }

  /** Writing the script fields leaves every other key as it was. */
  lemma ScriptResponseKeeps(m: map<string, Value>, s: ScriptResponse, key: string)
    requires key in m && key !in ScriptResponseKeys
    ensures key in WithScriptResponse(m, s) && WithScriptResponse(m, s)[key] == m[key]
  {
    RO.PutAllKeeps(m, ScriptResponseKeys, ScriptValues(s), key);
  }

  /** The script fields are read back from any object they were written into, whatever else
      the object holds. */
  lemma ScriptResponseRoundTrip(m: map<string, Value>, s: ScriptResponse)
    requires NoScriptFields(m)
    ensures DecodeScriptResponse(JObj(WithScriptResponse(m, s))) == Success(s)
  {
    ScriptFieldRead(m, s, 0);
    ScriptFieldRead(m, s, 1);
    ScriptFieldRead(m, s, 2);
    ScriptFieldRead(m, s, 3);
    ScriptFieldRead(m, s, 4);
    ScriptFieldRead(m, s, 5);
  }

  // Records in a record response

  /** `RecordResponse.Record`: the field data and portal data are opaque payloads. */
  datatype Record = Record(
    fieldData: Value,
    portalData: Option<Value>,
    modId: Int64,
    recordId: Int64,
    portalDataInfo: Option<seq<Value>>)

  const RecordIdError := "Error setting recordId to Int"
  const ModIdError := "Error setting modId to Int"

  /** The integer an id string converts to, or the data-corrupted error for that id. */
  function ParseId(key: string, description: string, s: string): (r: Decoded<Int64>)
    ensures r.Success? <==> ParseInt(s).Some?
    ensures r.Success? ==> r.value == ParseInt(s).value
    ensures r.Failure? ==> r.error == DataCorrupted(key, description)
  {
    var n := ParseInt(s);
    if n.Some? then Success(n.value) else Failure(DataCorrupted(key, description))
  }

  /** Both ids are strings, and each converts to an integer. */
  predicate IdsParse(c: map<string, Value>) {
    && "recordId" in c && c["recordId"].JStr? && ParseInt(c["recordId"].s).Some?
    && "modId" in c && c["modId"].JStr? && ParseInt(c["modId"].s).Some?
  }

  /** `Record.init(from:)`: the payloads, then both id strings, then their conversion, the
      record id first. */
  function DecodeRecord(v: Value): (r: Decoded<Record>)
    ensures r.Success? <==> && v.JObj? && Required(v.fields, "fieldData").Success?
                            && OptionalArray(v.fields, "portalDataInfo").Success? && IdsParse(v.fields)
    ensures r.Success? ==> && r.value.fieldData == v.fields["fieldData"]
                           && r.value.portalData == Optional(v.fields, "portalData")
                           && r.value.portalDataInfo == OptionalArray(v.fields, "portalDataInfo").value
                           && r.value.recordId == ParseInt(v.fields["recordId"].s).value
                           && r.value.modId == ParseInt(v.fields["modId"].s).value
  {
    var c :- Container(v);
    var fieldData :- Required(c, "fieldData");
    var portalData := Optional(c, "portalData");
    var portalDataInfo :- OptionalArray(c, "portalDataInfo");
    var recordIdString :- RequiredString(c, "recordId");
    var modIdString :- RequiredString(c, "modId");
    var recordId :- ParseId("recordId", RecordIdError, recordIdString);
    var modId :- ParseId("modId", ModIdError, modIdString);
    Success(Record(fieldData, portalData, modId, recordId, portalDataInfo))
  }

  /** The ids are checked in order: a record id that is not an integer is reported even when
      the modification id is not one either. */
  lemma RecordIdReportedFirst(c: map<string, Value>)
    requires Required(c, "fieldData").Success? && OptionalArray(c, "portalDataInfo").Success?
    requires "recordId" in c && c["recordId"].JStr? && "modId" in c && c["modId"].JStr?
    ensures ParseInt(c["recordId"].s).None?
        ==> DecodeRecord(JObj(c)) == Failure(DataCorrupted("recordId", RecordIdError))
    ensures ParseInt(c["recordId"].s).Some? && ParseInt(c["modId"].s).None?
        ==> DecodeRecord(JObj(c)) == Failure(DataCorrupted("modId", ModIdError))
  {
  }

  /** A numeric id is not accepted: the decoder reads ids as strings only. */
  lemma NumericIdRejected(c: map<string, Value>, n: int)
    requires Required(c, "fieldData").Success? && OptionalArray(c, "portalDataInfo").Success?
    ensures DecodeRecord(JObj(c["recordId" := JNum(n)])) == Failure(TypeMismatch("recordId"))
  {
    var d := c["recordId" := JNum(n)];
    assert d["fieldData"] == c["fieldData"];
    assert "portalDataInfo" in d ==> d["portalDataInfo"] == c["portalDataInfo"];
  }

  /** The object a record arrives as, with both ids spelled in decimal. */
  function RecordObject(rec: Record): map<string, Value> {
    RO.Put(RO.Put(map["fieldData" := rec.fieldData, "recordId" := JStr(Decimal(rec.recordId)),
                      "modId" := JStr(Decimal(rec.modId))],
      "portalData", rec.portalData),
      "portalDataInfo", if rec.portalDataInfo.Some? then Some(JArr(rec.portalDataInfo.value)) else None)
  }

  /** A record the decoder can produce: field data is never null, and absent and null portal
      data both read as nil. */
  predicate Decodable(rec: Record) {
    rec.fieldData != JNull && rec.portalData != Some(JNull)
  }

  /** The ids of a record object are its ids in decimal. */
  lemma RecordIdsRead(rec: Record)
    ensures var c := RecordObject(rec);
      && "recordId" in c && c["recordId"] == JStr(Decimal(rec.recordId))
      && "modId" in c && c["modId"] == JStr(Decimal(rec.modId))
  {
  }

  /** The payloads of a record object are read back as the record's. */
  lemma RecordPayloadsRead(rec: Record)
    requires Decodable(rec)
    ensures var c := RecordObject(rec);
      && Required(c, "fieldData") == Success(rec.fieldData)
      && Optional(c, "portalData") == rec.portalData
      && OptionalArray(c, "portalDataInfo") == Success(rec.portalDataInfo)
  {
  }

  lemma RecordRoundTrip(rec: Record)
    requires Decodable(rec)
    ensures DecodeRecord(JObj(RecordObject(rec))) == Success(rec)
  {
    ParseDecimal(rec.recordId);
    ParseDecimal(rec.modId);
    RecordIdsRead(rec);
    RecordPayloadsRead(rec);
  }

  /** `decode([Record].self, ...)`: every element, the first failure reported. */
  function DecodeRecords(vs: seq<Value>): (r: Decoded<seq<Record>>)
    ensures r.Success? <==> forall i :: 0 <= i < |vs| ==> DecodeRecord(vs[i]).Success?
    ensures r.Success? ==> |r.value| == |vs|
    ensures r.Success? ==> forall i :: 0 <= i < |vs| ==> DecodeRecord(vs[i]) == Success(r.value[i])
    ensures r.Failure? ==> exists i :: && 0 <= i < |vs| && DecodeRecord(vs[i]) == Failure(r.error)
                                       && forall j :: 0 <= j < i ==> DecodeRecord(vs[j]).Success?
  {
    DecodeEach(DecodeRecord, vs)
  }

  /** `RecordResponse`: the data info is an opaque payload; the script response is read from
      the same object and so is always present. */
  datatype RecordResponse = RecordResponse(data: seq<Record>, dataInfo: Value,
                                           scriptResponse: Option<ScriptResponse>)

  function DecodeRecordResponse(v: Value): (r: Decoded<RecordResponse>)
    ensures r.Success? <==> && v.JObj? && RequiredArray(v.fields, "data").Success?
                            && DecodeRecords(v.fields["data"].items).Success?
                            && Required(v.fields, "dataInfo").Success?
                            && DecodeScriptResponse(v).Success?
    ensures r.Success? ==> && r.value.data == DecodeRecords(v.fields["data"].items).value
                           && r.value.dataInfo == v.fields["dataInfo"]
                           && r.value.scriptResponse == Some(DecodeScriptResponse(v).value)
  {
    var c :- Container(v);
    var items :- RequiredArray(c, "data");
    var data :- DecodeRecords(items);
    var dataInfo :- Required(c, "dataInfo");
    var scriptResponse :- DecodeScriptResponse(v);
    Success(RecordResponse(data, dataInfo, Some(scriptResponse)))
  }

  /** The array of record objects. */
  function RecordArray(records: seq<Record>): (v: Value)
    ensures v.JArr? && |v.items| == |records|
    ensures forall i :: 0 <= i < |records| ==> v.items[i] == JObj(RecordObject(records[i]))
  {
    JArr(seq(|records|, i requires 0 <= i < |records| => JObj(RecordObject(records[i]))))
  }

  function RecordResponseObject(resp: RecordResponse): map<string, Value>
    requires resp.scriptResponse.Some?
  {
    WithScriptResponse(map["data" := RecordArray(resp.data), "dataInfo" := resp.dataInfo],
                       resp.scriptResponse.value)
  }

  /** Records the decoder can produce are read back from their array, in order. */
  lemma {:induction false} RecordsRoundTrip(records: seq<Record>)
    requires forall i :: 0 <= i < |records| ==> Decodable(records[i])
    ensures DecodeRecords(RecordArray(records).items) == Success(records)
  {
    var vs := RecordArray(records).items;
    forall i | 0 <= i < |records|
      ensures DecodeRecord(vs[i]) == Success(records[i])
    {
      RecordRoundTrip(records[i]);
    }
    var r := DecodeRecords(vs);
    assert r.Success?;
    assert r.value == records;
  }

  /** A response the decoder can produce is read back from its object. */
  lemma RecordResponseRoundTrip(resp: RecordResponse)
    requires resp.scriptResponse.Some? && resp.dataInfo != JNull
    requires forall i :: 0 <= i < |resp.data| ==> Decodable(resp.data[i])
    ensures DecodeRecordResponse(JObj(RecordResponseObject(resp))) == Success(resp)
  {
    var base := map["data" := RecordArray(resp.data), "dataInfo" := resp.dataInfo];
    ScriptResponseRoundTrip(base, resp.scriptResponse.value);
    ScriptResponseKeeps(base, resp.scriptResponse.value, "data");
    ScriptResponseKeeps(base, resp.scriptResponse.value, "dataInfo");
    RecordsRoundTrip(resp.data);
  }

  // Create and edit responses

  datatype CreateResponse = CreateResponse(recordId: Int64, modId: Int64,
                                           scriptResponse: Option<ScriptResponse>)

  /** `CreateResponse.init(from:)`: both id strings, their conversion, then the script
      fields of the same object. */
  function DecodeCreateResponse(v: Value): (r: Decoded<CreateResponse>)
    ensures r.Success? <==> v.JObj? && IdsParse(v.fields) && DecodeScriptResponse(v).Success?
    ensures r.Success? ==> && r.value.recordId == ParseInt(v.fields["recordId"].s).value
                           && r.value.modId == ParseInt(v.fields["modId"].s).value
                           && r.value.scriptResponse == Some(DecodeScriptResponse(v).value)
    ensures v.JObj? && "recordId" in v.fields && v.fields["recordId"].JStr? && "modId" in v.fields
            && v.fields["modId"].JStr? && ParseInt(v.fields["recordId"].s).None?
        ==> r == Failure(DataCorrupted("recordId", RecordIdError))
  {
    var c :- Container(v);
    var recordIdString :- RequiredString(c, "recordId");
    var modIdString :- RequiredString(c, "modId");
    var recordId :- ParseId("recordId", RecordIdError, recordIdString);
    var modId :- ParseId("modId", ModIdError, modIdString);
    var scriptResponse :- DecodeScriptResponse(v);
    Success(CreateResponse(recordId, modId, Some(scriptResponse)))
  }

  /** The object a create response arrives as. */
  function CreateResponseObject(resp: CreateResponse): map<string, Value>
    requires resp.scriptResponse.Some?
  {
    WithScriptResponse(map["recordId" := JStr(Decimal(resp.recordId)), "modId" := JStr(Decimal(resp.modId))],
                       resp.scriptResponse.value)
  }

  /** A create response is read back from its object, ids included. */
  lemma CreateResponseRoundTrip(resp: CreateResponse)
    requires resp.scriptResponse.Some?
    ensures DecodeCreateResponse(JObj(CreateResponseObject(resp))) == Success(resp)
  {
    var base := map["recordId" := JStr(Decimal(resp.recordId)), "modId" := JStr(Decimal(resp.modId))];
    ScriptResponseRoundTrip(base, resp.scriptResponse.value);
    ParseDecimal(resp.recordId);
    ParseDecimal(resp.modId);
    ScriptResponseKeeps(base, resp.scriptResponse.value, "recordId");
    ScriptResponseKeeps(base, resp.scriptResponse.value, "modId");
  }

  /** `CreatedPortalRecordInfo`: the portal table and the new row's ids. */
  datatype CreatedPortalRecordInfo = CreatedPortalRecordInfo(tableName: string, recordId: Int64, modId: Int64)

  function DecodeCreatedPortalRecordInfo(v: Value): (r: Decoded<CreatedPortalRecordInfo>)
    ensures r.Success? <==> v.JObj? && RequiredString(v.fields, "tableName").Success? && IdsParse(v.fields)
    ensures r.Success? ==> && r.value.tableName == v.fields["tableName"].s
                           && r.value.recordId == ParseInt(v.fields["recordId"].s).value
                           && r.value.modId == ParseInt(v.fields["modId"].s).value
  {
    var c :- Container(v);
    var tableName :- RequiredString(c, "tableName");
    var recordIdString :- RequiredString(c, "recordId");
    var modIdString :- RequiredString(c, "modId");
    var recordId :- ParseId("recordId", RecordIdError, recordIdString);
    var modId :- ParseId("modId", ModIdError, modIdString);
    Success(CreatedPortalRecordInfo(tableName, recordId, modId))
  }

  datatype EditRecordResponse = EditRecordResponse(modId: Int64,
    newPortalRecordInfo: Option<CreatedPortalRecordInfo>, scriptResponse: Option<ScriptResponse>)

  /** The modification id is a string that converts to an integer. */
  predicate ModIdParses(c: map<string, Value>) {
    "modId" in c && c["modId"].JStr? && ParseInt(c["modId"].s).Some?
  }

  /** Where `decodeIfPresent(CreatedPortalRecordInfo.self, ...)` succeeds: absent, null or
      a portal record info object. */
  predicate PortalInfoReadable(c: map<string, Value>) {
    Optional(c, "newPortalRecordInfo").None?
    || DecodeCreatedPortalRecordInfo(c["newPortalRecordInfo"]).Success?
  }

  /** `EditRecordResponse.init(from:)`: the modification id first, then the optional portal
      record info, then the script fields of the same object. */
  function DecodeEditRecordResponse(v: Value): (r: Decoded<EditRecordResponse>)
    ensures r.Success? <==> && v.JObj? && ModIdParses(v.fields) && PortalInfoReadable(v.fields)
                            && DecodeScriptResponse(v).Success?
    ensures r.Success? ==> && v.JObj? && "modId" in v.fields && v.fields["modId"].JStr?
                           && ParseInt(v.fields["modId"].s).Some?
                           && r.value.modId == ParseInt(v.fields["modId"].s).value
                           && DecodeScriptResponse(v).Success?
                           && r.value.scriptResponse == Some(DecodeScriptResponse(v).value)
    ensures r.Success? ==> (r.value.newPortalRecordInfo.None?
                            <==> Optional(v.fields, "newPortalRecordInfo").None?)
    ensures r.Success? && r.value.newPortalRecordInfo.Some?
        ==> DecodeCreatedPortalRecordInfo(v.fields["newPortalRecordInfo"]) == Success(r.value.newPortalRecordInfo.value)
    ensures v.JObj? && "modId" in v.fields && v.fields["modId"].JStr? && ParseInt(v.fields["modId"].s).None?
        ==> r == Failure(DataCorrupted("modId", ModIdError))
  {
    var c :- Container(v);
    var modIdString :- RequiredString(c, "modId");
    var modId :- ParseId("modId", ModIdError, modIdString);
    var info := Optional(c, "newPortalRecordInfo");
    var portalInfo :- if info.None? then Success(None)
                      else var p :- DecodeCreatedPortalRecordInfo(info.value); Success(Some(p));
    var scriptResponse :- DecodeScriptResponse(v);
    Success(EditRecordResponse(modId, portalInfo, Some(scriptResponse)))
  }

  /** The object a new portal row's info arrives as, with both ids spelled in decimal. */
  function PortalInfoObject(info: CreatedPortalRecordInfo): Value {
    JObj(map["tableName" := JStr(info.tableName), "recordId" := JStr(Decimal(info.recordId)),
             "modId" := JStr(Decimal(info.modId))])
  }

  lemma PortalInfoRoundTrip(info: CreatedPortalRecordInfo)
    ensures DecodeCreatedPortalRecordInfo(PortalInfoObject(info)) == Success(info)
  {
    ParseDecimal(info.recordId);
    ParseDecimal(info.modId);
  }

  /** The modification id and, when there is one, the portal record info. */
  function EditRecordBase(resp: EditRecordResponse): map<string, Value> {
    RO.Put(map["modId" := JStr(Decimal(resp.modId))], "newPortalRecordInfo",
           if resp.newPortalRecordInfo.Some? then Some(PortalInfoObject(resp.newPortalRecordInfo.value)) else None)
  }

  /** The object an edit response arrives as. */
  function EditRecordResponseObject(resp: EditRecordResponse): map<string, Value>
    requires resp.scriptResponse.Some?
  {
    WithScriptResponse(EditRecordBase(resp), resp.scriptResponse.value)
  }

  /** What the decoder reads off an edit response's object: the modification id in decimal,
      the portal record info exactly when there is one, and the script fields. */
  lemma EditRecordObjectFields(resp: EditRecordResponse)
    requires resp.scriptResponse.Some?
    ensures var c := EditRecordResponseObject(resp);
      && "modId" in c && c["modId"] == JStr(Decimal(resp.modId))
      && Optional(c, "newPortalRecordInfo")
         == (if resp.newPortalRecordInfo.Some? then Some(PortalInfoObject(resp.newPortalRecordInfo.value)) else None)
      && DecodeScriptResponse(JObj(c)) == Success(resp.scriptResponse.value)
  {
    var base := EditRecordBase(resp);
    assert NoScriptFields(base);
    ScriptResponseRoundTrip(base, resp.scriptResponse.value);
    ScriptResponseKeeps(base, resp.scriptResponse.value, "modId");
    if resp.newPortalRecordInfo.Some? {
      ScriptResponseKeeps(base, resp.scriptResponse.value, "newPortalRecordInfo");
    } else {
      assert "newPortalRecordInfo" !in base;
      RO.PutAllKeeps(base, ScriptResponseKeys, ScriptValues(resp.scriptResponse.value), "newPortalRecordInfo");
    }
  }

  /** An edit response is read back from its object, with or without the portal record
      info: a response without one is an object without the key. */
  lemma EditRecordResponseRoundTrip(resp: EditRecordResponse)
    requires resp.scriptResponse.Some?
    ensures DecodeEditRecordResponse(JObj(EditRecordResponseObject(resp))) == Success(resp)
  {
    EditRecordObjectFields(resp);
    ParseDecimal(resp.modId);
    if resp.newPortalRecordInfo.Some? {
      PortalInfoRoundTrip(resp.newPortalRecordInfo.value);
    }
  }

  /** An edit response whose portal record info is null decodes as one without it. */
  lemma NullPortalInfoIsNil(c: map<string, Value>)
    requires ModIdParses(c) && ScriptFieldsReadable(c)
    ensures var d := c["newPortalRecordInfo" := JNull];
      var r := DecodeEditRecordResponse(JObj(d));
      r.Success? && r.value.newPortalRecordInfo.None?
  {
    var d := c["newPortalRecordInfo" := JNull];
    assert d["modId"] == c["modId"];
    assert ScriptFieldsReadable(d);
  }

  // Session token, database, script and layout lists

  /** `AccessToken`: the body's token, when there is one. */
  function DecodeAccessToken(v: Value): (r: Decoded<AccessToken>)
    ensures r.Success? <==> v.JObj? && StringOrAbsent(v.fields, "token")
    ensures r.Success? ==> r.value.token == StringAt(v.fields, "token")
  {
    var c :- Container(v);
    var token :- OptionalString(c, "token");
    Success(AccessToken(token))
  }

  /** `DatabaseListResponse`: the `databases` array of the reply, each element an object
      with a name. */
  function DecodeDatabaseListResponse(v: Value): (r: Decoded<seq<string>>)
    ensures r.Success? <==> && v.JObj? && RequiredArray(v.fields, "databases").Success?
                            && DecodeDatabaseNames(v.fields["databases"].items).Success?
    ensures r.Success? ==> r == DecodeDatabaseNames(v.fields["databases"].items)
    ensures v.JObj? && RequiredArray(v.fields, "databases").Failure?
        ==> r == Failure(RequiredArray(v.fields, "databases").error)
  {
    var c :- Container(v);
    var items :- RequiredArray(c, "databases");
    DecodeDatabaseNames(items)
  }

  /** The reply listing `names`, one object per name. */
  function DatabaseListObject(names: seq<string>): Value {
    JObj(map["databases" := JArr(seq(|names|, i requires 0 <= i < |names| => JObj(map["name" := JStr(names[i])])))])
  }

  /** Database names are read back from their reply, in order. */
  lemma DatabaseListRoundTrip(names: seq<string>)
    ensures DecodeDatabaseListResponse(DatabaseListObject(names)) == Success(names)
  {
    var r := DecodeDatabaseListResponse(DatabaseListObject(names));
    assert r.Success?;
    assert r.value == names;
  }

  /** `DatabaseName`: the database names of the `databases` array, in order. */
  function DecodeDatabaseNames(vs: seq<Value>): (r: Decoded<seq<string>>)
    ensures r.Success? ==> |r.value| == |vs|
    ensures r.Success? <==> forall i :: 0 <= i < |vs| ==> vs[i].JObj? && RequiredString(vs[i].fields, "name").Success?
    ensures r.Success? ==> forall i :: 0 <= i < |vs| ==> r.value[i] == vs[i].fields["name"].s
  {
    if vs == [] then Success([])
    else
      var c :- Container(vs[0]);
      var name :- RequiredString(c, "name");
      var rest :- DecodeDatabaseNames(vs[1..]);
      assert forall i :: 1 <= i < |vs| ==> vs[i] == vs[1..][i - 1];
      Success([name] + rest)
  }

  /** `ScriptItem.init(from:)`: a name, and a folder exactly when `folderScriptNames` holds
      a list. */
  function DecodeScriptItem(v: Value): (r: Decoded<ScriptItem>)
    ensures r.Success? ==> v.JObj? && "name" in v.fields && v.fields["name"] == JStr(r.value.name)
    ensures r.Success? ==> (r.value.ScriptFolder? <==> Optional(v.fields, "folderScriptNames").Some?)
    decreases v, 1
  {
    var c :- Container(v);
    var name :- RequiredString(c, "name");
    var folder :- OptionalArray(c, "folderScriptNames");
    if folder.None? then Success(Script(name))
    else
      var scripts :- DecodeScriptItems(folder.value);
      Success(ScriptFolder(name, scripts))
  }

  function DecodeScriptItems(vs: seq<Value>): (r: Decoded<seq<ScriptItem>>)
    ensures r.Success? ==> |r.value| == |vs|
    ensures r.Success? <==> forall i :: 0 <= i < |vs| ==> DecodeScriptItem(vs[i]).Success?
    ensures r.Success? ==> forall i :: 0 <= i < |vs| ==> DecodeScriptItem(vs[i]) == Success(r.value[i])
    decreases vs, 0
  {
    if vs == [] then Success([])
    else
      var head :- DecodeScriptItem(vs[0]);
      var tail :- DecodeScriptItems(vs[1..]);
      Success([head] + tail)
  }

  /** An entry decodes exactly when it is an object with a string name whose `folderScriptNames`,
      if present and not null, is a list that decodes; a folder holds that list's items.
      (Stated apart from `DecodeScriptItem` itself, whose contract would otherwise unfold the
      whole tree.) */
  lemma DecodeScriptItemSuccess(v: Value)
    ensures DecodeScriptItem(v).Success? <==>
              (&& v.JObj? && RequiredString(v.fields, "name").Success?
               && OptionalArray(v.fields, "folderScriptNames").Success?
               && (|| OptionalArray(v.fields, "folderScriptNames").value.None?
                   || DecodeScriptItems(OptionalArray(v.fields, "folderScriptNames").value.value).Success?))
    ensures DecodeScriptItem(v).Success? && DecodeScriptItem(v).value.ScriptFolder?
        ==> DecodeScriptItems(OptionalArray(v.fields, "folderScriptNames").value.value) == Success(DecodeScriptItem(v).value.scripts)
  {
  }

  /** The object a script item arrives as. */
  function ScriptItemValue(item: ScriptItem): Value
    decreases item, 0
  {
    match item
    case Script(name) => JObj(map["name" := JStr(name)])
    case ScriptFolder(name, scripts) =>
      JObj(map["name" := JStr(name), "folderScriptNames" := JArr(ScriptItemValues(scripts))])
  }

  function ScriptItemValues(items: seq<ScriptItem>): (vs: seq<Value>)
    ensures |vs| == |items|
    decreases items, 1
  {
    if items == [] then [] else [ScriptItemValue(items[0])] + ScriptItemValues(items[1..])
  }

  /** Script trees come back from their objects unchanged, nesting and order included. */
  lemma {:induction false} ScriptItemsRoundTrip(items: seq<ScriptItem>)
    ensures DecodeScriptItems(ScriptItemValues(items)) == Success(items)
    decreases items, 1
  {
    if items != [] {
      var vs := ScriptItemValues(items);
      assert vs[0] == ScriptItemValue(items[0]) && vs[1..] == ScriptItemValues(items[1..]);
      ScriptItemRoundTrip(items[0]);
      ScriptItemsRoundTrip(items[1..]);
      assert DecodeScriptItems(vs) == Success([items[0]] + items[1..]);
      assert items == [items[0]] + items[1..];
    }
  }

  lemma {:induction false} ScriptItemRoundTrip(item: ScriptItem)
    ensures DecodeScriptItem(ScriptItemValue(item)) == Success(item)
    decreases item, 0
  {
    match item
    case Script(name) =>
    case ScriptFolder(name, scripts) =>
      ScriptItemsRoundTrip(scripts);
  }

  /** `LayoutListItem.init(from:)`: a folder exactly when `folderLayoutNames` holds a list;
      a decoded layout belongs to no database yet. */
  function DecodeLayoutItem(v: Value): (r: Decoded<LayoutListItem>)
    ensures r.Success? ==> v.JObj? && "name" in v.fields && v.fields["name"].JStr?
    ensures r.Success? && r.value.LayoutItem? ==> r.value.layout == Layout(v.fields["name"].s, None)
    ensures r.Success? && r.value.Folder? ==> r.value.name == v.fields["name"].s
    ensures r.Success? ==> Name(r.value) == v.fields["name"].s
    ensures r.Success? ==> (r.value.Folder? <==> Optional(v.fields, "folderLayoutNames").Some?)
    decreases v, 1
  {
    var c :- Container(v);
    var name :- RequiredString(c, "name");
    var folder :- OptionalArray(c, "folderLayoutNames");
    if folder.None? then Success(LayoutItem(Layout(name, None)))
    else
      var layouts :- DecodeLayoutItems(folder.value);
      Success(Folder(name, layouts))
  }

  function DecodeLayoutItems(vs: seq<Value>): (r: Decoded<seq<LayoutListItem>>)
    ensures r.Success? ==> |r.value| == |vs|
    ensures r.Success? <==> forall i :: 0 <= i < |vs| ==> DecodeLayoutItem(vs[i]).Success?
    ensures r.Success? ==> forall i :: 0 <= i < |vs| ==> DecodeLayoutItem(vs[i]) == Success(r.value[i])
    decreases vs, 0
  {
    if vs == [] then Success([])
    else
      var head :- DecodeLayoutItem(vs[0]);
      var tail :- DecodeLayoutItems(vs[1..]);
      Success([head] + tail)
  }

  /** An entry decodes exactly when it is an object with a string name whose `folderLayoutNames`,
      if present and not null, is a list that decodes; a folder holds that list's items.
      (Stated apart from `DecodeLayoutItem` itself, whose contract would otherwise unfold the
      whole tree.) */
  lemma DecodeLayoutItemSuccess(v: Value)
    ensures DecodeLayoutItem(v).Success? <==>
              (&& v.JObj? && RequiredString(v.fields, "name").Success?
               && OptionalArray(v.fields, "folderLayoutNames").Success?
               && (|| OptionalArray(v.fields, "folderLayoutNames").value.None?
                   || DecodeLayoutItems(OptionalArray(v.fields, "folderLayoutNames").value.value).Success?))
    ensures DecodeLayoutItem(v).Success? && DecodeLayoutItem(v).value.Folder?
        ==> DecodeLayoutItems(OptionalArray(v.fields, "folderLayoutNames").value.value) == Success(DecodeLayoutItem(v).value.layouts)
  {
  }

  /** Every layout of the tree is unattached, as decoded ones are. */
  predicate Detached(items: seq<LayoutListItem>)
    decreases items, 1
  {
    forall i :: 0 <= i < |items| ==> ItemDetached(items[i])
  }

  predicate ItemDetached(item: LayoutListItem)
    decreases item, 0
  {
    match item
    case LayoutItem(layout) => layout.database.None?
    case Folder(_, layouts) => Detached(layouts)
  }

  function LayoutItemValue(item: LayoutListItem): Value
    decreases item, 0
  {
    match item
    case LayoutItem(layout) => JObj(map["name" := JStr(layout.name)])
    case Folder(name, layouts) =>
      JObj(map["name" := JStr(name), "folderLayoutNames" := JArr(LayoutItemValues(layouts))])
  }

  function LayoutItemValues(items: seq<LayoutListItem>): (vs: seq<Value>)
    ensures |vs| == |items|
    decreases items, 1
  {
    if items == [] then [] else [LayoutItemValue(items[0])] + LayoutItemValues(items[1..])
  }

  /** Unattached layout trees come back from their objects unchanged. */
  lemma {:induction false} LayoutItemsRoundTrip(items: seq<LayoutListItem>)
    requires Detached(items)
    ensures DecodeLayoutItems(LayoutItemValues(items)) == Success(items)
    decreases items, 1
  {
    if items != [] {
      var vs := LayoutItemValues(items);
      assert vs[0] == LayoutItemValue(items[0]) && vs[1..] == LayoutItemValues(items[1..]);
      assert ItemDetached(items[0]);
      assert Detached(items[1..]) by {
        forall i | 0 <= i < |items[1..]|
          ensures ItemDetached(items[1..][i])
        {
          assert items[1..][i] == items[i + 1];
        }
      }
      LayoutItemRoundTrip(items[0]);
      LayoutItemsRoundTrip(items[1..]);
      assert DecodeLayoutItems(vs) == Success([items[0]] + items[1..]);
      assert items == [items[0]] + items[1..];
    }
  }

  lemma {:induction false} LayoutItemRoundTrip(item: LayoutListItem)
    requires ItemDetached(item)
    ensures DecodeLayoutItem(LayoutItemValue(item)) == Success(item)
    decreases item, 0
  {
    match item
    case LayoutItem(layout) =>
    case Folder(name, layouts) =>
      LayoutItemsRoundTrip(layouts);
  }

  /** `ScriptContainer` and `LayoutContainer`: the lists `getScriptNames` and
      `getLayoutNames` deliver. */
  function DecodeScriptContainer(v: Value): (r: Decoded<seq<ScriptItem>>)
    ensures r.Success? <==> && v.JObj? && RequiredArray(v.fields, "scripts").Success?
                            && DecodeScriptItems(v.fields["scripts"].items).Success?
    ensures r.Success? ==> r == DecodeScriptItems(v.fields["scripts"].items)
  {
    var c :- Container(v);
    var items :- RequiredArray(c, "scripts");
    DecodeScriptItems(items)
  }

  function DecodeLayoutContainer(v: Value): (r: Decoded<seq<LayoutListItem>>)
    ensures r.Success? <==> && v.JObj? && RequiredArray(v.fields, "layouts").Success?
                            && DecodeLayoutItems(v.fields["layouts"].items).Success?
    ensures r.Success? ==> r == DecodeLayoutItems(v.fields["layouts"].items)
  {
    var c :- Container(v);
    var items :- RequiredArray(c, "layouts");
    DecodeLayoutItems(items)
  }
}
