# FMData client core, modelled in Dafny

FMData is a Swift client for the FileMaker Data API. This project models its core:

- **The marshalling layer.**
  - The five kinds of `Credentials` and the HTTP headers each one produces.
  - The `Endpoint` table: the path and HTTP method of each of the 19 cases.
  - The four request builders (`createRequest` with a token, anonymous, upload, auth), with their credential guards.
  - The query-parameter and JSON-body encodings of `RecordQuery`, `ScriptQuery`, `SortQuery`, `PortalRequest`, `FindQuery` and `EditRecord`.
  - The decoders of the response objects: `ScriptResponse`, `Record` (ids sent as strings), `RecordResponse`, `CreateResponse`, `EditRecordResponse`, `AccessToken`, database names, and the script and layout trees.
- **The handles.**
  - `Server` is a class whose database set is updated in place. Databases are identified by name, as FMData's `Hashable`/`Comparable` conformance does.
  - `Database` is a class whose credentials and layout list are updated in place.
  - `Layout` is a value that refers to its database.
- **The operations routed through the handles.**
  - `ServerMethods`: product info, database names, session validation.
  - `DatabaseMethods`: login, log out, layout and script names, global fields.
  - `LayoutMethods`: get, create, edit, delete and duplicate records; find; execute a script; upload to a container field; layout metadata.

Each operation is modelled up to the request it hands to the transport, or the error it reports instead. Login also covers how the reply updates the database's credentials.

A JSON document is the `Json.Value` datatype. An object is a `map<string, Value>`. The keyed-decoder rules of Swift's `Codable` are written out in module `Json`:

- `decode` fails on a missing key or a `null` value;
- `decodeIfPresent` maps both of those to `nil`;
- a value of the wrong JSON type is a type mismatch.

The Swift standard library's `Int(String)` and string `<`, and Foundation's UTF-8 and Base64 encoding, are modelled in the modules `Text`, `Utf8` and `Base64`.

Module order:

```
Wrappers → Text → Base64 → Utf8 → Json → Rest → Credentials → Endpoints → RequestObjects
         → RequestBuilder → Handles → ResponseObjects → LayoutMethods
```

`Rest` stands for the interface of the `FMRest` package. It is not modelled beyond the types FMData passes to it: header, query item, HTTP method, API error, config, the server a request is addressed to, body, request and reply.

### Behaviour worth knowing

- **Record ids must be strings.** `recordId` and `modId` are accepted only when sent as JSON strings. A JSON number is a type mismatch (`ResponseObjects.NumericIdRejected`).
- **Portal offsets come before portal limits.** In `RecordQuery.queryParameters` the portal group is the `portal` item, then every portal's `_offset.<name>`, then every portal's `_limit.<name>`.
- **Uploads accept more than tokens.** `createUploadRequest` accepts any credentials except `.invalid`, including Basic, OAuth and Claris ID. Its query is always empty, so the `modId` item that `uploadToContainerField` computes is never sent.
- **The builders never check for a server.** Their server-presence guard is commented out. The builders therefore take the server as an `Option` and build the request even when the database has no server.
- **Builder failures are modelled as results.** The builders are declared `throws`, and callers handle them in two ways. The layout methods (LayoutMethods.swift) and the server methods (ServerMethods.swift) switch over the wrapper the builder call yields. The database methods (DatabaseMethods.swift) call the builders with `try` inside `do … catch` and turn a thrown error into a failed publisher. `createRequest(server:endpoint:)` returns its request directly. The model renders both as a `Result`; the anonymous builder always succeeds.

## Model

| member | source | states |
|---|---|---|
| Text.DigitChar | Sources/FMData/RequestObjects.swift:24-28 | a digit value below ten maps to a decimal digit character |
| Text.NatDigits | Sources/FMData/RequestObjects.swift:24-28 | the decimal rendering of a natural number is non-empty, all digits, and has no leading zero unless it is "0" |
| Text.Decimal | Sources/FMData/RequestObjects.swift:24-28 | `String(Int)` is non-empty, starts with '-' exactly for a negative number, and is otherwise all digits |
| Text.ParseInt | Sources/FMData/ResponseObjects.swift:51-58 | `Int(String)` accepts only an optional sign followed by digits |
| Text.DigitsValueOfNatDigits | Sources/FMData/RequestObjects.swift:24-28 | reading back the digits of n gives n |
| Text.ParseDecimal | Sources/FMData/RequestObjects.swift:24-28 | `Int(String(n)) == n` for every 64-bit n, so an Int-built query round-trips |
| Text.ParseRejectsDigitFree | Sources/FMData/ResponseObjects.swift:51-58 | a string with no digit never parses as an id |
| Text.Join | Sources/FMData/RequestObjects.swift:58-62 | `joined(separator:)` of no parts is empty; otherwise its length is the parts plus the separators, and it starts with the first part |
| Text.JoinAppend | Sources/FMData/RequestObjects.swift:60 | joining one more part appends the separator and that part to the joined rest |
| Text.LessIrreflexive | Sources/FMData/Database.swift:47-49 | no name is `<` itself |
| Text.LessTransitive | Sources/FMData/Database.swift:47-49 | string `<` is transitive |
| Text.LessTotal | Sources/FMData/Database.swift:47-49 | of two different names one is `<` the other |
| Text.Less | Sources/FMData/Database.swift:47-49 | string `<` never relates a string to itself |
| Base64.IndexOfChar | Sources/FMData/Credentials.swift:14-21 | the decoding table inverts the Base64 alphabet |
| Base64.Encode | Sources/FMData/Credentials.swift:14-21 | `base64EncodedString` has four characters per started three-byte block |
| Base64.FullBlockRoundTrip | Sources/FMData/Credentials.swift:14-21 | a full three-byte block decodes back from its four characters |
| Base64.TwoByteBlockRoundTrip | Sources/FMData/Credentials.swift:14-21 | a final two-byte block decodes back from its padded group |
| Base64.OneByteBlockRoundTrip | Sources/FMData/Credentials.swift:14-21 | a final one-byte block decodes back from its padded group |
| Base64.DecodeFullGroup | Sources/FMData/Credentials.swift:14-21 | decoding a full group followed by more text gives the group's three bytes followed by the rest's bytes |
| Base64.DecodeLastGroup | Sources/FMData/Credentials.swift:14-21 | a last group decodes to its own bytes |
| Base64.DecodeEncodeOne | Sources/FMData/Credentials.swift:14-21 | the encoding of one trailing byte decodes back |
| Base64.DecodeEncodeTwo | Sources/FMData/Credentials.swift:14-21 | the encoding of two trailing bytes decodes back |
| Base64.EncodeFullBlock | Sources/FMData/Credentials.swift:14-21 | the encoding of three or more bytes is the first block's four characters followed by the encoding of the rest |
| Base64.DecodeFullBlock | Sources/FMData/Credentials.swift:14-21 | a full block followed by text that decodes to the remaining bytes decodes to all the bytes |
| Base64.DecodeEncode | Sources/FMData/Credentials.swift:14-21 | every byte sequence is recovered from its Base64 encoding |
| Utf8.EncodeChar | Sources/FMData/Credentials.swift:14-21 | each scalar encodes to one to four bytes |
| Utf8.EncodeCharShape | Sources/FMData/Credentials.swift:14-21 | each scalar's encoding is a well-formed UTF-8 sequence whose value is the scalar |
| Utf8.TwoByteShape | Sources/FMData/Credentials.swift:14-21 | a scalar of two-byte range gets a 110xxxxx lead byte, and lead and continuation together rebuild it |
| Utf8.ThreeByteShape | Sources/FMData/Credentials.swift:14-21 | a scalar of three-byte range gets a 1110xxxx lead byte, and the three bytes rebuild it |
| Utf8.FourByteShape | Sources/FMData/Credentials.swift:14-21 | a scalar of four-byte range gets a 11110xxx lead byte, and the four bytes rebuild it |
| Utf8.DecodeCons | Sources/FMData/Credentials.swift:14-21 | decoding one scalar's bytes followed by more bytes decodes the rest after it |
| Utf8.DecodeEncode | Sources/FMData/Credentials.swift:14-21 | every string is recovered from `data(using: .utf8)` |
| Utf8.EncodeAscii | Sources/FMData/Credentials.swift:14-21 | an ASCII string encodes byte for byte to its own codes |
| Json.Container | Sources/FMData/ResponseObjects.swift:44-45 | a keyed container exists exactly for a JSON object, and holds its fields |
| Json.Required | Sources/FMData/ResponseObjects.swift:46 | `decode` succeeds exactly when the key is present and not null |
| Json.Optional | Sources/FMData/ResponseObjects.swift:47-48 | `decodeIfPresent` gives nil exactly for an absent or null key |
| Json.RequiredString | Sources/FMData/ResponseObjects.swift:49-50 | a String decode succeeds exactly on a string; an absent key is KeyNotFound and a non-null other value is TypeMismatch |
| Json.OptionalString | Sources/FMData/ResponseObjects.swift:47-48 | an optional String is nil when absent or null, the string when a string, and fails exactly on another value |
| Json.RequiredArray | Sources/FMData/ResponseObjects.swift:69-74 | an array decode succeeds exactly on a JSON array, giving its items |
| Json.OptionalArray | Sources/FMData/ResponseObjects.swift:48 | an optional array is nil when absent or null, and fails exactly on a non-array |
| Json.DecodeEach | Sources/FMData/ResponseObjects.swift:69-74 | decoding an array element by element succeeds exactly when every element decodes, keeps the order and length, and otherwise reports the first failing element's error |
| Credentials.Headers | Sources/FMData/Credentials.swift:35-55 | only `.invalid` sends no header; exactly Claris ID, Basic and token credentials send an `Authorization` header |
| Credentials.HeadersDetermineCredentials | Sources/FMData/Credentials.swift:35-55 | the headers determine the credentials: reading them back gives the same case and payload |
| Credentials.AuthorizationHeader | Sources/FMData/Credentials.swift:35-55 | the Authorization header is "FMID id", "Basic b64" or "Bearer token"; OAuth and invalid credentials send none |
| Credentials.UserPassword | Sources/FMData/Credentials.swift:14-21 | user and password give Basic credentials whose payload Base64-decodes to the UTF-8 bytes of "user:password" and then back to that string |
| Credentials.OAuthId | Sources/FMData/Credentials.swift:23-25 | gives OAuth credentials holding the request id and the identifier |
| Credentials.ClarisIdToken | Sources/FMData/Credentials.swift:27-29 | gives Claris ID credentials holding the FMID |
| Credentials.SessionToken | Sources/FMData/Credentials.swift:31-33 | gives token credentials holding the session token |
| Credentials.DataSourceObject | Sources/FMData/Credentials.swift:80-91 | a data source encodes "database", plus either "username"/"password" or "oAuthRequestId"/"oAuthIdentifier", and nothing else |
| Credentials.EncodeDataSource | Sources/FMData/Credentials.swift:80-91 | the step-by-step encoder writes exactly the data-source object |
| Credentials.DataSourceBody | Sources/FMData/Credentials.swift:58-60 | the login body has the single key "fmDataSource", an array with one object per data source in order |
| Endpoints.Path | Sources/FMData/Endpoints.swift:28-71 | every endpoint's path is absolute |
| Endpoints.Method | Sources/FMData/Endpoints.swift:73-116 | PATCH exactly for editRecord and setGlobalFields, DELETE exactly for deAuth and deleteRecord, POST exactly for auth, createRecord, duplicateRecord, findRecords and uploadToContainer, GET for the rest |
| Endpoints.LayoutPathPrefix | Sources/FMData/Endpoints.swift:28-71 | every layout-scoped path starts with "/databases/db/layouts/layout", and hence with the database prefix |
| Endpoints.DatabasePathPrefix | Sources/FMData/Endpoints.swift:28-71 | every database-scoped path starts with "/databases/db"; productInfo, databases and validateSession have fixed paths |
| Endpoints.SingleRecordOperations | Sources/FMData/Endpoints.swift:28-116 | get, edit, delete and duplicate of one record share one record path, and use GET, PATCH, DELETE and POST |
| Endpoints.RecordCollectionOperations | Sources/FMData/Endpoints.swift:28-116 | the records collection is read with GET and created into with POST on the same path |
| Endpoints.UploadPath | Sources/FMData/Endpoints.swift:65-66 | an upload targets "containers/field/repetition" under the record with POST; a missing repetition is "1" |
| Endpoints.SessionPaths | Sources/FMData/Endpoints.swift:28-116 | login POSTs to "/databases/db/sessions"; logout DELETEs "/databases/db/sessions/token" |
| Endpoints.MethodTable | Sources/FMData/Endpoints.swift:73-116 | for each HTTP method, exactly the endpoint cases that use it |
| Endpoints.GlobalsAndFind | Sources/FMData/Endpoints.swift:28-116 | globals are PATCHed at "/databases/db/globals/" (trailing slash); find POSTs to ".../layouts/layout/_find" |
| RequestBuilder.Make | Sources/FMData/RequestBuilder.swift:35-39 | an assembled request carries the endpoint itself and its method, the credentials' headers, the target server, and the given query and body |
| RequestBuilder.CreateBaseRequest | Sources/FMData/RequestBuilder.swift:26-41 | succeeds exactly for token credentials, otherwise "Credentials do not contain a token"; with a body the query is dropped |
| RequestBuilder.CreateAnonymousRequest | Sources/FMData/RequestBuilder.swift:22-24 | always succeeds, sending no headers, query or body |
| RequestBuilder.CreateUploadRequest | Sources/FMData/RequestBuilder.swift:43-52 | succeeds exactly for non-invalid credentials; sends the file and no query |
| RequestBuilder.CreateAuthRequest | Sources/FMData/RequestBuilder.swift:54-72 | succeeds exactly for Basic, OAuth and Claris ID credentials; refuses a token and invalid credentials with their own messages; sends the body and no query |
| RequestBuilder.AcceptanceTable | Sources/FMData/RequestBuilder.swift:26-72 | which credentials each builder accepts, and the error each reports |
| RequestBuilder.Build | Sources/FMData/RequestBuilder.swift:6-72 | every builder succeeds exactly when its kind accepts the credentials, otherwise refuses with that kind's refusal; a built request carries the endpoint, its method, the target server and the credentials' headers (none for anonymous), and never both a body and a query |
| RequestBuilder.BuiltAuthenticates | Sources/FMData/RequestBuilder.swift:6-72 | the headers of every built request read back as the credentials given, and an anonymous request reads back as no credentials |
| RequestObjects.OfRank | Sources/FMData/RequestObjects.swift:39-46 | selecting the items of one coding-key rank keeps only items of that rank |
| RequestObjects.OfRankAppend | Sources/FMData/RequestObjects.swift:80-82 | selection by rank distributes over concatenation |
| RequestObjects.OfRankUniform | Sources/FMData/RequestObjects.swift:80-82 | selection from a group of one rank gives all or nothing |
| RequestObjects.RankedAppend | Sources/FMData/RequestObjects.swift:80-82 | joining groups in rank order keeps the query in rank order |
| RequestObjects.PrefixRank | Sources/FMData/RequestObjects.swift:319-327 | portal offsets and limits rank after "portal" and before "_offset" |
| RequestObjects.Single | Sources/FMData/RequestObjects.swift:54-56 | an optional value gives no item or exactly one item |
| RequestObjects.ScriptQuery.Values | Sources/FMData/RequestObjects.swift:226-242 | a script query has the six script fields in coding-key order |
| RequestObjects.ScriptQuery.QueryParameters | Sources/FMData/RequestObjects.swift:244-268 | at most six items, each under a script key and each with a value |
| RequestObjects.PresentSent | Sources/FMData/RequestObjects.swift:244-268 | `compactMap` over coding keys leaves at most one item per key, each under one of the keys and with a value |
| RequestObjects.NotPortalKey | Sources/FMData/RequestObjects.swift:319-327 | a key not starting with "_" is no portal offset or limit key |
| RequestObjects.ScriptKeyRanks | Sources/FMData/RequestObjects.swift:226-242 | the six script keys have ranks 0 to 5 in order |
| RequestObjects.LiteralRanks | Sources/FMData/RequestObjects.swift:39-46 | "layout.response", "portal", "_offset", "_limit" and "_sort" rank 6, 7, 10, 11 and 12 |
| RequestObjects.PresentRanked | Sources/FMData/RequestObjects.swift:244-268 | the present items of consecutively ranked keys are in rank order |
| RequestObjects.PresentOfRank | Sources/FMData/RequestObjects.swift:244-268 | each rank selects at most the one present item of that key |
| RequestObjects.ScriptQueryRanked | Sources/FMData/RequestObjects.swift:244-268 | script query parameters come in coding-key order, ranks 0-5 |
| RequestObjects.ScriptQueryOfRank | Sources/FMData/RequestObjects.swift:244-268 | each script field contributes exactly its own item when present |
| RequestObjects.ScriptQueryRoundTrip | Sources/FMData/RequestObjects.swift:244-268 | the script query is recovered from its query parameters |
| RequestObjects.FieldOfSingle | Sources/FMData/RequestObjects.swift:244-268 | the value read back at a rank is the one item placed there |
| RequestObjects.SortOrder.Name | Sources/FMData/RequestObjects.swift:271-286 | the sort order's raw value is "ascend" exactly for ascending, else "descend" |
| RequestObjects.Ascending | Sources/FMData/RequestObjects.swift:271-286 | a sort built from a field name alone is ascending on that field |
| RequestObjects.SortValue | Sources/FMData/RequestObjects.swift:73-78 | the "_sort" value is bracketed "[{...}]": "[{}]" for no sort, one entry for one sort |
| RequestObjects.SortValueAppend | Sources/FMData/RequestObjects.swift:74-78 | one more sort adds `},{` and its `"fieldName":…,"sortOrder":…` entry just before the closing `}]` |
| RequestObjects.PortalRequest.QueryParameterLimit | Sources/FMData/RequestObjects.swift:319-327 | a limit item "_limit.name" exists exactly when a limit is set |
| RequestObjects.PortalRequest.QueryParameterOffset | Sources/FMData/RequestObjects.swift:319-327 | an offset item "_offset.name" exists exactly when an offset is set |
| RequestObjects.DecimalIfPresent | Sources/FMData/RequestObjects.swift:299-311 | an optional Int becomes an optional string that parses back to it |
| RequestObjects.PortalRequestOfInts | Sources/FMData/RequestObjects.swift:299-311 | the Int initialiser keeps the name, and its limit/offset strings are present exactly when given and parse back to the Ints |
| RequestObjects.PortalOffsets | Sources/FMData/RequestObjects.swift:62 | the collected offset items all have portal-offset rank |
| RequestObjects.PortalLimits | Sources/FMData/RequestObjects.swift:63 | the collected limit items all have portal-limit rank |
| RequestObjects.PortalOffsetsAppend | Sources/FMData/RequestObjects.swift:62 | one more portal appends its offset item, when it has one, to the offsets of the others |
| RequestObjects.PortalLimitsAppend | Sources/FMData/RequestObjects.swift:63 | one more portal appends its limit item, when it has one, to the limits of the others |
| RequestObjects.PortalOffsetsMembers | Sources/FMData/RequestObjects.swift:62 | an item is among the offsets exactly when some portal has an offset and the item is its `_offset.<name>` item |
| RequestObjects.PortalLimitsMembers | Sources/FMData/RequestObjects.swift:63 | an item is among the limits exactly when some portal has a limit and the item is its `_limit.<name>` item |
| RequestObjects.PortalNames | Sources/FMData/RequestObjects.swift:60 | the portal names are listed in request order |
| RequestObjects.PortalList | Sources/FMData/RequestObjects.swift:60-61 | the "portal" value is a quoted list: `[""]` for none, `["name"]` for one |
| RequestObjects.PortalGroup | Sources/FMData/RequestObjects.swift:58-66 | the portal group is empty exactly when no portals are given; with portals it holds at least the `portal` item |
| RequestObjects.PortalListAppend | Sources/FMData/RequestObjects.swift:60-61 | one more portal adds `","` and its name just before the closing `"]` |
| RequestObjects.RecordQueryOfInts | Sources/FMData/RequestObjects.swift:24-28 | the Int initialiser keeps every other field and its offset/limit strings parse back to the Ints |
| RequestObjects.RecordQuery.QueryParameters | Sources/FMData/RequestObjects.swift:48-84 | no item is sent exactly when no field is set and the script sends none |
| RequestObjects.RecordQueryValued | Sources/FMData/RequestObjects.swift:48-84 | the `compactMap` leaves no record query item without a value |
| RequestObjects.PortalOffsetsValued | Sources/FMData/RequestObjects.swift:62 | every collected offset item carries a value |
| RequestObjects.PortalLimitsValued | Sources/FMData/RequestObjects.swift:63 | every collected limit item carries a value |
| RequestObjects.RecordQueryRanked | Sources/FMData/RequestObjects.swift:48-84 | record query parameters come in coding-key order |
| RequestObjects.GroupsRanked | Sources/FMData/RequestObjects.swift:80-82 | the six groups, each within its ranks, concatenate in rank order |
| RequestObjects.PortalGroupRanked | Sources/FMData/RequestObjects.swift:58-66 | the portal group is the portal list, then the offsets, then the limits |
| RequestObjects.RecordQueryOfRank | Sources/FMData/RequestObjects.swift:48-84 | the items of each rank are exactly that key's group, so each field can be read back separately |
| RequestObjects.SingleOfRank | Sources/FMData/RequestObjects.swift:54-56 | a single item is selected exactly at its own rank |
| RequestObjects.SplitByGroup | Sources/FMData/RequestObjects.swift:80-82 | selection by rank splits over the six groups |
| RequestObjects.AssembleGroup | Sources/FMData/RequestObjects.swift:48-84 | the group selections put together give the group of that rank |
| RequestObjects.ScriptGroupOfRank | Sources/FMData/RequestObjects.swift:50-53 | the nested script group holds exactly the script ranks |
| RequestObjects.GroupsOfRank | Sources/FMData/RequestObjects.swift:80-82 | selection over six concatenated groups is the concatenation of the selections |
| RequestObjects.PortalGroupOfRank | Sources/FMData/RequestObjects.swift:58-66 | the portal group holds the list at rank 7, the offsets at 8 and the limits at 9 |
| RequestObjects.RecordQueryScript | Sources/FMData/RequestObjects.swift:48-84 | the script query inside a record query is recovered from its parameters |
| RequestObjects.UniformRanked | Sources/FMData/RequestObjects.swift:80-82 | a group of one rank is in rank order |
| RequestObjects.SortObject | Sources/FMData/RequestObjects.swift:271-286 | a sort encodes exactly "fieldName" and "sortOrder" |
| RequestObjects.SortArray | Sources/FMData/RequestObjects.swift:119-142 | the sort array holds one sort object per sort in order |
| RequestObjects.RequestObject | Sources/FMData/RequestObjects.swift:119-142 | a find request encodes each criterion as a string under its field name, and nothing else |
| RequestObjects.QueryArray | Sources/FMData/RequestObjects.swift:119-142 | "query" holds one request object per request in order |
| RequestObjects.NameArray | Sources/FMData/RequestObjects.swift:119-142 | the find "portal" array lists the portal names in order |
| RequestObjects.PutLookup | Sources/FMData/RequestObjects.swift:122-125 | `encodeIfPresent` adds the key exactly when the value is present, with that value, and keeps every other key |
| RequestObjects.StrValue | Sources/FMData/RequestObjects.swift:119-142 | an optional string becomes an optional JSON string |
| RequestObjects.NumValue | Sources/FMData/RequestObjects.swift:119-142 | an optional Int becomes an optional JSON number, as the find body's offset and limit are written |
| RequestObjects.WithScriptKey | Sources/FMData/RequestObjects.swift:119-142 | after the script keys are written, each of the six keys holds the script's value exactly when it is present |
| RequestObjects.PutAllAt | Sources/FMData/RequestObjects.swift:136-141 | after a run of `encodeIfPresent` writes, a key written once holds its value when present and is otherwise as before |
| RequestObjects.PutAllKeeps | Sources/FMData/RequestObjects.swift:136-141 | a run of `encodeIfPresent` writes leaves every key it does not write as it was |
| RequestObjects.PutAllKeySet | Sources/FMData/RequestObjects.swift:136-141 | a run of `encodeIfPresent` writes adds no key beyond the ones it writes |
| RequestObjects.WithScriptKeeps | Sources/FMData/RequestObjects.swift:119-142 | writing the script keys leaves every other key as it was |
| RequestObjects.WithScriptKeySet | Sources/FMData/RequestObjects.swift:119-142 | writing the script keys adds no key other than the six script keys |
| RequestObjects.WithScript | Sources/FMData/RequestObjects.swift:136-141 | writing the script keys removes no key |
| RequestObjects.PrefixedKeysDiffer | Sources/FMData/RequestObjects.swift:119-142 | "limit.a" and "offset.b" keys are distinct per table and never collide with each other |
| RequestObjects.WithPortalsLookup | Sources/FMData/RequestObjects.swift:119-142 | after the portal keys are written, "limit.t"/"offset.t" hold the last value given for table t |
| RequestObjects.WithPortalsKeeps | Sources/FMData/RequestObjects.swift:119-142 | writing the portal keys leaves every other key as it was |
| RequestObjects.WithPortalsKeySet | Sources/FMData/RequestObjects.swift:119-142 | writing the portal keys adds no key other than some portal's "limit.<table>" or "offset.<table>" |
| RequestObjects.WithPortals | Sources/FMData/RequestObjects.swift:128-133 | writing the portal keys removes no key |
| RequestObjects.WriteIfPresent | Sources/FMData/RequestObjects.swift:119-142 | the imperative `encodeIfPresent` is the functional Put |
| RequestObjects.WriteScript | Sources/FMData/RequestObjects.swift:119-142 | the imperative script write is the functional one |
| RequestObjects.WriteFindHead | Sources/FMData/RequestObjects.swift:120-125 | writing query, sort, offset, limit and layout.response, each optional one only when set, yields the head of the find object |
| RequestObjects.WritePortals | Sources/FMData/RequestObjects.swift:128-133 | writing the portals one after another yields every portal's limit and offset keys, later portals overwriting earlier ones |
| RequestObjects.EncodeFindQuery | Sources/FMData/RequestObjects.swift:119-142 | the step-by-step find encoder produces the find query object |
| RequestObjects.FixedKey | Sources/FMData/RequestObjects.swift:119-142 | the fixed find/edit keys are neither portal nor script keys |
| RequestObjects.FindQueryKeys | Sources/FMData/RequestObjects.swift:119-142 | "query" is always sent; sort, offset, limit, layout.response and portal are sent exactly when set, with their values |
| RequestObjects.FindQueryPortalKeys | Sources/FMData/RequestObjects.swift:119-142 | a portal key of the find body exists exactly when some portal sets it, holding the last such value |
| RequestObjects.PortalKeyNotFixed | Sources/FMData/RequestObjects.swift:119-142 | portal keys never clash with fixed or script keys |
| RequestObjects.FindQueryScriptKeys | Sources/FMData/RequestObjects.swift:119-142 | a script key of the find body exists exactly when the script sets it, holding its value |
| RequestObjects.FindQueryKeySet | Sources/FMData/RequestObjects.swift:119-142 | the find body has no key other than query, sort, offset, limit, layout.response, portal, the script keys and the portal keys of its portals |
| RequestObjects.FindQueryObject | Sources/FMData/RequestObjects.swift:119-142 | the find body always has "query" and keeps every key of its head |
| RequestObjects.ForCreate | Sources/FMData/RequestObjects.swift:162-168 | a record to create carries no modId and keeps the field, portal, script and layout-response data |
| RequestObjects.ForEdit | Sources/FMData/RequestObjects.swift:170-204 | a record to edit keeps all its data, including the modId |
| RequestObjects.PortalDataObject | Sources/FMData/RequestObjects.swift:206-220 | each portal's rows are encoded under its name |
| RequestObjects.EncodeEditRecord | Sources/FMData/RequestObjects.swift:206-220 | the step-by-step edit encoder produces the edit record object |
| RequestObjects.EditRecordKeys | Sources/FMData/RequestObjects.swift:206-220 | "fieldData" is always sent; portalData, modId and layout.response are sent exactly when set |
| RequestObjects.EditRecordScriptKeys | Sources/FMData/RequestObjects.swift:206-220 | the edit body carries each script key exactly when the script sets it |
| RequestObjects.EditRecordKeySet | Sources/FMData/RequestObjects.swift:206-220 | the edit body has no key other than fieldData, portalData, modId, layout.response and the script keys |
| RequestObjects.EditRecordObject | Sources/FMData/RequestObjects.swift:206-220 | the edit body always has "fieldData", and has "modId" and "layout.response" when they are set |
| RequestObjects.CreateSendsNoModId | Sources/FMData/RequestObjects.swift:162-168 | the body of a record to create has no "modId" |
| Handles.DatabaseOrder | Sources/FMData/Database.swift:47-57 | databases with the same name are equal, hash alike and do not precede each other; of two differently named databases exactly one precedes the other; `<` is transitive |
| Handles.Insert | Sources/FMData/Server.swift:18-22 | `Set.insert` keeps the old members, adds the new database only when no database of that name is present, and keeps names unique |
| Handles.Server.constructor | Sources/FMData/Server.swift:12-16 | a new server holds the host, databases and config it was given; a set given to it has one database per name, and it keeps that |
| Handles.Server.View | Sources/FMData/Server.swift:12-16 | the server a request is addressed to carries this server's host and config |
| Handles.Server.AddDatabase | Sources/FMData/Server.swift:18-22 | gives a fresh database of that name attached to this server, with invalid credentials and no layouts or scripts, inserts it into the set, and keeps one database per name |
| Handles.Server.GetProductInfo | Sources/FMData/ServerMethods.swift:8-22 | always builds an anonymous GET "/productInfo" to this server |
| Handles.Server.GetDatabaseNames | Sources/FMData/ServerMethods.swift:24-38 | GET "/databases" succeeds exactly for Claris ID, Basic and OAuth credentials, sending their headers; token and invalid credentials are refused |
| Handles.Server.ValidateSession | Sources/FMData/ServerMethods.swift:40-52 | GET "/validateSession" with a Bearer header, refused without a token |
| Handles.LoginRequest | Sources/FMData/DatabaseMethods.swift:7-35 | a database without a server reports "no attached server"; otherwise the auth builder's verdict, and on success a POST to the sessions path with the credentials' headers and the data-source body |
| Handles.LoginOutcome | Sources/FMData/DatabaseMethods.swift:7-35 | login gives token credentials exactly when there is a server, the credentials are accepted and the reply has a token (authToken first); otherwise the first error in source order |
| Handles.ReplyToken | Sources/FMData/DatabaseMethods.swift:19 | the reply's `authToken` is taken first; there is no token exactly on a transport failure, or when neither the header nor the body carries one |
| Handles.LoginBody | Sources/FMData/DatabaseMethods.swift:14 | a login body is sent exactly with data-source credentials, as a JSON object holding only "fmDataSource" |
| Handles.Database.constructor | Sources/FMData/Database.swift:15-21 | a new database holds the name, server and credentials it was given, with empty lists by default |
| Handles.Database.AddLayout | Sources/FMData/Database.swift:23-28 | appends a layout of that name attached to this database and returns it |
| Handles.Database.ConnectLayouts | Sources/FMData/Database.swift:30-39 | keeps the shape and names of the layout tree and attaches every layout to this database |
| Handles.Database.ConnectItem | Sources/FMData/Database.swift:30-39 | one item keeps its shape and its name and is attached to this database |
| Handles.Name | Sources/FMData/ResponseObjects.swift:283-290 | an entry's name is the layout's or the folder's, the name its outline keeps |
| Handles.Database.Login | Sources/FMData/DatabaseMethods.swift:7-35 | the result is the login outcome; the credentials become the session token on success and are unchanged otherwise |
| Handles.Database.LogOut | Sources/FMData/DatabaseMethods.swift:37-56 | non-token credentials are refused first, then a missing server; otherwise DELETE "/databases/name/sessions/token" with the Bearer header |
| Handles.Database.GetLayoutNames | Sources/FMData/DatabaseMethods.swift:58-74 | "no attached server" without a server; otherwise GET "/databases/name/layouts" with a token |
| Handles.Database.GetScriptNames | Sources/FMData/DatabaseMethods.swift:76-92 | "no attached server" without a server; otherwise GET "/databases/name/scripts" with a token |
| Handles.Database.SetGlobalFields | Sources/FMData/DatabaseMethods.swift:95-110 | "no attached server" without a server; otherwise PATCH "/databases/name/globals/" with the fields as JSON strings, with a token |
| Handles.ConnectedByShape | Sources/FMData/Database.swift:30-39 | two connected layout trees of the same shape are equal |
| Handles.ItemConnectedByShape | Sources/FMData/Database.swift:30-39 | two connected items of the same shape are equal |
| Handles.ConnectIdempotent | Sources/FMData/Database.swift:30-39 | connecting twice is connecting once, and an already-connected list is unchanged |
| ResponseObjects.DecodeScriptResponse | Sources/FMData/ResponseObjects.swift:5-21 | decodes exactly the objects whose six script fields are absent, null or strings, each read as present or nil |
| ResponseObjects.ScriptFieldRead | Sources/FMData/ResponseObjects.swift:5-21 | each of the six script fields reads back, as an optional string, from an object it was written into |
| ResponseObjects.ScriptResponseRoundTrip | Sources/FMData/ResponseObjects.swift:5-21 | a script response is recovered from its encoding, whatever other keys the object has |
| ResponseObjects.ParseId | Sources/FMData/ResponseObjects.swift:51-58 | an id string that `Int(String)` rejects fails as data corrupted with the source's message; otherwise gives the parsed Int |
| ResponseObjects.DecodeRecord | Sources/FMData/ResponseObjects.swift:44-61 | succeeds exactly when fieldData is present, the optional parts are well-typed and both ids are strings that parse; the record holds those values |
| ResponseObjects.RecordIdReportedFirst | Sources/FMData/ResponseObjects.swift:51-58 | a bad recordId is reported before a bad modId |
| ResponseObjects.NumericIdRejected | Sources/FMData/ResponseObjects.swift:49 | a recordId sent as a JSON number is a type mismatch |
| ResponseObjects.RecordRoundTrip | Sources/FMData/ResponseObjects.swift:44-61 | a record is recovered from its JSON object |
| ResponseObjects.DecodeRecords | Sources/FMData/ResponseObjects.swift:69-74 | an array of records decodes exactly when every element does, record by record; otherwise it reports the error of the first element that fails |
| ResponseObjects.DecodeRecordResponse | Sources/FMData/ResponseObjects.swift:69-74 | needs a "data" array of records, a dataInfo and a readable script response |
| ResponseObjects.RecordArray | Sources/FMData/ResponseObjects.swift:69-74 | one JSON object per record in order |
| ResponseObjects.RecordsRoundTrip | Sources/FMData/ResponseObjects.swift:69-74 | a record list is recovered from its array |
| ResponseObjects.RecordResponseRoundTrip | Sources/FMData/ResponseObjects.swift:69-74 | a record response is recovered from its JSON object |
| ResponseObjects.DecodeCreateResponse | Sources/FMData/ResponseObjects.swift:98-124 | decodes exactly when both ids parse and the script response is readable; a bad recordId is reported first |
| ResponseObjects.CreateResponseRoundTrip | Sources/FMData/ResponseObjects.swift:98-124 | a create response is recovered from its JSON object |
| ResponseObjects.DecodeCreatedPortalRecordInfo | Sources/FMData/ResponseObjects.swift:136-163 | needs a tableName and parsing ids, and holds them |
| ResponseObjects.DecodeEditRecordResponse | Sources/FMData/ResponseObjects.swift:165-175 | decodes exactly when the object's modId is an integer string, the portal record info is absent, null or decodable, and the script fields are readable; a modId that does not parse is rejected; the portal record info is nil exactly when absent or null, and otherwise the decoded info |
| ResponseObjects.PortalInfoRoundTrip | Sources/FMData/ResponseObjects.swift:136-163 | the info of a new portal row is recovered from its JSON object, ids included |
| ResponseObjects.EditRecordObjectFields | Sources/FMData/ResponseObjects.swift:166-174 | an edit response's object holds its modId in decimal, its portal record info exactly when there is one, and its script fields |
| ResponseObjects.EditRecordResponseRoundTrip | Sources/FMData/ResponseObjects.swift:126-175 | an edit response is recovered from its JSON object, both with portal record info and with the key absent |
| ResponseObjects.NullPortalInfoIsNil | Sources/FMData/ResponseObjects.swift:173 | a null portal record info decodes as nil |
| ResponseObjects.DecodeAccessToken | Sources/FMData/ResponseObjects.swift:211-213 | the token is optional, read as present or nil |
| ResponseObjects.DecodeDatabaseNames | Sources/FMData/ResponseObjects.swift:205-207 | decodes exactly when every entry has a string "name", giving the names in order |
| ResponseObjects.DecodeDatabaseListResponse | Sources/FMData/ResponseObjects.swift:201-209 | the reply decodes exactly when it is an object whose "databases" array decodes as names, giving those names; a missing or mistyped array is reported as such |
| ResponseObjects.DatabaseListRoundTrip | Sources/FMData/ResponseObjects.swift:201-209 | any list of database names is recovered, in order, from its reply |
| ResponseObjects.DecodeScriptItem | Sources/FMData/ResponseObjects.swift:221-246 | a decoded entry carries the object's "name", and is a folder exactly when "folderScriptNames" is present and not null |
| ResponseObjects.DecodeScriptItemSuccess | Sources/FMData/ResponseObjects.swift:221-246 | an entry decodes exactly when it is an object with a string "name" and an absent or null "folderScriptNames", or one whose "folderScriptNames" list decodes; a folder holds that list's items |
| ResponseObjects.DecodeScriptItems | Sources/FMData/ResponseObjects.swift:221-246 | a script list decodes exactly when every element does, giving each element's item in order |
| ResponseObjects.ScriptItemValues | Sources/FMData/ResponseObjects.swift:221-246 | one JSON value per script item |
| ResponseObjects.ScriptItemsRoundTrip | Sources/FMData/ResponseObjects.swift:221-246 | a script tree is recovered from its JSON |
| ResponseObjects.ScriptItemRoundTrip | Sources/FMData/ResponseObjects.swift:221-246 | a script item is recovered from its JSON |
| ResponseObjects.DecodeLayoutItem | Sources/FMData/ResponseObjects.swift:265-290 | a decoded entry's name is the object's "name", a decoded layout has no database, and the entry is a folder exactly when "folderLayoutNames" is present and not null |
| ResponseObjects.DecodeLayoutItemSuccess | Sources/FMData/ResponseObjects.swift:265-290 | an entry decodes exactly when it is an object with a string "name" and an absent or null "folderLayoutNames", or one whose "folderLayoutNames" list decodes; a folder holds that list's items |
| ResponseObjects.DecodeLayoutItems | Sources/FMData/ResponseObjects.swift:265-290 | a layout list decodes exactly when every element does, giving each element's item in order |
| ResponseObjects.LayoutItemValues | Sources/FMData/ResponseObjects.swift:265-290 | one JSON value per layout item |
| ResponseObjects.LayoutItemsRoundTrip | Sources/FMData/ResponseObjects.swift:265-290 | a layout tree with no database attached is recovered from its JSON |
| ResponseObjects.LayoutItemRoundTrip | Sources/FMData/ResponseObjects.swift:265-290 | a layout item with no database attached is recovered from its JSON |
| ResponseObjects.DecodeScriptContainer | Sources/FMData/ResponseObjects.swift:215-217 | the script names reply decodes exactly when it holds a "scripts" array of decodable script items, giving those items |
| ResponseObjects.DecodeLayoutContainer | Sources/FMData/ResponseObjects.swift:259-261 | the layout names reply decodes exactly when it holds a "layouts" array of decodable layout items, giving those items |
| LayoutMethods.GetRecords | Sources/FMData/LayoutMethods.swift:9-26 | no database gives "No database associated with layout"; otherwise a token GET on the records path with the record query's parameters |
| LayoutMethods.CreateRecord | Sources/FMData/LayoutMethods.swift:28-44 | a token POST on the records path with the encoded record as body |
| LayoutMethods.GetRecordById | Sources/FMData/LayoutMethods.swift:46-61 | a token GET on the record's path with the record query's parameters |
| LayoutMethods.EditRecord | Sources/FMData/LayoutMethods.swift:63-79 | as written: PATCH on the record's path through the auth builder, so accepted only without a token |
| LayoutMethods.EditRecordIntended | Sources/FMData/LayoutMethods.swift:63-79 | PATCH on the record's path with a token, like the other record operations |
| LayoutMethods.EditRefusedWithSession | Sources/FMData/LayoutMethods.swift:63-79 | with a session token the written edit is refused as "Already authenticated with token", while a read and the intended edit are built |
| LayoutMethods.EditLikeRead | Sources/FMData/LayoutMethods.swift:46-79 | the intended edit is accepted exactly when a read of the same record is, with the same error |
| LayoutMethods.DeleteRecord | Sources/FMData/LayoutMethods.swift:81-97 | a token DELETE on the record's path with the script query's parameters |
| LayoutMethods.DuplicateRecord | Sources/FMData/LayoutMethods.swift:99-115 | a token POST on the record's path with no query; the body exists exactly with a script query, and is its script body |
| LayoutMethods.ScriptQueryBody | Sources/FMData/LayoutMethods.swift:99-115 | the duplicate body exists exactly with a script query; it holds each script key exactly when the script sets it, with that value, and no other key |
| LayoutMethods.FindRecords | Sources/FMData/LayoutMethods.swift:117-133 | a token POST on "_find" with the find query object as body |
| LayoutMethods.ExecuteScript | Sources/FMData/LayoutMethods.swift:137-152 | a token GET on the script path with exactly one item, "script.param", carrying the parameter |
| LayoutMethods.UploadToContainerField | Sources/FMData/LayoutMethods.swift:157-176 | computes the optional "modId" item, then an upload POST with the file, accepted for any non-invalid credentials, and sends no query |
| LayoutMethods.GetLayoutMetadata | Sources/FMData/LayoutMethods.swift:180-199 | a token GET on the layout path; the query holds "recordId" exactly when one is given |

## Left out

- Transport: the Combine publishers and the HTTP transport are left out. Each operation is modelled up to the request it builds. Login takes the server's reply as an input.
- FMRest is not part of this model beyond the types FMData passes to it. URL assembly, request encoding and `Reply` handling are not modelled.
- JSON encoding and, for `FMRest.createRequest(data:)`, the encoding failures are not modelled. Bodies are JSON values, and key order on the wire is not modelled.
- Container file bytes are carried as opaque byte sequences.
- The `print(request)` in `getRecords` (LayoutMethods.swift:15) is console logging and is not modelled.
- The payloads of `LayoutMetaData`, `ProductInfo`, `DataInfo` and `PortalDataInfo` are kept as opaque JSON values, and so are the generic `R`/`P` field and portal data of a `Record`.
- `Layout.metadata` is not modelled; `connectLayouts` builds new layouts without it.
- `LayoutKey` is modelled as its layout-name string.
- The ids of `Server`, `Database` and `Layout` (UUIDs), the `@Published` observers and concurrency are not modelled.
- Swift compares strings by Unicode canonical equivalence. The model compares them code point by code point, without normalisation.
- The three-argument `RecordQuery` initialiser is not a separate member. It is the datatype constructor with the remaining fields left `nil`.

## Findings

| source | as written | input that shows it | evidently intended | confidence | as-written member | corrected member |
|---|---|---|---|---|---|---|
| Sources/FMData/LayoutMethods.swift:63-79 | `editRecord` builds its request with `createAuthRequest`, which refuses token credentials with "Already authenticated with token" | a layout whose database holds `.token` credentials after a successful login | a token request (`createRequest`), like `getRecordById`, `createRecord` and `deleteRecord` | not executed | LayoutMethods.EditRecord, LayoutMethods.EditRefusedWithSession | LayoutMethods.EditRecordIntended, LayoutMethods.EditLikeRead |
