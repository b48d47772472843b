/** A JSON value, and the reading rules of Swift's `JSONDecoder` keyed containers that the
    response decoders rely on. An object is a map from keys to values: the wire order of
    keys is not modelled. */
module Json {
  import opened Wrappers

  datatype Value =
    | JNull
    | JBool(b: bool)
    | JNum(n: int)
    | JStr(s: string)
    | JArr(items: seq<Value>)
    | JObj(fields: map<string, Value>)

  /** The kinds of `DecodingError` the decoders can raise, each naming the key it concerns;
      `NotAnObject` is a keyed container requested of a value that is not an object. */
  datatype DecodingError =
    | KeyNotFound(key: string)
    | ValueNotFound(key: string)
    | TypeMismatch(key: string)
    | NotAnObject
    | DataCorrupted(key: string, description: string)

  type Decoded<T> = Result<T, DecodingError>

  /** `decoder.container(keyedBy:)`. */
  function Container(v: Value): (r: Decoded<map<string, Value>>)
    ensures r.Success? <==> v.JObj?
    ensures r.Success? ==> r.value == v.fields
  {
    if v.JObj? then Success(v.fields) else Failure(NotAnObject)
  }

  /** `decode(T.self, forKey:)` for a payload whose own decoding is not modelled: the key
      must be present and not null. */
  function Required(c: map<string, Value>, key: string): (r: Decoded<Value>)
    ensures r.Success? <==> key in c && c[key] != JNull
    ensures r.Success? ==> r.value == c[key]
  {
    if key !in c then Failure(KeyNotFound(key))
    else if c[key] == JNull then Failure(ValueNotFound(key))
    else Success(c[key])
  }

  /** `decodeIfPresent(T.self, forKey:)` for an opaque payload: an absent key and an
      explicit null both give nil. */
  function Optional(c: map<string, Value>, key: string): (r: Option<Value>)
    ensures r.None? <==> key !in c || c[key] == JNull
    ensures r.Some? ==> r.value == c[key]
  {
    if key !in c || c[key] == JNull then None else Some(c[key])
  }

  /** `decode(String.self, forKey:)`: a JSON string and nothing else. */
  function RequiredString(c: map<string, Value>, key: string): (r: Decoded<string>)
    ensures r.Success? <==> key in c && c[key].JStr?
    ensures r.Success? ==> r.value == c[key].s
    ensures key !in c ==> r == Failure(KeyNotFound(key))
    ensures key in c && !c[key].JStr? && c[key] != JNull ==> r == Failure(TypeMismatch(key))
  {
    if key !in c then Failure(KeyNotFound(key))
    else match c[key]
      case JStr(s) => Success(s)
      case JNull => Failure(ValueNotFound(key))
      case _ => Failure(TypeMismatch(key))
  }

  /** `decodeIfPresent(String.self, forKey:)`. */
  function OptionalString(c: map<string, Value>, key: string): (r: Decoded<Option<string>>)
    ensures key !in c || c[key] == JNull ==> r == Success(None)
    ensures key in c && c[key].JStr? ==> r == Success(Some(c[key].s))
    ensures r.Failure? <==> key in c && c[key] != JNull && !c[key].JStr?
  {
    if key !in c then Success(None)
    else match c[key]
      case JNull => Success(None)
      case JStr(s) => Success(Some(s))
      case _ => Failure(TypeMismatch(key))
  }

  /** `decode([T].self, forKey:)`: the elements themselves are decoded by the caller. */
  function RequiredArray(c: map<string, Value>, key: string): (r: Decoded<seq<Value>>)
    ensures r.Success? <==> key in c && c[key].JArr?
    ensures r.Success? ==> r.value == c[key].items
  {
    if key !in c then Failure(KeyNotFound(key))
    else match c[key]
      case JArr(items) => Success(items)
      case JNull => Failure(ValueNotFound(key))
      case _ => Failure(TypeMismatch(key))
  }

  /** `decodeIfPresent([T].self, forKey:)`. */
  function OptionalArray(c: map<string, Value>, key: string): (r: Decoded<Option<seq<Value>>>)
    ensures key !in c || c[key] == JNull ==> r == Success(None)
    ensures key in c && c[key].JArr? ==> r == Success(Some(c[key].items))
    ensures r.Failure? <==> key in c && c[key] != JNull && !c[key].JArr?
  {
    if key !in c then Success(None)
    else match c[key]
      case JNull => Success(None)
      case JArr(items) => Success(Some(items))
      case _ => Failure(TypeMismatch(key))
  }

  /** An unkeyed container read element by element with `decode`: all the elements when
      each decodes, otherwise the error of the first element that does not. */
  function DecodeEach<T>(decode: Value -> Decoded<T>, vs: seq<Value>): (r: Decoded<seq<T>>)
    ensures r.Success? <==> forall i :: 0 <= i < |vs| ==> decode(vs[i]).Success?
    ensures r.Success? ==> |r.value| == |vs|
    ensures r.Success? ==> forall i :: 0 <= i < |vs| ==> decode(vs[i]) == Success(r.value[i])
    ensures r.Failure? ==> exists i :: && 0 <= i < |vs| && decode(vs[i]) == Failure(r.error)
                                       && forall j :: 0 <= j < i ==> decode(vs[j]).Success?
  {
    if vs == [] then Success([])
    else
      match decode(vs[0])
      case Failure(e) => Failure(e)
      case Success(head) =>
        var rest := DecodeEach(decode, vs[1..]);
        assert forall i :: 0 <= i < |vs[1..]| ==> vs[1..][i] == vs[i + 1];
        match rest
        case Failure(e) =>
          var k :| && 0 <= k < |vs[1..]| && decode(vs[1..][k]) == Failure(e)
                   && forall j :: 0 <= j < k ==> decode(vs[1..][j]).Success?;
          assert decode(vs[k + 1]) == Failure(e);
          assert forall j :: 0 <= j < k + 1 ==> decode(vs[j]).Success? by {
            forall j | 0 <= j < k + 1 ensures decode(vs[j]).Success? {
              if j > 0 { assert vs[j] == vs[1..][j - 1]; }
            }
          }
          Failure(e)
        case Success(tail) =>
          assert forall i :: 1 <= i < |vs| ==> ([head] + tail)[i] == tail[i - 1];
          Success([head] + tail)
  }
}
