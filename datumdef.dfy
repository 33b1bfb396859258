/**
 * The typed value `Datum` of the worker's binding layer: a pair of a Python value and a
 * type tag, with its three conversions — wire message to Datum (`from_typed_data`),
 * Datum to native Python value (`python_value`) and Datum to wire message
 * (`datum_as_proto`) — and Datum equality and hashing.
 *
 * Python exceptions are modelled as `Err` results: NotImplementedError as
 * `NotImplemented`, KeyError as `KeyMissing`, AttributeError as `NoAttribute`,
 * TypeError as `WrongType`.
 */
module DatumDef {
  import opened Wrappers
  import opened Protos

  /** The Python values a Datum can hold in this core. */
  datatype Value =
    | VNone
    | VBytes(b: seq<bv8>)
    | VString(s: string)
    | VInt(i: int)
    | VDouble(x: real)
      // the protobuf collection messages, each with one repeated field
    | VCollectionBytes(bytesItems: seq<seq<bv8>>)
    | VCollectionString(stringItems: seq<string>)
    | VCollectionDouble(doubleItems: seq<real>)
    | VCollectionSint64(sint64Items: seq<int>)
      // a Python dict keyed by str, as used for http payloads
    | VDict(entries: map<string, Field>)

  /** A value stored in an http dict: a Datum, or a dict of Datums (headers, params, query). */
  datatype Field = FDatum(datum: Datum) | FDict(datums: map<string, Datum>)

  /** `Datum(value, type)`; the Python attribute `type` is called `kind` here, None being `Option.None`. */
  datatype Datum = Datum(value: Value, kind: Option<string>)

  datatype Error =
    | NotImplemented(unsupported: Option<string>)
    | KeyMissing(key: string)
    | NoAttribute
    | WrongType
    | InvalidUtf8
    | JsonDecodeFailure
    | SharedMemoryWriteFailure

  /** What `json.loads` produces. */
  datatype Json =
    | JNull
    | JBool(truth: bool)
    | JNumber(number: real)
    | JString(str: string)
    | JArray(elements: seq<Json>)
    | JObject(members: map<string, Json>)

  /** The native value `python_value` hands to the function: a value, a list, or parsed JSON. */
  datatype Native = Plain(v: Value) | List(items: seq<Value>) | Parsed(json: Json)

  /** The empty-bytes Datum that stands in for an absent http body. */
  const EMPTY_BYTES: Datum := Datum(VBytes([]), Some("bytes"))

  /** `Datum(s, 'string')`. */
  function StringDatum(s: string): (d: Datum) {
    Datum(VString(s), Some("string"))
  }

  // ---------------------------------------------------------------------------
  // python_value

  /** Kinds whose value `python_value` returns as it is. */
  predicate IsScalarKind(k: string) {
    k in {"bytes", "string", "int", "double"}
  }

  /** Kinds that `python_value` decodes rather than passing through. */
  predicate IsDecodedKind(k: string) {
    k in {"json", "collection_string", "collection_bytes", "collection_double", "collection_sint64"}
  }

  /** The comprehension `[f(v) for v in xs]`. */
  function ListOf<T, U>(xs: seq<T>, f: T -> U): (r: seq<U>)
    ensures |r| == |xs|
    ensures forall i :: 0 <= i < |xs| ==> r[i] == f(xs[i])
  {
    if xs == [] then [] else [f(xs[0])] + ListOf(xs[1..], f)
  }

  /**
   * `Datum.python_value`. `parse` stands for `json.loads`, a foreign parser that either
   * yields a JSON value or fails.
   */
  function PythonValue(d: Datum, parse: Value -> Option<Json>): (r: Result<Native, Error>)
    ensures d.value.VNone? || d.kind.None? ==> r == Ok(Plain(VNone))
    ensures !d.value.VNone? && d.kind.Some? && !IsDecodedKind(d.kind.value) ==> r == Ok(Plain(d.value))
    ensures !d.value.VNone? && d.kind == Some("json") ==>
      if parse(d.value).Some? then r == Ok(Parsed(parse(d.value).value)) else r == Err(JsonDecodeFailure)
    ensures !d.value.VNone? && d.kind == Some("collection_string") ==>
      if d.value.VCollectionString? then
        r.Ok? && r.value.List? && |r.value.items| == |d.value.stringItems| &&
        forall i :: 0 <= i < |d.value.stringItems| ==> r.value.items[i] == VString(d.value.stringItems[i])
      else r == Err(NoAttribute)
    ensures !d.value.VNone? && d.kind == Some("collection_bytes") ==>
      if d.value.VCollectionBytes? then
        r.Ok? && r.value.List? && |r.value.items| == |d.value.bytesItems| &&
        forall i :: 0 <= i < |d.value.bytesItems| ==> r.value.items[i] == VBytes(d.value.bytesItems[i])
      else r == Err(NoAttribute)
    ensures !d.value.VNone? && d.kind == Some("collection_double") ==>
      if d.value.VCollectionDouble? then
        r.Ok? && r.value.List? && |r.value.items| == |d.value.doubleItems| &&
        forall i :: 0 <= i < |d.value.doubleItems| ==> r.value.items[i] == VDouble(d.value.doubleItems[i])
      else r == Err(NoAttribute)
    ensures !d.value.VNone? && d.kind == Some("collection_sint64") ==>
      if d.value.VCollectionSint64? then
        r.Ok? && r.value.List? && |r.value.items| == |d.value.sint64Items| &&
        forall i :: 0 <= i < |d.value.sint64Items| ==> r.value.items[i] == VInt(d.value.sint64Items[i])
      else r == Err(NoAttribute)
  {
    if d.value.VNone? || d.kind.None? then Ok(Plain(VNone))
    else
      var k := d.kind.value;
      if IsScalarKind(k) then Ok(Plain(d.value))
      else if k == "json" then
        match parse(d.value)
        case Some(j) => Ok(Parsed(j))
        case None => Err(JsonDecodeFailure)
      else if k == "collection_string" then
        match d.value
        case VCollectionString(xs) => Ok(List(ListOf(xs, (s) => VString(s))))
        case _ => Err(NoAttribute)
      else if k == "collection_bytes" then
        match d.value
        case VCollectionBytes(xs) => Ok(List(ListOf(xs, (b) => VBytes(b))))
        case _ => Err(NoAttribute)
      else if k == "collection_double" then
        match d.value
        case VCollectionDouble(xs) => Ok(List(ListOf(xs, (x) => VDouble(x))))
        case _ => Err(NoAttribute)
      else if k == "collection_sint64" then
        match d.value
        case VCollectionSint64(xs) => Ok(List(ListOf(xs, (n) => VInt(n))))
        case _ => Err(NoAttribute)
      else Ok(Plain(d.value))
  }

  // ---------------------------------------------------------------------------
  // __eq__ and __hash__

  /** The `other` operand of `__eq__`: a Datum or any object of another class. */
  datatype PyObject = DatumObject(datum: Datum) | NonDatum

  /** `Datum.__eq__`: equal exactly to another Datum with the same value and type. */
  predicate Eq(self: Datum, other: PyObject)
    ensures Eq(self, other) <==> other == DatumObject(self)
  {
    other.DatumObject? && self.value == other.datum.value && self.kind == other.datum.kind
  }

  /** Values Python can hash; dicts and protobuf messages raise TypeError. */
  predicate Hashable(v: Value) {
    v.VNone? || v.VBytes? || v.VString? || v.VInt? || v.VDouble?
  }

  /**
   * `Datum.__hash__`: the hash of the tuple (Datum, (value, type)). Concrete hash values
   * are not modelled: `hashPair` stands for Python's hash of that tuple.
   */
  function Hash(d: Datum, hashPair: (Value, Option<string>) -> int): (r: Result<int, Error>)
    ensures r.Ok? <==> Hashable(d.value)
    ensures r.Err? ==> r.error == WrongType
  {
    if Hashable(d.value) then Ok(hashPair(d.value, d.kind)) else Err(WrongType)
  }

  // ---------------------------------------------------------------------------
  // from_typed_data

  /** The `{k: Datum(v, 'string')}` comprehension over a wire map. */
  function WrapStrings(m: map<string, string>): (r: map<string, Datum>)
    ensures r.Keys == m.Keys
    ensures forall k :: k in r ==> r[k] == StringDatum(m[k])
  {
    map k | k in m :: StringDatum(m[k])
  }

  /** The dict `from_typed_data` builds for an http message with the given decoded body. */
  function HttpRecord(h: RpcHttp, body: Datum): (r: map<string, Field>)
    ensures r.Keys == {"method", "url", "headers", "body", "params", "query"}
    ensures r["method"] == FDatum(StringDatum(h.httpMethod)) && r["url"] == FDatum(StringDatum(h.url))
    ensures r["headers"] == FDict(WrapStrings(h.headers)) && r["body"] == FDatum(body)
    ensures r["params"] == FDict(WrapStrings(h.params)) && r["query"] == FDict(WrapStrings(h.query))
  {
    map[
      "method" := FDatum(StringDatum(h.httpMethod)),
      "url" := FDatum(StringDatum(h.url)),
      "headers" := FDict(WrapStrings(h.headers)),
      "body" := FDatum(body),
      "params" := FDict(WrapStrings(h.params)),
      "query" := FDict(WrapStrings(h.query))
    ]
  }

  /** Messages that decode without error: a supported field, with a decodable http body. */
  predicate Decodable(td: TypedData) {
    match td
    case TdHttp(h) => Decodable(h.body)
    case TdStream(_) => false
    case TdInt(_) => false
    case TdDouble(_) => false
    case TdCollectionDouble(_) => false
    case _ => true
  }

  /** `Datum.from_typed_data`: `Ok(None)` when no field is set. */
  function FromTypedData(td: TypedData): (r: Result<Option<Datum>, Error>)
    ensures r.Ok? <==> Decodable(td)
    ensures r == Ok(None) <==> td.Unset?
    ensures r.Ok? && r.value.Some? ==> r.value.value.kind == WhichOneof(td)
    ensures r.Err? ==> r.error.NotImplemented? && r.error.unsupported.Some?
  {
    match td
    case Unset => Ok(None)
    case TdHttp(h) =>
      var body :- FromTypedData(h.body);
      Ok(Some(Datum(VDict(HttpRecord(h, if body.Some? then body.value else EMPTY_BYTES)), Some("http"))))
    case TdString(s) => Ok(Some(Datum(VString(s), Some("string"))))
    case TdBytes(b) => Ok(Some(Datum(VBytes(b), Some("bytes"))))
    case TdJson(j) => Ok(Some(Datum(VString(j), Some("json"))))
    case TdCollectionBytes(c) => Ok(Some(Datum(VCollectionBytes(c), Some("collection_bytes"))))
    case TdCollectionString(c) => Ok(Some(Datum(VCollectionString(c), Some("collection_string"))))
    case TdCollectionSint64(c) => Ok(Some(Datum(VCollectionSint64(c), Some("collection_sint64"))))
    case _ => Err(NotImplemented(WhichOneof(td)))
  }

  // ---------------------------------------------------------------------------
  // datum_as_proto

  /**
   * UTF-8 decoding, which a protobuf string field applies to bytes assigned to it;
   * None where the bytes are not valid UTF-8.
   */
  type Utf8Decoder = seq<bv8> -> Option<string>

  /** A value a protobuf string field takes as text: a str, or bytes that are valid UTF-8. */
  predicate IsText(v: Value, utf8: Utf8Decoder) {
    v.VString? || (v.VBytes? && utf8(v.b).Some?)
  }

  /** The text a string field holds after `IsText` value `v` is assigned to it. */
  function Text(v: Value, utf8: Utf8Decoder): (s: string)
    requires IsText(v, utf8)
    ensures v.VString? ==> s == v.s
    ensures v.VBytes? ==> utf8(v.b) == Some(s)
  {
    if v.VString? then v.s else utf8(v.b).value
  }

  /**
   * Assigning a Python value to a protobuf string field: None leaves the field unset, a
   * str is kept, bytes are decoded as UTF-8 (ValueError when they are not valid UTF-8),
   * and any other value is a TypeError.
   */
  function StringField(v: Value, utf8: Utf8Decoder): (r: Result<Option<string>, Error>)
    ensures r.Ok? <==> v.VNone? || IsText(v, utf8)
    ensures v.VNone? ==> r == Ok(None)
    ensures IsText(v, utf8) ==> r == Ok(Some(Text(v, utf8)))
    ensures v.VBytes? && !IsText(v, utf8) ==> r == Err(InvalidUtf8)
    ensures !(v.VNone? || v.VString? || v.VBytes?) ==> r == Err(WrongType)
  {
    match v
    case VNone => Ok(None)
    case VString(s) => Ok(Some(s))
    case VBytes(b) => if utf8(b).Some? then Ok(Some(utf8(b).value)) else Err(InvalidUtf8)
    case _ => Err(WrongType)
  }

  /** Assigning a Python value to a protobuf bytes field: None leaves it unset, bytes are kept, anything else is a TypeError. */
  function BytesField(v: Value): (r: Result<Option<seq<bv8>>, Error>)
    ensures r.Ok? <==> v.VNone? || v.VBytes?
    ensures v.VNone? ==> r == Ok(None)
    ensures v.VBytes? ==> r == Ok(Some(v.b))
    ensures r.Err? ==> r.error == WrongType
  {
    match v
    case VNone => Ok(None)
    case VBytes(b) => Ok(Some(b))
    case _ => Err(WrongType)
  }

  /**
   * The `{k: v.value}` comprehension, assigned to the map<string, string> field `headers`:
   * every value must be text as for a string field. When several values are refused, the one
   * protobuf reports first depends on the dict's order; this model reports a TypeError if
   * any value is neither str nor bytes.
   */
  function FlattenHeaders(hs: map<string, Datum>, utf8: Utf8Decoder): (r: Result<map<string, string>, Error>)
    ensures r.Ok? <==> forall k :: k in hs ==> IsText(hs[k].value, utf8)
    ensures r.Ok? ==> r.value.Keys == hs.Keys && forall k :: k in hs ==> r.value[k] == Text(hs[k].value, utf8)
    ensures r.Err? ==> r.error == WrongType || r.error == InvalidUtf8
  {
    if forall k :: k in hs ==> IsText(hs[k].value, utf8) then
      Ok(map k | k in hs :: Text(hs[k].value, utf8))
    else if exists k :: k in hs && !(hs[k].value.VString? || hs[k].value.VBytes?) then
      Err(WrongType)
    else
      Err(InvalidUtf8)
  }

  /** An http response dict with the keys and value types `datum_as_proto` needs; its body is checked by `Encodable`. */
  predicate IsHttpResponse(e: map<string, Field>, utf8: Utf8Decoder) {
    && "status_code" in e && e["status_code"].FDatum?
    && (e["status_code"].datum.value.VNone? || IsText(e["status_code"].datum.value, utf8))
    && "headers" in e && e["headers"].FDict?
    && (forall k :: k in e["headers"].datums ==> IsText(e["headers"].datums[k].value, utf8))
    && "body" in e && e["body"].FDatum?
  }

  /** Datums `datum_as_proto` encodes without raising. */
  predicate Encodable(d: Datum, utf8: Utf8Decoder)
    decreases d
  {
    if d.kind == Some("string") || d.kind == Some("json") then d.value.VNone? || IsText(d.value, utf8)
    else if d.kind == Some("bytes") then d.value.VNone? || d.value.VBytes?
    else if d.kind == Some("http") then
      d.value.VDict? && IsHttpResponse(d.value.entries, utf8) && Encodable(d.value.entries["body"].datum, utf8)
    else false
  }

  /** `datum_as_proto`; `utf8` is the decoding protobuf applies to bytes given to a string field. */
  function DatumAsProto(d: Datum, utf8: Utf8Decoder): (r: Result<TypedData, Error>)
    decreases d
    ensures r.Ok? <==> Encodable(d, utf8)
    ensures r.Ok? && !r.value.Unset? ==> WhichOneof(r.value) == d.kind
    ensures r.Ok? && r.value.TdHttp? ==> !r.value.http.enableContentNegotiation
    ensures d.kind !in {Some("string"), Some("bytes"), Some("json"), Some("http")} ==>
      r == Err(NotImplemented(d.kind))
  {
    if d.kind == Some("string") then
      var s :- StringField(d.value, utf8);
      Ok(if s.Some? then TdString(s.value) else Unset)
    else if d.kind == Some("bytes") then
      var b :- BytesField(d.value);
      Ok(if b.Some? then TdBytes(b.value) else Unset)
    else if d.kind == Some("json") then
      var j :- StringField(d.value, utf8);
      Ok(if j.Some? then TdJson(j.value) else Unset)
    else if d.kind == Some("http") then
      if !d.value.VDict? then Err(WrongType)
      else
        var e := d.value.entries;
        if "status_code" !in e then Err(KeyMissing("status_code"))
        else if !e["status_code"].FDatum? then Err(NoAttribute)
        else if "headers" !in e then Err(KeyMissing("headers"))
        else if !e["headers"].FDict? then Err(NoAttribute)
        else if "body" !in e then Err(KeyMissing("body"))
        else if !e["body"].FDatum? then Err(NoAttribute)
        else
          // the keyword arguments are evaluated first, then RpcHttp checks their types
          var body :- DatumAsProto(e["body"].datum, utf8);
          var status :- StringField(e["status_code"].datum.value, utf8);
          var headers :- FlattenHeaders(e["headers"].datums, utf8);
          Ok(TdHttp(RpcHttp("", "", headers, body, map[], map[], if status.Some? then status.value else "", false)))
    else Err(NotImplemented(d.kind))
  }

  // ---------------------------------------------------------------------------
  // Properties

  /** Datum equality compares value and type, and a Datum never equals another kind of object. */
  lemma EqualityIsFieldwise(a: Datum, b: Datum)
    ensures Eq(a, DatumObject(b)) <==> a.value == b.value && a.kind == b.kind
    ensures Eq(a, DatumObject(b)) <==> a == b
    ensures !Eq(a, NonDatum)
  {
  }

  /** `__eq__` restricted to Datums is an equivalence relation. */
  lemma EqIsEquivalence(a: Datum, b: Datum, c: Datum)
    ensures Eq(a, DatumObject(a))
    ensures Eq(a, DatumObject(b)) ==> Eq(b, DatumObject(a))
    ensures Eq(a, DatumObject(b)) && Eq(b, DatumObject(c)) ==> Eq(a, DatumObject(c))
  {
  }

  /** Equal Datums have equal hashes (or both are unhashable), so a Datum can key a dict. */
  lemma EqualDatumsHashEqually(a: Datum, b: Datum, hashPair: (Value, Option<string>) -> int)
    requires Eq(a, DatumObject(b))
    ensures Hash(a, hashPair) == Hash(b, hashPair)
  {
  }

  /** The non-http fields decode to a Datum tagged with the field's name holding its content. */
  lemma DecodeVerbatim(s: string, b: seq<bv8>, j: string, cb: seq<seq<bv8>>, cs: seq<string>, ci: seq<int>)
    ensures FromTypedData(TdString(s)) == Ok(Some(Datum(VString(s), Some("string"))))
    ensures FromTypedData(TdBytes(b)) == Ok(Some(Datum(VBytes(b), Some("bytes"))))
    ensures FromTypedData(TdJson(j)) == Ok(Some(Datum(VString(j), Some("json"))))
    ensures FromTypedData(TdCollectionBytes(cb)) == Ok(Some(Datum(VCollectionBytes(cb), Some("collection_bytes"))))
    ensures FromTypedData(TdCollectionString(cs)) == Ok(Some(Datum(VCollectionString(cs), Some("collection_string"))))
    ensures FromTypedData(TdCollectionSint64(ci)) == Ok(Some(Datum(VCollectionSint64(ci), Some("collection_sint64"))))
  {
  }

  /** Fields outside the supported set raise NotImplementedError naming the field. */
  lemma DecodeUnsupported(td: TypedData)
    requires td.TdStream? || td.TdInt? || td.TdDouble? || td.TdCollectionDouble?
    ensures FromTypedData(td) == Err(NotImplemented(WhichOneof(td)))
  {
  }

  /**
   * An http message decodes to a dict with exactly the keys method, url, headers, body,
   * params and query: method and url as string Datums, each wire map with its keys kept and
   * every value a string Datum, and the body decoded recursively, or empty bytes if unset.
   */
  lemma DecodeHttp(h: RpcHttp)
    requires Decodable(h.body)
    ensures var r := FromTypedData(TdHttp(h));
      && r.Ok? && r.value.Some? && r.value.value.kind == Some("http") && r.value.value.value.VDict?
      && var e := r.value.value.value.entries;
      && e.Keys == {"method", "url", "headers", "body", "params", "query"}
      && e["method"] == FDatum(StringDatum(h.httpMethod))
      && e["url"] == FDatum(StringDatum(h.url))
      && e["headers"].FDict? && e["headers"].datums.Keys == h.headers.Keys
      && (forall k :: k in h.headers ==> e["headers"].datums[k] == StringDatum(h.headers[k]))
      && e["params"].FDict? && e["params"].datums.Keys == h.params.Keys
      && (forall k :: k in h.params ==> e["params"].datums[k] == StringDatum(h.params[k]))
      && e["query"].FDict? && e["query"].datums.Keys == h.query.Keys
      && (forall k :: k in h.query ==> e["query"].datums[k] == StringDatum(h.query[k]))
      && e["body"] == FDatum(if h.body.Unset? then EMPTY_BYTES else FromTypedData(h.body).value.value)
  {
    var r := FromTypedData(TdHttp(h));
    var e := r.value.value.value.entries;
    assert e.Keys == {"method", "url", "headers", "body", "params", "query"};
  }

  /** Flattening header Datums to their values undoes wrapping wire values as string Datums. */
  lemma FlattenWrapped(m: map<string, string>, utf8: Utf8Decoder)
    ensures FlattenHeaders(WrapStrings(m), utf8) == Ok(m)
  {
    var r := FlattenHeaders(WrapStrings(m), utf8);
    assert r.Ok?;
    assert r.value == m;
  }

  /** A string, bytes or json Datum holding a value of its kind survives encode then decode. */
  lemma InlineRoundTrip(d: Datum, utf8: Utf8Decoder)
    requires d.kind == Some("string") || d.kind == Some("json") ==> d.value.VString?
    requires d.kind == Some("bytes") ==> d.value.VBytes?
    requires d.kind in {Some("string"), Some("bytes"), Some("json")}
    ensures DatumAsProto(d, utf8).Ok?
    ensures FromTypedData(DatumAsProto(d, utf8).value) == Ok(Some(d))
  {
  }

  /** A string, bytes or json message survives decode then encode. */
  lemma WireRoundTrip(td: TypedData, utf8: Utf8Decoder)
    requires td.TdString? || td.TdBytes? || td.TdJson?
    ensures FromTypedData(td).Ok? && FromTypedData(td).value.Some?
    ensures DatumAsProto(FromTypedData(td).value.value, utf8) == Ok(td)
  {
  }

  /** A None value encodes to a message with no field set, which decodes to "no Datum". */
  lemma AbsentValueEncodesUnset(d: Datum, utf8: Utf8Decoder)
    requires d.kind in {Some("string"), Some("bytes"), Some("json")}
    requires d.value.VNone?
    ensures DatumAsProto(d, utf8) == Ok(Unset)
    ensures FromTypedData(Unset) == Ok(None)
  {
  }

  /** What `from_typed_data` builds for http cannot be encoded: it has no `status_code`. */
  lemma DecodedHttpIsNotEncodable(h: RpcHttp, utf8: Utf8Decoder)
    requires Decodable(h.body)
    ensures FromTypedData(TdHttp(h)).Ok? && FromTypedData(TdHttp(h)).value.Some?
    ensures DatumAsProto(FromTypedData(TdHttp(h)).value.value, utf8) == Err(KeyMissing("status_code"))
  {
    var d := FromTypedData(TdHttp(h)).value.value;
    assert "status_code" !in d.value.entries;
  }

  /** No http Datum survives encode then decode. */
  lemma HttpDoesNotRoundTrip(d: Datum, utf8: Utf8Decoder)
    requires d.kind == Some("http")
    requires DatumAsProto(d, utf8).Ok?
    ensures DatumAsProto(d, utf8).value.TdHttp?
    ensures FromTypedData(DatumAsProto(d, utf8).value) != Ok(Some(d))
  {
    var td := DatumAsProto(d, utf8).value;
    var r := FromTypedData(td);
    if r.Ok? && r.value.Some? {
      assert "status_code" !in r.value.value.value.entries;
      assert "status_code" in d.value.entries;
    }
  }

  /**
   * Any encodable http Datum becomes an RpcHttp built from the dict's status_code, headers
   * and body alone (other keys are ignored): the status code's text, or the default when it
   * is None; each header Datum's value as text, whatever that Datum's type; the recursively
   * encoded body; content negotiation off; every other RpcHttp field keeps its default.
   */
  lemma EncodeHttp(d: Datum, utf8: Utf8Decoder)
    requires d.kind == Some("http") && Encodable(d, utf8)
    ensures var e := d.value.entries;
      && FlattenHeaders(e["headers"].datums, utf8).Ok?
      && DatumAsProto(e["body"].datum, utf8).Ok?
      && DatumAsProto(d, utf8)
         == Ok(TdHttp(RpcHttp("", "",
                              FlattenHeaders(e["headers"].datums, utf8).value,
                              DatumAsProto(e["body"].datum, utf8).value,
                              map[], map[],
                              if e["status_code"].datum.value.VNone? then "" else Text(e["status_code"].datum.value, utf8),
                              false)))
  {
  }

  /**
   * An http response dict of status code, string headers and an encodable body becomes an
   * RpcHttp with that status code, the headers' values, content negotiation off and the
   * encoded body; every other RpcHttp field keeps its default.
   */
  lemma EncodeHttpResponse(status: string, headers: map<string, string>, body: Datum, utf8: Utf8Decoder)
    requires Encodable(body, utf8)
    ensures DatumAsProto(body, utf8).Ok?
    ensures DatumAsProto(Datum(VDict(map[
                "status_code" := FDatum(StringDatum(status)),
                "headers" := FDict(WrapStrings(headers)),
                "body" := FDatum(body)]), Some("http")), utf8)
         == Ok(TdHttp(RpcHttp("", "", headers, DatumAsProto(body, utf8).value, map[], map[], status, false)))
  {
    FlattenWrapped(headers, utf8);
    EncodeHttp(Datum(VDict(map[
                "status_code" := FDatum(StringDatum(status)),
                "headers" := FDict(WrapStrings(headers)),
                "body" := FDatum(body)]), Some("http")), utf8);
  }

  /**
   * Every message `datum_as_proto` produces is one `from_typed_data` accepts: encoding
   * never emits a field, at any depth of http bodies, that decoding rejects.
   */
  lemma {:induction false} EncodedIsDecodable(d: Datum, utf8: Utf8Decoder)
    requires Encodable(d, utf8)
    ensures DatumAsProto(d, utf8).Ok?
    ensures Decodable(DatumAsProto(d, utf8).value)
    decreases d
  {
    if d.kind == Some("http") {
      EncodedIsDecodable(d.value.entries["body"].datum, utf8);
    }
  }

  /**
   * Bytes given to a string or json Datum are encoded as the text they decode to, or
   * refused with a ValueError when they are not valid UTF-8; decoding gives back a str.
   */
  lemma BytesAsText(b: seq<bv8>, k: string, utf8: Utf8Decoder)
    requires k == "string" || k == "json"
    ensures utf8(b).None? ==> DatumAsProto(Datum(VBytes(b), Some(k)), utf8) == Err(InvalidUtf8)
    ensures utf8(b).Some? ==>
      && DatumAsProto(Datum(VBytes(b), Some(k)), utf8)
         == Ok(if k == "string" then TdString(utf8(b).value) else TdJson(utf8(b).value))
      && FromTypedData(DatumAsProto(Datum(VBytes(b), Some(k)), utf8).value)
         == Ok(Some(Datum(VString(utf8(b).value), Some(k))))
  {
  }

  /** A collection message reaches the function as a list of its items, in order. */
  lemma CollectionStringValue(xs: seq<string>, parse: Value -> Option<Json>)
    ensures FromTypedData(TdCollectionString(xs)).Ok? && FromTypedData(TdCollectionString(xs)).value.Some?
    ensures var r := PythonValue(FromTypedData(TdCollectionString(xs)).value.value, parse);
      r.Ok? && r.value.List? && |r.value.items| == |xs| &&
      forall i :: 0 <= i < |xs| ==> r.value.items[i] == VString(xs[i])
  {
  }

  /** A double collection is decoded by `python_value` but never produced by `from_typed_data`. */
  lemma CollectionDoubleNotDecodedFromWire(xs: seq<real>)
    ensures FromTypedData(TdCollectionDouble(xs)) == Err(NotImplemented(Some("collection_double")))
  {
  }
}
