/**
 Lookups in a decoded JSON value and the reading of the API's response
 envelope `{"imdata": [ item, ... ]}` (nx/json.go).

 A decoded value is a `Json` tree: the six value kinds of section 3 of
 RFC 8259, an object being a map from member name to value. Go's `nil`
 (what `mapSimple` returns for a missing member) behaves like a decoded
 JSON `null` under every later type test, so it is `JNull` here.
 */
module Json {

  import opened Errors

  datatype Json =
    | JNull
    | JBool(b: bool)
    | JNumber(literal: string)
    | JString(s: string)
    | JArray(items: seq<Json>)
    | JObject(members: map<string, Json>)

  /** A response body: its raw text and what `json.Unmarshal` made of it
      (`None` when the text is not JSON). */
  datatype Reply = Reply(raw: string, decoded: Option<Json>)

  /** `mapGet`: the member of an object. */
  function MapGet(i: Json, member: string): (r: Result<Json>)
    ensures r.Ok? <==> i.JObject? && member in i.members
    ensures r.Ok? ==> r.value == i.members[member]
    ensures !i.JObject? ==> r == Err(JsonNotAMap)
    ensures i.JObject? && member !in i.members ==> r == Err(JsonMemberNotFound(member))
  {
    match i
    case JObject(m) => if member in m then Ok(m[member]) else Err(JsonMemberNotFound(member))
    case _ => Err(JsonNotAMap)
  }

  /** `sliceGet`: the element of an array at a (possibly negative) index. */
  function SliceGet(i: Json, index: int): (r: Result<Json>)
    ensures r.Ok? <==> i.JArray? && 0 <= index < |i.items|
    ensures r.Ok? ==> r.value == i.items[index]
    ensures !i.JArray? ==> r == Err(JsonNotASlice)
    ensures i.JArray? && !(0 <= index < |i.items|) ==> r == Err(JsonOutOfBounds(index))
  {
    match i
    case JArray(list) =>
      if index < 0 || index >= |list| then Err(JsonOutOfBounds(index)) else Ok(list[index])
    case _ => Err(JsonNotASlice)
  }

  /** `mapSimple`: the member, or nil when `mapGet` fails. */
  function MapSimple(i: Json, member: string): (r: Json)
    ensures MapGet(i, member).Ok? ==> r == MapGet(i, member).value
    ensures MapGet(i, member).Err? ==> r == JNull
  {
    match MapGet(i, member)
    case Ok(m) => m
    case Err(_) => JNull
  }

  /** `mapString`: the member if it is a string, otherwise "". It never fails. */
  function MapString(i: Json, member: string): (r: string)
    ensures (i.JObject? && member in i.members && i.members[member].JString?) ==> r == i.members[member].s
    ensures !(i.JObject? && member in i.members && i.members[member].JString?) ==> r == ""
  {
    match MapSimple(i, member)
    case JString(s) => s
    case _ => ""
  }

  /** The `attributes` member of `v`, read as a string attribute `name`,
      "" when anything along the way is missing or of another kind. */
  function Attribute(v: Json, name: string): string
  {
    MapString(MapSimple(v, "attributes"), name)
  }

  /** `parseJSONError`: the outcome of a create, update or delete call. The
      body must be JSON with an `imdata` array; an empty array, or a first
      item without an `error` member, is success; otherwise the error's
      `attributes.code` and `attributes.text` are reported verbatim. Only
      the first item is ever looked at. */
  function ParseJSONError(body: Reply): (r: Outcome)
    ensures body.decoded.None? ==> r == Fail(Unmarshal(body.raw))
    ensures body.decoded.Some? && MapGet(body.decoded.value, "imdata").Err? ==>
              r == Fail(ImdataMissing(body.raw))
    ensures (body.decoded.Some? && MapGet(body.decoded.value, "imdata").Ok?
             && !MapGet(body.decoded.value, "imdata").value.JArray?) ==>
              r == Fail(ImdataNotList(body.raw))
    ensures body.decoded.Some? && MapGet(body.decoded.value, "imdata") == Ok(JArray([])) ==> r == Pass
    ensures (body.decoded.Some? && MapGet(body.decoded.value, "imdata").Ok?
             && MapGet(body.decoded.value, "imdata").value.JArray?
             && |MapGet(body.decoded.value, "imdata").value.items| > 0) ==>
              (r.Fail? <==> MapGet(MapGet(body.decoded.value, "imdata").value.items[0], "error").Ok?)
    ensures (body.decoded.Some? && MapGet(body.decoded.value, "imdata").Ok?
             && MapGet(body.decoded.value, "imdata").value.JArray?
             && |MapGet(body.decoded.value, "imdata").value.items| > 0
             && MapGet(MapGet(body.decoded.value, "imdata").value.items[0], "error").Ok?) ==>
              var e := MapGet(MapGet(body.decoded.value, "imdata").value.items[0], "error").value;
              r == Fail(Remote(Attribute(e, "code"), Attribute(e, "text")))
  {
    match body.decoded
    case None => Fail(Unmarshal(body.raw))
    case Some(reply) =>
      match MapGet(reply, "imdata")
      case Err(_) => Fail(ImdataMissing(body.raw))
      case Ok(imdata) =>
        if !imdata.JArray? then Fail(ImdataNotList(body.raw))
        else if |imdata.items| == 0 then Pass
        else
          match MapGet(imdata.items[0], "error")
          case Err(_) => Pass
          case Ok(e) => Fail(Remote(Attribute(e, "code"), Attribute(e, "text")))
  }

  // ---------------------------------------------------------------------------
  // Building envelopes, and what ParseJSONError makes of them
  // ---------------------------------------------------------------------------

  /** `{"imdata": items}`. */
  function Envelope(items: seq<Json>): Json
  {
    JObject(map["imdata" := JArray(items)])
  }

  /** An error item `{"error": {"attributes": attributes}}`. */
  function ErrorItem(attributes: map<string, Json>): Json
  {
    JObject(map["error" := JObject(map["attributes" := JObject(attributes)])])
  }

  /** An error item carrying its code and text is reported with exactly that
      code and text, whatever follows it in the envelope. */
  lemma RemoteErrorRoundTrip(raw: string, code: string, text: string, rest: seq<Json>)
    ensures ParseJSONError(Reply(raw, Some(Envelope([ErrorItem(map["code" := JString(code), "text" := JString(text)])] + rest))))
         == Fail(Remote(code, text))
  {
  }

  /** A missing or non-string code or text becomes "" rather than a failure. */
  lemma MissingAttributesDefault(raw: string, attributes: map<string, Json>, rest: seq<Json>)
    requires "code" !in attributes || !attributes["code"].JString?
    requires "text" !in attributes || !attributes["text"].JString?
    ensures ParseJSONError(Reply(raw, Some(Envelope([ErrorItem(attributes)] + rest)))) == Fail(Remote("", ""))
  {
  }

  /** Code and text default independently: a code without a text keeps
      the code and reports an empty text, and the reverse. */
  lemma EachAttributeDefaults(raw: string, code: string, text: string, rest: seq<Json>)
    ensures ParseJSONError(Reply(raw, Some(Envelope([ErrorItem(map["code" := JString(code)])] + rest))))
         == Fail(Remote(code, ""))
    ensures ParseJSONError(Reply(raw, Some(Envelope([ErrorItem(map["text" := JString(text)])] + rest))))
         == Fail(Remote("", text))
  {
  }

  /** The outcome depends on the first item only. */
  lemma OnlyFirstItemMatters(raw: string, others: map<string, Json>, first: Json, rest1: seq<Json>, rest2: seq<Json>)
    ensures ParseJSONError(Reply(raw, Some(JObject(others["imdata" := JArray([first] + rest1)]))))
         == ParseJSONError(Reply(raw, Some(JObject(others["imdata" := JArray([first] + rest2)]))))
  {
  }

  /** A first item that is not an object, or has no `error` member, means
      success, whatever follows. */
  lemma NoErrorMemberIsSuccess(raw: string, first: Json, rest: seq<Json>)
    requires !first.JObject? || "error" !in first.members
    ensures ParseJSONError(Reply(raw, Some(Envelope([first] + rest)))) == Pass
  {
  }
}
