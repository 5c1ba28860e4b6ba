/** JSON values as JavaScript sees them once parsed: token claims, request
    and response bodies. `Option<Json>` stands for a value that may be
    `undefined`. Numbers are integers. */
module Json {
  import opened Common

  datatype Json =
    | JNull
    | JBool(b: bool)
    | JNum(n: int)
    | JStr(s: string)
    | JArr(items: seq<Json>)
    | JObj(fields: map<string, Json>)

  /** JavaScript truthiness of a possibly-undefined value. */
  predicate Truthy(v: Option<Json>) {
    match v
    case None => false
    case Some(j) =>
      match j
      case JNull => false
      case JBool(b) => b
      case JNum(n) => n != 0
      case JStr(s) => s != ""
      case JArr(_) => true
      case JObj(_) => true
  }

  /** Property access `v[k]` on a defined value: the own properties of an
      object, the elements and `length` of an array or a string, and
      undefined on the other primitives. */
  function Prop(v: Json, k: string): (r: Option<Json>)
    ensures v.JObj? ==> r == (if k in v.fields then Some(v.fields[k]) else None)
    ensures v.JNull? || v.JBool? || v.JNum? ==> r == None
  {
    match v
    case JObj(f) => if k in f then Some(f[k]) else None
    case JArr(items) =>
      if k == "length" then Some(JNum(|items|))
      else if CanonicalIndex(k).Some? && CanonicalIndex(k).value < |items| then Some(items[CanonicalIndex(k).value])
      else None
    case JStr(s) =>
      if k == "length" then Some(JNum(|s|))
      else if CanonicalIndex(k).Some? && CanonicalIndex(k).value < |s| then Some(JStr([s[CanonicalIndex(k).value]]))
      else None
    case _ => None
  }

  /** Array elements are reached through their decimal index. */
  lemma PropIndex(items: seq<Json>, i: nat)
    requires i < |items|
    ensures Prop(JArr(items), NatToString(i)) == Some(items[i])
  {
    CanonicalIndexOfNatToString(i);
    assert NatToString(i) != "length" by {
      DecimalRoundTrip(i);
      assert IsDigit(NatToString(i)[0]);
    }
  }

  /** `String(v)`, as a template literal renders a defined value. */
  function ToJsString(v: Json): string
    decreases v, 1
  {
    match v
    case JNull => "null"
    case JBool(b) => if b then "true" else "false"
    case JNum(n) => IntToString(n)
    case JStr(s) => s
    case JArr(items) => JoinElements(items, v)
    case JObj(_) => "[object Object]"
  }

  /** `Array.prototype.join(',')`: null elements render as the empty string. */
  function JoinElements(items: seq<Json>, ghost whole: Json): string
    requires forall i :: 0 <= i < |items| ==> items[i] < whole
    decreases whole, 0, |items|
  {
    if items == [] then ""
    else
      var first := if items[0].JNull? then "" else ToJsString(items[0]);
      if |items| == 1 then first else first + "," + JoinElements(items[1..], whole)
  }

  /** `${v}` for a possibly-undefined value. */
  function Show(v: Option<Json>): string {
    if v.None? then "undefined" else ToJsString(v.value)
  }

  // ---------------------------------------------------------------------
  // The response envelope every service answers with

  /** An HTTP response: its status and its JSON body. */
  datatype Response = Response(status: int, body: Json)

  /** `{ success: true, data }` */
  function OkBody(data: Json): (b: Json)
    ensures Prop(b, "success") == Some(JBool(true)) && Prop(b, "data") == Some(data)
  {
    JObj(map["success" := JBool(true), "data" := data])
  }

  /** `{ success: false, error: { code, message } }` */
  function ErrorBody(code: string, message: string): (b: Json)
    ensures Prop(b, "success") == Some(JBool(false))
    ensures Prop(b, "error") == Some(JObj(map["code" := JStr(code), "message" := JStr(message)]))
  {
    JObj(map["success" := JBool(false), "error" := JObj(map["code" := JStr(code), "message" := JStr(message)])])
  }

  /** The error code of a body built by `ErrorBody`. */
  function ErrorCode(b: Json): Option<string> {
    var e := Prop(b, "error");
    if e.Some? && Prop(e.value, "code").Some? && Prop(e.value, "code").value.JStr? then
      Some(Prop(e.value, "code").value.s)
    else None
  }

  /** A success body and an error body are never confused, and the error
      code reads back from the body it was written into. */
  lemma EnvelopesDiffer(data: Json, code: string, message: string)
    ensures OkBody(data) != ErrorBody(code, message)
    ensures ErrorCode(ErrorBody(code, message)) == Some(code)
    ensures ErrorCode(OkBody(data)) == None
  {
    assert Prop(OkBody(data), "success") != Prop(ErrorBody(code, message), "success");
    var e := JObj(map["code" := JStr(code), "message" := JStr(message)]);
    assert Prop(e, "code") == Some(JStr(code));
  }

  /** The media type of a JSON body. */
  const JsonType: string := "application/json"

  /** Whether the lower-cased content type names JSON. */
  predicate IsJsonType(contentType: Option<string>) {
    Contains(ToLowerAscii(contentType.GetOr("")), JsonType)
  }

  /** The content type is matched without regard to case and wherever it
      stands: any spelling of `application/json`, with anything before it
      and anything after it (a charset parameter), is recognised. */
  lemma MixedCaseJsonType(pre: string, spelling: string, post: string)
    requires ToLowerAscii(spelling) == JsonType
    ensures IsJsonType(Some(pre + spelling + post))
  {
    var c := pre + spelling + post;
    var t := ToLowerAscii(c);
    var k := |pre|;
    forall i | 0 <= i < |JsonType|
      ensures t[k + i] == JsonType[i]
    {
      assert c[k + i] == spelling[i];
      assert ToLowerAscii(spelling)[i] == JsonType[i];
    }
    assert t[k..k + |JsonType|] == JsonType;
    ContainsAt(t, JsonType, k);
  }
}
