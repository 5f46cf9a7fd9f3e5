/** The JSON-RPC records of `datatypes/geth.py` and how pydantic (version 1)
    reads them from a decoded document: a request, a success reply, an error
    reply and a subscription push. Under pydantic 1 a field typed `Any` and a
    field typed `int | None` are optional (defaulting to `None`) and unknown
    keys are ignored, so every document that reads as an error reply also
    reads as a success reply. */
module Geth {
  import opened Common
  import opened Numerals
  import opened JsonValue
  import opened Exceptions

  /** `GethRequest`: `jsonrpc` defaults to "2.0" and `id` to `None`. */
  datatype Request = Request(jsonrpc: string, id: Option<int>, methodName: string, params: seq<Json>)

  /** `GethSuccessResponse`; a missing `result` is `None` (`JNull`). */
  datatype SuccessResponse = SuccessResponse(jsonrpc: string, id: Option<int>, result: Json)

  /** `GethErrorResponse`. */
  datatype ErrorResponse = ErrorResponse(jsonrpc: string, id: Option<int>, error: ErrorDetail)

  /** `GethWSItem` and `GethWSResponse`, the push of a subscription. */
  datatype WsItem = WsItem(subscription: string, result: Json)

  datatype WsPush = WsPush(jsonrpc: string, methodName: string, params: WsItem)

  /** `GethRequest(id=..., method=..., params=...)`. */
  function NewRequest(id: Option<int>, methodName: string, params: seq<Json>): (r: Request)
    ensures r.jsonrpc == "2.0" && r.id == id && r.methodName == methodName && r.params == params
  {
    Request("2.0", id, methodName, params)
  }

  function OptionalIntJson(v: Option<int>): Json {
    match v
    case Some(i) => JInt(i)
    case None => JNull
  }

  /** `request.dict()`, the document `request.json()` serialises. */
  function RequestJson(r: Request): Json {
    JObj(map["jsonrpc" := JStr(r.jsonrpc), "id" := OptionalIntJson(r.id),
             "method" := JStr(r.methodName), "params" := JArr(r.params)])
  }

  /** A `str` field: pydantic 1 also accepts an int (its decimal text) and a
      bool (`str(True)`). */
  function StrField(j: Json): (r: Outcome<string>)
    ensures r.Ok? <==> j.JStr? || j.JInt? || j.JBool?
    ensures j.JStr? ==> r == Ok(j.s)
    ensures r.Raise? ==> r.exc == ValidationError
  {
    match j
    case JStr(s) => Ok(s)
    case JInt(i) => Ok(Decimal(i))
    case JBool(b) => Ok(if b then "True" else "False")
    case _ => Raise(ValidationError)
  }

  /** An `int` field: pydantic 1 also accepts a bool and a decimal string. */
  function IntField(j: Json): (r: Outcome<int>)
    ensures j.JInt? ==> r == Ok(j.i)
    ensures j.JStr? ==> (r.Ok? <==> ParseDecimal(j.s).Some?)
    ensures j.JNull? || j.JArr? || j.JObj? ==> r == Raise(ValidationError)
    ensures r.Raise? ==> r.exc == ValidationError
  {
    match j
    case JInt(i) => Ok(i)
    case JBool(b) => Ok(if b then 1 else 0)
    case JStr(s) =>
      (match ParseDecimal(s)
       case Some(i) => Ok(i)
       case None => Raise(ValidationError))
    case _ => Raise(ValidationError)
  }

  /** A value Python can use as a dict key. */
  predicate Hashable(j: Json) {
    j.JNull? || j.JBool? || j.JInt? || j.JStr?
  }

  /** One element of `dict(items)`: a two-element list with a hashable first
      element, or a two-character string. */
  function PairOf(item: Json): Option<(Json, Json)> {
    match item
    case JArr(xs) => if |xs| == 2 && Hashable(xs[0]) then Some((xs[0], xs[1])) else None
    case JStr(s) => if |s| == 2 then Some((JStr([s[0]]), JStr([s[1]]))) else None
    case _ => None
  }

  /** Building a dict from pairs: a later pair wins over an earlier one. */
  function PairsToMap(ps: seq<(string, Json)>): (m: map<string, Json>)
    ensures forall k :: k in m <==> exists i :: 0 <= i < |ps| && ps[i].0 == k
  {
    if |ps| == 0 then map[]
    else
      var rest := PairsToMap(ps[..|ps| - 1]);
      assert forall i :: 0 <= i < |ps| - 1 ==> ps[..|ps| - 1][i] == ps[i];
      rest[ps[|ps| - 1].0 := ps[|ps| - 1].1]
  }

  /** The keyword arguments `Model.parse_obj(obj)` ends up calling the model
      with: a dict as it is; anything else goes through `dict(obj)` (only an
      empty string and a list of pairs survive that), and keys that are not
      strings make the call raise `TypeError`. */
  function KeywordArgs(j: Json): (r: Outcome<map<string, Json>>)
    ensures j.JObj? ==> r == Ok(j.fields)
    ensures j.JNull? || j.JBool? || j.JInt? ==> r == Raise(ValidationError)
    ensures j.JStr? ==> r == (if j.s == "" then Ok(map[]) else Raise(ValidationError))
    ensures r.Raise? ==> r.exc == ValidationError || r.exc == TypeError
  {
    match j
    case JObj(fields) => Ok(fields)
    case JStr(s) => if s == "" then Ok(map[]) else Raise(ValidationError)
    case JArr(items) =>
      if exists i :: 0 <= i < |items| && PairOf(items[i]).None? then Raise(ValidationError)
      else if exists i :: 0 <= i < |items| && !PairOf(items[i]).value.0.JStr? then Raise(TypeError)
      else Ok(PairsToMap(seq(|items|, i requires 0 <= i < |items| =>
                               (PairOf(items[i]).value.0.s, PairOf(items[i]).value.1))))
    case _ => Raise(ValidationError)
  }

  /** A nested model field: the same conversion, but every failure is a
      validation error of the outer model. */
  function NestedArgs(j: Json): (r: Outcome<map<string, Json>>)
    ensures r.Ok? <==> KeywordArgs(j).Ok?
    ensures r.Ok? ==> r == KeywordArgs(j)
    ensures r.Raise? ==> r.exc == ValidationError
  {
    match KeywordArgs(j)
    case Ok(m) => Ok(m)
    case Raise(_) => Raise(ValidationError)
  }

  /** `jsonrpc: str = "2.0"`: absent means the default, `null` is refused. */
  function JsonrpcField(m: map<string, Json>): Outcome<string> {
    if "jsonrpc" in m then StrField(m["jsonrpc"]) else Ok("2.0")
  }

  /** `id: int | None`: absent or `null` means `None`. */
  function IdField(m: map<string, Json>): Outcome<Option<int>> {
    if "id" !in m || m["id"] == JNull then Ok(None)
    else
      match IntField(m["id"])
      case Ok(i) => Ok(Some(i))
      case Raise(e) => Raise(e)
  }

  /** An optional field typed `Any`. */
  function AnyField(m: map<string, Json>, key: string): Json {
    if key in m then m[key] else JNull
  }

  function SuccessFrom(m: map<string, Json>): Outcome<SuccessResponse> {
    match JsonrpcField(m)
    case Raise(e) => Raise(e)
    case Ok(jsonrpc) =>
      match IdField(m)
      case Raise(e) => Raise(e)
      case Ok(id) => Ok(SuccessResponse(jsonrpc, id, AnyField(m, "result")))
  }

  /** `GethErrorDetail`: `code` and `message` are required. */
  function ErrorDetailOf(j: Json): Outcome<ErrorDetail> {
    match NestedArgs(j)
    case Raise(e) => Raise(e)
    case Ok(m) =>
      if "code" !in m || "message" !in m then Raise(ValidationError)
      else
        match (JsonrpcField(m), IntField(m["code"]), StrField(m["message"]))
        case (Ok(jsonrpc), Ok(code), Ok(message)) => Ok(ErrorDetail(jsonrpc, code, message))
        case _ => Raise(ValidationError)
  }

  function ErrorFrom(m: map<string, Json>): Outcome<ErrorResponse> {
    match JsonrpcField(m)
    case Raise(e) => Raise(e)
    case Ok(jsonrpc) =>
      match IdField(m)
      case Raise(e) => Raise(e)
      case Ok(id) =>
        if "error" !in m then Raise(ValidationError)
        else
          match ErrorDetailOf(m["error"])
          case Raise(e) => Raise(e)
          case Ok(detail) => Ok(ErrorResponse(jsonrpc, id, detail))
  }

  function WsItemOf(j: Json): Outcome<WsItem> {
    match NestedArgs(j)
    case Raise(e) => Raise(e)
    case Ok(m) =>
      if "subscription" !in m then Raise(ValidationError)
      else
        match StrField(m["subscription"])
        case Raise(e) => Raise(e)
        case Ok(sub) => Ok(WsItem(sub, AnyField(m, "result")))
  }

  /** `GethWSResponse`: the `params` validator only looks for a string, and
      `params` is already a `GethWSItem` when it runs, so the method name is
      never checked. */
  function PushFrom(m: map<string, Json>): Outcome<WsPush> {
    match JsonrpcField(m)
    case Raise(e) => Raise(e)
    case Ok(jsonrpc) =>
      if "method" !in m || "params" !in m then Raise(ValidationError)
      else
        match (StrField(m["method"]), WsItemOf(m["params"]))
        case (Ok(methodName), Ok(item)) => Ok(WsPush(jsonrpc, methodName, item))
        case _ => Raise(ValidationError)
  }

  function RequestFrom(m: map<string, Json>): Outcome<Request> {
    match JsonrpcField(m)
    case Raise(e) => Raise(e)
    case Ok(jsonrpc) =>
      match IdField(m)
      case Raise(e) => Raise(e)
      case Ok(id) =>
        if "method" !in m || "params" !in m || !m["params"].JArr? then Raise(ValidationError)
        else
          match StrField(m["method"])
          case Raise(e) => Raise(e)
          case Ok(methodName) => Ok(Request(jsonrpc, id, methodName, m["params"].items))
  }

  /** `GethSuccessResponse.parse_obj`. */
  function ParseSuccess(j: Json): (r: Outcome<SuccessResponse>)
    ensures r.Raise? ==> r.exc == ValidationError || r.exc == TypeError
  {
    match KeywordArgs(j)
    case Raise(e) => Raise(e)
    case Ok(m) => SuccessFrom(m)
  }

  /** `GethErrorResponse.parse_obj`. */
  function ParseError(j: Json): (r: Outcome<ErrorResponse>)
    ensures r.Raise? ==> r.exc == ValidationError || r.exc == TypeError
  {
    match KeywordArgs(j)
    case Raise(e) => Raise(e)
    case Ok(m) => ErrorFrom(m)
  }

  /** `GethWSResponse.parse_obj`. */
  function ParsePush(j: Json): (r: Outcome<WsPush>)
    ensures r.Raise? ==> r.exc == ValidationError || r.exc == TypeError
  {
    match KeywordArgs(j)
    case Raise(e) => Raise(e)
    case Ok(m) => PushFrom(m)
  }

  /** `GethRequest.parse_obj`. */
  function ParseRequest(j: Json): (r: Outcome<Request>)
    ensures r.Raise? ==> r.exc == ValidationError || r.exc == TypeError
    ensures j.JObj? && r.Ok? ==>
      "method" in j.fields && "params" in j.fields && j.fields["params"] == JArr(r.value.params)
  {
    match KeywordArgs(j)
    case Raise(e) => Raise(e)
    case Ok(m) => RequestFrom(m)
  }

  /** `parse_raw`: text that is not JSON is a validation error. The body is
      given decoded, `None` standing for text that does not decode. */
  function ParseSuccessRaw(body: Option<Json>): Outcome<SuccessResponse> {
    match body
    case None => Raise(ValidationError)
    case Some(j) => ParseSuccess(j)
  }

  function ParseErrorRaw(body: Option<Json>): Outcome<ErrorResponse> {
    match body
    case None => Raise(ValidationError)
    case Some(j) => ParseError(j)
  }

  function ParsePushRaw(body: Option<Json>): Outcome<WsPush> {
    match body
    case None => Raise(ValidationError)
    case Some(j) => ParsePush(j)
  }

  /** `GethResponse`: the two reply shapes. */
  datatype Response = Success(success: SuccessResponse) | Failure(failure: ErrorResponse)

  /** `parse_response`: the success shape first; only a validation error
      of that parse leads to the error shape, whose own failure propagates. */
  function ParseResponse(body: Option<Json>): (r: Outcome<Response>)
    ensures r.Raise? ==> r.exc == ValidationError || r.exc == TypeError
  {
    match ParseSuccessRaw(body)
    case Ok(s) => Ok(Success(s))
    case Raise(e) =>
      if e != ValidationError then Raise(e)
      else
        match ParseErrorRaw(body)
        case Ok(err) => Ok(Failure(err))
        case Raise(e2) => Raise(e2)
  }

  /** A document that reads as an error reply reads as a success reply with
      the same envelope. */
  lemma ErrorShapeIsSuccessShape(j: Json)
    requires ParseError(j).Ok?
    ensures ParseSuccess(j).Ok?
    ensures ParseSuccess(j).value.jsonrpc == ParseError(j).value.jsonrpc
    ensures ParseSuccess(j).value.id == ParseError(j).value.id
  {
    var m := KeywordArgs(j).value;
    assert JsonrpcField(m).Ok? && IdField(m).Ok?;
  }

  /** Consequently `parse_response` never yields the error shape: it is the
      success parse, outcome for outcome. */
  lemma ParseResponseIsSuccessParse(body: Option<Json>)
    ensures ParseResponse(body) ==
      (match ParseSuccessRaw(body)
       case Ok(s) => Ok(Success(s))
       case Raise(e) => Raise(e))
  {
    if body.Some? && ParseError(body.value).Ok? {
      ErrorShapeIsSuccessShape(body.value);
    }
  }

  /** A JSON-RPC error reply is read as a success whose `result` is `None`. */
  lemma ErrorReplyReadsAsSuccess(id: int, code: int, message: string)
    ensures var doc := JObj(map["jsonrpc" := JStr("2.0"), "id" := JInt(id),
                               "error" := JObj(map["code" := JInt(code), "message" := JStr(message)])]);
      ParseError(doc) == Ok(ErrorResponse("2.0", Some(id), ErrorDetail("2.0", code, message))) &&
      ParseResponse(Some(doc)) == Ok(Success(SuccessResponse("2.0", Some(id), JNull)))
  {
  }

  /** Any method name is accepted in a push. */
  lemma PushMethodUnchecked(methodName: string, subscription: string, result: Json)
    ensures ParsePush(JObj(map["method" := JStr(methodName),
                               "params" := JObj(map["subscription" := JStr(subscription), "result" := result])]))
      == Ok(WsPush("2.0", methodName, WsItem(subscription, result)))
  {
  }

  /** A request reads back from the document it is sent as. */
  lemma RequestRoundTrip(r: Request)
    ensures ParseRequest(RequestJson(r)) == Ok(r)
  {
    var m := KeywordArgs(RequestJson(r)).value;
    assert m["params"].items == r.params;
  }

  /** An `int` field reads the decimal text of a number back. */
  lemma IntFieldReadsDecimal(i: int)
    ensures IntField(JStr(Decimal(i))) == Ok(i)
    ensures StrField(JInt(i)) == Ok(Decimal(i))
  {
    DecimalRoundTrip(i);
  }
}
