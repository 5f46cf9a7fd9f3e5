/** The exceptions the client raises, the outcome of a call that may raise,
    and the messages of the node's error exceptions. */
module Exceptions {
  import opened Common
  import opened Text
  import opened Numerals
  import opened JsonValue

  /** One error object of a JSON-RPC error reply (`GethErrorDetail`). */
  datatype ErrorDetail = ErrorDetail(jsonrpc: string, code: int, message: string)

  /** `GethError`: built from one detail it keeps `code` and `msg`; built
      from a list it keeps only the list of formatted lines. */
  datatype GethError = SingleError(code: int, msg: string) | ErrorList(lines: seq<string>)

  /** The argument an exception carries: one string or a list of strings. */
  datatype ExcArgs = Line(text: string) | Lines(texts: seq<string>)

  /** `GethGraphQLError(msgs, data)`: both are kept as they arrived. */
  datatype GraphQLError = GraphQLError(msgs: Json, data: Json)

  datatype Exc =
    | ValidationError       // pydantic.ValidationError
    | JsonDecodeError       // orjson.JSONDecodeError
    | UnicodeDecodeError    // bytes.decode on a binary frame
    | TypeError
    | ValueError
    | KeyError
    | IndexError
    | RequestError          // httpx.RequestError: the HTTP exchange failed
    | ConnectError          // the websocket connection could not be opened
    | ConnectionClosed      // websockets.ConnectionClosed
    | GethErr(error: GethError)
    | IdNotMatch(sent: int, received: Option<int>)
    | GraphQLErr(graphql: GraphQLError)
    | GethIsDead
    | NoSubscribeToken

  /** The result of a Python call: a value, or the exception it raised. */
  datatype Outcome<+T> = Ok(value: T) | Raise(exc: Exc)

  /** `f"{code}: {message}"`: the code in decimal, which reads back to
      the code, then ": ", then the message as it arrived. */
  function DetailLine(d: ErrorDetail): (s: string)
    ensures var n := |Decimal(d.code)|;
      |s| == n + 2 + |d.message| && ParseDecimal(s[..n]) == Some(d.code) &&
      s[n..n + 2] == ": " && s[n + 2..] == d.message
  {
    DecimalRoundTrip(d.code);
    var s := Decimal(d.code) + ": " + d.message;
    assert s[..|Decimal(d.code)|] == Decimal(d.code);
    s
  }

  /** `GethError` built from one detail: it keeps the code and the message,
      and passes the detail's formatted line to `Exception`. */
  function GethErrorOf(d: ErrorDetail): (e: GethError)
    ensures e.SingleError? && e.code == d.code && e.msg == d.message
    ensures GethErrorArgs(e) == Line(DetailLine(d))
  {
    SingleError(d.code, d.message)
  }

  function GethErrorOfList(ds: seq<ErrorDetail>): (e: GethError)
    ensures e.ErrorList? && |e.lines| == |ds|
    ensures forall i :: 0 <= i < |ds| ==> e.lines[i] == DetailLine(ds[i])
  {
    ErrorList(seq(|ds|, i requires 0 <= i < |ds| => DetailLine(ds[i])))
  }

  /** The argument the exception passes to `Exception.__init__`. */
  function GethErrorArgs(e: GethError): ExcArgs {
    match e
    case SingleError(code, msg) => Line(DetailLine(ErrorDetail("2.0", code, msg)))
    case ErrorList(lines) => Lines(lines)
  }

  lemma DecimalHasNoColon(i: int)
    ensures ':' !in Decimal(i)
  {
    var d := NatDigits(if i < 0 then -i else i, 10);
    assert forall k :: 0 <= k < |d| ==> d[k] != ':' by {
      assert forall k :: 0 <= k < |d| ==> IsDecDigit(d[k]);
    }
    if i < 0 {
      assert Decimal(i) == "-" + d;
      assert forall k :: 0 <= k < |Decimal(i)| ==> Decimal(i)[k] != ':' by {
        forall k | 0 <= k < |Decimal(i)| ensures Decimal(i)[k] != ':' {
          if k > 0 { assert Decimal(i)[k] == d[k - 1]; }
        }
      }
    }
  }

  /** The code and the message can be read back from the formatted line:
      the text before the first ": " is the code in decimal, the rest is the
      message. */
  lemma {:induction false} DetailLineInverse(d: ErrorDetail)
    ensures var parts := Split(DetailLine(d), ": ");
      ParseDecimal(parts[0]) == Some(d.code) && |parts[0]| + 2 <= |DetailLine(d)| &&
      DetailLine(d)[|parts[0]| + 2..] == d.message
  {
    DecimalHasNoColon(d.code);
    SplitAtMarker(Decimal(d.code), ": ", d.message, 0);
    DecimalRoundTrip(d.code);
    assert DetailLine(d) == Decimal(d.code) + ": " + d.message;
  }

  /** `"\n".join(msgs)` when `msgs` is a list of strings or a string (whose
      characters are joined); `None` when Python raises `TypeError` and when
      `msgs` is a non-empty dict, whose keys Python joins in an order the
      model does not keep. */
  function GraphQLMessage(msgs: Json): (r: Option<string>)
    ensures msgs.JArr? && (forall i :: 0 <= i < |msgs.items| ==> msgs.items[i].JStr?) ==> r.Some?
  {
    match msgs
    case JArr(items) =>
      if forall i :: 0 <= i < |items| ==> items[i].JStr? then
        Some(Join(seq(|items|, i requires 0 <= i < |items| => items[i].s), "\n"))
      else None
    case JStr(s) => Some(Join(seq(|s|, i requires 0 <= i < |s| => [s[i]]), "\n"))
    case JObj(fields) => if |fields| == 0 then Some("") else None
    case _ => None
  }

  /** Whether constructing `GethGraphQLError(msgs, data)` succeeds: joining
      raises `TypeError` unless `msgs` is a string, a dict (whose keys are
      strings) or a list of strings. */
  predicate GraphQLJoinSucceeds(msgs: Json) {
    match msgs
    case JArr(items) => forall i :: 0 <= i < |items| ==> items[i].JStr?
    case JStr(_) => true
    case JObj(_) => true
    case _ => false
  }

  /** A list of messages without newlines can be recovered from the text. */
  lemma GraphQLMessageSplits(msgs: seq<string>)
    requires |msgs| >= 1 && forall m :: m in msgs ==> '\n' !in m
    ensures var doc := JArr(seq(|msgs|, i requires 0 <= i < |msgs| => JStr(msgs[i])));
      GraphQLMessage(doc).Some? && Split(GraphQLMessage(doc).value, "\n") == msgs
  {
    var doc := JArr(seq(|msgs|, i requires 0 <= i < |msgs| => JStr(msgs[i])));
    assert seq(|doc.items|, i requires 0 <= i < |doc.items| => doc.items[i].s) == msgs;
    SplitJoin(msgs, '\n');
  }

  /** `x[key]` on a decoded JSON value: a dict without the key raises
      `KeyError`, anything that is not a dict raises `TypeError`. */
  function Subscript(j: Json, key: string): (r: Outcome<Json>)
    ensures r.Ok? <==> j.JObj? && key in j.fields
    ensures r.Ok? ==> r.value == j.fields[key]
    ensures r.Raise? ==> r.exc == (if j.JObj? then KeyError else TypeError)
  {
    match j
    case JObj(fields) => if key in fields then Ok(fields[key]) else Raise(KeyError)
    case _ => Raise(TypeError)
  }
}
