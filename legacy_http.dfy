/** The earlier `GethHttpCustomized` (`connnectors/http/base.py`): the same
    id counter, but `send` parses the reply inline, checking the id inside
    the block that falls back to the error shape. */
module LegacyHttp {
  import opened Common
  import opened JsonValue
  import opened Exceptions
  import opened Geth
  import opened HttpClient

  /** The older `send` for one allocated id: a success reply is checked for
      the id at once (the `IdNotMatch` it raises is not a validation error,
      so it escapes the fallback); only a failed success parse falls back to
      the error shape, which raises `GethError`. It behaves exactly as the
      newer `send`. */
  function LegacySendOutcome(post: Json -> Reply, id: nat, methodName: string, params: seq<Json>): (r: Outcome<Json>)
    ensures r == SendOutcome(post, id, methodName, params)
  {
    match post(RequestJson(NewRequest(Some(id), methodName, params)))
    case RequestFailed => Raise(RequestError)
    case Received(body) =>
      match ParseSuccessRaw(body)
      case Ok(s) =>
        if s.id != Some(id) then Raise(IdNotMatch(id, s.id)) else Ok(s.result)
      case Raise(e) =>
        if e != ValidationError then Raise(e)
        else
          match ParseErrorRaw(body)
          case Ok(err) => Raise(GethErr(GethErrorOf(err.error)))
          case Raise(e2) => Raise(e2)
  }

  /** As in the newer client, the `GethError` branch is dead: a reply the
      older `send` rejects is rejected for its id or for its shape. */
  lemma LegacySendNeverRaisesGethError(post: Json -> Reply, id: nat, methodName: string, params: seq<Json>)
    ensures LegacySendOutcome(post, id, methodName, params).Raise? ==>
      LegacySendOutcome(post, id, methodName, params).exc.IdNotMatch? ||
      LegacySendOutcome(post, id, methodName, params).exc in {RequestError, ValidationError, TypeError}
  {
    match post(RequestJson(NewRequest(Some(id), methodName, params)))
    case RequestFailed =>
    case Received(body) =>
      if body.Some? && ParseError(body.value).Ok? {
        ErrorShapeIsSuccessShape(body.value);
      }
  }

  class LegacyClient {
    const url: string
    const post: Json -> Reply
    var id: nat

    predicate Valid()
      reads this
    {
      id <= IdLimit
    }

    constructor (url: string, post: Json -> Reply)
      ensures this.url == url && this.post == post && id == 0
      ensures Valid()
    {
      this.url := url;
      this.post := post;
      id := 0;
    }

    /** The older `send`: `None` params become `[]`, the id is allocated as
        in the newer client, then the reply is parsed inline. */
    method Send(methodName: string, params: Option<seq<Json>>) returns (r: Outcome<Json>)
      requires Valid()
      modifies this
      ensures Valid() && id == NextId(old(id)) && 1 <= id <= IdLimit
      ensures r == LegacySendOutcome(post, id, methodName, ParamsOrEmpty(params))
    {
      var p := if params.None? then [] else params.value;
      if id >= IdLimit {
        id := 0;
      }
      id := id + 1;
      var sent := id;
      var reply := post(RequestJson(NewRequest(Some(sent), methodName, p)));
      if reply.RequestFailed? {
        return Raise(RequestError);
      }
      var success := ParseSuccessRaw(reply.body);
      if success.Ok? {
        if success.value.id != Some(sent) {
          return Raise(IdNotMatch(sent, success.value.id));
        }
        return Ok(success.value.result);
      }
      if success.exc != ValidationError {
        return Raise(success.exc);
      }
      var failure := ParseErrorRaw(reply.body);
      if failure.Raise? {
        return Raise(failure.exc);
      }
      r := Raise(GethErr(GethErrorOf(failure.value.error)));
    }

    /** The older `is_connected`: a `net_version` call that raises nothing. */
    method IsConnected() returns (connected: bool)
      requires Valid()
      modifies this
      ensures Valid() && id == NextId(old(id))
      ensures connected <==> SendOutcome(post, id, "net_version", []).Ok?
    {
      var r := Send("net_version", None);
      connected := r.Ok?;
    }
  }
}
