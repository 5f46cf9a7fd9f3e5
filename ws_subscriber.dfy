/** The frame handling of `GethSubscriber._recieve_loop`
    (`connectors/ws/base.py`), shared with the earlier revision: a frame is
    decoded, then read as a subscription push, else as a success reply, else
    as an error reply, which raises. */
module WsSubscriber {
  import opened Common
  import opened JsonValue
  import opened Exceptions
  import opened Geth

  /** A frame as it arrives. The text is given decoded (`None` for text that
      is not JSON); a binary frame also says whether its bytes are UTF-8. */
  datatype Frame = TextFrame(body: Option<Json>) | BytesFrame(utf8: bool, body: Option<Json>)

  /** `data.decode()` on a binary frame. */
  function Decode(f: Frame): (r: Outcome<Option<Json>>)
    ensures r.Ok? ==> r.value == f.body
    ensures r.Raise? <==> f.BytesFrame? && !f.utf8
  {
    if f.BytesFrame? && !f.utf8 then Raise(UnicodeDecodeError) else Ok(f.body)
  }

  /** What `handle` receives. */
  datatype Message = Push(push: WsPush) | Reply(success: SuccessResponse)

  /** The classification: a push first, then a success reply; only a
      validation error moves on to the next shape, and an error reply
      raises `GethError` with its detail. */
  function Classify(body: Option<Json>): (r: Outcome<Message>)
    ensures ParsePushRaw(body).Ok? ==> r == Ok(Push(ParsePushRaw(body).value))
    ensures ParsePushRaw(body) == Raise(ValidationError) && ParseSuccessRaw(body).Ok? ==>
      r == Ok(Reply(ParseSuccessRaw(body).value))
    ensures r.Ok? && r.value.Reply? ==> ParsePushRaw(body) == Raise(ValidationError)
  {
    match ParsePushRaw(body)
    case Ok(p) => Ok(Push(p))
    case Raise(e) =>
      if e != ValidationError then Raise(e)
      else
        match ParseSuccessRaw(body)
        case Ok(s) => Ok(Reply(s))
        case Raise(e2) =>
          if e2 != ValidationError then Raise(e2)
          else
            match ParseErrorRaw(body)
            case Ok(err) => Raise(GethErr(GethErrorOf(err.error)))
            case Raise(e3) => Raise(e3)
  }

  /** The `GethError` branch is never taken: a frame that reads as an error
      reply reads as a success reply first. A frame is rejected only with the
      exception of its parse. */
  lemma ClassifyNeverRaisesGethError(body: Option<Json>)
    ensures Classify(body).Raise? ==> Classify(body).exc in {ValidationError, TypeError}
  {
    if body.Some? && ParseError(body.value).Ok? {
      ErrorShapeIsSuccessShape(body.value);
    }
  }

  /** An error reply from the node reaches `handle` as a success whose result
      is `None`. */
  lemma ErrorFrameReachesHandle(id: int, code: int, message: string)
    ensures var doc := JObj(map["jsonrpc" := JStr("2.0"), "id" := JInt(id),
                               "error" := JObj(map["code" := JInt(code), "message" := JStr(message)])]);
      Classify(Some(doc)) == Ok(Reply(SuccessResponse("2.0", Some(id), JNull)))
  {
    ErrorReplyReadsAsSuccess(id, code, message);
  }

  /** Decoding then classifying one frame. */
  function Receive(f: Frame): (r: Outcome<Message>)
    ensures f.TextFrame? ==> r == Classify(f.body)
    ensures f.BytesFrame? && f.utf8 ==> r == Classify(f.body)
  {
    match Decode(f)
    case Raise(e) => Raise(e)
    case Ok(body) => Classify(body)
  }
}
