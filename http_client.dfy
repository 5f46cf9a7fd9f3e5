/** `GethHttpCustomized` of `connectors/http/base.py`: JSON-RPC over HTTP
    with a request id counter, single calls and batches. The HTTP exchange
    is the client's `post` oracle: it takes the request document and gives
    back the decoded reply body (`None` for a body that is not JSON), or
    fails. */
module HttpClient {
  import opened Common
  import opened JsonValue
  import opened Exceptions
  import opened Geth

  /** What one HTTP POST brings back. */
  datatype Reply = RequestFailed | Received(body: Option<Json>)

  /** The id at which the counter starts over. */
  const IdLimit: nat := 100000000

  /** The id allocation of `send` and `send_multiple`: reset to 0 once the
      counter has reached the limit, then increment. */
  function NextId(id: nat): (r: nat)
    ensures 1 <= r <= IdLimit
    ensures id < IdLimit ==> r == id + 1
    ensures id >= IdLimit ==> r == 1
  {
    (if id >= IdLimit then 0 else id) + 1
  }

  /** The counter after `n` allocations. */
  function IdAfter(id: nat, n: nat): (r: nat)
    ensures n >= 1 ==> 1 <= r <= IdLimit
  {
    if n == 0 then id else NextId(IdAfter(id, n - 1))
  }

  /** From a fresh client, the first `IdLimit` allocations give 1, 2, …, n. */
  lemma {:induction false} IdsCountFromOne(n: nat)
    requires n <= IdLimit
    ensures IdAfter(0, n) == n
  {
    if n > 0 {
      IdsCountFromOne(n - 1);
    }
  }

  /** The allocation after id `IdLimit` gives 1 again. */
  lemma IdsWrapAround()
    ensures IdAfter(0, IdLimit + 1) == 1
  {
    IdsCountFromOne(IdLimit);
  }

  /** Allocating `a` ids and then `b` more is allocating `a + b`. */
  lemma {:induction false} IdAfterAdds(id: nat, a: nat, b: nat)
    ensures IdAfter(IdAfter(id, a), b) == IdAfter(id, a + b)
  {
    if b > 0 {
      IdAfterAdds(id, a, b - 1);
    }
  }

  /** One call of a batch: a method name and its `params`, which may be
      `None`. */
  datatype Call = Call(methodName: string, params: Option<seq<Json>>)

  /** `if params is None: params = []`. */
  function ParamsOrEmpty(params: Option<seq<Json>>): (r: seq<Json>)
    ensures params.Some? ==> r == params.value
    ensures params.None? ==> r == []
  {
    match params
    case Some(p) => p
    case None => []
  }

  /** The requests `send_multiple` builds: call `k` gets the `k+1`-th id
      allocated from `id`. */
  function BatchRequests(id: nat, calls: seq<Call>): (rs: seq<Request>)
    ensures |rs| == |calls|
  {
    seq(|calls|, k requires 0 <= k < |calls| =>
      NewRequest(Some(IdAfter(id, k + 1)), calls[k].methodName, ParamsOrEmpty(calls[k].params)))
  }

  /** Requests of a batch sent from a fresh client carry the ids 1..n in
      list order, so no two of them share an id. */
  lemma BatchIdsFromFreshClient(calls: seq<Call>)
    requires |calls| <= IdLimit
    ensures forall k :: 0 <= k < |calls| ==> BatchRequests(0, calls)[k].id == Some(k + 1)
    ensures forall j, k :: 0 <= j < k < |calls| ==> BatchRequests(0, calls)[j].id != BatchRequests(0, calls)[k].id
  {
    forall k | 0 <= k < |calls| ensures BatchRequests(0, calls)[k].id == Some(k + 1) {
      IdsCountFromOne(k + 1);
    }
  }

  /** The body of a batch: the list of request documents. */
  function BatchJson(rs: seq<Request>): (j: Json)
    ensures j.JArr? && |j.items| == |rs|
    ensures forall k :: 0 <= k < |rs| ==> ParseRequest(j.items[k]) == Ok(rs[k])
  {
    var j := JArr(seq(|rs|, k requires 0 <= k < |rs| => RequestJson(rs[k])));
    assert forall k :: 0 <= k < |rs| ==> ParseRequest(j.items[k]) == Ok(rs[k]) by {
      forall k | 0 <= k < |rs| ensures ParseRequest(j.items[k]) == Ok(rs[k]) {
        RequestRoundTrip(rs[k]);
      }
    }
    j
  }

  /** The two lists `parse_multiple_responses` returns. */
  type Batch = (seq<SuccessResponse>, seq<ErrorResponse>)

  /** The loop of `parse_multiple_responses` over `items`: each item is read
      as a success if it can be, else as an error reply, and a failure of
      both ends the loop with the error parse's exception. */
  function Partition(items: seq<Json>): (r: Outcome<Batch>)
    ensures r.Ok? ==> |r.value.0| + |r.value.1| == |items|
    ensures r.Raise? ==> r.exc == ValidationError || r.exc == TypeError
    decreases |items|
  {
    if items == [] then Ok(([], []))
    else
      match Partition(items[..|items| - 1])
      case Raise(e) => Raise(e)
      case Ok((success, errors)) =>
        match ParseResponse(Some(items[|items| - 1]))
        case Raise(e) => Raise(e)
        case Ok(Success(s)) => Ok((success + [s], errors))
        case Ok(Failure(f)) => Ok((success, errors + [f]))
  }

  /** The loop stops at the first item that raises. */
  lemma {:induction false} PartitionStopsAtRaise(items: seq<Json>, n: nat)
    requires n <= |items| && Partition(items[..n]).Raise?
    ensures Partition(items) == Partition(items[..n])
    decreases |items|
  {
    if n < |items| {
      var init := items[..|items| - 1];
      assert init[..n] == items[..n];
      PartitionStopsAtRaise(init, n);
    } else {
      assert items[..n] == items;
    }
  }

  /** The default reply `GethSuccessResponse.parse_obj("")` builds. */
  const EmptyReply: SuccessResponse := SuccessResponse("2.0", None, JNull)

  /** `parse_multiple_responses`: the body must decode; the loop then runs
      over whatever Python iterates in it. A list gives its items and a
      string its characters; a dict gives its keys, in an order the model
      does not fix, and only the key "" reads as a reply. A number, a bool
      or `null` is not iterable. */
  function ParseBatch(body: Option<Json>): (r: Outcome<Batch>)
    ensures body.None? ==> r == Raise(JsonDecodeError)
    ensures r.Raise? ==> r.exc in {JsonDecodeError, ValidationError, TypeError}
  {
    match body
    case None => Raise(JsonDecodeError)
    case Some(JArr(items)) => Partition(items)
    case Some(JStr(s)) => Partition(seq(|s|, i requires 0 <= i < |s| => JStr([s[i]])))
    case Some(JObj(m)) =>
      if m.Keys <= {""} then Ok((if "" in m then [EmptyReply] else [], []))
      else Raise(ValidationError)
    case Some(_) => Raise(TypeError)
  }

  /** The error list of a batch is always empty: every element that reads
      as an error reply also reads as a success, so the successes are the
      items themselves, parsed in order, and the batch succeeds exactly when
      every item parses as a success. */
  lemma {:induction false} PartitionIsItemwise(items: seq<Json>)
    ensures Partition(items).Ok? <==> forall k :: 0 <= k < |items| ==> ParseSuccess(items[k]).Ok?
    ensures Partition(items).Ok? ==>
      && Partition(items).value.1 == []
      && |Partition(items).value.0| == |items|
      && forall k :: 0 <= k < |items| ==> Partition(items).value.0[k] == ParseSuccess(items[k]).value
    decreases |items|
  {
    if items != [] {
      var init := items[..|items| - 1];
      var last := items[|items| - 1];
      PartitionIsItemwise(init);
      ParseResponseIsSuccessParse(Some(last));
      assert forall k :: 0 <= k < |init| ==> init[k] == items[k];
    }
  }

  /** Whatever the node answers, a batch that parses has no error replies. */
  lemma BatchErrorsEmpty(body: Option<Json>)
    requires ParseBatch(body).Ok?
    ensures ParseBatch(body).value.1 == []
  {
    match body
    case Some(JArr(items)) => PartitionIsItemwise(items);
    case Some(JStr(s)) => PartitionIsItemwise(seq(|s|, i requires 0 <= i < |s| => JStr([s[i]])));
    case _ =>
  }

  /** `send`'s fate for one allocated id: a failed exchange raises
      `RequestError`; a reply that parses as neither shape raises the
      parse's exception; the error shape raises `GethError`; a success for
      another id raises `IdNotMatch`; otherwise the result comes back. */
  function SendOutcome(post: Json -> Reply, id: nat, methodName: string, params: seq<Json>): (r: Outcome<Json>)
    ensures r.Raise? ==> r.exc in {RequestError, ValidationError, TypeError} || r.exc.IdNotMatch?
    ensures r.Raise? && r.exc.IdNotMatch? ==> r.exc.sent == id && r.exc.received != Some(id)
  {
    match post(RequestJson(NewRequest(Some(id), methodName, params)))
    case RequestFailed => Raise(RequestError)
    case Received(body) =>
      ParseResponseIsSuccessParse(body);
      match ParseResponse(body)
      case Raise(e) => Raise(e)
      case Ok(Failure(f)) => Raise(GethErr(GethErrorOf(f.error)))
      case Ok(Success(s)) =>
        if s.id != Some(id) then Raise(IdNotMatch(id, s.id)) else Ok(s.result)
  }

  /** A success reply carrying the allocated id returns its `result`
      unchanged; one carrying another id, or none, raises `IdNotMatch`. */
  lemma SendChecksId(post: Json -> Reply, id: nat, methodName: string, params: seq<Json>, doc: Json)
    requires post(RequestJson(NewRequest(Some(id), methodName, params))) == Received(Some(doc))
    requires ParseSuccess(doc).Ok?
    ensures ParseSuccess(doc).value.id == Some(id) ==>
      SendOutcome(post, id, methodName, params) == Ok(ParseSuccess(doc).value.result)
    ensures ParseSuccess(doc).value.id != Some(id) ==>
      SendOutcome(post, id, methodName, params) == Raise(IdNotMatch(id, ParseSuccess(doc).value.id))
  {
    ParseResponseIsSuccessParse(Some(doc));
  }

  /** An error reply for the allocated id does not raise `GethError`: it
      reads as a success and `send` returns `None`. */
  lemma SendErrorReplyReturnsNull(post: Json -> Reply, id: nat, methodName: string, params: seq<Json>, code: int, message: string)
    requires post(RequestJson(NewRequest(Some(id), methodName, params))) ==
      Received(Some(JObj(map["jsonrpc" := JStr("2.0"), "id" := JInt(id),
                             "error" := JObj(map["code" := JInt(code), "message" := JStr(message)])])))
    ensures SendOutcome(post, id, methodName, params) == Ok(JNull)
  {
    ErrorReplyReadsAsSuccess(id, code, message);
  }

  /** `send_multiple`'s fate: the batch of requests goes out as one list and
      the reply is split by `parse_multiple_responses`. */
  function BatchOutcome(post: Json -> Reply, id: nat, calls: seq<Call>): (r: Outcome<Batch>)
    ensures r.Raise? ==> r.exc in {RequestError, JsonDecodeError, ValidationError, TypeError}
  {
    match post(BatchJson(BatchRequests(id, calls)))
    case RequestFailed => Raise(RequestError)
    case Received(body) =>
      ParseBatch(body)
  }

  class Client {
    const url: string
    /** The HTTP exchange with the node at `url`. */
    const post: Json -> Reply
    /** The last id allocated, 0 before the first. */
    var id: nat

    predicate Valid()
      reads this
    {
      id <= IdLimit
    }

    constructor (url: string, post: Json -> Reply)
      ensures this.url == url && this.post == post && id == 0
      ensures Valid()
    {
      this.url := url;
      this.post := post;
      id := 0;
    }

    /** `send`: the id is allocated before the exchange, so the counter moves
        even when the call fails. */
    method Send(methodName: string, params: Option<seq<Json>>) returns (r: Outcome<Json>)
      requires Valid()
      modifies this
      ensures Valid() && id == NextId(old(id)) && 1 <= id
      ensures r == SendOutcome(post, id, methodName, ParamsOrEmpty(params))
    {
      var p := if params.None? then [] else params.value;
      if id >= IdLimit {
        id := 0;
      }
      id := id + 1;
      var sent := id;
      var reply := post(RequestJson(NewRequest(Some(sent), methodName, p)));
      if reply.RequestFailed? {
        return Raise(RequestError);
      }
      var response := ParseResponse(reply.body);
      if response.Raise? {
        return Raise(response.exc);
      }
      if response.value.Failure? {
        return Raise(GethErr(GethErrorOf(response.value.failure.error)));
      }
      if response.value.success.id != Some(sent) {
        return Raise(IdNotMatch(sent, response.value.success.id));
      }
      r := Ok(response.value.success.result);
    }

    /** `parse_multiple_responses`. */
    method ParseMultipleResponses(body: Option<Json>) returns (r: Outcome<Batch>)
      ensures r == ParseBatch(body)
    {
      if body.None? {
        return Raise(JsonDecodeError);
      }
      var doc := body.value;
      if doc.JObj? {
        r := ParseKeys(doc.fields);
        return;
      }
      if !(doc.JArr? || doc.JStr?) {
        return Raise(TypeError);
      }
      var items := if doc.JArr? then doc.items else seq(|doc.s|, i requires 0 <= i < |doc.s| => JStr([doc.s[i]]));
      r := ParseItems(items);
    }

    /** The loop of `parse_multiple_responses` over a list: each item is
        tried as a success reply, then, on a validation error, as an error
        reply. */
    method ParseItems(items: seq<Json>) returns (r: Outcome<Batch>)
      ensures r == Partition(items)
    {
      var success: seq<SuccessResponse> := [];
      var errors: seq<ErrorResponse> := [];
      var i := 0;
      while i < |items|
        invariant 0 <= i <= |items|
        invariant Partition(items[..i]) == Ok((success, errors))
      {
        assert items[..i + 1][..i] == items[..i] && items[..i + 1][i] == items[i];
        var s := ParseSuccess(items[i]);
        if s.Ok? {
          success := success + [s.value];
        } else if s.exc != ValidationError {
          PartitionStopsAtRaise(items, i + 1);
          return Raise(s.exc);
        } else {
          var e := ParseError(items[i]);
          if e.Raise? {
            PartitionStopsAtRaise(items, i + 1);
            return Raise(e.exc);
          }
          errors := errors + [e.value];
        }
        i := i + 1;
      }
      assert items[..i] == items;
      r := Ok((success, errors));
    }

    /** The loop of `parse_multiple_responses` over the keys of a dict, taken
        in any order. */
    method ParseKeys(m: map<string, Json>) returns (r: Outcome<Batch>)
      ensures r == ParseBatch(Some(JObj(m)))
    {
      var keys := m.Keys;
      var success: seq<SuccessResponse> := [];
      while keys != {}
        invariant keys <= m.Keys
        invariant forall k :: k in m.Keys && k !in keys ==> k == ""
        invariant success == (if "" in m && "" !in keys then [EmptyReply] else [])
        decreases keys
      {
        var k :| k in keys;
        if k != "" {
          return Raise(ValidationError);
        }
        success := success + [EmptyReply];
        keys := keys - {k};
      }
      assert m.Keys <= {""};
      r := Ok((success, []));
    }

    /** `send_multiple`: one id per call, in list order, allocated before
        the exchange. */
    method SendMultiple(calls: seq<Call>) returns (r: Outcome<Batch>)
      requires Valid()
      modifies this
      ensures Valid() && id == IdAfter(old(id), |calls|)
      ensures r == BatchOutcome(post, old(id), calls)
    {
      var requests: seq<Request> := [];
      var i := 0;
      while i < |calls|
        invariant 0 <= i <= |calls|
        invariant Valid() && id == IdAfter(old(id), i)
        invariant |requests| == i
        invariant forall k :: 0 <= k < i ==> requests[k] == BatchRequests(old(id), calls)[k]
      {
        if id >= IdLimit {
          id := 0;
        }
        id := id + 1;
        var params := if calls[i].params.None? then [] else calls[i].params.value;
        requests := requests + [NewRequest(Some(id), calls[i].methodName, params)];
        i := i + 1;
      }
      assert requests == BatchRequests(old(id), calls);
      var reply := post(BatchJson(requests));
      if reply.RequestFailed? {
        return Raise(RequestError);
      }
      r := ParseMultipleResponses(reply.body);
    }

    /** `is_connected`: a `net_version` call that raises nothing. */
    method IsConnected() returns (connected: bool)
      requires Valid()
      modifies this
      ensures Valid() && id == NextId(old(id))
      ensures connected <==> SendOutcome(post, id, "net_version", []).Ok?
    {
      var r := Send("net_version", None);
      connected := r.Ok?;
    }
  }
}
