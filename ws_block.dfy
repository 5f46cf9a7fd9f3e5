/** `GethSubscriber` (`connectors/ws/base.py`) together with its one concrete
    subclass `GethNewBlockSubscriber` (`connectors/ws/block.py`).

    The two coroutines of a connection, `after_connection` and the receive
    loop, are run one step at a time: `after_connection` sends its first
    `eth_syncing` poll, then every frame is received and handled, and after
    each handled frame a waiting `after_connection` whose event is set runs
    one more pass of its loop (the five-second sleeps are not modelled). */
module WsBlock {
  import opened Common
  import opened JsonValue
  import opened Exceptions
  import opened Geth
  import opened WsSubscriber

  /** The gates of the block subscriber and what `handle` has passed on:
      `syncingSet` is the `syncing` event; `blocks` are the `params.result`
      of the pushes given to `on_block`, `others` the replies given to
      `on_other`. */
  datatype Gates = Gates(
    waitSyncing: bool,
    syncingSet: bool,
    waitFirst: bool,
    token: Option<string>,
    blocks: seq<Json>,
    others: seq<SuccessResponse>)

  /** `handle`: while waiting for the node to sync only a success reply is
      accepted, and a `False` result opens the gate; then the first reply
      must carry the subscription token; afterwards replies go to
      `on_other` and pushes to `on_block`. */
  function HandleStep(g: Gates, m: Message): (r: (Gates, Outcome<()>))
    // the gates only close
    ensures !g.waitSyncing ==> !r.0.waitSyncing
    ensures !g.waitFirst ==> !r.0.waitFirst
    // the syncing stage
    ensures g.waitSyncing ==>
      && (r.1.Raise? <==> !m.Reply?)
      && (r.1.Raise? ==> r == (g, Raise(GethIsDead)))
      && (r.1.Ok? ==> r.0 == g.(waitSyncing := m.success.result != JBool(false), syncingSet := true))
    // the token stage, reached only once the node is synced
    ensures !g.waitSyncing && g.waitFirst ==>
      && (r.1.Ok? <==> m.Reply? && m.success.result.JStr?)
      && (r.1.Raise? ==> r == (g, Raise(NoSubscribeToken)))
      && (r.1.Ok? ==> r.0 == g.(waitFirst := false, token := Some(m.success.result.s)))
    // streaming: every message is passed on, in order
    ensures !g.waitSyncing && !g.waitFirst ==>
      && r.1.Ok?
      && r.0.blocks == g.blocks + (if m.Push? then [m.push.params.result] else [])
      && r.0.others == g.others + (if m.Reply? then [m.success] else [])
      && r.0.waitSyncing == g.waitSyncing && r.0.waitFirst == g.waitFirst && r.0.token == g.token
    ensures g.waitSyncing || g.waitFirst ==> r.0.blocks == g.blocks && r.0.others == g.others
  {
    if g.waitSyncing then
      if !m.Reply? then (g, Raise(GethIsDead))
      else
        var synced := m.success.result == JBool(false);
        (g.(waitSyncing := !synced, syncingSet := true), Ok(()))
    else if g.waitFirst then
      if !m.Reply? || !m.success.result.JStr? then (g, Raise(NoSubscribeToken))
      else (g.(token := Some(m.success.result.s), waitFirst := false), Ok(()))
    else if m.Reply? then (g.(others := g.others + [m.success]), Ok(()))
    else (g.(blocks := g.blocks + [m.push.params.result]), Ok(()))
  }

  /** How many of the two gates are open; 2 when streaming. */
  function Stage(g: Gates): nat {
    (if g.waitSyncing then 0 else 1) + (if g.waitFirst then 0 else 1)
  }

  /** `handle` over messages in order, stopping at the first exception. */
  function HandleAll(g: Gates, ms: seq<Message>): (Gates, Outcome<()>)
    decreases |ms|
  {
    if ms == [] then (g, Ok(()))
    else
      var (g1, r) := HandleStep(g, ms[0]);
      if r.Raise? then (g1, r) else HandleAll(g1, ms[1..])
  }

  /** Each message moves the gates at most one stage, and a message in an
      earlier stage passes nothing on: so the first block or reply reaches
      its callback only after one message per gate still closed. */
  lemma {:induction false} DeliveriesNeedOpenGates(g: Gates, ms: seq<Message>)
    ensures var g2 := HandleAll(g, ms).0;
      Stage(g2) >= Stage(g) &&
      (|g2.blocks| - |g.blocks|) + (|g2.others| - |g.others|) + (Stage(g2) - Stage(g)) <= |ms|
    ensures var g2 := HandleAll(g, ms).0;
      |g2.blocks| >= |g.blocks| && |g2.others| >= |g.others| &&
      (|g2.blocks| > |g.blocks| || |g2.others| > |g.others| ==> Stage(g2) == 2)
    decreases |ms|
  {
    if ms != [] {
      var (g1, r) := HandleStep(g, ms[0]);
      assert Stage(g) <= Stage(g1) <= Stage(g) + 1;
      assert (|g1.blocks| - |g.blocks|) + (|g1.others| - |g.others|) + (Stage(g1) - Stage(g)) <= 1;
      if r.Ok? {
        DeliveriesNeedOpenGates(g1, ms[1..]);
      }
    }
  }

  /** On a fresh connection (both gates closed) nothing is passed on before
      the third message. */
  lemma FirstDeliveryAfterTwoMessages(g: Gates, ms: seq<Message>)
    requires g.waitSyncing && g.waitFirst
    ensures var g2 := HandleAll(g, ms).0;
      |g2.blocks| + |g2.others| > |g.blocks| + |g.others| ==>
        |g2.blocks| + |g2.others| - |g.blocks| - |g.others| <= |ms| - 2
  {
    DeliveriesNeedOpenGates(g, ms);
  }

  /** The state of one connection: the id counter, the requests written on
      it, the gates, whether `after_connection` has returned, and the id of
      the `newHeads` subscription. */
  datatype Conn = Conn(id: nat, sent: seq<Request>, gates: Gates, afterDone: bool, subscribeId: Option<int>)

  /** `send`: the next id, and the request written with it. */
  function SendStep(c: Conn, methodName: string, params: seq<Json>): (r: Conn)
    ensures r.id == c.id + 1 && r.sent == c.sent + [NewRequest(Some(c.id + 1), methodName, params)]
    ensures r.gates == c.gates && r.afterDone == c.afterDone && r.subscribeId == c.subscribeId
  {
    c.(id := c.id + 1, sent := c.sent + [NewRequest(Some(c.id + 1), methodName, params)])
  }

  /** `subscribe(param)` is `send("eth_subscribe", [param])`. */
  function SubscribeStep(c: Conn, param: string): Conn {
    SendStep(c, "eth_subscribe", [JStr(param)])
  }

  /** The poll `after_connection` repeats until the node is synced. */
  function SyncPoll(n: int): Request {
    NewRequest(Some(n), "eth_syncing", [])
  }

  function NewHeadsRequest(n: int): Request {
    NewRequest(Some(n), "eth_subscribe", [JStr("newHeads")])
  }

  /** A new connection: `run` sets the id to 0, then `after_connection`
      resets the gates and the event and sends its first poll. */
  function Connect(c: Conn): (r: Conn)
    ensures r.sent == [SyncPoll(1)] && r.id == 1 && !r.afterDone
    ensures r.gates.waitSyncing && r.gates.waitFirst && !r.gates.syncingSet
  {
    var g := c.gates.(waitSyncing := true, syncingSet := false, waitFirst := true);
    SendStep(Conn(0, [], g, false, c.subscribeId), "eth_syncing", [])
  }

  /** One pass of `after_connection`'s loop once its event is set: while the
      node is still syncing, poll again (the event is never cleared, so the
      next wait returns at once); when it is synced, subscribe to
      `newHeads`, keep the id and return. */
  function Resume(c: Conn): (r: Conn)
    ensures c.afterDone ==> r == c
    ensures r.gates == c.gates && c.sent <= r.sent && |r.sent| <= |c.sent| + 1
    ensures !c.afterDone && r.afterDone ==>
      r.subscribeId == Some(r.id) && r.sent != [] && r.sent[|r.sent| - 1].methodName == "eth_subscribe"
  {
    if c.afterDone || !c.gates.syncingSet then c
    else if c.gates.waitSyncing then SendStep(c, "eth_syncing", [])
    else
      var c1 := SubscribeStep(c, "newHeads");
      c1.(afterDone := true, subscribeId := Some(c1.id))
  }

  /** The receive loop's handling of one frame, followed by the pass of
      `after_connection` it lets run. */
  function FrameStep(c: Conn, f: Frame): (r: (Conn, Outcome<()>))
    ensures c.sent <= r.0.sent && |r.0.sent| <= |c.sent| + 1
    ensures r.1.Raise? || c.afterDone ==> r.0.sent == c.sent && r.0.afterDone == c.afterDone
  {
    match WsSubscriber.Receive(f)
    case Raise(e) => (c, Raise(e))
    case Ok(m) =>
      var (g, r) := HandleStep(c.gates, m);
      if r.Raise? then (c.(gates := g), r) else (Resume(c.(gates := g)), Ok(()))
  }

  /** The receive loop: frames in arrival order until the first exception. */
  function ReceiveAll(c: Conn, frames: seq<Frame>): (r: (Conn, Option<Exc>))
    ensures c.sent <= r.0.sent && |r.0.sent| <= |c.sent| + |frames|
    ensures c.afterDone ==> r.0.sent == c.sent && r.0.afterDone
    decreases |frames|
  {
    if frames == [] then (c, None)
    else
      var (c1, r) := FrameStep(c, frames[0]);
      if r.Raise? then (c1, Some(r.exc))
      else
        var rest := ReceiveAll(c1, frames[1..]);
        rest
  }

  /** How a connection ends. `Hang`: `after_connection` never returns, either
      waiting forever for an event nobody will set or, after the receive
      loop failed, polling a node whose replies nobody reads. */
  datatype AttemptEnd = Reconnect | Hang

  function EndOf(c: Conn, err: Option<Exc>): (e: AttemptEnd)
    ensures c.afterDone ==> e == Reconnect
    ensures !c.afterDone && !c.gates.syncingSet ==> e == Hang
  {
    if c.afterDone then Reconnect
    else if !c.gates.syncingSet then Hang
    else if err.None? then Reconnect   // the next poll fails on the closed socket
    else Hang
  }

  /** Once the syncing event is set but `after_connection` is still
      polling, the attempt hangs exactly when the receive loop raised: the
      socket then stays open and the polls go on, whereas a loop that
      ended without raising closed the socket under the next poll. */
  lemma EndOfWhilePolling(c: Conn, err: Option<Exc>)
    requires !c.afterDone && c.gates.syncingSet
    ensures EndOf(c, err) == Hang <==> err.Some?
  {
  }

  /** The requests of a connection: `n` polls, then the subscription once
      `after_connection` has returned. */
  function ConnRequests(n: nat, done: bool): seq<Request> {
    seq(n, k => SyncPoll(k + 1)) + (if done then [NewHeadsRequest(n + 1)] else [])
  }

  /** What every connection keeps: ids 1, 2, … in sending order, polls only
      until the node reported itself synced, and one `newHeads` subscription
      whose id is kept. */
  predicate ConnValid(c: Conn) {
    && |c.sent| >= 1
    && c.id == |c.sent|
    && c.sent == ConnRequests(|c.sent| - (if c.afterDone then 1 else 0), c.afterDone)
    && (c.afterDone ==> !c.gates.waitSyncing && c.gates.syncingSet && c.subscribeId == Some(c.id))
  }

  /** The ids a connection has used are 1, 2, …, in sending order. */
  lemma ConnIds(c: Conn)
    requires ConnValid(c)
    ensures forall k :: 0 <= k < |c.sent| ==> c.sent[k].id == Some(k + 1)
  {
    var n := |c.sent| - (if c.afterDone then 1 else 0);
    forall k | 0 <= k < |c.sent|
      ensures c.sent[k].id == Some(k + 1)
    {
      if k < n {
        assert c.sent[k] == seq(n, j => SyncPoll(j + 1))[k];
      }
    }
  }

  /** The subscription is sent exactly when `after_connection` has returned,
      and then the node has reported itself synced. */
  lemma SubscribeOnlyWhenSynced(c: Conn)
    requires ConnValid(c)
    ensures (exists k :: 0 <= k < |c.sent| && c.sent[k].methodName == "eth_subscribe") <==> c.afterDone
    ensures c.afterDone ==> !c.gates.waitSyncing && c.sent[|c.sent| - 1] == NewHeadsRequest(c.id)
  {
    var n := |c.sent| - (if c.afterDone then 1 else 0);
    assert forall k :: 0 <= k < n ==> c.sent[k] == SyncPoll(k + 1);
    if c.afterDone {
      assert c.sent[n].methodName == "eth_subscribe";
    }
  }

  lemma ConnectValid(c: Conn)
    ensures ConnValid(Connect(c))
  {
    assert ConnRequests(1, false) == [SyncPoll(1)];
  }

  lemma ResumeValid(c: Conn)
    requires ConnValid(c)
    ensures ConnValid(Resume(c))
  {
    var n := |c.sent| - (if c.afterDone then 1 else 0);
    if !c.afterDone && c.gates.syncingSet {
      assert c.sent == seq(n, k => SyncPoll(k + 1));
      if c.gates.waitSyncing {
        assert seq(n, k => SyncPoll(k + 1)) + [SyncPoll(n + 1)] == seq(n + 1, k => SyncPoll(k + 1));
      }
    }
  }

  lemma {:induction false} ReceiveAllValid(c: Conn, frames: seq<Frame>)
    requires ConnValid(c)
    ensures ConnValid(ReceiveAll(c, frames).0)
    decreases |frames|
  {
    if frames != [] {
      var (c1, r) := FrameStep(c, frames[0]);
      var m := WsSubscriber.Receive(frames[0]);
      if m.Ok? {
        var g := HandleStep(c.gates, m.value).0;
        assert ConnValid(c.(gates := g));
        if HandleStep(c.gates, m.value).1.Ok? {
          ResumeValid(c.(gates := g));
        }
      }
      if r.Ok? {
        ReceiveAllValid(c1, frames[1..]);
      }
    }
  }

  /** Every connection, however its frames go, keeps `ConnValid`. */
  lemma AttemptValid(c: Conn, frames: seq<Frame>)
    ensures ConnValid(ReceiveAll(Connect(c), frames).0)
  {
    ConnectValid(c);
    ReceiveAllValid(Connect(c), frames);
  }

  /** A connection the node closes before answering the first poll hangs:
      `after_connection` waits for an event that is never set, so `run`
      does not reconnect. */
  lemma SilentNodeHangs(c: Conn)
    ensures EndOf(ReceiveAll(Connect(c), []).0, ReceiveAll(Connect(c), []).1) == Hang
  {
  }

  /** A node that reports itself synced and then sends the token: the
      subscription goes out with id 2, its id is kept and the token is
      recorded. */
  lemma SyncedNodeSubscribes(c: Conn, token: string)
    ensures var frames := [TextFrame(Some(SuccessDoc(1, JBool(false)))), TextFrame(Some(SuccessDoc(2, JStr(token))))];
      var c2 := ReceiveAll(Connect(c), frames).0;
      c2.sent == [SyncPoll(1), NewHeadsRequest(2)] && c2.subscribeId == Some(2) &&
      c2.gates.token == Some(token) && !c2.gates.waitFirst && c2.afterDone
  {
    var f0 := TextFrame(Some(SuccessDoc(1, JBool(false))));
    var f1 := TextFrame(Some(SuccessDoc(2, JStr(token))));
    var frames := [f0, f1];
    SuccessDocReadsBack(1, JBool(false));
    SuccessDocReadsBack(2, JStr(token));
    var c0 := Connect(c);
    var s1 := FrameStep(c0, f0);
    assert s1.1.Ok? && s1.0.afterDone && s1.0.sent == [SyncPoll(1), NewHeadsRequest(2)];
    ReceiveAllStep(c0, frames);
    assert frames[1..] == [f1];
    var s2 := FrameStep(s1.0, f1);
    assert s2.1.Ok? && s2.0.gates.token == Some(token);
    ReceiveAllStep(s1.0, [f1]);
    assert [f1][1..] == [];
  }

  /** A streaming connection after the given pushes: only the delivered
      blocks have grown. */
  function Streamed(c: Conn, pushes: seq<Json>): Conn {
    c.(gates := c.gates.(blocks := c.gates.blocks + PushResults(pushes)))
  }

  /** Once streaming, every push frame reaches `on_block`, in order, no
      frame raises, and nothing else about the connection changes: nothing
      is sent and no other reply is recorded. */
  lemma {:induction false} StreamingDeliversPushes(c: Conn, pushes: seq<Json>)
    requires c.afterDone && !c.gates.waitSyncing && !c.gates.waitFirst
    requires forall k :: 0 <= k < |pushes| ==> ParsePushRaw(Some(pushes[k])).Ok?
    ensures ReceiveAll(c, PushFrames(pushes)) == (Streamed(c, pushes), None)
    decreases |pushes|
  {
    if pushes != [] {
      var c1 := StreamingStep(c, pushes);
      assert forall k :: 0 <= k < |pushes[1..]| ==> pushes[1..][k] == pushes[k + 1];
      StreamingDeliversPushes(c1, pushes[1..]);
    } else {
      assert c.gates.blocks + [] == c.gates.blocks;
    }
  }

  /** The first push of a streaming connection: the connection after it,
      from which the rest of the pushes stream on. */
  lemma StreamingStep(c: Conn, pushes: seq<Json>) returns (c1: Conn)
    requires c.afterDone && !c.gates.waitSyncing && !c.gates.waitFirst
    requires pushes != [] && ParsePushRaw(Some(pushes[0])).Ok?
    ensures c1.afterDone && !c1.gates.waitSyncing && !c1.gates.waitFirst
    ensures ReceiveAll(c, PushFrames(pushes)) == ReceiveAll(c1, PushFrames(pushes[1..]))
    ensures Streamed(c1, pushes[1..]) == Streamed(c, pushes)
  {
    var result := ParsePushRaw(Some(pushes[0])).value.params.result;
    c1 := c.(gates := c.gates.(blocks := c.gates.blocks + [result]));
    FirstPush(c, pushes);
    assert c1.gates.blocks + PushResults(pushes[1..]) == c.gates.blocks + PushResults(pushes);
  }

  /** The receive loop over the first push frame. */
  lemma FirstPush(c: Conn, pushes: seq<Json>)
    requires c.afterDone && !c.gates.waitSyncing && !c.gates.waitFirst
    requires pushes != [] && ParsePushRaw(Some(pushes[0])).Ok?
    ensures var result := ParsePushRaw(Some(pushes[0])).value.params.result;
      ReceiveAll(c, PushFrames(pushes)) == ReceiveAll(c.(gates := c.gates.(blocks := c.gates.blocks + [result])), PushFrames(pushes[1..])) &&
      PushResults(pushes) == [result] + PushResults(pushes[1..])
  {
    var frames := PushFrames(pushes);
    assert frames[0] == TextFrame(Some(pushes[0])) && frames[1..] == PushFrames(pushes[1..]);
    PushStep(c, pushes[0]);
    ReceiveAllStep(c, frames);
  }

  /** A push handled while streaming. */
  lemma PushStep(c: Conn, doc: Json)
    requires c.afterDone && !c.gates.waitSyncing && !c.gates.waitFirst
    requires ParsePushRaw(Some(doc)).Ok?
    ensures FrameStep(c, TextFrame(Some(doc))) ==
      (c.(gates := c.gates.(blocks := c.gates.blocks + [ParsePushRaw(Some(doc)).value.params.result])), Ok(()))
  {
  }

  /** Text frames carrying the given documents. */
  function PushFrames(docs: seq<Json>): seq<Frame>
    decreases |docs|
  {
    if docs == [] then [] else [TextFrame(Some(docs[0]))] + PushFrames(docs[1..])
  }

  /** The `params.result` of the documents that read as pushes. */
  function PushResults(docs: seq<Json>): seq<Json>
    decreases |docs|
  {
    if docs == [] then []
    else
      var head := match ParsePushRaw(Some(docs[0])) case Ok(p) => [p.params.result] case Raise(_) => [];
      head + PushResults(docs[1..])
  }

  /** One step of the receive loop. */
  lemma ReceiveAllStep(c: Conn, frames: seq<Frame>)
    requires frames != []
    ensures var (c1, r) := FrameStep(c, frames[0]);
      ReceiveAll(c, frames) == if r.Raise? then (c1, Some(r.exc)) else ReceiveAll(c1, frames[1..])
  {
  }

  /** The document of a success reply. */
  function SuccessDoc(id: int, result: Json): Json {
    JObj(map["jsonrpc" := JStr("2.0"), "id" := JInt(id), "result" := result])
  }

  lemma SuccessDocReadsBack(id: int, result: Json)
    ensures WsSubscriber.Receive(TextFrame(Some(SuccessDoc(id, result)))) == Ok(Reply(SuccessResponse("2.0", Some(id), result)))
  {
    assert ParsePushRaw(Some(SuccessDoc(id, result))) == Raise(ValidationError);
  }

  /** An event of the supervisor's life: a connection attempt (`None` when
      connecting fails), or a call of `close` from outside. */
  datatype Event = Attempt(frames: Option<seq<Frame>>) | CloseCall

  /** The number of attempts before the first `close`. */
  function AttemptsBeforeClose(schedule: seq<Event>): nat
    decreases |schedule|
  {
    if schedule == [] || schedule[0].CloseCall? then 0 else 1 + AttemptsBeforeClose(schedule[1..])
  }

  /** One iteration of `run`'s loop: the id is reset; a connection that
      cannot be opened ends at once and the loop goes round again. */
  function AttemptStep(c: Conn, frames: Option<seq<Frame>>): (r: (Conn, AttemptEnd))
    ensures frames.None? ==> r == (c.(id := 0), Reconnect)
    ensures r.1 == Hang ==> frames.Some? && !r.0.afterDone
  {
    match frames
    case None => (c.(id := 0), Reconnect)
    case Some(fs) =>
      var (c1, err) := ReceiveAll(Connect(c), fs);
      (c1, EndOf(c1, err))
  }

  /** `run` over a schedule, from an open subscriber: the final connection
      state and the number of attempts made. Attempts follow one another
      until a `close` or until one hangs. */
  function Runs(c: Conn, schedule: seq<Event>): (r: (Conn, nat))
    ensures r.1 <= AttemptsBeforeClose(schedule)
    ensures r.1 < AttemptsBeforeClose(schedule) ==> r.1 >= 1 && !r.0.afterDone
    decreases |schedule|
  {
    if schedule == [] || schedule[0].CloseCall? then (c, 0)
    else
      var (c1, end) := AttemptStep(c, schedule[0].frames);
      if end == Hang then (c1, 1)
      else
        var (c2, n) := Runs(c1, schedule[1..]);
        (c2, n + 1)
  }

  /** `Runs` at one event. */
  lemma RunsStep(c: Conn, schedule: seq<Event>)
    requires schedule != []
    ensures schedule[0].CloseCall? ==> Runs(c, schedule) == (c, 0)
    ensures schedule[0].Attempt? ==>
      var (c1, end) := AttemptStep(c, schedule[0].frames);
      Runs(c, schedule) == if end == Hang then (c1, 1) else (Runs(c1, schedule[1..]).0, Runs(c1, schedule[1..]).1 + 1)
  {
  }

  class Subscriber {
    var closed: bool
    /** Whether `bind` has created the run task. */
    var bound: bool
    var id: nat
    /** The requests written on the current connection. */
    var sent: seq<Request>
    var waitSyncing: bool
    var syncingSet: bool
    var waitFirst: bool
    var subscribeToken: Option<string>
    var blocks: seq<Json>
    var others: seq<SuccessResponse>
    var afterDone: bool
    var subscribeId: Option<int>

    function GatesOf(): Gates
      reads this
    {
      Gates(waitSyncing, syncingSet, waitFirst, subscribeToken, blocks, others)
    }

    function State(): Conn
      reads this
    {
      Conn(id, sent, GatesOf(), afterDone, subscribeId)
    }

    constructor ()
      ensures !closed && !bound && blocks == [] && others == []
    {
      closed := false;
      bound := false;
      id := 0;
      sent := [];
      waitSyncing := true;
      syncingSet := false;
      waitFirst := true;
      subscribeToken := None;
      blocks := [];
      others := [];
      afterDone := false;
      subscribeId := None;
    }

    /** `bind`: refused once closed; otherwise the run task is created. */
    method Bind() returns (r: Outcome<()>)
      modifies this
      ensures old(closed) ==> r == Raise(ValueError) && bound == old(bound)
      ensures !old(closed) ==> r == Ok(()) && bound
      ensures closed == old(closed) && State() == old(State())
    {
      if closed {
        return Raise(ValueError);
      }
      bound := true;
      r := Ok(());
    }

    /** `close`: a second call does nothing; before `bind` only the flag is
        set; otherwise the socket and the run task are also cancelled. */
    method Close()
      modifies this
      ensures closed && bound == old(bound) && State() == old(State())
    {
      if closed {
        return;
      }
      closed := true;
      if !bound {
        return;
      }
    }

    /** `send`: the next id on this connection, and the request written. */
    method Send(methodName: string, params: seq<Json>) returns (r: int)
      modifies this
      ensures State() == SendStep(old(State()), methodName, params)
      ensures r == id == old(id) + 1
      ensures closed == old(closed) && bound == old(bound)
    {
      id := id + 1;
      sent := sent + [NewRequest(Some(id), methodName, params)];
      r := id;
    }

    /** `subscribe(param)`. */
    method Subscribe(param: string) returns (r: int)
      modifies this
      ensures State() == SubscribeStep(old(State()), param)
      ensures r == id == old(id) + 1 && sent[|sent| - 1].methodName == "eth_subscribe"
      ensures closed == old(closed) && bound == old(bound)
    {
      r := Send("eth_subscribe", [JStr(param)]);
    }

    /** `handle` (`GethNewBlockSubscriber`). */
    method Handle(m: Message) returns (r: Outcome<()>)
      modifies this
      ensures (GatesOf(), r) == HandleStep(old(GatesOf()), m)
      ensures id == old(id) && sent == old(sent) && afterDone == old(afterDone) && subscribeId == old(subscribeId)
      ensures closed == old(closed) && bound == old(bound)
    {
      if waitSyncing {
        if !m.Reply? {
          return Raise(GethIsDead);
        }
        if m.success.result == JBool(false) {
          waitSyncing := false;
        }
        syncingSet := true;
        return Ok(());
      }
      if waitFirst {
        if !m.Reply? || !m.success.result.JStr? {
          return Raise(NoSubscribeToken);
        }
        subscribeToken := Some(m.success.result.s);
        waitFirst := false;
        return Ok(());
      }
      if m.Reply? {
        others := others + [m.success];
      } else {
        blocks := blocks + [m.push.params.result];
      }
      r := Ok(());
    }

    /** The start of a connection: the id reset of `run` and the part of
        `after_connection` before its first wait. */
    method StartConnection()
      modifies this
      ensures State() == Connect(old(State()))
      ensures closed == old(closed) && bound == old(bound)
    {
      id := 0;
      sent := [];
      waitSyncing := true;
      syncingSet := false;
      waitFirst := true;
      afterDone := false;
      var _ := Send("eth_syncing", []);
    }

    /** One pass of `after_connection` after its event was set. */
    method ResumeAfterConnection()
      modifies this
      ensures State() == Resume(old(State()))
      ensures closed == old(closed) && bound == old(bound)
    {
      if afterDone || !syncingSet {
        return;
      }
      if waitSyncing {
        var _ := Send("eth_syncing", []);
      } else {
        var subscription := Subscribe("newHeads");
        subscribeId := Some(subscription);
        afterDone := true;
      }
    }

    /** The handling of one frame by `_recieve_loop`, with the pass of
        `after_connection` it lets run. */
    method HandleFrame(f: Frame) returns (r: Outcome<()>)
      modifies this
      ensures (State(), r) == FrameStep(old(State()), f)
      ensures closed == old(closed) && bound == old(bound)
    {
      var received := WsSubscriber.Receive(f);
      if received.Raise? {
        return Raise(received.exc);
      }
      r := Handle(received.value);
      if r.Ok? {
        ResumeAfterConnection();
      }
    }

    /** `_recieve_loop` over the frames of one connection. */
    method ReceiveLoop(frames: seq<Frame>) returns (err: Option<Exc>)
      modifies this
      ensures (State(), err) == ReceiveAll(old(State()), frames)
      ensures closed == old(closed) && bound == old(bound)
    {
      ghost var start := State();
      var i := 0;
      while i < |frames|
        invariant 0 <= i <= |frames|
        invariant ReceiveAll(start, frames) == ReceiveAll(State(), frames[i..])
        invariant closed == old(closed) && bound == old(bound)
      {
        ReceiveAllStep(State(), frames[i..]);
        assert frames[i..][0] == frames[i] && frames[i..][1..] == frames[i + 1..];
        var r := HandleFrame(frames[i]);
        if r.Raise? {
          return Some(r.exc);
        }
        i := i + 1;
      }
      err := None;
    }

    /** One iteration of `run`'s loop. */
    method RunAttempt(frames: Option<seq<Frame>>) returns (end: AttemptEnd)
      modifies this
      ensures (State(), end) == AttemptStep(old(State()), frames)
      ensures frames.None? ==> State() == old(State()).(id := 0) && end == Reconnect
      ensures closed == old(closed) && bound == old(bound)
    {
      id := 0;
      if frames.None? {
        return Reconnect;
      }
      StartConnection();
      var err := ReceiveLoop(frames.value);
      end := EndOf(State(), err);
    }

    /** `run` with the calls of `close` that reach it: attempts follow one
        another while the subscriber is open; a hung attempt or a `close`
        ends the run task. */
    method Run(schedule: seq<Event>) returns (attempts: nat)
      requires bound
      modifies this
      ensures old(closed) ==> attempts == 0 && State() == old(State())
      ensures !old(closed) ==> (State(), attempts) == Runs(old(State()), schedule)
      ensures attempts <= AttemptsBeforeClose(schedule)
      ensures closed <==> old(closed) || CloseCall in schedule
    {
      ghost var start := State();
      attempts := 0;
      var hung := false;
      var i := 0;
      while i < |schedule|
        invariant 0 <= i <= |schedule|
        invariant old(closed) ==> attempts == 0 && State() == start
        invariant !old(closed) && (closed || hung) ==> (State(), attempts) == Runs(start, schedule)
        invariant !closed && !hung ==>
          Runs(start, schedule) == (Runs(State(), schedule[i..]).0, attempts + Runs(State(), schedule[i..]).1)
        invariant closed <==> old(closed) || CloseCall in schedule[..i]
      {
        assert schedule[i..][0] == schedule[i] && schedule[i..][1..] == schedule[i + 1..];
        assert schedule[..i + 1] == schedule[..i] + [schedule[i]];
        RunsStep(State(), schedule[i..]);
        match schedule[i] {
          case CloseCall =>
            Close();
          case Attempt(frames) =>
            if !closed && !hung {
              var end := RunAttempt(frames);
              attempts := attempts + 1;
              hung := end == Hang;
            }
        }
        i := i + 1;
      }
      if !closed && !hung {
        assert schedule[i..] == [];
      }
    }
  }
}
