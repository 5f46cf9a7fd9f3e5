/** The earlier revision of the subscriber (`connnectors/ws/base.py` and
    `connnectors/ws/block.py`): `after_connection` only sends the `newHeads`
    subscription and arms the token gate, and it runs to completion before
    the receive loop starts, so there is no syncing gate and no concurrency
    between the two. A legacy connection is a `WsBlock.Conn` whose
    `after_connection` has already returned and whose syncing gate is open,
    so the receive loop of `WsBlock` applies to it unchanged. */
module LegacyWs {
  import opened Common
  import opened JsonValue
  import opened Exceptions
  import opened Geth
  import opened WsSubscriber
  import opened WsBlock

  /** The older `handle`: only the token gate, then dispatch. It never
      raises `GethIsDead`, and with the syncing gate open it is the newer
      `handle`. */
  function LegacyHandleStep(g: Gates, m: Message): (r: (Gates, Outcome<()>))
    ensures r.1.Raise? ==> r.1.exc == NoSubscribeToken && r.0 == g
    ensures !g.waitSyncing ==> r == HandleStep(g, m)
  {
    if g.waitFirst then
      if !m.Reply? || !m.success.result.JStr? then (g, Raise(NoSubscribeToken))
      else (g.(token := Some(m.success.result.s), waitFirst := false), Ok(()))
    else if m.Reply? then (g.(others := g.others + [m.success]), Ok(()))
    else (g.(blocks := g.blocks + [m.push.params.result]), Ok(()))
  }

  /** The start of a connection: the id reset of `run`, then
      `after_connection`, which subscribes, keeps the id and arms the token
      gate. */
  function LegacyConnect(c: Conn): (r: Conn)
    ensures r.sent == [NewHeadsRequest(1)] && r.id == 1 && r.subscribeId == Some(1)
    ensures r.gates.waitFirst && !r.gates.waitSyncing && r.afterDone
    ensures r.gates.token == c.gates.token && r.gates.blocks == c.gates.blocks && r.gates.others == c.gates.others
  {
    var c1 := SubscribeStep(Conn(0, [], c.gates.(waitSyncing := false, syncingSet := true), true, c.subscribeId), "newHeads");
    c1.(subscribeId := Some(c1.id), gates := c1.gates.(waitFirst := true))
  }

  /** A legacy connection is valid in the sense of `WsBlock`. */
  lemma LegacyConnectValid(c: Conn)
    ensures ConnValid(LegacyConnect(c))
  {
    assert ConnRequests(0, true) == [NewHeadsRequest(1)];
  }

  /** One frame of the older receive loop: decode, classify, `handle`.
      Only the gates change, and a frame that raises changes nothing. */
  function LegacyFrameStep(c: Conn, f: Frame): (r: (Conn, Outcome<()>))
    ensures r.0 == c.(gates := r.0.gates)
    ensures r.1.Raise? ==> r.0 == c && r.1.exc != GethIsDead
  {
    match WsSubscriber.Receive(f)
    case Raise(e) => (c, Raise(e))
    case Ok(m) =>
      var (g, r) := LegacyHandleStep(c.gates, m);
      (c.(gates := g), r)
  }

  /** Once `after_connection` has returned, a frame of the newer loop is a
      frame of the older one: nothing is resumed. */
  lemma LegacyFrameStepIsFrameStep(c: Conn, f: Frame)
    requires c.afterDone && !c.gates.waitSyncing
    ensures LegacyFrameStep(c, f) == FrameStep(c, f)
    ensures LegacyFrameStep(c, f).0.afterDone && !LegacyFrameStep(c, f).0.gates.waitSyncing
    ensures LegacyFrameStep(c, f).0.sent == c.sent && LegacyFrameStep(c, f).0.id == c.id
  {
  }

  /** Over a whole connection the older loop sends nothing after the
      subscription, and the connection always ends in a reconnection. */
  lemma {:induction false} LegacyReceiveAll(c: Conn, frames: seq<Frame>)
    requires c.afterDone && !c.gates.waitSyncing
    ensures var (c2, err) := ReceiveAll(c, frames);
      c2.sent == c.sent && c2.id == c.id && c2.subscribeId == c.subscribeId &&
      c2.afterDone && !c2.gates.waitSyncing && EndOf(c2, err) == Reconnect
    decreases |frames|
  {
    if frames != [] {
      LegacyFrameStepIsFrameStep(c, frames[0]);
      ReceiveAllStep(c, frames);
      var (c1, r) := FrameStep(c, frames[0]);
      if r.Ok? {
        LegacyReceiveAll(c1, frames[1..]);
      }
    }
  }

  /** Every legacy connection sent exactly one request, the subscription
      with id 1, and never hangs. */
  lemma LegacyConnectionSendsOnlySubscription(c: Conn, frames: seq<Frame>)
    ensures var (c2, err) := ReceiveAll(LegacyConnect(c), frames);
      c2.sent == [NewHeadsRequest(1)] && c2.id == 1 && c2.subscribeId == Some(1) && EndOf(c2, err) == Reconnect
  {
    LegacyReceiveAll(LegacyConnect(c), frames);
  }

  /** One iteration of the older `run`'s loop: the id is reset; a
      connection that opens subscribes and is read until it fails, which
      always leads to a reconnection. */
  function LegacyAttemptStep(c: Conn, frames: Option<seq<Frame>>): (r: Conn)
    ensures frames.None? ==> r == c.(id := 0)
    ensures frames.Some? ==> r.sent == [NewHeadsRequest(1)] && r.id == 1 && r.subscribeId == Some(1)
  {
    match frames
    case None => c.(id := 0)
    case Some(fs) =>
      LegacyConnectionSendsOnlySubscription(c, fs);
      ReceiveAll(LegacyConnect(c), fs).0
  }

  /** The older `run` over a schedule, from an open subscriber: the final
      connection state and the number of attempts made. No attempt hangs,
      so every attempt before the first `close` is made, and the request
      id never passes 1. */
  function LegacyRuns(c: Conn, schedule: seq<Event>): (r: (Conn, nat))
    ensures r.1 == AttemptsBeforeClose(schedule)
    ensures r.1 == 0 ==> r.0 == c
    ensures r.1 > 0 ==> r.0.id <= 1
    decreases |schedule|
  {
    if schedule == [] || schedule[0].CloseCall? then (c, 0)
    else
      var (c2, n) := LegacyRuns(LegacyAttemptStep(c, schedule[0].frames), schedule[1..]);
      (c2, n + 1)
  }

  /** `LegacyRuns` at one event. */
  lemma LegacyRunsStep(c: Conn, schedule: seq<Event>)
    requires schedule != []
    ensures schedule[0].CloseCall? ==> LegacyRuns(c, schedule) == (c, 0)
    ensures schedule[0].Attempt? ==>
      var r := LegacyRuns(LegacyAttemptStep(c, schedule[0].frames), schedule[1..]);
      LegacyRuns(c, schedule) == (r.0, r.1 + 1)
  {
  }

  /** Without the syncing gate the first message after the subscription
      must carry the token: a node still syncing, whose first reply is the
      subscription id, passes; any push first is fatal. */
  lemma LegacyFirstMessageIsToken(g: Gates, m: Message)
    requires g.waitFirst
    ensures LegacyHandleStep(g, m).1.Ok? <==> m.Reply? && m.success.result.JStr?
    ensures m.Push? ==> LegacyHandleStep(g, m) == (g, Raise(NoSubscribeToken))
  {
  }

  class LegacySubscriber {
    var closed: bool
    var bound: bool
    var id: nat
    var sent: seq<Request>
    var waitFirst: bool
    var subscribeToken: Option<string>
    var blocks: seq<Json>
    var others: seq<SuccessResponse>
    var subscribeId: Option<int>

    /** The gates, with the syncing gate this revision does not have shown
        open. */
    function GatesOf(): Gates
      reads this
    {
      Gates(false, true, waitFirst, subscribeToken, blocks, others)
    }

    /** The connection as the receive loop sees it: `after_connection` has
        returned. */
    function State(): Conn
      reads this
    {
      Conn(id, sent, GatesOf(), true, subscribeId)
    }

    /** The constructor arms the token gate. */
    constructor ()
      ensures !closed && !bound && waitFirst && blocks == [] && others == []
    {
      closed := false;
      bound := false;
      id := 0;
      sent := [];
      waitFirst := true;
      subscribeToken := None;
      blocks := [];
      others := [];
      subscribeId := None;
    }

    /** `bind`: refused once closed. */
    method Bind() returns (r: Outcome<()>)
      modifies this
      ensures old(closed) ==> r == Raise(ValueError) && bound == old(bound)
      ensures !old(closed) ==> r == Ok(()) && bound
      ensures closed == old(closed) && State() == old(State())
    {
      if closed {
        return Raise(ValueError);
      }
      bound := true;
      r := Ok(());
    }

    /** `close`: idempotent; before `bind` only the flag is set. */
    method Close()
      modifies this
      ensures closed && bound == old(bound) && State() == old(State())
    {
      if closed {
        return;
      }
      closed := true;
      if !bound {
        return;
      }
    }

    method Send(methodName: string, params: seq<Json>) returns (r: int)
      modifies this
      ensures State() == SendStep(old(State()), methodName, params)
      ensures r == id == old(id) + 1
      ensures closed == old(closed) && bound == old(bound)
    {
      id := id + 1;
      sent := sent + [NewRequest(Some(id), methodName, params)];
      r := id;
    }

    /** `after_connection`, right after `run` reset the id. */
    method AfterConnection()
      requires id == 0 && sent == []
      modifies this
      ensures State() == LegacyConnect(old(State()))
      ensures closed == old(closed) && bound == old(bound)
    {
      var subscription := Send("eth_subscribe", [JStr("newHeads")]);
      subscribeId := Some(subscription);
      waitFirst := true;
    }

    /** The older `handle`. */
    method Handle(m: Message) returns (r: Outcome<()>)
      modifies this
      ensures (GatesOf(), r) == LegacyHandleStep(old(GatesOf()), m)
      ensures id == old(id) && sent == old(sent) && subscribeId == old(subscribeId)
      ensures closed == old(closed) && bound == old(bound)
    {
      if waitFirst {
        if !m.Reply? || !m.success.result.JStr? {
          return Raise(NoSubscribeToken);
        }
        subscribeToken := Some(m.success.result.s);
        waitFirst := false;
        return Ok(());
      }
      if m.Reply? {
        others := others + [m.success];
      } else {
        blocks := blocks + [m.push.params.result];
      }
      r := Ok(());
    }

    /** The older `_recieve_loop`. */
    method ReceiveLoop(frames: seq<Frame>) returns (err: Option<Exc>)
      modifies this
      ensures (State(), err) == ReceiveAll(old(State()), frames)
      ensures closed == old(closed) && bound == old(bound)
    {
      ghost var start := State();
      var i := 0;
      while i < |frames|
        invariant 0 <= i <= |frames|
        invariant ReceiveAll(start, frames) == ReceiveAll(State(), frames[i..])
        invariant closed == old(closed) && bound == old(bound)
      {
        ReceiveAllStep(State(), frames[i..]);
        LegacyFrameStepIsFrameStep(State(), frames[i]);
        assert frames[i..][0] == frames[i] && frames[i..][1..] == frames[i + 1..];
        var received := WsSubscriber.Receive(frames[i]);
        if received.Raise? {
          return Some(received.exc);
        }
        var r := Handle(received.value);
        if r.Raise? {
          return Some(r.exc);
        }
        i := i + 1;
      }
      err := None;
    }

    /** One iteration of the older `run`: connect, `after_connection`, then
        the receive loop; every attempt ends in a reconnection. */
    method RunAttempt(frames: Option<seq<Frame>>)
      modifies this
      ensures State() == LegacyAttemptStep(old(State()), frames)
      ensures frames.None? ==> State() == old(State()).(id := 0)
      ensures frames.Some? ==> State() == ReceiveAll(LegacyConnect(old(State())), frames.value).0
      ensures frames.Some? ==> sent == [NewHeadsRequest(1)] && subscribeId == Some(1)
      ensures closed == old(closed) && bound == old(bound)
    {
      id := 0;
      if frames.None? {
        return;
      }
      sent := [];
      AfterConnection();
      LegacyConnectionSendsOnlySubscription(old(State()), frames.value);
      var _ := ReceiveLoop(frames.value);
    }

    /** The older `run`: with no hang possible, every attempt before the
        first `close` is made. */
    method Run(schedule: seq<Event>) returns (attempts: nat)
      requires bound
      modifies this
      ensures old(closed) ==> attempts == 0 && State() == old(State())
      ensures !old(closed) ==> (State(), attempts) == LegacyRuns(old(State()), schedule)
      ensures !old(closed) ==> attempts == AttemptsBeforeClose(schedule)
      ensures closed <==> old(closed) || CloseCall in schedule
    {
      ghost var start := State();
      attempts := 0;
      var i := 0;
      while i < |schedule|
        invariant 0 <= i <= |schedule|
        invariant old(closed) ==> attempts == 0 && State() == start
        invariant !old(closed) && closed ==> (State(), attempts) == LegacyRuns(start, schedule)
        invariant !closed ==>
          LegacyRuns(start, schedule) == (LegacyRuns(State(), schedule[i..]).0, attempts + LegacyRuns(State(), schedule[i..]).1)
        invariant closed <==> old(closed) || CloseCall in schedule[..i]
        invariant bound
      {
        assert schedule[i..][0] == schedule[i] && schedule[i..][1..] == schedule[i + 1..];
        assert schedule[..i + 1] == schedule[..i] + [schedule[i]];
        LegacyRunsStep(State(), schedule[i..]);
        match schedule[i] {
          case CloseCall =>
            Close();
          case Attempt(frames) =>
            if !closed {
              RunAttempt(frames);
              attempts := attempts + 1;
            }
        }
        i := i + 1;
      }
      if !closed {
        assert schedule[i..] == [];
      }
    }
  }
}
