/**
  The host's stream worker, `execute_subscribe_daemon_events` of apps/desktop/src-tauri/src/lib.rs:
  a step machine whose steps lie between the points where the cancel flag can change.
 */
module StreamWorker {
  import opened Wrappers
  import opened Protocol

  /** `DaemonStreamUpdate` */
  datatype Update =
    | Message(message: StreamMessage)
    | Reconnecting
    | Unavailable(reason: string)

  /** What subscribing gets: the stream announced by SubscriptionReady, and the first snapshot. */
  datatype Handshake = Handshake(streamId: StreamId, snapshot: WorkspaceSnapshot)

  datatype ReadResult = Got(message: StreamMessage) | TimedOut | Failed

  /**
    All that a step may observe: the cancel flag, whether there is a client, what subscribing or
    reading brings, whether the daemon is healthy, and whether the channel takes an update.
   */
  datatype Input = Input(
    flag: bool,
    client: bool,
    subscription: Option<Handshake>,
    read: ReadResult,
    healthy: bool,
    delivered: bool)

  datatype Point =
    | Top
    | FetchClient
    | Waiting
    | Subscribing
    | Subscribed(subscription: Option<Handshake>)
    | Connect(subscription: Option<Handshake>)
    | InnerTop
    | Reading
    | GotResult(result: ReadResult)
    | Dispatching(result: ReadResult)
    | Stopped

  /** `expected` is unbounded: after the last possible sequence number no event matches it. */
  datatype Worker = Worker(
    point: Point,
    hasConnectedOnce: bool,
    isReconnecting: bool,
    streamId: StreamId,
    expected: nat,
    sent: seq<Update>)
  {
    function Send(u: Update, delivered: bool): Worker {
      if delivered then this.(sent := sent + [u]) else this
    }

    /** Tells of a lost connection, unless there was none or its loss has been told already. */
    function LoseOnce(delivered: bool): Worker {
      if hasConnectedOnce && !isReconnecting
      then Send(Reconnecting, delivered).(isReconnecting := true) else this
    }

    /** Tells that the connection is lost, and leaves the inner loop. */
    function Lose(delivered: bool): Worker {
      Send(Reconnecting, delivered).(isReconnecting := true, point := Top)
    }

    /** A message whose delivery fails ends the worker. */
    function Forward(m: StreamMessage, delivered: bool): Worker {
      Send(Message(m), delivered).(point := if delivered then InnerTop else Stopped)
    }
  }

  const START := Worker(Top, false, false, "", 0, [])

  function Dispatch(w: Worker, result: ReadResult, i: Input): Worker {
    match result
    case Got(Event(e)) =>
      if e.streamId != w.streamId || e.sequence != w.expected then w.Lose(i.delivered)
      else w.(expected := e.sequence + 1).Forward(Event(e), i.delivered)
    case Got(Snapshot(s)) =>
      w.(streamId := s.streamId, expected := s.lastSequence + 1).Forward(Snapshot(s), i.delivered)
    case TimedOut => if i.healthy then w.(point := InnerTop) else w.Lose(i.delivered)
    case Failed => w.Lose(i.delivered)
  }

  function Step(w: Worker, i: Input): Worker {
    match w.point
    case Top => w.(point := if i.flag then Stopped else FetchClient)
    case FetchClient => if i.client then w.(point := Subscribing) else w.LoseOnce(i.delivered).(point := Waiting)
    case Waiting => w.(point := if i.flag then Stopped else Top)
    case Subscribing => w.(point := Subscribed(if i.flag then None else i.subscription))
    case Subscribed(h) => w.(point := if i.flag then Stopped else Connect(h))
    case Connect(None) => w.LoseOnce(i.delivered).(point := Waiting)
    case Connect(Some(h)) =>
      w.(hasConnectedOnce := true, isReconnecting := false,
         streamId := h.streamId, expected := h.snapshot.lastSequence + 1)
       .Forward(Snapshot(h.snapshot), i.delivered)
    case InnerTop => w.(point := if i.flag then Top else Reading)
    case Reading => w.(point := GotResult(if i.flag then Failed else i.read))
    case GotResult(r) => w.(point := if i.flag then Top else Dispatching(r))
    case Dispatching(r) => Dispatch(w, r, i)
    case Stopped => w
  }

  function Run(w: Worker, inputs: seq<Input>): Worker {
    if inputs == [] then w else Step(Run(w, inputs[..|inputs| - 1]), inputs[|inputs| - 1])
  }

  // ---- The language of updates ----

  /** What a listener may expect next. */
  datatype Channel = Idle | Live(streamId: StreamId, next: nat) | Broken

  function Hear(c: Channel, u: Update): Channel {
    match u
    case Message(Snapshot(s)) => if c.Broken? then Broken else Live(s.streamId, s.lastSequence + 1)
    case Message(Event(e)) =>
      if c == Live(e.streamId, e.sequence) then Live(e.streamId, e.sequence + 1) else Broken
    case Reconnecting => if c.Live? then Idle else Broken
    case Unavailable(_) => Broken
  }

  /** The automaton of (Snapshot (Snapshot | next Event)* Reconnecting)*, prefixes included. */
  function Heard(sent: seq<Update>): Channel {
    if sent == [] then Idle else Hear(Heard(sent[..|sent| - 1]), sent[|sent| - 1])
  }

  /** `u` is a message after which event `e` is the next of its stream. */
  predicate Precedes(u: Update, e: DaemonEvent) {
    match u
    case Message(Snapshot(s)) => s.streamId == e.streamId && s.lastSequence + 1 == e.sequence
    case Message(Event(d)) => d.streamId == e.streamId && d.sequence + 1 == e.sequence
    case _ => false
  }

  /** The same language, told by neighbours. */
  predicate Follows(sent: seq<Update>, i: nat)
    requires i < |sent|
  {
    match sent[i]
    case Message(Snapshot(_)) => true
    case Message(Event(e)) => i > 0 && Precedes(sent[i - 1], e)
    case Reconnecting => i > 0 && sent[i - 1].Message?
    case Unavailable(_) => false
  }

  lemma HeardAppend(sent: seq<Update>, u: Update)
    ensures Heard(sent + [u]) == Hear(Heard(sent), u)
  {
    assert (sent + [u])[..|sent|] == sent;
  }

  /** The automaton accepts exactly the update lists in which every update follows the one before. */
  lemma {:induction false} LanguageByNeighbours(sent: seq<Update>)
    ensures Heard(sent) != Broken <==> forall i | 0 <= i < |sent| :: Follows(sent, i)
    ensures Heard(sent).Idle? ==> sent == [] || sent[|sent| - 1].Reconnecting?
    ensures forall e: DaemonEvent :: Heard(sent) == Live(e.streamId, e.sequence) ==>
              sent != [] && Precedes(sent[|sent| - 1], e)
    ensures forall e: DaemonEvent :: Heard(sent) != Broken && sent != [] && Precedes(sent[|sent| - 1], e) ==>
              Heard(sent) == Live(e.streamId, e.sequence)
  {
    if sent != [] {
      var init := sent[..|sent| - 1];
      LanguageByNeighbours(init);
      assert forall i | 0 <= i < |init| :: Follows(init, i) == Follows(sent, i);
      assert Heard(sent) != Broken <==> Heard(init) != Broken && Follows(sent, |sent| - 1);
    }
  }

  // ---- What the worker sends ----

  predicate Inner(p: Point) {
    p.InnerTop? || p.Reading? || p.GotResult? || p.Dispatching?
  }

  predicate Between(p: Point) {
    p.FetchClient? || p.Waiting? || p.Subscribing? || p.Subscribed? || p.Connect?
  }

  ghost predicate Inv(w: Worker) {
    && Heard(w.sent) != Broken
    && (Inner(w.point) ==>
          w.hasConnectedOnce && !w.isReconnecting && Heard(w.sent) == Live(w.streamId, w.expected))
    && (w.hasConnectedOnce && !w.isReconnecting && !w.point.Stopped? ==> Heard(w.sent).Live?)
    && (!w.hasConnectedOnce ==> w.sent == [])
    && (w.point.Subscribed? || w.point.Connect? ==> Consistent(w.point.subscription))
  }

  /** The announced stream is the snapshot's own, as the daemon that answers has only one. */
  predicate Consistent(h: Option<Handshake>) {
    h.Some? ==> h.value.streamId == h.value.snapshot.streamId
  }

  /** Between connections, the loss of an earlier one has already been sent. */
  predicate LossKnown(w: Worker) {
    w.hasConnectedOnce ==> w.isReconnecting
  }

  lemma ForwardKeepsInv(w: Worker, m: StreamMessage, delivered: bool)
    requires w.hasConnectedOnce && !w.isReconnecting
    requires Heard(w.sent) != Broken && Hear(Heard(w.sent), Message(m)) == Live(w.streamId, w.expected)
    ensures Inv(w.Forward(m, delivered))
  {
    HeardAppend(w.sent, Message(m));
  }

  lemma LoseKeepsInv(w: Worker, delivered: bool)
    requires w.hasConnectedOnce && Heard(w.sent).Live?
    ensures Inv(w.Lose(delivered)) && Inv(w.Lose(delivered).(point := Waiting))
  {
    HeardAppend(w.sent, Reconnecting);
  }

  lemma DispatchKeepsInv(w: Worker, i: Input)
    requires Inv(w) && w.point.Dispatching?
    ensures Inv(Step(w, i))
  {
    match w.point.result
    case Got(Event(e)) =>
      if e.streamId != w.streamId || e.sequence != w.expected {
        LoseKeepsInv(w, i.delivered);
      } else {
        ForwardKeepsInv(w.(expected := e.sequence + 1), Event(e), i.delivered);
      }
    case Got(Snapshot(s)) =>
      ForwardKeepsInv(w.(streamId := s.streamId, expected := s.lastSequence + 1), Snapshot(s), i.delivered);
    case TimedOut => if !i.healthy { LoseKeepsInv(w, i.delivered); }
    case Failed => LoseKeepsInv(w, i.delivered);
  }

  lemma ConnectKeepsInv(w: Worker, i: Input)
    requires Inv(w) && w.point.Connect? && w.point.subscription.Some?
    ensures Inv(Step(w, i))
  {
    var h := w.point.subscription.value;
    var c := w.(hasConnectedOnce := true, isReconnecting := false,
                streamId := h.streamId, expected := h.snapshot.lastSequence + 1);
    assert Hear(Heard(w.sent), Message(Snapshot(h.snapshot))) == Live(c.streamId, c.expected);
    ForwardKeepsInv(c, Snapshot(h.snapshot), i.delivered);
  }

  lemma OutsideKeepsInv(w: Worker, i: Input)
    requires Inv(w) && (w.point.FetchClient? || w.point == Connect(None))
    ensures Inv(Step(w, i))
  {
    if !LossKnown(w) {
      LoseKeepsInv(w, i.delivered);
    }
  }

  lemma QuietKeepsInv(w: Worker, i: Input)
    requires Inv(w) && Consistent(i.subscription)
    requires !w.point.Dispatching? && !w.point.Connect? && !w.point.FetchClient?
    ensures Inv(Step(w, i))
  {
  }

  lemma StepKeepsInv(w: Worker, i: Input)
    requires Inv(w) && Consistent(i.subscription)
    ensures Inv(Step(w, i))
  {
    if w.point.Dispatching? {
      DispatchKeepsInv(w, i);
    } else if w.point.Connect? && w.point.subscription.Some? {
      ConnectKeepsInv(w, i);
    } else if w.point.FetchClient? || w.point.Connect? {
      OutsideKeepsInv(w, i);
    } else {
      QuietKeepsInv(w, i);
    }
  }

  /** Over any run, the updates sent form a word of the language. */
  lemma {:induction false} OutputLanguage(inputs: seq<Input>)
    requires forall k | 0 <= k < |inputs| :: Consistent(inputs[k].subscription)
    ensures Inv(Run(START, inputs))
    ensures var sent := Run(START, inputs).sent; forall i | 0 <= i < |sent| :: Follows(sent, i)
  {
    if inputs != [] {
      OutputLanguage(inputs[..|inputs| - 1]);
      StepKeepsInv(Run(START, inputs[..|inputs| - 1]), inputs[|inputs| - 1]);
    }
    LanguageByNeighbours(Run(START, inputs).sent);
  }

  // ---- A raised flag ----

  /** Updates a worker can still send, and steps it can still take, once its flag is up. */
  function Remaining(p: Point): nat {
    if p.FetchClient? || p.Connect? || p.Dispatching? then 1 else 0
  }

  function StepsLeft(p: Point): nat {
    match p
    case Top => 1
    case FetchClient => 3
    case Waiting => 1
    case Subscribing => 2
    case Subscribed(_) => 1
    case Connect(_) => 3
    case InnerTop => 2
    case Reading => 3
    case GotResult(_) => 2
    case Dispatching(_) => 3
    case Stopped => 0
  }

  /** Wherever a raised flag finds it, the worker sends at most one more update and stops soon. */
  lemma {:induction false} RaisedFlagStops(w: Worker, inputs: seq<Input>)
    requires forall k | 0 <= k < |inputs| :: inputs[k].flag
    ensures
      var t := Run(w, inputs);
      && |w.sent| <= |t.sent|
      && |t.sent| + Remaining(t.point) <= |w.sent| + Remaining(w.point) <= |w.sent| + 1
      && (|inputs| >= StepsLeft(w.point) ==> t.point.Stopped?)
      && StepsLeft(w.point) <= 3
  {
    RaisedFlagCounts(w, inputs);
  }

  lemma DispatchSends(w: Worker, result: ReadResult, i: Input)
    ensures |w.sent| <= |Dispatch(w, result, i).sent| <= |w.sent| + 1
    ensures
      var p := Dispatch(w, result, i).point;
      p.Top? || p.InnerTop? || p.Stopped?
  {
  }

  lemma RaisedFlagStep(w: Worker, i: Input)
    requires i.flag
    ensures |w.sent| <= |Step(w, i).sent|
    ensures |Step(w, i).sent| + Remaining(Step(w, i).point) <= |w.sent| + Remaining(w.point)
    ensures StepsLeft(Step(w, i).point) < StepsLeft(w.point) || w.point.Stopped?
  {
    if w.point.Dispatching? {
      DispatchSends(w, w.point.result, i);
    }
  }

  lemma {:induction false} RaisedFlagCounts(w: Worker, inputs: seq<Input>)
    requires forall k | 0 <= k < |inputs| :: inputs[k].flag
    ensures |w.sent| <= |Run(w, inputs).sent|
    ensures |Run(w, inputs).sent| + Remaining(Run(w, inputs).point) <= |w.sent| + Remaining(w.point)
    ensures StepsLeft(Run(w, inputs).point) + |inputs| <= StepsLeft(w.point) || Run(w, inputs).point.Stopped?
  {
    if inputs != [] {
      RaisedFlagCounts(w, inputs[..|inputs| - 1]);
      RaisedFlagStep(Run(w, inputs[..|inputs| - 1]), inputs[|inputs| - 1]);
    }
  }

  predicate Monotone(inputs: seq<Input>) {
    forall j, k | 0 <= j < k < |inputs| && inputs[j].flag :: inputs[k].flag
  }

  /**
    A flag that is never lowered makes the Reconnecting of the outer loop unreachable: whenever
    it could be sent, it has been.
   */
  lemma {:induction false} OuterLossNeverSent(inputs: seq<Input>)
    requires Monotone(inputs)
    ensures
      var w := Run(START, inputs);
      && (Between(w.point) ==> LossKnown(w))
      && (w.point.Top? ==> LossKnown(w) || inputs[|inputs| - 1].flag)
      && (w.point.FetchClient? || w.point == Connect(None) ==>
            forall i: Input :: Step(w, i).sent == w.sent)
  {
    if inputs != [] {
      OuterLossNeverSent(inputs[..|inputs| - 1]);
      assert Run(START, inputs) == Step(Run(START, inputs[..|inputs| - 1]), inputs[|inputs| - 1]);
    }
  }

  // ---- The nested loops themselves ----

  lemma RunStep(env: seq<Input>, k: nat)
    requires k < |env|
    ensures Run(START, env[..k + 1]) == Step(Run(START, env[..k]), env[k])
  {
    assert env[..k + 1][..k] == env[..k];
  }

  lemma {:induction false} StoppedStays(env: seq<Input>, k: nat, n: nat)
    requires k <= n <= |env| && Run(START, env[..k]).point.Stopped?
    ensures Run(START, env[..n]) == Run(START, env[..k])
    decreases n
  {
    if k < n {
      StoppedStays(env, k, n - 1);
      RunStep(env, n - 1);
    }
  }

  /**
    The worker as it is written: its local variables as fields, over what one run of it observes,
    point by point. Where `env` ends, the run is cut off.
   */
  class WorkerLoop {
    const env: seq<Input>
    var next: nat
    var hasConnectedOnce: bool
    var isReconnecting: bool
    var streamId: StreamId
    var expected: nat
    var sent: seq<Update>

    /** The step machine, run over what was observed so far, stands at `p` with these variables. */
    ghost predicate At(p: Point)
      reads this
    {
      && next <= |env|
      && Run(START, env[..next]) == Worker(p, hasConnectedOnce, isReconnecting, streamId, expected, sent)
    }

    /** The run is over: what was sent is what the step machine sends over all of `env`. */
    ghost predicate Done()
      reads this
    {
      sent == Run(START, env).sent
    }

    constructor (env: seq<Input>)
      ensures this.env == env && next == 0 && At(Top)
    {
      this.env := env;
      next, sent := 0, [];
      hasConnectedOnce, isReconnecting := false, false;
      streamId, expected := "", 0;
    }

    /** One observation, unless the run is cut off here. */
    method Observe(ghost p: Point) returns (tick: Option<Input>)
      requires At(p)
      modifies this`next
      ensures tick.None? ==> Done()
      ensures tick.Some? ==>
                && old(next) < |env| && next == old(next) + 1 && tick.value == env[old(next)]
                && Run(START, env[..next])
                   == Step(Worker(p, hasConnectedOnce, isReconnecting, streamId, expected, sent), tick.value)
    {
      if next == |env| {
        assert env[..next] == env;
        return None;
      }
      tick := Some(env[next]);
      RunStep(env, next);
      next := next + 1;
    }

    ghost method Stop()
      requires At(Stopped)
      ensures Done()
    {
      StoppedStays(env, next, |env|);
      assert env[..|env|] == env;
    }

    /** Look at the flag, then sleep before the next turn. */
    method Pause() returns (done: bool)
      requires At(Waiting)
      modifies this
      ensures if done then Done() else At(Top) && next > old(next)
    {
      var tick := Observe(Waiting);
      if tick.None? { return true; }
      if tick.value.flag {
        Stop();
        return true;
      }
      return false;
    }

    method LoseOnce(delivered: bool)
      modifies this`sent, this`isReconnecting
      ensures
        var was := Worker(Top, hasConnectedOnce, old(isReconnecting), streamId, expected, old(sent));
        sent == was.LoseOnce(delivered).sent && isReconnecting == was.LoseOnce(delivered).isReconnecting
    {
      if hasConnectedOnce && !isReconnecting {
        if delivered { sent := sent + [Reconnecting]; }
        isReconnecting := true;
      }
    }

    /** Subscribes; no answer means that the flag was seen, or that the run is cut off. */
    method Connecting() returns (done: bool, subscription: Option<Handshake>)
      requires At(Subscribing)
      modifies this`next
      ensures if done then Done() else At(Connect(subscription)) && next > old(next)
    {
      subscription := None;
      var tick := Observe(Subscribing);
      if tick.None? { return true, None; }
      subscription := if tick.value.flag then None else tick.value.subscription;
      tick := Observe(Subscribed(subscription));
      if tick.None? { return true, None; }
      if tick.value.flag {
        Stop();
        return true, None;
      }
      return false, subscription;
    }

    method Lose(delivered: bool)
      requires next <= |env|
      requires Run(START, env[..next])
               == Worker(Top, hasConnectedOnce, isReconnecting, streamId, expected, sent).Lose(delivered)
      modifies this`sent, this`isReconnecting
      ensures At(Top)
    {
      if delivered { sent := sent + [Reconnecting]; }
      isReconnecting := true;
    }

    /** The step machine, having dispatched `result` on observing `i`, is where it leads from here. */
    ghost predicate Dispatched(result: ReadResult, i: Input)
      reads this
    {
      && next <= |env|
      && Run(START, env[..next])
         == Dispatch(
              Worker(Dispatching(result), hasConnectedOnce, isReconnecting, streamId, expected, sent), result, i)
    }

    /** Forwards the next event of the stream; any other means that the connection is lost. */
    method ActOnEvent(e: DaemonEvent, i: Input) returns (done: bool, inner: bool)
      requires Dispatched(Got(Event(e)), i)
      modifies this`expected, this`sent, this`isReconnecting
      ensures if done then Done() else At(if inner then InnerTop else Top)
    {
      if e.streamId != streamId || e.sequence != expected {
        Lose(i.delivered);
        return false, false;
      }
      expected := e.sequence + 1;
      done := Forward(Event(e), i.delivered);
      return done, true;
    }

    /** Forwards a snapshot, and goes on from it. */
    method ActOnSnapshot(s: WorkspaceSnapshot, i: Input) returns (done: bool)
      requires Dispatched(Got(Snapshot(s)), i)
      modifies this`streamId, this`expected, this`sent
      ensures if done then Done() else At(InnerTop)
    {
      streamId := s.streamId;
      expected := s.lastSequence + 1;
      done := Forward(Snapshot(s), i.delivered);
    }

    /** Acts on what was read; the inner loop goes on while `inner`. */
    method Act(result: ReadResult) returns (done: bool, inner: bool)
      requires At(Dispatching(result))
      modifies this
      ensures if done then Done() else At(if inner then InnerTop else Top) && next > old(next)
    {
      var tick := Observe(Dispatching(result));
      if tick.None? { return true, false; }
      assert Dispatched(result, tick.value);
      match result
      case Got(Event(e)) =>
        done, inner := ActOnEvent(e, tick.value);
      case Got(Snapshot(s)) =>
        done := ActOnSnapshot(s, tick.value);
        inner := true;
      case TimedOut =>
        if !tick.value.healthy {
          Lose(tick.value.delivered);
        }
        return false, tick.value.healthy;
      case Failed =>
        Lose(tick.value.delivered);
        return false, false;
    }

    /** Reads one message, looks at the flag, and acts. */
    method ReadOne() returns (done: bool, inner: bool)
      requires At(Reading)
      modifies this
      ensures if done then Done() else At(if inner then InnerTop else Top) && next > old(next)
    {
      var tick := Observe(Reading);
      if tick.None? { return true, false; }
      var result := if tick.value.flag then Failed else tick.value.read;
      tick := Observe(GotResult(result));
      if tick.None? { return true, false; }
      if tick.value.flag { return false, false; }
      done, inner := Act(result);
    }

    method Forward(m: StreamMessage, delivered: bool) returns (done: bool)
      requires next <= |env|
      requires Run(START, env[..next])
               == Worker(Top, hasConnectedOnce, isReconnecting, streamId, expected, sent).Forward(m, delivered)
      modifies this`sent
      ensures done == !delivered
      ensures if done then Done() else At(InnerTop)
    {
      if !delivered {
        Stop();
        return true;
      }
      sent := sent + [Message(m)];
      return false;
    }

    /** The inner loop: forward messages until the connection is lost or the flag is seen. */
    method Forwarding() returns (done: bool)
      requires At(InnerTop)
      modifies this
      ensures if done then Done() else At(Top) && next > old(next)
    {
      while true
        invariant At(InnerTop) && next >= old(next)
        decreases |env| - next
      {
        var tick := Observe(InnerTop);
        if tick.None? { return true; }
        if tick.value.flag { return false; }
        var inner;
        done, inner := ReadOne();
        if done || !inner { return; }
      }
    }

    /** What a subscription, or the lack of one, leads to. */
    method Connected(subscription: Option<Handshake>) returns (done: bool)
      requires At(Connect(subscription))
      modifies this
      ensures if done then Done() else At(Top) && next > old(next)
    {
      var tick := Observe(Connect(subscription));
      if tick.None? { return true; }
      if subscription.None? {
        LoseOnce(tick.value.delivered);
        done := Pause();
        return;
      }
      hasConnectedOnce, isReconnecting := true, false;
      streamId := subscription.value.streamId;
      expected := subscription.value.snapshot.lastSequence + 1;
      done := Forward(Snapshot(subscription.value.snapshot), tick.value.delivered);
      if done { return; }
      done := Forwarding();
    }

    /** One turn of the outer loop, the flag having been found down. */
    method Turn() returns (done: bool)
      requires At(FetchClient)
      modifies this
      ensures if done then Done() else At(Top) && next > old(next)
    {
      var tick := Observe(FetchClient);
      if tick.None? { return true; }
      if !tick.value.client {
        LoseOnce(tick.value.delivered);
        done := Pause();
        return;
      }
      var subscription;
      done, subscription := Connecting();
      if done { return; }
      done := Connected(subscription);
    }

    /** The outer loop. What it sends, over any `env`, is what the step machine sends. */
    method Supervise()
      requires At(Top)
      modifies this
      ensures sent == Run(START, env).sent
    {
      while true
        invariant At(Top)
        decreases |env| - next
      {
        var tick := Observe(Top);
        if tick.None? { return; }
        if tick.value.flag {
          Stop();
          return;
        }
        var done := Turn();
        if done { return; }
      }
    }
  }
}
