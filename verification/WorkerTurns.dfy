/**
  When the stream worker sends what: one turn of its loops, told by what is observed and by what has
  been sent before, over any run and with no word of how a step is taken.
 */
module WorkerTurns {
  import opened Wrappers
  import opened Protocol
  import opened StreamWorker

  /** Event `e` is the next of the stream the last update sent belongs to. */
  predicate Continues(sent: seq<Update>, e: DaemonEvent) {
    sent != [] &&
    match sent[|sent| - 1]
    case Message(Snapshot(s)) => e.streamId == s.streamId && e.sequence == s.lastSequence + 1
    case Message(Event(d)) => e.streamId == d.streamId && e.sequence == d.sequence + 1
    case _ => false
  }

  /** The loss of the connection is told, and the inner loop left. */
  predicate Loses(before: Worker, after: Worker, delivered: bool) {
    && after.point.Top?
    && after.sent == before.sent + (if delivered then [Reconnecting] else [])
  }

  /** The message is sent and the next is read; if it cannot be sent the worker stops. */
  predicate Forwards(before: Worker, after: Worker, m: StreamMessage, delivered: bool) {
    if delivered then after.point.InnerTop? && after.sent == before.sent + [Message(m)]
    else after.point.Stopped? && after.sent == before.sent
  }

  predicate Keeps(before: Worker, after: Worker) {
    after.sent == before.sent
  }

  function At(inputs: seq<Input>, n: nat): Worker
    requires n <= |inputs|
  {
    Run(START, inputs[..n])
  }

  ghost predicate AllConsistent(inputs: seq<Input>) {
    forall k | 0 <= k < |inputs| :: Consistent(inputs[k].subscription)
  }

  predicate FlagDown(inputs: seq<Input>, n: nat)
    requires n <= |inputs|
  {
    forall k | 0 <= k < n :: !inputs[k].flag
  }

  // ---- The inner loop ----

  /** Inside the inner loop the worker expects just what continues the updates sent. */
  lemma ExpectsNext(inputs: seq<Input>, n: nat, e: DaemonEvent)
    requires n <= |inputs| && AllConsistent(inputs) && Inner(At(inputs, n).point)
    ensures
      var w := At(inputs, n);
      Continues(w.sent, e) <==> e.streamId == w.streamId && e.sequence == w.expected
  {
    var w := At(inputs, n);
    OutputLanguage(inputs[..n]);
    LanguageByNeighbours(w.sent);
    assert Continues(w.sent, e) <==> w.sent != [] && Precedes(w.sent[|w.sent| - 1], e);
  }

  lemma ReadArrives(inputs: seq<Input>, n: nat)
    requires n + 2 <= |inputs| && At(inputs, n).point.Reading? && !inputs[n].flag && !inputs[n + 1].flag
    ensures At(inputs, n + 2) == At(inputs, n).(point := Dispatching(inputs[n].read))
  {
    RunStep(inputs, n);
    RunStep(inputs, n + 1);
  }

  /**
    One reading of a worker whose flag is down. The connection is given up, and that is told, exactly
    if the reading failed, or timed out with the daemon not healthy, or brought an event that does not
    continue what has been sent; any snapshot and any event that continues it is sent on; after a
    timeout with the daemon healthy nothing is sent and reading goes on.
   */
  lemma OneReading(inputs: seq<Input>, n: nat)
    requires n + 3 <= |inputs| && AllConsistent(inputs)
    requires At(inputs, n).point.Reading? && !inputs[n].flag && !inputs[n + 1].flag
    ensures
      var before, after, last := At(inputs, n), At(inputs, n + 3), inputs[n + 2];
      match inputs[n].read
      case Failed => Loses(before, after, last.delivered)
      case TimedOut =>
        if last.healthy then after.point.InnerTop? && Keeps(before, after)
        else Loses(before, after, last.delivered)
      case Got(Snapshot(s)) => Forwards(before, after, Snapshot(s), last.delivered)
      case Got(Event(e)) =>
        if Continues(before.sent, e) then Forwards(before, after, Event(e), last.delivered)
        else Loses(before, after, last.delivered)
  {
    ReadArrives(inputs, n);
    RunStep(inputs, n + 2);
    if inputs[n].read.Got? && inputs[n].read.message.Event? {
      ExpectsNext(inputs, n, inputs[n].read.message.event);
    }
  }

  /** Between readings the inner loop goes on while the flag is down, and ends quietly when it is up. */
  lemma InnerGoesOn(inputs: seq<Input>, n: nat)
    requires n < |inputs| && At(inputs, n).point.InnerTop?
    ensures Keeps(At(inputs, n), At(inputs, n + 1))
    ensures if inputs[n].flag then At(inputs, n + 1).point.Top? else At(inputs, n + 1).point.Reading?
  {
    RunStep(inputs, n);
  }

  /** A flag seen up during a reading ends the inner loop, and what was read is not sent. */
  lemma ReadingInterrupted(inputs: seq<Input>, n: nat)
    requires n + 2 <= |inputs| && At(inputs, n).point.Reading? && inputs[n + 1].flag
    ensures At(inputs, n + 2).point.Top? && Keeps(At(inputs, n), At(inputs, n + 2))
  {
    RunStep(inputs, n);
    RunStep(inputs, n + 1);
  }

  // ---- The outer loop ----

  lemma NothingToTell(inputs: seq<Input>, n: nat)
    requires n <= |inputs| && FlagDown(inputs, n)
    requires At(inputs, n).point.FetchClient? || At(inputs, n).point == Connect(None)
    ensures forall i: Input :: Step(At(inputs, n), i).sent == At(inputs, n).sent
  {
    OuterLossNeverSent(inputs[..n]);
  }

  /** Without a client the worker waits, sends nothing, and tries again. */
  lemma TurnWithoutClient(inputs: seq<Input>, n: nat)
    requires n + 3 <= |inputs| && FlagDown(inputs, n + 3)
    requires At(inputs, n).point.Top? && !inputs[n + 1].client
    ensures At(inputs, n + 3).point.Top? && Keeps(At(inputs, n), At(inputs, n + 3))
  {
    RunStep(inputs, n);
    NothingToTell(inputs, n + 1);
    RunStep(inputs, n + 1);
    RunStep(inputs, n + 2);
  }

  lemma TurnSubscribes(inputs: seq<Input>, n: nat)
    requires n + 4 <= |inputs| && FlagDown(inputs, n + 4)
    requires At(inputs, n).point.Top? && inputs[n + 1].client
    ensures At(inputs, n + 4) == At(inputs, n).(point := Connect(inputs[n + 2].subscription))
  {
    RunStep(inputs, n);
    RunStep(inputs, n + 1);
    RunStep(inputs, n + 2);
    RunStep(inputs, n + 3);
  }

  /** Nor does it send anything when subscribing fails: it waits, and tries again. */
  lemma TurnWithoutSubscription(inputs: seq<Input>, n: nat)
    requires n + 6 <= |inputs| && FlagDown(inputs, n + 6)
    requires At(inputs, n).point.Top? && inputs[n + 1].client && inputs[n + 2].subscription.None?
    ensures At(inputs, n + 6).point.Top? && Keeps(At(inputs, n), At(inputs, n + 6))
  {
    TurnSubscribes(inputs, n);
    NothingToTell(inputs, n + 4);
    RunStep(inputs, n + 4);
    RunStep(inputs, n + 5);
  }

  /** Once subscribed it sends the snapshot it was given and starts reading, or stops if it cannot. */
  lemma TurnWithSubscription(inputs: seq<Input>, n: nat, h: Handshake)
    requires n + 5 <= |inputs| && FlagDown(inputs, n + 5)
    requires At(inputs, n).point.Top? && inputs[n + 1].client && inputs[n + 2].subscription == Some(h)
    ensures Forwards(At(inputs, n), At(inputs, n + 5), Snapshot(h.snapshot), inputs[n + 4].delivered)
  {
    TurnSubscribes(inputs, n);
    RunStep(inputs, n + 4);
  }

  /** While its flag is down and what it sends arrives, the worker does not stop. */
  lemma {:induction false} RunsOn(inputs: seq<Input>, n: nat)
    requires n <= |inputs| && FlagDown(inputs, n)
    requires forall k | 0 <= k < n :: inputs[k].delivered
    ensures !At(inputs, n).point.Stopped?
  {
    if n == 0 {
      assert inputs[..0] == [];
    } else {
      RunsOn(inputs, n - 1);
      RunStep(inputs, n - 1);
      StepRunsOn(At(inputs, n - 1), inputs[n - 1]);
    }
  }

  lemma StepRunsOn(w: Worker, i: Input)
    requires !w.point.Stopped? && !i.flag && i.delivered
    ensures !Step(w, i).point.Stopped?
  {
  }
}
