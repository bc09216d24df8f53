/**
  Daemon, transport and host together. The daemon may be restarted any number of times, on any
  database. The transport may lose, repeat, delay or reorder messages and mix those of different
  connections, but delivers only what some daemon put on some connection.
 */
module EndToEnd {
  import opened Wrappers
  import opened Domain
  import opened Protocol
  import opened StreamWorker
  import opened Host
  import Session
  import EventLog
  import Guarantees
  import Running
  import Storage

  /** All daemons started so far, the last one alive, and the host. */
  datatype World = World(daemons: seq<Session.State>, host: HostState)

  /** Subscription `k` of daemon `g`. */
  ghost predicate Made(daemons: seq<Session.State>, g: int, k: int) {
    0 <= g < |daemons| && 0 <= k < |daemons[g].stream.Subscriptions()|
  }

  /** SubscriptionReady and snapshot come from one daemon. */
  ghost predicate GenuineHandshake(daemons: seq<Session.State>, h: Handshake) {
    exists g, k :: Made(daemons, g, k)
      && h == Handshake(daemons[g].streamId, daemons[g].stream.Subscriptions()[k].snapshot)
  }

  ghost predicate GenuineMessage(daemons: seq<Session.State>, m: StreamMessage) {
    match m
    case Snapshot(s) =>
      exists g, k :: Made(daemons, g, k) && s == daemons[g].stream.Subscriptions()[k].snapshot
    case Event(e) =>
      exists g, k :: Made(daemons, g, k) && e in daemons[g].stream.Subscriptions()[k].sent
  }

  ghost predicate Genuine(daemons: seq<Session.State>, i: Input) {
    && (i.subscription.Some? ==> GenuineHandshake(daemons, i.subscription.value))
    && (i.read.Got? ==> GenuineMessage(daemons, i.read.message))
  }

  datatype WorldAction =
    | Daemon(action: Session.Action)
    | Restart(streamId: StreamId, storage: Option<Storage.Database>)
    | Desktop(hostAction: HostAction)

  ghost predicate FreshStream(daemons: seq<Session.State>, streamId: StreamId) {
    forall g | 0 <= g < |daemons| :: daemons[g].streamId != streamId
  }

  /** One step of anything; what cannot happen changes nothing. */
  ghost function WorldStep(w: World, a: WorldAction): World {
    match a
    case Daemon(action) =>
      var n := |w.daemons|;
      if n == 0 then w
      else w.(daemons := w.daemons[n - 1 := Session.Step(w.daemons[n - 1], action)])
    case Restart(streamId, storage) =>
      var started := Session.WithStorage(streamId, storage);
      if started.Failure? || !FreshStream(w.daemons, streamId) then w
      else w.(daemons := w.daemons + [started.value])
    case Desktop(hostAction) =>
      if hostAction.Work? && !Genuine(w.daemons, hostAction.input) then w
      else w.(host := HostStep(w.host, hostAction))
  }

  ghost function WorldRun(w: World, actions: seq<WorldAction>): World {
    if actions == [] then w
    else WorldStep(WorldRun(w, actions[..|actions| - 1]), actions[|actions| - 1])
  }

  // ---- What a listener has been told ----

  /** A place in a stream, and the replica there. */
  datatype View = View(streamId: StreamId, sequence: nat, replica: Replica)

  function Look(v: Option<View>, u: Update): Option<View> {
    match u
    case Message(Snapshot(s)) =>
      Some(View(s.streamId, s.lastSequence, Replica(s.project, Elements(s.activeOperations))))
    case Message(Event(e)) =>
      if v.None? then None else Some(View(e.streamId, e.sequence, v.value.replica.Apply(e.payload)))
    case _ => v
  }

  function Watch(sent: seq<Update>): Option<View> {
    if sent == [] then None else Look(Watch(sent[..|sent| - 1]), sent[|sent| - 1])
  }

  lemma WatchAppend(sent: seq<Update>, u: Update)
    ensures Watch(sent + [u]) == Look(Watch(sent), u)
  {
    assert (sent + [u])[..|sent|] == sent;
  }

  /**
    The view is what that very daemon was at that place of its log: its project always, and its
    running requests unless by then one had ended without an event for want of sequence numbers.
   */
  ghost predicate True(d: Session.State, v: View) {
    && d.streamId == v.streamId
    && v.sequence <= |d.stream.log|
    && var was := Fold(d.initial, d.stream.log[..v.sequence]);
       && v.replica.project == was.project
       && v.replica.active <= was.active
       && (EventLog.Complete(d, v.sequence) ==> v.replica.active == was.active)
  }

  ghost predicate TrueOfSome(daemons: seq<Session.State>, v: View) {
    exists g :: 0 <= g < |daemons| && True(daemons[g], v)
  }

  // ---- Invariants ----

  ghost predicate DistinctStreams(daemons: seq<Session.State>) {
    forall f, g | 0 <= f < g < |daemons| :: daemons[f].streamId != daemons[g].streamId
  }

  ghost predicate DaemonsInv(daemons: seq<Session.State>) {
    (forall g | 0 <= g < |daemons| :: Guarantees.Inv(daemons[g])) && DistinctStreams(daemons)
  }

  /** All that the host relies on: queues are stretches of logs, snapshots depict them. */
  ghost predicate Honest(daemons: seq<Session.State>) {
    && (forall g | 0 <= g < |daemons| ::
          EventLog.StreamInv(daemons[g].stream, daemons[g].streamId) && EventLog.SnapshotsInv(daemons[g]))
    && DistinctStreams(daemons)
  }

  lemma DaemonsAreHonest(daemons: seq<Session.State>)
    requires DaemonsInv(daemons)
    ensures Honest(daemons)
  {
  }

  /** Results a worker still holds are genuine too. */
  ghost predicate HoldsGenuine(daemons: seq<Session.State>, p: Point) {
    match p
    case Subscribed(h) => h.Some? ==> GenuineHandshake(daemons, h.value)
    case Connect(h) => h.Some? ==> GenuineHandshake(daemons, h.value)
    case GotResult(Got(m)) => GenuineMessage(daemons, m)
    case Dispatching(Got(m)) => GenuineMessage(daemons, m)
    case _ => true
  }

  /** The view follows what was heard, and it is true of the daemon whose stream it names. */
  ghost predicate Told(daemons: seq<Session.State>, sent: seq<Update>) {
    && (Heard(sent).Live? ==>
          Watch(sent).Some?
          && Watch(sent).value.streamId == Heard(sent).streamId
          && Watch(sent).value.sequence + 1 == Heard(sent).next)
    && (Watch(sent).Some? ==> TrueOfSome(daemons, Watch(sent).value))
  }

  ghost predicate AllGenuine(daemons: seq<Session.State>, sent: seq<Update>) {
    forall i | 0 <= i < |sent| && sent[i].Message? :: GenuineMessage(daemons, sent[i].message)
  }

  ghost predicate WorkerInv(daemons: seq<Session.State>, w: Worker) {
    && StreamWorker.Inv(w)
    && HoldsGenuine(daemons, w.point)
    && Told(daemons, w.sent)
    && AllGenuine(daemons, w.sent)
  }

  ghost predicate WorldInv(w: World) {
    && DaemonsInv(w.daemons)
    && Host.Inv(w.host)
    && forall k | 0 <= k < |w.host.workers| :: WorkerInv(w.daemons, w.host.workers[k])
  }

  // ---- Daemons only add to what they said ----

  /** Same stream and start, a longer log, the same subscriptions with no less in their queues. */
  ghost predicate Extends(s: Session.State, t: Session.State) {
    && t.streamId == s.streamId && t.initial == s.initial && s.lost <= t.lost
    && s.stream.log <= t.stream.log
    && |s.stream.Subscriptions()| <= |t.stream.Subscriptions()|
    && forall k | 0 <= k < |s.stream.Subscriptions()| ::
         && t.stream.Subscriptions()[k].snapshot == s.stream.Subscriptions()[k].snapshot
         && s.stream.Subscriptions()[k].sent <= t.stream.Subscriptions()[k].sent
  }

  lemma ExtendsItself(s: Session.State)
    ensures Extends(s, s)
  {
  }

  lemma EmitExtends(s: Session.State, t: Session.State, e: EventPayload)
    requires EventLog.StreamInv(s.stream, s.streamId)
    requires Session.Emit(s.stream, s.streamId, e) == Some(t.stream)
    requires t.streamId == s.streamId && t.initial == s.initial && s.lost <= t.lost
    ensures Extends(s, t)
  {
    EventLog.EmitSubscriptions(s.stream, s.streamId, e);
  }

  lemma BeginExtends(s: Session.State, r: Session.OpenRequest)
    requires EventLog.StreamInv(s.stream, s.streamId)
    ensures Extends(s, Session.Begin(s, r).0)
  {
    ExtendsItself(s);
    Running.BeginCases(s, r);
    if Running.Admits(s, r) {
      EmitExtends(s, Session.Begin(s, r).0, OperationStarted(r.id));
    }
  }

  lemma FinishExtends(s: Session.State, i: nat, fault: Storage.SaveFault)
    requires EventLog.StreamInv(s.stream, s.streamId) && i < |s.ops| && s.ops[i].phase.Ready?
    ensures Extends(s, Session.Finish(s, i, fault).0)
  {
    var result := Session.Persist(s.storage, s.ops[i].phase.result, fault).1;
    if s.stream.sequence < U64_MAX {
      EmitExtends(s, Session.Finish(s, i, fault).0, Session.TerminalEvent(s.ops[i].requestId, result));
    }
  }

  lemma ReceiverExtends(s: Session.State, a: Session.Action)
    requires EventLog.StreamInv(s.stream, s.streamId)
    requires (a.Receive? || a.Disconnect?) && Session.Enabled(s, a)
    ensures Extends(s, Session.Step(s, a))
  {
    var k := a.subscription;
    var sub := s.stream.Subscriptions()[k];
    var next := if a.Receive? then sub.(taken := sub.taken + 1) else sub.(connected := false);
    assert Session.Step(s, a) == s.(stream := Session.UpdateSubscription(s.stream, k, next));
    assert EventLog.Carries(sub, s.streamId, s.stream.log);
    EventLog.UpdateKeepsStream(s.stream, s.streamId, k, next);
  }

  lemma SubscribeExtends(s: Session.State, listing: seq<RequestId>)
    requires EventLog.StreamInv(s.stream, s.streamId)
    ensures Extends(s, Session.Subscribe(s, listing))
  {
    EventLog.UnsubscribedKeepsInv(s.stream, s.streamId);
  }

  lemma SameStreamExtends(s: Session.State, t: Session.State)
    requires t.streamId == s.streamId && t.initial == s.initial && t.lost == s.lost && t.stream == s.stream
    ensures Extends(s, t)
  {
  }

  lemma StepExtends(s: Session.State, a: Session.Action)
    requires EventLog.StreamInv(s.stream, s.streamId)
    ensures Extends(s, Session.Step(s, a))
  {
    if !Session.Enabled(s, a) {
      ExtendsItself(s);
    } else if a.BeginOpen? {
      BeginExtends(s, a.open);
    } else if a.FinishOpen? {
      FinishExtends(s, a.op, a.fault);
    } else if a.Receive? || a.Disconnect? {
      ReceiverExtends(s, a);
    } else if a.SubscribeEvents? {
      SubscribeExtends(s, a.listing);
    } else {
      SameStreamExtends(s, Session.Step(s, a));
    }
  }

  // ---- Truth is kept ----

  lemma TrueExtends(s: Session.State, t: Session.State, v: View)
    requires Extends(s, t) && True(s, v)
    ensures True(t, v)
  {
    assert t.stream.log[..v.sequence] == s.stream.log[..v.sequence];
  }

  /** Every daemon of `before` is still there, with no less said. */
  ghost predicate AllExtend(before: seq<Session.State>, after: seq<Session.State>) {
    && |before| <= |after|
    && forall g | 0 <= g < |before| :: Extends(before[g], after[g])
  }

  lemma GenuineStays(before: seq<Session.State>, after: seq<Session.State>, m: StreamMessage)
    requires AllExtend(before, after) && GenuineMessage(before, m)
    ensures GenuineMessage(after, m)
  {
    match m
    case Snapshot(s) =>
      var g, k :| Made(before, g, k) && s == before[g].stream.Subscriptions()[k].snapshot;
      assert Made(after, g, k);
    case Event(e) =>
      var g, k :| Made(before, g, k) && e in before[g].stream.Subscriptions()[k].sent;
      assert Made(after, g, k);
  }

  lemma HandshakeStays(before: seq<Session.State>, after: seq<Session.State>, h: Handshake)
    requires AllExtend(before, after) && GenuineHandshake(before, h)
    ensures GenuineHandshake(after, h)
  {
    var g, k :| Made(before, g, k)
      && h == Handshake(before[g].streamId, before[g].stream.Subscriptions()[k].snapshot);
    assert Made(after, g, k);
  }

  lemma HeldStays(before: seq<Session.State>, after: seq<Session.State>, p: Point)
    requires AllExtend(before, after) && HoldsGenuine(before, p)
    ensures HoldsGenuine(after, p)
  {
    match p
    case Subscribed(Some(h)) => HandshakeStays(before, after, h);
    case Connect(Some(h)) => HandshakeStays(before, after, h);
    case GotResult(Got(m)) => GenuineStays(before, after, m);
    case Dispatching(Got(m)) => GenuineStays(before, after, m);
    case _ =>
  }

  lemma TruthStays(before: seq<Session.State>, after: seq<Session.State>, v: View)
    requires AllExtend(before, after)
    requires TrueOfSome(before, v)
    ensures TrueOfSome(after, v)
  {
    var g :| 0 <= g < |before| && True(before[g], v);
    TrueExtends(before[g], after[g], v);
  }

  lemma WorkerStays(before: seq<Session.State>, after: seq<Session.State>, w: Worker)
    requires AllExtend(before, after) && WorkerInv(before, w)
    ensures WorkerInv(after, w)
  {
    HeldStays(before, after, w.point);
    forall i | 0 <= i < |w.sent| && w.sent[i].Message? ensures GenuineMessage(after, w.sent[i].message) {
      GenuineStays(before, after, w.sent[i].message);
    }
    if Watch(w.sent).Some? {
      TruthStays(before, after, Watch(w.sent).value);
    }
  }

  // ---- How the list of daemons changes ----

  /** What a step of a daemon is to the others: it says no less, and at most one event more. */
  ghost predicate Leads(s: Session.State, t: Session.State) {
    Extends(s, t) && |t.stream.log| <= |s.stream.log| + 1 && Guarantees.Inv(t)
  }

  /** A daemon that joins the others. */
  ghost predicate Joins(before: seq<Session.State>, t: Session.State) {
    FreshStream(before, t.streamId) && t.stream.log == [] && Guarantees.Inv(t)
  }

  /** Nothing changes, or the last daemon takes a step, or one joins. */
  ghost predicate Moves(before: seq<Session.State>, after: seq<Session.State>) {
    || after == before
    || (before != [] && |after| == |before| && after == before[|before| - 1 := after[|before| - 1]]
        && Leads(before[|before| - 1], after[|before| - 1]))
    || (|after| == |before| + 1 && after == before + [after[|before|]] && Joins(before, after[|before|]))
  }

  lemma LogGrows(s: Session.State, a: Session.Action)
    ensures |Session.Step(s, a).stream.log| <= |s.stream.log| + 1
  {
    if Session.Enabled(s, a) && a.BeginOpen? {
      Running.BeginCases(s, a.open);
    }
  }

  lemma StepLeads(s: Session.State, a: Session.Action)
    requires Guarantees.Inv(s)
    ensures Leads(s, Session.Step(s, a))
  {
    assert Extends(s, Session.Step(s, a)) by {
      StepExtends(s, a);
    }
    assert Guarantees.Inv(Session.Step(s, a)) by {
      Guarantees.StepKeepsInv(s, a);
    }
    LogGrows(s, a);
  }

  lemma StartedStream(streamId: StreamId, storage: Option<Storage.Database>)
    requires Session.WithStorage(streamId, storage).Success?
    ensures Session.WithStorage(streamId, storage).value.streamId == streamId
    ensures Session.WithStorage(streamId, storage).value.stream.log == []
  {
  }

  lemma StartJoins(daemons: seq<Session.State>, streamId: StreamId, storage: Option<Storage.Database>)
    requires Session.WithStorage(streamId, storage).Success? && FreshStream(daemons, streamId)
    ensures Joins(daemons, Session.WithStorage(streamId, storage).value)
  {
    StartedStream(streamId, storage);
    Guarantees.StartHolds(streamId, storage);
  }

  lemma DaemonMoves(daemons: seq<Session.State>, s: Session.State)
    requires daemons != [] && Leads(daemons[|daemons| - 1], s)
    ensures Moves(daemons, daemons[|daemons| - 1 := s])
  {
  }

  lemma JoinMoves(daemons: seq<Session.State>, s: Session.State)
    requires Joins(daemons, s)
    ensures Moves(daemons, daemons + [s])
  {
  }

  lemma WorldStepMoves(w: World, a: WorldAction)
    requires w.daemons == [] || Guarantees.Inv(w.daemons[|w.daemons| - 1])
    ensures Moves(w.daemons, WorldStep(w, a).daemons)
  {
    match a
    case Daemon(action) =>
      if w.daemons != [] {
        var last := w.daemons[|w.daemons| - 1];
        StepLeads(last, action);
        DaemonMoves(w.daemons, Session.Step(last, action));
      }
    case Restart(streamId, storage) =>
      if Session.WithStorage(streamId, storage).Success? && FreshStream(w.daemons, streamId) {
        StartJoins(w.daemons, streamId, storage);
        JoinMoves(w.daemons, Session.WithStorage(streamId, storage).value);
      }
    case Desktop(_) =>
  }

  lemma MovesExtend(before: seq<Session.State>, after: seq<Session.State>)
    requires Moves(before, after)
    ensures AllExtend(before, after)
  {
    forall g | 0 <= g < |before| ensures Extends(before[g], after[g]) {
      if after[g] == before[g] {
        ExtendsItself(before[g]);
      }
    }
  }

  lemma MovesKeepInvAt(before: seq<Session.State>, after: seq<Session.State>, g: nat)
    requires Moves(before, after) && g < |after|
    requires g < |before| ==> Guarantees.Inv(before[g])
    ensures Guarantees.Inv(after[g])
  {
  }

  lemma MovesKeepStreams(before: seq<Session.State>, after: seq<Session.State>)
    requires Moves(before, after) && DistinctStreams(before)
    ensures DistinctStreams(after)
  {
    if |after| == |before| {
      assert forall g | 0 <= g < |before| :: after[g].streamId == before[g].streamId;
    }
  }

  lemma MovesKeepInv(before: seq<Session.State>, after: seq<Session.State>)
    requires DaemonsInv(before) && Moves(before, after)
    ensures DaemonsInv(after)
  {
    forall g | 0 <= g < |after| ensures Guarantees.Inv(after[g]) {
      MovesKeepInvAt(before, after, g);
    }
    MovesKeepStreams(before, after);
  }

  lemma WorkersStay(before: seq<Session.State>, after: seq<Session.State>, workers: seq<Worker>)
    requires AllExtend(before, after)
    requires forall k | 0 <= k < |workers| :: WorkerInv(before, workers[k])
    ensures forall k | 0 <= k < |workers| :: WorkerInv(after, workers[k])
  {
    forall k | 0 <= k < |workers| ensures WorkerInv(after, workers[k]) {
      WorkerStays(before, after, workers[k]);
    }
  }

  lemma DaemonStepKeepsInv(w: World, a: WorldAction)
    requires WorldInv(w) && (a.Daemon? || a.Restart?)
    ensures WorldInv(WorldStep(w, a))
  {
    var t := WorldStep(w, a);
    WorldStepMoves(w, a);
    MovesExtend(w.daemons, t.daemons);
    MovesKeepInv(w.daemons, t.daemons);
    WorkersStay(w.daemons, t.daemons, w.host.workers);
  }

  // ---- Forwarding is truthful ----

  function ViewOf(s: WorkspaceSnapshot): View {
    View(s.streamId, s.lastSequence, Replica(s.project, Elements(s.activeOperations)))
  }

  /** A genuine snapshot depicts the daemon it came from. */
  lemma GenuineSnapshotIsTrue(daemons: seq<Session.State>, s: WorkspaceSnapshot)
    requires Honest(daemons) && GenuineMessage(daemons, Snapshot(s))
    ensures TrueOfSome(daemons, ViewOf(s))
  {
    var g, k :| Made(daemons, g, k) && s == daemons[g].stream.Subscriptions()[k].snapshot;
    var d := daemons[g];
    assert EventLog.Carries(d.stream.Subscriptions()[k], d.streamId, d.stream.log);
    assert EventLog.Depicts(s, d.initial, d.stream.log, EventLog.Complete(d, s.lastSequence));
    assert True(d, ViewOf(s));
  }

  lemma HandshakeIsConsistent(daemons: seq<Session.State>, h: Handshake)
    requires Honest(daemons) && GenuineHandshake(daemons, h)
    ensures Consistent(Some(h)) && GenuineMessage(daemons, Snapshot(h.snapshot))
  {
    var g, k :| Made(daemons, g, k)
      && h == Handshake(daemons[g].streamId, daemons[g].stream.Subscriptions()[k].snapshot);
    assert EventLog.Carries(daemons[g].stream.Subscriptions()[k], daemons[g].streamId, daemons[g].stream.log);
  }

  lemma CarriedEventIsLogged(sub: Session.Subscription, streamId: StreamId, log: seq<EventPayload>, e: DaemonEvent)
    requires EventLog.Carries(sub, streamId, log) && e in sub.sent
    ensures e.streamId == streamId && 0 < e.sequence <= |log| && e.payload == log[e.sequence - 1]
  {
    var i :| 0 <= i < |sub.sent| && sub.sent[i] == e;
  }

  /** A genuine event is the one its stream's log has at its sequence number. */
  lemma GenuineEventIsLogged(daemons: seq<Session.State>, e: DaemonEvent) returns (g: nat)
    requires Honest(daemons) && GenuineMessage(daemons, Event(e))
    ensures g < |daemons| && daemons[g].streamId == e.streamId
    ensures 0 < e.sequence <= |daemons[g].stream.log|
    ensures e.payload == daemons[g].stream.log[e.sequence - 1]
  {
    var f, k :| Made(daemons, f, k) && e in daemons[f].stream.Subscriptions()[k].sent;
    g := f;
    CarriedEventIsLogged(daemons[g].stream.Subscriptions()[k], daemons[g].streamId, daemons[g].stream.log, e);
  }

  lemma LoggedEventIsTrue(d: Session.State, v: View, e: DaemonEvent)
    requires True(d, v) && e.streamId == v.streamId && e.sequence == v.sequence + 1
    requires e.sequence <= |d.stream.log| && e.payload == d.stream.log[e.sequence - 1]
    ensures True(d, View(e.streamId, e.sequence, v.replica.Apply(e.payload)))
  {
    assert d.stream.log[..e.sequence] == d.stream.log[..v.sequence] + [e.payload];
    FoldAppend(d.initial, d.stream.log[..v.sequence], e.payload);
  }

  /** The next event of a true view's stream leads to a true view. */
  lemma NextEventIsTrue(daemons: seq<Session.State>, v: View, e: DaemonEvent)
    requires Honest(daemons) && GenuineMessage(daemons, Event(e)) && TrueOfSome(daemons, v)
    requires e.streamId == v.streamId && e.sequence == v.sequence + 1
    ensures TrueOfSome(daemons, View(e.streamId, e.sequence, v.replica.Apply(e.payload)))
  {
    var f := GenuineEventIsLogged(daemons, e);
    var g :| 0 <= g < |daemons| && True(daemons[g], v);
    assert f == g;
    LoggedEventIsTrue(daemons[g], v, e);
  }

  lemma MessageKeepsTold(daemons: seq<Session.State>, sent: seq<Update>, m: StreamMessage)
    requires Honest(daemons) && Told(daemons, sent) && GenuineMessage(daemons, m)
    requires m.Event? ==> Heard(sent) == Live(m.event.streamId, m.event.sequence)
    ensures Told(daemons, sent + [Message(m)])
  {
    HeardAppend(sent, Message(m));
    WatchAppend(sent, Message(m));
    match m
    case Snapshot(s) => GenuineSnapshotIsTrue(daemons, s);
    case Event(e) => NextEventIsTrue(daemons, Watch(sent).value, e);
  }

  lemma ReconnectingKeepsTold(daemons: seq<Session.State>, sent: seq<Update>)
    requires Told(daemons, sent)
    ensures Told(daemons, sent + [Reconnecting])
  {
    HeardAppend(sent, Reconnecting);
    WatchAppend(sent, Reconnecting);
  }

  /** Either the next message of the stream is forwarded, or a snapshot, or the loss of it is told. */
  lemma DispatchForwards(w: Worker, i: Input)
    requires w.point.Dispatching?
    ensures
      var result, sent := w.point.result, Dispatch(w, w.point.result, i).sent;
      || sent == w.sent
      || sent == w.sent + [Reconnecting]
      || (result.Got? && sent == w.sent + [Message(result.message)]
          && (result.message.Event? ==>
                result.message.event.streamId == w.streamId && result.message.event.sequence == w.expected))
  {
  }

  lemma DispatchKeepsTold(daemons: seq<Session.State>, w: Worker, i: Input)
    requires Honest(daemons) && WorkerInv(daemons, w) && w.point.Dispatching?
    ensures Told(daemons, Step(w, i).sent) && AllGenuine(daemons, Step(w, i).sent)
  {
    var result, sent := w.point.result, Dispatch(w, w.point.result, i).sent;
    DispatchForwards(w, i);
    if sent == w.sent + [Reconnecting] {
      ReconnectingKeepsTold(daemons, w.sent);
    } else if sent != w.sent {
      MessageKeepsTold(daemons, w.sent, result.message);
    }
  }

  lemma ConnectKeepsTold(daemons: seq<Session.State>, w: Worker, i: Input)
    requires Honest(daemons) && WorkerInv(daemons, w) && w.point.Connect? && w.point.subscription.Some?
    ensures Told(daemons, Step(w, i).sent) && AllGenuine(daemons, Step(w, i).sent)
  {
    var h := w.point.subscription.value;
    HandshakeIsConsistent(daemons, h);
    MessageKeepsTold(daemons, w.sent, Snapshot(h.snapshot));
  }

  /** Elsewhere the worker sends nothing, or that it is reconnecting. */
  lemma QuietSends(w: Worker, i: Input)
    requires !w.point.Dispatching? && !(w.point.Connect? && w.point.subscription.Some?)
    ensures Step(w, i).sent == w.sent || Step(w, i).sent == w.sent + [Reconnecting]
  {
  }

  lemma StepKeepsTold(daemons: seq<Session.State>, w: Worker, i: Input)
    requires Honest(daemons) && WorkerInv(daemons, w)
    ensures Told(daemons, Step(w, i).sent) && AllGenuine(daemons, Step(w, i).sent)
  {
    if w.point.Dispatching? {
      DispatchKeepsTold(daemons, w, i);
    } else if w.point.Connect? && w.point.subscription.Some? {
      ConnectKeepsTold(daemons, w, i);
    } else {
      QuietSends(w, i);
      ReconnectingKeepsTold(daemons, w.sent);
    }
  }

  lemma StepHoldsGenuine(daemons: seq<Session.State>, w: Worker, i: Input)
    requires HoldsGenuine(daemons, w.point) && Genuine(daemons, i)
    ensures HoldsGenuine(daemons, Step(w, i).point)
  {
  }

  lemma WorkerStepKeepsInv(daemons: seq<Session.State>, w: Worker, i: Input)
    requires Honest(daemons) && WorkerInv(daemons, w) && Genuine(daemons, i)
    ensures WorkerInv(daemons, Step(w, i))
  {
    StepHoldsGenuine(daemons, w, i);
    assert Told(daemons, Step(w, i).sent) && AllGenuine(daemons, Step(w, i).sent) by {
      StepKeepsTold(daemons, w, i);
    }
    assert StreamWorker.Inv(Step(w, i)) by {
      if i.subscription.Some? {
        HandshakeIsConsistent(daemons, i.subscription.value);
      }
      StreamWorker.StepKeepsInv(w, i);
    }
  }

  lemma WorldStepKeepsInv(w: World, a: WorldAction)
    requires WorldInv(w)
    ensures WorldInv(WorldStep(w, a))
  {
    if a.Desktop? {
      HostStepKeepsInv(w.host, a.hostAction);
      DaemonsAreHonest(w.daemons);
      var t := WorldStep(w, a);
      forall k | 0 <= k < |t.host.workers| ensures WorkerInv(w.daemons, t.host.workers[k]) {
        if a.hostAction.Work? && a.hostAction.worker == k && t != w {
          WorkerStepKeepsInv(w.daemons, w.host.workers[k], a.hostAction.input.(flag := w.host.flags[k]));
        }
      }
    } else {
      DaemonStepKeepsInv(w, a);
    }
  }

  // ---- The theorem ----

  const NOTHING := World([], EMPTY_HOST)

  lemma {:induction false} WorldHolds(actions: seq<WorldAction>)
    ensures WorldInv(WorldRun(NOTHING, actions))
  {
    if actions != [] {
      WorldHolds(actions[..|actions| - 1]);
      WorldStepKeepsInv(WorldRun(NOTHING, actions[..|actions| - 1]), actions[|actions| - 1]);
    }
  }

  // ---- Places of a log are moments of the run ----

  lemma LastStepMoves(actions: seq<WorldAction>)
    requires actions != []
    ensures Moves(WorldRun(NOTHING, actions[..|actions| - 1]).daemons, WorldRun(NOTHING, actions).daemons)
  {
    var before := WorldRun(NOTHING, actions[..|actions| - 1]);
    assert before.daemons == [] || Guarantees.Inv(before.daemons[|before.daemons| - 1]) by {
      WorldHolds(actions[..|actions| - 1]);
    }
    WorldStepMoves(before, actions[|actions| - 1]);
  }

  /** A daemon whose log has passed `q` was there before, and had come as far as `q`. */
  lemma MovesGrow(before: seq<Session.State>, after: seq<Session.State>, g: nat, q: nat)
    requires Moves(before, after) && g < |after| && q < |after[g].stream.log|
    ensures g < |before| && Extends(before[g], after[g]) && q <= |before[g].stream.log|
  {
    if g < |before| && after[g] == before[g] {
      ExtendsItself(before[g]);
    }
  }

  /** `d` is a daemon on its way to `last`, its log having come as far as event `q`. */
  ghost predicate Earlier(d: Session.State, last: Session.State, q: nat) {
    && q <= |last.stream.log| && d.stream.log == last.stream.log[..q]
    && d.streamId == last.streamId && d.initial == last.initial && d.lost <= last.lost
  }

  lemma EarlierStill(d: Session.State, s: Session.State, t: Session.State, q: nat)
    requires Earlier(d, s, q) && Extends(s, t)
    ensures Earlier(d, t, q)
  {
  }

  /** A daemon's log was, at some moment, just as long as any of its prefixes. */
  lemma {:induction false} DaemonMoment(actions: seq<WorldAction>, g: nat, q: nat) returns (n: nat)
    requires g < |WorldRun(NOTHING, actions).daemons|
    requires q <= |WorldRun(NOTHING, actions).daemons[g].stream.log|
    ensures n <= |actions| && g < |WorldRun(NOTHING, actions[..n]).daemons|
    ensures Earlier(WorldRun(NOTHING, actions[..n]).daemons[g], WorldRun(NOTHING, actions).daemons[g], q)
  {
    var last := WorldRun(NOTHING, actions).daemons[g];
    assert actions[..|actions|] == actions;
    if q == |last.stream.log| {
      n := |actions|;
      assert last.stream.log[..q] == last.stream.log;
    } else {
      var init := actions[..|actions| - 1];
      assert g < |WorldRun(NOTHING, init).daemons|
          && Extends(WorldRun(NOTHING, init).daemons[g], last)
          && q <= |WorldRun(NOTHING, init).daemons[g].stream.log| by {
        LastStepMoves(actions);
        MovesGrow(WorldRun(NOTHING, init).daemons, WorldRun(NOTHING, actions).daemons, g, q);
      }
      n := DaemonMoment(init, g, q);
      assert init[..n] == actions[..n];
      EarlierStill(WorldRun(NOTHING, actions[..n]).daemons[g], WorldRun(NOTHING, init).daemons[g], last, q);
    }
  }

  /**
    The view is what the daemon was when its log had come that far: its project always, and its
    running requests unless by then one had ended without an event for want of sequence numbers.
   */
  ghost predicate Was(d: Session.State, last: Session.State, v: View) {
    && d.streamId == last.streamId == v.streamId
    && d.stream.sequence == v.sequence
    && d.project == v.replica.project
    && (EventLog.Complete(last, v.sequence) ==> d.active.Keys == v.replica.active)
  }

  lemma EarlierWas(d: Session.State, last: Session.State, v: View)
    requires EventLog.StreamInv(d.stream, d.streamId) && EventLog.ReplicaInv(d)
    requires True(last, v) && Earlier(d, last, v.sequence)
    ensures Was(d, last, v)
  {
  }

  /** The daemon of the view's stream was just so at some moment of the run. */
  ghost predicate Happened(actions: seq<WorldAction>, n: int, g: int, v: View) {
    && 0 <= n <= |actions|
    && 0 <= g < |WorldRun(NOTHING, actions[..n]).daemons| && g < |WorldRun(NOTHING, actions).daemons|
    && Was(WorldRun(NOTHING, actions[..n]).daemons[g], WorldRun(NOTHING, actions).daemons[g], v)
  }

  lemma TruthHappened(actions: seq<WorldAction>, g: nat, v: View)
    requires g < |WorldRun(NOTHING, actions).daemons| && True(WorldRun(NOTHING, actions).daemons[g], v)
    ensures exists n :: Happened(actions, n, g, v)
  {
    var n := DaemonMoment(actions, g, v.sequence);
    WorldHolds(actions[..n]);
    var d := WorldRun(NOTHING, actions[..n]).daemons[g];
    assert Guarantees.Inv(d);
    EarlierWas(d, WorldRun(NOTHING, actions).daemons[g], v);
    assert Happened(actions, n, g, v);
  }

  // ---- What has been heard so far ----

  lemma SendsOne(w: World, a: WorldAction, k: nat)
    requires |w.host.flags| == |w.host.workers| && k < |WorldStep(w, a).host.workers|
    ensures
      var after := WorldStep(w, a).host.workers[k].sent;
      if k < |w.host.workers|
      then w.host.workers[k].sent <= after && |after| <= |w.host.workers[k].sent| + 1
      else after == []
  {
    if a.Desktop? && a.hostAction.Work? && k == a.hostAction.worker && k < |w.host.workers| {
      StepSendsOne(w.host.workers[k], a.hostAction.input.(flag := w.host.flags[k]));
    }
  }

  lemma StepSendsOne(w: Worker, i: Input)
    ensures w.sent <= Step(w, i).sent && |Step(w, i).sent| <= |w.sent| + 1
  {
    if w.point.Dispatching? {
      DispatchSendsOne(w, w.point.result, i);
    }
  }

  lemma DispatchSendsOne(w: Worker, result: ReadResult, i: Input)
    ensures w.sent <= Dispatch(w, result, i).sent && |Dispatch(w, result, i).sent| <= |w.sent| + 1
  {
  }

  /** Whatever a listener has heard so far was, at some moment, all that had been sent. */
  lemma {:induction false} SentMoment(actions: seq<WorldAction>, k: nat, m: nat) returns (n: nat)
    requires k < |WorldRun(NOTHING, actions).host.workers|
    requires m <= |WorldRun(NOTHING, actions).host.workers[k].sent|
    ensures n <= |actions| && k < |WorldRun(NOTHING, actions[..n]).host.workers|
    ensures WorldRun(NOTHING, actions[..n]).host.workers[k].sent
            == WorldRun(NOTHING, actions).host.workers[k].sent[..m]
  {
    var sent := WorldRun(NOTHING, actions).host.workers[k].sent;
    assert actions[..|actions|] == actions;
    if m == |sent| {
      n := |actions|;
    } else {
      var init := actions[..|actions| - 1];
      assert Host.Inv(WorldRun(NOTHING, init).host) by {
        WorldHolds(init);
      }
      SendsOne(WorldRun(NOTHING, init), actions[|actions| - 1], k);
      n := SentMoment(init, k, m);
      assert init[..n] == actions[..n];
    }
  }

  /** What is true of a daemon at some moment of a run stays true of it. */
  lemma {:induction false} TruthLasts(actions: seq<WorldAction>, m: nat, g: nat, v: View)
    requires m <= |actions| && g < |WorldRun(NOTHING, actions[..m]).daemons|
    requires True(WorldRun(NOTHING, actions[..m]).daemons[g], v)
    ensures g < |WorldRun(NOTHING, actions).daemons| && True(WorldRun(NOTHING, actions).daemons[g], v)
    decreases |actions|
  {
    if m == |actions| {
      assert actions[..m] == actions;
    } else {
      var init := actions[..|actions| - 1];
      assert init[..m] == actions[..m];
      TruthLasts(init, m, g, v);
      LastStepMoves(actions);
      MovesExtend(WorldRun(NOTHING, init).daemons, WorldRun(NOTHING, actions).daemons);
      TrueExtends(WorldRun(NOTHING, init).daemons[g], WorldRun(NOTHING, actions).daemons[g], v);
    }
  }

  lemma AllSentIsTrue(actions: seq<WorldAction>, k: nat, sent: seq<Update>)
    requires k < |WorldRun(NOTHING, actions).host.workers|
    requires sent == WorldRun(NOTHING, actions).host.workers[k].sent
    ensures Heard(sent) != Broken
    ensures Watch(sent).Some? ==> TrueOfSome(WorldRun(NOTHING, actions).daemons, Watch(sent).value)
  {
    WorldHolds(actions);
    assert WorkerInv(WorldRun(NOTHING, actions).daemons, WorldRun(NOTHING, actions).host.workers[k]);
  }

  lemma HeardIsTrue(actions: seq<WorldAction>, k: nat, heard: seq<Update>)
    requires k < |WorldRun(NOTHING, actions).host.workers|
    requires heard <= WorldRun(NOTHING, actions).host.workers[k].sent
    ensures Heard(heard) != Broken
    ensures Watch(heard).Some? ==> TrueOfSome(WorldRun(NOTHING, actions).daemons, Watch(heard).value)
  {
    var m := SentMoment(actions, k, |heard|);
    AllSentIsTrue(actions[..m], k, heard);
    if Watch(heard).Some? {
      var daemons, v := WorldRun(NOTHING, actions[..m]).daemons, Watch(heard).value;
      var g: nat :| g < |daemons| && True(daemons[g], v);
      TruthLasts(actions, m, g, v);
    }
  }

  /** `g` is the only daemon of that stream. */
  ghost predicate OnlyDaemon(daemons: seq<Session.State>, g: int, streamId: StreamId) {
    forall f | 0 <= f < |daemons| :: daemons[f].streamId == streamId ==> f == g
  }

  /**
    In every run of daemons, transport and host, whatever has been heard of what a worker forwarded,
    all of it or a beginning, is a word of the language of updates, and folds to the project and
    running requests that the daemon of that very stream had, at some moment of the run, when it
    stood at that very sequence number.
   */
  lemma EndToEndAgreement(actions: seq<WorldAction>, k: nat, heard: seq<Update>)
    requires k < |WorldRun(NOTHING, actions).host.workers|
    requires heard <= WorldRun(NOTHING, actions).host.workers[k].sent
    ensures forall i | 0 <= i < |heard| :: Follows(heard, i)
    ensures Watch(heard).None? <==> heard == []
    ensures Watch(heard).Some? ==>
              exists g, n :: Happened(actions, n, g, Watch(heard).value)
                             && OnlyDaemon(WorldRun(NOTHING, actions).daemons, g, Watch(heard).value.streamId)
  {
    HeardIsTrue(actions, k, heard);
    LanguageByNeighbours(heard);
    WatchedIfAnything(heard);
    if Watch(heard).Some? {
      TruthAgrees(actions, Watch(heard).value);
    }
  }

  lemma TruthAgrees(actions: seq<WorldAction>, v: View)
    requires TrueOfSome(WorldRun(NOTHING, actions).daemons, v)
    ensures exists g, n :: Happened(actions, n, g, v)
                           && OnlyDaemon(WorldRun(NOTHING, actions).daemons, g, v.streamId)
  {
    var daemons := WorldRun(NOTHING, actions).daemons;
    var g: nat :| g < |daemons| && True(daemons[g], v);
    TruthHappened(actions, g, v);
    assert DistinctStreams(daemons) by {
      WorldHolds(actions);
    }
    assert OnlyDaemon(daemons, g, v.streamId);
  }

  lemma {:induction false} WatchedIfAnything(sent: seq<Update>)
    requires Heard(sent) != Broken
    ensures Watch(sent).None? <==> sent == []
  {
    if sent != [] {
      WatchedIfAnything(sent[..|sent| - 1]);
    }
  }
}
