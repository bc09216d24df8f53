/** What the event log says: subscriptions carry stretches of it, and the session is its fold. */
module EventLog {
  import opened Wrappers
  import opened Domain
  import opened Protocol
  import opened Application
  import opened Idempotency
  import opened Session
  import Running
  import Storage

  // ---- Subscriptions ----

  /** The sequence number of the last event enqueued, or the snapshot's own if there is none. */
  function End(sub: Subscription): nat {
    sub.snapshot.lastSequence + |sub.sent|
  }

  /** The queue is the gap-free run of the log that follows the snapshot. */
  ghost predicate Carries(sub: Subscription, streamId: StreamId, log: seq<EventPayload>) {
    var last := sub.snapshot.lastSequence;
    && sub.snapshot.streamId == streamId
    && End(sub) <= |log|
    && sub.taken <= |sub.sent|
    && sub.Pending() <= SUBSCRIBER_CAPACITY
    && forall i | 0 <= i < |sub.sent| ::
         sub.sent[i] == DaemonEvent(streamId, last + i + 1, log[last + i])
  }

  ghost predicate StreamInv(st: Stream, streamId: StreamId) {
    var subs := st.Subscriptions();
    && st.sequence == |st.log| <= U64_MAX
    && (forall k | 0 <= k < |subs| :: Carries(subs[k], streamId, st.log))
    && (forall j, k | 0 <= j < k < |subs| :: End(subs[j]) <= subs[k].snapshot.lastSequence)
    && (st.subscriber.Some? ==> End(st.subscriber.value) == |st.log|)
  }

  lemma CarriesLonger(sub: Subscription, streamId: StreamId, log: seq<EventPayload>, e: EventPayload)
    requires Carries(sub, streamId, log)
    ensures Carries(sub, streamId, log + [e])
  {
  }

  lemma UnsubscribedKeepsInv(st: Stream, streamId: StreamId)
    requires StreamInv(st, streamId)
    ensures StreamInv(st.Unsubscribed(), streamId)
    ensures st.Unsubscribed().Subscriptions() == st.Subscriptions()
  {
    assert st.Unsubscribed().Subscriptions() == st.Subscriptions();
  }

  /** Of an emission only the current subscriber notices anything. */
  lemma EmitSubscriptions(st: Stream, streamId: StreamId, e: EventPayload)
    requires StreamInv(st, streamId) && st.sequence < U64_MAX
    ensures
      var before, after := st.Subscriptions(), Emit(st, streamId, e).value.Subscriptions();
      && |after| == |before|
      && (forall k | 0 <= k < |before| && (k < |st.closed| || !before[k].Accepts()) ::
            after[k] == before[k])
      && (forall k | |st.closed| <= k < |before| && before[k].Accepts() ::
            after[k] == before[k].(sent := before[k].sent + [DaemonEvent(streamId, |st.log| + 1, e)]))
  {
  }

  lemma EmitKeepsStream(st: Stream, streamId: StreamId, e: EventPayload)
    requires StreamInv(st, streamId) && st.sequence < U64_MAX
    ensures StreamInv(Emit(st, streamId, e).value, streamId)
    ensures Emit(st, streamId, e).value.log == st.log + [e]
  {
    var t := Emit(st, streamId, e).value;
    var before, after := st.Subscriptions(), t.Subscriptions();
    EmitSubscriptions(st, streamId, e);
    forall k | 0 <= k < |after| ensures Carries(after[k], streamId, t.log) {
      CarriesLonger(before[k], streamId, st.log, e);
    }
  }

  lemma SubscribeKeepsStream(st: Stream, streamId: StreamId, snapshot: WorkspaceSnapshot)
    requires StreamInv(st, streamId)
    requires snapshot.streamId == streamId && snapshot.lastSequence == st.sequence
    ensures StreamInv(st.Unsubscribed().(subscriber := Some(Subscription(snapshot, [], 0, true))), streamId)
  {
    UnsubscribedKeepsInv(st, streamId);
    var added := Subscription(snapshot, [], 0, true);
    assert st.Unsubscribed().(subscriber := Some(added)).Subscriptions() == st.Subscriptions() + [added];
  }

  /** The receiver's own steps leave what was enqueued alone. */
  lemma UpdateKeepsStream(st: Stream, streamId: StreamId, k: nat, sub: Subscription)
    requires StreamInv(st, streamId) && k < |st.Subscriptions()|
    requires sub.snapshot == st.Subscriptions()[k].snapshot && sub.sent == st.Subscriptions()[k].sent
    requires st.Subscriptions()[k].taken <= sub.taken <= |sub.sent|
    ensures StreamInv(UpdateSubscription(st, k, sub), streamId)
    ensures UpdateSubscription(st, k, sub).Subscriptions() == st.Subscriptions()[k := sub]
  {
    assert UpdateSubscription(st, k, sub).Subscriptions() == st.Subscriptions()[k := sub];
    assert Carries(st.Subscriptions()[k], streamId, st.log);
  }

  // ---- The session is the fold of its log ----

  ghost function ReplicaOf(s: State): Replica {
    Replica(s.project, s.active.Keys)
  }

  /** The log also counts, as running, requests that ended when no sequence number was left. */
  ghost predicate ReplicaInv(s: State) {
    && Fold(s.initial, s.stream.log) == Replica(s.project, s.active.Keys + s.lost)
    && s.active.Keys !! s.lost
    && (s.lost != {} ==> s.stream.sequence >= U64_MAX)
  }

  /** The session is the fold of its whole log exactly as long as no terminal event was lost. */
  lemma SessionIsFold(s: State)
    requires ReplicaInv(s)
    ensures Fold(s.initial, s.stream.log) == ReplicaOf(s) <==> s.lost == {}
  {
  }

  /**
    A snapshot tells the fold of the log up to its own sequence number: its project always, its
    running requests too when it is `complete`.
   */
  ghost predicate Depicts(
    snapshot: WorkspaceSnapshot, initial: Option<ProjectSnapshot>, log: seq<EventPayload>, complete: bool)
  {
    && snapshot.lastSequence <= |log|
    && IsListing(snapshot.activeOperations, Elements(snapshot.activeOperations))
    && var replica := Fold(initial, log[..snapshot.lastSequence]);
       && replica.project == snapshot.project
       && Elements(snapshot.activeOperations) <= replica.active
       && (complete ==> replica.active == Elements(snapshot.activeOperations))
  }

  /** Up to event `n` no request ended without its event. */
  ghost predicate Complete(s: State, n: nat) {
    s.lost == {} || n < U64_MAX
  }

  ghost predicate SnapshotsInv(s: State) {
    var subs := s.stream.Subscriptions();
    forall k | 0 <= k < |subs| ::
      Depicts(subs[k].snapshot, s.initial, s.stream.log, Complete(s, subs[k].snapshot.lastSequence))
  }

  // ---- Event grammar ----

  /**
    Reads the events of request `r` one by one: Some(true) after a Started, Some(false) at the
    start and after a terminal event, None once they stop alternating.
   */
  function Progress(log: seq<EventPayload>, r: RequestId): Option<bool> {
    if log == [] then Some(false)
    else
      var before, e := Progress(log[..|log| - 1], r), log[|log| - 1];
      if before.None? || e.requestId != r then before
      else if e.OperationStarted? == before.value then None
      else Some(e.OperationStarted?)
  }

  ghost predicate GrammarInv(initial: Option<ProjectSnapshot>, log: seq<EventPayload>) {
    forall r :: Progress(log, r) == Some(r in Fold(initial, log).active)
  }

  lemma ProgressAppend(log: seq<EventPayload>, e: EventPayload, r: RequestId)
    ensures Progress(log + [e], r)
         == var before := Progress(log, r);
            if before.None? || e.requestId != r then before
            else if e.OperationStarted? == before.value then None
            else Some(e.OperationStarted?)
  {
    assert (log + [e])[..|log|] == log;
  }

  /** A Started for an idle request, or a terminal event for a running one, keeps the grammar. */
  lemma GrammarAppend(initial: Option<ProjectSnapshot>, log: seq<EventPayload>, e: EventPayload)
    requires GrammarInv(initial, log)
    requires e.IsTerminal() <==> e.requestId in Fold(initial, log).active
    ensures GrammarInv(initial, log + [e])
  {
    FoldAppend(initial, log, e);
    forall r ensures Progress(log + [e], r) == Some(r in Fold(initial, log + [e]).active) {
      ProgressAppend(log, e, r);
    }
  }

  function Count(log: seq<EventPayload>, terminal: bool): nat {
    if log == [] then 0
    else Count(log[..|log| - 1], terminal) + (if log[|log| - 1].IsTerminal() == terminal then 1 else 0)
  }

  /** Started events outnumber terminal ones by the number of running requests. */
  lemma {:induction false} CountsBalance(initial: Option<ProjectSnapshot>, log: seq<EventPayload>)
    requires forall r :: Progress(log, r).Some?
    ensures Count(log, false) - Count(log, true) == |Fold(initial, log).active|
    ensures forall r :: Progress(log, r) == Some(r in Fold(initial, log).active)
  {
    if log != [] {
      var init, e := log[..|log| - 1], log[|log| - 1];
      forall r ensures Progress(init, r).Some? {
        assert Progress(log, r).Some?;
      }
      CountsBalance(initial, init);
      var running := Fold(initial, init).active;
      assert Progress(log, e.requestId).Some?;
      assert Progress(init, e.requestId) == Some(e.requestId in running);
      forall r ensures Progress(log, r) == Some(r in Fold(initial, log).active) {
        assert Progress(init, r) == Some(r in running);
      }
      if e.IsTerminal() {
        assert |running - {e.requestId}| == |running| - 1;
      } else {
        assert |running + {e.requestId}| == |running| + 1;
      }
    }
  }

  // ---- Steps ----

  ghost predicate Inv(s: State) {
    && StreamInv(s.stream, s.streamId)
    && ReplicaInv(s)
    && SnapshotsInv(s)
    && GrammarInv(s.initial, s.stream.log)
  }

  lemma DepictsLonger(
    snapshot: WorkspaceSnapshot, initial: Option<ProjectSnapshot>, log: seq<EventPayload>, complete: bool,
    e: EventPayload)
    requires Depicts(snapshot, initial, log, complete)
    ensures Depicts(snapshot, initial, log + [e], complete)
  {
    assert (log + [e])[..snapshot.lastSequence] == log[..snapshot.lastSequence];
  }

  lemma EmitKeepsSnapshots(s: State, e: EventPayload)
    requires Inv(s) && s.stream.sequence < U64_MAX
    ensures
      var t := Emit(s.stream, s.streamId, e).value;
      var subs := t.Subscriptions();
      forall k | 0 <= k < |subs| ::
        Depicts(subs[k].snapshot, s.initial, t.log, Complete(s, subs[k].snapshot.lastSequence))
  {
    var t := Emit(s.stream, s.streamId, e).value;
    var before, after := s.stream.Subscriptions(), t.Subscriptions();
    EmitSubscriptions(s.stream, s.streamId, e);
    forall k | 0 <= k < |after|
      ensures Depicts(after[k].snapshot, s.initial, t.log, Complete(s, after[k].snapshot.lastSequence))
    {
      var snapshot := before[k].snapshot;
      assert after[k].snapshot == snapshot;
      DepictsLonger(snapshot, s.initial, s.stream.log, Complete(s, snapshot.lastSequence), e);
    }
  }

  /** Any step that emits `e` and changes the session as `e` tells. */
  lemma EmitKeepsInv(s: State, t: State, e: EventPayload)
    requires Inv(s) && s.stream.sequence < U64_MAX
    requires t.stream == Emit(s.stream, s.streamId, e).value
    requires t.streamId == s.streamId && t.initial == s.initial && t.lost == s.lost
    requires ReplicaOf(t) == ReplicaOf(s).Apply(e)
    requires e.IsTerminal() <==> e.requestId in s.active
    ensures Inv(t)
  {
    EmitKeepsStream(s.stream, s.streamId, e);
    EmitKeepsSnapshots(s, e);
    FoldAppend(s.initial, s.stream.log, e);
    GrammarAppend(s.initial, s.stream.log, e);
    assert s.lost == {};
  }

  lemma FinishEmits(s: State, i: nat, fault: Storage.SaveFault)
    requires Inv(s) && Running.ActiveInv(s.active, s.ops) && i < |s.ops| && s.ops[i].phase.Ready?
    requires s.stream.sequence < U64_MAX
    ensures Inv(Finish(s, i, fault).0)
  {
    assert Running.ActiveNames(s.active, s.ops, i);
    var t := Finish(s, i, fault).0;
    var result := Persist(s.storage, s.ops[i].phase.result, fault).1;
    assert t.active.Keys == s.active.Keys - {s.ops[i].requestId};
    EmitKeepsInv(s, t, TerminalEvent(s.ops[i].requestId, result));
  }

  lemma FinishSilently(s: State, i: nat, fault: Storage.SaveFault)
    requires Inv(s) && Running.ActiveInv(s.active, s.ops) && i < |s.ops| && s.ops[i].phase.Ready?
    requires s.stream.sequence >= U64_MAX
    ensures Inv(Finish(s, i, fault).0)
  {
    assert Running.ActiveNames(s.active, s.ops, i);
    assert s.active.Keys - {s.ops[i].requestId} + (s.lost + {s.ops[i].requestId}) == s.active.Keys + s.lost;
  }

  lemma SubscribeKeepsInv(s: State, listing: seq<RequestId>)
    requires Inv(s) && IsListing(listing, s.active.Keys)
    ensures Inv(Subscribe(s, listing))
  {
    var t := Subscribe(s, listing);
    SubscribeKeepsStream(s.stream, s.streamId, SnapshotOfSession(s, listing));
    UnsubscribedKeepsInv(s.stream, s.streamId);
    assert s.stream.log[..|s.stream.log|] == s.stream.log;
    assert t.stream.Subscriptions() == s.stream.Subscriptions() + [t.stream.subscriber.value];
  }

  lemma ReceiverKeepsInv(s: State, k: nat, sub: Subscription)
    requires Inv(s) && k < |s.stream.Subscriptions()|
    requires sub.snapshot == s.stream.Subscriptions()[k].snapshot && sub.sent == s.stream.Subscriptions()[k].sent
    requires s.stream.Subscriptions()[k].taken <= sub.taken <= |sub.sent|
    ensures Inv(s.(stream := UpdateSubscription(s.stream, k, sub)))
  {
    UpdateKeepsStream(s.stream, s.streamId, k, sub);
  }

  lemma BeginKeepsInv(s: State, r: OpenRequest)
    requires Inv(s)
    ensures Inv(Begin(s, r).0)
  {
    Running.BeginCases(s, r);
    if Running.Admits(s, r) {
      assert Begin(s, r).0.active.Keys == s.active.Keys + {r.id};
      EmitKeepsInv(s, Begin(s, r).0, OperationStarted(r.id));
    }
  }

  lemma FinishKeepsInv(s: State, i: nat, fault: Storage.SaveFault)
    requires Inv(s) && Running.ActiveInv(s.active, s.ops) && i < |s.ops| && s.ops[i].phase.Ready?
    ensures Inv(Finish(s, i, fault).0)
  {
    if s.stream.sequence < U64_MAX { FinishEmits(s, i, fault); } else { FinishSilently(s, i, fault); }
  }

  lemma ReceiveKeepsInv(s: State, a: Action)
    requires Inv(s) && (a.Receive? || a.Disconnect?) && Enabled(s, a)
    ensures Inv(Step(s, a))
  {
    var sub := s.stream.Subscriptions()[a.subscription];
    assert Carries(sub, s.streamId, s.stream.log);
    ReceiverKeepsInv(s, a.subscription,
      if a.Receive? then sub.(taken := sub.taken + 1) else sub.(connected := false));
  }

  lemma StepKeepsInv(s: State, a: Action)
    requires Inv(s) && Running.ActiveInv(s.active, s.ops)
    ensures Inv(Step(s, a))
  {
    if Enabled(s, a) {
      match a
      case BeginOpen(r) => BeginKeepsInv(s, r);
      case FinishOpen(i, fault) => FinishKeepsInv(s, i, fault);
      case SubscribeEvents(listing) => SubscribeKeepsInv(s, listing);
      case Receive(_) => ReceiveKeepsInv(s, a);
      case Disconnect(_) => ReceiveKeepsInv(s, a);
      case _ =>
    }
  }
}
