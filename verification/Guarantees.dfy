/** What the daemon session guarantees in every run, under every interleaving of its threads. */
module Guarantees {
  import opened Wrappers
  import opened Domain
  import opened Protocol
  import opened Application
  import opened Idempotency
  import opened Session
  import opened EventLog
  import opened Operations
  import Running
  import Durability
  import Storage
  import TaskStorage

  ghost predicate Inv(s: State) {
    && Running.Inv(s)
    && Idempotency.Inv(s.ledger)
    && EventLog.Inv(s)
    && Operations.Inv(s)
    && Durability.Inv(s)
  }

  // ---- Every reachable state ----

  /** Nothing has happened yet. */
  ghost predicate Idle(s: State) {
    && s.active == map[] && s.inFlight == map[] && s.ops == [] && s.ledger == EMPTY_LEDGER
    && s.stream == Stream(0, None, [], []) && s.lost == {} && !s.unpublished && s.initial == s.project
  }

  lemma IdleRuns(s: State)
    requires Idle(s)
    ensures Running.Inv(s) && Operations.Inv(s)
  {
  }

  lemma IdleLog(s: State)
    requires Idle(s)
    ensures EventLog.Inv(s)
  {
    assert s.stream.Subscriptions() == [];
  }

  lemma EmptyLedgerHolds()
    ensures Idempotency.Inv(EMPTY_LEDGER)
  {
  }

  lemma StartIsIdle(streamId: StreamId, storage: Option<Storage.Database>)
    requires WithStorage(streamId, storage).Success?
    ensures Idle(WithStorage(streamId, storage).value)
  {
  }

  lemma StartIsDurable(streamId: StreamId, storage: Option<Storage.Database>)
    requires WithStorage(streamId, storage).Success?
    ensures Durability.Inv(WithStorage(streamId, storage).value)
  {
    if storage.Some? {
      TaskStorage.RecoversProject(storage.value);
      Durability.LoadedIsKnown(storage.value);
    }
  }

  lemma StartHolds(streamId: StreamId, storage: Option<Storage.Database>)
    requires WithStorage(streamId, storage).Success?
    ensures Inv(WithStorage(streamId, storage).value)
  {
    var s := WithStorage(streamId, storage).value;
    StartIsIdle(streamId, storage);
    IdleRuns(s);
    IdleLog(s);
    EmptyLedgerHolds();
    StartIsDurable(streamId, storage);
  }

  lemma FinishKeepsLedger(s: State, i: nat, fault: Storage.SaveFault)
    requires Running.Inv(s) && Idempotency.Inv(s.ledger) && i < |s.ops| && s.ops[i].phase.Ready?
    ensures Idempotency.Inv(Finish(s, i, fault).0.ledger)
  {
    RememberKeepsInv(s.ledger, Finish(s, i, fault).0.ledger.history[|s.ledger.history|]);
  }

  lemma CancelKeepsLedger(s: State, r: CancelRequest)
    requires Idempotency.Inv(s.ledger) && Running.Lets(s, r)
    ensures Idempotency.Inv(Cancel(s, r).0.ledger)
  {
    RememberKeepsInv(s.ledger, Cancel(s, r).0.ledger.history[|s.ledger.history|]);
  }

  lemma StepKeepsLedger(s: State, a: Action)
    requires Running.Inv(s) && Idempotency.Inv(s.ledger)
    ensures Idempotency.Inv(Step(s, a).ledger)
  {
    if Enabled(s, a) && a.FinishOpen? {
      FinishKeepsLedger(s, a.op, a.fault);
    } else if a.CancelOpen? && Running.Lets(s, a.cancel) {
      CancelKeepsLedger(s, a.cancel);
    } else {
      assert Step(s, a).ledger == s.ledger;
    }
  }

  lemma StepKeepsInv(s: State, a: Action)
    requires Inv(s)
    ensures Inv(Step(s, a))
  {
    Running.StepKeepsInv(s, a);
    StepKeepsLedger(s, a);
    EventLog.StepKeepsInv(s, a);
    Operations.StepKeepsInv(s, a);
    Durability.StepKeepsInv(s, a);
  }

  lemma {:induction false} ExecuteKeepsInv(s: State, actions: seq<Action>)
    requires Inv(s)
    ensures Inv(Execute(s, actions))
  {
    if actions != [] {
      ExecuteKeepsInv(s, actions[..|actions| - 1]);
      StepKeepsInv(Execute(s, actions[..|actions| - 1]), actions[|actions| - 1]);
    }
  }

  /** Some run of a session, started on some database, leads to `s`. */
  ghost predicate Reachable(s: State) {
    exists streamId, storage, actions ::
      WithStorage(streamId, storage).Success?
      && Execute(WithStorage(streamId, storage).value, actions) == s
  }

  lemma ReachableInv(s: State)
    requires Reachable(s)
    ensures Inv(s)
  {
    var streamId, storage, actions :|
      WithStorage(streamId, storage).Success?
      && Execute(WithStorage(streamId, storage).value, actions) == s;
    StartHolds(streamId, storage);
    ExecuteKeepsInv(WithStorage(streamId, storage).value, actions);
  }

  // ---- The log ----

  /**
    The session's project and running requests are the fold of every event emitted so far, and
    its sequence number is their count: exactly as long as no request ended without an event for
    want of sequence numbers. The project agrees even then.
   */
  lemma SessionIsItsLog(s: State)
    requires Reachable(s)
    ensures s.stream.sequence == |s.stream.log|
    ensures s.project == Fold(s.initial, s.stream.log).project
    ensures Replica(s.project, s.active.Keys) == Fold(s.initial, s.stream.log) <==> s.lost == {}
    ensures s.stream.sequence < U64_MAX ==> s.lost == {}
  {
    ReachableInv(s);
    SessionIsFold(s);
  }

  /** The events of any request alternate Started, terminal, and the last is Started iff it runs. */
  lemma EventGrammar(s: State, r: RequestId)
    requires Reachable(s)
    ensures Progress(s.stream.log, r) == Some(r in s.active || r in s.lost)
    ensures Count(s.stream.log, false) - Count(s.stream.log, true) == |s.active.Keys + s.lost|
  {
    ReachableInv(s);
    assert forall q :: Progress(s.stream.log, q).Some?;
    CountsBalance(s.initial, s.stream.log);
  }

  /**
    Every event is the Started or the terminal event of an operation. A finished operation
    has one of each with none of its request's between, and its response, the one remembered for
    its key, says what its terminal event says.
   */
  lemma EventsAreOperations(s: State)
    requires Reachable(s)
    ensures forall t: nat | t < |s.stream.log| :: Owned(s.ops, t)
    ensures forall i | 0 <= i < |s.ops| :: Milestones(s.ops[i], s.stream.log, s.ledger.history)
    ensures |s.stream.log| < U64_MAX ==>
              forall i | 0 <= i < |s.ops| && s.ops[i].phase.Finished? :: s.ops[i].phase.terminalAt.Some?
  {
    ReachableInv(s);
  }

  // ---- Subscriptions ----

  /**
    Each subscription ever made was fed the gap-free run of the log after its snapshot, the
    current one up to the last event; no two runs overlap, and no queue ever held over 64.
   */
  lemma SubscriptionsTileTheLog(s: State)
    requires Reachable(s)
    ensures
      var subs := s.stream.Subscriptions();
      && (forall k | 0 <= k < |subs| :: Carries(subs[k], s.streamId, s.stream.log))
      && (forall j, k | 0 <= j < k < |subs| :: End(subs[j]) <= subs[k].snapshot.lastSequence)
      && (s.stream.subscriber.Some? ==> End(s.stream.subscriber.value) == s.stream.sequence)
      && (forall k | 0 <= k < |subs| ::
            Depicts(subs[k].snapshot, s.initial, s.stream.log, Complete(s, subs[k].snapshot.lastSequence)))
  {
    ReachableInv(s);
  }

  /** An event is emitted that the subscription being fed has no room or no receiver for. */
  predicate Overflows(st: Stream, t: Stream) {
    && |t.log| > |st.log| && st.subscriber.Some?
    && var sub := st.subscriber.value;
       !sub.connected || |sub.sent| - sub.taken >= 64
  }

  /**
    How a step leaves the channels: the one being fed is taken out of use exactly when another
    replaces it or an event overflows it; nothing is ever added to one out of use.
   */
  ghost predicate Fate(st: Stream, t: Stream, replaced: bool) {
    && |st.closed| <= |t.closed|
    && (forall k | 0 <= k < |st.closed| ::
          t.closed[k].sent == st.closed[k].sent && t.closed[k].snapshot == st.closed[k].snapshot)
    && (|t.closed| > |st.closed| <==> st.subscriber.Some? && (replaced || Overflows(st, t)))
    && (|t.closed| > |st.closed| ==> t.closed == st.closed + [st.subscriber.value])
  }

  lemma EmitFate(st: Stream, streamId: StreamId, e: EventPayload)
    requires st.sequence < U64_MAX
    ensures Fate(st, Emit(st, streamId, e).value, false)
  {
  }

  lemma SubscriptionFate(s: State, a: Action)
    ensures Fate(s.stream, Step(s, a).stream, a.SubscribeEvents? && Enabled(s, a))
  {
    if Enabled(s, a) {
      match a
      case BeginOpen(r) =>
        Running.BeginCases(s, r);
        if Running.Admits(s, r) { EmitFate(s.stream, s.streamId, OperationStarted(r.id)); }
      case FinishOpen(i, fault) => FinishFate(s, i, fault);
      case _ =>
    }
  }

  lemma FinishFate(s: State, i: nat, fault: Storage.SaveFault)
    requires i < |s.ops| && s.ops[i].phase.Ready?
    ensures Fate(s.stream, Finish(s, i, fault).0.stream, false)
  {
    if s.stream.sequence < U64_MAX {
      var e := TerminalEvent(s.ops[i].requestId, Persist(s.storage, s.ops[i].phase.result, fault).1);
      EmitFate(s.stream, s.streamId, e);
    }
  }

  /** The `k`-th subscription ever made is being fed, and step `n` replaces or overflows it. */
  ghost predicate EndsAt(s: State, actions: seq<Action>, n: nat, k: nat)
    requires n < |actions|
  {
    var before := Execute(s, actions[..n]);
    && k == |before.stream.closed| && before.stream.subscriber.Some?
    && ((actions[n].SubscribeEvents? && Enabled(before, actions[n]))
        || Overflows(before.stream, Execute(s, actions[..n + 1]).stream))
  }

  lemma EndsInPrefix(s: State, actions: seq<Action>, m: nat, n: nat, k: nat)
    requires n < m <= |actions|
    ensures EndsAt(s, actions[..m], n, k) <==> EndsAt(s, actions, n, k)
    ensures actions[..m][..n] == actions[..n]
  {
    assert actions[..m][..n] == actions[..n] && actions[..m][..n + 1] == actions[..n + 1];
  }

  /** The last step of a run takes the subscription being fed out of use, or none. */
  lemma LastStepEnds(s: State, actions: seq<Action>, k: nat)
    requires actions != []
    ensures
      var m := |actions| - 1;
      var before, closed := Execute(s, actions[..m]).stream, Execute(s, actions).stream.closed;
      && |before.closed| <= |closed|
      && (k < |closed| <==> k < |before.closed| || EndsAt(s, actions, m, k))
      && (k < |before.closed| ==> closed[k].sent == before.closed[k].sent)
      && (EndsAt(s, actions, m, k) ==> closed[k] == before.subscriber.value)
  {
    SubscriptionFate(Execute(s, actions[..|actions| - 1]), actions[|actions| - 1]);
    assert actions[..|actions|] == actions;
  }

  /** A subscription no longer fed stays so, with the messages it has. */
  lemma {:induction false} ClosedStays(s: State, actions: seq<Action>, m: nat, k: nat, sent: seq<DaemonEvent>)
    requires m <= |actions| && k < |Execute(s, actions[..m]).stream.closed|
    requires Execute(s, actions[..m]).stream.closed[k].sent == sent
    ensures k < |Execute(s, actions).stream.closed| && Execute(s, actions).stream.closed[k].sent == sent
    decreases |actions|
  {
    if m == |actions| {
      assert actions[..m] == actions;
    } else {
      var init := actions[..|actions| - 1];
      assert init[..m] == actions[..m];
      ClosedStays(s, init, m, k, sent);
      SubscriptionFate(Execute(s, init), actions[|actions| - 1]);
    }
  }

  /** From the step that ends it on, a subscription holds the messages it had then. */
  lemma EndedSubscriptionsKeep(s: State, actions: seq<Action>, n: nat, k: nat)
    requires n < |actions| && EndsAt(s, actions, n, k)
    ensures k < |Execute(s, actions).stream.closed|
    ensures Execute(s, actions).stream.closed[k].sent == Execute(s, actions[..n]).stream.subscriber.value.sent
  {
    EndsInPrefix(s, actions, n + 1, n, k);
    LastStepEnds(s, actions[..n + 1], k);
    ClosedStays(s, actions, n + 1, k, Execute(s, actions[..n]).stream.subscriber.value.sent);
  }

  lemma {:induction false} FindEnd(s: State, actions: seq<Action>, k: nat) returns (n: nat)
    requires |s.stream.closed| <= k < |Execute(s, actions).stream.closed|
    ensures n < |actions| && EndsAt(s, actions, n, k)
  {
    var m := |actions| - 1;
    LastStepEnds(s, actions, k);
    if k < |Execute(s, actions[..m]).stream.closed| {
      n := FindEnd(s, actions[..m], k);
      EndsInPrefix(s, actions, m, n, k);
    } else {
      n := m;
    }
  }

  /**
    Over any run, a subscription is no longer fed at its end exactly if one step replaced it or
    overflowed it with an event it could not take: 64 undelivered messages, or no receiver.
   */
  lemma SubscriptionEnds(s: State, actions: seq<Action>, k: nat)
    requires |s.stream.closed| <= k
    ensures k < |Execute(s, actions).stream.closed| <==> exists n | 0 <= n < |actions| :: EndsAt(s, actions, n, k)
  {
    if k < |Execute(s, actions).stream.closed| {
      var n := FindEnd(s, actions, k);
    } else {
      forall n | 0 <= n < |actions| ensures !EndsAt(s, actions, n, k) {
        if EndsAt(s, actions, n, k) {
          EndedSubscriptionsKeep(s, actions, n, k);
        }
      }
    }
  }

  // ---- At most once ----

  /**
    Two operations begun under one idempotency key: the first was over and remembered before the
    second began, and between the two the ledger took in 256 mutations under keys pairwise
    distinct and different from this one.
   */
  lemma AtMostOnce(s: State, i: nat, j: nat)
    requires Reachable(s) && i < j < |s.ops| && s.ops[i].key == s.ops[j].key
    ensures s.ops[i].phase.Finished?
    ensures
      var h, from, to := s.ledger.history, s.ops[i].phase.rememberedAt, s.ops[j].begunAt;
      && from + 256 < to <= |h|
      && h[from].key == s.ops[i].key
      && (forall m, n | to - 256 <= m < n < to :: h[m].key != h[n].key)
      && (forall n | from < n <= from + 256 :: h[n].key != s.ops[i].key)
  {
    ReachableInv(s);
    assert Milestones(s.ops[i], s.stream.log, s.ledger.history);
    assert Milestones(s.ops[j], s.stream.log, s.ledger.history);
  }

  // ---- What answers say, field by field ----

  /** The same result, or the same code and message, for another request. */
  function AnsweredTo(stored: ServerResponse, id: RequestId): ServerResponse {
    match stored
    case Ok(_, result) => Ok(id, result)
    case Err(_, code, message) => Err(id, code, message)
  }

  function KeyReused(id: RequestId): ServerResponse {
    Err(id, InvalidRequest, "Idempotency key was already used for a different mutation")
  }

  function Unavailable(id: RequestId): ServerResponse {
    Err(id, InternalError, "Daemon session state is unavailable")
  }

  /** Whatever is answered, to whatever is asked in whatever state, it is answered to the asker. */
  lemma AnswersNameTheirRequest(s: State, open: OpenRequest, cancel: CancelRequest, i: nat, fault: Storage.SaveFault)
    ensures Begin(s, open).1.Some? ==> Begin(s, open).1.value.requestId == open.id
    ensures Cancel(s, cancel).1.requestId == cancel.id
    ensures i < |s.ops| && s.ops[i].phase.Ready? ==> Finish(s, i, fault).1.requestId == s.ops[i].requestId
    ensures open.key.None? ==> Begin(s, open) == (s, Some(Unavailable(open.id)))
    ensures cancel.key.None? ==> Cancel(s, cancel) == (s, Unavailable(cancel.id))
  {
    BeginAnswers(s, open);
    CancelAnswers(s, cancel);
    if i < |s.ops| && s.ops[i].phase.Ready? {
      FinishAnswers(s, i, fault);
    }
  }

  lemma BeginAnswers(s: State, r: OpenRequest)
    ensures Begin(s, r).1.Some? ==> Begin(s, r).1.value.requestId == r.id
    ensures r.key.None? ==> Begin(s, r) == (s, Some(Unavailable(r.id)))
  {
  }

  lemma CancelAnswers(s: State, r: CancelRequest)
    ensures Cancel(s, r).1.requestId == r.id
    ensures r.key.None? ==> Cancel(s, r) == (s, Unavailable(r.id))
  {
  }

  lemma FinishAnswers(s: State, i: nat, fault: Storage.SaveFault)
    requires i < |s.ops| && s.ops[i].phase.Ready?
    ensures Finish(s, i, fault).1.requestId == s.ops[i].requestId
  {
  }

  /** What a begin answers, told from the unbounded history and the list of operations alone. */
  ghost function ExpectedAnswer(s: State, r: OpenRequest): Option<ServerResponse>
    requires r.key.Some?
  {
    var past := Recall(s.ledger.history, r.key.value, IDEMPOTENCY_LIMIT);
    if past.Some? then Some(ReplayOf(past.value, OpenFingerprint(r.path), r.id))
    else if exists i :: Running.Holder(s.ops, r.key.value, i) then
      var i :| Running.Holder(s.ops, r.key.value, i);
      if s.ops[i].path == r.path
      then Some(Err(r.id, RequestInProgress, "A request with this idempotency key is still running"))
      else Some(KeyReused(r.id))
    else if RunsAs(s, r.id)
    then Some(Err(r.id, RequestInProgress, "A request with this request ID is still running"))
    else if |s.stream.log| >= U64_MAX then Some(Unavailable(r.id))
    else None
  }

  /** The maps answer as the search would, and a request that gets an answer changes nothing. */
  lemma BeginRefinesSearch(s: State, r: OpenRequest)
    requires Reachable(s) && r.key.Some?
    ensures Begin(s, r).1 == ExpectedAnswer(s, r)
    ensures Begin(s, r).1.Some? ==> Begin(s, r).0 == s
  {
    ReachableInv(s);
    GateIsSearch(s, r);
    Running.BeginCases(s, r);
  }

  lemma GateIsSearch(s: State, r: OpenRequest)
    requires r.key.Some? && Running.Inv(s) && WindowInv(s.ledger) && s.stream.sequence == |s.stream.log|
    ensures Begin(s, r).1 == ExpectedAnswer(s, r)
  {
    MapIsRecall(s.ledger, r.key.value);
    HoldersAreInFlight(s, r.key.value);
    RunningAreActive(s, r.id);
  }

  lemma HoldersAreInFlight(s: State, key: Key)
    requires Running.Inv(s)
    ensures key in s.inFlight <==> exists i :: Running.Holder(s.ops, key, i)
    ensures forall i | Running.Holder(s.ops, key, i) ::
              key in s.inFlight && s.inFlight[key] == OpenFingerprint(s.ops[i].path)
  {
  }

  lemma RunningAreActive(s: State, r: RequestId)
    requires Running.Inv(s)
    ensures r in s.active <==> RunsAs(s, r)
  {
    forall i | 0 <= i < |s.ops| && s.ops[i].Running() && s.ops[i].requestId == r ensures r in s.active {
      assert Running.ActiveNames(s.active, s.ops, i);
    }
    if r in s.active {
      assert Running.Runs(s.ops, s.active[r]);
    }
  }

  /** Until 256 other mutations are remembered, a retry of a finished open replays its response. */
  lemma RetryReplays(s: State, i: nat, r: OpenRequest)
    requires Reachable(s) && i < |s.ops| && s.ops[i].phase.Finished?
    requires |s.ledger.history| <= s.ops[i].phase.rememberedAt + 256
    requires r.key == Some(s.ops[i].key)
    ensures
      Begin(s, r) == (s, Some(if r.path == s.ops[i].path
                              then AnsweredTo(s.ops[i].phase.response, r.id) else KeyReused(r.id)))
  {
    assert WindowInv(s.ledger) && Milestones(s.ops[i], s.stream.log, s.ledger.history) by {
      ReachableInv(s);
    }
    FinishedIsRemembered(s, i);
    RememberedIsReplayed(s, r, s.ops[i].path, s.ops[i].phase.response);
  }

  lemma RememberedIsReplayed(s: State, r: OpenRequest, path: string, response: ServerResponse)
    requires r.key.Some? && r.key.value in s.ledger.completed
    requires s.ledger.completed[r.key.value] == CompletedMutation(OpenFingerprint(path), response)
    ensures Begin(s, r) == (s, Some(if r.path == path then AnsweredTo(response, r.id) else KeyReused(r.id)))
  {
  }

  /** What the ledger's entry `m` answers to a mutation under its key. */
  function ReplayOf(m: Remembered, fingerprint: Fingerprint, id: RequestId): ServerResponse {
    if m.fingerprint == fingerprint then AnsweredTo(m.response, id) else KeyReused(id)
  }

  lemma EntryIsRemembered(s: State, m: nat)
    requires Reachable(s) && m < |s.ledger.history| <= m + IDEMPOTENCY_LIMIT
    ensures
      var entry := s.ledger.history[m];
      && entry.key in s.ledger.completed
      && s.ledger.completed[entry.key] == CompletedMutation(entry.fingerprint, entry.response)
  {
    assert WindowInv(s.ledger) by {
      ReachableInv(s);
    }
    RecentIsRecalled(s.ledger.history, m);
    MapIsRecall(s.ledger, s.ledger.history[m].key);
  }

  /**
    The same of every remembered mutation, open or cancel: until 256 others are remembered, an open
    or a cancel under its key gets its stored response or a conflict, and changes nothing.
   */
  lemma MutationsReplay(s: State, m: nat, id: RequestId, path: string, target: RequestId)
    requires Reachable(s) && m < |s.ledger.history| <= m + 256
    ensures
      var entry := s.ledger.history[m];
      && Begin(s, OpenRequest(id, Some(entry.key), path)) == (s, Some(ReplayOf(entry, OpenFingerprint(path), id)))
      && Cancel(s, CancelRequest(id, Some(entry.key), target)) == (s, ReplayOf(entry, CancelFingerprint(target), id))
  {
    EntryIsRemembered(s, m);
  }

  lemma FinishedIsRemembered(s: State, i: nat)
    requires WindowInv(s.ledger) && i < |s.ops| && s.ops[i].phase.Finished?
    requires Milestones(s.ops[i], s.stream.log, s.ledger.history)
    requires |s.ledger.history| <= s.ops[i].phase.rememberedAt + IDEMPOTENCY_LIMIT
    ensures s.ops[i].key in s.ledger.completed
    ensures s.ledger.completed[s.ops[i].key]
         == CompletedMutation(s.ops[i].Fingerprint(), s.ops[i].phase.response)
  {
    RecentIsRecalled(s.ledger.history, s.ops[i].phase.rememberedAt);
    MapIsRecall(s.ledger, s.ops[i].key);
  }

  // ---- Running operations ----

  ghost predicate RunsAs(s: State, r: RequestId) {
    exists i | 0 <= i < |s.ops| :: s.ops[i].Running() && s.ops[i].requestId == r
  }

  /** Running operations, active request IDs and keys in flight are in one-to-one correspondence. */
  lemma RunningCorrespondence(s: State)
    requires Reachable(s)
    ensures forall i, j | 0 <= i < j < |s.ops| && s.ops[i].Running() && s.ops[j].Running() ::
              s.ops[i].requestId != s.ops[j].requestId && s.ops[i].key != s.ops[j].key
    ensures forall r :: r in s.active <==> RunsAs(s, r)
    ensures forall k :: k in s.inFlight <==> exists i :: Running.Holder(s.ops, k, i)
    ensures forall k | k in s.inFlight :: k !in s.ledger.completed
  {
    ReachableInv(s);
    NamesCorrespond(s);
  }

  lemma NamesCorrespond(s: State)
    requires Running.Inv(s)
    ensures forall i, j | 0 <= i < j < |s.ops| && s.ops[i].Running() && s.ops[j].Running() ::
              s.ops[i].requestId != s.ops[j].requestId
    ensures forall r :: r in s.active <==> RunsAs(s, r)
  {
    forall i, j | 0 <= i < j < |s.ops| && s.ops[i].Running() && s.ops[j].Running()
      ensures s.ops[i].requestId != s.ops[j].requestId
    {
      assert Running.ActiveNames(s.active, s.ops, i) && Running.ActiveNames(s.active, s.ops, j);
    }
    forall r ensures r in s.active <==> RunsAs(s, r) {
      RunningAreActive(s, r);
    }
  }

  // ---- Cancellation ----

  /** A cancelled event belongs to an operation an accepted cancel named while it was running. */
  lemma CancelledEventsWereRequested(s: State, t: nat)
    requires Reachable(s) && t < |s.stream.log| && s.stream.log[t].OperationCancelled?
    ensures exists i, n: nat ::
              Owns(s.ops, i, t) && s.ops[i].requestId == s.stream.log[t].requestId
              && AcceptedCancel(s.ledger.history, n, s.ops[i].requestId) && During(s.ops[i], n)
  {
    ReachableInv(s);
    assert Owned(s.ops, t);
    var i :| Owns(s.ops, i, t);
    var op := s.ops[i];
    assert Milestones(op, s.stream.log, s.ledger.history) && Cancellable(op, s.ledger.history);
    assert AcceptedCancel(s.ledger.history, op.cancelledBy.value, op.requestId);
  }

  /** An accepted cancel raised the flag of an operation that was running under the ID it named. */
  lemma AcceptedCancelsHit(s: State, n: nat, r: RequestId)
    requires Reachable(s) && AcceptedCancel(s.ledger.history, n, r)
    ensures HitSome(s.ops, n, r)
  {
    ReachableInv(s);
  }

  /** No way is left for the operation to succeed. */
  predicate Doomed(op: Operation) {
    match op.phase
    case Ready(result) => result.Failure?
    case Finished(response, _, _) => response.Err?
    case _ => op.cancelledBy.Some?
  }

  lemma DoomedStep(s: State, a: Action, i: nat)
    requires i < |s.ops| && Doomed(s.ops[i])
    ensures i < |Step(s, a).ops| && Doomed(Step(s, a).ops[i])
    ensures Step(s, a).ops[i].requestId == s.ops[i].requestId
    ensures a.FinishOpen? && a.op == i ==>
              Step(s, a).storage == s.storage && Step(s, a).project == s.project
  {
    if Enabled(s, a) && a.FinishOpen? && a.op == i {
      TerminalTells(s.ops[i].requestId, s.ops[i].phase.result);
    }
  }

  /**
    A cancel accepted before the check that follows the inspection: whatever happens afterwards,
    the operation never saves or publishes a project, and any terminal event of its is no success.
   */
  lemma {:induction false} CancelledInTime(s: State, i: nat, actions: seq<Action>)
    requires Reachable(s) && i < |s.ops| && s.ops[i].cancelledBy.Some?
    requires s.ops[i].phase.Begun? || s.ops[i].phase.Inspecting? || s.ops[i].phase.Inspected?
    ensures
      var t := Execute(s, actions);
      && i < |t.ops| && Doomed(t.ops[i]) && t.ops[i].requestId == s.ops[i].requestId
      && (forall fault ::
            Step(t, FinishOpen(i, fault)).storage == t.storage
            && Step(t, FinishOpen(i, fault)).project == t.project)
      && (t.ops[i].phase.Finished? && t.ops[i].phase.terminalAt.Some? ==>
            t.ops[i].phase.terminalAt.value < |t.stream.log|
            && !t.stream.log[t.ops[i].phase.terminalAt.value].ProjectOpened?)
  {
    ReachableInv(s);
    ExecuteKeepsInv(s, actions);
    StaysDoomed(s, i, actions);
    var t := Execute(s, actions);
    assert Milestones(t.ops[i], t.stream.log, t.ledger.history);
    forall fault
      ensures Step(t, FinishOpen(i, fault)).storage == t.storage
              && Step(t, FinishOpen(i, fault)).project == t.project
    {
      DoomedStep(t, FinishOpen(i, fault), i);
    }
  }

  lemma {:induction false} StaysDoomed(s: State, i: nat, actions: seq<Action>)
    requires i < |s.ops| && Doomed(s.ops[i])
    ensures i < |Execute(s, actions).ops| && Doomed(Execute(s, actions).ops[i])
    ensures Execute(s, actions).ops[i].requestId == s.ops[i].requestId
  {
    if actions != [] {
      StaysDoomed(s, i, actions[..|actions| - 1]);
      DoomedStep(Execute(s, actions[..|actions| - 1]), actions[|actions| - 1], i);
    }
  }

  /** No running open and none of the last 256 remembered mutations has the key. */
  ghost predicate FreshKey(s: State, key: Key) {
    && Recall(s.ledger.history, key, IDEMPOTENCY_LIMIT).None?
    && !exists i :: Running.Holder(s.ops, key, i)
  }

  ghost function ExpectedOutcome(s: State, target: RequestId): CancellationOutcome {
    if RunsAs(s, target) then Accepted
    else if target in Recent(Admitted(s.ledger.history)) then AlreadyFinished
    else NotFound
  }

  /** What a cancel answers, told from the unbounded history and the list of operations alone. */
  ghost function ExpectedCancel(s: State, r: CancelRequest): ServerResponse
    requires r.key.Some?
  {
    var past := Recall(s.ledger.history, r.key.value, IDEMPOTENCY_LIMIT);
    if past.Some? then ReplayOf(past.value, CancelFingerprint(r.target), r.id)
    else if exists i :: Running.Holder(s.ops, r.key.value, i) then KeyReused(r.id)
    else Ok(r.id, Cancellation(r.target, ExpectedOutcome(s, r.target)))
  }

  /** The flags after a cancel: those that were up, and that of the operation it reaches. */
  ghost predicate FlagsOnly(before: seq<Operation>, after: seq<Operation>, target: RequestId) {
    && |after| == |before|
    && forall i | 0 <= i < |before| ::
         && after[i].(cancelledBy := None) == before[i].(cancelledBy := None)
         && (after[i].cancelledBy.Some?
             <==> before[i].cancelledBy.Some? || (before[i].Running() && before[i].requestId == target))
  }

  /**
    The maps answer a cancel as the search would. One whose key is not fresh changes nothing; a
    fresh one is remembered, and raises the flag of the operation running under its target's ID.
   */
  lemma CancelRefinesSearch(s: State, r: CancelRequest)
    requires Reachable(s) && r.key.Some?
    ensures Cancel(s, r).1 == ExpectedCancel(s, r)
    ensures !FreshKey(s, r.key.value) ==> Cancel(s, r).0 == s
    ensures FreshKey(s, r.key.value) ==>
              && Cancel(s, r).0.ledger.history
                 == s.ledger.history
                    + [Remembered(r.key.value, CancelFingerprint(r.target), r.id, Cancel(s, r).1)]
              && FlagsOnly(s.ops, Cancel(s, r).0.ops, r.target)
  {
    assert Running.Inv(s) && WindowInv(s.ledger) && RequestsInv(s.ledger) by {
      ReachableInv(s);
    }
    CancelIsSearch(s, r);
    if Running.Lets(s, r) {
      CancelFlags(s, r);
    }
  }

  lemma LetsIffFresh(s: State, r: CancelRequest)
    requires r.key.Some? && Running.Inv(s) && WindowInv(s.ledger)
    ensures Running.Lets(s, r) <==> FreshKey(s, r.key.value)
  {
    MapIsRecall(s.ledger, r.key.value);
    HoldersAreInFlight(s, r.key.value);
  }

  lemma CancelIsSearch(s: State, r: CancelRequest)
    requires r.key.Some? && Running.Inv(s) && WindowInv(s.ledger) && RequestsInv(s.ledger)
    ensures Running.Lets(s, r) <==> FreshKey(s, r.key.value)
    ensures Cancel(s, r).1 == ExpectedCancel(s, r)
    ensures !Running.Lets(s, r) ==> Cancel(s, r).0 == s
  {
    LetsIffFresh(s, r);
    if Running.Lets(s, r) {
      OutcomeBySearch(s, r);
    } else {
      MapIsRecall(s.ledger, r.key.value);
      HoldersAreInFlight(s, r.key.value);
    }
  }

  lemma CancelFlags(s: State, r: CancelRequest)
    requires Running.Inv(s) && Running.Lets(s, r)
    ensures FlagsOnly(s.ops, Cancel(s, r).0.ops, r.target)
    ensures Cancel(s, r).0.ledger.history
            == s.ledger.history + [Remembered(r.key.value, CancelFingerprint(r.target), r.id, Cancel(s, r).1)]
  {
    forall i | 0 <= i < |s.ops| && s.ops[i].Running() && s.ops[i].requestId == r.target
      ensures r.target in s.active && s.active[r.target] == i
    {
      assert Running.ActiveNames(s.active, s.ops, i);
    }
  }

  /**
    A fresh cancel answers by the running operations and the last 256 finished requests listed,
    which are those of the last 256 remembered mutations if request IDs are spaced.
   */
  lemma FreshCancelOutcome(s: State, r: CancelRequest)
    requires Reachable(s) && r.key.Some? && FreshKey(s, r.key.value)
    ensures Cancel(s, r).1 == Ok(r.id, Cancellation(r.target, ExpectedOutcome(s, r.target)))
    ensures SpacedRequests(s.ledger.history) ==>
              Recent(Admitted(s.ledger.history)) == RequestIds(Recent(s.ledger.history))
  {
    CancelRefinesSearch(s, r);
    AdmittedIffSpaced(s.ledger.history);
  }

  lemma OutcomeBySearch(s: State, r: CancelRequest)
    requires Running.Inv(s) && RequestsInv(s.ledger) && Running.Lets(s, r)
    ensures Cancel(s, r).1 == Ok(r.id, Cancellation(r.target, ExpectedOutcome(s, r.target)))
  {
    RunningAreActive(s, r.target);
  }

  // ---- The use case under the interleaving ----

  /** What the use case returns when its two readings of the flag saw no more than was raised. */
  ghost predicate Returns(
    op: Operation, result: Result<Project, ApplicationError>,
    before: bool, answer: InspectionResult, after: bool, nextId: string)
  {
    && result == ExecuteOpen(before, answer, after, nextId)
    && (before || after ==> op.cancelledBy.Some?)
  }

  ghost predicate Executed(op: Operation) {
    op.phase.Ready? ==>
      exists before, answer, after, nextId :: Returns(op, op.phase.result, before, answer, after, nextId)
  }

  lemma UnlockedExecutes(s: State, a: Action)
    requires Enabled(s, a) && (a.CheckBefore? || a.InspectPath? || a.CheckAfter?)
    ensures Executed(Step(s, a).ops[a.op])
  {
    var op := Step(s, a).ops[a.op];
    if op.phase.Ready? {
      match a
      case CheckBefore(_) => assert Returns(op, op.phase.result, true, Failure(""), false, "");
      case InspectPath(_, answer) => assert Returns(op, op.phase.result, false, answer, false, "");
      case CheckAfter(i, nextId) =>
        assert Returns(op, op.phase.result, false, Success(s.ops[i].phase.found), op.cancelledBy.Some?, nextId);
    }
  }

  lemma StepKeepsExecuted(s: State, a: Action, i: nat)
    requires i < |s.ops| ==> Executed(s.ops[i])
    requires i < |Step(s, a).ops|
    ensures Executed(Step(s, a).ops[i])
  {
    if i < |s.ops| && Enabled(s, a) && (a.CheckBefore? || a.InspectPath? || a.CheckAfter?) && a.op == i {
      UnlockedExecutes(s, a);
    } else if i < |s.ops| && s.ops[i].phase.Ready? && Step(s, a).ops[i].phase.Ready? {
      var before, answer, after, nextId :|
        Returns(s.ops[i], s.ops[i].phase.result, before, answer, after, nextId);
      assert Step(s, a).ops[i].phase == s.ops[i].phase;
      assert Returns(Step(s, a).ops[i], s.ops[i].phase.result, before, answer, after, nextId);
    }
  }

  lemma {:induction false} RunsExecute(s: State, actions: seq<Action>, i: nat)
    requires s.ops == [] && i < |Execute(s, actions).ops|
    ensures Executed(Execute(s, actions).ops[i])
  {
    if actions != [] {
      var before := Execute(s, actions[..|actions| - 1]);
      if i < |before.ops| {
        RunsExecute(s, actions[..|actions| - 1], i);
      }
      StepKeepsExecuted(before, actions[|actions| - 1], i);
    }
  }

  /**
    Cut into its three unlocked steps and interleaved with everything else, an open still ends
    with a result of the use case, whose readings of the flag saw it raised only if it was.
   */
  lemma ResultsAreExecutions(s: State, i: nat)
    requires Reachable(s) && i < |s.ops| && s.ops[i].phase.Ready?
    ensures Executed(s.ops[i])
    ensures s.ops[i].cancelledBy.None? ==>
              exists answer, nextId :: s.ops[i].phase.result == ExecuteOpen(false, answer, false, nextId)
  {
    var streamId, storage, actions :|
      WithStorage(streamId, storage).Success?
      && Execute(WithStorage(streamId, storage).value, actions) == s;
    RunsExecute(WithStorage(streamId, storage).value, actions, i);
  }

  // ---- Durable state ----

  /**
    Whatever statement of whatever save failed, the database answers the published project, and a
    session rebuilt from it publishes what its predecessor last published: exactly as long as no
    saved project went unpublished for want of sequence numbers. (A row of the tasks table that
    cannot be read would make the rebuilding fail; saves of tasks leave none.)
   */
  lemma RestartRecovers(s: State, streamId: StreamId)
    requires Reachable(s) && s.storage.Some?
    ensures Durability.Recovers(s.storage.value, s.project) <==> !s.unpublished
    ensures
      var again := WithStorage(streamId, s.storage);
      && (again.Success? ==> (again.value.project == s.project <==> !s.unpublished))
      && (TaskStorage.Readable(s.storage.value.tasks) && !s.unpublished ==> again.Success?)
    ensures s.unpublished ==> s.stream.sequence >= U64_MAX
  {
    ReachableInv(s);
    Durability.RecoveryIff(s);
    TaskStorage.RecoversProject(s.storage.value);
  }

  /** The session itself never touches a task row. */
  lemma {:induction false} TasksUntouched(s: State, actions: seq<Action>)
    requires s.storage.Some?
    ensures Execute(s, actions).storage.Some?
    ensures Execute(s, actions).storage.value.tasks == s.storage.value.tasks
    ensures Execute(s, actions).activeTask == s.activeTask
  {
    if actions != [] {
      TasksUntouched(s, actions[..|actions| - 1]);
      StepLeavesTasks(Execute(s, actions[..|actions| - 1]), actions[|actions| - 1]);
    }
  }

  lemma StepLeavesTasks(s: State, a: Action)
    requires s.storage.Some?
    ensures Step(s, a).storage.Some? && Step(s, a).storage.value.tasks == s.storage.value.tasks
    ensures Step(s, a).activeTask == s.activeTask
  {
  }
}
