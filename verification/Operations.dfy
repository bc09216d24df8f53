/** The life of each operation: its two events, its ledger entry, its key and its flag. */
module Operations {
  import opened Wrappers
  import opened Domain
  import opened Protocol
  import opened Application
  import opened Idempotency
  import opened Session
  import Running
  import EventLog
  import Storage

  /** A terminal event and the remembered response say the same. */
  predicate Tells(e: EventPayload, response: ServerResponse) {
    match e
    case OperationStarted(_) => false
    case ProjectOpened(id, p) => response == Ok(id, ResponsePayload.ProjectOpened(p))
    case OperationCancelled(id) =>
      response == Err(id, ErrorCode.OperationCancelled, "Project opening was cancelled")
    case OperationFailed(id, code, message) => response == Err(id, code, message)
  }

  ghost predicate Silent(log: seq<EventPayload>, r: RequestId, from: nat, to: nat) {
    forall t | from <= t < to && t < |log| :: log[t].requestId != r
  }

  function EndOf(op: Operation, log: seq<EventPayload>): nat {
    if op.phase.Finished? && op.phase.terminalAt.Some? then op.phase.terminalAt.value else |log|
  }

  /** Its Started event, silence in between, its terminal event if it has one, its ledger entry. */
  ghost predicate Milestones(op: Operation, log: seq<EventPayload>, history: seq<Remembered>) {
    && op.startedAt < |log| && log[op.startedAt] == OperationStarted(op.requestId)
    && op.begunAt <= |history|
    && Silent(log, op.requestId, op.startedAt + 1, EndOf(op, log))
    && (op.phase.Finished? ==>
          && op.begunAt <= op.phase.rememberedAt < |history|
          && history[op.phase.rememberedAt]
             == Remembered(op.key, op.Fingerprint(), op.requestId, op.phase.response)
          && match op.phase.terminalAt
             case None => op.phase.response == Internal(op.requestId) && |log| >= U64_MAX
             case Some(t) =>
               && op.startedAt < t < |log| && log[t].requestId == op.requestId
               && Tells(log[t], op.phase.response))
  }

  ghost predicate MilestonesInv(s: State) {
    forall i | 0 <= i < |s.ops| :: Milestones(s.ops[i], s.stream.log, s.ledger.history)
  }

  /** The event at `t` is one of the two of operation `i`. */
  ghost predicate Owns(ops: seq<Operation>, i: int, t: nat) {
    && 0 <= i < |ops|
    && (ops[i].startedAt == t || (ops[i].phase.Finished? && ops[i].phase.terminalAt == Some(t)))
  }

  ghost predicate Owned(ops: seq<Operation>, t: nat) {
    exists i :: Owns(ops, i, t)
  }

  ghost predicate OwnedInv(s: State) {
    forall t: nat | t < |s.stream.log| :: Owned(s.ops, t)
  }

  /** Two operations under one key: the first is over, and over 256 other mutations ago. */
  ghost predicate SpacingInv(ops: seq<Operation>) {
    forall i, j | 0 <= i < j < |ops| && ops[i].key == ops[j].key ::
      ops[i].phase.Finished? && ops[i].phase.rememberedAt + IDEMPOTENCY_LIMIT < ops[j].begunAt
  }

  /** Entry `n` of the history is an accepted cancel of request `r`. */
  predicate AcceptedCancel(history: seq<Remembered>, n: nat, r: RequestId) {
    && n < |history|
    && history[n].fingerprint == CancelFingerprint(r)
    && history[n].response == Ok(history[n].requestId, Cancellation(r, Accepted))
  }

  /** The operation was running when entry `n` of the history was made. */
  predicate During(op: Operation, n: nat) {
    op.begunAt <= n && (op.phase.Finished? ==> n < op.phase.rememberedAt)
  }

  predicate AnswersCancelled(phase: Phase) {
    phase.Finished? && phase.response.Err? && phase.response.code == ErrorCode.OperationCancelled
  }

  ghost predicate Cancellable(op: Operation, history: seq<Remembered>) {
    && (op.cancelledBy.Some? ==>
          AcceptedCancel(history, op.cancelledBy.value, op.requestId) && During(op, op.cancelledBy.value))
    && (op.phase == Ready(Failure(Cancelled)) ==> op.cancelledBy.Some?)
    && (AnswersCancelled(op.phase) ==> op.cancelledBy.Some?)
  }

  ghost predicate CancelInv(s: State) {
    forall i | 0 <= i < |s.ops| :: Cancellable(s.ops[i], s.ledger.history)
  }

  /** An accepted cancel reached the operation it named, and that one was running. */
  ghost predicate Hit(op: Operation, n: nat, r: RequestId) {
    op.requestId == r && During(op, n) && op.cancelledBy.Some? && op.cancelledBy.value <= n
  }

  ghost predicate HitSome(ops: seq<Operation>, n: nat, r: RequestId) {
    exists i :: 0 <= i < |ops| && Hit(ops[i], n, r)
  }

  ghost predicate HitsInv(s: State) {
    forall n: nat, r | AcceptedCancel(s.ledger.history, n, r) :: HitSome(s.ops, n, r)
  }

  ghost predicate Inv(s: State) {
    MilestonesInv(s) && OwnedInv(s) && SpacingInv(s.ops) && CancelInv(s) && HitsInv(s)
  }

  // ---- Longer logs and histories ----

  lemma LongerHistory(op: Operation, log: seq<EventPayload>, history: seq<Remembered>, m: Remembered)
    requires Milestones(op, log, history)
    ensures Milestones(op, log, history + [m])
    ensures Cancellable(op, history) ==> Cancellable(op, history + [m])
  {
  }

  lemma LongerLog(op: Operation, log: seq<EventPayload>, history: seq<Remembered>, e: EventPayload)
    requires Milestones(op, log, history) && |log| < U64_MAX
    requires op.Running() ==> e.requestId != op.requestId
    ensures Milestones(op, log + [e], history)
  {
    var longer := log + [e];
    forall t | op.startedAt + 1 <= t < EndOf(op, longer) && t < |longer|
      ensures longer[t].requestId != op.requestId
    {
      if t < |log| {
        assert longer[t] == log[t];
      }
    }
  }

  lemma OwnedLonger(ops: seq<Operation>, longer: seq<Operation>, t: nat)
    requires Owned(ops, t) && |ops| <= |longer|
    requires forall i | 0 <= i < |ops| ::
               && longer[i].startedAt == ops[i].startedAt
               && (ops[i].phase.Finished? ==> longer[i].phase == ops[i].phase)
    ensures Owned(longer, t)
  {
    var i :| Owns(ops, i, t);
    assert Owns(longer, i, t);
  }

  // ---- Begin ----

  lemma BeginKeepsMilestones(s: State, r: OpenRequest)
    requires MilestonesInv(s) && OwnedInv(s) && CancelInv(s) && Running.Admits(s, r)
    requires Running.ActiveInv(s.active, s.ops) && EventLog.StreamInv(s.stream, s.streamId)
    ensures MilestonesInv(Begin(s, r).0) && OwnedInv(Begin(s, r).0) && CancelInv(Begin(s, r).0)
  {
    var t := Begin(s, r).0;
    var e := OperationStarted(r.id);
    EventLog.EmitKeepsStream(s.stream, s.streamId, e);
    forall i | 0 <= i < |s.ops| ensures Milestones(t.ops[i], t.stream.log, t.ledger.history) {
      assert Running.ActiveNames(s.active, s.ops, i);
      LongerLog(s.ops[i], s.stream.log, s.ledger.history, e);
    }
    forall n: nat | n < |t.stream.log| ensures Owned(t.ops, n) {
      if n < |s.stream.log| {
        OwnedLonger(s.ops, t.ops, n);
      } else {
        assert Owns(t.ops, |s.ops|, n);
      }
    }
    assert forall i | 0 <= i < |s.ops| :: t.ops[i] == s.ops[i];
  }

  /** A key that is neither remembered nor in flight was last remembered over 256 entries ago. */
  lemma ForgottenKey(s: State, key: Key, i: nat)
    requires MilestonesInv(s) && Running.InFlightInv(s.inFlight, s.ops) && WindowInv(s.ledger)
    requires key !in s.ledger.completed && key !in s.inFlight
    requires i < |s.ops| && s.ops[i].key == key
    ensures s.ops[i].phase.Finished?
    ensures s.ops[i].phase.rememberedAt + IDEMPOTENCY_LIMIT < |s.ledger.history|
  {
    assert s.ops[i].phase.Finished?;
    assert Milestones(s.ops[i], s.stream.log, s.ledger.history);
    MapIsRecall(s.ledger, key);
    RecallFinds(s.ledger.history, key, IDEMPOTENCY_LIMIT);
  }

  lemma BeginKeepsSpacing(s: State, r: OpenRequest)
    requires MilestonesInv(s) && SpacingInv(s.ops) && Running.Admits(s, r)
    requires Running.InFlightInv(s.inFlight, s.ops) && WindowInv(s.ledger)
    ensures SpacingInv(Begin(s, r).0.ops)
  {
    forall i: nat | i < |s.ops| && s.ops[i].key == r.key.value
      ensures s.ops[i].phase.Finished?
      ensures s.ops[i].phase.rememberedAt + IDEMPOTENCY_LIMIT < |s.ledger.history|
    {
      ForgottenKey(s, r.key.value, i);
    }
  }

  // ---- Finish ----

  lemma TerminalTells(id: RequestId, result: Result<Project, ApplicationError>)
    ensures Tells(TerminalEvent(id, result), TerminalResponse(id, result))
    ensures TerminalEvent(id, result).requestId == id
    ensures TerminalResponse(id, result).Err? && TerminalResponse(id, result).code == ErrorCode.OperationCancelled
            <==> result == Failure(Cancelled)
    ensures TerminalResponse(id, result).Ok? <==> result.Success?
  {
  }

  function EntryOf(op: Operation, response: ServerResponse): Remembered {
    Remembered(op.key, op.Fingerprint(), op.requestId, response)
  }

  /** A ready operation ends with its terminal event, told by its response. */
  lemma EndsTold(
    op: Operation, log: seq<EventPayload>, history: seq<Remembered>, e: EventPayload, response: ServerResponse)
    requires Milestones(op, log, history) && op.phase.Ready?
    requires e.requestId == op.requestId && Tells(e, response)
    ensures Milestones(
              op.(phase := Finished(response, Some(|log|), |history|)), log + [e], history + [EntryOf(op, response)])
  {
  }

  /** Or, the sequence being exhausted, without one. */
  lemma EndsUntold(op: Operation, log: seq<EventPayload>, history: seq<Remembered>)
    requires Milestones(op, log, history) && op.phase.Ready? && |log| >= U64_MAX
    ensures
      var response := Internal(op.requestId);
      Milestones(op.(phase := Finished(response, None, |history|)), log, history + [EntryOf(op, response)])
  {
  }

  /** What finishing makes of the operation, the log and the history. */
  lemma FinishTold(s: State, i: nat, fault: Storage.SaveFault)
    requires i < |s.ops| && s.ops[i].phase.Ready? && s.stream.sequence < U64_MAX
    ensures
      var op, t := s.ops[i], Finish(s, i, fault).0;
      var result := Persist(s.storage, op.phase.result, fault).1;
      var response := TerminalResponse(op.requestId, result);
      && t.ops[i] == op.(phase := Finished(response, Some(|s.stream.log|), |s.ledger.history|))
      && t.stream.log == s.stream.log + [TerminalEvent(op.requestId, result)]
      && t.ledger.history == s.ledger.history + [EntryOf(op, response)]
  {
  }

  lemma FinishUntold(s: State, i: nat, fault: Storage.SaveFault)
    requires i < |s.ops| && s.ops[i].phase.Ready? && s.stream.sequence >= U64_MAX
    ensures
      var op, t := s.ops[i], Finish(s, i, fault).0;
      var response := Internal(op.requestId);
      && t.ops[i] == op.(phase := Finished(response, None, |s.ledger.history|))
      && t.stream.log == s.stream.log
      && t.ledger.history == s.ledger.history + [EntryOf(op, response)]
  {
  }

  lemma FinishedMilestones(s: State, i: nat, fault: Storage.SaveFault)
    requires s.stream.sequence == |s.stream.log| && i < |s.ops| && s.ops[i].phase.Ready?
    requires Milestones(s.ops[i], s.stream.log, s.ledger.history)
    ensures
      var t := Finish(s, i, fault).0;
      Milestones(t.ops[i], t.stream.log, t.ledger.history)
  {
    var op := s.ops[i];
    if s.stream.sequence < U64_MAX {
      var result := Persist(s.storage, op.phase.result, fault).1;
      var e, response := TerminalEvent(op.requestId, result), TerminalResponse(op.requestId, result);
      assert e.requestId == op.requestId && Tells(e, response) by {
        TerminalTells(op.requestId, result);
      }
      EndsTold(op, s.stream.log, s.ledger.history, e, response);
      FinishTold(s, i, fault);
    } else {
      EndsUntold(op, s.stream.log, s.ledger.history);
      FinishUntold(s, i, fault);
    }
  }

  lemma FinishedCancellable(s: State, i: nat, fault: Storage.SaveFault)
    requires MilestonesInv(s) && CancelInv(s) && i < |s.ops| && s.ops[i].phase.Ready?
    ensures
      var t := Finish(s, i, fault).0;
      Cancellable(t.ops[i], t.ledger.history)
  {
    var op := s.ops[i];
    TerminalTells(op.requestId, Persist(s.storage, op.phase.result, fault).1);
    assert Cancellable(op, s.ledger.history);
  }

  lemma OtherOperations(s: State, i: nat, fault: Storage.SaveFault, j: nat)
    requires MilestonesInv(s) && CancelInv(s) && EventLog.StreamInv(s.stream, s.streamId)
    requires Running.ActiveInv(s.active, s.ops) && i < |s.ops| && s.ops[i].phase.Ready?
    requires j < |s.ops| && j != i
    ensures
      var t := Finish(s, i, fault).0;
      && t.ops[j] == s.ops[j]
      && Milestones(t.ops[j], t.stream.log, t.ledger.history) && Cancellable(t.ops[j], t.ledger.history)
  {
    var t := Finish(s, i, fault).0;
    var op := s.ops[i];
    assert Milestones(s.ops[j], s.stream.log, s.ledger.history) && Cancellable(s.ops[j], s.ledger.history);
    assert Running.ActiveNames(s.active, s.ops, i) && Running.ActiveNames(s.active, s.ops, j);
    LongerHistory(s.ops[j], s.stream.log, s.ledger.history, t.ledger.history[|s.ledger.history|]);
    if s.stream.sequence < U64_MAX {
      var e := TerminalEvent(op.requestId, Persist(s.storage, op.phase.result, fault).1);
      EventLog.EmitKeepsStream(s.stream, s.streamId, e);
      LongerLog(s.ops[j], s.stream.log, t.ledger.history, e);
    }
  }

  lemma FinishKeepsMilestones(s: State, i: nat, fault: Storage.SaveFault)
    requires MilestonesInv(s) && CancelInv(s) && EventLog.StreamInv(s.stream, s.streamId)
    requires Running.ActiveInv(s.active, s.ops) && i < |s.ops| && s.ops[i].phase.Ready?
    ensures MilestonesInv(Finish(s, i, fault).0) && CancelInv(Finish(s, i, fault).0)
  {
    var t := Finish(s, i, fault).0;
    FinishedMilestones(s, i, fault);
    FinishedCancellable(s, i, fault);
    forall j: nat | j < |s.ops| && j != i
      ensures Milestones(t.ops[j], t.stream.log, t.ledger.history) && Cancellable(t.ops[j], t.ledger.history)
    {
      OtherOperations(s, i, fault, j);
    }
  }

  lemma FinishKeepsOwned(s: State, i: nat, fault: Storage.SaveFault)
    requires OwnedInv(s) && SpacingInv(s.ops) && EventLog.StreamInv(s.stream, s.streamId)
    requires i < |s.ops| && s.ops[i].phase.Ready?
    ensures OwnedInv(Finish(s, i, fault).0) && SpacingInv(Finish(s, i, fault).0.ops)
  {
    var t := Finish(s, i, fault).0;
    if s.stream.sequence < U64_MAX {
      var e := TerminalEvent(s.ops[i].requestId, Persist(s.storage, s.ops[i].phase.result, fault).1);
      EventLog.EmitKeepsStream(s.stream, s.streamId, e);
    }
    forall n: nat | n < |t.stream.log| ensures Owned(t.ops, n) {
      if n < |s.stream.log| {
        OwnedLonger(s.ops, t.ops, n);
      } else {
        assert Owns(t.ops, i, n);
      }
    }
  }

  // ---- Cancel, and the unlocked steps ----

  lemma CancelledOperation(s: State, r: CancelRequest, i: nat)
    requires MilestonesInv(s) && CancelInv(s) && Running.ActiveInv(s.active, s.ops)
    requires Running.Lets(s, r) && i < |s.ops|
    ensures
      var t := Cancel(s, r).0;
      && Milestones(t.ops[i], t.stream.log, t.ledger.history)
      && Cancellable(t.ops[i], t.ledger.history)
  {
    var t := Cancel(s, r).0;
    var m := t.ledger.history[|s.ledger.history|];
    assert Milestones(s.ops[i], s.stream.log, s.ledger.history);
    assert Cancellable(s.ops[i], s.ledger.history);
    LongerHistory(s.ops[i], s.stream.log, s.ledger.history, m);
  }

  lemma CancelKeepsMilestones(s: State, r: CancelRequest)
    requires MilestonesInv(s) && CancelInv(s) && Running.ActiveInv(s.active, s.ops) && Running.Lets(s, r)
    ensures MilestonesInv(Cancel(s, r).0) && CancelInv(Cancel(s, r).0)
  {
    var t := Cancel(s, r).0;
    forall i: nat | i < |s.ops|
      ensures Milestones(t.ops[i], t.stream.log, t.ledger.history) && Cancellable(t.ops[i], t.ledger.history)
    {
      CancelledOperation(s, r, i);
    }
  }

  lemma CancelKeepsOwned(s: State, r: CancelRequest)
    requires OwnedInv(s) && SpacingInv(s.ops) && Running.Lets(s, r)
    ensures OwnedInv(Cancel(s, r).0) && SpacingInv(Cancel(s, r).0.ops)
  {
    var t := Cancel(s, r).0;
    forall n: nat | n < |t.stream.log| ensures Owned(t.ops, n) {
      OwnedLonger(s.ops, t.ops, n);
    }
  }

  /** Operations that keep their place, their name and their flag, running ones ending only now. */
  lemma HitsPersist(s: State, t: State, n: nat, r: RequestId)
    requires HitSome(s.ops, n, r) && n < |s.ledger.history| && |s.ops| <= |t.ops|
    requires forall i | 0 <= i < |s.ops| ::
               && t.ops[i].requestId == s.ops[i].requestId
               && t.ops[i].begunAt == s.ops[i].begunAt
               && (s.ops[i].cancelledBy.Some? ==> t.ops[i].cancelledBy == s.ops[i].cancelledBy)
               && (t.ops[i].phase.Finished? ==>
                     t.ops[i].phase == s.ops[i].phase || t.ops[i].phase.rememberedAt >= |s.ledger.history|)
    ensures HitSome(t.ops, n, r)
  {
    var i :| 0 <= i < |s.ops| && Hit(s.ops[i], n, r);
    assert Hit(t.ops[i], n, r);
  }

  lemma CancelHits(s: State, r: CancelRequest)
    requires MilestonesInv(s) && CancelInv(s) && Running.Lets(s, r)
    requires r.target in s.active && Running.Runs(s.ops, s.active[r.target])
    requires s.ops[s.active[r.target]].requestId == r.target
    ensures HitSome(Cancel(s, r).0.ops, |s.ledger.history|, r.target)
  {
    var i := s.active[r.target];
    assert Milestones(s.ops[i], s.stream.log, s.ledger.history);
    assert Cancellable(s.ops[i], s.ledger.history);
    assert Hit(Cancel(s, r).0.ops[i], |s.ledger.history|, r.target);
  }

  lemma OldHitsStay(s: State, r: CancelRequest, n: nat, id: RequestId)
    requires HitsInv(s) && Running.Lets(s, r)
    requires n < |s.ledger.history| && AcceptedCancel(Cancel(s, r).0.ledger.history, n, id)
    ensures HitSome(Cancel(s, r).0.ops, n, id)
  {
    assert AcceptedCancel(s.ledger.history, n, id);
    HitsPersist(s, Cancel(s, r).0, n, id);
  }

  lemma CancelKeepsHits(s: State, r: CancelRequest)
    requires HitsInv(s) && MilestonesInv(s) && CancelInv(s)
    requires Running.ActiveInv(s.active, s.ops) && Running.Lets(s, r)
    ensures HitsInv(Cancel(s, r).0)
  {
    var t := Cancel(s, r).0;
    forall n: nat, id | AcceptedCancel(t.ledger.history, n, id) ensures HitSome(t.ops, n, id) {
      if n < |s.ledger.history| {
        OldHitsStay(s, r, n, id);
      } else {
        CancelHits(s, r);
      }
    }
  }

  lemma FinishKeepsHits(s: State, i: nat, fault: Storage.SaveFault)
    requires HitsInv(s) && i < |s.ops| && s.ops[i].phase.Ready?
    ensures HitsInv(Finish(s, i, fault).0)
  {
    var t := Finish(s, i, fault).0;
    forall n: nat, id | AcceptedCancel(t.ledger.history, n, id) ensures HitSome(t.ops, n, id) {
      assert AcceptedCancel(s.ledger.history, n, id);
      HitsPersist(s, t, n, id);
    }
  }

  /** Steps that leave the ledger alone, and end no operation. */
  lemma QuietKeepsHits(s: State, t: State)
    requires HitsInv(s) && t.ledger == s.ledger && |s.ops| <= |t.ops|
    requires forall i | 0 <= i < |s.ops| ::
               && t.ops[i].requestId == s.ops[i].requestId
               && t.ops[i].begunAt == s.ops[i].begunAt
               && t.ops[i].cancelledBy == s.ops[i].cancelledBy
               && (t.ops[i].phase.Finished? ==> t.ops[i].phase == s.ops[i].phase)
    ensures HitsInv(t)
  {
    forall n: nat, id | AcceptedCancel(t.ledger.history, n, id) ensures HitSome(t.ops, n, id) {
      HitsPersist(s, t, n, id);
    }
  }

  lemma PhaseKeepsMilestones(s: State, i: nat, phase: Phase)
    requires MilestonesInv(s) && CancelInv(s) && Running.Runs(s.ops, i) && !phase.Finished?
    requires phase == Ready(Failure(Cancelled)) ==> s.ops[i].cancelledBy.Some?
    ensures MilestonesInv(WithPhase(s, i, phase)) && CancelInv(WithPhase(s, i, phase))
  {
    assert Milestones(s.ops[i], s.stream.log, s.ledger.history);
    assert Cancellable(s.ops[i], s.ledger.history);
  }

  lemma PhaseKeepsOwned(s: State, i: nat, phase: Phase)
    requires OwnedInv(s) && SpacingInv(s.ops) && Running.Runs(s.ops, i) && !phase.Finished?
    ensures OwnedInv(WithPhase(s, i, phase)) && SpacingInv(WithPhase(s, i, phase).ops)
  {
    var t := WithPhase(s, i, phase);
    forall n: nat | n < |t.stream.log| ensures Owned(t.ops, n) {
      OwnedLonger(s.ops, t.ops, n);
    }
  }

  lemma PhaseKeepsInv(s: State, i: nat, phase: Phase)
    requires Inv(s) && Running.Runs(s.ops, i) && !phase.Finished?
    requires phase == Ready(Failure(Cancelled)) ==> s.ops[i].cancelledBy.Some?
    ensures Inv(WithPhase(s, i, phase))
  {
    var t := WithPhase(s, i, phase);
    assert MilestonesInv(t) && CancelInv(t) by {
      PhaseKeepsMilestones(s, i, phase);
    }
    assert OwnedInv(t) && SpacingInv(t.ops) by {
      PhaseKeepsOwned(s, i, phase);
    }
    assert HitsInv(t) by {
      QuietKeepsHits(s, t);
    }
  }

  lemma StreamKeepsInv(s: State, t: State)
    requires Inv(s) && t.ops == s.ops && t.ledger == s.ledger && t.stream.log == s.stream.log
    ensures Inv(t)
  {
    QuietKeepsHits(s, t);
  }

  lemma BeginKeepsInv(s: State, r: OpenRequest)
    requires Inv(s) && Running.Inv(s) && EventLog.StreamInv(s.stream, s.streamId) && WindowInv(s.ledger)
    ensures Inv(Begin(s, r).0)
  {
    Running.BeginCases(s, r);
    if Running.Admits(s, r) {
      BeginKeepsMilestones(s, r);
      BeginKeepsSpacing(s, r);
      QuietKeepsHits(s, Begin(s, r).0);
    }
  }

  lemma FinishKeepsInv(s: State, i: nat, fault: Storage.SaveFault)
    requires Inv(s) && Running.Inv(s) && EventLog.StreamInv(s.stream, s.streamId)
    requires i < |s.ops| && s.ops[i].phase.Ready?
    ensures Inv(Finish(s, i, fault).0)
  {
    FinishKeepsMilestones(s, i, fault);
    FinishKeepsOwned(s, i, fault);
    FinishKeepsHits(s, i, fault);
  }

  lemma CancelKeepsInv(s: State, r: CancelRequest)
    requires Inv(s) && Running.Inv(s)
    ensures Inv(Cancel(s, r).0)
  {
    if Running.Lets(s, r) {
      CancelKeepsMilestones(s, r);
      CancelKeepsOwned(s, r);
      CancelKeepsHits(s, r);
    }
  }

  lemma UnlockedKeepsInv(s: State, a: Action)
    requires Inv(s) && Enabled(s, a) && (a.CheckBefore? || a.InspectPath? || a.CheckAfter?)
    ensures Inv(Step(s, a))
  {
    var t := Step(s, a);
    assert t == WithPhase(s, a.op, t.ops[a.op].phase);
    PhaseKeepsInv(s, a.op, t.ops[a.op].phase);
  }

  lemma StepKeepsInv(s: State, a: Action)
    requires Inv(s) && Running.Inv(s) && EventLog.StreamInv(s.stream, s.streamId) && WindowInv(s.ledger)
    ensures Inv(Step(s, a))
  {
    if Enabled(s, a) {
      match a
      case BeginOpen(r) => BeginKeepsInv(s, r);
      case FinishOpen(i, fault) => FinishKeepsInv(s, i, fault);
      case CancelOpen(r) => CancelKeepsInv(s, r);
      case _ =>
        if a.CheckBefore? || a.InspectPath? || a.CheckAfter? {
          UnlockedKeepsInv(s, a);
        } else {
          StreamKeepsInv(s, Step(s, a));
        }
    }
  }
}
