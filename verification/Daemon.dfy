/**
  `DaemonSession` as an object: maps, sets, queues, shared flags and channels updated in place,
  one method per critical section. Each method does to the object what the step of the same name
  does to the model, and answers what it answers.
 */
module Daemon {
  import opened Wrappers
  import opened Domain
  import opened Protocol
  import opened Application
  import opened Idempotency
  import opened SqliteRepository
  import Session
  import Storage
  import TaskStorage

  class CancellationFlag {
    var cancelled: bool

    constructor ()
      ensures !cancelled
    {
      cancelled := false;
    }

    method Cancel()
      modifies this
      ensures cancelled
    {
      cancelled := true;
    }
  }

  /** A `sync_channel` of 64 messages. */
  class Channel {
    var queue: seq<DaemonEvent>
    var connected: bool

    constructor ()
      ensures queue == [] && connected
    {
      queue, connected := [], true;
    }

    method TrySend(e: DaemonEvent) returns (delivered: bool)
      modifies this`queue
      ensures delivered <==> connected && |old(queue)| < Session.SUBSCRIBER_CAPACITY
      ensures queue == if delivered then old(queue) + [e] else old(queue)
    {
      delivered := connected && |queue| < Session.SUBSCRIBER_CAPACITY;
      if delivered {
        queue := queue + [e];
      }
    }
  }

  /** The collections `remember_completed` works on. */
  class CompletedLedger {
    var completed: map<Key, CompletedMutation>
    var completedOrder: seq<Key>
    var completedRequests: set<RequestId>
    var completedRequestOrder: seq<RequestId>
    ghost var history: seq<Remembered>

    ghost function Value(): Ledger
      reads this
    {
      Ledger(completed, completedOrder, completedRequests, completedRequestOrder, history)
    }

    constructor ()
      ensures Value() == EMPTY_LEDGER
    {
      completed, completedOrder := map[], [];
      completedRequests, completedRequestOrder := {}, [];
      history := [];
    }

    /** `remember_completed` */
    method Remember(m: Remembered)
      modifies this
      ensures Value() == Idempotency.Remember(old(Value()), m)
    {
      if m.key !in completed {
        completedOrder := completedOrder + [m.key];
      }
      completed := completed[m.key := CompletedMutation(m.fingerprint, m.response)];
      if m.requestId !in completedRequests {
        completedRequests := completedRequests + {m.requestId};
        completedRequestOrder := completedRequestOrder + [m.requestId];
      }
      assert completedRequests == old(completedRequests) + {m.requestId};
      EvictKeys();
      EvictRequests();
      history := history + [m];
    }

    method EvictKeys()
      modifies this`completed, this`completedOrder
      ensures
        var e := Excess(|old(completedOrder)|);
        && completedOrder == old(completedOrder)[e..]
        && completed == old(completed) - Elements(old(completedOrder)[..e])
    {
      ghost var order, e := completedOrder, 0;
      while |completedOrder| > IDEMPOTENCY_LIMIT
        invariant e <= Excess(|order|) && completedOrder == order[e..]
        invariant completed == old(completed) - Elements(order[..e])
      {
        var expired := completedOrder[0];
        completedOrder := completedOrder[1..];
        completed := completed - {expired};
        assert order[..e + 1] == order[..e] + [expired];
        e := e + 1;
      }
    }

    method EvictRequests()
      modifies this`completedRequests, this`completedRequestOrder
      ensures
        var e := Excess(|old(completedRequestOrder)|);
        && completedRequestOrder == old(completedRequestOrder)[e..]
        && completedRequests == old(completedRequests) - Elements(old(completedRequestOrder)[..e])
    {
      ghost var order, e := completedRequestOrder, 0;
      while |completedRequestOrder| > IDEMPOTENCY_LIMIT
        invariant e <= Excess(|order|) && completedRequestOrder == order[e..]
        invariant completedRequests == old(completedRequests) - Elements(order[..e])
      {
        var expired := completedRequestOrder[0];
        completedRequestOrder := completedRequestOrder[1..];
        completedRequests := completedRequests - {expired};
        assert order[..e + 1] == order[..e] + [expired];
        e := e + 1;
      }
    }
  }

  /** `active` holds the very flags of the operations it names; operations do not share flags. */
  ghost predicate FlagsMatch(
    flags: seq<CancellationFlag>, active: map<RequestId, CancellationFlag>,
    ops: seq<Session.Operation>, running: map<RequestId, nat>)
    reads flags
  {
    && |flags| == |ops|
    && (forall i, j | 0 <= i < j < |flags| :: flags[i] != flags[j])
    && (forall i | 0 <= i < |flags| :: flags[i].cancelled <==> ops[i].cancelledBy.Some?)
    && active.Keys == running.Keys
    && (forall r | r in active :: running[r] < |flags| && active[r] == flags[running[r]])
  }

  lemma FlagAdded(
    flags: seq<CancellationFlag>, active: map<RequestId, CancellationFlag>,
    ops: seq<Session.Operation>, running: map<RequestId, nat>,
    id: RequestId, flag: CancellationFlag, op: Session.Operation)
    requires FlagsMatch(flags, active, ops, running)
    requires flag !in flags && !flag.cancelled && op.cancelledBy.None?
    ensures FlagsMatch(flags + [flag], active[id := flag], ops + [op], running[id := |ops|])
  {
  }

  lemma FlagReleased(
    flags: seq<CancellationFlag>, active: map<RequestId, CancellationFlag>,
    ops: seq<Session.Operation>, running: map<RequestId, nat>,
    id: RequestId, i: nat, op: Session.Operation)
    requires FlagsMatch(flags, active, ops, running)
    requires i < |ops| && op.cancelledBy == ops[i].cancelledBy
    ensures FlagsMatch(flags, active - {id}, ops[i := op], running - {id})
  {
  }

  class DaemonSession {
    const streamId: StreamId
    const repository: SqliteStateRepository?
    const ledger: CompletedLedger
    const activeTask: Option<TaskValue>
    var project: Option<ProjectSnapshot>
    var active: map<RequestId, CancellationFlag>
    var inFlight: map<Key, Fingerprint>
    var sequence: nat
    var subscriber: Channel?

    // The model's state, and the flag of each of its operations.
    ghost var model: Session.State
    ghost var flags: seq<CancellationFlag>

    ghost predicate FieldsMatch(m: Session.State)
      reads this`project, this`inFlight, ledger, repository
    {
      && m.streamId == streamId && m.activeTask == activeTask
      && m.project == project && m.inFlight == inFlight
      && m.ledger == ledger.Value()
      && m.storage == (if repository == null then None else Some(repository.database))
    }

    /** The channel holds what its subscription was sent and has not taken. */
    ghost predicate StreamMatches(st: Session.Stream)
      reads this`sequence, this`subscriber, subscriber
    {
      && sequence == st.sequence
      && (subscriber != null <==> st.subscriber.Some?)
      && (subscriber != null ==>
            var sub := st.subscriber.value;
            && sub.taken <= |sub.sent|
            && subscriber.queue == sub.sent[sub.taken..]
            && subscriber.connected == sub.connected)
    }

    ghost predicate Valid()
      reads this, ledger, repository, flags, subscriber
    {
      FieldsMatch(model) && FlagsMatch(flags, active, model.ops, model.active) && StreamMatches(model.stream)
    }

    /** `with_storage`, once recovery has answered. */
    constructor (
      streamId: StreamId, repository: SqliteStateRepository?, ghost storage: Option<Storage.Database>,
      project: Option<ProjectSnapshot>, activeTask: Option<TaskValue>)
      requires storage == (if repository == null then None else Some(repository.database))
      requires Session.WithStorage(streamId, storage)
               == Success(Session.NewSession(streamId, project, activeTask, storage))
      ensures Valid() && Session.WithStorage(streamId, storage) == Success(model)
      ensures this.repository == repository
    {
      this.streamId, this.repository := streamId, repository;
      this.project, this.activeTask := project, activeTask;
      ledger := new CompletedLedger();
      active, inFlight := map[], map[];
      sequence, subscriber := 0, null;
      model := Session.NewSession(streamId, project, activeTask, storage);
      flags := [];
    }

    /** `with_storage`: a session on what recovery answers, or the error it fails with. */
    static method WithStorage(streamId: StreamId, repository: SqliteStateRepository?)
      returns (session: Option<DaemonSession>, error: Option<ApplicationError>)
      ensures
        var storage := if repository == null then None else Some(repository.database);
        var expected := Session.WithStorage(streamId, storage);
        && (session.Some? ==>
              && fresh(session.value) && session.value.repository == repository
              && session.value.Valid() && expected == Success(session.value.model))
        && (session.None? ==> error.Some? && expected == Failure(error.value))
    {
      if repository == null {
        var created := new DaemonSession(streamId, null, None, None, None);
        return Some(created), None;
      }
      ghost var storage := Some(repository.database);
      var recovered := TaskStorage.Recover(repository.database);
      if recovered.Failure? {
        return None, Some(recovered.error);
      }
      var project := if recovered.value.0.None? then None else Some(SnapshotOf(recovered.value.0.value));
      var created := new DaemonSession(streamId, repository, storage, project, recovered.value.1);
      return Some(created), None;
    }

    /** `emit_locked`: false when the sequence is exhausted. */
    method EmitLocked(payload: EventPayload, ghost st: Session.Stream) returns (emitted: bool)
      requires StreamMatches(st)
      modifies this`sequence, this`subscriber, subscriber
      ensures emitted <==> Session.Emit(st, streamId, payload).Some?
      ensures StreamMatches(if emitted then Session.Emit(st, streamId, payload).value else st)
    {
      if sequence >= U64_MAX {
        return false;
      }
      sequence := sequence + 1;
      if subscriber != null {
        var delivered := subscriber.TrySend(DaemonEvent(streamId, sequence, payload));
        if !delivered {
          subscriber := null;
        }
      }
      return true;
    }

    /** The checks `open_project` and `cancel` both begin with. */
    method Replay(key: Key, fingerprint: Fingerprint, id: RequestId) returns (answer: Option<ServerResponse>)
      requires FieldsMatch(model)
      ensures answer == Session.Gate(model, key, fingerprint, id)
    {
      if key in ledger.completed {
        if ledger.completed[key].fingerprint != fingerprint {
          return Some(Session.Conflict(id));
        }
        return Some(ledger.completed[key].response.WithRequestId(id));
      }
      if key in inFlight {
        if inFlight[key] != fingerprint {
          return Some(Session.Conflict(id));
        }
        return Some(Session.KeyInProgress(id));
      }
      return None;
    }

    /** First critical section of `open_project`; no answer means the operation runs under `flag`. */
    method BeginOpen(r: Session.OpenRequest) returns (answer: Option<ServerResponse>, flag: CancellationFlag?)
      requires Valid()
      modifies this, subscriber
      ensures Valid() && (model, answer) == Session.Begin(old(model), r)
      ensures flag != null <==> answer.None?
      ensures flags == if flag == null then old(flags) else old(flags) + [flag]
    {
      if r.key.None? {
        return Some(Session.Internal(r.id)), null;
      }
      var key, fingerprint := r.key.value, OpenFingerprint(r.path);
      answer := Replay(key, fingerprint, r.id);
      if answer.Some? {
        return answer, null;
      }
      if r.id in active {
        return Some(Session.RequestStillRunning(r.id)), null;
      }
      answer, flag := Admit(r);
    }

    /** An open no check refused: it runs, unless the sequence is exhausted. */
    method Admit(r: Session.OpenRequest) returns (answer: Option<ServerResponse>, flag: CancellationFlag?)
      requires Valid()
      requires r.key.Some? && r.id !in active
      requires Session.Gate(model, r.key.value, OpenFingerprint(r.path), r.id).None?
      modifies this, subscriber
      ensures Valid() && (model, answer) == Session.Begin(old(model), r)
      ensures flag != null <==> answer.None?
      ensures flags == if flag == null then old(flags) else old(flags) + [flag]
    {
      answer := None;
      flag := Register(r.id, r.key.value, OpenFingerprint(r.path));
      if flag == null {
        answer := Some(Session.Internal(r.id));
      } else {
        Enter(r, flag, model, active - {r.id});
      }
    }

    /** The model, and the flags, once the operation is in both maps and announced. */
    ghost method Enter(
      r: Session.OpenRequest, flag: CancellationFlag,
      before: Session.State, running: map<RequestId, CancellationFlag>)
      requires model == before && r.key.Some? && r.id !in before.active
      requires Session.Gate(before, r.key.value, OpenFingerprint(r.path), r.id).None?
      requires inFlight == before.inFlight[r.key.value := OpenFingerprint(r.path)]
      requires FieldsMatch(before.(inFlight := inFlight))
      requires FlagsMatch(flags, running, before.ops, before.active) && active == running[r.id := flag]
      requires flag !in flags && !flag.cancelled
      requires
        var next := Session.Emit(before.stream, streamId, OperationStarted(r.id));
        next.Some? && StreamMatches(next.value)
      modifies this`model, this`flags
      ensures Valid() && (model, None) == Session.Begin(before, r)
      ensures flags == old(flags) + [flag]
    {
      model := Session.Begin(before, r).0;
      flags := flags + [flag];
      assert FlagsMatch(flags, active, model.ops, model.active) by {
        FlagAdded(old(flags), running, before.ops, before.active, r.id, flag, model.ops[|before.ops|]);
      }
    }

    /** Enters an operation and announces it; takes it out again when the sequence is exhausted. */
    method Register(id: RequestId, key: Key, fingerprint: Fingerprint) returns (flag: CancellationFlag?)
      requires StreamMatches(model.stream)
      requires id !in active && key !in inFlight
      modifies this`active, this`inFlight, this`sequence, this`subscriber, subscriber
      ensures
        var next := Session.Emit(model.stream, streamId, OperationStarted(id));
        && (flag != null <==> next.Some?)
        && StreamMatches(if flag == null then model.stream else next.value)
      ensures active == if flag == null then old(active) else old(active)[id := flag]
      ensures inFlight == if flag == null then old(inFlight) else old(inFlight)[key := fingerprint]
      ensures flag != null ==> fresh(flag) && !flag.cancelled
    {
      flag := new CancellationFlag();
      inFlight := inFlight[key := fingerprint];
      active := active[id := flag];
      var emitted := EmitLocked(OperationStarted(id), model.stream);
      if !emitted {
        active := active - {id};
        inFlight := inFlight - {key};
        flag := null;
      }
    }

    /** First reading of the flag, before the repository is asked; the lock is not held. */
    method CheckBefore(ghost i: nat, flag: CancellationFlag) returns (stop: bool)
      requires Valid() && i < |flags| && flag == flags[i] && model.ops[i].phase.Begun?
      modifies this`model
      ensures Valid() && model == Session.FirstCheck(old(model), i)
      ensures model.ops[i].phase == if stop then Session.Ready(Failure(Cancelled)) else Session.Inspecting
    {
      stop := flag.cancelled;
      model := Session.FirstCheck(model, i);
    }

    /** What the repository answered. */
    method Inspected(ghost i: nat, answer: InspectionResult) returns (found: Result<Inspection, ApplicationError>)
      requires Valid() && i < |flags| && model.ops[i].phase.Inspecting?
      modifies this`model
      ensures Valid() && model == Session.Inspect(old(model), i, answer)
      ensures model.ops[i].phase
              == if found.Success? then Session.Inspected(found.value) else Session.Ready(Failure(found.error))
    {
      found := match answer
        case Success(inspection) => Success(inspection)
        case Failure(message) => Failure(Repository(message));
      model := Session.Inspect(model, i, answer);
    }

    /** Second reading of the flag, then a new project under the next identifier. */
    method CheckAfter(ghost i: nat, flag: CancellationFlag, found: Inspection, nextId: string)
      returns (result: Result<Project, ApplicationError>)
      requires Valid() && i < |flags| && flag == flags[i] && model.ops[i].phase == Session.Inspected(found)
      modifies this`model
      ensures Valid() && model == Session.SecondCheck(old(model), i, nextId)
      ensures model.ops[i].phase == Session.Ready(result)
    {
      if flag.cancelled {
        result := Failure(Cancelled);
      } else {
        result := BuildProject(found, nextId);
      }
      model := Session.SecondCheck(model, i, nextId);
    }

    /** `complete_success`, `complete_cancellation` and `complete_failure` */
    method Complete(id: RequestId, result: Result<Project, ApplicationError>, ghost st: Session.Stream)
      returns (response: ServerResponse)
      requires StreamMatches(st)
      modifies this`project, this`sequence, this`subscriber, subscriber
      ensures
        var next := Session.Emit(st, streamId, Session.TerminalEvent(id, result));
        && StreamMatches(if next.Some? then next.value else st)
        && response == (if next.Some? then Session.TerminalResponse(id, result) else Session.Internal(id))
        && project == (if next.Some? && result.Success? then Some(SnapshotOf(result.value)) else old(project))
    {
      var emitted;
      match result {
        case Success(p) =>
          emitted := EmitLocked(EventPayload.ProjectOpened(id, SnapshotOf(p)), st);
          if emitted {
            project := Some(SnapshotOf(p));
            return Ok(id, ResponsePayload.ProjectOpened(SnapshotOf(p)));
          }
        case Failure(Cancelled) =>
          emitted := EmitLocked(EventPayload.OperationCancelled(id), st);
          if emitted {
            return Err(id, ErrorCode.OperationCancelled, "Project opening was cancelled");
          }
        case Failure(e) =>
          var (code, message) := Classify(e);
          emitted := EmitLocked(OperationFailed(id, code, message), st);
          if emitted {
            return Err(id, code, message);
          }
      }
      return Session.Internal(id);
    }

    /** The completion, and its entry in the ledger. */
    method Publish(r: Session.OpenRequest, outcome: Result<Project, ApplicationError>, ghost st: Session.Stream)
      returns (response: ServerResponse)
      requires r.key.Some? && StreamMatches(st)
      modifies this`project, this`sequence, this`subscriber, ledger, subscriber
      ensures
        var next := Session.Emit(st, streamId, Session.TerminalEvent(r.id, outcome));
        && StreamMatches(if next.Some? then next.value else st)
        && response == (if next.Some? then Session.TerminalResponse(r.id, outcome) else Session.Internal(r.id))
        && project == (if next.Some? && outcome.Success? then Some(SnapshotOf(outcome.value)) else old(project))
      ensures ledger.Value()
              == Idempotency.Remember(
                   old(ledger.Value()), Remembered(r.key.value, OpenFingerprint(r.path), r.id, response))
    {
      response := Complete(r.id, outcome, st);
      ledger.Remember(Remembered(r.key.value, OpenFingerprint(r.path), r.id, response));
    }

    /** A project is saved before it is published. */
    method Persist(result: Result<Project, ApplicationError>, fault: Storage.SaveFault)
      returns (outcome: Result<Project, ApplicationError>)
      modifies repository
      ensures
        var before := if repository == null then None else Some(old(repository.database));
        var after := if repository == null then None else Some(repository.database);
        (after, outcome) == Session.Persist(before, result, fault)
    {
      outcome := result;
      if result.Success? && repository != null {
        var saved := repository.SaveProject(result.value, fault);
        if saved.Failure? {
          outcome := Failure(saved.error);
        }
      }
    }

    /** Second critical section of `open_project`. */
    method FinishOpen(
      ghost i: nat, r: Session.OpenRequest, result: Result<Project, ApplicationError>, fault: Storage.SaveFault)
      returns (response: ServerResponse)
      requires Valid() && i < |flags| && model.ops[i].phase == Session.Ready(result)
      requires r.key == Some(model.ops[i].key)
      requires r.id == model.ops[i].requestId && r.path == model.ops[i].path
      modifies this`model, this`project, this`active, this`inFlight, this`sequence, this`subscriber
      modifies ledger, repository, subscriber
      ensures Valid() && (model, response) == Session.Finish(old(model), i, fault)
    {
      Release(r.id, r.key.value, i, Session.Finish(model, i, fault).0.ops[i]);
      response := Conclude(i, r, result, fault);
    }

    method Conclude(
      ghost i: nat, r: Session.OpenRequest, result: Result<Project, ApplicationError>, fault: Storage.SaveFault)
      returns (response: ServerResponse)
      requires i < |model.ops| && model.ops[i].phase == Session.Ready(result)
      requires r.key == Some(model.ops[i].key)
      requires r.id == model.ops[i].requestId && r.path == model.ops[i].path
      requires FieldsMatch(model.(inFlight := inFlight)) && StreamMatches(model.stream)
      requires inFlight == model.inFlight - {r.key.value}
      requires
        var after := Session.Finish(model, i, fault).0;
        FlagsMatch(flags, active, after.ops, after.active)
      modifies this`model, this`project, this`sequence, this`subscriber
      modifies ledger, repository, subscriber
      ensures Valid() && (model, response) == Session.Finish(old(model), i, fault)
    {
      ghost var after := Session.Finish(model, i, fault).0;
      assert after.inFlight == inFlight;
      response := Settle(r, result, fault, model, i);
      assert after.(inFlight := inFlight) == after;
      Become(after);
    }

    ghost method Become(after: Session.State)
      requires FieldsMatch(after) && FlagsMatch(flags, active, after.ops, after.active)
      requires StreamMatches(after.stream)
      modifies this`model
      ensures Valid() && model == after
    {
      model := after;
    }

    /** An operation leaves both maps; `op` is what becomes of it. */
    method Release(id: RequestId, key: Key, ghost i: nat, ghost op: Session.Operation)
      requires FlagsMatch(flags, active, model.ops, model.active)
      requires i < |flags| && op.cancelledBy == model.ops[i].cancelledBy
      modifies this`active, this`inFlight
      ensures inFlight == old(inFlight) - {key}
      ensures FlagsMatch(flags, active, model.ops[i := op], model.active - {id})
    {
      FlagReleased(flags, active, model.ops, model.active, id, i, op);
      active := active - {id};
      inFlight := inFlight - {key};
    }

    /** The rest of that section: save, publish, remember. */
    method Settle(
      r: Session.OpenRequest, result: Result<Project, ApplicationError>, fault: Storage.SaveFault,
      ghost before: Session.State, ghost i: nat)
      returns (response: ServerResponse)
      requires i < |before.ops| && before.ops[i].phase == Session.Ready(result)
      requires r.key == Some(before.ops[i].key)
      requires r.id == before.ops[i].requestId && r.path == before.ops[i].path
      requires FieldsMatch(before.(inFlight := inFlight)) && StreamMatches(before.stream)
      modifies this`project, this`sequence, this`subscriber, ledger, repository, subscriber
      ensures
        var after := Session.Finish(before, i, fault);
        && FieldsMatch(after.0.(inFlight := inFlight)) && StreamMatches(after.0.stream)
        && response == after.1
    {
      var outcome := Persist(result, fault);
      response := Publish(r, outcome, before.stream);
    }

    method Cancel(r: Session.CancelRequest) returns (response: ServerResponse)
      requires Valid()
      modifies this`model, ledger, flags
      ensures Valid() && (model, response) == Session.Cancel(old(model), r)
    {
      if r.key.None? {
        return Session.Internal(r.id);
      }
      var key, fingerprint := r.key.value, CancelFingerprint(r.target);
      var answer := Replay(key, fingerprint, r.id);
      if answer.Some? {
        return answer.value;
      }
      var outcome := Reach(r.target);
      response := Ok(r.id, Cancellation(r.target, outcome));
      ledger.Remember(Remembered(key, fingerprint, r.id, response));
      model := Session.Cancel(model, r).0;
    }

    /** Sets the target's flag if it is running. */
    method Reach(target: RequestId) returns (outcome: CancellationOutcome)
      requires FieldsMatch(model) && FlagsMatch(flags, active, model.ops, model.active)
      modifies flags
      ensures FlagsMatch(flags, active, Session.RaiseFlag(model, target), model.active)
      ensures outcome == Session.Outcome(model, target)
    {
      if target in active {
        active[target].Cancel();
        outcome := Accepted;
      } else if target in ledger.completedRequests {
        outcome := AlreadyFinished;
      } else {
        outcome := NotFound;
      }
    }

    /** `snapshot_locked`: the keys of `active` in whatever order the map yields them. */
    method SnapshotLocked() returns (snapshot: WorkspaceSnapshot)
      requires FieldsMatch(model) && sequence == model.stream.sequence
      ensures IsListing(snapshot.activeOperations, active.Keys)
      ensures snapshot == Session.SnapshotOfSession(model, snapshot.activeOperations)
    {
      var rest, listing := active.Keys, [];
      while rest != {}
        invariant rest <= active.Keys && IsListing(listing, active.Keys - rest)
        decreases |rest|
      {
        var id :| id in rest;
        Push(listing, active.Keys - rest, id);
        assert active.Keys - rest + {id} == active.Keys - (rest - {id});
        listing := listing + [id];
        rest := rest - {id};
      }
      assert active.Keys - rest == active.Keys;
      snapshot := WorkspaceSnapshot(streamId, sequence, project, listing);
    }

    method Subscribe() returns (snapshot: WorkspaceSnapshot, receiver: Channel)
      requires Valid()
      modifies this`model, this`subscriber
      ensures Valid() && fresh(receiver) && subscriber == receiver
      ensures IsListing(snapshot.activeOperations, old(model).active.Keys)
      ensures snapshot == Session.SnapshotOfSession(old(model), snapshot.activeOperations)
      ensures model == Session.Subscribe(old(model), snapshot.activeOperations)
    {
      receiver := new Channel();
      snapshot := SnapshotLocked();
      subscriber := receiver;
      model := Session.Subscribe(model, snapshot.activeOperations);
    }

    /** The receiver of the subscription being fed takes its oldest message. */
    method Receive() returns (event: DaemonEvent)
      requires Valid() && subscriber != null && subscriber.queue != []
      modifies this`model, subscriber
      ensures Valid()
      ensures model == Session.Step(old(model), Session.Receive(|old(model).stream.closed|))
      ensures
        var sub := old(model).stream.subscriber.value;
        sub.taken < |sub.sent| && event == sub.sent[sub.taken]
    {
      ghost var k := |model.stream.closed|;
      assert model.stream.Subscriptions()[k] == model.stream.subscriber.value;
      event := subscriber.queue[0];
      subscriber.queue := subscriber.queue[1..];
      model := Session.Step(model, Session.Receive(k));
    }

    /** The receiver of the subscription being fed is dropped. */
    method Disconnect()
      requires Valid() && subscriber != null
      modifies this`model, subscriber
      ensures Valid()
      ensures model == Session.Step(old(model), Session.Disconnect(|old(model).stream.closed|))
    {
      ghost var k := |model.stream.closed|;
      assert model.stream.Subscriptions()[k] == model.stream.subscriber.value;
      subscriber.connected := false;
      model := Session.Step(model, Session.Disconnect(k));
    }
  }
}
