/**
  The daemon session of crates/kesharon-daemon/src/session.rs as a state machine. Every locked
  section is one step; the unlocked part of an open is three steps of its own, between which
  anything else may happen. Beside the fields of `SessionState` the model keeps what the proofs
  are about: the event log, every operation ever begun and every subscription ever made.
 */
module Session {
  import opened Wrappers
  import opened Domain
  import opened Protocol
  import opened Application
  import opened Idempotency
  import Storage
  import TaskStorage

  const SUBSCRIBER_CAPACITY: nat := 64

  // ---- Events and subscribers ----

  /** A bounded channel: `sent` is all that was enqueued, `taken` how much the receiver took. */
  datatype Subscription = Subscription(
    snapshot: WorkspaceSnapshot, sent: seq<DaemonEvent>, taken: nat, connected: bool)
  {
    function Pending(): int {
      |sent| - taken
    }

    /** `try_send` succeeds. */
    predicate Accepts() {
      connected && Pending() < SUBSCRIBER_CAPACITY
    }
  }

  /** `sequence` and `subscriber`, with the log and the subscriptions no longer fed. */
  datatype Stream = Stream(
    sequence: nat,
    subscriber: Option<Subscription>,
    log: seq<EventPayload>,
    closed: seq<Subscription>)
  {
    /** Every subscription ever made, oldest first. */
    function Subscriptions(): seq<Subscription> {
      closed + (if subscriber.Some? then [subscriber.value] else [])
    }

    /** The sender is dropped; the receiver may still drain what it has. */
    function Unsubscribed(): Stream {
      if subscriber.None? then this
      else this.(subscriber := None, closed := closed + [subscriber.value])
    }
  }

  /** `emit_locked`: None when the sequence is exhausted. */
  function Emit(st: Stream, streamId: StreamId, payload: EventPayload): Option<Stream> {
    if st.sequence >= U64_MAX then None
    else
      var next := st.(sequence := st.sequence + 1, log := st.log + [payload]);
      var event := DaemonEvent(streamId, next.sequence, payload);
      match st.subscriber
      case None => Some(next)
      case Some(sub) =>
        if sub.Accepts()
        then Some(next.(subscriber := Some(sub.(sent := sub.sent + [event]))))
        else Some(next.Unsubscribed())
  }

  // ---- Operations ----

  /** How far the thread of an open has come. */
  datatype Phase =
    | Begun
    | Inspecting
    | Inspected(found: Inspection)
    | Ready(result: Result<Project, ApplicationError>)
    | Finished(response: ServerResponse, terminalAt: Option<nat>, rememberedAt: nat)

  /**
    One accepted open. Its index in `ops` stands for the shared cancellation flag; the flag is
    set when `cancelledBy` names the remembered cancel that set it first. `startedAt` is the place
    of its Started event in the log, `begunAt` the length of the ledger's history at that time.
   */
  datatype Operation = Operation(
    requestId: RequestId, key: Key, path: string,
    cancelledBy: Option<nat>, phase: Phase, startedAt: nat, begunAt: nat)
  {
    predicate Running() {
      !phase.Finished?
    }

    function Fingerprint(): Fingerprint {
      OpenFingerprint(path)
    }
  }

  /** `lost`: requests ended without a terminal event; `unpublished`: a project saved but not shown. */
  datatype Data = Data(
    streamId: StreamId,
    initial: Option<ProjectSnapshot>,
    project: Option<ProjectSnapshot>,
    activeTask: Option<TaskValue>,
    active: map<RequestId, nat>,
    inFlight: map<Key, Fingerprint>,
    ledger: Ledger,
    stream: Stream,
    storage: Option<Storage.Database>,
    ops: seq<Operation>,
    lost: set<RequestId>,
    unpublished: bool)

  /** Handles to cancellation flags do not dangle. */
  predicate HandlesExist(s: Data) {
    forall r | r in s.active :: s.active[r] < |s.ops|
  }

  type State = s: Data | HandlesExist(s)
    witness Data("", None, None, None, map[], map[], EMPTY_LEDGER, Stream(0, None, [], []), None, [], {}, false)

  function NewSession(
    streamId: StreamId, project: Option<ProjectSnapshot>, task: Option<TaskValue>, storage: Option<Storage.Database>)
    : State
  {
    Data(streamId, project, project, task, map[], map[], EMPTY_LEDGER, Stream(0, None, [], []), storage,
         [], {}, false)
  }

  /** `with_storage`: the recovered project and task, or the error recovery failed with. */
  function WithStorage(streamId: StreamId, storage: Option<Storage.Database>)
    : Result<State, ApplicationError>
  {
    if storage.None? then Success(NewSession(streamId, None, None, None))
    else match TaskStorage.Recover(storage.value)
      case Failure(e) => Failure(e)
      case Success((None, task)) => Success(NewSession(streamId, None, task, storage))
      case Success((Some(p), task)) => Success(NewSession(streamId, Some(SnapshotOf(p)), task, storage))
  }

  // ---- Requests ----

  datatype OpenRequest = OpenRequest(id: RequestId, key: Option<Key>, path: string)

  datatype CancelRequest = CancelRequest(id: RequestId, key: Option<Key>, target: RequestId)

  function Conflict(id: RequestId): ServerResponse {
    Err(id, InvalidRequest, "Idempotency key was already used for a different mutation")
  }

  function Internal(id: RequestId): ServerResponse {
    Err(id, InternalError, "Daemon session state is unavailable")
  }

  function KeyInProgress(id: RequestId): ServerResponse {
    Err(id, RequestInProgress, "A request with this idempotency key is still running")
  }

  function RequestStillRunning(id: RequestId): ServerResponse {
    Err(id, RequestInProgress, "A request with this request ID is still running")
  }

  /** The checks open and cancel share: replay, refuse, or let the mutation through. */
  function Gate(s: State, key: Key, fingerprint: Fingerprint, id: RequestId): Option<ServerResponse> {
    if key in s.ledger.completed then
      if s.ledger.completed[key].fingerprint != fingerprint then Some(Conflict(id))
      else Some(s.ledger.completed[key].response.WithRequestId(id))
    else if key in s.inFlight then
      if s.inFlight[key] != fingerprint then Some(Conflict(id)) else Some(KeyInProgress(id))
    else None
  }

  /** First critical section of `open_project`. No answer means the operation is now running. */
  function Begin(s: State, r: OpenRequest): (State, Option<ServerResponse>) {
    if r.key.None? then (s, Some(Internal(r.id)))
    else
      var gate := Gate(s, r.key.value, OpenFingerprint(r.path), r.id);
      if gate.Some? then (s, gate)
      else if r.id in s.active then (s, Some(RequestStillRunning(r.id)))
      else match Emit(s.stream, s.streamId, OperationStarted(r.id))
        case None => (s, Some(Internal(r.id)))
        case Some(stream) =>
          var op := Operation(
            r.id, r.key.value, r.path, None, Begun, |s.stream.log|, |s.ledger.history|);
          (s.(active := s.active[r.id := |s.ops|],
              inFlight := s.inFlight[r.key.value := OpenFingerprint(r.path)],
              ops := s.ops + [op],
              stream := stream),
           None)
  }

  function WithPhase(s: State, i: nat, phase: Phase): State
    requires i < |s.ops|
  {
    s.(ops := s.ops[i := s.ops[i].(phase := phase)])
  }

  /** The unlocked part of an open, one reading of the shared flag or the repository at a time. */
  function FirstCheck(s: State, i: nat): State
    requires i < |s.ops|
  {
    WithPhase(s, i, if s.ops[i].cancelledBy.Some? then Ready(Failure(Cancelled)) else Inspecting)
  }

  function Inspect(s: State, i: nat, result: InspectionResult): State
    requires i < |s.ops|
  {
    WithPhase(s, i,
      match result
      case Success(found) => Inspected(found)
      case Failure(message) => Ready(Failure(Repository(message))))
  }

  function SecondCheck(s: State, i: nat, nextId: string): State
    requires i < |s.ops| && s.ops[i].phase.Inspected?
  {
    WithPhase(s, i, Ready(
      if s.ops[i].cancelledBy.Some? then Failure(Cancelled)
      else BuildProject(s.ops[i].phase.found, nextId)))
  }

  // ---- Second critical section of `open_project` ----

  function TerminalEvent(id: RequestId, result: Result<Project, ApplicationError>): EventPayload {
    match result
    case Success(p) => EventPayload.ProjectOpened(id, SnapshotOf(p))
    case Failure(Cancelled) => EventPayload.OperationCancelled(id)
    case Failure(e) => OperationFailed(id, Classify(e).0, Classify(e).1)
  }

  function TerminalResponse(id: RequestId, result: Result<Project, ApplicationError>): ServerResponse {
    match result
    case Success(p) => Ok(id, ResponsePayload.ProjectOpened(SnapshotOf(p)))
    case Failure(Cancelled) => Err(id, ErrorCode.OperationCancelled, "Project opening was cancelled")
    case Failure(e) => Err(id, Classify(e).0, Classify(e).1)
  }

  /** A project is saved before it is published; a failing save turns it into a failure. */
  function Persist(
    storage: Option<Storage.Database>, result: Result<Project, ApplicationError>, fault: Storage.SaveFault)
    : (Option<Storage.Database>, Result<Project, ApplicationError>)
  {
    if result.Failure? || storage.None? then (storage, result)
    else
      var (db, saved) := Storage.SaveProject(storage.value, result.value, fault);
      (Some(db), if saved.Success? then result else Failure(saved.error))
  }

  function Finish(s: State, i: nat, fault: Storage.SaveFault): (State, ServerResponse)
    requires i < |s.ops| && s.ops[i].phase.Ready?
  {
    var op := s.ops[i];
    var (storage, result) := Persist(s.storage, op.phase.result, fault);
    var emitted := Emit(s.stream, s.streamId, TerminalEvent(op.requestId, result));
    var response := if emitted.Some? then TerminalResponse(op.requestId, result) else Internal(op.requestId);
    var terminalAt := if emitted.Some? then Some(|s.stream.log|) else None;
    (s.(active := s.active - {op.requestId},
        inFlight := s.inFlight - {op.key},
        project := if emitted.Some? && result.Success? then Some(SnapshotOf(result.value)) else s.project,
        stream := if emitted.Some? then emitted.value else s.stream,
        storage := storage,
        ledger := Remember(s.ledger, Remembered(op.key, op.Fingerprint(), op.requestId, response)),
        ops := s.ops[i := op.(phase := Finished(response, terminalAt, |s.ledger.history|))],
        lost := if emitted.Some? then s.lost else s.lost + {op.requestId},
        unpublished := s.unpublished || (emitted.None? && result.Success?)),
     response)
  }

  // ---- Cancelling and subscribing ----

  function Outcome(s: State, target: RequestId): CancellationOutcome {
    if target in s.active then Accepted
    else if target in s.ledger.completedRequests then AlreadyFinished
    else NotFound
  }

  /** Setting a flag twice changes nothing: the first cancel stays on record. */
  function RaiseFlag(s: State, target: RequestId): seq<Operation> {
    if target !in s.active then s.ops
    else
      var i := s.active[target];
      if s.ops[i].cancelledBy.Some? then s.ops
      else s.ops[i := s.ops[i].(cancelledBy := Some(|s.ledger.history|))]
  }

  function Cancel(s: State, r: CancelRequest): (State, ServerResponse) {
    if r.key.None? then (s, Internal(r.id))
    else
      var fingerprint := CancelFingerprint(r.target);
      var gate := Gate(s, r.key.value, fingerprint, r.id);
      if gate.Some? then (s, gate.value)
      else
        var response := Ok(r.id, Cancellation(r.target, Outcome(s, r.target)));
        (s.(ops := RaiseFlag(s, r.target),
            ledger := Remember(s.ledger, Remembered(r.key.value, fingerprint, r.id, response))),
         response)
  }

  /** `snapshot_locked`, with the keys of `active` listed in some order. */
  function SnapshotOfSession(s: State, listing: seq<RequestId>): WorkspaceSnapshot {
    WorkspaceSnapshot(s.streamId, s.stream.sequence, s.project, listing)
  }

  function Subscribe(s: State, listing: seq<RequestId>): State {
    var added := Subscription(SnapshotOfSession(s, listing), [], 0, true);
    s.(stream := s.stream.Unsubscribed().(subscriber := Some(added)))
  }

  // ---- Runs ----

  datatype Action =
    | BeginOpen(open: OpenRequest)
    | CheckBefore(op: nat)
    | InspectPath(op: nat, found: InspectionResult)
    | CheckAfter(op: nat, nextId: string)
    | FinishOpen(op: nat, fault: Storage.SaveFault)
    | CancelOpen(cancel: CancelRequest)
    | SubscribeEvents(listing: seq<RequestId>)
    | Receive(subscription: nat)
    | Disconnect(subscription: nat)

  /** No saved project and no project about to be saved has this ID: what a fresh UUID promises. */
  ghost predicate FreshId(s: State, id: string) {
    && (s.storage.Some? ==>
          !Storage.Known(s.storage.value, id) && s.storage.value.lastActive != Some(id))
    && forall i | 0 <= i < |s.ops| && s.ops[i].phase.Ready? && s.ops[i].phase.result.Success? ::
         s.ops[i].phase.result.value.id != id
  }

  ghost predicate Enabled(s: State, a: Action) {
    match a
    case BeginOpen(_) => true
    case CheckBefore(i) => i < |s.ops| && s.ops[i].phase.Begun?
    case InspectPath(i, _) => i < |s.ops| && s.ops[i].phase.Inspecting?
    case CheckAfter(i, nextId) => i < |s.ops| && s.ops[i].phase.Inspected? && FreshId(s, nextId)
    case FinishOpen(i, _) => i < |s.ops| && s.ops[i].phase.Ready?
    case CancelOpen(_) => true
    case SubscribeEvents(listing) => IsListing(listing, s.active.Keys)
    case Receive(k) => k < |s.stream.Subscriptions()| && s.stream.Subscriptions()[k].Pending() > 0
    case Disconnect(k) => k < |s.stream.Subscriptions()|
  }

  function UpdateSubscription(st: Stream, k: nat, sub: Subscription): Stream
    requires k < |st.Subscriptions()|
  {
    if k < |st.closed| then st.(closed := st.closed[k := sub]) else st.(subscriber := Some(sub))
  }

  /** One step; an action that cannot happen changes nothing. */
  ghost function Step(s: State, a: Action): State {
    if !Enabled(s, a) then s
    else match a
      case BeginOpen(r) => Begin(s, r).0
      case CheckBefore(i) => FirstCheck(s, i)
      case InspectPath(i, result) => Inspect(s, i, result)
      case CheckAfter(i, nextId) => SecondCheck(s, i, nextId)
      case FinishOpen(i, fault) => Finish(s, i, fault).0
      case CancelOpen(r) => Cancel(s, r).0
      case SubscribeEvents(listing) => Subscribe(s, listing)
      case Receive(k) =>
        var sub := s.stream.Subscriptions()[k];
        s.(stream := UpdateSubscription(s.stream, k, sub.(taken := sub.taken + 1)))
      case Disconnect(k) =>
        var sub := s.stream.Subscriptions()[k];
        s.(stream := UpdateSubscription(s.stream, k, sub.(connected := false)))
  }

  /** The state after any interleaving of actions. */
  ghost function Execute(s: State, actions: seq<Action>): State {
    if actions == [] then s
    else Step(Execute(s, actions[..|actions| - 1]), actions[|actions| - 1])
  }
}
