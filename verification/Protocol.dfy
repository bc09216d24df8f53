/** Messages of crates/kesharon-protocol, as values; their JSON text is not modelled. */
module Protocol {
  import opened Wrappers
  import opened Domain

  type RequestId = string
  type Key = string
  type StreamId = string

  datatype ErrorCode =
    | InvalidRequest
    | NotGitRepository
    | ProjectPathUnavailable
    | OperationCancelled
    | RequestInProgress
    | ServerBusy
    | InternalError

  datatype CancellationOutcome = Accepted | AlreadyFinished | NotFound

  datatype ProjectSnapshot =
    ProjectSnapshot(id: string, displayName: string, canonicalRoot: string, trusted: bool)

  function SnapshotOf(p: Project): ProjectSnapshot {
    ProjectSnapshot(p.id, p.displayName, p.canonicalRoot, p.trusted)
  }

  datatype ResponsePayload =
    | ProjectOpened(project: ProjectSnapshot)
    | Cancellation(targetRequestId: RequestId, outcome: CancellationOutcome)

  /** A response carries exactly one of a result and an error. */
  datatype ServerResponse =
    | Ok(requestId: RequestId, result: ResponsePayload)
    | Err(requestId: RequestId, code: ErrorCode, message: string)
  {
    function WithRequestId(id: RequestId): ServerResponse {
      this.(requestId := id)
    }
  }

  /** `DaemonEventPayload`; opening a project is the only operation kind there is. */
  datatype EventPayload =
    | OperationStarted(requestId: RequestId)
    | ProjectOpened(requestId: RequestId, project: ProjectSnapshot)
    | OperationCancelled(requestId: RequestId)
    | OperationFailed(requestId: RequestId, code: ErrorCode, message: string)
  {
    predicate IsTerminal() {
      !OperationStarted?
    }
  }

  datatype DaemonEvent = DaemonEvent(streamId: StreamId, sequence: nat, payload: EventPayload)

  /** `activeOperations` lists request IDs in the arbitrary order of a hash map's keys. */
  datatype WorkspaceSnapshot = WorkspaceSnapshot(
    streamId: StreamId,
    lastSequence: nat,
    project: Option<ProjectSnapshot>,
    activeOperations: seq<RequestId>)

  datatype StreamMessage =
    | Snapshot(snapshot: WorkspaceSnapshot)
    | Event(event: DaemonEvent)

  function Elements<T>(s: seq<T>): set<T> {
    set x | x in s
  }

  /** `order` lists the elements of `xs`, each exactly once. */
  predicate IsListing<T(==)>(order: seq<T>, xs: set<T>) {
    && Elements(order) == xs
    && forall i, j | 0 <= i < j < |order| :: order[i] != order[j]
  }

  // ---- The replica a stream of events describes ----

  /** What a subscriber can know of a session: its project and its running requests. */
  datatype Replica = Replica(project: Option<ProjectSnapshot>, active: set<RequestId>) {
    function Apply(e: EventPayload): Replica {
      match e
      case OperationStarted(id) => Replica(project, active + {id})
      case ProjectOpened(id, p) => Replica(Some(p), active - {id})
      case OperationCancelled(id) => Replica(project, active - {id})
      case OperationFailed(id, _, _) => Replica(project, active - {id})
    }
  }

  /** The replica after `log`, started from a recovered project with nothing running. */
  function Fold(initial: Option<ProjectSnapshot>, log: seq<EventPayload>): Replica {
    if log == [] then Replica(initial, {})
    else Fold(initial, log[..|log| - 1]).Apply(log[|log| - 1])
  }

  lemma FoldAppend(initial: Option<ProjectSnapshot>, log: seq<EventPayload>, e: EventPayload)
    ensures Fold(initial, log + [e]) == Fold(initial, log).Apply(e)
  {
    assert (log + [e])[..|log|] == log;
  }
}
