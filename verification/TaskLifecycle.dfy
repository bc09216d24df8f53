/** The life of a task: crates/kesharon-domain/src/task.rs, whose transitions assign its fields. */
module TaskLifecycle {
  import opened Wrappers
  import opened Domain

  datatype TaskAction =
    | StartPlanning
    | RequestApproval(plan: seq<string>)
    | Approve
    | Reject
    | Pause
    | Resume
    | SubmitForReview
    | RequestRevision
    | Accept
  {
    /** The one state the action is allowed in. */
    function From(): TaskState {
      match this
      case StartPlanning => Draft
      case RequestApproval(_) => Planning
      case Approve => AwaitingApproval
      case Reject => AwaitingApproval
      case Pause => Executing
      case Resume => Paused
      case SubmitForReview => Executing
      case RequestRevision => AwaitingReview
      case Accept => AwaitingReview
    }

    function To(): TaskState {
      match this
      case StartPlanning => Planning
      case RequestApproval(_) => AwaitingApproval
      case Approve => Executing
      case Reject => TaskCancelled
      case Pause => Paused
      case Resume => Executing
      case SubmitForReview => AwaitingReview
      case RequestRevision => Executing
      case Accept => Completed
    }

    function Name(): string {
      match this
      case StartPlanning => "start_planning"
      case RequestApproval(_) => "request_approval"
      case Approve => "approve"
      case Reject => "reject"
      case Pause => "pause"
      case Resume => "resume"
      case SubmitForReview => "submit_for_review"
      case RequestRevision => "request_revision"
      case Accept => "accept"
    }
  }

  /** An action in the wrong state is refused and changes nothing. */
  function Attempt(t: TaskValue, a: TaskAction): (TaskValue, Result<(), TaskError>) {
    if t.state.IsTerminal() then (t, Failure(TerminalState))
    else if t.state != a.From() then (t, Failure(InvalidTransition(t.state, a.Name())))
    else
      (t.(state := a.To(), plan := if a.RequestApproval? then Some(a.plan) else t.plan), Success(()))
  }

  class Task {
    const id: string
    const goal: string
    const budget: ResourceBudget
    var state: TaskState
    var mode: ExecutionMode
    var plan: Option<seq<string>>

    function Value(): TaskValue
      reads this
    {
      TaskValue(id, goal, budget, state, mode, plan)
    }

    constructor (id: string, goal: string, budget: ResourceBudget)
      requires !IsBlank(id) && !IsBlank(goal)
      ensures NewTask(id, goal, budget) == Success(Value())
    {
      this.id, this.goal, this.budget := id, goal, budget;
      state, mode, plan := Draft, Plan, None;
    }

    /** `TaskId::new` and `Task::new`, which refuse blank text. */
    static method Create(id: string, goal: string, budget: ResourceBudget)
      returns (task: Option<Task>, error: Option<TaskError>)
      ensures task.Some? ==>
                fresh(task.value) && error.None? && NewTask(id, goal, budget) == Success(task.value.Value())
      ensures task.None? ==> error.Some? && NewTask(id, goal, budget) == Failure(error.value)
    {
      if IsBlank(id) {
        return None, Some(BlankIdentifier);
      }
      if IsBlank(goal) {
        return None, Some(EmptyGoal);
      }
      var created := new Task(id, goal, budget);
      return Some(created), None;
    }

    method SetExecutionMode(mode: ExecutionMode)
      modifies this
      ensures Value() == old(Value()).(mode := mode)
    {
      this.mode := mode;
    }

    method RequireState(expected: TaskState, action: string) returns (result: Result<(), TaskError>)
      ensures result ==
        if state.IsTerminal() then Failure(TerminalState)
        else if state != expected then Failure(InvalidTransition(state, action))
        else Success(())
    {
      if state.IsTerminal() {
        return Failure(TerminalState);
      }
      if state != expected {
        return Failure(InvalidTransition(state, action));
      }
      return Success(());
    }

    method Transition(from: TaskState, to: TaskState, action: string) returns (result: Result<(), TaskError>)
      modifies this`state
      ensures state == if result.Success? then to else old(state)
      ensures result ==
        if old(state).IsTerminal() then Failure(TerminalState)
        else if old(state) != from then Failure(InvalidTransition(old(state), action))
        else Success(())
    {
      result := RequireState(from, action);
      if result.Success? {
        state := to;
      }
    }

    method StartPlanning() returns (result: Result<(), TaskError>)
      modifies this
      ensures (Value(), result) == Attempt(old(Value()), TaskAction.StartPlanning)
    {
      result := Transition(Draft, Planning, "start_planning");
    }

    method RequestApproval(plan: seq<string>) returns (result: Result<(), TaskError>)
      modifies this
      ensures (Value(), result) == Attempt(old(Value()), TaskAction.RequestApproval(plan))
    {
      result := RequireState(Planning, "request_approval");
      if result.Success? {
        this.plan := Some(plan);
        state := AwaitingApproval;
      }
    }

    method Approve() returns (result: Result<(), TaskError>)
      modifies this
      ensures (Value(), result) == Attempt(old(Value()), TaskAction.Approve)
    {
      result := Transition(AwaitingApproval, Executing, "approve");
    }

    method Reject() returns (result: Result<(), TaskError>)
      modifies this
      ensures (Value(), result) == Attempt(old(Value()), TaskAction.Reject)
    {
      result := Transition(AwaitingApproval, TaskCancelled, "reject");
    }

    method Pause() returns (result: Result<(), TaskError>)
      modifies this
      ensures (Value(), result) == Attempt(old(Value()), TaskAction.Pause)
    {
      result := Transition(Executing, Paused, "pause");
    }

    method Resume() returns (result: Result<(), TaskError>)
      modifies this
      ensures (Value(), result) == Attempt(old(Value()), TaskAction.Resume)
    {
      result := Transition(Paused, Executing, "resume");
    }

    method SubmitForReview() returns (result: Result<(), TaskError>)
      modifies this
      ensures (Value(), result) == Attempt(old(Value()), TaskAction.SubmitForReview)
    {
      result := Transition(Executing, AwaitingReview, "submit_for_review");
    }

    method RequestRevision() returns (result: Result<(), TaskError>)
      modifies this
      ensures (Value(), result) == Attempt(old(Value()), TaskAction.RequestRevision)
    {
      result := Transition(AwaitingReview, Executing, "request_revision");
    }

    method Accept() returns (result: Result<(), TaskError>)
      modifies this
      ensures (Value(), result) == Attempt(old(Value()), TaskAction.Accept)
    {
      result := Transition(AwaitingReview, Completed, "accept");
    }
  }

  /** The state an action asks for, and its name, written out. */
  predicate Allowed(state: TaskState, a: TaskAction) {
    match a
    case StartPlanning => state.Draft?
    case RequestApproval(_) => state.Planning?
    case Approve => state.AwaitingApproval?
    case Reject => state.AwaitingApproval?
    case Pause => state.Executing?
    case Resume => state.Paused?
    case SubmitForReview => state.Executing?
    case RequestRevision => state.AwaitingReview?
    case Accept => state.AwaitingReview?
  }

  function Called(a: TaskAction): string {
    match a
    case StartPlanning => "start_planning"
    case RequestApproval(_) => "request_approval"
    case Approve => "approve"
    case Reject => "reject"
    case Pause => "pause"
    case Resume => "resume"
    case SubmitForReview => "submit_for_review"
    case RequestRevision => "request_revision"
    case Accept => "accept"
  }

  /** An action succeeds exactly in the state it asks for; which error it gets otherwise. */
  lemma AllowedActions(t: TaskValue, a: TaskAction)
    ensures Attempt(t, a).1.Success? <==> Allowed(t.state, a)
    ensures !Allowed(t.state, a) ==>
              Attempt(t, a) == (t, Failure(
                if t.state.Completed? || t.state.Failed? || t.state.TaskCancelled? then TerminalState
                else InvalidTransition(t.state, Called(a))))
  {
  }

  // ---- Whole lives ----

  /** What a caller may ask of a task; the mode can be set at any time. */
  datatype Call = Do(action: TaskAction) | SetMode(mode: ExecutionMode)

  /** The task after any calls. */
  function After(t: TaskValue, calls: seq<Call>): TaskValue {
    if calls == [] then t
    else
      var before := After(t, calls[..|calls| - 1]);
      match calls[|calls| - 1]
      case Do(a) => Attempt(before, a).0
      case SetMode(mode) => before.(mode := mode)
  }

  /** The actions that were not refused. */
  function Done(t: TaskValue, calls: seq<Call>): seq<TaskAction> {
    if calls == [] then []
    else
      var init, last := calls[..|calls| - 1], calls[|calls| - 1];
      Done(t, init) + if last.Do? && Attempt(After(t, init), last.action).1.Success? then [last.action] else []
  }

  function LastMode(mode: ExecutionMode, calls: seq<Call>): ExecutionMode {
    if calls == [] then mode
    else if calls[|calls| - 1].SetMode? then calls[|calls| - 1].mode
    else LastMode(mode, calls[..|calls| - 1])
  }

  /** Plan first, then one decision, then work and review until accepted. */
  predicate IsLife(done: seq<TaskAction>) {
    && (|done| > 0 ==> done[0].StartPlanning?)
    && (|done| > 1 ==> done[1].RequestApproval?)
    && (|done| > 2 ==> done[2].Approve? || (done[2].Reject? && |done| == 3))
    && (forall k | 3 <= k < |done| ::
          && done[k].From() == done[k - 1].To()
          && (done[k].Pause? || done[k].Resume? || done[k].SubmitForReview?
              || done[k].RequestRevision? || (done[k].Accept? && k == |done| - 1)))
  }

  /** The state and plan such a life ends in. */
  ghost predicate EndsIn(done: seq<TaskAction>, t: TaskValue) {
    && t.state == (if done == [] then Draft else done[|done| - 1].To())
    && t.plan == (if |done| > 1 && done[1].RequestApproval? then Some(done[1].plan) else None)
  }

  lemma AttemptExtendsLife(done: seq<TaskAction>, t: TaskValue, a: TaskAction)
    requires IsLife(done) && EndsIn(done, t) && Attempt(t, a).1.Success?
    ensures IsLife(done + [a]) && EndsIn(done + [a], Attempt(t, a).0)
  {
    var longer := done + [a];
    forall k | 3 <= k < |longer| ensures longer[k].From() == longer[k - 1].To() {
      assert k < |done| ==> longer[k] == done[k] && longer[k - 1] == done[k - 1];
    }
    if |done| > 2 {
      assert !done[|done| - 1].To().IsTerminal();
      if |done| > 3 {
        assert done[|done| - 1].From() == done[|done| - 2].To();
      }
    }
  }

  /**
    Whatever is asked, in whatever order, of a new task: what succeeded is a life, the task is where
    that life ends, with the plan of the one approval request there ever was, in the mode set last.
   */
  lemma {:induction false} EveryLife(t: TaskValue, calls: seq<Call>)
    requires t.state.Draft? && t.plan.None?
    ensures IsLife(Done(t, calls)) && EndsIn(Done(t, calls), After(t, calls))
    ensures
      var end := After(t, calls);
      end == t.(state := end.state, plan := end.plan, mode := LastMode(t.mode, calls))
  {
    if calls != [] {
      var init, last := calls[..|calls| - 1], calls[|calls| - 1];
      EveryLife(t, init);
      if last.Do? && Attempt(After(t, init), last.action).1.Success? {
        AttemptExtendsLife(Done(t, init), After(t, init), last.action);
      } else {
        assert Done(t, calls) == Done(t, init);
      }
    }
  }

  /** Nobody works on a task, or finishes it, without a plan and its approval; no task ever fails. */
  lemma ApprovedBeforeWork(t: TaskValue, calls: seq<Call>)
    requires t.state.Draft? && t.plan.None?
    ensures
      var end, done := After(t, calls), Done(t, calls);
      && !end.state.Failed?
      && (end.plan.None? <==> end.state.Draft? || end.state.Planning?)
      && (end.state.Executing? || end.state.Paused? || end.state.AwaitingReview? || end.state.Completed? ==>
            |done| > 2 && done[2].Approve? && done[1] == RequestApproval(end.plan.value))
  {
    EveryLife(t, calls);
  }

  /** A terminal task refuses every action for good, and only a terminal one does. */
  lemma {:induction false} TerminalIsFinal(t: TaskValue, calls: seq<Call>)
    ensures t.state.IsTerminal() ==>
              After(t, calls) == t.(mode := LastMode(t.mode, calls)) && Done(t, calls) == []
    ensures t.IsActive() <==> exists a :: Attempt(t, a).1.Success?
  {
    if calls != [] {
      TerminalIsFinal(t, calls[..|calls| - 1]);
    }
    if t.IsActive() {
      var a := match t.state
        case Draft => StartPlanning
        case Planning => RequestApproval([""])
        case AwaitingApproval => Approve
        case Executing => Pause
        case Paused => Resume
        case _ => Accept;
      assert Attempt(t, a).1.Success?;
    }
  }

  /** The state of a task is told by the last action that succeeded. */
  lemma StateByLastAction(t: TaskValue, calls: seq<Call>)
    requires t.state.Draft? && t.plan.None?
    ensures
      var state, done := After(t, calls).state, Done(t, calls);
      if done == [] then state.Draft?
      else
        var last := done[|done| - 1];
        && (state.Planning? <==> last.StartPlanning?)
        && (state.AwaitingApproval? <==> last.RequestApproval?)
        && (state.Executing? <==> last.Approve? || last.Resume? || last.RequestRevision?)
        && (state.Paused? <==> last.Pause?)
        && (state.AwaitingReview? <==> last.SubmitForReview?)
        && (state.Completed? <==> last.Accept?)
        && (state.TaskCancelled? <==> last.Reject?)
  {
    EveryLife(t, calls);
  }
}
