/** Domain values of crates/kesharon-domain: projects, resource budgets and tasks. */
module Domain {
  import opened Wrappers

  const U16_MAX := 0xFFFF
  const I64_MAX := 0x7FFF_FFFF_FFFF_FFFF
  const U64_MAX := 0xFFFF_FFFF_FFFF_FFFF

  type u16 = n: nat | n <= U16_MAX
  type u64 = n: nat | n <= U64_MAX
  type i64 = n: int | -0x8000_0000_0000_0000 <= n <= I64_MAX

  /** The characters Rust's `str::trim` removes (Unicode White_Space). */
  predicate IsWhitespace(c: char) {
    var n := c as int;
    || 0x9 <= n <= 0xD || n == 0x20 || n == 0x85 || n == 0xA0 || n == 0x1680
    || 0x2000 <= n <= 0x200A || n == 0x2028 || n == 0x2029 || n == 0x202F
    || n == 0x205F || n == 0x3000
  }

  predicate IsBlank(s: string) {
    forall i | 0 <= i < |s| :: IsWhitespace(s[i])
  }

  function TrimStart(s: string): string {
    if s != [] && IsWhitespace(s[0]) then TrimStart(s[1..]) else s
  }

  function TrimEnd(s: string): string {
    if s != [] && IsWhitespace(s[|s| - 1]) then TrimEnd(s[..|s| - 1]) else s
  }

  /** A text is blank exactly when trimming leaves nothing of it. */
  lemma {:induction false} BlankIffTrimmedAway(s: string)
    ensures IsBlank(s) <==> TrimEnd(TrimStart(s)) == ""
  {
    if s != [] && IsWhitespace(s[0]) {
      BlankIffTrimmedAway(s[1..]);
      assert IsBlank(s) <==> IsBlank(s[1..]) by {
        assert forall i | 0 < i < |s| :: s[i] == s[1..][i - 1];
      }
    } else {
      TrimEndKeeps(s);
    }
  }

  lemma {:induction false} TrimEndKeeps(s: string)
    requires s != [] ==> !IsWhitespace(s[0])
    ensures TrimEnd(s) == "" <==> s == ""
  {
    if s != [] && IsWhitespace(s[|s| - 1]) {
      TrimEndKeeps(s[..|s| - 1]);
    }
  }

  datatype ProjectError = EmptyIdentifier | EmptyDisplayName | EmptyCanonicalRoot

  datatype Project = Project(id: string, displayName: string, canonicalRoot: string, trusted: bool) {
    predicate Valid() {
      !IsBlank(id) && !IsBlank(displayName) && !IsBlank(canonicalRoot)
    }
  }

  /** `ProjectId::new` followed by `Project::new`. */
  function NewProject(id: string, displayName: string, canonicalRoot: string, trusted: bool)
    : (r: Result<Project, ProjectError>)
    ensures r.Success? <==> !IsBlank(id) && !IsBlank(displayName) && !IsBlank(canonicalRoot)
    ensures r.Success? ==> r.value.Valid() && r.value.id == id
  {
    if IsBlank(id) then Failure(EmptyIdentifier)
    else if IsBlank(displayName) then Failure(EmptyDisplayName)
    else if IsBlank(canonicalRoot) then Failure(EmptyCanonicalRoot)
    else Success(Project(id, displayName, canonicalRoot, trusted))
  }

  // ---- Budgets ----

  datatype TaskError =
    | BlankIdentifier
    | EmptyGoal
    | InvalidResourceBudget
    | InvalidTransition(from: TaskState, action: string)
    | TerminalState

  datatype ResourceBudget = ResourceBudget(
    maxMemoryBytes: u64,
    maxDiskWriteBytes: u64,
    maxConcurrentTools: u16,
    maxPromptTokens: Option<u64>,
    maxCompletionTokens: Option<u64>,
    maxCostMicros: Option<u64>)
  {
    /** Positive ceilings, and all three token limits or none: what the constructors allow. */
    predicate Valid() {
      && maxMemoryBytes > 0 && maxDiskWriteBytes > 0 && maxConcurrentTools > 0
      && (maxPromptTokens.Some? <==> maxCompletionTokens.Some?)
      && (maxPromptTokens.Some? <==> maxCostMicros.Some?)
      && (maxPromptTokens.Some? ==>
            maxPromptTokens.value > 0 && maxCompletionTokens.value > 0 && maxCostMicros.value > 0)
    }

    function WithTokenLimits(prompt: u64, completion: u64, cost: u64): (r: Result<ResourceBudget, TaskError>)
      ensures r.Success? <==> prompt > 0 && completion > 0 && cost > 0
      ensures r.Success? && Valid() ==> r.value.Valid()
    {
      if prompt == 0 || completion == 0 || cost == 0 then Failure(InvalidResourceBudget)
      else Success(this.(
        maxPromptTokens := Some(prompt), maxCompletionTokens := Some(completion), maxCostMicros := Some(cost)))
    }
  }

  function NewBudget(memory: u64, disk: u64, tools: u16): (r: Result<ResourceBudget, TaskError>)
    ensures r.Success? <==> memory > 0 && disk > 0 && tools > 0
    ensures r.Success? ==> r.value.Valid()
  {
    if memory == 0 || disk == 0 || tools == 0 then Failure(InvalidResourceBudget)
    else Success(ResourceBudget(memory, disk, tools, None, None, None))
  }

  /** `b` came out of the constructors. */
  ghost predicate Built(b: ResourceBudget) {
    exists memory, disk, tools ::
      || NewBudget(memory, disk, tools) == Success(b)
      || (NewBudget(memory, disk, tools).Success? && BuiltWithLimits(NewBudget(memory, disk, tools).value, b))
  }

  ghost predicate BuiltWithLimits(base: ResourceBudget, b: ResourceBudget) {
    exists prompt, completion, cost :: base.WithTokenLimits(prompt, completion, cost) == Success(b)
  }

  /** The budgets there are: positive ceilings, and all three token limits, positive, or none. */
  lemma BuiltIffValid(b: ResourceBudget)
    ensures Built(b) <==> b.Valid()
  {
    if b.Valid() {
      var base := NewBudget(b.maxMemoryBytes, b.maxDiskWriteBytes, b.maxConcurrentTools);
      if b.maxPromptTokens.Some? {
        assert base.value.WithTokenLimits(
          b.maxPromptTokens.value, b.maxCompletionTokens.value, b.maxCostMicros.value) == Success(b);
        assert BuiltWithLimits(base.value, b);
      } else {
        assert base == Success(b);
      }
    }
  }

  // ---- Tasks ----

  datatype TaskState =
    | Draft
    | Planning
    | AwaitingApproval
    | Executing
    | Paused
    | AwaitingReview
    | Completed
    | Failed
    | TaskCancelled
  {
    predicate IsTerminal() {
      Completed? || Failed? || TaskCancelled?
    }
  }

  datatype ExecutionMode = Plan | Act

  /** The value of a task at one moment; a plan is its step descriptions. */
  datatype TaskValue = TaskValue(
    id: string,
    goal: string,
    budget: ResourceBudget,
    state: TaskState,
    mode: ExecutionMode,
    plan: Option<seq<string>>)
  {
    /** What `Task::new` guarantees of the fields no later call changes. */
    predicate Valid() {
      !IsBlank(id) && !IsBlank(goal) && budget.Valid()
    }

    predicate IsActive() {
      !state.IsTerminal()
    }
  }

  /** `TaskId::new` followed by `Task::new`. */
  function NewTask(id: string, goal: string, budget: ResourceBudget): Result<TaskValue, TaskError> {
    if IsBlank(id) then Failure(BlankIdentifier)
    else if IsBlank(goal) then Failure(EmptyGoal)
    else Success(TaskValue(id, goal, budget, Draft, Plan, None))
  }
}
