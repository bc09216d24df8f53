/** Saving and recovering tasks: storage.rs, over any sequence of saves. */
module TaskStorage {
  import opened Wrappers
  import opened Domain
  import opened Application
  import opened Tables
  import opened Storage

  // ---- Rows ----

  function I64FromU64(n: u64): Result<i64, ApplicationError> {
    if n <= I64_MAX then Success(n) else Failure(ApplicationError.Storage("out of range"))
  }

  function U64FromI64(n: i64): Result<u64, ApplicationError> {
    if n >= 0 then Success(n) else Failure(ApplicationError.Storage("out of range"))
  }

  function U16FromI64(n: i64): Result<u16, ApplicationError> {
    if 0 <= n <= U16_MAX then Success(n) else Failure(ApplicationError.Storage("out of range"))
  }

  predicate FitsI64(n: Option<u64>) {
    n.Some? ==> n.value <= I64_MAX
  }

  /** No ceiling is beyond 2^63 - 1. */
  predicate Fits(b: ResourceBudget) {
    && b.maxMemoryBytes <= I64_MAX && b.maxDiskWriteBytes <= I64_MAX
    && FitsI64(b.maxPromptTokens) && FitsI64(b.maxCompletionTokens) && FitsI64(b.maxCostMicros)
  }

  function OptionCell(n: Option<u64>): Option<i64>
    requires FitsI64(n)
  {
    if n.None? then None else Some(I64FromU64(n.value).value)
  }

  function CellsOfTask(t: TaskValue, projectId: string): TaskCells
    requires Fits(t.budget)
  {
    TaskCells(projectId, t.goal, t.state, if t.mode == Plan then "plan" else "act",
      I64FromU64(t.budget.maxMemoryBytes).value,
      I64FromU64(t.budget.maxDiskWriteBytes).value,
      t.budget.maxConcurrentTools,
      OptionCell(t.budget.maxPromptTokens),
      OptionCell(t.budget.maxCompletionTokens),
      OptionCell(t.budget.maxCostMicros),
      if t.IsActive() then 1 else 0)
  }

  function OfTaskError<T>(r: Result<T, TaskError>): Result<T, ApplicationError> {
    match r
    case Success(v) => Success(v)
    case Failure(_) => Failure(ApplicationError.Storage("invalid task"))
  }

  /** `RawTaskBudget::into_resource_budget`: token limits count only when all three are there. */
  function BudgetOf(c: TaskCells): Result<ResourceBudget, ApplicationError> {
    var memory, disk, tools := U64FromI64(c.maxMemory), U64FromI64(c.maxDisk), U16FromI64(c.maxTools);
    if memory.Failure? then Failure(memory.error)
    else if disk.Failure? then Failure(disk.error)
    else if tools.Failure? then Failure(tools.error)
    else
      var budget := OfTaskError(NewBudget(memory.value, disk.value, tools.value));
      if budget.Failure? || c.maxPrompt.None? || c.maxCompletion.None? || c.maxCost.None? then budget
      else
        var prompt, completion, cost :=
          U64FromI64(c.maxPrompt.value), U64FromI64(c.maxCompletion.value), U64FromI64(c.maxCost.value);
        if prompt.Failure? then Failure(prompt.error)
        else if completion.Failure? then Failure(completion.error)
        else if cost.Failure? then Failure(cost.error)
        else OfTaskError(budget.value.WithTokenLimits(prompt.value, completion.value, cost.value))
  }

  /** `parse_task_row`: the stored state is not read; what comes back is a draft without a plan. */
  function ParseTask(id: string, c: TaskCells): Result<TaskValue, ApplicationError> {
    match BudgetOf(c)
    case Failure(e) => Failure(e)
    case Success(budget) =>
      match OfTaskError(NewTask(id, c.goal, budget))
      case Failure(e) => Failure(e)
      case Success(t) => Success(t.(mode := if c.mode == "act" then Act else Plan))
  }

  /** What of a task survives storage: id, goal, mode and budget. */
  function Recovered(t: TaskValue): TaskValue {
    t.(state := Draft, plan := None)
  }

  /** A valid task within range comes back with its id, goal, mode and every ceiling. */
  lemma RowRoundTrip(t: TaskValue, projectId: string)
    requires t.Valid() && Fits(t.budget)
    ensures ParseTask(t.id, CellsOfTask(t, projectId)) == Success(Recovered(t))
  {
  }

  predicate AtMost(n: Option<u64>, most: nat) {
    n.Some? ==> n.value <= most
  }

  /** Every ceiling is at most 2^63 - 1. */
  predicate InRange(b: ResourceBudget) {
    && b.maxMemoryBytes <= 9223372036854775807 && b.maxDiskWriteBytes <= 9223372036854775807
    && AtMost(b.maxPromptTokens, 9223372036854775807)
    && AtMost(b.maxCompletionTokens, 9223372036854775807)
    && AtMost(b.maxCostMicros, 9223372036854775807)
  }

  /** What the three token cells of a row come to: limits if all three are there, else none. */
  predicate TokensRead(c: TaskCells, b: ResourceBudget) {
    if c.maxPrompt.Some? && c.maxCompletion.Some? && c.maxCost.Some?
    then
      && b.maxPromptTokens.Some? && b.maxPromptTokens.value as int == c.maxPrompt.value as int
      && b.maxCompletionTokens.Some? && b.maxCompletionTokens.value as int == c.maxCompletion.value as int
      && b.maxCostMicros.Some? && b.maxCostMicros.value as int == c.maxCost.value as int
    else b.maxPromptTokens.None? && b.maxCompletionTokens.None? && b.maxCostMicros.None?
  }

  /** Any row, whoever wrote it: when it can be read, and what is read. */
  lemma AnyRow(id: string, c: TaskCells)
    ensures ParseTask(id, c).Success? <==>
              && !IsBlank(id) && !IsBlank(c.goal)
              && c.maxMemory > 0 && c.maxDisk > 0 && 0 < c.maxTools <= 65535
              && (c.maxPrompt.Some? && c.maxCompletion.Some? && c.maxCost.Some? ==>
                    c.maxPrompt.value > 0 && c.maxCompletion.value > 0 && c.maxCost.value > 0)
    ensures ParseTask(id, c).Success? ==>
              var t := ParseTask(id, c).value;
              && t.id == id && t.goal == c.goal && t.state.Draft? && t.plan.None?
              && (t.mode.Act? <==> c.mode == "act")
              && t.budget.maxMemoryBytes as int == c.maxMemory as int
              && t.budget.maxDiskWriteBytes as int == c.maxDisk as int
              && t.budget.maxConcurrentTools as int == c.maxTools as int
              && TokensRead(c, t.budget)
  {
  }

  // ---- Statements ----

  /** The project a task not yet stored is filed under. */
  function FilingProject(db: Database): Option<string> {
    if db.lastActive.Some? then db.lastActive
    else if db.projects != [] then Some(db.projects[|db.projects| - 1].id)
    else None
  }

  function OwnerOf(db: Database, id: string): Option<string> {
    match Find(db.tasks, id)
    case Some(cells) => Some(cells.projectId)
    case None => FilingProject(db)
  }

  /** `save_task`; the foreign key is checked of a row that is new. */
  function SaveTask(db: Database, t: TaskValue): (Database, Result<(), ApplicationError>) {
    var owner := OwnerOf(db, t.id);
    if owner.None? then
      (db, Failure(ApplicationError.Storage("Cannot save task without an associated project")))
    else if !Fits(t.budget) then (db, Failure(ApplicationError.Storage("out of range")))
    else if Find(db.tasks, t.id).None? && !Known(db, owner.value) then
      (db, Failure(ApplicationError.Storage("FOREIGN KEY constraint failed")))
    else
      (db.(tasks := Upsert(db.tasks, t.id, CellsOfTask(t, owner.value))), Success(()))
  }

  function LoadTask(db: Database, id: string): Result<Option<TaskValue>, ApplicationError> {
    match Find(db.tasks, id)
    case None => Success(None)
    case Some(cells) =>
      match ParseTask(id, cells)
      case Success(t) => Success(Some(t))
      case Failure(e) => Failure(e)
  }

  predicate Selects(row: Row<TaskCells>, projectId: string) {
    row.cells.projectId == projectId && row.cells.isActive == 1
  }

  /** `ORDER BY rowid DESC LIMIT 1` */
  function NewestActive(rows: Table<TaskCells>, projectId: string): Option<string> {
    if rows == [] then None
    else if Selects(rows[|rows| - 1], projectId) then Some(rows[|rows| - 1].id)
    else NewestActive(rows[..|rows| - 1], projectId)
  }

  function LoadActiveTask(db: Database, projectId: string): Result<Option<TaskValue>, ApplicationError> {
    match NewestActive(db.tasks, projectId)
    case None => Success(None)
    case Some(id) => LoadTask(db, id)
  }

  predicate Written(cell: Option<i64>, n: Option<u64>) {
    (cell.Some? <==> n.Some?) && (n.Some? ==> cell.value as int == n.value as int)
  }

  /** What a save that succeeds writes to the row of the task. */
  lemma SavedRow(db: Database, t: TaskValue)
    requires SaveTask(db, t).1.Success?
    ensures
      var row := Find(SaveTask(db, t).0.tasks, t.id);
      row.Some? &&
      var c := row.value;
      && c.goal == t.goal && c.state == t.state && c.mode == (if t.mode.Plan? then "plan" else "act")
      && c.maxMemory as int == t.budget.maxMemoryBytes as int
      && c.maxDisk as int == t.budget.maxDiskWriteBytes as int
      && c.maxTools as int == t.budget.maxConcurrentTools as int
      && Written(c.maxPrompt, t.budget.maxPromptTokens)
      && Written(c.maxCompletion, t.budget.maxCompletionTokens)
      && Written(c.maxCost, t.budget.maxCostMicros)
      && c.isActive == (if t.state.Completed? || t.state.Failed? || t.state.TaskCancelled? then 0 else 1)
  {
    UpsertThenFind(db.tasks, t.id, CellsOfTask(t, OwnerOf(db, t.id).value), t.id);
  }

  // ---- Any sequence of saves ----

  datatype Save = ProjectSave(project: Project, fault: SaveFault) | TaskSave(task: TaskValue)

  function Perform(db: Database, s: Save): Database {
    match s
    case ProjectSave(p, fault) => SaveProject(db, p, fault).0
    case TaskSave(t) => SaveTask(db, t).0
  }

  function After(saves: seq<Save>): Database {
    if saves == [] then EMPTY else Perform(After(saves[..|saves| - 1]), saves[|saves| - 1])
  }

  ghost predicate AllValid(saves: seq<Save>) {
    forall i | 0 <= i < |saves| && saves[i].TaskSave? :: saves[i].task.Valid()
  }

  // ---- The reference: a journal of the saves that took ----

  datatype Entry = Entry(task: TaskValue, projectId: string)

  /** The project saved last without a fault. */
  function LastSaved(saves: seq<Save>): Option<string> {
    if saves == [] then None
    else match saves[|saves| - 1]
      case ProjectSave(p, NoFault) => Some(p.id)
      case _ => LastSaved(saves[..|saves| - 1])
  }

  /** Project IDs in the order they were first inserted. */
  function Inserted(saves: seq<Save>): seq<string> {
    if saves == [] then []
    else
      var before := Inserted(saves[..|saves| - 1]);
      match saves[|saves| - 1]
      case ProjectSave(p, fault) => if fault.FirstFails? || p.id in before then before else before + [p.id]
      case _ => before
  }

  function CurrentProject(saves: seq<Save>): Option<string> {
    if LastSaved(saves).Some? then LastSaved(saves)
    else if Inserted(saves) != [] then Some(Inserted(saves)[|Inserted(saves)| - 1])
    else None
  }

  /** The project of the first entry for a task. */
  function FiledUnder(journal: seq<Entry>, id: string): Option<string> {
    if journal == [] then None
    else if journal[0].task.id == id then Some(journal[0].projectId)
    else FiledUnder(journal[1..], id)
  }

  /**
    A task save takes if its ceilings are in range and there is a project for it: the one it was
    first filed under, or for a new task the current one.
   */
  function Journal(saves: seq<Save>): seq<Entry> {
    if saves == [] then []
    else
      var before, last := saves[..|saves| - 1], saves[|saves| - 1];
      var journal := Journal(before);
      if last.ProjectSave? || !Fits(last.task.budget) then journal
      else
        var filed := FiledUnder(journal, last.task.id);
        var project := if filed.Some? then filed else CurrentProject(before);
        if project.None? then journal else journal + [Entry(last.task, project.value)]
  }

  /** Task IDs in the order of their first entries. */
  function FirstIds(journal: seq<Entry>): seq<string> {
    if journal == [] then []
    else
      var before, id := FirstIds(journal[..|journal| - 1]), journal[|journal| - 1].task.id;
      if id in before then before else before + [id]
  }

  function LastEntry(journal: seq<Entry>, id: string): Option<Entry> {
    if journal == [] then None
    else if journal[|journal| - 1].task.id == id then Some(journal[|journal| - 1])
    else LastEntry(journal[..|journal| - 1], id)
  }

  // ---- Table and journal agree ----

  function Ids<V>(t: Table<V>): seq<string> {
    seq(|t|, i requires 0 <= i < |t| => t[i].id)
  }

  lemma FoundIffListed<V>(t: Table<V>, id: string)
    ensures Find(t, id).Some? <==> id in Ids(t)
  {
    FindRow(t, id);
    if Find(t, id).Some? {
      var i :| 0 <= i < |t| && t[i].id == id;
      assert Ids(t)[i] == id;
    }
  }

  lemma UpsertIds<V>(t: Table<V>, id: string, cells: V)
    ensures Ids(Upsert(t, id, cells)) == if id in Ids(t) then Ids(t) else Ids(t) + [id]
  {
    UpsertRows(t, id, cells);
    FoundIffListed(t, id);
  }

  /** The projects table and the metadata row, told from the saves. */
  lemma {:induction false} ProjectsFollowSaves(saves: seq<Save>)
    ensures After(saves).lastActive == LastSaved(saves)
    ensures Ids(After(saves).projects) == Inserted(saves)
    ensures LastSaved(saves).Some? ==> LastSaved(saves).value in Inserted(saves)
  {
    if saves != [] {
      var before := saves[..|saves| - 1];
      ProjectsFollowSaves(before);
      match saves[|saves| - 1]
      case ProjectSave(p, fault) => UpsertIds(After(before).projects, p.id, CellsOf(p));
      case TaskSave(_) =>
    }
  }

  lemma FilingFollowsSaves(saves: seq<Save>)
    ensures FilingProject(After(saves)) == CurrentProject(saves)
    ensures CurrentProject(saves).Some? ==> Known(After(saves), CurrentProject(saves).value)
  {
    ProjectsFollowSaves(saves);
    var projects := After(saves).projects;
    LastId(projects);
    if CurrentProject(saves).Some? {
      FoundIffListed(projects, CurrentProject(saves).value);
    }
  }

  lemma LastId<V>(t: Table<V>)
    ensures |Ids(t)| == |t|
    ensures t != [] ==> Ids(t)[|t| - 1] == t[|t| - 1].id
  {
  }

  ghost predicate AllFit(journal: seq<Entry>) {
    forall i | 0 <= i < |journal| :: Fits(journal[i].task.budget)
  }

  /** Every entry of a task is filed under the project of its first. */
  ghost predicate FiledOnce(journal: seq<Entry>) {
    forall i | 0 <= i < |journal| :: FiledUnder(journal, journal[i].task.id) == Some(journal[i].projectId)
  }

  lemma {:induction false} FiledAppend(journal: seq<Entry>, e: Entry, id: string)
    ensures FiledUnder(journal + [e], id)
         == if FiledUnder(journal, id).Some? then FiledUnder(journal, id)
            else if e.task.id == id then Some(e.projectId) else None
  {
    if journal == [] {
      assert [e][1..] == [];
    } else {
      FiledAppend(journal[1..], e, id);
      assert (journal + [e])[1..] == journal[1..] + [e];
    }
  }

  /** The journal files a task under one project. */
  lemma {:induction false} JournalFilesOnce(saves: seq<Save>)
    ensures AllFit(Journal(saves)) && FiledOnce(Journal(saves))
  {
    if saves != [] {
      JournalFilesOnce(saves[..|saves| - 1]);
      var journal := Journal(saves[..|saves| - 1]);
      if Journal(saves) != journal {
        var e := Journal(saves)[|journal|];
        assert Journal(saves) == journal + [e];
        forall i | 0 <= i <= |journal|
          ensures FiledUnder(journal + [e], (journal + [e])[i].task.id) == Some((journal + [e])[i].projectId)
        {
          FiledAppend(journal, e, (journal + [e])[i].task.id);
        }
      }
    }
  }

  /** The tasks table a journal stands for. */
  function TableOf(journal: seq<Entry>): Table<TaskCells>
    requires AllFit(journal)
  {
    if journal == [] then []
    else
      var e := journal[|journal| - 1];
      Upsert(TableOf(journal[..|journal| - 1]), e.task.id, CellsOfTask(e.task, e.projectId))
  }

  /** Rows stand in the order of first saves, and hold the cells of last saves. */
  lemma {:induction false} TableRows(journal: seq<Entry>)
    requires AllFit(journal)
    ensures Ids(TableOf(journal)) == FirstIds(journal)
    ensures forall id :: Find(TableOf(journal), id).Some? <==> LastEntry(journal, id).Some?
    ensures forall id | LastEntry(journal, id).Some? ::
              LastEntry(journal, id).value in journal
              && Find(TableOf(journal), id)
                 == Some(CellsOfTask(LastEntry(journal, id).value.task, LastEntry(journal, id).value.projectId))
  {
    if journal != [] {
      var before, e := journal[..|journal| - 1], journal[|journal| - 1];
      TableRows(before);
      UpsertIds(TableOf(before), e.task.id, CellsOfTask(e.task, e.projectId));
      forall id ensures
        Find(TableOf(journal), id)
        == if id == e.task.id then Some(CellsOfTask(e.task, e.projectId)) else Find(TableOf(before), id)
      {
        UpsertThenFind(TableOf(before), e.task.id, CellsOfTask(e.task, e.projectId), id);
      }
    }
  }

  lemma {:induction false} FiledIffFirst(journal: seq<Entry>, id: string)
    ensures FiledUnder(journal, id).Some? <==> LastEntry(journal, id).Some?
    ensures LastEntry(journal, id).Some? ==> LastEntry(journal, id).value.task.id == id
  {
    if journal != [] {
      var before, e := journal[..|journal| - 1], journal[|journal| - 1];
      FiledIffFirst(before, id);
      FiledAppend(before, e, id);
      assert journal == before + [e];
    }
  }

  /** The owner `save_task` finds is the one the journal files the task under. */
  lemma OwnerFollowsJournal(saves: seq<Save>, id: string)
    requires AllFit(Journal(saves)) && FiledOnce(Journal(saves))
    requires After(saves).tasks == TableOf(Journal(saves))
    ensures
      var filed := FiledUnder(Journal(saves), id);
      && OwnerOf(After(saves), id) == (if filed.Some? then filed else CurrentProject(saves))
      && (Find(After(saves).tasks, id).None? <==> filed.None?)
  {
    FilingFollowsSaves(saves);
    TableRows(Journal(saves));
    FiledIffFirst(Journal(saves), id);
  }

  /** After any saves, the tasks table is the one their journal stands for. */
  lemma {:induction false} TasksFollowJournal(saves: seq<Save>)
    ensures AllFit(Journal(saves)) && After(saves).tasks == TableOf(Journal(saves))
  {
    JournalFilesOnce(saves);
    if saves != [] {
      var before, last := saves[..|saves| - 1], saves[|saves| - 1];
      TasksFollowJournal(before);
      JournalFilesOnce(before);
      if last.TaskSave? {
        OwnerFollowsJournal(before, last.task.id);
        FilingFollowsSaves(before);
        if Journal(saves) != Journal(before) {
          assert Journal(saves)[..|Journal(before)|] == Journal(before);
        }
      }
    }
  }

  /**
    A save fails exactly when a ceiling is out of range or there is no project to file the task
    under, and then changes nothing; one that succeeds is the journal's next entry.
   */
  lemma SaveTaskOutcome(saves: seq<Save>, t: TaskValue)
    ensures
      var (db, saved) := SaveTask(After(saves), t);
      && (saved.Success? <==>
            InRange(t.budget) && (FiledUnder(Journal(saves), t.id).Some? || CurrentProject(saves).Some?))
      && (saved.Success? <==> Journal(saves + [TaskSave(t)]) != Journal(saves))
      && (saved.Failure? ==> db == After(saves))
  {
    TasksFollowJournal(saves);
    JournalFilesOnce(saves);
    OwnerFollowsJournal(saves, t.id);
    FilingFollowsSaves(saves);
    assert (saves + [TaskSave(t)])[..|saves|] == saves;
  }

  /** The tasks table has the task, under that project. */
  predicate Stores(db: Database, id: string, projectId: string) {
    Find(db.tasks, id).Some? && Find(db.tasks, id).value.projectId == projectId
  }

  /** One save, of whatever, keeps every stored task under its project. */
  lemma SaveKeepsProject(db: Database, save: Save, id: string, projectId: string)
    requires Stores(db, id, projectId)
    ensures Stores(Perform(db, save), id, projectId)
  {
    if save.TaskSave? && SaveTask(db, save.task).1.Success? {
      UpsertThenFind(db.tasks, save.task.id, CellsOfTask(save.task, OwnerOf(db, save.task.id).value), id);
    }
  }

  /** A stored task stays stored, under the project of its first save, whatever is saved after. */
  lemma {:induction false} ProjectsAreFinal(saves: seq<Save>, more: seq<Save>, id: string, projectId: string)
    requires Stores(After(saves), id, projectId)
    ensures Stores(After(saves + more), id, projectId)
  {
    if more == [] {
      assert saves + more == saves;
    } else {
      var init, last := more[..|more| - 1], more[|more| - 1];
      ProjectsAreFinal(saves, init, id, projectId);
      assert (saves + more)[..|saves + more| - 1] == saves + init;
      SaveKeepsProject(After(saves + init), last, id, projectId);
    }
  }

  // ---- The active task ----

  /** The task was filed under the project and last saved in a state that is not terminal. */
  predicate Candidate(journal: seq<Entry>, projectId: string, id: string) {
    && FiledUnder(journal, id) == Some(projectId)
    && LastEntry(journal, id).Some? && LastEntry(journal, id).value.task.IsActive()
  }

  lemma {:induction false} NewestActiveIsLast(rows: Table<TaskCells>, projectId: string)
    ensures NewestActive(rows, projectId).None? ==> forall i | 0 <= i < |rows| :: !Selects(rows[i], projectId)
    ensures NewestActive(rows, projectId).Some? ==>
              exists k | 0 <= k < |rows| ::
                && rows[k].id == NewestActive(rows, projectId).value && Selects(rows[k], projectId)
                && forall i | k < i < |rows| :: !Selects(rows[i], projectId)
  {
    if rows != [] && !Selects(rows[|rows| - 1], projectId) {
      NewestActiveIsLast(rows[..|rows| - 1], projectId);
      if NewestActive(rows, projectId).Some? {
        var init := rows[..|rows| - 1];
        var k :| 0 <= k < |init|
          && init[k].id == NewestActive(rows, projectId).value && Selects(init[k], projectId)
          && forall i | k < i < |init| :: !Selects(init[i], projectId);
        assert forall i | k < i < |init| :: rows[i] == init[i];
      }
    }
  }

  lemma {:induction false} UniqueIds<V>(t: Table<V>, k: nat)
    requires k < |t| && forall i | 0 <= i < k :: t[i].id != t[k].id
    ensures Find(t, t[k].id) == Some(t[k].cells)
  {
    if k > 0 {
      UniqueIds(t[1..], k - 1);
    }
  }

  lemma {:induction false} FirstIdsDistinct(journal: seq<Entry>)
    ensures forall i, j | 0 <= i < j < |FirstIds(journal)| :: FirstIds(journal)[i] != FirstIds(journal)[j]
  {
    if journal != [] {
      FirstIdsDistinct(journal[..|journal| - 1]);
    }
  }

  lemma SelectedIffCandidate(journal: seq<Entry>, projectId: string, k: nat)
    requires AllFit(journal) && FiledOnce(journal) && k < |TableOf(journal)|
    ensures |FirstIds(journal)| == |TableOf(journal)| && FirstIds(journal)[k] == TableOf(journal)[k].id
    ensures Selects(TableOf(journal)[k], projectId) <==> Candidate(journal, projectId, FirstIds(journal)[k])
  {
    var t := TableOf(journal);
    TableRows(journal);
    FirstIdsDistinct(journal);
    assert Ids(t)[k] == t[k].id;
    forall i | 0 <= i < k ensures t[i].id != t[k].id {
      assert Ids(t)[i] == t[i].id;
    }
    UniqueIds(t, k);
    FiledIffFirst(journal, t[k].id);
  }

  /** Of the tasks first saved in the order of `ids`, the last candidate. */
  ghost predicate LastCandidate(journal: seq<Entry>, projectId: string, k: int) {
    var ids := FirstIds(journal);
    && 0 <= k < |ids| && Candidate(journal, projectId, ids[k])
    && forall i | k < i < |ids| :: !Candidate(journal, projectId, ids[i])
  }

  /** The row the query finds is that of the last candidate. */
  lemma NewestIsLastCandidate(journal: seq<Entry>, projectId: string)
    requires AllFit(journal) && FiledOnce(journal)
    ensures
      var ids := FirstIds(journal);
      match NewestActive(TableOf(journal), projectId)
      case None => forall i | 0 <= i < |ids| :: !Candidate(journal, projectId, ids[i])
      case Some(id) => exists k | 0 <= k < |ids| :: LastCandidate(journal, projectId, k) && ids[k] == id
  {
    var rows, ids := TableOf(journal), FirstIds(journal);
    NewestActiveIsLast(rows, projectId);
    SelectedAreCandidates(journal, projectId);
    if NewestActive(rows, projectId).Some? {
      var k :| 0 <= k < |rows|
        && rows[k].id == NewestActive(rows, projectId).value && Selects(rows[k], projectId)
        && forall i | k < i < |rows| :: !Selects(rows[i], projectId);
      assert LastCandidate(journal, projectId, k) && ids[k] == rows[k].id;
    }
  }

  lemma SelectedAreCandidates(journal: seq<Entry>, projectId: string)
    requires AllFit(journal) && FiledOnce(journal)
    ensures |FirstIds(journal)| == |TableOf(journal)|
    ensures
      var rows, ids := TableOf(journal), FirstIds(journal);
      forall i | 0 <= i < |rows| ::
        ids[i] == rows[i].id && (Selects(rows[i], projectId) <==> Candidate(journal, projectId, ids[i]))
  {
    TableRows(journal);
    assert |Ids(TableOf(journal))| == |TableOf(journal)|;
    forall i: nat | i < |TableOf(journal)|
      ensures FirstIds(journal)[i] == TableOf(journal)[i].id
      ensures Selects(TableOf(journal)[i], projectId) <==> Candidate(journal, projectId, FirstIds(journal)[i])
    {
      SelectedIffCandidate(journal, projectId, i);
    }
  }

  /** A stored task is loaded as its last entry has it. */
  lemma LoadsLastEntry(saves: seq<Save>, id: string)
    requires AllValid(saves) && LastEntry(Journal(saves), id).Some?
    ensures LoadTask(After(saves), id) == Success(Some(Recovered(LastEntry(Journal(saves), id).value.task)))
  {
    var journal := Journal(saves);
    TasksFollowJournal(saves);
    TableRows(journal);
    JournalValid(saves);
    FiledIffFirst(journal, id);
    var last := LastEntry(journal, id).value;
    RowRoundTrip(last.task, last.projectId);
  }

  /**
    After any sequence of saves of projects and tasks, the active task of a project is the
    latest-first-saved of its tasks whose last save was not terminal, if there is one, with the
    id, goal, mode and budget of that last save.
   */
  lemma ActiveTaskOfAnyHistory(saves: seq<Save>, projectId: string)
    requires AllValid(saves)
    ensures
      var journal := Journal(saves);
      var ids := FirstIds(journal);
      match LoadActiveTask(After(saves), projectId)
      case Failure(_) => false
      case Success(None) => forall i | 0 <= i < |ids| :: !Candidate(journal, projectId, ids[i])
      case Success(Some(t)) =>
        exists k | 0 <= k < |ids| ::
          LastCandidate(journal, projectId, k) && t == Recovered(LastEntry(journal, ids[k]).value.task)
  {
    var journal := Journal(saves);
    TasksFollowJournal(saves);
    JournalFilesOnce(saves);
    NewestIsLastCandidate(journal, projectId);
    if NewestActive(TableOf(journal), projectId).Some? {
      var ids := FirstIds(journal);
      var k :| 0 <= k < |ids| && LastCandidate(journal, projectId, k)
        && ids[k] == NewestActive(TableOf(journal), projectId).value;
      LoadsLastEntry(saves, ids[k]);
    }
  }

  lemma {:induction false} JournalValid(saves: seq<Save>)
    requires AllValid(saves)
    ensures forall e | e in Journal(saves) :: e.task.Valid()
  {
    if saves != [] {
      JournalValid(saves[..|saves| - 1]);
    }
  }

  // ---- Recovery ----

  /** `SessionRecovery::execute` */
  function Recover(db: Database): Result<(Option<Project>, Option<TaskValue>), ApplicationError> {
    match LoadLastActive(db)
    case Failure(e) => Failure(e)
    case Success(None) => Success((None, None))
    case Success(Some(p)) =>
      match LoadActiveTask(db, p.id)
      case Failure(e) => Failure(e)
      case Success(task) => Success((Some(p), task))
  }

  ghost predicate Readable(tasks: Table<TaskCells>) {
    forall i | 0 <= i < |tasks| :: ParseTask(tasks[i].id, tasks[i].cells).Success?
  }

  /** Where every task row can be read, recovery fails only with the project. */
  lemma RecoversProject(db: Database)
    ensures Recover(db).Success? ==> LoadLastActive(db).Success? && Recover(db).value.0 == LoadLastActive(db).value
    ensures Readable(db.tasks) && LoadLastActive(db).Success? ==> Recover(db).Success?
  {
    if LoadLastActive(db).Success? && LoadLastActive(db).value.Some? {
      var newest := NewestActive(db.tasks, LoadLastActive(db).value.value.id);
      if newest.Some? {
        FindRow(db.tasks, newest.value);
      }
    }
  }

  /** Whatever valid projects and tasks were saved, every row can be read. */
  lemma SavedTasksAreReadable(saves: seq<Save>)
    requires AllValid(saves)
    ensures Readable(After(saves).tasks)
  {
    var journal := Journal(saves);
    TasksFollowJournal(saves);
    TableRows(journal);
    FirstIdsDistinct(journal);
    JournalValid(saves);
    var t := TableOf(journal);
    forall k: nat | k < |t| ensures ParseTask(t[k].id, t[k].cells).Success? {
      forall i | 0 <= i < k ensures t[i].id != t[k].id {
        assert Ids(t)[i] == t[i].id && Ids(t)[k] == t[k].id;
      }
      UniqueIds(t, k);
      FiledIffFirst(journal, t[k].id);
      var last := LastEntry(journal, t[k].id).value;
      RowRoundTrip(last.task, last.projectId);
    }
  }
}
