/** Durable state of crates/kesharon-daemon/src/storage.rs, as values. */
module Storage {
  import opened Wrappers
  import opened Domain
  import opened Application
  import opened Tables

  /** `trusted` is the stored integer; any non-zero value reads as true. */
  datatype ProjectCells = ProjectCells(displayName: string, canonicalRoot: string, trusted: i64)

  datatype TaskCells = TaskCells(
    projectId: string,
    goal: string,
    state: TaskState,
    mode: string,
    maxMemory: i64,
    maxDisk: i64,
    maxTools: i64,
    maxPrompt: Option<i64>,
    maxCompletion: Option<i64>,
    maxCost: Option<i64>,
    isActive: i64)

  /** `lastActive` is the one row of session_metadata that is ever written. */
  datatype Database = Database(
    projects: Table<ProjectCells>, tasks: Table<TaskCells>, lastActive: Option<string>)

  const EMPTY := Database([], [], None)

  /** Which of the two statements of `save_project` fails, and how. */
  datatype SaveFault = NoFault | FirstFails(message: string) | SecondFails(message: string)

  function CellsOf(p: Project): ProjectCells {
    ProjectCells(p.displayName, p.canonicalRoot, if p.trusted then 1 else 0)
  }

  /** Two statements, no transaction: a failure of the second leaves the first in place. */
  function SaveProject(db: Database, p: Project, fault: SaveFault)
    : (Database, Result<(), ApplicationError>)
  {
    if fault.FirstFails? then (db, Failure(ApplicationError.Storage(fault.message)))
    else
      var inserted := db.(projects := Upsert(db.projects, p.id, CellsOf(p)));
      if fault.SecondFails? then (inserted, Failure(ApplicationError.Storage(fault.message)))
      else (inserted.(lastActive := Some(p.id)), Success(()))
  }

  function LoadProject(db: Database, id: string): Result<Option<Project>, ApplicationError> {
    match Find(db.projects, id)
    case None => Success(None)
    case Some(cells) =>
      match NewProject(id, cells.displayName, cells.canonicalRoot, cells.trusted != 0)
      case Success(p) => Success(Some(p))
      case Failure(e) => Failure(InvalidProject(e))
  }

  function LoadLastActive(db: Database): Result<Option<Project>, ApplicationError> {
    match db.lastActive
    case None => Success(None)
    case Some(id) => LoadProject(db, id)
  }

  predicate Known(db: Database, id: string) {
    Find(db.projects, id).Some?
  }

  /** A saved project is read back as it was, and nothing else a reader can ask for changes. */
  lemma SaveThenLoad(db: Database, p: Project, fault: SaveFault, id: string)
    requires p.Valid()
    ensures
      var (after, saved) := SaveProject(db, p, fault);
      && (saved.Success? <==> fault.NoFault?)
      && LoadProject(after, id)
         == (if id == p.id && !fault.FirstFails? then Success(Some(p)) else LoadProject(db, id))
      && (Known(after, id) <==> Known(db, id) || (id == p.id && !fault.FirstFails?))
  {
    UpsertThenFind(db.projects, p.id, CellsOf(p), id);
  }

  /** What a save writes to the row of a project, and what any row, whoever wrote it, is read as. */
  lemma ProjectRows(db: Database, p: Project, fault: SaveFault, id: string, cells: ProjectCells)
    requires !fault.FirstFails?
    ensures
      var row := Find(SaveProject(db, p, fault).0.projects, p.id);
      && row.Some? && row.value.displayName == p.displayName && row.value.canonicalRoot == p.canonicalRoot
      && row.value.trusted == (if p.trusted then 1 else 0)
    ensures Find(db.projects, id) == Some(cells) ==>
              var read := LoadProject(db, id);
              && (read.Success? <==> !IsBlank(id) && !IsBlank(cells.displayName) && !IsBlank(cells.canonicalRoot))
              && (read.Success? ==>
                    && read.value.Some? && read.value.value.id == id
                    && read.value.value.displayName == cells.displayName
                    && read.value.value.canonicalRoot == cells.canonicalRoot
                    && (read.value.value.trusted <==> cells.trusted != 0))
  {
    UpsertThenFind(db.projects, p.id, CellsOf(p), p.id);
  }

  /**
    Exactly when a failing save leaves the recovered project alone: unless its second statement
    fails and its ID is the very one recovery would read, with other contents.
   */
  lemma FailedSaveKeepsLastActive(db: Database, p: Project, fault: SaveFault)
    requires p.Valid() && !fault.NoFault?
    ensures
      LoadLastActive(SaveProject(db, p, fault).0) == LoadLastActive(db)
      <==> fault.FirstFails? || db.lastActive != Some(p.id) || LoadProject(db, p.id) == Success(Some(p))
  {
    SaveThenLoad(db, p, fault, p.id);
    if db.lastActive.Some? {
      SaveThenLoad(db, p, fault, db.lastActive.value);
    }
  }
}
