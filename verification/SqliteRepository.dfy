/** `SqliteStateRepository`: the tables of one connection, changed in place by each statement. */
module SqliteRepository {
  import opened Wrappers
  import opened Domain
  import opened Application
  import Storage
  import Tables
  import TaskStorage

  class SqliteStateRepository {
    var database: Storage.Database

    constructor (database: Storage.Database)
      ensures this.database == database
    {
      this.database := database;
    }

    /** Two statements, either of which may fail. */
    method SaveProject(p: Project, fault: Storage.SaveFault) returns (saved: Result<(), ApplicationError>)
      modifies this
      ensures (database, saved) == Storage.SaveProject(old(database), p, fault)
    {
      if fault.FirstFails? {
        return Failure(ApplicationError.Storage(fault.message));
      }
      database := database.(projects := Tables.Upsert(database.projects, p.id, Storage.CellsOf(p)));
      if fault.SecondFails? {
        return Failure(ApplicationError.Storage(fault.message));
      }
      database := database.(lastActive := Some(p.id));
      return Success(());
    }

    /** The project a task belongs to: its own, else the last active one, else the newest. */
    method ProjectFor(id: string) returns (owner: Option<string>)
      ensures owner == TaskStorage.OwnerOf(database, id)
    {
      var existing := Tables.Find(database.tasks, id);
      if existing.Some? {
        return Some(existing.value.projectId);
      }
      if database.lastActive.Some? {
        return database.lastActive;
      }
      if database.projects == [] {
        return None;
      }
      return Some(database.projects[|database.projects| - 1].id);
    }

    /** One statement, which an out-of-range ceiling or a missing project keeps from running. */
    method SaveTask(t: TaskValue) returns (saved: Result<(), ApplicationError>)
      modifies this
      ensures (database, saved) == TaskStorage.SaveTask(old(database), t)
      ensures saved.Failure? ==> database == old(database)
    {
      var owner := ProjectFor(t.id);
      if owner.None? {
        return Failure(ApplicationError.Storage("Cannot save task without an associated project"));
      }
      if !TaskStorage.Fits(t.budget) {
        return Failure(ApplicationError.Storage("out of range"));
      }
      if Tables.Find(database.tasks, t.id).None? && !Storage.Known(database, owner.value) {
        return Failure(ApplicationError.Storage("FOREIGN KEY constraint failed"));
      }
      database := database.(
        tasks := Tables.Upsert(database.tasks, t.id, TaskStorage.CellsOfTask(t, owner.value)));
      return Success(());
    }
  }
}
