/** Sessions one after another on one database: that a restart succeeds, and with what. */
module Restart {
  import opened Wrappers
  import opened Domain
  import opened Protocol
  import opened Session
  import opened Storage
  import opened TaskStorage
  import Guarantees
  import Durability

  /** Saves of valid projects and tasks, whichever of their statements failed. */
  ghost predicate Sound(saves: seq<Save>) {
    && AllValid(saves)
    && forall i | 0 <= i < |saves| && saves[i].ProjectSave? :: saves[i].project.Valid()
  }

  /** Every stored project can be read. */
  ghost predicate Loadable(db: Database) {
    forall id :: LoadProject(db, id).Success?
  }

  lemma SaveKeepsLoadable(db: Database, p: Project, fault: SaveFault)
    requires Loadable(db) && p.Valid()
    ensures Loadable(SaveProject(db, p, fault).0)
  {
    forall id ensures LoadProject(SaveProject(db, p, fault).0, id).Success? {
      SaveThenLoad(db, p, fault, id);
    }
  }

  lemma SameProjectsLoadable(before: Database, after: Database)
    requires Loadable(before) && after.projects == before.projects
    ensures Loadable(after)
  {
    forall id ensures LoadProject(after, id).Success? {
      assert LoadProject(after, id) == LoadProject(before, id);
    }
  }

  lemma {:induction false} SoundSavesLoad(saves: seq<Save>)
    requires Sound(saves)
    ensures Loadable(After(saves))
  {
    if saves != [] {
      var before, last := saves[..|saves| - 1], saves[|saves| - 1];
      SoundSavesLoad(before);
      if last.ProjectSave? {
        SaveKeepsLoadable(After(before), last.project, last.fault);
      } else {
        SameProjectsLoadable(After(before), After(saves));
      }
    }
  }

  lemma StepKeepsLoadable(s: State, a: Action)
    requires Durability.Inv(s) && s.storage.Some? && Loadable(s.storage.value)
    ensures Step(s, a).storage.Some? && Loadable(Step(s, a).storage.value)
  {
    if Enabled(s, a) && a.FinishOpen? && Durability.Pends(s.ops[a.op]) {
      SaveKeepsLoadable(s.storage.value, s.ops[a.op].phase.result.value, a.fault);
    }
  }

  lemma {:induction false} RunKeepsLoadable(s: State, actions: seq<Action>)
    requires Guarantees.Inv(s) && s.storage.Some? && Loadable(s.storage.value)
    ensures Execute(s, actions).storage.Some? && Loadable(Execute(s, actions).storage.value)
  {
    if actions != [] {
      var before := Execute(s, actions[..|actions| - 1]);
      RunKeepsLoadable(s, actions[..|actions| - 1]);
      assert Durability.Inv(before) by {
        Guarantees.ExecuteKeepsInv(s, actions[..|actions| - 1]);
      }
      StepKeepsLoadable(before, actions[|actions| - 1]);
    }
  }

  lemma LoadableRecovers(db: Database, streamId: StreamId)
    requires Loadable(db) && Readable(db.tasks)
    ensures WithStorage(streamId, Some(db)).Success?
  {
    RecoversProject(db);
  }

  /** The session's task is the active one `db` has for its project. */
  predicate HoldsTaskOf(s: State, db: Database) {
    match s.project
    case None => s.activeTask.None?
    case Some(p) => LoadActiveTask(db, p.id) == Success(s.activeTask)
  }

  /** Recovery takes the active task of the project it recovers, from the tasks table alone. */
  lemma RecoveredTask(db: Database, other: Database, streamId: StreamId)
    requires WithStorage(streamId, Some(db)).Success? && other.tasks == db.tasks
    ensures HoldsTaskOf(WithStorage(streamId, Some(db)).value, other)
  {
    if LoadLastActive(db).value.Some? {
      SameTasksLoad(db, other, LoadLastActive(db).value.value.id);
    }
  }

  lemma SameTasksLoad(db: Database, other: Database, projectId: string)
    requires other.tasks == db.tasks
    ensures LoadActiveTask(db, projectId) == LoadActiveTask(other, projectId)
  {
  }

  // ---- Sessions one after another ----

  /** One session: its stream, and what it did until it was stopped. */
  datatype Life = Life(streamId: StreamId, actions: seq<Action>)

  /** What a database is to the next session: readable, with the task rows of the first. */
  ghost predicate Restartable(db: Database, first: Database) {
    Loadable(db) && Readable(db.tasks) && db.tasks == first.tasks
  }

  /** The database after the sessions of `lives`, each on what its predecessor left; None if one failed. */
  ghost function Left(db: Database, lives: seq<Life>): Option<Database> {
    if lives == [] then Some(db)
    else
      var before, last := Left(db, lives[..|lives| - 1]), lives[|lives| - 1];
      if before.None? || WithStorage(last.streamId, before).Failure? then None
      else Execute(WithStorage(last.streamId, before).value, last.actions).storage
  }

  /** The state the last session of `lives` was stopped in. */
  ghost function Stopped(db: Database, lives: seq<Life>): Option<State> {
    if lives == [] then None
    else
      var before, last := Left(db, lives[..|lives| - 1]), lives[|lives| - 1];
      if before.None? || WithStorage(last.streamId, before).Failure? then None
      else Some(Execute(WithStorage(last.streamId, before).value, last.actions))
  }

  /** One session on a restartable database leaves a restartable one. */
  lemma LifeKeepsRestartable(db: Database, first: Database, life: Life)
    requires Restartable(db, first)
    ensures WithStorage(life.streamId, Some(db)).Success?
    ensures
      var s := Execute(WithStorage(life.streamId, Some(db)).value, life.actions);
      Guarantees.Reachable(s) && s.storage.Some? && Restartable(s.storage.value, first)
  {
    LoadableRecovers(db, life.streamId);
    var start := WithStorage(life.streamId, Some(db)).value;
    assert Guarantees.Inv(start) by {
      Guarantees.StartHolds(life.streamId, Some(db));
    }
    RunKeepsLoadable(start, life.actions);
    Guarantees.TasksUntouched(start, life.actions);
  }

  lemma {:induction false} LivesKeepRestartable(db: Database, lives: seq<Life>)
    requires Restartable(db, db)
    ensures Left(db, lives).Some? && Restartable(Left(db, lives).value, db)
    ensures lives != [] ==>
              && Stopped(db, lives).Some? && Guarantees.Reachable(Stopped(db, lives).value)
              && Stopped(db, lives).value.storage == Left(db, lives)
  {
    if lives != [] {
      LivesKeepRestartable(db, lives[..|lives| - 1]);
      LifeKeepsRestartable(Left(db, lives[..|lives| - 1]).value, db, lives[|lives| - 1]);
    }
  }

  /** The session takes up the project its predecessor published, unless one went unpublished. */
  ghost predicate TakesUp(next: State, last: State) {
    next.project == last.project <==> !last.unpublished
  }

  lemma NextSession(s: State, first: Database, nextId: StreamId)
    requires Guarantees.Reachable(s) && s.storage.Some? && Restartable(s.storage.value, first)
    ensures WithStorage(nextId, s.storage).Success?
    ensures TakesUp(WithStorage(nextId, s.storage).value, s)
    ensures HoldsTaskOf(WithStorage(nextId, s.storage).value, first)
  {
    LoadableRecovers(s.storage.value, nextId);
    Guarantees.RestartRecovers(s, nextId);
    RecoveredTask(s.storage.value, first, nextId);
  }

  /**
    On a database made by any valid saves, any number of sessions one after another start, whatever
    each of them did and whichever statements failed, and so does the next. It publishes what the
    last of them published, exactly as long as no project that one saved went unpublished for want
    of sequence numbers, and holds the active task the saves left for the project it publishes.
   */
  lemma RestartSucceeds(saves: seq<Save>, lives: seq<Life>, nextId: StreamId)
    requires Sound(saves)
    ensures
      var left := Left(After(saves), lives);
      && left.Some? && WithStorage(nextId, left).Success?
      && HoldsTaskOf(WithStorage(nextId, left).value, After(saves))
      && (lives != [] ==>
            && Stopped(After(saves), lives).Some?
            && TakesUp(WithStorage(nextId, left).value, Stopped(After(saves), lives).value))
  {
    var db := After(saves);
    SoundSavesLoad(saves);
    SavedTasksAreReadable(saves);
    LivesKeepRestartable(db, lives);
    if lives == [] {
      LoadableRecovers(db, nextId);
      RecoveredTask(db, db, nextId);
    } else {
      NextSession(Stopped(db, lives).value, db, nextId);
    }
  }
}
