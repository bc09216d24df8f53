/** The database answers, after any partial failure, the project the session publishes. */
module Durability {
  import opened Wrappers
  import opened Domain
  import opened Protocol
  import opened Application
  import opened Idempotency
  import opened Session
  import opened Storage

  /** Recovery from `db` would publish exactly `project`. */
  predicate Recovers(db: Database, project: Option<ProjectSnapshot>) {
    match LoadLastActive(db)
    case Failure(_) => false
    case Success(None) => project.None?
    case Success(Some(p)) => project == Some(SnapshotOf(p))
  }

  predicate Pends(op: Operation) {
    op.phase.Ready? && op.phase.result.Success?
  }

  /** Projects about to be saved are valid, and no ID among them is used twice or recorded. */
  ghost predicate PendingInv(ops: seq<Operation>, db: Database) {
    && (forall i | 0 <= i < |ops| && Pends(ops[i]) ::
          var p := ops[i].phase.result.value;
          p.Valid() && !Known(db, p.id) && db.lastActive != Some(p.id))
    && (forall i, j | 0 <= i < j < |ops| && Pends(ops[i]) && Pends(ops[j]) ::
          ops[i].phase.result.value.id != ops[j].phase.result.value.id)
  }

  /** The agreement, and what keeps it broken once a saved project could not be published. */
  ghost predicate AgreementInv(s: State, db: Database) {
    && (s.project.Some? ==> Known(db, s.project.value.id))
    && (if s.unpublished
        then db.lastActive.Some? && Known(db, db.lastActive.value)
             && (s.project.Some? ==> s.project.value.id != db.lastActive.value)
             && s.stream.sequence >= U64_MAX
        else Recovers(db, s.project))
  }

  ghost predicate Inv(s: State) {
    s.storage.Some? ==> PendingInv(s.ops, s.storage.value) && AgreementInv(s, s.storage.value)
  }

  lemma LoadedIsKnown(db: Database)
    ensures LoadLastActive(db).Success? && LoadLastActive(db).value.Some? ==>
              db.lastActive == Some(LoadLastActive(db).value.value.id)
              && Known(db, LoadLastActive(db).value.value.id)
  {
  }

  /** A session rebuilt from the database publishes the same project, unless one went unpublished. */
  lemma RecoveryIff(s: State)
    requires Inv(s) && s.storage.Some?
    ensures Recovers(s.storage.value, s.project) <==> !s.unpublished
  {
    LoadedIsKnown(s.storage.value);
  }

  lemma SaveKeepsOthers(db: Database, p: Project, fault: SaveFault, id: string)
    requires p.Valid() && id != p.id
    ensures Known(SaveProject(db, p, fault).0, id) <==> Known(db, id)
    ensures LoadProject(SaveProject(db, p, fault).0, id) == LoadProject(db, id)
  {
    SaveThenLoad(db, p, fault, id);
  }

  lemma SaveKeepsKnown(db: Database, p: Project, fault: SaveFault, id: string)
    requires p.Valid() && Known(db, id)
    ensures Known(SaveProject(db, p, fault).0, id)
  {
    SaveThenLoad(db, p, fault, id);
  }

  lemma FinishKeepsPending(s: State, i: nat, fault: SaveFault)
    requires Inv(s) && s.storage.Some? && i < |s.ops| && s.ops[i].phase.Ready?
    ensures PendingInv(Finish(s, i, fault).0.ops, Finish(s, i, fault).0.storage.value)
  {
    var t := Finish(s, i, fault).0;
    forall j | 0 <= j < |t.ops| && Pends(t.ops[j])
      ensures
        var id := t.ops[j].phase.result.value.id;
        !Known(t.storage.value, id) && t.storage.value.lastActive != Some(id)
    {
      assert t.ops[j] == s.ops[j];
      if Pends(s.ops[i]) {
        SaveKeepsOthers(s.storage.value, s.ops[i].phase.result.value, fault, t.ops[j].phase.result.value.id);
      }
    }
  }

  /** What one save does to the agreement, for a project with a fresh ID. */
  lemma SaveAgreement(db: Database, project: Option<ProjectSnapshot>, p: Project, fault: SaveFault)
    requires p.Valid() && !Known(db, p.id) && db.lastActive != Some(p.id)
    ensures
      var after := SaveProject(db, p, fault).0;
      && (fault.NoFault? ==> after.lastActive == Some(p.id) && Recovers(after, Some(SnapshotOf(p))))
      && (!fault.NoFault? ==> after.lastActive == db.lastActive
                              && (Recovers(after, project) <==> Recovers(db, project)))
  {
    SaveThenLoad(db, p, fault, p.id);
    if db.lastActive.Some? {
      SaveKeepsOthers(db, p, fault, db.lastActive.value);
    }
  }

  lemma FinishKeepsAgreement(s: State, i: nat, fault: SaveFault)
    requires Inv(s) && s.storage.Some? && i < |s.ops| && s.ops[i].phase.Ready?
    ensures AgreementInv(Finish(s, i, fault).0, Finish(s, i, fault).0.storage.value)
  {
    var db := s.storage.value;
    if Pends(s.ops[i]) {
      var p := s.ops[i].phase.result.value;
      SaveAgreement(db, s.project, p, fault);
      SaveThenLoad(db, p, fault, p.id);
      if s.project.Some? {
        SaveKeepsKnown(db, p, fault, s.project.value.id);
      }
      if s.unpublished {
        SaveKeepsKnown(db, p, fault, db.lastActive.value);
      }
    }
  }

  lemma CheckKeepsPending(s: State, i: nat, nextId: string, db: Database)
    requires PendingInv(s.ops, db) && s.storage == Some(db)
    requires i < |s.ops| && s.ops[i].phase.Inspected? && FreshId(s, nextId)
    ensures PendingInv(SecondCheck(s, i, nextId).ops, db)
  {
    var result := SecondCheck(s, i, nextId).ops[i].phase.result;
    assert result.Success? ==> result.value.Valid() && result.value.id == nextId;
  }

  /** The operations about to save are among those that were. */
  ghost predicate NoneNew(before: seq<Operation>, after: seq<Operation>) {
    forall i | 0 <= i < |after| && Pends(after[i]) ::
      i < |before| && after[i].phase == before[i].phase
  }

  lemma NoneNewKeepsPending(before: seq<Operation>, after: seq<Operation>, db: Database)
    requires PendingInv(before, db) && NoneNew(before, after)
    ensures PendingInv(after, db)
  {
  }

  lemma OtherStepsKeepPending(s: State, a: Action, db: Database)
    requires PendingInv(s.ops, db) && s.storage == Some(db) && Enabled(s, a) && !a.FinishOpen?
    ensures PendingInv(Step(s, a).ops, db)
  {
    if a.CheckAfter? {
      CheckKeepsPending(s, a.op, a.nextId, db);
    } else {
      assert NoneNew(s.ops, Step(s, a).ops);
      NoneNewKeepsPending(s.ops, Step(s, a).ops, db);
    }
  }

  lemma OtherStepsKeepAgreement(s: State, a: Action, db: Database)
    requires AgreementInv(s, db) && s.storage == Some(db) && Enabled(s, a) && !a.FinishOpen?
    ensures Step(s, a).storage == Some(db) && AgreementInv(Step(s, a), db)
  {
  }

  lemma OtherStepsKeepInv(s: State, a: Action)
    requires Inv(s) && Enabled(s, a) && !a.FinishOpen?
    ensures Inv(Step(s, a))
  {
    if s.storage.Some? {
      OtherStepsKeepPending(s, a, s.storage.value);
      OtherStepsKeepAgreement(s, a, s.storage.value);
    }
  }

  lemma StepKeepsInv(s: State, a: Action)
    requires Inv(s)
    ensures Inv(Step(s, a))
  {
    if Enabled(s, a) {
      if a.FinishOpen? {
        if s.storage.Some? {
          FinishKeepsPending(s, a.op, a.fault);
          FinishKeepsAgreement(s, a.op, a.fault);
        }
      } else {
        OtherStepsKeepInv(s, a);
      }
    }
  }
}
