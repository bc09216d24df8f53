/**
  What an open comes to: from what its own three unlocked steps saw to the event it ends with, the
  answer it is given and what is saved, field by field and over any interleaving.
 */
module Outcomes {
  import opened Wrappers
  import opened Domain
  import opened Protocol
  import opened Application
  import opened Session
  import Running
  import Storage
  import Tables

  // ---- Only its own steps move an open ----

  function Rank(p: Phase): nat {
    match p
    case Begun => 0
    case Inspecting => 1
    case Inspected(_) => 2
    case Ready(_) => 3
    case Finished(_, _, _) => 4
  }

  /** The same open, as far or farther on; as far, then with the same to show for it. */
  predicate Later(op: Operation, next: Operation) {
    && next.requestId == op.requestId && next.key == op.key && next.path == op.path
    && Rank(op.phase) <= Rank(next.phase)
    && (Rank(op.phase) == Rank(next.phase) ==> op.phase == next.phase)
  }

  lemma BeginMovesOn(s: State, r: OpenRequest, i: nat)
    requires i < |s.ops|
    ensures i < |Begin(s, r).0.ops| && Begin(s, r).0.ops[i] == s.ops[i]
  {
    Running.BeginCases(s, r);
  }

  lemma CancelMovesOn(s: State, r: CancelRequest, i: nat)
    requires i < |s.ops|
    ensures i < |Cancel(s, r).0.ops|
    ensures Cancel(s, r).0.ops[i] == s.ops[i].(cancelledBy := Cancel(s, r).0.ops[i].cancelledBy)
  {
  }

  lemma FinishMovesOn(s: State, j: nat, fault: Storage.SaveFault, i: nat)
    requires i < |s.ops| && j < |s.ops| && s.ops[j].phase.Ready?
    ensures i < |Finish(s, j, fault).0.ops| && Later(s.ops[i], Finish(s, j, fault).0.ops[i])
  {
  }

  lemma UnlockedMovesOn(s: State, a: Action, i: nat)
    requires i < |s.ops| && (a.CheckBefore? || a.InspectPath? || a.CheckAfter?)
    ensures i < |Step(s, a).ops| && Later(s.ops[i], Step(s, a).ops[i])
  {
  }

  lemma StepMovesOn(s: State, a: Action, i: nat)
    requires i < |s.ops|
    ensures i < |Step(s, a).ops| && Later(s.ops[i], Step(s, a).ops[i])
  {
    if a.BeginOpen? {
      BeginMovesOn(s, a.open, i);
    } else if a.CancelOpen? {
      CancelMovesOn(s, a.cancel, i);
    } else if a.FinishOpen? {
      if Enabled(s, a) {
        FinishMovesOn(s, a.op, a.fault, i);
      }
    } else if a.CheckBefore? || a.InspectPath? || a.CheckAfter? {
      UnlockedMovesOn(s, a, i);
    } else {
      assert Step(s, a).ops == s.ops;
    }
  }

  lemma OneStep(s: State, actions: seq<Action>, n: nat)
    requires n < |actions|
    ensures Execute(s, actions[..n + 1]) == Step(Execute(s, actions[..n]), actions[n])
  {
    assert actions[..n + 1][..n] == actions[..n];
  }

  lemma NextMovesOn(s: State, actions: seq<Action>, n: nat, i: nat)
    requires n < |actions| && i < |Execute(s, actions[..n]).ops|
    ensures i < |Execute(s, actions[..n + 1]).ops|
    ensures Later(Execute(s, actions[..n]).ops[i], Execute(s, actions[..n + 1]).ops[i])
  {
    StepMovesOn(Execute(s, actions[..n]), actions[n], i);
    OneStep(s, actions, n);
  }

  /** Operation `i` has come, at moment `n`, as far as `op` or farther. */
  ghost predicate LaterAt(op: Operation, s: State, actions: seq<Action>, n: nat, i: nat)
    requires n <= |actions|
  {
    i < |Execute(s, actions[..n]).ops| && Later(op, Execute(s, actions[..n]).ops[i])
  }

  lemma LaterChains(op: Operation, mid: Operation, last: Operation)
    requires Later(op, mid) && Later(mid, last)
    ensures Later(op, last)
  {
  }

  lemma LaterNext(op: Operation, s: State, actions: seq<Action>, n: nat, i: nat)
    requires n < |actions| && LaterAt(op, s, actions, n, i)
    ensures LaterAt(op, s, actions, n + 1, i)
  {
    NextMovesOn(s, actions, n, i);
    LaterChains(op, Execute(s, actions[..n]).ops[i], Execute(s, actions[..n + 1]).ops[i]);
  }

  lemma {:induction false} StaysLater(op: Operation, s: State, actions: seq<Action>, m: nat, n: nat, i: nat)
    requires m <= n <= |actions| && LaterAt(op, s, actions, m, i)
    ensures LaterAt(op, s, actions, n, i)
    decreases n - m
  {
    if m < n {
      LaterNext(op, s, actions, m, i);
      StaysLater(op, s, actions, m + 1, n, i);
    }
  }

  lemma RunMovesOn(s: State, actions: seq<Action>, m: nat, n: nat, i: nat)
    requires m <= n <= |actions| && i < |Execute(s, actions[..m]).ops|
    ensures LaterAt(Execute(s, actions[..m]).ops[i], s, actions, n, i)
  {
    StaysLater(Execute(s, actions[..m]).ops[i], s, actions, m, n, i);
  }

  /** Action `n` of the run is `a`, and it can happen. */
  ghost predicate Takes(s: State, actions: seq<Action>, n: nat, a: Action) {
    n < |actions| && actions[n] == a && Enabled(Execute(s, actions[..n]), a)
  }

  /** The flag of the open at that moment. */
  ghost predicate FlagUp(s: State, actions: seq<Action>, n: nat, i: nat)
    requires n <= |actions| && i < |Execute(s, actions[..n]).ops|
  {
    Execute(s, actions[..n]).ops[i].cancelledBy.Some?
  }

  lemma Taken(s: State, actions: seq<Action>, n: nat, a: Action)
    requires Takes(s, actions, n, a)
    ensures Execute(s, actions[..n + 1]) == Step(Execute(s, actions[..n]), a)
  {
    OneStep(s, actions, n);
  }

  // ---- What the unlocked part leaves to the second section ----

  /** No text of it is blank: the identifier, the name and the root are those of a project. */
  predicate Nameable(nextId: string, found: Inspection) {
    !IsBlank(nextId) && !IsBlank(found.displayName) && !IsBlank(found.canonicalRoot)
  }

  /** The flag was up at the first look. */
  lemma CancelledAtOnce(s: State, actions: seq<Action>, i: nat, first: nat, last: nat)
    requires Takes(s, actions, first, CheckBefore(i)) && first < last <= |actions|
    requires FlagUp(s, actions, first, i)
    requires i < |Execute(s, actions[..last]).ops| && Execute(s, actions[..last]).ops[i].Running()
    ensures Execute(s, actions[..last]).ops[i].phase == Ready(Failure(Cancelled))
  {
    Taken(s, actions, first, CheckBefore(i));
    RunMovesOn(s, actions, first + 1, last, i);
  }

  /** The flag was down at the first look: the repository is asked, and nothing decided yet. */
  lemma LetThrough(s: State, actions: seq<Action>, i: nat, first: nat)
    requires Takes(s, actions, first, CheckBefore(i)) && !FlagUp(s, actions, first, i)
    ensures i < |Execute(s, actions[..first + 1]).ops|
    ensures Execute(s, actions[..first + 1]).ops[i].phase == Inspecting
  {
    Taken(s, actions, first, CheckBefore(i));
  }

  /** The repository refused. */
  lemma Refused(s: State, actions: seq<Action>, i: nat, inspect: nat, message: string, last: nat)
    requires Takes(s, actions, inspect, InspectPath(i, Failure(message))) && inspect < last <= |actions|
    requires i < |Execute(s, actions[..last]).ops| && Execute(s, actions[..last]).ops[i].Running()
    ensures Execute(s, actions[..last]).ops[i].phase == Ready(Failure(Repository(message)))
  {
    Taken(s, actions, inspect, InspectPath(i, Failure(message)));
    RunMovesOn(s, actions, inspect + 1, last, i);
  }

  /** What the repository found is what the second look works on. */
  lemma FindingKept(s: State, actions: seq<Action>, i: nat, inspect: nat, found: Inspection, check: nat, nextId: string)
    requires Takes(s, actions, inspect, InspectPath(i, Success(found)))
    requires Takes(s, actions, check, CheckAfter(i, nextId)) && inspect < check
    ensures
      var op := Execute(s, actions[..check]).ops[i];
      && op.phase.Inspected?
      && op.phase.found.displayName == found.displayName
      && op.phase.found.canonicalRoot == found.canonicalRoot
  {
    Taken(s, actions, inspect, InspectPath(i, Success(found)));
    RunMovesOn(s, actions, inspect + 1, check, i);
  }

  /** The result of the second look: cancelled, refused for a blank text, or that very project. */
  ghost predicate Settled(result: Result<Project, ApplicationError>, up: bool, found: Inspection, nextId: string) {
    match result
    case Success(p) =>
      && !up && Nameable(nextId, found)
      && p.id == nextId && p.displayName == found.displayName
      && p.canonicalRoot == found.canonicalRoot && !p.trusted
    case Failure(e) =>
      if up then e == Cancelled else !Nameable(nextId, found) && e.InvalidProject?
  }

  lemma LookSettles(s: State, i: nat, nextId: string, found: Inspection)
    requires i < |s.ops| && s.ops[i].phase.Inspected? && Enabled(s, CheckAfter(i, nextId))
    requires s.ops[i].phase.found.displayName == found.displayName
    requires s.ops[i].phase.found.canonicalRoot == found.canonicalRoot
    ensures
      var phase := Step(s, CheckAfter(i, nextId)).ops[i].phase;
      phase.Ready? && Settled(phase.result, s.ops[i].cancelledBy.Some?, found, nextId)
  {
  }

  lemma StaysReady(
    s: State, actions: seq<Action>, i: nat, m: nat, n: nat, up: bool, found: Inspection, nextId: string)
    requires m <= n <= |actions| && i < |Execute(s, actions[..m]).ops|
    requires Execute(s, actions[..m]).ops[i].phase.Ready?
    requires Settled(Execute(s, actions[..m]).ops[i].phase.result, up, found, nextId)
    requires i < |Execute(s, actions[..n]).ops| && Execute(s, actions[..n]).ops[i].Running()
    ensures Execute(s, actions[..n]).ops[i].phase == Execute(s, actions[..m]).ops[i].phase
  {
    RunMovesOn(s, actions, m, n, i);
  }

  lemma LookedTwice(
    s: State, actions: seq<Action>, i: nat,
    inspect: nat, found: Inspection, check: nat, nextId: string, last: nat)
    requires Takes(s, actions, inspect, InspectPath(i, Success(found)))
    requires Takes(s, actions, check, CheckAfter(i, nextId)) && inspect < check < last <= |actions|
    requires i < |Execute(s, actions[..last]).ops| && Execute(s, actions[..last]).ops[i].Running()
    ensures
      var phase := Execute(s, actions[..last]).ops[i].phase;
      phase.Ready? && Settled(phase.result, FlagUp(s, actions, check, i), found, nextId)
  {
    FindingKept(s, actions, i, inspect, found, check, nextId);
    LookSettles(Execute(s, actions[..check]), i, nextId, found);
    Taken(s, actions, check, CheckAfter(i, nextId));
    StaysReady(s, actions, i, check + 1, last, FlagUp(s, actions, check, i), found, nextId);
  }

  // ---- What the second section makes of it ----

  /** The one event, the answer, the project shown and what is saved, when the open ends. */
  datatype Ending = Ending(
    event: EventPayload, answer: ServerResponse, project: Option<ProjectSnapshot>)

  function Failed(id: RequestId, code: ErrorCode, message: string, shown: Option<ProjectSnapshot>): Ending {
    Ending(OperationFailed(id, code, message), Err(id, code, message), shown)
  }

  /** Step `s` to `t` ended operation `i` so. */
  ghost predicate Ends(s: State, t: State, i: nat, ending: Ending)
    requires i < |s.ops|
  {
    && |t.ops| == |s.ops| && t.ops[i].phase.Finished? && t.ops[i].phase.response == ending.answer
    && t.stream.log == s.stream.log + [ending.event]
    && t.project == ending.project
  }

  /** Nothing is saved of an open that failed or was cancelled. */
  lemma FailureEnds(s: State, i: nat, fault: Storage.SaveFault, e: ApplicationError)
    requires i < |s.ops| && s.ops[i].phase == Ready(Failure(e)) && s.stream.sequence < U64_MAX
    ensures Finish(s, i, fault).0.storage == s.storage
    ensures
      var id, t := s.ops[i].requestId, Finish(s, i, fault).0;
      match e
      case Cancelled =>
        Ends(s, t, i, Ending(EventPayload.OperationCancelled(id),
                             Err(id, ErrorCode.OperationCancelled, "Project opening was cancelled"), s.project))
      case Repository(message) =>
        if message == "notGitRepository"
        then Ends(s, t, i, Failed(id, NotGitRepository, "Selected directory is not a Git worktree", s.project))
        else Ends(s, t, i, Failed(id, ProjectPathUnavailable, "Selected directory could not be opened", s.project))
      case InvalidProject(_) =>
        Ends(s, t, i, Failed(id, InvalidRequest, "Project identity is invalid", s.project))
      case Storage(_) =>
        Ends(s, t, i, Failed(id, InternalError, "Storage error encountered", s.project))
  {
  }

  /** What the database holds under the ID of a project that was saved. */
  ghost predicate Saved(storage: Option<Storage.Database>, p: Project) {
    storage.Some? ==>
      && storage.value.lastActive == Some(p.id)
      && Storage.LoadProject(storage.value, p.id) == Success(Some(p))
  }

  /** A project is saved, then told with its own four fields; a failing statement is told instead. */
  lemma SuccessEnds(s: State, i: nat, fault: Storage.SaveFault, p: Project)
    requires i < |s.ops| && s.ops[i].phase == Ready(Success(p)) && s.stream.sequence < U64_MAX
    requires p.Valid()
    ensures
      var id, t := s.ops[i].requestId, Finish(s, i, fault).0;
      var told := ProjectSnapshot(p.id, p.displayName, p.canonicalRoot, p.trusted);
      if s.storage.Some? && !fault.NoFault?
      then Ends(s, t, i, Failed(id, InternalError, "Storage error encountered", s.project))
      else Ends(s, t, i, Ending(EventPayload.ProjectOpened(id, told),
                                Ok(id, ResponsePayload.ProjectOpened(told)), Some(told)))
           && Saved(t.storage, p)
  {
    if s.storage.Some? {
      Storage.SaveThenLoad(s.storage.value, p, fault, p.id);
    }
  }

  // ---- The whole course of an open ----

  /** The answer of the second section, given what the steps before it saw. */
  ghost predicate EndsAsFound(
    s: State, t: State, i: nat, fault: Storage.SaveFault, up: bool, found: Inspection, nextId: string)
    requires i < |s.ops|
  {
    var id := s.ops[i].requestId;
    var told := ProjectSnapshot(nextId, found.displayName, found.canonicalRoot, false);
    if up
    then Ends(s, t, i, Ending(EventPayload.OperationCancelled(id),
                              Err(id, ErrorCode.OperationCancelled, "Project opening was cancelled"), s.project))
    else if !Nameable(nextId, found)
    then Ends(s, t, i, Failed(id, InvalidRequest, "Project identity is invalid", s.project))
    else if s.storage.Some? && !fault.NoFault?
    then Ends(s, t, i, Failed(id, InternalError, "Storage error encountered", s.project))
    else
      && Ends(s, t, i, Ending(EventPayload.ProjectOpened(id, told),
                              Ok(id, ResponsePayload.ProjectOpened(told)), Some(told)))
      && Saved(t.storage, Project(nextId, found.displayName, found.canonicalRoot, false))
  }

  lemma SettledEnds(
    s: State, i: nat, fault: Storage.SaveFault, up: bool, found: Inspection, nextId: string)
    requires i < |s.ops| && s.ops[i].phase.Ready? && s.stream.sequence < U64_MAX
    requires Settled(s.ops[i].phase.result, up, found, nextId)
    ensures EndsAsFound(s, Finish(s, i, fault).0, i, fault, up, found, nextId)
  {
    match s.ops[i].phase.result
    case Success(p) => SuccessEnds(s, i, fault, p);
    case Failure(e) => FailureEnds(s, i, fault, e);
  }

  /**
    In any run, an open whose repository found a directory ends by what its own second look at the
    flag saw and by what was found: cancelled, refused for a blank text, failed for a statement that
    failed, or with the project of the given identifier and the found name and root, untrusted.
   */
  lemma FoundOpenEnds(
    s: State, actions: seq<Action>, i: nat, inspect: nat, found: Inspection,
    check: nat, nextId: string, finish: nat, fault: Storage.SaveFault)
    requires Takes(s, actions, inspect, InspectPath(i, Success(found)))
    requires Takes(s, actions, check, CheckAfter(i, nextId))
    requires Takes(s, actions, finish, FinishOpen(i, fault))
    requires inspect < check < finish && Execute(s, actions[..finish]).stream.sequence < U64_MAX
    ensures EndsAsFound(Execute(s, actions[..finish]), Execute(s, actions[..finish + 1]), i, fault,
                        FlagUp(s, actions, check, i), found, nextId)
  {
    LookedTwice(s, actions, i, inspect, found, check, nextId, finish);
    SettledEnds(Execute(s, actions[..finish]), i, fault, FlagUp(s, actions, check, i), found, nextId);
    Taken(s, actions, finish, FinishOpen(i, fault));
  }

  /** One the repository refused ends by the refusal, and saves nothing. */
  lemma RefusedOpenEnds(
    s: State, actions: seq<Action>, i: nat, inspect: nat, message: string, finish: nat, fault: Storage.SaveFault)
    requires Takes(s, actions, inspect, InspectPath(i, Failure(message)))
    requires Takes(s, actions, finish, FinishOpen(i, fault))
    requires inspect < finish && Execute(s, actions[..finish]).stream.sequence < U64_MAX
    ensures
      var before, after := Execute(s, actions[..finish]), Execute(s, actions[..finish + 1]);
      var id := before.ops[i].requestId;
      && after.storage == before.storage
      && Ends(before, after, i,
              if message == "notGitRepository"
              then Failed(id, NotGitRepository, "Selected directory is not a Git worktree", before.project)
              else Failed(id, ProjectPathUnavailable, "Selected directory could not be opened", before.project))
  {
    Refused(s, actions, i, inspect, message, finish);
    FailureEnds(Execute(s, actions[..finish]), i, fault, Repository(message));
    Taken(s, actions, finish, FinishOpen(i, fault));
  }

  /** One that found its flag up at once ends cancelled, and saves nothing. */
  lemma CancelledOpenEnds(
    s: State, actions: seq<Action>, i: nat, first: nat, finish: nat, fault: Storage.SaveFault)
    requires Takes(s, actions, first, CheckBefore(i)) && FlagUp(s, actions, first, i)
    requires Takes(s, actions, finish, FinishOpen(i, fault))
    requires first < finish && Execute(s, actions[..finish]).stream.sequence < U64_MAX
    ensures
      var before, after := Execute(s, actions[..finish]), Execute(s, actions[..finish + 1]);
      var id := before.ops[i].requestId;
      && after.storage == before.storage
      && Ends(before, after, i,
              Ending(EventPayload.OperationCancelled(id),
                     Err(id, ErrorCode.OperationCancelled, "Project opening was cancelled"), before.project))
  {
    CancelledAtOnce(s, actions, i, first, finish);
    FailureEnds(Execute(s, actions[..finish]), i, fault, Cancelled);
    Taken(s, actions, finish, FinishOpen(i, fault));
  }

  /** With no sequence number left there is no event, and the answer does not say how it ended. */
  lemma ExhaustedEnds(s: State, i: nat, fault: Storage.SaveFault)
    requires i < |s.ops| && s.ops[i].phase.Ready? && s.stream.sequence >= U64_MAX
    ensures
      var t := Finish(s, i, fault).0;
      && t.stream == s.stream && t.project == s.project && t.ops[i].phase.Finished?
      && t.ops[i].phase.response
         == Err(s.ops[i].requestId, InternalError, "Daemon session state is unavailable")
  {
  }

  // ---- Every open takes one of these courses ----

  /** The first look at the flag, and what it saw. */
  ghost predicate LookedAt(s: State, actions: seq<Action>, i: nat, first: nat, up: bool) {
    Takes(s, actions, first, CheckBefore(i)) && FlagUp(s, actions, first, i) == up
  }

  /** The repository's answer, after a first look that saw the flag down. */
  ghost predicate AnsweredAt(s: State, actions: seq<Action>, i: nat, inspect: nat, answer: InspectionResult) {
    && Takes(s, actions, inspect, InspectPath(i, answer))
    && exists first: nat | first < inspect :: LookedAt(s, actions, i, first, false)
  }

  /** The second look, after the repository found a directory. */
  ghost predicate CheckedAt(s: State, actions: seq<Action>, i: nat, check: nat, nextId: string) {
    && Takes(s, actions, check, CheckAfter(i, nextId))
    && exists inspect: nat, found | inspect < check :: AnsweredAt(s, actions, i, inspect, Success(found))
  }

  /** What, before action `n`, brought an open to the phase it is in. */
  ghost predicate Explained(s: State, actions: seq<Action>, i: nat, n: nat, phase: Phase) {
    match phase
    case Begun => true
    case Inspecting => exists first: nat | first < n :: LookedAt(s, actions, i, first, false)
    case Inspected(found) => exists inspect: nat | inspect < n :: AnsweredAt(s, actions, i, inspect, Success(found))
    case Ready(_) =>
      || (exists first: nat | first < n :: LookedAt(s, actions, i, first, true))
      || (exists inspect: nat, message | inspect < n :: AnsweredAt(s, actions, i, inspect, Failure(message)))
      || (exists check: nat, nextId | check < n :: CheckedAt(s, actions, i, check, nextId))
    case Finished(_, _, _) => true
  }

  /** A step that changes the phase of an open that is not ready is one of its own three. */
  lemma OwnSteps(s: State, a: Action, i: nat)
    requires i < |Step(s, a).ops|
    requires i < |s.ops| ==> Step(s, a).ops[i].phase != s.ops[i].phase
    ensures
      var phase := Step(s, a).ops[i].phase;
      || phase.Begun? || phase.Finished?
      || (i < |s.ops| && Enabled(s, a) && s.ops[i].phase.Begun? && a == CheckBefore(i)
          && (if s.ops[i].cancelledBy.Some? then phase.Ready? else phase.Inspecting?))
      || (i < |s.ops| && Enabled(s, a) && s.ops[i].phase.Inspecting? && a.InspectPath? && a.op == i
          && (if a.found.Success? then phase == Inspected(a.found.value) else phase.Ready?))
      || (i < |s.ops| && Enabled(s, a) && s.ops[i].phase.Inspected? && a.CheckAfter? && a.op == i && phase.Ready?)
  {
    if a.BeginOpen? {
      Running.BeginCases(s, a.open);
    }
  }

  lemma ExplainedLonger(s: State, actions: seq<Action>, i: nat, n: nat, phase: Phase)
    requires Explained(s, actions, i, n, phase)
    ensures Explained(s, actions, i, n + 1, phase)
  {
  }

  lemma ExplainedNext(s: State, actions: seq<Action>, i: nat, n: nat)
    requires n < |actions| && i < |Execute(s, actions[..n]).ops|
    requires Explained(s, actions, i, n, Execute(s, actions[..n]).ops[i].phase)
    requires i < |Step(Execute(s, actions[..n]), actions[n]).ops|
    requires Step(Execute(s, actions[..n]), actions[n]).ops[i].phase != Execute(s, actions[..n]).ops[i].phase
    ensures Explained(s, actions, i, n + 1, Step(Execute(s, actions[..n]), actions[n]).ops[i].phase)
  {
    var before, a := Execute(s, actions[..n]), actions[n];
    OwnSteps(before, a, i);
    if a == CheckBefore(i) && Enabled(before, a) {
      assert LookedAt(s, actions, i, n, before.ops[i].cancelledBy.Some?);
    } else if a.InspectPath? && a.op == i && Enabled(before, a) {
      assert AnsweredAt(s, actions, i, n, a.found);
      if a.found.Failure? {
        assert AnsweredAt(s, actions, i, n, Failure(a.found.error));
      }
    } else if a.CheckAfter? && a.op == i && Enabled(before, a) {
      assert CheckedAt(s, actions, i, n, a.nextId);
    }
  }

  lemma NewExplained(s: State, actions: seq<Action>, i: nat, n: nat, before: State, a: Action)
    requires |before.ops| <= i < |Step(before, a).ops|
    ensures Explained(s, actions, i, n, Step(before, a).ops[i].phase)
  {
    OwnSteps(before, a, i);
  }

  ghost predicate ExplainedAt(s: State, actions: seq<Action>, i: nat, n: nat) {
    n <= |actions| && i < |Execute(s, actions[..n]).ops|
    ==> Explained(s, actions, i, n, Execute(s, actions[..n]).ops[i].phase)
  }

  lemma StepExplained(s: State, actions: seq<Action>, i: nat, n: nat)
    requires n < |actions| && ExplainedAt(s, actions, i, n)
    requires i < |Step(Execute(s, actions[..n]), actions[n]).ops|
    ensures Explained(s, actions, i, n + 1, Step(Execute(s, actions[..n]), actions[n]).ops[i].phase)
  {
    var before := Execute(s, actions[..n]);
    if i >= |before.ops| {
      NewExplained(s, actions, i, n + 1, before, actions[n]);
    } else if Step(before, actions[n]).ops[i].phase == before.ops[i].phase {
      ExplainedLonger(s, actions, i, n, before.ops[i].phase);
    } else {
      ExplainedNext(s, actions, i, n);
    }
  }

  /**
    In any run, an open that is ready to end has taken one of three courses: its first look saw the
    flag up; or it saw it down and the repository refused; or it saw it down, the repository found a
    directory, and there was a second look.
   */
  lemma {:induction false} EveryCourse(s: State, actions: seq<Action>, i: nat, n: nat)
    requires s.ops == [] && n <= |actions|
    ensures ExplainedAt(s, actions, i, n)
  {
    if n > 0 && i < |Execute(s, actions[..n]).ops| {
      EveryCourse(s, actions, i, n - 1);
      OneStep(s, actions, n - 1);
      StepExplained(s, actions, i, n - 1);
    }
  }
}
