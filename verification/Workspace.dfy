/** The desktop's own replica: the reducer and stream handler of apps/desktop/src/useWorkspace.ts. */
module Workspace {
  import opened Wrappers
  import opened Protocol
  import opened StreamWorker
  import opened EndToEnd
  import Session
  import EventLog
  import Guarantees

  /** `checking`, `ready`, `reconnecting`, `unavailable`; the health a `ready` may carry is left out. */
  datatype Connection = Checking | Ready | Lost | Down(reason: string)

  datatype Opening = Opening(requestId: RequestId, path: string, cancelling: bool)

  datatype Workspace = Workspace(
    connection: Connection,
    project: Option<ProjectSnapshot>,
    opening: Option<Opening>,
    openingError: Option<string>,
    taskGoal: string,
    streamId: Option<StreamId>,
    lastSequence: nat)

  const INITIAL := Workspace(Checking, None, None, None, "", None, 0)

  datatype Action =
    | SetConnection(connection: Connection)
    | ApplySnapshot(snapshot: WorkspaceSnapshot)
    | ApplyEvent(event: DaemonEvent)
    | StartOpening(requestId: RequestId, path: string)
    | ProjectOpenedLocally(project: ProjectSnapshot)
    | OpeningFailed(message: string)
    | SetOpeningStatus(cancelling: bool)
    | SetTaskGoal(goal: string)
    | ClearError

  function PathOf(w: Workspace): string {
    if w.opening.Some? then w.opening.value.path else ""
  }

  function Reduce(w: Workspace, a: Action): Workspace {
    match a
    case SetConnection(c) => w.(connection := c)
    case ApplySnapshot(s) =>
      w.(connection := if w.connection.Lost? || w.connection.Checking? then Ready else w.connection,
         project := s.project,
         opening :=
           if s.activeOperations == [] then None
           else Some(Opening(s.activeOperations[0], PathOf(w), w.opening.Some? && w.opening.value.cancelling)),
         openingError := None,
         streamId := Some(s.streamId),
         lastSequence := s.lastSequence)
    case ApplyEvent(e) =>
      var applied :=
        match e.payload
        case OperationStarted(id) => w.(opening := Some(Opening(id, PathOf(w), false)))
        case ProjectOpened(_, p) => w.(project := Some(p), opening := None, openingError := None)
        case OperationCancelled(_) => w.(opening := None)
        case OperationFailed(_, _, message) => w.(opening := None, openingError := Some(message));
      applied.(streamId := Some(e.streamId), lastSequence := e.sequence)
    case StartOpening(id, path) => w.(opening := Some(Opening(id, path, false)), openingError := None)
    case ProjectOpenedLocally(p) => w.(project := Some(p), opening := None, openingError := None)
    case OpeningFailed(message) => w.(opening := None, openingError := Some(message))
    case SetOpeningStatus(cancelling) =>
      if w.opening.None? then w else w.(opening := Some(w.opening.value.(cancelling := cancelling)))
    case SetTaskGoal(goal) => w.(taskGoal := goal)
    case ClearError => w.(openingError := None)
  }

  /** `handleStreamUpdate` */
  function Handle(w: Workspace, u: Update): Workspace {
    match u
    case Reconnecting => Reduce(w, SetConnection(Lost))
    case Unavailable(reason) => Reduce(w, SetConnection(Down(reason)))
    case Message(m) =>
      var ready := Reduce(w, SetConnection(Ready));
      match m
      case Snapshot(s) => Reduce(ready, ApplySnapshot(s))
      case Event(e) => Reduce(ready, ApplyEvent(e))
  }

  /** What reaches the reducer: updates of the stream, and actions of the user. */
  datatype Happening = FromStream(update: Update) | Local(action: Action)

  /** Local actions other than the optimistic PROJECT_OPENED. */
  predicate Ordinary(h: Happening) {
    h.Local? ==> !h.action.ApplySnapshot? && !h.action.ApplyEvent? && !h.action.ProjectOpenedLocally?
  }

  function See(w: Workspace, h: Happening): Workspace {
    match h
    case FromStream(u) => Handle(w, u)
    case Local(a) => Reduce(w, a)
  }

  function Live(happenings: seq<Happening>): Workspace {
    if happenings == [] then INITIAL
    else See(Live(happenings[..|happenings| - 1]), happenings[|happenings| - 1])
  }

  function StreamOf(happenings: seq<Happening>): seq<Update> {
    if happenings == [] then []
    else
      var before, last := StreamOf(happenings[..|happenings| - 1]), happenings[|happenings| - 1];
      if last.FromStream? then before + [last.update] else before
  }

  /** Stream, place and project shown are those of the view. */
  predicate Displays(w: Workspace, v: Option<View>) {
    match v
    case None => w.streamId.None? && w.project.None? && w.lastSequence == 0
    case Some(view) =>
      && w.streamId == Some(view.streamId)
      && w.lastSequence == view.sequence
      && w.project == view.replica.project
  }

  lemma UpdateShows(w: Workspace, sent: seq<Update>, u: Update)
    requires Displays(w, Watch(sent))
    requires u.Message? && u.message.Event? ==> Watch(sent).Some?
    ensures Displays(Handle(w, u), Watch(sent + [u]))
  {
    WatchAppend(sent, u);
  }

  lemma ActionShows(w: Workspace, a: Action, v: Option<View>)
    requires Displays(w, v) && Ordinary(Local(a))
    ensures Displays(Reduce(w, a), v)
  {
  }

  /** Between any updates of a stream and whatever the user does, the reducer shows the view. */
  lemma {:induction false} ReducerShowsView(happenings: seq<Happening>)
    requires forall i | 0 <= i < |happenings| :: Ordinary(happenings[i])
    requires Heard(StreamOf(happenings)) != Broken
    ensures Displays(Live(happenings), Watch(StreamOf(happenings)))
  {
    if happenings != [] {
      var before, last := happenings[..|happenings| - 1], happenings[|happenings| - 1];
      assert Ordinary(last);
      match last
      case FromStream(u) =>
        HeardAppend(StreamOf(before), u);
        ReducerShowsView(before);
        EventNeedsView(StreamOf(before), u);
        UpdateShows(Live(before), StreamOf(before), u);
      case Local(a) =>
        ReducerShowsView(before);
        ActionShows(Live(before), a, Watch(StreamOf(before)));
    }
  }

  lemma EventNeedsView(sent: seq<Update>, u: Update)
    requires Heard(sent) != Broken && Hear(Heard(sent), u) != Broken
    ensures u.Message? && u.message.Event? ==> Watch(sent).Some?
  {
    WatchedIfAnything(sent);
  }

  /** Some daemon stood, at moment `n` of the run, just where the desktop says, with its project. */
  ghost predicate Shows(shown: Workspace, actions: seq<WorldAction>, n: int, g: int) {
    && 0 <= n <= |actions|
    && 0 <= g < |WorldRun(NOTHING, actions[..n]).daemons|
    && var d := WorldRun(NOTHING, actions[..n]).daemons[g];
       && shown.streamId == Some(d.streamId)
       && shown.lastSequence == d.stream.sequence
       && shown.project == d.project
  }

  /** The updates of several workers one after another, as a window hears them that subscribes again. */
  function Joined(parts: seq<seq<Update>>): seq<Update> {
    if parts == [] then [] else Joined(parts[..|parts| - 1]) + parts[|parts| - 1]
  }

  /** All that a worker forwarded, or a beginning of it. */
  ghost predicate FromWorker(actions: seq<WorldAction>, part: seq<Update>) {
    exists k | 0 <= k < |WorldRun(NOTHING, actions).host.workers| ::
      part <= WorldRun(NOTHING, actions).host.workers[k].sent
  }

  /** A worker's updates begin with a snapshot. */
  lemma SnapshotFirst(u: Update, before: seq<Update>)
    requires Heard([u]) != Broken && Heard(before) != Broken
    ensures Heard(before + [u]) == Heard([u]) && Watch(before + [u]) == Watch([u])
  {
    HeardAppend([], u);
    WatchAppend([], u);
    assert [] + [u] == [u];
    HeardAppend(before, u);
    WatchAppend(before, u);
  }

  lemma SameHearing(x: seq<Update>, y: seq<Update>, u: Update)
    requires Heard(x) == Heard(y) && Watch(x) == Watch(y)
    ensures Heard(x + [u]) == Heard(y + [u]) && Watch(x + [u]) == Watch(y + [u])
  {
    HeardAppend(x, u);
    HeardAppend(y, u);
    WatchAppend(x, u);
    WatchAppend(y, u);
  }

  /** So nothing said before them matters once they have begun. */
  lemma {:induction false} HandOver(before: seq<Update>, part: seq<Update>)
    requires Heard(before) != Broken && Heard(part) != Broken && part != []
    ensures Heard(before + part) == Heard(part) && Watch(before + part) == Watch(part)
  {
    var init, last := part[..|part| - 1], part[|part| - 1];
    assert part == init + [last];
    if init == [] {
      assert part == [last];
      SnapshotFirst(last, before);
    } else {
      HeardAppend(init, last);
      HandOver(before, init);
      assert before + part == before + init + [last];
      SameHearing(before + init, init, last);
    }
  }

  lemma {:induction false} JoinedAgreement(actions: seq<WorldAction>, parts: seq<seq<Update>>)
    requires forall i | 0 <= i < |parts| :: FromWorker(actions, parts[i])
    ensures Heard(Joined(parts)) != Broken
    ensures Watch(Joined(parts)).Some? ==> exists n, g :: Happened(actions, n, g, Watch(Joined(parts)).value)
  {
    if parts != [] {
      var init, last := parts[..|parts| - 1], parts[|parts| - 1];
      JoinedAgreement(actions, init);
      assert FromWorker(actions, last);
      PartAgreement(actions, last);
      if last == [] {
        assert Joined(parts) == Joined(init);
      } else {
        HandOver(Joined(init), last);
      }
    }
  }

  lemma PartAgreement(actions: seq<WorldAction>, part: seq<Update>)
    requires FromWorker(actions, part)
    ensures Heard(part) != Broken
    ensures Watch(part).Some? ==> exists n, g :: Happened(actions, n, g, Watch(part).value)
  {
    var k: nat :| k < |WorldRun(NOTHING, actions).host.workers|
      && part <= WorldRun(NOTHING, actions).host.workers[k].sent;
    EndToEndAgreement(actions, k, part);
    LanguageByNeighbours(part);
  }

  /**
    The whole chain: whatever interleaving of the updates of a worker, and of those that take its
    place, with the user's actions the reducer has seen, however far it lags behind, it shows the
    project some daemon had at some moment of the run, at the very place it names.
   */
  lemma DesktopShowsDaemon(actions: seq<WorldAction>, parts: seq<seq<Update>>, happenings: seq<Happening>)
    requires forall i | 0 <= i < |parts| :: FromWorker(actions, parts[i])
    requires forall i | 0 <= i < |happenings| :: Ordinary(happenings[i])
    requires StreamOf(happenings) == Joined(parts)
    ensures Live(happenings).streamId.Some? ==>
              exists n, g :: Shows(Live(happenings), actions, n, g)
  {
    var v := Watch(Joined(parts));
    JoinedAgreement(actions, parts);
    ReducerShowsView(happenings);
    if v.Some? {
      var n, g :| Happened(actions, n, g, v.value);
      assert Shows(Live(happenings), actions, n, g);
    }
  }

  // ---- The opening card ----

  predicate LastIsTerminal(sent: seq<Update>) {
    && sent != []
    && sent[|sent| - 1].Message? && sent[|sent| - 1].message.Event?
    && sent[|sent| - 1].message.event.payload.IsTerminal()
  }

  function Shown(sent: seq<Update>): Workspace {
    if sent == [] then INITIAL else Handle(Shown(sent[..|sent| - 1]), sent[|sent| - 1])
  }

  /** The message last forwarded was a terminal event; losing the connection since changes nothing. */
  function ClosedLast(sent: seq<Update>): bool {
    if sent == [] then false
    else if sent[|sent| - 1].Message? then LastIsTerminal(sent)
    else ClosedLast(sent[..|sent| - 1])
  }

  /**
    On the stream alone, the opening card names a running request of the view, or is absent; and
    it is absent just when none runs, except after a terminal event that leaves others running.
   */
  lemma {:induction false} OpeningCard(sent: seq<Update>)
    requires Heard(sent) != Broken && Watch(sent).Some?
    ensures
      var card, running := Shown(sent).opening, Watch(sent).value.replica.active;
      && (card.Some? ==> card.value.requestId in running)
      && (card.None? <==> ClosedLast(sent) || running == {})
  {
    var init, u := sent[..|sent| - 1], sent[|sent| - 1];
    match u
    case Message(Snapshot(s)) =>
      assert s.activeOperations != [] ==> s.activeOperations[0] in Elements(s.activeOperations);
    case Message(Event(e)) =>
    case Reconnecting => OpeningCard(init);
    case Unavailable(_) =>
  }

  /** The daemon never ran two opens at once. */
  ghost predicate OneAtATime(d: Session.State) {
    forall n: nat, p, q | n <= |d.stream.log|
      && p in Fold(d.initial, d.stream.log[..n]).active && q in Fold(d.initial, d.stream.log[..n]).active ::
      p == q
  }

  /** A terminal event of the grammar ends a request that was running just before it. */
  lemma TerminalEndsRunning(initial: Option<ProjectSnapshot>, log: seq<EventPayload>, n: nat)
    requires forall r :: EventLog.Progress(log, r).Some?
    requires 0 < n <= |log| && log[n - 1].IsTerminal()
    ensures log[n - 1].requestId in Fold(initial, log[..n - 1]).active
    ensures Fold(initial, log[..n]).active == Fold(initial, log[..n - 1]).active - {log[n - 1].requestId}
    decreases |log|
  {
    var init := log[..|log| - 1];
    forall r ensures EventLog.Progress(init, r).Some? {
      assert EventLog.Progress(log, r).Some?;
    }
    if n < |log| {
      TerminalEndsRunning(initial, init, n);
      assert init[..n] == log[..n] && init[..n - 1] == log[..n - 1] && init[n - 1] == log[n - 1];
    } else {
      EventLog.CountsBalance(initial, init);
      assert log[..n] == log && log[..n - 1] == init;
      assert EventLog.Progress(log, log[n - 1].requestId).Some?;
      assert EventLog.Progress(init, log[n - 1].requestId) == Some(log[n - 1].requestId in Fold(initial, init).active);
    }
  }

  /** The last message of a stream of messages, if it closed an operation, left its mark on the view. */
  lemma {:induction false} ClosedBy(sent: seq<Update>) returns (i: nat)
    requires Heard(sent) != Broken && ClosedLast(sent)
    ensures i < |sent| && sent[i].Message? && sent[i].message.Event? && sent[i].message.event.payload.IsTerminal()
    ensures Watch(sent).Some?
    ensures sent[i].message.event.streamId == Watch(sent).value.streamId
    ensures sent[i].message.event.sequence == Watch(sent).value.sequence
  {
    if sent[|sent| - 1].Message? {
      WatchedIfAnything(sent);
      i := |sent| - 1;
    } else {
      i := ClosedBy(sent[..|sent| - 1]);
    }
  }

  /**
    When no daemon ever ran two opens at once, the card of a desktop fed by the stream alone, all of
    it or a beginning, shows a request exactly when it runs at the place the desktop has reached.
   */
  lemma CardShowsTheOpen(actions: seq<WorldAction>, k: nat, heard: seq<Update>)
    requires k < |WorldRun(NOTHING, actions).host.workers|
    requires heard <= WorldRun(NOTHING, actions).host.workers[k].sent
    requires forall g | 0 <= g < |WorldRun(NOTHING, actions).daemons| ::
               OneAtATime(WorldRun(NOTHING, actions).daemons[g])
    ensures Watch(heard).Some? ==>
              forall r :: r in Watch(heard).value.replica.active
                          <==> Shown(heard).opening.Some? && Shown(heard).opening.value.requestId == r
  {
    var daemons := WorldRun(NOTHING, actions).daemons;
    HeardIsTrue(actions, k, heard);
    if Watch(heard).Some? {
      OpeningCard(heard);
      if ClosedLast(heard) {
        HeardIsGenuine(actions, k, heard);
        NoneLeft(daemons, heard);
      } else {
        AtMostOne(daemons, Watch(heard).value);
      }
    }
  }

  lemma HeardIsGenuine(actions: seq<WorldAction>, k: nat, heard: seq<Update>)
    requires k < |WorldRun(NOTHING, actions).host.workers|
    requires heard <= WorldRun(NOTHING, actions).host.workers[k].sent
    ensures AllGenuine(WorldRun(NOTHING, actions).daemons, heard)
    ensures Honest(WorldRun(NOTHING, actions).daemons)
    ensures
      var daemons := WorldRun(NOTHING, actions).daemons;
      forall g | 0 <= g < |daemons| :: EventLog.GrammarInv(daemons[g].initial, daemons[g].stream.log)
  {
    var w := WorldRun(NOTHING, actions);
    WorldHolds(actions);
    DaemonsAreHonest(w.daemons);
    assert WorkerInv(w.daemons, w.host.workers[k]);
    forall g | 0 <= g < |w.daemons|
      ensures EventLog.GrammarInv(w.daemons[g].initial, w.daemons[g].stream.log)
    {
      assert Guarantees.Inv(w.daemons[g]);
    }
  }

  lemma AtMostOne(daemons: seq<Session.State>, v: View)
    requires TrueOfSome(daemons, v)
    requires forall g | 0 <= g < |daemons| :: OneAtATime(daemons[g])
    ensures forall p, q | p in v.replica.active && q in v.replica.active :: p == q
  {
    var g :| 0 <= g < |daemons| && True(daemons[g], v);
  }

  lemma NoneLeft(daemons: seq<Session.State>, sent: seq<Update>)
    requires Honest(daemons) && AllGenuine(daemons, sent)
    requires Watch(sent).Some? ==> TrueOfSome(daemons, Watch(sent).value)
    requires Heard(sent) != Broken && ClosedLast(sent)
    requires forall g | 0 <= g < |daemons| ::
               OneAtATime(daemons[g]) && EventLog.GrammarInv(daemons[g].initial, daemons[g].stream.log)
    ensures Watch(sent).Some? && Watch(sent).value.replica.active == {}
  {
    var i := ClosedBy(sent);
    var e := sent[i].message.event;
    var f := GenuineEventIsLogged(daemons, e);
    var g :| 0 <= g < |daemons| && True(daemons[g], Watch(sent).value);
    var d := daemons[g];
    assert f == g;
    assert forall r :: EventLog.Progress(d.stream.log, r).Some?;
    TerminalEndsRunning(d.initial, d.stream.log, e.sequence);
  }
}
