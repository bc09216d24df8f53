/** A run in which the desktop's opening card is gone while an open is still running. */
module HiddenOpen {
  import opened Wrappers
  import opened Application
  import opened Protocol
  import opened StreamWorker
  import opened Host
  import opened EndToEnd
  import opened Workspace
  import Session
  import Storage
  import Idempotency

  // ---- The daemon: two opens, a subscription between, and the first open is cancelled ----

  const OPEN_A := Session.OpenRequest("a", Some("key a"), "/a")
  const OPEN_B := Session.OpenRequest("b", Some("key b"), "/b")
  const CANCEL_A := Session.CancelRequest("c", Some("key c"), "a")

  const SNAPSHOT := WorkspaceSnapshot("stream", 2, None, ["a", "b"])
  const CANCELLED := DaemonEvent("stream", 3, EventPayload.OperationCancelled("a"))

  const SCRIPT: seq<Session.Action> := [
    Session.BeginOpen(OPEN_A),
    Session.BeginOpen(OPEN_B),
    Session.SubscribeEvents(["a", "b"]),
    Session.CancelOpen(CANCEL_A),
    Session.CheckBefore(0),
    Session.FinishOpen(0, Storage.NoFault)]

  const IDLE: Session.State := Session.NewSession("stream", None, None, None)

  lemma NamesDiffer()
    ensures "a" != "b" && "key a" != "key b" && "key a" != "key c" && "key b" != "key c"
  {
    assert "a"[0] != "b"[0];
    assert "key a"[4] != "key b"[4] && "key a"[4] != "key c"[4] && "key b"[4] != "key c"[4];
  }

  /** Both opens run. */
  ghost predicate BothRun(s: Session.State) {
    && s.streamId == "stream" && s.storage.None? && s.project.None? && s.lost == {}
    && s.active == map["a" := 0, "b" := 1]
    && s.inFlight.Keys == {"key a", "key b"}
    && s.ledger == Idempotency.EMPTY_LEDGER
    && |s.ops| == 2 && s.ops[0].requestId == "a" && s.ops[0].phase.Begun?
    && s.stream == Session.Stream(2, None, [OperationStarted("a"), OperationStarted("b")], [])
  }

  lemma BothBegin()
    ensures BothRun(Session.Step(Session.Step(IDLE, SCRIPT[0]), SCRIPT[1]))
  {
    NamesDiffer();
    var s := Session.Step(IDLE, SCRIPT[0]);
    assert s.active == map["a" := 0] && s.inFlight.Keys == {"key a"};
  }

  /** The first open has been cancelled, and one subscription was told of it. */
  ghost predicate OneLeft(s: Session.State) {
    && s.streamId == "stream" && "b" in s.active
    && s.stream.Subscriptions() == [Session.Subscription(SNAPSHOT, [CANCELLED], 0, true)]
  }

  /** And one subscription was told that they do. */
  ghost predicate Watched(s: Session.State) {
    && "b" in s.active && s.streamId == "stream" && s.storage.None?
    && s.stream.sequence == 2 && s.stream.closed == []
    && s.stream.subscriber == Some(Session.Subscription(SNAPSHOT, [], 0, true))
    && |s.ops| == 2 && s.ops[0].requestId == "a" && s.ops[0].phase.Begun?
  }

  lemma BothWatched(s: Session.State)
    requires BothRun(s)
    ensures
      var t := Session.Step(s, SCRIPT[2]);
      && Watched(t) && t.active == s.active && t.inFlight == s.inFlight && t.ledger == s.ledger
  {
    NamesDiffer();
    assert Elements(["a", "b"]) == s.active.Keys;
  }

  lemma FirstCancelled(s: Session.State)
    requires Watched(s) && "a" in s.active && s.active["a"] == 0
    requires s.inFlight.Keys == {"key a", "key b"} && s.ledger == Idempotency.EMPTY_LEDGER
    ensures Watched(Session.Step(s, SCRIPT[3])) && Session.Step(s, SCRIPT[3]).ops[0].cancelledBy.Some?
  {
    NamesDiffer();
  }

  lemma FirstFinishes(s: Session.State)
    requires Watched(s) && s.ops[0].cancelledBy.Some?
    ensures OneLeft(Session.Step(Session.Step(s, SCRIPT[4]), SCRIPT[5]))
  {
    NamesDiffer();
    var checked := Session.Step(s, SCRIPT[4]);
    assert checked.ops[0].phase == Session.Ready(Failure(Cancelled)) && checked.stream == s.stream;
    var finished := Session.Step(checked, SCRIPT[5]);
    assert finished.stream == Session.Emit(s.stream, "stream", CANCELLED.payload).value;
    assert [] + [CANCELLED] == [CANCELLED];
    assert finished.stream.subscriber == Some(Session.Subscription(SNAPSHOT, [CANCELLED], 0, true));
    assert finished.stream.closed == [];
  }

  lemma ScriptStep(n: nat)
    requires n < |SCRIPT|
    ensures Session.Execute(IDLE, SCRIPT[..n + 1]) == Session.Step(Session.Execute(IDLE, SCRIPT[..n]), SCRIPT[n])
  {
    assert SCRIPT[..n + 1][..n] == SCRIPT[..n];
  }

  lemma ScriptLeavesOne()
    ensures OneLeft(Session.Execute(IDLE, SCRIPT))
  {
    forall n: nat | n < |SCRIPT|
      ensures Session.Execute(IDLE, SCRIPT[..n + 1]) == Session.Step(Session.Execute(IDLE, SCRIPT[..n]), SCRIPT[n])
    {
      ScriptStep(n);
    }
    assert Session.Execute(IDLE, SCRIPT[..0]) == IDLE;
    BothBegin();
    BothWatched(Session.Execute(IDLE, SCRIPT[..2]));
    FirstCancelled(Session.Execute(IDLE, SCRIPT[..3]));
    FirstFinishes(Session.Execute(IDLE, SCRIPT[..4]));
    assert SCRIPT[..6] == SCRIPT;
  }

  // ---- The host: one worker, connected, reads that event ----

  const SEEN := Input(
    false, true, Some(Handshake("stream", SNAPSHOT)), Got(Event(CANCELLED)), true, true)

  function Daemons(script: seq<Session.Action>): seq<WorldAction> {
    [Restart("stream", None)] + seq(|script|, i requires 0 <= i < |script| => Daemon(script[i]))
  }

  lemma RunAppend(actions: seq<WorldAction>, a: WorldAction)
    ensures WorldRun(NOTHING, actions + [a]) == WorldStep(WorldRun(NOTHING, actions), a)
  {
    assert (actions + [a])[..|actions|] == actions;
  }

  lemma DaemonsStart()
    ensures WorldRun(NOTHING, Daemons([])) == World([IDLE], EMPTY_HOST)
  {
    assert Daemons([]) == [] + [Restart("stream", None)];
    RunAppend([], Restart("stream", None));
  }

  lemma DaemonStep(s: Session.State, a: Session.Action)
    ensures WorldStep(World([s], EMPTY_HOST), Daemon(a)) == World([Session.Step(s, a)], EMPTY_HOST)
  {
  }

  lemma {:induction false} DaemonRuns(script: seq<Session.Action>)
    ensures WorldRun(NOTHING, Daemons(script)) == World([Session.Execute(IDLE, script)], EMPTY_HOST)
  {
    if script == [] {
      DaemonsStart();
    } else {
      var init, last := script[..|script| - 1], script[|script| - 1];
      DaemonRuns(init);
      assert Daemons(script) == Daemons(init) + [Daemon(last)];
      RunAppend(Daemons(init), Daemon(last));
      DaemonStep(Session.Execute(IDLE, init), last);
    }
  }

  /** The daemon's script, one call to subscribe, and `n` steps of the worker. */
  function Scene(n: nat): seq<WorldAction> {
    Daemons(SCRIPT) + [Desktop(HostAction.Subscribe)] + seq(n, _ => Desktop(Work(0, SEEN)))
  }

  function Working(n: nat): Worker {
    Run(StreamWorker.START, seq(n, _ => SEEN))
  }

  lemma SeenIsGenuine(s: Session.State)
    requires OneLeft(s)
    ensures Genuine([s], SEEN)
  {
    assert Made([s], 0, 0);
    assert CANCELLED in s.stream.Subscriptions()[0].sent;
  }

  lemma WorkStep(s: Session.State, w: Worker)
    requires Genuine([s], SEEN)
    ensures WorldStep(World([s], HostState([w], [false], Some(0))), Desktop(Work(0, SEEN)))
            == World([s], HostState([Step(w, SEEN)], [false], Some(0)))
  {
  }

  lemma SceneStarts()
    ensures
      WorldRun(NOTHING, Scene(0)) == World([Session.Execute(IDLE, SCRIPT)], HostState([Working(0)], [false], Some(0)))
  {
    DaemonRuns(SCRIPT);
    assert Scene(0) == Daemons(SCRIPT) + [Desktop(HostAction.Subscribe)];
    RunAppend(Daemons(SCRIPT), Desktop(HostAction.Subscribe));
  }

  lemma {:induction false} SceneRuns(n: nat)
    ensures
      WorldRun(NOTHING, Scene(n)) == World([Session.Execute(IDLE, SCRIPT)], HostState([Working(n)], [false], Some(0)))
  {
    if n == 0 {
      SceneStarts();
    } else {
      SceneRuns(n - 1);
      assert Genuine([Session.Execute(IDLE, SCRIPT)], SEEN) by {
        ScriptLeavesOne();
        SeenIsGenuine(Session.Execute(IDLE, SCRIPT));
      }
      assert Scene(n) == Scene(n - 1) + [Desktop(Work(0, SEEN))];
      RunAppend(Scene(n - 1), Desktop(Work(0, SEEN)));
      WorkStep(Session.Execute(IDLE, SCRIPT), Working(n - 1));
      WorkingStep(n - 1);
    }
  }

  lemma WorkingStep(n: nat)
    ensures Working(n + 1) == Step(Working(n), SEEN)
  {
    assert seq(n + 1, _ => SEEN)[..n] == seq(n, _ => SEEN);
  }

  const SHAKEN := Some(Handshake("stream", SNAPSHOT))

  lemma WorkerSubscribes()
    ensures Working(4) == Worker(Connect(SHAKEN), false, false, "", 0, [])
  {
    WorkingStep(0);
    WorkingStep(1);
    WorkingStep(2);
    WorkingStep(3);
  }

  lemma WorkerConnects()
    ensures Working(6) == Worker(Reading, true, false, "stream", 3, [Message(Snapshot(SNAPSHOT))])
  {
    WorkerSubscribes();
    WorkingStep(4);
    WorkingStep(5);
  }

  lemma WorkerForwards()
    ensures Working(9).sent == [Message(Snapshot(SNAPSHOT)), Message(Event(CANCELLED))]
  {
    WorkerConnects();
    WorkingStep(6);
    WorkingStep(7);
    WorkingStep(8);
  }

  // ---- The window ----

  lemma CardGone(sent: seq<Update>)
    requires sent == [Message(Snapshot(SNAPSHOT)), Message(Event(CANCELLED))]
    ensures Shown(sent).opening.None? && Watch(sent).Some? && Watch(sent).value.replica.active == {"b"}
  {
    assert sent[..1][..0] == [];
    assert sent[..1] == [Message(Snapshot(SNAPSHOT))];
    NamesDiffer();
    assert SNAPSHOT.activeOperations[0] == "a" && SNAPSHOT.activeOperations[1] == "b";
    assert Elements(SNAPSHOT.activeOperations) == {"a", "b"};
  }

  /**
    Two opens run, the first is cancelled, and the window's card is gone: the second, which the
    window was told of and the daemon is still running, is not shown.
   */
  lemma RunningOpenIsHidden() returns (actions: seq<WorldAction>)
    ensures
      var w := WorldRun(NOTHING, actions);
      && |w.host.workers| == 1 && |w.daemons| == 1 && "b" in w.daemons[0].active
      && Shown(w.host.workers[0].sent).opening.None?
      && Watch(w.host.workers[0].sent).Some?
      && Watch(w.host.workers[0].sent).value.replica.active == {"b"}
  {
    actions := Scene(9);
    SceneRuns(9);
    ScriptLeavesOne();
    WorkerForwards();
    CardGone(Working(9).sent);
  }
}
