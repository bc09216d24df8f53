/** The window of finished request IDs over whole runs: when it is the last 256, and when not. */
module RequestWindow {
  import opened Wrappers
  import opened Domain
  import opened Protocol
  import opened Idempotency
  import opened Session
  import Guarantees
  import Running
  import Storage

  // ---- Every point of the history is a moment of the run ----

  lemma HistoryStep(s: State, a: Action)
    ensures s.ledger.history <= Step(s, a).ledger.history
    ensures |Step(s, a).ledger.history| <= |s.ledger.history| + 1
  {
  }

  lemma {:induction false} HistoryMoment(s: State, actions: seq<Action>, m: nat) returns (n: nat)
    requires s.ledger.history == [] && m <= |Execute(s, actions).ledger.history|
    ensures n <= |actions|
    ensures Execute(s, actions[..n]).ledger.history == Execute(s, actions).ledger.history[..m]
  {
    var h := Execute(s, actions).ledger.history;
    assert actions[..|actions|] == actions;
    if m == |h| {
      n := |actions|;
    } else {
      var init := actions[..|actions| - 1];
      HistoryStep(Execute(s, init), actions[|actions| - 1]);
      n := HistoryMoment(s, init, m);
      assert init[..n] == actions[..n];
    }
  }

  lemma {:induction false} HistoryGrows(s: State, actions: seq<Action>, n: nat)
    requires n <= |actions|
    ensures Execute(s, actions[..n]).ledger.history <= Execute(s, actions).ledger.history
    decreases |actions|
  {
    if n == |actions| {
      assert actions[..n] == actions;
    } else {
      var init := actions[..|actions| - 1];
      HistoryGrows(s, init, n);
      assert init[..n] == actions[..n];
      HistoryStep(Execute(s, init), actions[|actions| - 1]);
    }
  }

  /** The queue of finished request IDs names, one by one, the mutations the map remembers. */
  ghost predicate InStep(s: State) {
    s.ledger.completedRequestOrder == RequestIds(Recent(s.ledger.history))
  }

  lemma MomentAgrees(streamId: StreamId, storage: Option<Storage.Database>, actions: seq<Action>)
    requires WithStorage(streamId, storage).Success?
    ensures
      var s := Execute(WithStorage(streamId, storage).value, actions);
      InStep(s) <==> QueuesAgree(s.ledger.history)
  {
    Guarantees.StartHolds(streamId, storage);
    Guarantees.ExecuteKeepsInv(WithStorage(streamId, storage).value, actions);
  }

  ghost predicate AlwaysInStep(start: State, actions: seq<Action>) {
    forall n | 0 <= n <= |actions| :: InStep(Execute(start, actions[..n]))
  }

  lemma InStepAgree(streamId: StreamId, storage: Option<Storage.Database>, actions: seq<Action>)
    requires WithStorage(streamId, storage).Success?
    requires AlwaysInStep(WithStorage(streamId, storage).value, actions)
    ensures QueuesAlwaysAgree(Execute(WithStorage(streamId, storage).value, actions).ledger.history)
  {
    var start := WithStorage(streamId, storage).value;
    var h := Execute(start, actions).ledger.history;
    forall m | 0 <= m <= |h| ensures QueuesAgree(h[..m]) {
      var n := HistoryMoment(start, actions, m);
      MomentAgrees(streamId, storage, actions[..n]);
    }
  }

  lemma AgreeInStep(streamId: StreamId, storage: Option<Storage.Database>, actions: seq<Action>)
    requires WithStorage(streamId, storage).Success?
    requires QueuesAlwaysAgree(Execute(WithStorage(streamId, storage).value, actions).ledger.history)
    ensures AlwaysInStep(WithStorage(streamId, storage).value, actions)
  {
    var start := WithStorage(streamId, storage).value;
    var h := Execute(start, actions).ledger.history;
    forall n | 0 <= n <= |actions| ensures InStep(Execute(start, actions[..n])) {
      var part := Execute(start, actions[..n]).ledger.history;
      HistoryGrows(start, actions, n);
      assert h[..|part|] == part;
      MomentAgrees(streamId, storage, actions[..n]);
    }
  }

  /**
    In every run, the queue of finished request IDs is that of the last 256 remembered mutations at
    every moment exactly when the client uses a request ID again, if at all, more than 256
    remembered mutations later.
   */
  lemma WindowIffSpaced(streamId: StreamId, storage: Option<Storage.Database>, actions: seq<Action>)
    requires WithStorage(streamId, storage).Success?
    ensures
      var start := WithStorage(streamId, storage).value;
      AlwaysInStep(start, actions) <==> SpacedRequests(Execute(start, actions).ledger.history)
  {
    var start := WithStorage(streamId, storage).value;
    QueuesAgreeIffSpaced(Execute(start, actions).ledger.history);
    if AlwaysInStep(start, actions) {
      InStepAgree(streamId, storage, actions);
    }
    if QueuesAlwaysAgree(Execute(start, actions).ledger.history) {
      AgreeInStep(streamId, storage, actions);
    }
  }

  // ---- A run in which it fails ----

  /** `n + 1` times the letter x: a key, or a request ID. */
  function Name(n: nat): string {
    seq(n + 1, _ => 'x')
  }

  /** The `n`-th cancel of the run: under a key of its own, and the 257th under the first's ID. */
  function Call(n: nat): CancelRequest {
    CancelRequest(Name(if n == IDEMPOTENCY_LIMIT then 0 else n), Some(Name(n)), "y")
  }

  function Calls(n: nat): seq<Action> {
    seq(n, k requires 0 <= k => CancelOpen(Call(k)))
  }

  const START: State := NewSession("stream", None, None, None)

  /** The history the calls leave behind. */
  ghost predicate Called(s: State, n: nat) {
    && s.active == map[] && s.inFlight == map[]
    && |s.ledger.history| == n
    && forall k: nat | k < n ::
         s.ledger.history[k].key == Name(k) && s.ledger.history[k].requestId == Call(k).id
  }

  lemma NamesDiffer(m: nat, n: nat)
    requires m != n
    ensures Name(m) != Name(n)
  {
    assert |Name(m)| != |Name(n)|;
  }

  lemma NextIsNew(l: Ledger, n: nat)
    requires WindowInv(l) && |l.history| == n
    requires forall k: nat | k < n :: l.history[k].key == Name(k)
    ensures Name(n) !in l.completed
  {
    var recent := Recent(l.history);
    forall k | 0 <= k < |recent| ensures Keys(recent)[k] != Name(n) {
      assert recent[k] == l.history[k + Excess(n)];
      NamesDiffer(k + Excess(n), n);
    }
  }

  lemma NextCall(s: State, n: nat)
    requires Called(s, n) && WindowInv(s.ledger)
    ensures Running.Lets(s, Call(n)) && Called(Cancel(s, Call(n)).0, n + 1)
  {
    NextIsNew(s.ledger, n);
  }

  lemma CallsKeepInv(n: nat)
    ensures Running.Inv(Execute(START, Calls(n))) && Idempotency.Inv(Execute(START, Calls(n)).ledger)
  {
    Guarantees.StartHolds("stream", None);
    Guarantees.ExecuteKeepsInv(START, Calls(n));
  }

  lemma CallStep(s: State, n: nat)
    requires Called(s, n) && WindowInv(s.ledger)
    ensures Called(Step(s, CancelOpen(Call(n))), n + 1)
  {
    NextCall(s, n);
  }

  lemma OneMoreCall(n: nat)
    ensures Execute(START, Calls(n + 1)) == Step(Execute(START, Calls(n)), CancelOpen(Call(n)))
  {
    assert Calls(n + 1)[..n] == Calls(n);
  }

  lemma {:induction false} AllCalled(n: nat)
    ensures Called(Execute(START, Calls(n)), n)
  {
    if n > 0 {
      AllCalled(n - 1);
      CallsKeepInv(n - 1);
      OneMoreCall(n - 1);
      CallStep(Execute(START, Calls(n - 1)), n - 1);
    }
  }

  lemma CallsSpaced(h: seq<Remembered>)
    requires |h| == IDEMPOTENCY_LIMIT + 1
    requires forall k: nat | k < IDEMPOTENCY_LIMIT :: h[k].requestId == Name(k)
    requires h[IDEMPOTENCY_LIMIT].requestId == Name(IDEMPOTENCY_LIMIT + 1)
    ensures SpacedRequests(h)
  {
    forall i, j | 0 <= i < j < |h| ensures h[i].requestId != h[j].requestId {
      NamesDiffer(i, if j < IDEMPOTENCY_LIMIT then j else IDEMPOTENCY_LIMIT + 1);
    }
  }

  lemma CallsReuse(h: seq<Remembered>)
    requires |h| == IDEMPOTENCY_LIMIT + 2
    requires forall k: nat | k < |h| :: h[k].requestId == Call(k).id
    ensures Name(0) in RequestIds(Recent(h)) && Name(0) !in Recent(Admitted(h))
  {
    var first, again, next := h[..IDEMPOTENCY_LIMIT], h[IDEMPOTENCY_LIMIT], h[IDEMPOTENCY_LIMIT + 1];
    CallsSpaced(first + [next]);
    assert h == first + [again] + [next];
    ReuseDoesNotRenew(first, again, next);
  }

  lemma IsReachable(actions: seq<Action>)
    ensures Guarantees.Reachable(Execute(START, actions))
  {
    assert WithStorage("stream", None) == Success(START);
  }

  /** What a cancel of that ID is answered in such a state. */
  lemma Forgotten(s: State, n: nat)
    requires n == IDEMPOTENCY_LIMIT + 2 && Called(s, n)
    requires Running.Inv(s) && Idempotency.Inv(s.ledger)
    ensures
      var r := Call(n).(target := Name(0));
      Running.Lets(s, r) && Cancel(s, r).1 == Ok(r.id, Cancellation(r.target, NotFound))
  {
    var r := Call(n).(target := Name(0));
    CallsReuse(s.ledger.history);
    NextCall(s, n);
    Guarantees.OutcomeBySearch(s, r);
    Guarantees.RunningAreActive(s, r.target);
  }

  /**
    After 256 cancels, one under the first one's request ID and one more, the daemon answers
    NotFound of an ID that is still among those of the last 256 remembered mutations.
   */
  lemma ReusedIdIsForgotten() returns (s: State, r: CancelRequest)
    ensures Guarantees.Reachable(s) && s == Execute(START, Calls(IDEMPOTENCY_LIMIT + 2))
    ensures Running.Lets(s, r) && r.target in RequestIds(Recent(s.ledger.history))
    ensures Cancel(s, r).1 == Ok(r.id, Cancellation(r.target, NotFound))
  {
    var n := IDEMPOTENCY_LIMIT + 2;
    s, r := Execute(START, Calls(n)), Call(n).(target := Name(0));
    IsReachable(Calls(n));
    AllCalled(n);
    CallsKeepInv(n);
    CallsReuse(s.ledger.history);
    Forgotten(s, n);
  }
}
