/** Running operations, the `active` map and the `in_flight` map name one another. */
module Running {
  import opened Wrappers
  import opened Domain
  import opened Protocol
  import opened Application
  import opened Idempotency
  import opened Session
  import Storage

  ghost predicate Runs(ops: seq<Operation>, i: int) {
    0 <= i < |ops| && ops[i].Running()
  }

  ghost predicate ActiveNames(active: map<RequestId, nat>, ops: seq<Operation>, i: int) {
    Runs(ops, i) ==> ops[i].requestId in active && active[ops[i].requestId] == i
  }

  /** Running operations and the entries of `active` are one and the same. */
  ghost predicate ActiveInv(active: map<RequestId, nat>, ops: seq<Operation>) {
    && (forall r | r in active :: Runs(ops, active[r]) && ops[active[r]].requestId == r)
    && (forall i | 0 <= i < |ops| :: ActiveNames(active, ops, i))
  }

  ghost predicate Holder(ops: seq<Operation>, k: Key, i: int) {
    Runs(ops, i) && ops[i].key == k
  }

  /** So are running operations and the entries of `in_flight`. */
  ghost predicate InFlightInv(inFlight: map<Key, Fingerprint>, ops: seq<Operation>) {
    && (forall k | k in inFlight :: exists i :: Holder(ops, k, i))
    && (forall i | 0 <= i < |ops| && ops[i].Running() ::
          ops[i].key in inFlight && inFlight[ops[i].key] == ops[i].Fingerprint())
    && (forall i, j | 0 <= i < j < |ops| && ops[i].Running() && ops[j].Running() ::
          ops[i].key != ops[j].key)
  }

  /** And no key in flight is remembered yet. */
  ghost predicate Inv(s: State) {
    && ActiveInv(s.active, s.ops)
    && InFlightInv(s.inFlight, s.ops)
    && s.inFlight.Keys !! s.ledger.completed.Keys
  }

  // ---- The three ways the list of operations changes ----

  lemma ActiveBegin(active: map<RequestId, nat>, ops: seq<Operation>, op: Operation)
    requires ActiveInv(active, ops) && op.Running() && op.requestId !in active
    ensures ActiveInv(active[op.requestId := |ops|], ops + [op])
  {
    var names, all := active[op.requestId := |ops|], ops + [op];
    forall i | 0 <= i < |all| ensures ActiveNames(names, all, i) {
      assert i < |ops| ==> ActiveNames(active, ops, i);
    }
  }

  lemma ActiveChange(active: map<RequestId, nat>, ops: seq<Operation>, i: nat, op: Operation)
    requires ActiveInv(active, ops) && Runs(ops, i) && op.requestId == ops[i].requestId
    ensures op.Running() ==> ActiveInv(active, ops[i := op])
    ensures !op.Running() ==> ActiveInv(active - {op.requestId}, ops[i := op])
  {
    assert ActiveNames(active, ops, i);
    var names := if op.Running() then active else active - {op.requestId};
    var all := ops[i := op];
    forall j | 0 <= j < |all| ensures ActiveNames(names, all, j) {
      assert ActiveNames(active, ops, j);
    }
  }

  lemma InFlightBegin(inFlight: map<Key, Fingerprint>, ops: seq<Operation>, op: Operation)
    requires InFlightInv(inFlight, ops) && op.Running() && op.key !in inFlight
    ensures InFlightInv(inFlight[op.key := op.Fingerprint()], ops + [op])
  {
    var flights, all := inFlight[op.key := op.Fingerprint()], ops + [op];
    forall k | k in flights ensures exists i :: Holder(all, k, i) {
      if k == op.key {
        assert Holder(all, k, |ops|);
      } else {
        var i :| Holder(ops, k, i);
        assert Holder(all, k, i);
      }
    }
  }

  lemma HoldersStay(ops: seq<Operation>, i: nat, op: Operation, k: Key)
    requires Runs(ops, i) && op.key == ops[i].key && (op.Running() || k != op.key)
    requires exists j :: Holder(ops, k, j)
    ensures var all := ops[i := op]; exists j :: Holder(all, k, j)
  {
    var all := ops[i := op];
    var j :| Holder(ops, k, j);
    assert Holder(all, k, j);
  }

  lemma InFlightStays(inFlight: map<Key, Fingerprint>, ops: seq<Operation>, i: nat, op: Operation)
    requires InFlightInv(inFlight, ops) && Runs(ops, i) && op.Running()
    requires op.key == ops[i].key && op.path == ops[i].path
    ensures InFlightInv(inFlight, ops[i := op])
  {
    var all := ops[i := op];
    forall k | k in inFlight ensures exists j :: Holder(all, k, j) {
      HoldersStay(ops, i, op, k);
    }
  }

  lemma InFlightEnds(inFlight: map<Key, Fingerprint>, ops: seq<Operation>, i: nat, op: Operation)
    requires InFlightInv(inFlight, ops) && Runs(ops, i) && !op.Running() && op.key == ops[i].key
    ensures InFlightInv(inFlight - {op.key}, ops[i := op])
  {
    var all := ops[i := op];
    forall k | k in inFlight && k != op.key ensures exists j :: Holder(all, k, j) {
      HoldersStay(ops, i, op, k);
    }
  }

  // ---- Steps ----

  /** A request whose begin starts an operation. */
  predicate Admits(s: State, r: OpenRequest) {
    && r.key.Some?
    && Gate(s, r.key.value, OpenFingerprint(r.path), r.id).None?
    && r.id !in s.active
    && s.stream.sequence < U64_MAX
  }

  lemma BeginCases(s: State, r: OpenRequest)
    ensures Begin(s, r).1.None? <==> Admits(s, r)
    ensures !Admits(s, r) ==> Begin(s, r).0 == s
  {
  }

  /** A cancel that reaches the ledger. */
  predicate Lets(s: State, r: CancelRequest) {
    r.key.Some? && Gate(s, r.key.value, CancelFingerprint(r.target), r.id).None?
  }

  lemma RememberKeys(l: Ledger, m: Remembered)
    ensures Remember(l, m).completed.Keys <= l.completed.Keys + {m.key}
  {
  }

  lemma BeginKeepsInv(s: State, r: OpenRequest)
    requires Inv(s) && Admits(s, r)
    ensures Inv(Begin(s, r).0)
  {
    var op := Begin(s, r).0.ops[|s.ops|];
    ActiveBegin(s.active, s.ops, op);
    InFlightBegin(s.inFlight, s.ops, op);
  }

  lemma FinishKeepsInv(s: State, i: nat, fault: Storage.SaveFault)
    requires Inv(s) && i < |s.ops| && s.ops[i].phase.Ready?
    ensures Inv(Finish(s, i, fault).0)
  {
    var t := Finish(s, i, fault).0;
    ActiveChange(s.active, s.ops, i, t.ops[i]);
    InFlightEnds(s.inFlight, s.ops, i, t.ops[i]);
    RememberKeys(s.ledger, t.ledger.history[|s.ledger.history|]);
  }

  lemma CancelKeepsInv(s: State, r: CancelRequest)
    requires Inv(s) && Lets(s, r)
    ensures Inv(Cancel(s, r).0)
  {
    var t := Cancel(s, r).0;
    RememberKeys(s.ledger, t.ledger.history[|s.ledger.history|]);
    if r.target in s.active {
      var i := s.active[r.target];
      ActiveChange(s.active, s.ops, i, t.ops[i]);
      InFlightStays(s.inFlight, s.ops, i, t.ops[i]);
      assert t.ops == s.ops[i := t.ops[i]];
    }
  }

  lemma PhaseKeepsInv(s: State, i: nat, phase: Phase)
    requires Inv(s) && Runs(s.ops, i) && !phase.Finished?
    ensures Inv(WithPhase(s, i, phase))
  {
    var t := WithPhase(s, i, phase);
    ActiveChange(s.active, s.ops, i, t.ops[i]);
    InFlightStays(s.inFlight, s.ops, i, t.ops[i]);
  }

  lemma StepKeepsInv(s: State, a: Action)
    requires Inv(s)
    ensures Inv(Step(s, a))
  {
    if Enabled(s, a) {
      match a
      case BeginOpen(r) =>
        BeginCases(s, r);
        if Admits(s, r) { BeginKeepsInv(s, r); }
      case FinishOpen(i, fault) => FinishKeepsInv(s, i, fault);
      case CancelOpen(r) => if Lets(s, r) { CancelKeepsInv(s, r); }
      case CheckBefore(i) => PhaseKeepsInv(s, i, FirstCheck(s, i).ops[i].phase);
      case InspectPath(i, found) => PhaseKeepsInv(s, i, Inspect(s, i, found).ops[i].phase);
      case CheckAfter(i, id) => PhaseKeepsInv(s, i, SecondCheck(s, i, id).ops[i].phase);
      case _ =>
    }
  }
}
