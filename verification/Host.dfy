/** Successive stream workers of one host: each subscribe call raises the flag of the one before. */
module Host {
  import opened Wrappers
  import opened StreamWorker

  /** `current` is `active_subscription_cancel`: the newest worker's flag, once there is one. */
  datatype HostState = HostState(workers: seq<Worker>, flags: seq<bool>, current: Option<nat>)

  const EMPTY_HOST := HostState([], [], None)

  ghost predicate Inv(h: HostState) {
    && |h.flags| == |h.workers|
    && h.current == (if h.workers == [] then None else Some(|h.workers| - 1))
    && forall k | 0 <= k < |h.workers| - 1 :: h.flags[k]
  }

  /** `execute_subscribe_daemon_events`, up to the start of the new worker. */
  function Call(h: HostState): HostState {
    var flags :=
      if h.current.Some? && h.current.value < |h.flags| then h.flags[h.current.value := true] else h.flags;
    HostState(h.workers + [START], flags + [false], Some(|h.workers|))
  }

  /** One step of worker `k`, which sees its own flag as it is. */
  function Advance(h: HostState, k: nat, i: Input): HostState
    requires k < |h.workers| && k < |h.flags|
  {
    h.(workers := h.workers[k := Step(h.workers[k], i.(flag := h.flags[k]))])
  }

  datatype HostAction = Subscribe | Work(worker: nat, input: Input)

  function HostStep(h: HostState, a: HostAction): HostState {
    match a
    case Subscribe => Call(h)
    case Work(k, i) => if k < |h.workers| && k < |h.flags| then Advance(h, k, i) else h
  }

  function HostRun(h: HostState, actions: seq<HostAction>): HostState {
    if actions == [] then h else HostStep(HostRun(h, actions[..|actions| - 1]), actions[|actions| - 1])
  }

  lemma HostStepKeepsInv(h: HostState, a: HostAction)
    requires Inv(h)
    ensures Inv(HostStep(h, a))
  {
  }

  /** At most one worker's flag is down, and it is the newest one's. */
  lemma {:induction false} OneFlagDown(actions: seq<HostAction>)
    ensures Inv(HostRun(EMPTY_HOST, actions))
    ensures
      var h := HostRun(EMPTY_HOST, actions);
      forall k | 0 <= k < |h.flags| && !h.flags[k] :: k == |h.workers| - 1 && h.current == Some(k)
  {
    if actions != [] {
      OneFlagDown(actions[..|actions| - 1]);
      HostStepKeepsInv(HostRun(EMPTY_HOST, actions[..|actions| - 1]), actions[|actions| - 1]);
    }
  }

  lemma SupersededStep(h: HostState, a: HostAction, k: nat)
    requires Inv(h) && k < |h.workers| && h.flags[k]
    ensures
      var t := HostStep(h, a);
      && k < |t.workers| == |t.flags| && t.flags[k]
      && |h.workers[k].sent| <= |t.workers[k].sent|
      && |t.workers[k].sent| + Remaining(t.workers[k].point)
         <= |h.workers[k].sent| + Remaining(h.workers[k].point)
  {
    if a.Work? && a.worker == k {
      RaisedFlagStep(h.workers[k], a.input.(flag := true));
    }
  }

  /** A superseded worker sends at most one more update, whatever it and the others go on to do. */
  lemma {:induction false} Supersession(h: HostState, k: nat, actions: seq<HostAction>)
    requires Inv(h) && k < |h.workers| && h.flags[k]
    ensures
      var t := HostRun(h, actions);
      && Inv(t) && k < |t.workers| && t.flags[k]
      && |h.workers[k].sent| <= |t.workers[k].sent|
      && |t.workers[k].sent| + Remaining(t.workers[k].point)
         <= |h.workers[k].sent| + Remaining(h.workers[k].point) <= |h.workers[k].sent| + 1
  {
    if actions != [] {
      Supersession(h, k, actions[..|actions| - 1]);
      var s := HostRun(h, actions[..|actions| - 1]);
      HostStepKeepsInv(s, actions[|actions| - 1]);
      SupersededStep(s, actions[|actions| - 1], k);
    }
  }
}
