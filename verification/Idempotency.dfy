/**
  The idempotency ledger of `SessionState`: a hash map with an eviction queue, and a hash set
  with another, next to the unbounded history of remembered mutations they stand for.
 */
module Idempotency {
  import opened Wrappers
  import opened Protocol

  const IDEMPOTENCY_LIMIT: nat := 256

  datatype Fingerprint =
    | OpenFingerprint(path: string)
    | CancelFingerprint(targetRequestId: RequestId)

  datatype CompletedMutation = CompletedMutation(fingerprint: Fingerprint, response: ServerResponse)

  /** One call of `remember_completed`. */
  datatype Remembered = Remembered(
    key: Key, fingerprint: Fingerprint, requestId: RequestId, response: ServerResponse)

  /** The four collections of the session, and `history`: every mutation ever remembered. */
  datatype Ledger = Ledger(
    completed: map<Key, CompletedMutation>,
    completedOrder: seq<Key>,
    completedRequests: set<RequestId>,
    completedRequestOrder: seq<RequestId>,
    history: seq<Remembered>)

  const EMPTY_LEDGER := Ledger(map[], [], {}, [], [])

  function Excess(n: nat): nat {
    if n > IDEMPOTENCY_LIMIT then n - IDEMPOTENCY_LIMIT else 0
  }

  /** `remember_completed`: push on both queues, then evict the oldest beyond the limit. */
  function Remember(l: Ledger, m: Remembered): Ledger {
    var order := if m.key in l.completed then l.completedOrder else l.completedOrder + [m.key];
    var requests :=
      if m.requestId in l.completedRequests then l.completedRequestOrder
      else l.completedRequestOrder + [m.requestId];
    var e, r := Excess(|order|), Excess(|requests|);
    Ledger(
      l.completed[m.key := CompletedMutation(m.fingerprint, m.response)] - Elements(order[..e]),
      order[e..],
      l.completedRequests + {m.requestId} - Elements(requests[..r]),
      requests[r..],
      l.history + [m])
  }

  // ---- The simple reference: search the newest entries of the history ----

  /** The newest of the last `depth` entries of `h` that used `key`. */
  function Recall(h: seq<Remembered>, key: Key, depth: nat): (r: Option<Remembered>)
    ensures r.Some? ==> r.value.key == key && r.value in h
  {
    if h == [] || depth == 0 then None
    else if h[|h| - 1].key == key then Some(h[|h| - 1])
    else Recall(h[..|h| - 1], key, depth - 1)
  }

  /** The last min(256, n) of n elements. */
  function Recent<T>(h: seq<T>): seq<T> {
    h[Excess(|h|)..]
  }

  /**
    The finished request IDs in the order they were listed. An ID still among the last 256 listed
    is not listed again, nor moved to the end.
   */
  function Admitted(h: seq<Remembered>): seq<RequestId> {
    if h == [] then []
    else
      var before, id := Admitted(h[..|h| - 1]), h[|h| - 1].requestId;
      if id in Recent(before) then before else before + [id]
  }

  /** Equal keys lie more than 256 entries apart: any 256 neighbours have distinct keys. */
  ghost predicate Spaced(h: seq<Remembered>) {
    forall i, j | 0 <= i < j < |h| && h[i].key == h[j].key :: j - i > IDEMPOTENCY_LIMIT
  }

  /** A request ID is used again, if at all, more than 256 entries later. */
  ghost predicate SpacedRequests(h: seq<Remembered>) {
    forall i, j | 0 <= i < j < |h| && h[i].requestId == h[j].requestId :: j - i > IDEMPOTENCY_LIMIT
  }

  function Keys(h: seq<Remembered>): seq<Key> {
    seq(|h|, i requires 0 <= i < |h| => h[i].key)
  }

  function RequestIds(h: seq<Remembered>): seq<RequestId> {
    seq(|h|, i requires 0 <= i < |h| => h[i].requestId)
  }

  ghost predicate Holds(completed: map<Key, CompletedMutation>, entries: seq<Remembered>) {
    forall i | 0 <= i < |entries| ::
      entries[i].key in completed
      && completed[entries[i].key] == CompletedMutation(entries[i].fingerprint, entries[i].response)
  }

  /** Map and queue hold the recent history: same keys, same order, same contents. */
  ghost predicate WindowInv(l: Ledger) {
    && Spaced(l.history)
    && l.completedOrder == Keys(Recent(l.history))
    && l.completed.Keys == Elements(l.completedOrder)
    && Holds(l.completed, Recent(l.history))
  }

  /** Set and queue of finished request IDs hold the last 256 listed. */
  ghost predicate RequestsInv(l: Ledger) {
    && IsListing(l.completedRequestOrder, l.completedRequests)
    && l.completedRequestOrder == Recent(Admitted(l.history))
  }

  ghost predicate Inv(l: Ledger) {
    WindowInv(l) && RequestsInv(l)
  }

  // ---- Keeping the collections in step ----

  lemma SpacedAppend(h: seq<Remembered>, m: Remembered)
    requires Spaced(h)
    requires forall e | e in Recent(h) :: e.key != m.key
    ensures Spaced(h + [m])
  {
    forall i | Excess(|h|) <= i < |h| ensures h[i].key != m.key {
      assert Recent(h)[i - Excess(|h|)] == h[i];
    }
  }

  lemma RecentAppend<T>(h: seq<T>, m: T)
    ensures Recent(h + [m]) == (Recent(h) + [m])[Excess(|Recent(h)| + 1)..]
  {
  }

  lemma RecentDistinctKeys(h: seq<Remembered>)
    requires Spaced(h)
    ensures IsListing(Keys(Recent(h)), Elements(Keys(Recent(h))))
  {
    var r := Recent(h);
    forall i, j | 0 <= i < j < |r| ensures r[i].key != r[j].key {
      assert r[i] == h[i + Excess(|h|)] && r[j] == h[j + Excess(|h|)];
    }
  }

  /** Dropping the front of a duplicate-free queue removes exactly those elements from its set. */
  lemma DropFront<T>(queue: seq<T>, e: nat)
    requires e <= |queue| && IsListing(queue, Elements(queue))
    ensures IsListing(queue[e..], Elements(queue) - Elements(queue[..e]))
  {
    assert queue == queue[..e] + queue[e..];
    forall x | x in queue[e..] ensures x !in queue[..e] {
      var j :| 0 <= j < |queue[e..]| && queue[e..][j] == x;
      assert queue[e + j] == x;
    }
  }

  lemma Push<T>(queue: seq<T>, xs: set<T>, x: T)
    requires IsListing(queue, xs) && x !in xs
    ensures IsListing(queue + [x], xs + {x})
  {
    assert forall i | 0 <= i < |queue| :: queue[i] in queue;
  }

  lemma HoldsAfterInsert(completed: map<Key, CompletedMutation>, entries: seq<Remembered>, m: Remembered)
    requires Holds(completed, entries) && m.key !in completed
    ensures Holds(completed[m.key := CompletedMutation(m.fingerprint, m.response)], entries + [m])
  {
  }

  lemma HoldsAfterEvict(completed: map<Key, CompletedMutation>, entries: seq<Remembered>, e: nat)
    requires Holds(completed, entries) && e <= |entries|
    requires IsListing(Keys(entries), Elements(Keys(entries)))
    ensures Holds(completed - Elements(Keys(entries)[..e]), entries[e..])
  {
    var keys := Keys(entries);
    DropFront(keys, e);
    forall i | 0 <= i < |entries[e..]| ensures entries[e..][i].key !in keys[..e] {
      assert keys[e..][i] == entries[e..][i].key;
    }
  }

  lemma FreshKey(l: Ledger, key: Key)
    requires WindowInv(l) && key !in l.completed
    ensures forall x | x in Recent(l.history) :: x.key != key
  {
  }

  lemma KeysPush(h: seq<Remembered>, m: Remembered, e: nat)
    requires e <= |h| + 1
    ensures Keys((h + [m])[e..]) == (Keys(h) + [m.key])[e..]
  {
  }

  lemma RememberKeepsSpacing(l: Ledger, m: Remembered)
    requires WindowInv(l) && m.key !in l.completed
    ensures Spaced(l.history + [m])
    ensures Remember(l, m).completedOrder == Keys(Recent(l.history + [m]))
  {
    FreshKey(l, m.key);
    SpacedAppend(l.history, m);
    RecentAppend(l.history, m);
    KeysPush(Recent(l.history), m, Excess(|l.completedOrder| + 1));
  }

  lemma RememberKeepsContents(l: Ledger, m: Remembered)
    requires WindowInv(l) && m.key !in l.completed
    ensures Remember(l, m).completed.Keys == Elements(Remember(l, m).completedOrder)
    ensures Holds(Remember(l, m).completed, Recent(l.history + [m]))
  {
    var recent := Recent(l.history);
    var pushed := recent + [m];
    var e := Excess(|pushed|);
    RecentDistinctKeys(l.history);
    Push(l.completedOrder, l.completed.Keys, m.key);
    KeysPush(recent, m, 0);
    assert pushed[0..] == pushed;
    DropFront(Keys(pushed), e);
    HoldsAfterInsert(l.completed, recent, m);
    HoldsAfterEvict(l.completed[m.key := CompletedMutation(m.fingerprint, m.response)], pushed, e);
    RecentAppend(l.history, m);
  }

  /** A mutation whose key is not remembered keeps map, queue and history in step. */
  lemma RememberKeepsWindow(l: Ledger, m: Remembered)
    requires WindowInv(l) && m.key !in l.completed
    ensures WindowInv(Remember(l, m))
  {
    RememberKeepsSpacing(l, m);
    RememberKeepsContents(l, m);
  }

  lemma AdmittedAppend(h: seq<Remembered>, m: Remembered)
    ensures Admitted(h + [m])
         == if m.requestId in Recent(Admitted(h)) then Admitted(h) else Admitted(h) + [m.requestId]
  {
    assert (h + [m])[..|h|] == h;
  }

  lemma RememberKeepsRequests(l: Ledger, m: Remembered)
    requires RequestsInv(l)
    ensures RequestsInv(Remember(l, m))
  {
    AdmittedAppend(l.history, m);
    if m.requestId !in l.completedRequests {
      Push(l.completedRequestOrder, l.completedRequests, m.requestId);
      RecentAppend(Admitted(l.history), m.requestId);
      DropFront(l.completedRequestOrder + [m.requestId], Excess(|l.completedRequestOrder| + 1));
    } else {
      assert l.completedRequests + {m.requestId} == l.completedRequests;
    }
  }

  lemma {:induction false} AdmittedLength(h: seq<Remembered>)
    ensures |Admitted(h)| <= |h|
  {
    if h != [] {
      AdmittedLength(h[..|h| - 1]);
    }
  }

  lemma RequestIdsAppend(h: seq<Remembered>, m: Remembered)
    ensures RequestIds(h + [m]) == RequestIds(h) + [m.requestId]
    ensures RequestIds(Recent(h)) == Recent(RequestIds(h))
  {
  }

  /** One more entry keeps the spacing exactly when its ID is not among the last 256. */
  lemma SpacedRequestsAppend(h: seq<Remembered>, m: Remembered)
    ensures SpacedRequests(h + [m]) <==> SpacedRequests(h) && m.requestId !in Recent(RequestIds(h))
  {
    var longer, recent := h + [m], Recent(RequestIds(h));
    if SpacedRequests(longer) {
      assert forall i | 0 <= i < |h| :: longer[i] == h[i];
      forall k | 0 <= k < |recent| ensures recent[k] != m.requestId {
        assert longer[k + Excess(|h|)].requestId == recent[k] && longer[|h|] == m;
      }
    }
    if SpacedRequests(h) && m.requestId !in recent {
      forall i | Excess(|h|) <= i < |h| ensures h[i].requestId != m.requestId {
        assert recent[i - Excess(|h|)] == h[i].requestId;
      }
    }
  }

  /** The IDs listed are those of the history, one by one, exactly when IDs are spaced. */
  lemma {:induction false} AdmittedIffSpaced(h: seq<Remembered>)
    ensures Admitted(h) == RequestIds(h) <==> SpacedRequests(h)
  {
    if h != [] {
      var before, last := h[..|h| - 1], h[|h| - 1];
      assert h == before + [last];
      AdmittedIffSpaced(before);
      AdmittedAppend(before, last);
      AdmittedLength(before);
      RequestIdsAppend(before, last);
      SpacedRequestsAppend(before, last);
      if Admitted(h) == RequestIds(h) {
        assert Admitted(before) == Admitted(h)[..|before|] == RequestIds(before);
      }
    }
  }

  /** The queue of finished request IDs would name the mutations the queue of keys names. */
  ghost predicate QueuesAgree(h: seq<Remembered>) {
    Recent(Admitted(h)) == RequestIds(Recent(h))
  }

  /** An ID that comes again too soon is not listed, and the two queues are out of step. */
  lemma TooSoon(h: seq<Remembered>, m: Remembered)
    requires SpacedRequests(h) && m.requestId in Recent(RequestIds(h))
    ensures !QueuesAgree(h + [m])
  {
    var ids := RequestIds(h);
    AdmittedIffSpaced(h);
    AdmittedAppend(h, m);
    RequestIdsAppend(h, m);
    RequestIdsAppend(h + [m], m);
    if |h| >= IDEMPOTENCY_LIMIT {
      var e := Excess(|h|);
      assert Recent(ids)[0] == h[e].requestId && Recent(ids + [m.requestId])[0] == h[e + 1].requestId;
    }
  }

  ghost predicate QueuesAlwaysAgree(h: seq<Remembered>) {
    forall n | 0 <= n <= |h| :: QueuesAgree(h[..n])
  }

  lemma AlwaysAgreeAppend(h: seq<Remembered>, m: Remembered)
    ensures QueuesAlwaysAgree(h + [m]) <==> QueuesAlwaysAgree(h) && QueuesAgree(h + [m])
  {
    var longer := h + [m];
    assert longer[..|longer|] == longer;
    assert forall n | 0 <= n <= |h| :: longer[..n] == h[..n];
  }

  lemma SpacedAgree(h: seq<Remembered>)
    requires SpacedRequests(h)
    ensures QueuesAgree(h)
  {
    AdmittedIffSpaced(h);
    if h != [] {
      RequestIdsAppend(h, h[0]);
    }
  }

  /**
    The queues of keys and of request IDs name the same mutations, position by position and after
    every entry of the history, exactly when IDs are spaced.
   */
  lemma {:induction false} QueuesAgreeIffSpaced(h: seq<Remembered>)
    ensures QueuesAlwaysAgree(h) <==> SpacedRequests(h)
  {
    if h != [] {
      var before, last := h[..|h| - 1], h[|h| - 1];
      assert h == before + [last];
      QueuesAgreeIffSpaced(before);
      AlwaysAgreeAppend(before, last);
      SpacedRequestsAppend(before, last);
      if SpacedRequests(h) {
        SpacedAgree(h);
      } else if SpacedRequests(before) {
        TooSoon(before, last);
      }
    }
  }

  /** An ID used again while it is the oldest listed is not listed anew: the next mutation drops it. */
  lemma ReuseDoesNotRenew(h: seq<Remembered>, again: Remembered, next: Remembered)
    requires |h| == IDEMPOTENCY_LIMIT && SpacedRequests(h + [next])
    requires again.requestId == h[0].requestId
    ensures again.requestId in RequestIds(Recent(h + [again] + [next]))
    ensures again.requestId !in Recent(Admitted(h + [again] + [next]))
  {
    var ids, both := RequestIds(h), h + [again];
    SpacedRequestsAppend(h, next);
    AdmittedIffSpaced(h);
    assert ids[0] == again.requestId && Recent(ids) == ids;
    AdmittedAppend(h, again);
    AdmittedAppend(both, next);
    LastTwo(h, again, next);
    OldestDropped(ids, next.requestId);
  }

  lemma LastTwo(h: seq<Remembered>, again: Remembered, next: Remembered)
    requires |h| == IDEMPOTENCY_LIMIT
    ensures again.requestId in RequestIds(Recent(h + [again] + [next]))
  {
    var ids := RequestIds(Recent(h + [again] + [next]));
    assert ids[|h| - 2] == again.requestId;
  }

  lemma OldestDropped<T>(ids: seq<T>, id: T)
    requires |ids| == IDEMPOTENCY_LIMIT && IsListing(ids, Elements(ids)) && id !in ids
    ensures ids[0] !in Recent(ids + [id])
  {
    assert Recent(ids + [id]) == ids[1..] + [id];
  }

  lemma RememberKeepsInv(l: Ledger, m: Remembered)
    requires Inv(l) && m.key !in l.completed
    ensures Inv(Remember(l, m))
  {
    RememberKeepsWindow(l, m);
    RememberKeepsRequests(l, m);
  }

  // ---- The map answers what a search of the history answers ----

  lemma {:induction false} RecallFinds(h: seq<Remembered>, key: Key, depth: nat)
    ensures Recall(h, key, depth).None? <==> forall i | 0 <= i < |h| && |h| - i <= depth :: h[i].key != key
    ensures Recall(h, key, depth).Some? ==>
              exists i | 0 <= i < |h| && |h| - i <= depth :: Recall(h, key, depth).value == h[i]
  {
    if h != [] && depth != 0 && h[|h| - 1].key != key {
      var init := h[..|h| - 1];
      RecallFinds(init, key, depth - 1);
      assert forall i | 0 <= i < |init| :: init[i] == h[i];
      if Recall(init, key, depth - 1).Some? {
        var i :| 0 <= i < |init| && |init| - i <= depth - 1 && Recall(init, key, depth - 1).value == init[i];
        assert h[i] == init[i];
      }
    }
  }

  /**
    The fast form refines the simple one: looking a key up in the bounded map is searching the
    last 256 entries of the unbounded history.
   */
  lemma MapIsRecall(l: Ledger, key: Key)
    requires WindowInv(l)
    ensures
      var r := Recall(l.history, key, IDEMPOTENCY_LIMIT);
      && (key in l.completed <==> r.Some?)
      && (r.Some? ==> l.completed[key] == CompletedMutation(r.value.fingerprint, r.value.response))
  {
    var h, recent := l.history, Recent(l.history);
    var r := Recall(h, key, IDEMPOTENCY_LIMIT);
    RecallFinds(h, key, IDEMPOTENCY_LIMIT);
    if r.Some? {
      var i :| 0 <= i < |h| && |h| - i <= IDEMPOTENCY_LIMIT && r.value == h[i];
      assert recent[i - Excess(|h|)] == r.value;
    } else {
      forall i | 0 <= i < |recent| ensures Keys(recent)[i] != key {
        assert h[i + Excess(|h|)].key != key;
      }
    }
  }

  /** An entry among the last 256 is the only one of those under its key, and is found by it. */
  lemma RecentIsRecalled(h: seq<Remembered>, m: nat)
    requires Spaced(h) && m < |h| <= m + IDEMPOTENCY_LIMIT
    ensures Recall(h, h[m].key, IDEMPOTENCY_LIMIT) == Some(h[m])
  {
    RecallFinds(h, h[m].key, IDEMPOTENCY_LIMIT);
    var n :| 0 <= n < |h| && |h| - n <= IDEMPOTENCY_LIMIT && Recall(h, h[m].key, IDEMPOTENCY_LIMIT).value == h[n];
    assert n == m;
  }
}
