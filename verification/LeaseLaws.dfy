/** Which rows a lease hands out, what it says of them, and when a lease is over, stated over the rows alone. */
module LeaseLaws {
  import opened Basics
  import opened HubSpec
  import opened HubInvariant
  import opened HubHistory
  import opened HubLeases
  import opened HubLaws

  /** The row was handed out between the two states. */
  predicate Taken(h: Hub, h': Hub, k: DKey) {
    k in h.deliveries && k in h'.deliveries && h'.deliveries[k].attempts != h.deliveries[k].attempts
  }

  function AllTaken(h: Hub, h': Hub): set<DKey> {
    set k | k in h.deliveries && Taken(h, h', k)
  }

  /** Under no lease that still runs. */
  predicate Free(d: Delivery, now: Time) {
    d.progress == Queued || (d.progress.Leased? && d.progress.expires < now)
  }

  /** There is something the member can do about the row: apply a create, or act on the copy they hold. */
  predicate Actionable(h: Hub, k: DKey) {
    k.kind == Create || (k.tid in h.transfers && (k.to == h.transfers[k.tid].from || h.transfers[k.tid].dst.Some?))
  }

  /** The row waits for this member and may be handed out. */
  predicate Waits(h: Hub, m: MemberId, k: DKey, now: Time) {
    k in h.deliveries && k.to == m && Free(h.deliveries[k], now) && Actionable(h, k)
  }

  lemma WaitsIsLeasable(h: Hub, m: MemberId, k: DKey, now: Time)
    requires k in h.deliveries && DeliveryOk(h, k) && TransferOk(h, k.tid)
    ensures Waits(h, m, k, now) <==> k.to == m && Leasable(h, k, now)
  {
  }

  lemma TakenIsHanded(h: Hub, c: Call, h': Hub)
    requires Called(h, c, h') && c.CallLease? && c.p.canReceive
    ensures forall k :: k in AllTaken(h, h') <==> k in Handed(h, c.order, c.limit, c.now)
  {
    forall k | k in Handed(h, c.order, c.limit, c.now) ensures Taken(h, h', k) {
      assert k in Eligible(h, c.order, c.now);
    }
  }

  lemma {:induction false} SizeOfDistinct<T>(s: seq<T>, all: set<T>)
    requires Distinct(s) && forall x :: x in all <==> x in s
    ensures |all| == |s|
    decreases |s|
  {
    if s == [] {
      assert all == {};
    } else {
      var x, rest := s[|s| - 1], s[..|s| - 1];
      assert forall y :: y in s <==> y in rest || y == x;
      SizeOfDistinct(rest, all - {x});
    }
  }

  /**
   * A lease hands out rows of its member that wait, at most as many as the limit; and if it leaves out
   * one that waits, it has handed out as many as the limit, none of them newer.
   */
  lemma LeaseTakes(h: Hub, c: Call, h': Hub)
    requires Called(h, c, h') && c.CallLease?
    ensures forall k :: k in AllTaken(h, h') ==> c.p.canReceive && Waits(h, c.p.member, k, c.now)
    ensures AllTaken(h, h') == {} || |AllTaken(h, h')| <= c.limit
    ensures forall k :: Waits(h, c.p.member, k, c.now) && c.p.canReceive && k !in AllTaken(h, h') ==>
      && c.limit <= |AllTaken(h, h')|
      && forall l :: l in AllTaken(h, h') ==> h.deliveries[l].createdAt <= h.deliveries[k].createdAt
  {
    if c.p.canReceive {
      var ks := Handed(h, c.order, c.limit, c.now);
      TakenIsHanded(h, c, h');
      HandsOutFirstEligible(h, c.p.member, c.order, c.limit, c.now);
      SizeOfDistinct(ks, AllTaken(h, h'));
      forall k | k in AllTaken(h, h') ensures Waits(h, c.p.member, k, c.now) {
        assert DeliveryOk(h, k) && TransferOk(h, k.tid);
        WaitsIsLeasable(h, c.p.member, k, c.now);
      }
      forall k | Waits(h, c.p.member, k, c.now) && k !in AllTaken(h, h')
        ensures c.limit <= |ks| && forall l :: l in ks ==> h.deliveries[l].createdAt <= h.deliveries[k].createdAt
      {
        assert DeliveryOk(h, k) && TransferOk(h, k.tid);
        WaitsIsLeasable(h, c.p.member, k, c.now);
        LeftOutIsNewer(h, c.p.member, c.order, c.limit, c.now, k);
      }
    } else {
      assert AllTaken(h, h') == {};
    }
  }

  lemma LeftOutIsNewer(h: Hub, m: MemberId, order: seq<DKey>, limit: int, now: Time, k: DKey)
    requires IsListing(h, m, order) && k.to == m && Leasable(h, k, now) && k !in Handed(h, order, limit, now)
    ensures limit <= |Handed(h, order, limit, now)|
    ensures forall l :: l in Handed(h, order, limit, now) ==>
      l in h.deliveries && h.deliveries[l].createdAt <= h.deliveries[k].createdAt
  {
    var ks := Handed(h, order, limit, now);
    HandsOutFirstEligible(h, m, order, limit, now);
    assert k in order;
    var i :| 0 <= i < |order| && order[i] == k;
    forall l | l in ks ensures h.deliveries[l].createdAt <= h.deliveries[k].createdAt {
      assert l in Eligible(h, order, now);
      var j :| 0 <= j < |order| && order[j] == l;
      assert j < i;
    }
  }

  // ----- when a lease is over -----

  predicate GivenBack(c: Call, k: DKey) {
    c.CallNack? && c.key == k && c.p.member == k.to
  }

  predicate GivenBackSince(calls: seq<Call>, i: nat, n: nat, k: DKey)
    requires n <= |calls|
  {
    exists m :: i < m < n && GivenBack(calls[m], k)
  }

  lemma TakenByLease(h: Hub, c: Call, h': Hub, k: DKey)
    requires Called(h, c, h') && Taken(h, h', k)
    ensures c.CallLease? && Waits(h, c.p.member, k, c.now)
    ensures h'.deliveries[k].progress == Leased(c.p.device, c.now + c.seconds)
  {
    RowsMoveSo(h, c, h', k);
    LeaseTakes(h, c, h');
    assert k in AllTaken(h, h');
  }

  /** A row still there and unfinished later was there and unfinished before. */
  lemma UnfinishedBefore(states: seq<Hub>, calls: seq<Call>, i: nat, n: nat, j: nat, k: DKey)
    requires Run(states, calls) && i <= n <= j < |states| && k in states[i].deliveries
    requires k in states[j].deliveries && states[j].deliveries[k].progress != Done
    ensures k in states[n].deliveries && states[n].deliveries[k].progress != Done
  {
    if k !in states[n].deliveries { KeyNotReused(states, calls, k, i, n, j); }
    RunGrows(states, calls, n, j);
  }

  /** The row is under the lease call i gave it, or back in the queue if that was given back. */
  predicate Held(states: seq<Hub>, calls: seq<Call>, i: nat, n: nat, k: DKey)
    requires i < |calls| && n <= |calls| && n < |states| && calls[i].CallLease?
  {
    && k in states[n].deliveries
    && states[n].deliveries[k].progress ==
       if GivenBackSince(calls, i, n, k) then Queued else Leased(calls[i].p.device, calls[i].now + calls[i].seconds)
  }

  lemma HeldMoves(h: Hub, c: Call, h': Hub, k: DKey)
    requires Called(h, c, h') && k in h.deliveries && k in h'.deliveries && !Taken(h, h', k)
    requires h.deliveries[k].progress != Done && h'.deliveries[k].progress != Done
    ensures h'.deliveries[k].progress == if GivenBack(c, k) then Queued else h.deliveries[k].progress
  {
    RowsMoveSo(h, c, h', k);
  }

  lemma GivenBackNext(calls: seq<Call>, i: nat, n: nat, k: DKey)
    requires i < n < |calls|
    ensures GivenBackSince(calls, i, n + 1, k) <==> GivenBackSince(calls, i, n, k) || GivenBack(calls[n], k)
  {
  }

  lemma HeldNext(states: seq<Hub>, calls: seq<Call>, i: nat, n: nat, j: nat, k: DKey)
    requires Run(states, calls) && i < n < j < |calls| && calls[i].CallLease? && Held(states, calls, i, n, k)
    requires !Taken(states[n], states[n + 1], k)
    requires k in states[j].deliveries && states[j].deliveries[k].progress != Done
    ensures Held(states, calls, i, n + 1, k)
  {
    UnfinishedBefore(states, calls, n, n, j, k);
    UnfinishedBefore(states, calls, n, n + 1, j, k);
    RunCalls(states, calls, n);
    HeldMoves(states[n], calls[n], states[n + 1], k);
    GivenBackNext(calls, i, n, k);
  }

  lemma {:induction false} HeldAlong(states: seq<Hub>, calls: seq<Call>, i: nat, n: nat, j: nat, k: DKey)
    requires |states| == |calls| + 1 && i < n <= j < |calls| && calls[i].CallLease? && Held(states, calls, i, i + 1, k)
    requires forall m: nat :: i < m < j && Held(states, calls, i, m, k) ==> Held(states, calls, i, m + 1, k)
    ensures Held(states, calls, i, n, k)
    decreases n
  {
    if n > i + 1 { HeldAlong(states, calls, i, n - 1, j, k); }
  }

  /** Until it is handed out again or finished, a row keeps its lease, unless it was given back. */
  lemma HeldOrQueued(states: seq<Hub>, calls: seq<Call>, i: nat, j: nat, k: DKey)
    requires Run(states, calls) && i < j < |calls| && Taken(states[i], states[i + 1], k)
    requires forall n :: i < n < j ==> !Taken(states[n], states[n + 1], k)
    requires k in states[j].deliveries && states[j].deliveries[k].progress != Done
    ensures calls[i].CallLease? && Held(states, calls, i, j, k)
  {
    RunCalls(states, calls, i);
    TakenByLease(states[i], calls[i], states[i + 1], k);
    forall n: nat | i < n < j && Held(states, calls, i, n, k) ensures Held(states, calls, i, n + 1, k) {
      HeldNext(states, calls, i, n, j, k);
    }
    HeldAlong(states, calls, i, j, j, k);
  }

  lemma ActionableStays(states: seq<Hub>, calls: seq<Call>, i: nat, j: nat, k: DKey)
    requires Run(states, calls) && i <= j < |states| && Actionable(states[i], k)
    ensures Actionable(states[j], k)
  {
    RunGrows(states, calls, i, j);
  }

  lemma {:induction false} SubsetSize<T>(a: set<T>, b: set<T>)
    requires a <= b
    ensures |a| <= |b|
  {
    assert b == a + (b - a);
  }

  lemma FewerThanListed(order: seq<DKey>, taken: set<DKey>, k: DKey)
    requires Distinct(order) && k in order && k !in taken && forall l :: l in taken ==> l in order
    ensures |taken| < |order|
  {
    var listed := set l | l in order;
    SizeOfDistinct(order, listed);
    SubsetSize(taken, listed - {k});
  }

  /** With room for every row, a row that waits is handed out. */
  lemma RoomForAll(h: Hub, c: Call, h': Hub, k: DKey)
    requires Called(h, c, h') && c.CallLease? && c.p.canReceive && |c.order| <= c.limit && Waits(h, c.p.member, k, c.now)
    ensures Taken(h, h', k)
  {
    LeaseTakes(h, c, h');
    if k !in AllTaken(h, h') { FewerThanListed(c.order, AllTaken(h, h'), k); }
  }

  lemma PolledWithRoom(h: Hub, c: Call, h': Hub, k: DKey, back: bool, lease: Progress)
    requires Called(h, c, h') && c.CallLease? && c.p.canReceive && c.p.member == k.to && |c.order| <= c.limit
    requires k in h.deliveries && Actionable(h, k) && lease.Leased?
    requires h.deliveries[k].progress == if back then Queued else lease
    ensures Taken(h, h', k) <==> lease.expires < c.now || back
  {
    if Waits(h, k.to, k, c.now) { RoomForAll(h, c, h', k); }
    if Taken(h, h', k) { TakenByLease(h, c, h', k); }
  }

  /**
   * A lease runs to its expiry and no longer. Between two polls of a member with room for every row,
   * a delivery handed out by the first, not handed out since, and still unfinished, is handed out by
   * the second if and only if the clock is past the first lease's expiry or it was given back.
   */
  lemma LeaseRunsToExpiry(states: seq<Hub>, calls: seq<Call>, i: nat, j: nat, k: DKey)
    requires Run(states, calls) && i < j < |calls|
    requires Taken(states[i], states[i + 1], k)
    requires forall n :: i < n < j ==> !Taken(states[n], states[n + 1], k)
    requires k in states[j].deliveries && states[j].deliveries[k].progress != Done
    requires calls[j].CallLease? && calls[j].p.member == k.to && calls[j].p.canReceive && |calls[j].order| <= calls[j].limit
    ensures calls[i].CallLease?
    ensures Taken(states[j], states[j + 1], k) <==>
      (calls[i].now + calls[i].seconds < calls[j].now || GivenBackSince(calls, i, j, k))
  {
    HeldOrQueued(states, calls, i, j, k);
    RunCalls(states, calls, i);
    TakenByLease(states[i], calls[i], states[i + 1], k);
    ActionableStays(states, calls, i, j, k);
    RunCalls(states, calls, j);
    PolledWithRoom(states[j], calls[j], states[j + 1], k, GivenBackSince(calls, i, j, k),
                   Leased(calls[i].p.device, calls[i].now + calls[i].seconds));
  }

  // ----- what a lease says -----

  /** An entry says what its row and transfer say: a create its payload and sender, an echo the member's own copy. */
  predicate SaysSo(h: Hub, h': Hub, m: MemberId, e: Entry) {
    && Taken(h, h', e.key) && e.attempts == h'.deliveries[e.key].attempts
    && (e.CreateEntry? <==> e.key.kind == Create)
    && e.key.tid in h.transfers
    && var tr := h.transfers[e.key.tid];
       if e.CreateEntry? then
         tr.from in h.roster.members && e.payload == tr.payload && e.provenance == "from-" + h.roster.members[tr.from].handle
       else
         if m == tr.from then e.uuid == tr.src else tr.dst == Some(e.uuid)
  }

  /** A lease answers with one entry for each row it hands out, oldest first; it is refused only to members who may not receive. */
  lemma LeaseIsAnswered(h: Hub, p: Principal, order: seq<DKey>, limit: int, seconds: Time, now: Time)
    requires HubInv(h) && Legal(h, CallLease(p, order, limit, seconds, now))
    ensures var r := Lease(h, p, order, limit, seconds, now);
      match r.result
      case Err(e) => !p.canReceive && e == Forbidden && r.hub == h
      case Ok(es) =>
        && p.canReceive && |es| == |AllTaken(h, r.hub)|
        && (forall e :: e in es ==> SaysSo(h, r.hub, p.member, e))
        && (forall i, j :: 0 <= i < j < |es| ==> es[i].key != es[j].key)
        && (forall i, j :: 0 <= i < j < |es| ==>
              es[i].key in h.deliveries && es[j].key in h.deliveries
              && h.deliveries[es[i].key].createdAt <= h.deliveries[es[j].key].createdAt)
  {
    var c := CallLease(p, order, limit, seconds, now);
    var r := Lease(h, p, order, limit, seconds, now);
    if p.canReceive {
      var ks := Handed(h, order, limit, now);
      TakenIsHanded(h, c, r.hub);
      HandsOutFirstEligible(h, p.member, order, limit, now);
      SizeOfDistinct(ks, AllTaken(h, r.hub));
      var es := r.result.value;
      forall i | 0 <= i < |es| ensures es[i].key == ks[i] && SaysSo(h, r.hub, p.member, es[i]) {
        EntrySaysSo(h, p, order, limit, seconds, now, i);
      }
    }
  }

  lemma EntrySaysSo(h: Hub, p: Principal, order: seq<DKey>, limit: int, seconds: Time, now: Time, i: nat)
    requires IsListing(h, p.member, order) && p.canReceive && i < |Handed(h, order, limit, now)|
    requires Lease(h, p, order, limit, seconds, now).result.Ok?
    ensures var r := Lease(h, p, order, limit, seconds, now);
      i < |r.result.value| && r.result.value[i].key == Handed(h, order, limit, now)[i]
      && SaysSo(h, r.hub, p.member, r.result.value[i])
  {
    var k := Handed(h, order, limit, now)[i];
    assert k in Eligible(h, order, now);
    assert k in order;
  }
}
