/** Leasing: which rows are handed out, to whom, and how a lease excludes a second handout. */
module HubLeases {
  import opened Basics
  import opened HubSpec
  import opened HubInvariant
  import opened HubHistory

  // ----- one lease -----

  lemma PrefixCons<T>(x: T, s: seq<T>, n: int)
    requires n > 0
    ensures Prefix([x] + s, n) == [x] + Prefix(s, n - 1)
  {
  }

  /** Rows come up in the listing's order, each once. */
  lemma {:induction false} EligibleInOrder(h: Hub, order: seq<DKey>, now: Time)
    requires Distinct(order) && OldestFirst(h, order)
    ensures Distinct(Eligible(h, order, now)) && OldestFirst(h, Eligible(h, order, now))
  {
    if order != [] {
      var first, later := order[0], order[1..];
      assert Distinct(later) && OldestFirst(h, later) by {
        assert forall i :: 0 <= i < |later| ==> later[i] == order[i + 1];
      }
      EligibleInOrder(h, later, now);
      forall k | k in Eligible(h, later, now)
        ensures k != first && h.deliveries[first].createdAt <= h.deliveries[k].createdAt
      {
        var i :| 0 <= i < |later| && later[i] == k;
        assert order[i + 1] == k;
      }
    }
  }

  ghost predicate OldestFirst(h: Hub, ks: seq<DKey>) {
    && (forall k :: k in ks ==> k in h.deliveries)
    && forall i, j :: 0 <= i < j < |ks| ==> h.deliveries[ks[i]].createdAt <= h.deliveries[ks[j]].createdAt
  }

  /** No eligible row is passed over for a later one. */
  lemma {:induction false} NonePassedOver(h: Hub, order: seq<DKey>, limit: int, now: Time, i: nat, j: nat)
    requires Distinct(order) && i < j < |order|
    requires order[j] in Handed(h, order, limit, now) && Leasable(h, order[i], now)
    ensures order[i] in Handed(h, order, limit, now)
  {
    var first, later := order[0], order[1..];
    var rest := Eligible(h, later, now);
    assert later[j - 1] == order[j] != first;
    if Leasable(h, first, now) {
      PrefixCons(first, rest, limit);
      if i > 0 {
        assert order[j] in Handed(h, later, limit - 1, now);
        NonePassedOver(h, later, limit - 1, now, i - 1, j - 1);
      }
    } else {
      assert Handed(h, order, limit, now) == Handed(h, later, limit, now);
      NonePassedOver(h, later, limit, now, i - 1, j - 1);
    }
  }

  /**
   * A lease hands out exactly the first `limit` eligible rows in order: rows that are blocked or
   * under a live lease never use up the limit, and none is passed over.
   */
  lemma HandsOutFirstEligible(h: Hub, m: MemberId, order: seq<DKey>, limit: int, now: Time)
    requires IsListing(h, m, order)
    ensures var ks := Handed(h, order, limit, now);
      && Distinct(ks) && OldestFirst(h, ks)
      && |ks| <= (if limit < 0 then 0 else limit)
      && (forall k :: k in ks ==> k in h.deliveries && k.to == m && Leasable(h, k, now))
      && (forall i, j :: 0 <= i < j < |order| && order[j] in ks && Leasable(h, order[i], now) ==> order[i] in ks)
      && (|ks| < limit ==> forall k: DKey :: k.to == m && Leasable(h, k, now) ==> k in ks)
  {
    var es, ks := Eligible(h, order, now), Handed(h, order, limit, now);
    EligibleInOrder(h, order, now);
    forall k | k in ks ensures k in es {
    }
    forall i: nat, j: nat | i < j < |order| && order[j] in ks && Leasable(h, order[i], now) ensures order[i] in ks {
      NonePassedOver(h, order, limit, now, i, j);
    }
    if |ks| < limit {
      assert ks == es;
      forall k: DKey | k.to == m && Leasable(h, k, now) ensures k in ks {
        assert k in order;
      }
    }
  }

  /**
   * The ordering guard: a terminal echo reaches the recipient only when the create is done and
   * the recipient's uuid is known, and every uuid handed out is the member's own copy.
   */
  lemma HandoutsAreOwnCopies(h: Hub, p: Principal, order: seq<DKey>, limit: int, seconds: Time, now: Time, e: Entry)
    requires HubInv(h) && IsListing(h, p.member, order)
    requires Lease(h, p, order, limit, seconds, now).result.Ok?
    requires e in Lease(h, p, order, limit, seconds, now).result.value
    ensures e.key.to == p.member && e.key.tid in h.transfers
    ensures e.CreateEntry? ==>
      p.member == h.transfers[e.key.tid].to && e.payload == h.transfers[e.key.tid].payload
    ensures e.EchoEntry? ==>
      var tr := h.transfers[e.key.tid];
      if p.member == tr.from then e.uuid == tr.src
      else p.member == tr.to && CreateDone(h, e.key.tid) && tr.dst == Some(e.uuid)
  {
    var ks := Handed(h, order, limit, now);
    var i :| 0 <= i < |ks| && Entries(h, ks, now)[i] == e;
    assert ks[i] in Eligible(h, order, now);
    assert DeliveryOk(h, e.key) && TransferOk(h, e.key.tid);
  }

  /** The watchlist too names only the member's own copy. */
  lemma WatchIsOwnCopy(h: Hub, p: Principal, q: seq<Watched>, w: Watched)
    requires HubInv(h) && IsWatchlist(h, p, q) && w in q
    ensures w.tid in h.transfers
    ensures var tr := h.transfers[w.tid];
      if w.role == Sender then tr.from == p.member && w.uuid == tr.src
      else tr.to == p.member && tr.dst == Some(w.uuid)
  {
    assert TransferOk(h, w.tid);
  }

  // ----- leases over a run -----

  predicate HandsOut(h: Hub, c: Call, k: DKey) {
    c.CallLease? && c.p.canReceive && k in Handed(h, c.order, c.limit, c.now)
  }

  predicate Returns(c: Call, k: DKey) {
    c.CallNack? && c.key == k && c.p.member == k.to
  }

  /** Neither handed out nor returned by the call. */
  predicate LeftAlone(h: Hub, c: Call, k: DKey) {
    !HandsOut(h, c, k) && !Returns(c, k)
  }

  /** A live lease moves only by a handout, a nack, an ack or deletion. */
  lemma LeaseStays(h: Hub, c: Call, k: DKey)
    requires k in h.deliveries && h.deliveries[k].progress.Leased?
    requires LeftAlone(h, c, k)
    ensures k in Do(h, c).deliveries ==>
      Do(h, c).deliveries[k].progress == h.deliveries[k].progress || Do(h, c).deliveries[k].progress == Done
  {
    if c.CallObserve? { ObserveIsDecide(h, c.p, c.t, c.s, c.now); }
  }

  lemma HeldOrDone(states: seq<Hub>, calls: seq<Call>, n: nat, k: DKey, lease: Progress)
    requires Run(states, calls) && n < |calls| && k in states[n].deliveries && k in states[n + 1].deliveries
    requires lease.Leased? && (states[n].deliveries[k].progress == lease || states[n].deliveries[k].progress == Done)
    requires LeftAlone(states[n], calls[n], k)
    ensures states[n + 1].deliveries[k].progress == lease || states[n + 1].deliveries[k].progress == Done
  {
    if states[n].deliveries[k].progress == Done {
      RunGrows(states, calls, n, n + 1);
    } else {
      LeaseStays(states[n], calls[n], k);
    }
  }

  lemma HandedOver(h: Hub, c: Call, k: DKey)
    requires HandsOut(h, c, k)
    ensures k in h.deliveries && Leasable(h, k, c.now)
    ensures k in Do(h, c).deliveries && Do(h, c).deliveries[k].progress == Leased(c.p.device, c.now + c.seconds)
  {
    assert k in Eligible(h, c.order, c.now);
  }

  /** A row not handed out again and not returned keeps its lease until it is done. */
  lemma {:induction false} LeaseHolds(states: seq<Hub>, calls: seq<Call>, i: nat, j: nat, k: DKey, lease: Progress)
    requires Run(states, calls) && i <= j <= |calls| && lease.Leased?
    requires k in states[i].deliveries && k in states[j].deliveries
    requires states[i].deliveries[k].progress == lease || states[i].deliveries[k].progress == Done
    requires forall n :: i <= n < j ==> LeftAlone(states[n], calls[n], k)
    ensures states[j].deliveries[k].progress == lease || states[j].deliveries[k].progress == Done
    decreases j - i
  {
    if i < j {
      assert k in states[i + 1].deliveries by {
        if k !in states[i + 1].deliveries { KeyNotReused(states, calls, k, i, i + 1, j); }
      }
      HeldOrDone(states, calls, i, k, lease);
      LeaseHolds(states, calls, i + 1, j, k, lease);
    }
  }

  /**
   * Lease exclusivity: between two consecutive handouts of one delivery, either the clock passed
   * the first lease's expiry or the lease was given back.
   */
  lemma LeaseExcludes(states: seq<Hub>, calls: seq<Call>, i: nat, j: nat, k: DKey)
    requires Run(states, calls) && i < j < |calls|
    requires HandsOut(states[i], calls[i], k) && HandsOut(states[j], calls[j], k)
    requires forall n :: i < n < j ==> !HandsOut(states[n], calls[n], k)
    ensures calls[i].now + calls[i].seconds < calls[j].now
         || exists n :: i < n < j && Returns(calls[n], k)
  {
    HandedOver(states[i], calls[i], k);
    HandedOver(states[j], calls[j], k);
    if forall n :: i < n < j ==> !Returns(calls[n], k) {
      forall n | i < n < j ensures LeftAlone(states[n], calls[n], k) {
      }
      LeaseHolds(states, calls, i + 1, j, k, Leased(calls[i].p.device, calls[i].now + calls[i].seconds));
    }
  }

  function Handouts(states: seq<Hub>, calls: seq<Call>, k: DKey, n: nat): nat
    requires n <= |calls| && n < |states|
  {
    if n == 0 then 0
    else Handouts(states, calls, k, n - 1) + (if HandsOut(states[n - 1], calls[n - 1], k) then 1 else 0)
  }

  lemma {:induction false} HandedWasThere(states: seq<Hub>, calls: seq<Call>, k: DKey, n: nat)
    requires Run(states, calls) && n < |states| && Handouts(states, calls, k, n) > 0
    ensures exists i: nat :: i < n && k in states[i].deliveries
  {
    if HandsOut(states[n - 1], calls[n - 1], k) {
      assert k in Eligible(states[n - 1], calls[n - 1].order, calls[n - 1].now);
    } else {
      HandedWasThere(states, calls, k, n - 1);
    }
  }

  lemma AttemptsStep(h: Hub, c: Call, k: DKey)
    requires k in h.deliveries && k in Do(h, c).deliveries
    ensures Do(h, c).deliveries[k].attempts == h.deliveries[k].attempts + (if HandsOut(h, c, k) then 1 else 0)
  {
    if c.CallObserve? { ObserveIsDecide(h, c.p, c.t, c.s, c.now); }
  }

  lemma NewRowsUnattempted(h: Hub, c: Call, k: DKey)
    requires k !in h.deliveries && k in Do(h, c).deliveries
    ensures Do(h, c).deliveries[k].attempts == 0 && !HandsOut(h, c, k)
  {
    if c.CallObserve? { ObserveIsDecide(h, c.p, c.t, c.s, c.now); }
  }

  /** A row's attempts count is the number of times it was handed out. */
  lemma {:induction false} AttemptsAreHandouts(states: seq<Hub>, calls: seq<Call>, k: DKey, n: nat)
    requires Run(states, calls) && states[0].deliveries == map[] && n < |states|
    requires k in states[n].deliveries
    ensures states[n].deliveries[k].attempts == Handouts(states, calls, k, n)
  {
    if n > 0 {
      if k in states[n - 1].deliveries {
        AttemptsAreHandouts(states, calls, k, n - 1);
        AttemptsStep(states[n - 1], calls[n - 1], k);
      } else {
        NewRowsUnattempted(states[n - 1], calls[n - 1], k);
        if Handouts(states, calls, k, n - 1) > 0 {
          HandedWasThere(states, calls, k, n - 1);
          var i: nat :| i < n - 1 && k in states[i].deliveries;
          KeyNotReused(states, calls, k, i, n - 1, n);
        }
      }
    }
  }

  // ----- a suppressed create -----

  lemma DstStaysEmpty(h: Hub, c: Call, t: Tid)
    requires t in h.transfers && t in Do(h, c).transfers && h.transfers[t].dst.None? && CreateDone(h, t)
    requires c.CallAck? && c.key in h.deliveries ==> DeliveryOk(h, c.key)
    requires c.CallPush? ==> c.id !in h.transfers
    ensures Do(h, c).transfers[t].dst.None?
  {
    if c.CallObserve? { ObserveIsDecide(h, c.p, c.t, c.s, c.now); }
  }

  lemma SkipStep(h: Hub, h': Hub, c: Call, t: Tid)
    requires HubInv(h) && Legal(h, c) && h' == Do(h, c) && Skipped(h, t)
    ensures Skipped(h', t)
  {
    DoGrows(h, c);
    DstStaysEmpty(h, c, t);
    assert CreateKey(h, t) in h'.deliveries;
  }

  lemma {:induction false} SkipStays(states: seq<Hub>, calls: seq<Call>, t: Tid, i: nat, j: nat)
    requires Run(states, calls) && i <= j < |states| && Skipped(states[i], t)
    ensures Skipped(states[j], t)
    decreases j - i
  {
    if i < j {
      RunStep(states, calls, i);
      SkipStep(states[i], states[i + 1], calls[i], t);
      SkipStays(states, calls, t, i + 1, j);
    }
  }

  /**
   * A suppressed create stays dead: in every continuation the mapping stays empty and no lease
   * hands the recipient anything for that transfer.
   */
  lemma SkipIsForever(states: seq<Hub>, calls: seq<Call>, t: Tid, i: nat, j: nat)
    requires Run(states, calls) && i <= j < |states| && Skipped(states[i], t)
    ensures Skipped(states[j], t) && states[j].transfers[t].dst.None?
    ensures forall k: DKey, now :: k.tid == t && k.to == states[j].transfers[t].to ==> !Leasable(states[j], k, now)
  {
    SkipStays(states, calls, t, i, j);
    RunInv(states, calls, j);
    NothingForSkipped(states[j], t);
  }

  lemma NothingForSkipped(h: Hub, t: Tid)
    requires Skipped(h, t) && TransferOk(h, t)
    ensures forall k: DKey, now :: k.tid == t && k.to == h.transfers[t].to ==> !Leasable(h, k, now)
  {
  }

  lemma RevivalQueuesEcho(h: Hub, p: Principal, t: Tid, now: Time)
    requires Skipped(h, t) && TransferOk(h, t) && h.transfers[t].from == p.member && p.tenant == h.transfers[t].tenant
    requires h.transfers[t].terminal == Some(Canceled) && !CancelDelivered(h, t)
    ensures DKey(t, Complete, h.transfers[t].to) in Observe(h, p, t, Completed, now).hub.deliveries
  {
  }

  lemma RecipientStays(states: seq<Hub>, calls: seq<Call>, t: Tid, n: nat)
    requires Run(states, calls) && n < |states| && t in states[0].transfers
    ensures t in states[n].transfers && states[n].transfers[t].to == states[0].transfers[t].to
  {
    RunGrows(states, calls, 0, n);
  }

  /**
   * What undisciplined observation costs: a sender who upgrades a suppressed create queues the
   * recipient an echo that no continuation ever hands out.
   */
  lemma RevivedSkipStrandsEcho(
      h: Hub, p: Principal, t: Tid, now: Time, states: seq<Hub>, calls: seq<Call>, n: nat, clock: Time)
    requires HubInv(h) && Authentic(h, p) && Skipped(h, t)
    requires h.transfers[t].from == p.member && h.transfers[t].terminal == Some(Canceled) && !CancelDelivered(h, t)
    requires Run(states, calls) && states[0] == Observe(h, p, t, Completed, now).hub && n < |states|
    ensures var e := DKey(t, Complete, h.transfers[t].to);
      e in states[0].deliveries && !Leasable(states[n], e, clock)
  {
    assert TransferOk(h, t);
    RevivalQueuesEcho(h, p, t, now);
    SkipStep(h, states[0], CallObserve(p, t, Completed, now), t);
    SkipIsForever(states, calls, t, 0, n);
    RecipientStays(states, calls, t, n);
    assert states[0].transfers[t].to == h.transfers[t].to by { ObserveIsDecide(h, p, t, Completed, now); }
  }
}
