/** The queue drains: a measure of at most two per transfer counts the successful acks left. */
module HubDrain {
  import opened Basics
  import opened HubSpec
  import opened HubInvariant
  import opened HubHistory
  import opened HubEchoes
  import opened HubLeases
  import LeaseLaws

  function Pending(h: Hub): set<DKey> {
    set k | k in h.deliveries && h.deliveries[k].progress != Done
  }

  /** Transfers whose create, once acked, will queue an echo. */
  function Owing(h: Hub): set<Tid> {
    set t | t in h.transfers && h.transfers[t].terminal.Some? && !CreateDone(h, t)
  }

  function Measure(h: Hub): nat {
    |Pending(h)| + |Owing(h)|
  }

  /** At most one pending delivery per transfer, so at most two acks per transfer are left. */
  lemma MeasureBound(h: Hub)
    requires HubInv(h) && AllAccounted(h)
    ensures |Pending(h)| <= |h.transfers| && Measure(h) <= 2 * |h.transfers|
  {
    var f := map k | k in h.deliveries :: k.tid;
    forall k | k in Pending(h) ensures f[k] in h.transfers.Keys {
      assert DeliveryOk(h, k);
    }
    forall k, l | k in Pending(h) && l in Pending(h) && f[k] == f[l] ensures k == l {
      OnePending(h, k, l);
    }
    InjectionBound(Pending(h), h.transfers.Keys, f);
    InjectionBound(Owing(h), h.transfers.Keys, map t | t in h.transfers :: t);
    assert |h.transfers.Keys| == |h.transfers|;
  }

  lemma OnePending(h: Hub, k: DKey, l: DKey)
    requires k in h.deliveries && DeliveryOk(h, k) && l in h.deliveries && DeliveryOk(h, l)
    requires k.tid == l.tid && TransferOk(h, k.tid) && Accounted(h, k.tid)
    requires h.deliveries[k].progress != Done && h.deliveries[l].progress != Done
    ensures k == l
  {
  }

  lemma CreateAckMeasure(h: Hub, p: Principal, k: DKey, dst: Uuid, now: Time)
    requires Ack(h, p, k, dst, now).result == Ok(Acked) && k.kind == Create
    requires DeliveryOk(h, k) && TransferOk(h, k.tid) && Accounted(h, k.tid)
    ensures Measure(Ack(h, p, k, dst, now).hub) + 1 == Measure(h)
  {
    if h.transfers[k.tid].terminal.Some? { RevokedAckMeasure(h, p, k, dst, now); } else { OpenAckMeasure(h, p, k, dst, now); }
  }

  lemma OpenAckMeasure(h: Hub, p: Principal, k: DKey, dst: Uuid, now: Time)
    requires Ack(h, p, k, dst, now).result == Ok(Acked) && k.kind == Create && h.transfers[k.tid].terminal.None?
    ensures Measure(Ack(h, p, k, dst, now).hub) + 1 == Measure(h)
  {
    var h' := Ack(h, p, k, dst, now).hub;
    assert Pending(h') == Pending(h) - {k};
    assert Owing(h') == Owing(h);
  }

  /** The echo that follows takes the create's place in the queue, and is no longer owed. */
  lemma RevokedAckMeasure(h: Hub, p: Principal, k: DKey, dst: Uuid, now: Time)
    requires Ack(h, p, k, dst, now).result == Ok(Acked) && k.kind == Create && h.transfers[k.tid].terminal.Some?
    requires DeliveryOk(h, k) && TransferOk(h, k.tid) && Accounted(h, k.tid)
    ensures Measure(Ack(h, p, k, dst, now).hub) + 1 == Measure(h)
  {
    var h' := Ack(h, p, k, dst, now).hub;
    var e := DKey(k.tid, EchoKind(h.transfers[k.tid].terminal.value), k.to);
    assert e !in h.deliveries;
    assert Pending(h') == Pending(h) - {k} + {e};
    assert k.tid in Owing(h);
    assert Owing(h') == Owing(h) - {k.tid};
  }

  lemma EchoAckMeasure(h: Hub, p: Principal, k: DKey, dst: Uuid, now: Time)
    requires Ack(h, p, k, dst, now).result == Ok(Acked) && k.kind != Create
    ensures Measure(Ack(h, p, k, dst, now).hub) + 1 == Measure(h)
  {
    var h' := Ack(h, p, k, dst, now).hub;
    assert Pending(h') == Pending(h) - {k};
    assert Owing(h') == Owing(h);
  }

  lemma AckLowers(h: Hub, p: Principal, k: DKey, dst: Uuid, now: Time)
    requires HubInv(h) && AllAccounted(h)
    requires Ack(h, p, k, dst, now).result == Ok(Acked)
    ensures Measure(Ack(h, p, k, dst, now).hub) + 1 == Measure(h)
  {
    if k.kind == Create {
      assert DeliveryOk(h, k) && TransferOk(h, k.tid) && Accounted(h, k.tid);
      CreateAckMeasure(h, p, k, dst, now);
    } else {
      EchoAckMeasure(h, p, k, dst, now);
    }
  }

  lemma LeaseKeepsMeasure(h: Hub, p: Principal, order: seq<DKey>, limit: int, seconds: Time, now: Time)
    requires IsListing(h, p.member, order)
    ensures Measure(Lease(h, p, order, limit, seconds, now).hub) == Measure(h)
    ensures Pending(Lease(h, p, order, limit, seconds, now).hub) == Pending(h)
  {
    var h' := Lease(h, p, order, limit, seconds, now).hub;
    forall k | k in Handed(h, order, limit, now) ensures h.deliveries[k].progress != Done {
      assert k in Eligible(h, order, now);
    }
    assert Pending(h') == Pending(h);
    assert Owing(h') == Owing(h);
  }

  lemma NackKeepsMeasure(h: Hub, p: Principal, k: DKey)
    ensures Measure(Nack(h, p, k).hub) == Measure(h)
  {
    var h' := Nack(h, p, k).hub;
    assert Pending(h') == Pending(h);
    assert Owing(h') == Owing(h);
  }

  predicate Delivers(h: Hub, c: Call) {
    c.CallAck? && Ack(h, c.p, c.key, c.dst, c.now).result == Ok(Acked)
  }

  function Delivered(states: seq<Hub>, calls: seq<Call>, n: nat): nat
    requires n <= |calls| && n < |states|
  {
    if n == 0 then 0
    else Delivered(states, calls, n - 1) + (if Delivers(states[n - 1], calls[n - 1]) then 1 else 0)
  }

  /**
   * With no new pushes or observations, the acks made and the acks left add up: every successful
   * ack is progress and nothing else undoes it.
   */
  lemma {:induction false} AcksAreCounted(states: seq<Hub>, calls: seq<Call>, n: nat)
    requires Run(states, calls) && AllAccounted(states[0]) && n < |states|
    requires forall i :: 0 <= i < |calls| ==> !calls[i].CallPush? && !calls[i].CallObserve?
    ensures AllAccounted(states[n])
    ensures Delivered(states, calls, n) + Measure(states[n]) == Measure(states[0])
  {
    if n > 0 {
      AcksAreCounted(states, calls, n - 1);
      RunInv(states, calls, n - 1);
      CountStep(states[n - 1], calls[n - 1]);
    }
  }

  lemma CountStep(h: Hub, c: Call)
    requires HubInv(h) && AllAccounted(h) && Legal(h, c) && !c.CallPush? && !c.CallObserve?
    ensures AllAccounted(Do(h, c))
    ensures Measure(Do(h, c)) + (if Delivers(h, c) then 1 else 0) == Measure(h)
  {
    DoAccounts(h, c);
    match c
    case CallLease(p, order, limit, seconds, now) => LeaseKeepsMeasure(h, p, order, limit, seconds, now);
    case CallNack(p, key) => NackKeepsMeasure(h, p, key);
    case CallAck(p, key, dst, now) =>
      if Delivers(h, c) { AckLowers(h, p, key, dst, now); }
  }

  /** A live lease, or a member who may not receive, is all that can keep a pending delivery from being handed out. */
  lemma PendingIsDeliverable(h: Hub, p: Principal, order: seq<DKey>, k: DKey, dst: Uuid, seconds: Time, now: Time)
    requires HubInv(h) && AllAccounted(h) && Authentic(h, p) && IsListing(h, p.member, order)
    requires k in Pending(h) && p.member == k.to && dst != ""
    ensures HandsOut(h, CallLease(p, order, |order|, seconds, now), k)
       <==> h.roster.members[k.to].canReceive && LeaseLaws.Free(h.deliveries[k], now)
    ensures Ack(h, p, k, dst, now).result == Ok(Acked)
  {
    assert DeliveryOk(h, k) && TransferOk(h, k.tid) && Accounted(h, k.tid);
    EligibleFits(h, order, now);
  }

  lemma {:induction false} EligibleFits(h: Hub, order: seq<DKey>, now: Time)
    ensures |Eligible(h, order, now)| <= |order|
  {
    if order != [] { EligibleFits(h, order[1..], now); }
  }

  // ----- a schedule that drains the queue -----

  /** Some listing of the member's rows exists: the lease query always has an answer. */
  lemma {:induction false} ListingOf(h: Hub, m: MemberId, ks: set<DKey>) returns (order: seq<DKey>)
    requires forall k :: k in ks ==> k in h.deliveries
    ensures Distinct(order) && (forall k :: k in order <==> k in ks)
    ensures forall i, j :: 0 <= i < j < |order| ==> h.deliveries[order[i]].createdAt <= h.deliveries[order[j]].createdAt
    decreases |ks|
  {
    if ks == {} {
      order := [];
    } else {
      var last := Newest(h, ks);
      var rest := ListingOf(h, m, ks - {last});
      order := rest + [last];
    }
  }

  lemma {:induction false} Newest(h: Hub, ks: set<DKey>) returns (last: DKey)
    requires ks != {} && forall k :: k in ks ==> k in h.deliveries
    ensures last in ks && forall k :: k in ks ==> h.deliveries[k].createdAt <= h.deliveries[last].createdAt
    decreases |ks|
  {
    last :| last in ks;
    if ks != {last} {
      var other := Newest(h, ks - {last});
      if h.deliveries[last].createdAt <= h.deliveries[other].createdAt { last := other; }
    }
  }

  predicate CanReceive(h: Hub, m: MemberId) {
    m in h.roster.members && h.roster.members[m].canReceive
  }

  ghost predicate AllCanReceive(h: Hub) {
    forall k :: k in Pending(h) ==> CanReceive(h, k.to)
  }

  function PrincipalOf(h: Hub, m: MemberId): Principal
    requires m in h.roster.members
  {
    var row := h.roster.members[m];
    Principal(row.tenant, m, 0, row.canSend, row.canReceive)
  }

  /** A listing of all the member's rows, and a clock reading past the row's lease. */
  lemma LapsedListing(h: Hub, k: DKey, clock: Time) returns (order: seq<DKey>, now: Time)
    requires k in Pending(h)
    ensures IsListing(h, k.to, order) && k in order && clock <= now && Lapsed(h.deliveries[k].progress, now)
  {
    var mine := set l | l in h.deliveries && l.to == k.to && h.deliveries[l].progress != Done;
    order := ListingOf(h, k.to, mine);
    now := match h.deliveries[k].progress
           case Leased(_, expires) => (if clock <= expires then expires + 1.0 else clock)
           case _ => clock;
  }

  /** One round: a pending delivery is handed out and then acked. */
  ghost predicate IsRound(h: Hub, h1: Hub, h2: Hub, k: DKey, lease: Call, ack: Call) {
    && lease.CallLease? && Legal(h, lease) && h1 == Do(h, lease) && HandsOut(h, lease, k)
    && ack.CallAck? && ack.key == k && Legal(h1, ack) && h2 == Do(h1, ack) && Delivers(h1, ack)
  }

  lemma Round(h: Hub, k: DKey, clock: Time) returns (h1: Hub, h2: Hub, lease: Call, ack: Call)
    requires HubInv(h) && AllAccounted(h) && k in Pending(h) && CanReceive(h, k.to)
    ensures IsRound(h, h1, h2, k, lease, ack) && clock <= lease.now <= ack.now
  {
    var p := PrincipalOf(h, k.to);
    var order, now := LapsedListing(h, k, clock);
    lease := CallLease(p, order, |order|, 300.0, now);
    ack := CallAck(p, k, "copy", now);
    h1 := Do(h, lease);
    h2 := Do(h1, ack);
    PendingIsDeliverable(h, p, order, k, "copy", 300.0, now);
    LeasedAck(h, p, order, 300.0, now, k, "copy");
  }

  /** A lease takes nothing from the ack of a pending row. */
  lemma LeasedAck(h: Hub, p: Principal, order: seq<DKey>, seconds: Time, now: Time, k: DKey, dst: Uuid)
    requires HubInv(h) && IsListing(h, p.member, order) && k in Pending(h) && p.member == k.to && dst != ""
    ensures var h1 := Lease(h, p, order, |order|, seconds, now).hub;
      Ack(h1, p, k, dst, now).result == Ok(Acked) && h1.roster == h.roster
  {
    LeaseKeepsMeasure(h, p, order, |order|, seconds, now);
    assert DeliveryOk(h, k);
  }

  lemma AfterRound(h: Hub, h1: Hub, h2: Hub, k: DKey, lease: Call, ack: Call)
    requires HubInv(h) && AllAccounted(h) && IsRound(h, h1, h2, k, lease, ack)
    ensures HubInv(h2) && AllAccounted(h2) && Measure(h2) + 1 == Measure(h) && h2.roster == h.roster
  {
    DoGrows(h, lease);
    CountStep(h, lease);
    DoGrows(h1, ack);
    CountStep(h1, ack);
  }

  /** What an ack queues is for the member who made it. */
  lemma AckPending(h: Hub, p: Principal, k: DKey, dst: Uuid, now: Time)
    ensures forall l :: l in Pending(Ack(h, p, k, dst, now).hub) ==> l in Pending(h) || l.to == k.to
  {
  }

  lemma RoundReceives(h: Hub, h1: Hub, h2: Hub, k: DKey, lease: Call, ack: Call)
    requires IsRound(h, h1, h2, k, lease, ack) && AllCanReceive(h) && k in Pending(h) && h2.roster == h.roster
    ensures AllCanReceive(h2)
  {
    LeaseKeepsMeasure(h, lease.p, lease.order, lease.limit, lease.seconds, lease.now);
    AckPending(h1, ack.p, k, ack.dst, ack.now);
  }

  // ----- runs made of rounds -----

  /** The call at an even place is a lease; the next one is an ack, which succeeds, of a row that lease handed out. */
  predicate Turn(states: seq<Hub>, calls: seq<Call>, i: nat)
    requires |states| == |calls| + 1 && i < |calls|
  {
    if i % 2 == 0 then calls[i].CallLease?
    else Delivers(states[i], calls[i]) && HandsOut(states[i - 1], calls[i - 1], calls[i].key)
  }

  ghost predicate Alternates(states: seq<Hub>, calls: seq<Call>)
    requires |states| == |calls| + 1
  {
    forall i :: 0 <= i < |calls| ==> Turn(states, calls, i)
  }

  /** The calls' clock readings never go back, from start on. */
  predicate InTime(start: Time, calls: seq<Call>) {
    && (forall i :: 0 <= i < |calls| ==> !calls[i].CallNack? && start <= calls[i].now)
    && forall i, j :: 0 <= i < j < |calls| ==> calls[i].now <= calls[j].now
  }

  /** The run starts at h, is made of rounds in time order, and ends with nothing pending. */
  ghost predicate Drains(h: Hub, start: Time, states: seq<Hub>, calls: seq<Call>) {
    && Run(states, calls) && states[0] == h
    && Alternates(states, calls) && InTime(start, calls)
    && |calls| == 2 * Measure(h) && Pending(states[|calls|]) == {}
  }

  lemma PrependCall(h: Hub, c: Call, ss: seq<Hub>, cs: seq<Call>)
    requires HubInv(h) && Legal(h, c) && Run(ss, cs) && ss[0] == Do(h, c)
    ensures Run([h] + ss, [c] + cs)
  {
    var states, calls := [h] + ss, [c] + cs;
    forall i | 0 <= i < |calls| ensures Legal(states[i], calls[i]) && states[i + 1] == Do(states[i], calls[i]) {
      if i > 0 { assert states[i] == ss[i - 1] && calls[i] == cs[i - 1]; }
    }
  }

  lemma PrependRun(h: Hub, h1: Hub, h2: Hub, k: DKey, lease: Call, ack: Call, ss: seq<Hub>, cs: seq<Call>)
    requires HubInv(h) && IsRound(h, h1, h2, k, lease, ack) && Run(ss, cs) && ss[0] == h2
    ensures Run([h, h1] + ss, [lease, ack] + cs)
  {
    DoKeepsInv(h, lease);
    PrependCall(h1, ack, ss, cs);
    PrependCall(h, lease, [h1] + ss, [ack] + cs);
    assert [h] + ([h1] + ss) == [h, h1] + ss && [lease] + ([ack] + cs) == [lease, ack] + cs;
  }

  lemma PrependAlternates(h: Hub, h1: Hub, lease: Call, ack: Call, ss: seq<Hub>, cs: seq<Call>)
    requires |ss| == |cs| + 1 && Alternates(ss, cs)
    requires lease.CallLease? && Delivers(h1, ack) && HandsOut(h, lease, ack.key)
    ensures Alternates([h, h1] + ss, [lease, ack] + cs)
  {
    var states, calls := [h, h1] + ss, [lease, ack] + cs;
    forall i | 0 <= i < |calls| ensures Turn(states, calls, i) {
      if i >= 2 {
        assert Turn(ss, cs, i - 2);
        assert states[i] == ss[i - 2] && calls[i] == cs[i - 2];
        if i >= 3 { assert states[i - 1] == ss[i - 3] && calls[i - 1] == cs[i - 3]; }
      }
    }
  }

  lemma PrependInTime(clock: Time, lease: Call, ack: Call, cs: seq<Call>)
    requires lease.CallLease? && ack.CallAck? && clock <= lease.now <= ack.now && InTime(ack.now, cs)
    ensures InTime(clock, [lease, ack] + cs)
  {
    var calls := [lease, ack] + cs;
    forall i | 2 <= i < |calls| ensures calls[i] == cs[i - 2] && !calls[i].CallNack? && ack.now <= calls[i].now {
    }
    forall i, j | 0 <= i < j < |calls| ensures calls[i].now <= calls[j].now {
      if i >= 2 { assert calls[i] == cs[i - 2] && calls[j] == cs[j - 2]; }
    }
  }

  lemma PrependRound(h: Hub, h1: Hub, h2: Hub, k: DKey, lease: Call, ack: Call, clock: Time, ss: seq<Hub>, cs: seq<Call>)
    requires HubInv(h) && IsRound(h, h1, h2, k, lease, ack) && clock <= lease.now <= ack.now
    requires Drains(h2, ack.now, ss, cs) && Measure(h2) + 1 == Measure(h)
    ensures Drains(h, clock, [h, h1] + ss, [lease, ack] + cs)
  {
    PrependRun(h, h1, h2, k, lease, ack, ss, cs);
    PrependAlternates(h, h1, lease, ack, ss, cs);
    PrependInTime(clock, lease, ack, cs);
    assert ([h, h1] + ss)[|cs| + 2] == ss[|cs|];
  }

  /** Rounds empty the queue in as many as the measure, if everyone something is pending for can receive. */
  lemma {:induction false} DrainFrom(h: Hub, clock: Time) returns (states: seq<Hub>, calls: seq<Call>)
    requires HubInv(h) && AllAccounted(h) && AllCanReceive(h)
    ensures Drains(h, clock, states, calls)
    decreases Measure(h)
  {
    if Pending(h) == {} {
      NothingOwed(h);
      states, calls := [h], [];
    } else {
      var k :| k in Pending(h);
      var h1, h2, lease, ack := Round(h, k, clock);
      AfterRound(h, h1, h2, k, lease, ack);
      RoundReceives(h, h1, h2, k, lease, ack);
      var ss, cs := DrainFrom(h2, ack.now);
      PrependRound(h, h1, h2, k, lease, ack, clock, ss, cs);
      states, calls := [h, h1] + ss, [lease, ack] + cs;
    }
  }

  lemma NothingOwed(h: Hub)
    requires HubInv(h) && Pending(h) == {}
    ensures Owing(h) == {}
  {
    forall t | t in h.transfers ensures CreateDone(h, t) {
      assert TransferOk(h, t);
      assert CreateKey(h, t) !in Pending(h);
    }
  }

  // ----- members who may not receive -----

  lemma HandedToReceiver(h: Hub, c: Call, k: DKey)
    requires Legal(h, c) && HandsOut(h, c, k)
    ensures CanReceive(h, k.to)
  {
    assert k in Eligible(h, c.order, c.now);
  }

  /** In no run is a delivery ever handed out to a member who may not receive. */
  lemma NeverHandedOut(states: seq<Hub>, calls: seq<Call>, n: nat, k: DKey)
    requires Run(states, calls) && n < |calls| && !CanReceive(states[0], k.to)
    ensures !HandsOut(states[n], calls[n], k)
  {
    RunGrows(states, calls, 0, n);
    if HandsOut(states[n], calls[n], k) { HandedToReceiver(states[n], calls[n], k); }
  }

  lemma OtherCallsLeave(h: Hub, c: Call, k: DKey)
    requires Legal(h, c) && k in Pending(h) && (c.CallLease? || (c.CallAck? && c.key != k))
    ensures k in Pending(Do(h, c))
  {
    if c.CallLease? { LeaseKeepsMeasure(h, c.p, c.order, c.limit, c.seconds, c.now); }
  }

  lemma TurnIsNotOf(states: seq<Hub>, calls: seq<Call>, n: nat, k: DKey)
    requires |states| == |calls| + 1 && n < |calls| && Turn(states, calls, n)
    requires n > 0 ==> !HandsOut(states[n - 1], calls[n - 1], k)
    ensures calls[n].CallLease? || (calls[n].CallAck? && calls[n].key != k)
  {
  }

  lemma TurnLeaves(states: seq<Hub>, calls: seq<Call>, n: nat, k: DKey)
    requires Run(states, calls) && Alternates(states, calls) && n < |calls|
    requires k in Pending(states[n]) && !CanReceive(states[0], k.to)
    ensures k in Pending(states[n + 1])
  {
    if n > 0 { NeverHandedOut(states, calls, n - 1, k); }
    assert Turn(states, calls, n);
    TurnIsNotOf(states, calls, n, k);
    RunStep(states, calls, n);
    OtherCallsLeave(states[n], calls[n], k);
  }

  lemma {:induction false} PendingAlong(states: seq<Hub>, n: nat, k: DKey)
    requires n < |states| && k in Pending(states[0])
    requires forall i: nat :: i + 1 < |states| && k in Pending(states[i]) ==> k in Pending(states[i + 1])
    ensures k in Pending(states[n])
  {
    if n > 0 { PendingAlong(states, n - 1, k); }
  }

  /** So in a run of rounds what is pending for such a member stays pending. */
  lemma StaysPending(states: seq<Hub>, calls: seq<Call>, n: nat, k: DKey)
    requires Run(states, calls) && Alternates(states, calls) && n < |states|
    requires k in Pending(states[0]) && !CanReceive(states[0], k.to)
    ensures k in Pending(states[n])
  {
    forall i: nat | i + 1 < |states| && k in Pending(states[i]) ensures k in Pending(states[i + 1]) {
      TurnLeaves(states, calls, i, k);
    }
    PendingAlong(states, n, k);
  }

  /**
   * The queue can be drained, by rounds of lease and ack in time order, as many as the measure, if
   * and only if every member something is pending for may receive.
   */
  lemma QueueDrains(h: Hub, start: Time)
    requires HubInv(h) && AllAccounted(h)
    ensures (exists states, calls :: Drains(h, start, states, calls)) <==> AllCanReceive(h)
  {
    if AllCanReceive(h) {
      var states, calls := DrainFrom(h, start);
    }
    if states: seq<Hub>, calls: seq<Call> :| Drains(h, start, states, calls) {
      forall k | k in Pending(h) ensures CanReceive(h, k.to) {
        if !CanReceive(h, k.to) { StaysPending(states, calls, |calls|, k); }
      }
    }
  }
}
