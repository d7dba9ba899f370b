/** A tick that meets no fault delivers its whole batch: every entry handed out is applied and acked. */
module Batches {
  import opened Basics
  import opened HubSpec
  import opened HubInvariant
  import opened HubHistory
  import HubEchoes
  import HubLeases
  import HubDrain
  import LeaseLaws
  import opened SpokeSpec
  import opened SpokeInvariant
  import opened SpokeSteps
  import opened System
  import opened SystemSafety
  import opened HomeInvariant
  import opened HomeCareful
  import opened CarefulRuns
  import opened Hypotheses
  import opened TickPaths
  import Settling
  import TickRuns
  import opened Tick
  import opened Deliverable

  /** Applying a batch, and nothing has gone wrong. */
  predicate InHand(ph: Phase) {
    ph.Inbox? || ph.Firing? || ph.Correlating? || ph.Closed? || ph.Echoed?
  }

  lemma Answered(l: Local)
    requires "" !in l.home.mirror && exists found :: CanFind(l, found)
    ensures !NoAnswer(l)
  {
  }

  lemma SearchIsAnswered(w: World, m: MemberId)
    requires DatedOk(w) && m in w.spokes && m in w.homes && NoneAbandoned(w.spokes[m])
    requires w.spokes[m].phase.Correlating? && w.homes[m].mirror == w.homes[m].todos
    ensures !NoAnswer(LocalOf(w, m))
  {
    SearchHasAnswer(w, m);
    MemberDated(w, m);
    Answered(LocalOf(w, m));
  }

  ghost predicate Missing(l: Local) {
    l.spoke.phase.Correlating? && l.home.mirror == l.home.todos && NoAnswer(l)
  }

  /** A search with a caught-up mirror has an answer. */
  lemma NothingMissing(w: World, m: MemberId)
    requires DatedOk(w) && m in w.spokes && m in w.homes && NoneAbandoned(w.spokes[m])
    ensures !Missing(LocalOf(w, m))
  {
    if w.spokes[m].phase.Correlating? && w.homes[m].mirror == w.homes[m].todos { SearchIsAnswered(w, m); }
  }

  // ----- the ledger along a batch -----

  ghost predicate DistinctKeys(q: seq<Entry>) {
    forall i, j :: 0 <= i < j < |q| ==> q[i].key != q[j].key
  }

  predicate IsDone(h: Hub, k: DKey) {
    k in h.deliveries && h.deliveries[k].progress == Done
  }

  /** The first n entries of the batch are done, the others pending, and each has counted once. */
  ghost predicate Underway(h: Hub, q: seq<Entry>, n: nat, total: nat) {
    && n <= |q| && HubDrain.Measure(h) + n == total
    && (forall i :: 0 <= i < n ==> IsDone(h, q[i].key))
    && (forall i :: n <= i < |q| ==> q[i].key in HubDrain.Pending(h))
  }

  lemma AckedAlone(h: Hub, p: Principal, k: DKey, dst: Uuid, now: Time, l: DKey)
    requires Ack(h, p, k, dst, now).result == Ok(Acked)
    ensures var h' := Ack(h, p, k, dst, now).hub;
      && (IsDone(h', l) <== IsDone(h, l) || l == k)
      && (l in HubDrain.Pending(h) && l != k ==> l in HubDrain.Pending(h'))
  {
  }

  lemma AckUnderway(h: Hub, p: Principal, q: seq<Entry>, n: nat, total: nat, dst: Uuid, now: Time)
    requires HubInv(h) && HubEchoes.AllAccounted(h) && Underway(h, q, n, total) && DistinctKeys(q) && n < |q|
    requires Ack(h, p, q[n].key, dst, now).result == Ok(Acked)
    ensures Underway(Ack(h, p, q[n].key, dst, now).hub, q, n + 1, total)
  {
    HubDrain.AckLowers(h, p, q[n].key, dst, now);
    var h' := Ack(h, p, q[n].key, dst, now).hub;
    forall i | 0 <= i < |q| ensures if i <= n then IsDone(h', q[i].key) else q[i].key in HubDrain.Pending(h') {
      AckedAlone(h, p, q[n].key, dst, now, q[i].key);
    }
  }

  // ----- the spoke along a batch -----

  /** Applying the batch, its first n entries behind. */
  ghost predicate Applying(l: Local, q: seq<Entry>, n: nat, total: nat) {
    && NoneAbandoned(l.spoke) && Underway(l.hub, q, n, total)
    && InHand(l.spoke.phase) && QueueOf(l.spoke.phase) == q[n..]
  }

  /** The world in order, and this member able to act. */
  ghost predicate InOrder(w: World, p: Principal) {
    DatedOk(w) && p.member in w.spokes && p.member in w.homes && Authentic(w.hub, p)
  }

  /** Every action but the ack and the terminal write leaves the ledger and the queue in hand alone. */
  lemma ActShape(l: Local, p: Principal, a: Action)
    requires Enabled(l, p, a) && Smooth(l, a) && InHand(l.spoke.phase) && !Missing(l) && !a.AckHead? && !a.WriteTerminal?
    requires !Act(l, p, a).spoke.phase.Idle?
    ensures InHand(Act(l, p, a).spoke.phase) && QueueOf(Act(l, p, a).spoke.phase) == QueueOf(l.spoke.phase)
    ensures Act(l, p, a).hub == l.hub
  {
  }

  lemma WriteShape(l: Local, m: MemberId, landed: bool, verified: bool)
    requires CanWrite(l, landed, verified) && Smooth(l, WriteTerminal(landed, verified)) && PhaseOk(l.hub, m, l.spoke)
    requires SendersOk(l.hub, m, l.spoke, l.home) && EchoesOk(l.hub, m, QueueOf(l.spoke.phase))
    ensures AfterWriteTerminal(l, landed, verified).spoke.phase == Echoed(l.spoke.phase.queue)
  {
    Settling.EchoIsThere(l, m);
  }

  lemma AckShape(l: Local, p: Principal, now: Time)
    requires CanAck(l.spoke) && PhaseOk(l.hub, p.member, l.spoke) && l.spoke.phase.queue[0].key in HubDrain.Pending(l.hub)
    ensures Ack(l.hub, p, l.spoke.phase.queue[0].key, AckUuid(l.spoke), now).result == Ok(Acked)
    ensures var l' := AfterAckHead(l, p, now, true);
      l'.spoke.phase == Inbox(l.spoke.phase.queue[1..])
      && l'.hub == Ack(l.hub, p, l.spoke.phase.queue[0].key, AckUuid(l.spoke), now).hub
  {
    Settling.HeadAckSucceeds(l, p, now);
  }

  lemma FiresOnly(l: Local, p: Principal, a: Action)
    requires Enabled(l, p, a) && Smooth(l, a) && l.spoke.phase.Firing?
    ensures a.Fire?
  {
  }

  lemma AckApplies(l: Local, p: Principal, now: Time, q: seq<Entry>, n: nat, total: nat)
    requires HubInv(l.hub) && HubEchoes.AllAccounted(l.hub) && PhaseOk(l.hub, p.member, l.spoke) && CanAck(l.spoke)
    requires Applying(l, q, n, total) && DistinctKeys(q)
    ensures n < |q| && Applying(AfterAckHead(l, p, now, true), q, n + 1, total)
  {
    assert l.spoke.phase.queue[0] == q[n];
    AckShape(l, p, now);
    AckUnderway(l.hub, p, q, n, total, AckUuid(l.spoke), now);
    Settling.NoneAbandonedStill(l, p, AckHead(now, true));
    assert q[n..][1..] == q[n + 1..];
  }

  lemma StepApplies(l: Local, p: Principal, a: Action, q: seq<Entry>, n: nat, total: nat)
    requires PhaseOk(l.hub, p.member, l.spoke) && SendersOk(l.hub, p.member, l.spoke, l.home)
    requires EchoesOk(l.hub, p.member, QueueOf(l.spoke.phase)) && Applying(l, q, n, total)
    requires Enabled(l, p, a) && Smooth(l, a) && !Missing(l) && !a.AckHead? && !Act(l, p, a).spoke.phase.Idle?
    ensures Applying(Act(l, p, a), q, n, total)
  {
    if l.spoke.phase.Firing? { FiresOnly(l, p, a); }
    Settling.NoneAbandonedStill(l, p, a);
    if a.WriteTerminal? { WriteShape(l, p.member, a.landed, a.verified); } else { ActShape(l, p, a); }
  }

  /** One action: an ack, or a step with the same entries in hand. */
  lemma ActApplies(w: World, p: Principal, a: Action, q: seq<Entry>, n: nat, total: nat) returns (n': nat)
    requires InOrder(w, p) && Applying(LocalOf(w, p.member), q, n, total) && DistinctKeys(q)
    requires Enabled(LocalOf(w, p.member), p, a) && Smooth(LocalOf(w, p.member), a)
    requires !Act(LocalOf(w, p.member), p, a).spoke.phase.Idle?
    ensures Applying(Act(LocalOf(w, p.member), p, a), q, n', total)
  {
    var l := LocalOf(w, p.member);
    MemberInOrder(w, p.member);
    n' := if a.AckHead? then n + 1 else n;
    if a.AckHead? {
      AckApplies(l, p, a.now, q, n, total);
    } else {
      NothingMissing(w, p.member);
      StepApplies(l, p, a, q, n, total);
    }
  }

  lemma MoveApplies(w: World, p: Principal, l': Local, q: seq<Entry>, n: nat, total: nat) returns (n': nat)
    requires InOrder(w, p) && Applying(LocalOf(w, p.member), q, n, total) && DistinctKeys(q)
    requires Moves(p, false, LocalOf(w, p.member), l') && !l'.spoke.phase.Idle?
    ensures Applying(l', q, n', total)
  {
    var l := LocalOf(w, p.member);
    n' := n;
    if !Refreshes(false, l, l') {
      var a :| Takes(p, false, l, a, l');
      n' := ActApplies(w, p, a, q, n, total);
    }
  }

  ghost predicate IsMember(w: World, p: Principal) {
    p.member in w.spokes && p.member in w.homes && Authentic(w.hub, p)
  }

  lemma LedInOrder(w0: World, w: World, p: Principal)
    requires TickRuns.DatedlyLeads(w0, w) && IsMember(w, p)
    ensures InOrder(w, p) && CanAct(w, p)
  {
    var ws, ls :| DatedRun(ws, ls) && ws[0] == w0 && ws[|ls|] == w;
    RunDated(ws, ls, |ls|);
  }

  /** Each move of a tick without faults is a dated step. */
  lemma MoveInOrder(w: World, p: Principal, l': Local)
    requires InOrder(w, p) && Moves(p, false, LocalOf(w, p.member), l')
    ensures InOrder(Put(w, p.member, l'), p)
  {
    var l := TickRuns.MoveIsLabel(w, p, false, l');
    DatedNext(w, l);
    MoveKeepsWorld(w, p, false, l');
  }

  lemma BusyTail(ls: seq<Local>)
    requires Busy(ls) && |ls| > 1
    ensures Busy(ls[1..]) && !ls[1].spoke.phase.Idle?
  {
  }

  /** One move of a path that began in a dated run. */
  lemma PathMove(w0: World, w: World, p: Principal, l': Local, q: seq<Entry>, n: nat, total: nat) returns (n': nat)
    requires CanAct(w, p) && TickRuns.DatedlyLeads(w0, w) && Applying(LocalOf(w, p.member), q, n, total) && DistinctKeys(q)
    requires Moves(p, false, LocalOf(w, p.member), l') && !l'.spoke.phase.Idle?
    ensures CanAct(Put(w, p.member, l'), p) && TickRuns.DatedlyLeads(w0, Put(w, p.member, l')) && Applying(l', q, n', total)
  {
    LedInOrder(w0, w, p);
    n' := MoveApplies(w, p, l', q, n, total);
    TickRuns.MoveDated(w0, w, p, l');
  }

  lemma {:induction false} PathApplies(
      w0: World, w: World, p: Principal, ls: seq<Local>, q: seq<Entry>, n: nat, total: nat)
    requires CanAct(w, p) && TickRuns.DatedlyLeads(w0, w) && Applying(LocalOf(w, p.member), q, n, total) && DistinctKeys(q)
    requires Path(p, false, ls) && Busy(ls) && ls[0] == LocalOf(w, p.member) && ls[|ls| - 1].spoke.phase == Inbox([])
    ensures Applying(ls[|ls| - 1], q, |q|, total)
    decreases |ls|
  {
    var m := p.member;
    if |ls| > 1 {
      PathTail(p, false, ls);
      BusyTail(ls);
      var n' := PathMove(w0, w, p, ls[1], q, n, total);
      PutTwice(w, m, ls[1], ls[1]);
      PathApplies(w0, Put(w, m, ls[1]), p, ls[1..], q, n', total);
    }
  }

  lemma ReachedInOrder(w: World, p: Principal, l': Local)
    requires InOrder(w, p) && Reaches(p, false, LocalOf(w, p.member), l')
    ensures InOrder(Put(w, p.member, l'), p)
  {
    TickRuns.TickIsDatedRun(w, p, l');
    var ws, ls :| DatedRun(ws, ls) && ws[0] == w && ws[|ls|] == Put(w, p.member, l');
    RunDated(ws, ls, |ls|);
    ReachesKeepsWorld(w, p, false, l');
  }

  // ----- a whole batch -----

  /** All that was handed out is done, each entry lowered the measure by one, and nothing more was to be had. */
  ghost predicate Serves(h: Hub, m: MemberId, order: seq<DKey>, now: Time, h': Hub) {
    var ks := Handed(h, order, POLL_LIMIT, now);
    && IsListing(h, m, order)
    && (forall k :: k in ks ==> IsDone(h', k))
    && HubDrain.Measure(h') + |ks| == HubDrain.Measure(h)
    && (|ks| < POLL_LIMIT ==>
          forall k :: k in HubDrain.Pending(h) && k.to == m && LeaseLaws.Free(h.deliveries[k], now) ==> k in ks)
  }

  lemma BatchStarts(h: Hub, p: Principal, order: seq<DKey>, seconds: Time, now: Time) returns (q: seq<Entry>)
    requires IsListing(h, p.member, order) && p.canReceive
    ensures Lease(h, p, order, POLL_LIMIT, seconds, now).result == Ok(q)
    ensures Underway(Lease(h, p, order, POLL_LIMIT, seconds, now).hub, q, 0, HubDrain.Measure(h)) && DistinctKeys(q)
    ensures |q| == |Handed(h, order, POLL_LIMIT, now)|
    ensures forall i :: 0 <= i < |q| ==> q[i].key == Handed(h, order, POLL_LIMIT, now)[i]
  {
    var ks := Handed(h, order, POLL_LIMIT, now);
    q := Entries(h, ks, now);
    HubLeases.HandsOutFirstEligible(h, p.member, order, POLL_LIMIT, now);
    HubDrain.LeaseKeepsMeasure(h, p, order, POLL_LIMIT, seconds, now);
    forall i | 0 <= i < |q| ensures q[i].key == ks[i] && ks[i] in HubDrain.Pending(h) {
      assert ks[i] in ks;
      assert q[i] == EntryFor(h, ks[i]);
    }
  }

  lemma NoneLeftOut(h: Hub, m: MemberId, order: seq<DKey>, now: Time)
    requires HubInv(h) && HubEchoes.AllAccounted(h) && IsListing(h, m, order)
    ensures |Handed(h, order, POLL_LIMIT, now)| < POLL_LIMIT ==>
      forall k :: k in HubDrain.Pending(h) && k.to == m && LeaseLaws.Free(h.deliveries[k], now) ==>
        k in Handed(h, order, POLL_LIMIT, now)
  {
    HubLeases.HandsOutFirstEligible(h, m, order, POLL_LIMIT, now);
    forall k | k in HubDrain.Pending(h) && k.to == m && LeaseLaws.Free(h.deliveries[k], now) ensures Leasable(h, k, now) {
      Settling.PendingLeasable(h, k, now);
    }
  }

  /** The state with its batch behind it, about to rest. */
  function Emptied(b: Local): Local {
    b.(spoke := b.spoke.(phase := Inbox([])))
  }

  lemma BatchEnds(w: World, p: Principal, leased: Local, b: Local, q: seq<Entry>, total: nat)
    requires InOrder(w, p) && LocalOf(w, p.member) == leased && leased.spoke.phase == Inbox(q)
    requires Applying(leased, q, 0, total) && DistinctKeys(q) && Works(p, false, leased, Emptied(b))
    ensures Underway(b.hub, q, |q|, total) && NoneAbandoned(Emptied(b).spoke) && InOrder(Put(w, p.member, Emptied(b)), p)
  {
    var ls :| Path(p, false, ls) && Busy(ls) && ls[0] == leased && ls[|ls| - 1] == Emptied(b);
    TickRuns.LeadsToItself(w);
    PathApplies(w, w, p, ls, q, 0, total);
    WorkReaches(p, false, leased, Emptied(b));
    ReachedInOrder(w, p, Emptied(b));
  }

  lemma PollApplies(l: Local, p: Principal, poll: Action, leased: Local) returns (q: seq<Entry>)
    requires poll.Poll? && Takes(p, false, l, poll, leased) && NoneAbandoned(l.spoke) && p.canReceive
    ensures leased.spoke.phase == Inbox(q) && Applying(leased, q, 0, HubDrain.Measure(l.hub)) && DistinctKeys(q)
    ensures |q| == |Handed(l.hub, poll.order, POLL_LIMIT, poll.now)|
    ensures forall i :: 0 <= i < |q| ==> q[i].key == Handed(l.hub, poll.order, POLL_LIMIT, poll.now)[i]
  {
    q := BatchStarts(l.hub, p, poll.order, poll.seconds, poll.now);
    Settling.NoneAbandonedStill(l, p, poll);
    assert q[0..] == q;
  }

  lemma BatchServes(h: Hub, m: MemberId, order: seq<DKey>, now: Time, q: seq<Entry>, h': Hub)
    requires HubInv(h) && HubEchoes.AllAccounted(h) && IsListing(h, m, order)
    requires |q| == |Handed(h, order, POLL_LIMIT, now)|
    requires forall i :: 0 <= i < |q| ==> q[i].key == Handed(h, order, POLL_LIMIT, now)[i]
    requires Underway(h', q, |q|, HubDrain.Measure(h))
    ensures Serves(h, m, order, now, h')
  {
    NoneLeftOut(h, m, order, now);
    var ks := Handed(h, order, POLL_LIMIT, now);
    forall k | k in ks ensures IsDone(h', k) {
      var i :| 0 <= i < |ks| && ks[i] == k;
      assert q[i].key == k;
    }
  }

  lemma BatchIsServed(w: World, p: Principal, poll: Action, leased: Local, b: Local)
    requires InOrder(w, p) && p.canReceive && NoneAbandoned(w.spokes[p.member])
    requires Leases(p, false, LocalOf(w, p.member), poll, leased, b)
    ensures Serves(w.hub, p.member, poll.order, poll.now, b.hub)
    ensures NoneAbandoned(Emptied(b).spoke) && InOrder(Put(w, p.member, Emptied(b)), p)
  {
    var l := LocalOf(w, p.member);
    var q := PollApplies(l, p, poll, leased);
    MoveInOrder(w, p, leased);
    PutTwice(w, p.member, leased, Emptied(b));
    BatchEnds(Put(w, p.member, leased), p, leased, b, q, HubDrain.Measure(l.hub));
    BatchServes(w.hub, p.member, poll.order, poll.now, q, b.hub);
  }

  /**
   * The inbound phase of a tick without faults, of a member who may receive and has given nothing
   * up: one poll, and every entry it handed out is applied and acked. Unless the batch was full,
   * nothing the member could be handed at that moment is left. So with something queued, fewer acks
   * are left afterwards.
   */
  lemma FaultlessInbound(w: World, p: Principal, b: Local)
    requires InOrder(w, p) && p.canReceive && NoneAbandoned(w.spokes[p.member])
    requires Receives(p, false, LocalOf(w, p.member), b)
    ensures exists order, now :: Serves(w.hub, p.member, order, now, b.hub)
    ensures HasQueued(w.hub, p.member) ==> HubDrain.Measure(b.hub) < HubDrain.Measure(w.hub)
  {
    var poll, leased :| Leases(p, false, LocalOf(w, p.member), poll, leased, b);
    BatchIsServed(w, p, poll, leased, b);
    ServedLowers(w.hub, p.member, poll.order, poll.now, b.hub);
  }

  lemma ServedLowers(h: Hub, m: MemberId, order: seq<DKey>, now: Time, h': Hub)
    requires Serves(h, m, order, now, h')
    ensures HasQueued(h, m) ==> HubDrain.Measure(h') < HubDrain.Measure(h)
  {
    if HasQueued(h, m) {
      var k :| k in h.deliveries && k.to == m && h.deliveries[k].progress == Queued;
      assert k in HubDrain.Pending(h);
    }
  }

  /** Something waits for the member, under no lease. */
  predicate HasQueued(h: Hub, m: MemberId) {
    exists k :: k in h.deliveries && k.to == m && h.deliveries[k].progress == Queued
  }

  // ----- any sequence of inbound phases -----

  /** One member's inbound phase without faults, polling at this time. */
  ghost predicate Inbound(w: World, p: Principal, now: Time, w': World)
    requires p.member in w.spokes && p.member in w.homes
  {
    exists poll: Action, leased: Local, b: Local ::
      && poll.Poll? && poll.now == now && Leases(p, false, LocalOf(w, p.member), poll, leased, b)
      && b.spoke.phase.Idle? && w' == Put(w, p.member, b)
  }

  /** Something pending for the member is under no live lease at this time. */
  ghost predicate Productive(h: Hub, m: MemberId, now: Time) {
    exists k :: k in HubDrain.Pending(h) && k.to == m && LeaseLaws.Free(h.deliveries[k], now)
  }

  lemma ServesCounts(h: Hub, m: MemberId, order: seq<DKey>, now: Time, h': Hub)
    requires Serves(h, m, order, now, h')
    ensures HubDrain.Measure(h') + (if Productive(h, m, now) then 1 else 0) <= HubDrain.Measure(h)
  {
    if Productive(h, m, now) {
      var k :| k in HubDrain.Pending(h) && k.to == m && LeaseLaws.Free(h.deliveries[k], now);
      var ks := Handed(h, order, POLL_LIMIT, now);
      assert |ks| < POLL_LIMIT ==> k in ks;
    }
  }

  lemma RestInOrder(w: World, p: Principal, b: Local)
    requires InOrder(Put(w, p.member, Emptied(b)), p) && NoneAbandoned(Emptied(b).spoke) && b.spoke.phase.Idle?
    ensures InOrder(Put(w, p.member, b), p) && NoneAbandoned(b.spoke)
  {
    var w1 := Put(w, p.member, Emptied(b));
    PutTwice(w, p.member, Emptied(b), b);
    TakesFinish(p, false, Emptied(b));
    MoveInOrder(w1, p, b);
    Settling.NoneAbandonedStill(Emptied(b), p, SpokeSpec.Finish);
  }

  lemma BatchCounts(w: World, p: Principal, poll: Action, leased: Local, b: Local)
    requires InOrder(w, p) && p.canReceive && NoneAbandoned(w.spokes[p.member])
    requires Leases(p, false, LocalOf(w, p.member), poll, leased, b) && b.spoke.phase.Idle?
    ensures InOrder(Put(w, p.member, b), p) && NoneAbandoned(b.spoke)
    ensures HubDrain.Measure(b.hub) + (if Productive(w.hub, p.member, poll.now) then 1 else 0) <= HubDrain.Measure(w.hub)
  {
    BatchIsServed(w, p, poll, leased, b);
    RestInOrder(w, p, b);
    ServesCounts(w.hub, p.member, poll.order, poll.now, b.hub);
  }

  lemma PutNone(w: World, m: MemberId, b: Local, ms: set<MemberId>)
    requires NoneGivenUp(w, ms) && NoneAbandoned(b.spoke)
    ensures NoneGivenUp(Put(w, m, b), ms)
  {
  }

  lemma InboundCounts(w: World, p: Principal, now: Time, w': World, ms: set<MemberId>)
    requires InOrder(w, p) && p.canReceive && NoneAbandoned(w.spokes[p.member]) && Inbound(w, p, now, w')
    requires NoneGivenUp(w, ms)
    ensures NoneGivenUp(w', ms)
    ensures HubDrain.Measure(w'.hub) + (if Productive(w.hub, p.member, now) then 1 else 0) <= HubDrain.Measure(w.hub)
  {
    var poll: Action, leased: Local, b: Local :|
      poll.Poll? && poll.now == now && Leases(p, false, LocalOf(w, p.member), poll, leased, b)
      && b.spoke.phase.Idle? && w' == Put(w, p.member, b);
    BatchCounts(w, p, poll, leased, b);
    PutNone(w, p.member, b, ms);
  }

  /** Who polls, and when. */
  datatype Visit = Visit(p: Principal, now: Time)

  /** One inbound phase after another, of whichever of these members, whenever. */
  ghost predicate Visits(ws: seq<World>, vs: seq<Visit>, ms: set<MemberId>) {
    && |ws| == |vs| + 1
    && DatedOk(ws[0]) && NoneGivenUp(ws[0], ms)
    && forall i {:trigger vs[i]} :: 0 <= i < |vs| ==>
         && vs[i].p.member in ms && vs[i].p.canReceive && IsMember(ws[i], vs[i].p)
         && Inbound(ws[i], vs[i].p, vs[i].now, ws[i + 1])
  }

  /** How many of the first n found something they could be handed. */
  ghost function Useful(ws: seq<World>, vs: seq<Visit>, n: nat): nat
    requires n <= |vs| && n < |ws|
  {
    if n == 0 then 0
    else Useful(ws, vs, n - 1) + (if Productive(ws[n - 1].hub, vs[n - 1].p.member, vs[n - 1].now) then 1 else 0)
  }

  /** A member's whole inbound phase, from poll to rest, is a stretch of a dated run. */
  lemma BatchLeads(w0: World, w: World, p: Principal, poll: Action, leased: Local, b: Local)
    requires TickRuns.DatedlyLeads(w0, w) && CanAct(w, p) && p.canReceive && b.spoke.phase.Idle?
    requires Leases(p, false, LocalOf(w, p.member), poll, leased, b)
    ensures TickRuns.DatedlyLeads(w0, Put(w, p.member, b))
  {
    var m := p.member;
    var l := LocalOf(w, m);
    Stays(p, false, l);
    TookStep(p, false, l, l, poll, leased);
    WorkReaches(p, false, leased, Emptied(b));
    Joined(p, false, l, leased, Emptied(b));
    TakesFinish(p, false, Emptied(b));
    TookStep(p, false, l, Emptied(b), SpokeSpec.Finish, b);
    var ls :| Path(p, false, ls) && ls[0] == l && ls[|ls| - 1] == b;
    TickRuns.PathIsDated(w0, w, p, ls);
  }

  lemma InboundLeads(w0: World, w: World, p: Principal, now: Time, w': World)
    requires TickRuns.DatedlyLeads(w0, w) && CanAct(w, p) && p.canReceive && Inbound(w, p, now, w')
    ensures TickRuns.DatedlyLeads(w0, w')
  {
    var poll: Action, leased: Local, b: Local :|
      poll.Poll? && poll.now == now && Leases(p, false, LocalOf(w, p.member), poll, leased, b)
      && b.spoke.phase.Idle? && w' == Put(w, p.member, b);
    BatchLeads(w0, w, p, poll, leased, b);
  }

  ghost predicate Sound(ws: seq<World>, ms: set<MemberId>, i: nat)
    requires i < |ws|
  {
    TickRuns.DatedlyLeads(ws[0], ws[i]) && NoneGivenUp(ws[i], ms)
  }

  /** The i-th visit lowers the measure if it found something, and gives nothing up. */
  ghost predicate Lowers(ws: seq<World>, vs: seq<Visit>, ms: set<MemberId>, i: nat)
    requires i < |vs| && i + 1 < |ws|
  {
    Sound(ws, ms, i) ==>
      && Sound(ws, ms, i + 1)
      && HubDrain.Measure(ws[i + 1].hub) + (if Productive(ws[i].hub, vs[i].p.member, vs[i].now) then 1 else 0)
         <= HubDrain.Measure(ws[i].hub)
  }

  lemma VisitLowers(ws: seq<World>, vs: seq<Visit>, ms: set<MemberId>, i: nat)
    requires Visits(ws, vs, ms) && i < |vs|
    ensures Lowers(ws, vs, ms, i)
  {
    if Sound(ws, ms, i) {
      LedInOrder(ws[0], ws[i], vs[i].p);
      InboundLeads(ws[0], ws[i], vs[i].p, vs[i].now, ws[i + 1]);
      InboundCounts(ws[i], vs[i].p, vs[i].now, ws[i + 1], ms);
    }
  }

  lemma {:induction false} CountsAlong(ws: seq<World>, vs: seq<Visit>, ms: set<MemberId>, n: nat)
    requires |ws| == |vs| + 1 && n <= |vs| && Sound(ws, ms, 0)
    requires forall i: nat :: i < |vs| ==> Lowers(ws, vs, ms, i)
    ensures Sound(ws, ms, n)
    ensures Useful(ws, vs, n) + HubDrain.Measure(ws[n].hub) <= HubDrain.Measure(ws[0].hub)
  {
    if n > 0 {
      CountsAlong(ws, vs, ms, n - 1);
      assert Lowers(ws, vs, ms, n - 1);
    }
  }

  /**
   * Whatever the order of the members and the times of their polls: of inbound phases without
   * faults, at most as many as the measure find something to be handed, and once that many have, no
   * delivery is pending for anybody.
   */
  lemma EnoughVisits(ws: seq<World>, vs: seq<Visit>, ms: set<MemberId>, n: nat)
    requires Visits(ws, vs, ms) && n <= |vs|
    ensures Useful(ws, vs, n) <= HubDrain.Measure(ws[0].hub)
    ensures Useful(ws, vs, n) == HubDrain.Measure(ws[0].hub) ==> HubDrain.Pending(ws[n].hub) == {}
  {
    forall i: nat | i < |vs| ensures Lowers(ws, vs, ms, i) {
      VisitLowers(ws, vs, ms, i);
    }
    TickRuns.LeadsToItself(ws[0]);
    CountsAlong(ws, vs, ms, n);
  }
}
