/** When everything pending to some members can be delivered: exactly when nothing in their way is permanent. */
module Deliverable {
  import opened Basics
  import opened HubSpec
  import opened HubInvariant
  import opened HubHistory
  import opened HubEchoes
  import HubDrain
  import opened SpokeSpec
  import opened SpokeInvariant
  import opened SpokeSteps
  import opened System
  import opened SystemSafety
  import opened HomeInvariant
  import opened HomeKept
  import opened HomeCareful
  import opened CarefulRuns
  import opened HomeRecords
  import opened Delegation
  import opened Settling

  // ----- what can be delivered is -----

  /** Nothing is pending for these members. */
  ghost predicate NothingFor(h: Hub, ms: set<MemberId>) {
    forall k :: k in HubDrain.Pending(h) ==> k.to !in ms
  }

  /** Each may receive what is pending for them. */
  ghost predicate Receivable(h: Hub, ms: set<MemberId>) {
    forall k :: k in HubDrain.Pending(h) && k.to in ms ==> HubDrain.CanReceive(h, k.to)
  }

  /** Each wrote every create they journaled, or is about to. */
  ghost predicate NoneGivenUp(w: World, ms: set<MemberId>) {
    forall m :: m in ms ==> m in w.spokes && NoneAbandoned(w.spokes[m])
  }

  lemma StillNone(w: World, m: MemberId, l': Local, ms: set<MemberId>)
    requires NoneGivenUp(w, ms) && NoneAbandoned(l'.spoke)
    ensures NoneGivenUp(Put(w, m, l'), ms)
  {
  }

  lemma AbleToAct(o: Origin, w: World, clock: Time, k: DKey, ms: set<MemberId>) returns (p: Principal)
    requires Follows(o, w, clock) && Receivable(o.world.hub, ms) && NoneGivenUp(w, ms)
    requires k in HubDrain.Pending(w.hub) && k.to in ms
    ensures Acting(o, w, clock, p) && p.member == k.to && p.canReceive
  {
    assert HubDrain.CanReceive(o.world.hub, k.to);
    p := HubDrain.PrincipalOf(w.hub, k.to);
    MemberInOrder(w, k.to);
  }

  lemma {:induction false} SettlesFrom(o: Origin, w: World, clock: Time, ms: set<MemberId>) returns (w': World, until: Time)
    requires Follows(o, w, clock) && Receivable(o.world.hub, ms) && NoneGivenUp(w, ms)
    ensures Follows(o, w', until) && NothingFor(w'.hub, ms)
    decreases HubDrain.Measure(w.hub)
  {
    if NothingFor(w.hub, ms) {
      w', until := w, clock;
    } else {
      var k :| k in HubDrain.Pending(w.hub) && k.to in ms;
      var p := AbleToAct(o, w, clock, k, ms);
      var l1, t1 := Round(o, w, clock, p, k);
      StillNone(w, p.member, l1, ms);
      w', until := SettlesFrom(o, Put(w, p.member, l1), t1, ms);
    }
  }

  // ----- what cannot be, never is -----

  lemma OrdinaryIsBehaviour(ws: seq<World>, ls: seq<Label>)
    requires OrdinaryRun(ws, ls)
    ensures Behaviour(ws, ls)
  {
    forall i | 0 <= i < |ls| ensures Possible(ws[i], ls[i]) && ws[i + 1] == Next(ws[i], ls[i]) {
    }
  }

  lemma DatedIsOrdinary(ws: seq<World>, ls: seq<Label>)
    requires DatedRun(ws, ls)
    ensures OrdinaryRun(ws, ls)
  {
  }

  /**
   * A create given up is never made good: whatever happens afterwards, crashes and failures
   * included, some transfer to the member is not applied.
   */
  lemma AbandonedIsUndelivered(ws: seq<World>, ls: seq<Label>, m: MemberId, k: DKey, i: nat, j: nat)
    requires OrdinaryRun(ws, ls) && i <= j < |ws| && m in ws[i].spokes && Abandoned(ws[i].spokes[m], k)
    ensures exists t :: t in ReceivedBy(ws[j].hub, m) && ws[j].hub.transfers[t].dst.None?
  {
    OrdinaryIsBehaviour(ws, ls);
    AbandonedIsForever(ws, ls, m, k, i, j);
    RunKept(ws, ls, j);
    if AllMapped(ws[j].hub, m) { AppliedAreFired(ws[j], m); }
  }

  /** In careful states an unapplied transfer's create is pending. */
  lemma UnappliedIsPending(w: World, t: Tid)
    requires CarefulOk(w) && t in w.hub.transfers && w.hub.transfers[t].dst.None?
    ensures CreateKey(w.hub, t) in HubDrain.Pending(w.hub)
  {
    assert TransferOk(w.hub, t);
  }

  lemma UnreceivableStep(l: Local, p: Principal, a: Action, k: DKey)
    requires Enabled(l, p, a) && Authentic(l.hub, p) && !a.Send? && !a.Report? && Receiving(l.hub, p.member, l.spoke)
    requires k in HubDrain.Pending(l.hub) && !HubDrain.CanReceive(l.hub, k.to)
    ensures k in HubDrain.Pending(Act(l, p, a).hub) && Act(l, p, a).hub.roster == l.hub.roster
  {
    if a.Poll? { HubDrain.LeaseKeepsMeasure(l.hub, p, a.order, POLL_LIMIT, a.seconds, a.now); }
  }

  /** Pending for a member who may not receive. */
  ghost predicate Stuck(h: Hub, k: DKey) {
    k in HubDrain.Pending(h) && !HubDrain.CanReceive(h, k.to)
  }

  lemma UnreceivableNext(w: World, l: Label, k: DKey)
    requires KeptWorld(w) && Possible(w, l) && Quiet(l) && Stuck(w.hub, k)
    ensures Stuck(Next(w, l).hub, k)
  {
    if l.Tick? {
      MemberKept(w, l.p.member);
      UnreceivableStep(LocalOf(w, l.p.member), l.p, l.a, k);
    }
  }

  lemma StuckNext(ws: seq<World>, ls: seq<Label>, k: DKey, n: nat)
    requires OrdinaryRun(ws, ls) && n < |ls| && AllQuiet(ls)
    ensures Stuck(ws[n].hub, k) ==> Stuck(ws[n + 1].hub, k)
  {
    if Stuck(ws[n].hub, k) {
      RunKept(ws, ls, n);
      UnreceivableNext(ws[n], ls[n], k);
    }
  }

  lemma {:induction false} Persists(ws: seq<World>, k: DKey, n: nat)
    requires n < |ws| && Stuck(ws[0].hub, k)
    requires forall i: nat :: i + 1 < |ws| && Stuck(ws[i].hub, k) ==> Stuck(ws[i + 1].hub, k)
    ensures Stuck(ws[n].hub, k)
  {
    if n > 0 {
      Persists(ws, k, n - 1);
      assert Stuck(ws[n - 1].hub, k);
    }
  }

  /** What is pending for a member who may not receive stays pending. */
  lemma UnreceivableStays(ws: seq<World>, ls: seq<Label>, k: DKey, n: nat)
    requires OrdinaryRun(ws, ls) && n < |ws| && AllQuiet(ls) && Stuck(ws[0].hub, k)
    ensures Stuck(ws[n].hub, k)
  {
    forall i: nat | i + 1 < |ws| && Stuck(ws[i].hub, k) ensures Stuck(ws[i + 1].hub, k) {
      StuckNext(ws, ls, k, i);
    }
    Persists(ws, k, n);
  }

  // ----- exactly when -----

  /** Some schedule from here, on a clock that never goes back, leaves nothing pending for these members. */
  ghost predicate CanSettle(w: World, start: Time, ms: set<MemberId>) {
    exists w', clock :: Leads(w, start, w', clock) && NothingFor(w'.hub, ms)
  }

  lemma SettlingNeedsReceiving(w: World, start: Time, w': World, clock: Time, ms: set<MemberId>)
    requires Leads(w, start, w', clock) && NothingFor(w'.hub, ms)
    ensures Receivable(w.hub, ms)
  {
    var ws, ls, ts :| Schedule(ws, ls, ts) && ws[0] == w && ts[0] == start && ws[|ls|] == w' && ts[|ls|] == clock;
    DatedIsOrdinary(ws, ls);
    forall k | k in HubDrain.Pending(w.hub) && k.to in ms ensures HubDrain.CanReceive(w.hub, k.to) {
      if !HubDrain.CanReceive(w.hub, k.to) { UnreceivableStays(ws, ls, k, |ls|); }
    }
  }

  lemma SettlingNeedsWrites(w: World, start: Time, w': World, clock: Time, m: MemberId, k: DKey)
    requires Leads(w, start, w', clock) && m in w.spokes && Abandoned(w.spokes[m], k)
    ensures !NothingFor(w'.hub, {m})
  {
    var ws, ls, ts :| Schedule(ws, ls, ts) && ws[0] == w && ts[0] == start && ws[|ls|] == w' && ts[|ls|] == clock;
    DatedIsOrdinary(ws, ls);
    AbandonedIsUndelivered(ws, ls, m, k, 0, |ls|);
    var t :| t in ReceivedBy(w'.hub, m) && w'.hub.transfers[t].dst.None?;
    RunDated(ws, ls, |ls|);
    UnappliedIsPending(w', t);
  }

  lemma SettlingNeedsAll(w: World, start: Time, w': World, clock: Time, m: MemberId)
    requires Leads(w, start, w', clock) && m in w.spokes && NothingFor(w'.hub, {m})
    ensures NoneAbandoned(w.spokes[m])
  {
    forall k | k in w.spokes[m].journal ensures !Abandoned(w.spokes[m], k) {
      if Abandoned(w.spokes[m], k) { SettlingNeedsWrites(w, start, w', clock, m, k); }
    }
  }

  lemma SettlingNeedsUnblocked(w: World, start: Time, ms: set<MemberId>)
    requires CanSettle(w, start, ms) && ms <= w.spokes.Keys
    ensures Receivable(w.hub, ms) && NoneGivenUp(w, ms)
  {
    var w', clock :| Leads(w, start, w', clock) && NothingFor(w'.hub, ms);
    SettlingNeedsReceiving(w, start, w', clock, ms);
    forall m | m in ms ensures NoneAbandoned(w.spokes[m]) {
      SettlingNeedsAll(w, start, w', clock, m);
    }
  }

  /**
   * In every state of every dated run, and for any members: ticks and refreshes alone, on a clock
   * that never goes back, can deliver everything pending to them if and only if each may receive
   * what is pending for them and none of them has given up a create they journaled.
   */
  lemma SettlesExactlyWhen(ws: seq<World>, ls: seq<Label>, i: nat, start: Time, ms: set<MemberId>)
    requires DatedRun(ws, ls) && i < |ws| && ms <= ws[i].spokes.Keys
    ensures CanSettle(ws[i], start, ms) <==> Receivable(ws[i].hub, ms) && NoneGivenUp(ws[i], ms)
  {
    RunDated(ws, ls, i);
    if CanSettle(ws[i], start, ms) { SettlingNeedsUnblocked(ws[i], start, ms); }
    if Receivable(ws[i].hub, ms) && NoneGivenUp(ws[i], ms) {
      var w', clock := Settle(ws[i], start, ms);
    }
  }

  /** Nothing is pending for either party. */
  lemma PartiesDone(h: Hub, t: Tid, ms: set<MemberId>)
    requires HubInv(h) && NothingFor(h, ms) && t in h.transfers && h.transfers[t].from in ms && h.transfers[t].to in ms
    ensures AllDelivered(h, t)
  {
    forall k | k in h.deliveries && k.tid == t ensures h.deliveries[k].progress == Done {
      assert DeliveryOk(h, k);
      assert k !in HubDrain.Pending(h);
    }
  }

  lemma Settle(w: World, start: Time, ms: set<MemberId>) returns (w': World, clock: Time)
    requires DatedOk(w) && Receivable(w.hub, ms) && NoneGivenUp(w, ms)
    ensures DatedOk(w') && Leads(w, start, w', clock) && NothingFor(w'.hub, ms) && Fewer(w.hub, w'.hub)
    ensures AllRecorded(w.hub, w.homes) ==> AllRecorded(w'.hub, w'.homes)
  {
    var o := Origin(w, start);
    FollowsItself(o);
    w', clock := SettlesFrom(o, w, start, ms);
    if AllRecorded(w.hub, w.homes) { LeadsRecorded(w, start, w', clock); }
  }

  /** A schedule has no human acts, so it leaves the copies in their recorded states. */
  lemma LeadsRecorded(w: World, start: Time, w': World, clock: Time)
    requires Leads(w, start, w', clock) && AllRecorded(w.hub, w.homes)
    ensures AllRecorded(w'.hub, w'.homes)
  {
    var ws, ls, ts :| Schedule(ws, ls, ts) && ws[0] == w && ts[0] == start && ws[|ls|] == w' && ts[|ls|] == clock;
    DatedIsCareful(ws, ls);
    QuietFinishes(ws, ls);
    RunRecorded(ws, ls, |ls|);
  }

  lemma QuietFinishes(ws: seq<World>, ls: seq<Label>)
    requires |ls| <= |ws| && AllQuiet(ls)
    ensures FinishedOnce(ws, ls)
  {
    forall i | 0 <= i < |ls| && ls[i].Life? && ls[i].m in ws[i].homes ensures FinishesOnce(ws[i].homes[ls[i].m], ls[i].e) {
      assert Quiet(ls[i]);
    }
  }

  lemma DatedIsCareful(ws: seq<World>, ls: seq<Label>)
    requires DatedRun(ws, ls)
    ensures CarefulRun(ws, ls)
  {
  }

  /** The transfers between these members. */
  function Among(h: Hub, ms: set<MemberId>): set<Tid> {
    set t | t in h.transfers && h.transfers[t].from in ms && h.transfers[t].to in ms
  }

  /**
   * And where it can, it can so that every transfer between these members makes the round trip, in
   * the terminal state it had; and if the recipients' copies were in their recorded states, they are.
   */
  lemma SettledComesRound(ws: seq<World>, ls: seq<Label>, i: nat, start: Time, ms: set<MemberId>)
    returns (w': World, clock: Time)
    requires DatedRun(ws, ls) && i < |ws| && Receivable(ws[i].hub, ms) && NoneGivenUp(ws[i], ms)
    ensures Leads(ws[i], start, w', clock) && NothingFor(w'.hub, ms) && Fewer(ws[i].hub, w'.hub)
    ensures forall t :: t in Among(w'.hub, ms) ==> CameRound(w', t)
    ensures AllRecorded(ws[i].hub, ws[i].homes) ==> forall t :: t in Among(w'.hub, ms) ==> AsRecorded(w', t)
  {
    RunDated(ws, ls, i);
    w', clock := Settle(ws[i], start, ms);
    forall t | t in Among(w'.hub, ms) ensures CameRound(w', t) {
      PartiesDone(w'.hub, t, ms);
      CameRoundAt(w', t);
    }
    if AllRecorded(ws[i].hub, ws[i].homes) {
      forall t | t in Among(w'.hub, ms) ensures AsRecorded(w', t) {
        AsRecordedAt(w', t);
      }
    }
  }
}
