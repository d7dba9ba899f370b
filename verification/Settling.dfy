/**
 * What can still be delivered. Ticks alone, with no new push, report or human act, on a clock that
 * never goes back, can deliver everything pending to some members if and only if each of them may
 * receive what is pending and wrote every create it journaled.
 */
module Settling {
  import opened Basics
  import opened HubSpec
  import opened HubInvariant
  import opened HubHistory
  import opened HubEchoes
  import HubDrain
  import opened SpokeSpec
  import opened SpokeInvariant
  import opened SpokeSteps
  import opened Matching
  import opened System
  import opened SystemSafety
  import opened HomeInvariant
  import opened HomeKept
  import opened HomeCareful
  import opened CarefulRuns
  import opened Delegation
  import opened Hypotheses
  import TickPaths

  // ----- schedules -----

  /** A tick that reports and pushes nothing, or a refresh of a mirror. */
  predicate Quiet(l: Label) {
    match l
    case Tick(_, a) => !a.Send? && !a.Report?
    case Life(_, e) => e.Sync?
  }

  ghost predicate AllQuiet(ls: seq<Label>) {
    forall i :: 0 <= i < |ls| ==> Quiet(ls[i])
  }

  /** The clock readings of an action lie between these two. */
  predicate Within(a: Action, from: Time, until: Time) {
    && from <= until
    && match a
       case Send(_, _, _, now, _) => from <= now <= until
       case Poll(_, _, now, _) => from <= now <= until
       case Intend(since, firedAt) => from <= since <= firedAt <= until
       case Fire(_, created) => from <= created <= until
       case AckHead(now, _) => from <= now <= until
       case Report(now, _) => from <= now <= until
       case _ => true
  }

  predicate Timed(l: Label, from: Time, until: Time) {
    from <= until && (l.Tick? ==> Within(l.a, from, until))
  }

  /** A dated run of quiet steps, and a clock reading between each two of them. */
  ghost predicate Schedule(ws: seq<World>, ls: seq<Label>, ts: seq<Time>) {
    && DatedRun(ws, ls) && |ts| == |ws|
    && AllQuiet(ls)
    && forall i {:trigger ls[i]} :: 0 <= i < |ls| ==> Timed(ls[i], ts[i], ts[i + 1])
  }

  ghost predicate Leads(w: World, start: Time, w': World, clock: Time) {
    exists ws, ls, ts :: Schedule(ws, ls, ts)
      && ws[0] == w && ts[0] == start && ws[|ls|] == w' && ts[|ls|] == clock
  }

  /** The same transfers in the same terminal states, and nothing pending that was not. */
  ghost predicate Fewer(h: Hub, h': Hub) {
    && h'.roster == h.roster && h'.transfers.Keys == h.transfers.Keys
    && (forall t :: t in h.transfers ==> h'.transfers[t].terminal == h.transfers[t].terminal)
    && HubDrain.Pending(h') <= HubDrain.Pending(h)
  }

  /** Where a schedule starts. */
  datatype Origin = Origin(world: World, start: Time)

  ghost predicate Follows(o: Origin, w: World, clock: Time) {
    DatedOk(w) && Leads(o.world, o.start, w, clock) && Fewer(o.world.hub, w.hub)
  }

  lemma FollowsItself(o: Origin)
    requires DatedOk(o.world)
    ensures Follows(o, o.world, o.start)
  {
    assert Schedule([o.world], [], [o.start]);
  }

  lemma LongerRun(ws: seq<World>, ls: seq<Label>, l: Label)
    requires DatedRun(ws, ls) && Possible(ws[|ls|], l) && Dated(ws[|ls|], l)
    ensures DatedRun(ws + [Next(ws[|ls|], l)], ls + [l])
  {
    var ws', ls' := ws + [Next(ws[|ls|], l)], ls + [l];
    forall i | 0 <= i < |ls'|
      ensures Possible(ws'[i], ls'[i]) && Dated(ws'[i], ls'[i]) && ws'[i + 1] == Next(ws'[i], ls'[i])
    {
      if i < |ls| {
        assert ls'[i] == ls[i] && ws'[i] == ws[i] && ws'[i + 1] == ws[i + 1];
      } else {
        assert ls'[i] == l && ws'[i] == ws[|ls|];
      }
    }
  }

  lemma LongerSchedule(ws: seq<World>, ls: seq<Label>, ts: seq<Time>, l: Label, until: Time)
    requires Schedule(ws, ls, ts) && Possible(ws[|ls|], l) && Dated(ws[|ls|], l) && Quiet(l) && Timed(l, ts[|ls|], until)
    ensures Schedule(ws + [Next(ws[|ls|], l)], ls + [l], ts + [until])
  {
    LongerRun(ws, ls, l);
    var ls', ts' := ls + [l], ts + [until];
    forall i | 0 <= i < |ls'| ensures Timed(ls'[i], ts'[i], ts'[i + 1]) {
      if i < |ls| { assert ls'[i] == ls[i]; }
    }
  }

  lemma LeadsOn(o: Origin, w: World, clock: Time, l: Label, until: Time)
    requires Leads(o.world, o.start, w, clock)
    requires Possible(w, l) && Dated(w, l) && Quiet(l) && Timed(l, clock, until)
    ensures Leads(o.world, o.start, Next(w, l), until)
  {
    var ws, ls, ts :| Schedule(ws, ls, ts) && ws[0] == o.world && ts[0] == o.start && ws[|ls|] == w && ts[|ls|] == clock;
    LongerSchedule(ws, ls, ts, l, until);
    var ws', ls', ts' := ws + [Next(w, l)], ls + [l], ts + [until];
    assert ws'[0] == o.world && ts'[0] == o.start && ws'[|ls'|] == Next(w, l) && ts'[|ls'|] == until;
  }

  // ----- one quiet step -----

  lemma CallFewer(h: Hub, c: Call)
    requires HubInv(h) && Legal(h, c) && ReportsOk(h) && (c.CallLease? || c.CallAck? || c.CallNack?)
    ensures Fewer(h, Do(h, c))
  {
    match c
    case CallLease(p, order, limit, seconds, now) => HubDrain.LeaseKeepsMeasure(h, p, order, limit, seconds, now);
    case CallAck(p, k, dst, now) =>
      if k in h.deliveries { assert DeliveryOk(h, k) && TransferOk(h, k.tid); }
      AckFewer(h, p, k, dst, now);
    case CallNack(p, k) => NackFewer(h, p, k);
  }

  lemma AckFewer(h: Hub, p: Principal, k: DKey, dst: Uuid, now: Time)
    requires ReportsOk(h) && (k in h.deliveries ==> DeliveryOk(h, k) && TransferOk(h, k.tid))
    ensures Fewer(h, Ack(h, p, k, dst, now).hub)
  {
  }

  lemma NackFewer(h: Hub, p: Principal, k: DKey)
    ensures Fewer(h, Nack(h, p, k).hub)
  {
  }

  lemma QuietFewer(l: Local, p: Principal, a: Action)
    requires HubInv(l.hub) && ReportsOk(l.hub) && Enabled(l, p, a) && Authentic(l.hub, p) && !a.Send? && !a.Report?
    ensures Fewer(l.hub, Act(l, p, a).hub)
  {
    TickIsCall(l, p, a);
    match CallOf(l, p, a)
    case None =>
    case Some(c) => CallFewer(l.hub, c);
  }

  lemma FewerTransitive(a: Hub, b: Hub, c: Hub)
    requires Fewer(a, b) && Fewer(b, c)
    ensures Fewer(a, c)
  {
  }

  /** Only leaving the firing state without firing abandons a row. */
  lemma NoneAbandonedStill(l: Local, p: Principal, a: Action)
    requires Enabled(l, p, a) && NoneAbandoned(l.spoke) && (l.spoke.phase.Firing? ==> a.Fire?)
    ensures NoneAbandoned(Act(l, p, a).spoke)
  {
    var s, s' := l.spoke, Act(l, p, a).spoke;
    forall k | k in s'.journal ensures !Abandoned(s', k) {
      assert k in s.journal ==> !Abandoned(s, k);
    }
  }

  /** The world as it follows from the origin at this clock reading, with a member able to act and no create given up. */
  ghost predicate Acting(o: Origin, w: World, clock: Time, p: Principal) {
    && Follows(o, w, clock) && p.member in w.spokes && p.member in w.homes && Authentic(w.hub, p)
    && NoneAbandoned(w.spokes[p.member])
  }

  /** One more quiet action, by that member. */
  ghost predicate CanStep(l: Local, p: Principal, clock: Time, a: Action, l': Local, until: Time) {
    && Enabled(l, p, a) && l' == Act(l, p, a) && !a.Send? && !a.Report?
    && CarefulTick(l, a) && DatedTick(l, a) && (l.spoke.phase.Firing? ==> a.Fire?) && Within(a, clock, until)
  }

  lemma Step(o: Origin, w: World, clock: Time, p: Principal, a: Action, l': Local, until: Time)
    requires Acting(o, w, clock, p) && CanStep(LocalOf(w, p.member), p, clock, a, l', until)
    ensures Acting(o, Put(w, p.member, l'), until, p)
  {
    DatedNext(w, Tick(p, a));
    LeadsOn(o, w, clock, Tick(p, a), until);
    QuietFewer(LocalOf(w, p.member), p, a);
    FewerTransitive(o.world.hub, w.hub, l'.hub);
    NoneAbandonedStill(LocalOf(w, p.member), p, a);
  }

  lemma CatchUp(o: Origin, w: World, clock: Time, p: Principal) returns (l': Local)
    requires Acting(o, w, clock, p)
    ensures Acting(o, Put(w, p.member, l'), clock, p)
    ensures l' == LocalOf(w, p.member).(home := CaughtUp(w.homes[p.member]))
  {
    var m, home := p.member, w.homes[p.member];
    l' := LocalOf(w, m).(home := CaughtUp(home));
    var e := Event.Sync(home.todos);
    MemberInOrder(w, m);
    DatedNext(w, Life(m, e));
    LeadsOn(o, w, clock, Life(m, e), clock);
    SyncIsPut(w, m);
  }

  lemma SyncIsPut(w: World, m: MemberId)
    requires m in w.spokes && m in w.homes
    ensures Next(w, Life(m, Sync(w.homes[m].todos))) == Put(w, m, LocalOf(w, m).(home := CaughtUp(w.homes[m])))
  {
  }

  lemma {:induction false} UnusedUuid(us: set<Uuid>) returns (u: Uuid)
    ensures forall v :: v in us ==> |v| < |u|
    ensures u != ""
  {
    if us == {} {
      u := "x";
    } else {
      var v :| v in us;
      var rest := UnusedUuid(us - {v});
      u := rest + v;
      assert |rest| > 0;
    }
  }

  lemma {:induction false} LateDate(todos: Todos, us: set<Uuid>, least: Time) returns (d: Time)
    requires us <= todos.Keys
    ensures d >= least && forall u :: u in us ==> todos[u].created <= d
  {
    d := least;
    if us != {} {
      var u :| u in us;
      d := LateDate(todos, us - {u}, least);
      if todos[u].created > d { d := todos[u].created; }
    }
  }

  // ----- one entry -----

  function Later(a: Time, b: Time): Time {
    if a <= b then b else a
  }

  /** A uuid nobody has, and a date late enough. */
  lemma FireSteps(l: Local, p: Principal, clock: Time) returns (u: Uuid, until: Time)
    requires l.spoke.phase.Firing? && PhaseOk(l.hub, p.member, l.spoke)
    ensures CanFire(l, u) && CanStep(l, p, clock, Fire(u, until), AfterFire(l, u, until), until)
  {
    var row := l.spoke.journal[l.spoke.phase.queue[0].key];
    u := UnusedUuid(l.home.todos.Keys);
    until := LateDate(l.home.todos, l.home.todos.Keys, Later(clock, WindowStart(row)));
    assert CanFire(l, u);
    assert Newest(l.home.todos, until);
  }

  lemma FireNow(o: Origin, w: World, clock: Time, p: Principal) returns (l': Local, until: Time)
    requires Acting(o, w, clock, p) && w.spokes[p.member].phase.Firing?
    ensures Acting(o, Put(w, p.member, l'), until, p) && l'.hub == w.hub
    ensures var ph := w.spokes[p.member].phase; l'.spoke.phase == Correlating(ph.queue, ph.since)
  {
    var l := LocalOf(w, p.member);
    MemberInOrder(w, p.member);
    var u;
    u, until := FireSteps(l, p, clock);
    l' := AfterFire(l, u, until);
    Step(o, w, clock, p, Fire(u, until), l', until);
  }

  lemma FindNow(o: Origin, w: World, clock: Time, p: Principal) returns (l': Local)
    requires Acting(o, w, clock, p) && w.spokes[p.member].phase.Correlating?
    ensures Acting(o, Put(w, p.member, l'), clock, p) && l'.hub == w.hub
    ensures l'.spoke.phase.Closed? && l'.spoke.phase.queue == w.spokes[p.member].phase.queue
  {
    var m := p.member;
    var l1 := CatchUp(o, w, clock, p);
    var w1 := Put(w, m, l1);
    TickPaths.PutTwice(w, m, l1, l1);
    SearchHasAnswer(w1, m);
    var found :| CanFind(l1, found);
    l' := AfterFind(l1, found);
    Step(o, w1, clock, p, Find(found), l', clock);
    TickPaths.PutTwice(w, m, l1, l');
  }

  /** The head's ack succeeds, and one delivery fewer is left. */
  lemma AckNow(o: Origin, w: World, clock: Time, p: Principal) returns (l': Local)
    requires Acting(o, w, clock, p) && CanAck(w.spokes[p.member])
    requires w.spokes[p.member].phase.queue[0].key in HubDrain.Pending(w.hub)
    ensures Acting(o, Put(w, p.member, l'), clock, p) && HubDrain.Measure(l'.hub) + 1 == HubDrain.Measure(w.hub)
  {
    var l := LocalOf(w, p.member);
    MemberInOrder(w, p.member);
    l' := AfterAckHead(l, p, clock, true);
    Step(o, w, clock, p, AckHead(clock, true), l', clock);
    HeadAckSucceeds(l, p, clock);
    HubDrain.AckLowers(w.hub, p, l.spoke.phase.queue[0].key, AckUuid(l.spoke), clock);
  }

  lemma HeadAckSucceeds(l: Local, p: Principal, now: Time)
    requires CanAck(l.spoke) && PhaseOk(l.hub, p.member, l.spoke)
    requires l.spoke.phase.queue[0].key in HubDrain.Pending(l.hub)
    ensures Ack(l.hub, p, l.spoke.phase.queue[0].key, AckUuid(l.spoke), now).result == Ok(Acked)
  {
  }

  lemma IntendSteps(l: Local, p: Principal, clock: Time)
    requires CanIntend(l.spoke)
    ensures CanStep(l, p, clock, Intend(clock, clock), AfterIntend(l, clock, clock), clock)
    ensures AfterIntend(l, clock, clock).spoke.phase == Firing(l.spoke.phase.queue, clock)
  {
  }

  lemma IntendNow(o: Origin, w: World, clock: Time, p: Principal) returns (l': Local)
    requires Acting(o, w, clock, p) && CanIntend(w.spokes[p.member])
    ensures Acting(o, Put(w, p.member, l'), clock, p) && l'.hub == w.hub
    ensures l'.spoke.phase.Firing? && l'.spoke.phase.queue == w.spokes[p.member].phase.queue
  {
    var l := LocalOf(w, p.member);
    IntendSteps(l, p, clock);
    l' := AfterIntend(l, clock, clock);
    Step(o, w, clock, p, Intend(clock, clock), l', clock);
  }

  lemma ResumeShape(l: Local)
    requires HeadJournaled(l.spoke)
    ensures var s, s' := l.spoke, AfterResume(l).spoke;
      (s'.phase.Correlating? || s'.phase.Closed?) && s'.phase.queue == s.phase.queue && AfterResume(l).hub == l.hub
  {
  }

  lemma ResumeNow(o: Origin, w: World, clock: Time, p: Principal) returns (l': Local)
    requires Acting(o, w, clock, p) && HeadJournaled(w.spokes[p.member])
    ensures Acting(o, Put(w, p.member, l'), clock, p) && l'.hub == w.hub
    ensures (l'.spoke.phase.Correlating? || l'.spoke.phase.Closed?) && l'.spoke.phase.queue == w.spokes[p.member].phase.queue
  {
    var l := LocalOf(w, p.member);
    l' := AfterResume(l);
    ResumeShape(l);
    Step(o, w, clock, p, Resume, l', clock);
  }

  predicate EchoAtHead(ph: Phase) {
    ph.Inbox? && ph.queue != [] && ph.queue[0].EchoEntry?
  }

  lemma WriteNow(o: Origin, w: World, clock: Time, p: Principal) returns (l': Local)
    requires Acting(o, w, clock, p) && EchoAtHead(w.spokes[p.member].phase)
    ensures Acting(o, Put(w, p.member, l'), clock, p) && l'.hub == w.hub
    ensures l'.spoke.phase == Echoed(w.spokes[p.member].phase.queue)
  {
    var l := LocalOf(w, p.member);
    MemberInOrder(w, p.member);
    EchoIsThere(l, p.member);
    l' := AfterWriteTerminal(l, true, true);
    Step(o, w, clock, p, WriteTerminal(true, true), l', clock);
  }

  lemma EchoIsThere(l: Local, m: MemberId)
    requires EchoAtHead(l.spoke.phase) && PhaseOk(l.hub, m, l.spoke)
    requires SendersOk(l.hub, m, l.spoke, l.home) && EchoesOk(l.hub, m, QueueOf(l.spoke.phase))
    ensures CanWrite(l, true, true)
  {
    assert EntryOk(l.hub, m, l.spoke.phase.queue[0]);
    assert EchoOk(l.hub, m, QueueOf(l.spoke.phase)[0]);
    assert SenderOk(l.hub, l.spoke, l.home, l.spoke.phase.queue[0].key.tid);
  }

  /** The head's create is journaled and written, or was before. */
  lemma OpenNow(o: Origin, w: World, clock: Time, p: Principal) returns (l': Local, until: Time)
    requires Acting(o, w, clock, p)
    requires var ph := w.spokes[p.member].phase; ph.Inbox? && HeadIsCreate(ph.queue)
    ensures Acting(o, Put(w, p.member, l'), until, p) && l'.hub == w.hub
    ensures (l'.spoke.phase.Correlating? || l'.spoke.phase.Closed?) && l'.spoke.phase.queue == w.spokes[p.member].phase.queue
  {
    var m := p.member;
    if CanIntend(w.spokes[m]) {
      var l0 := IntendNow(o, w, clock, p);
      l', until := FireNow(o, Put(w, m, l0), clock, p);
      TickPaths.PutTwice(w, m, l0, l');
    } else {
      l' := ResumeNow(o, w, clock, p);
      until := clock;
    }
  }

  /** From a create at the head to its uuid in hand. */
  lemma CreateNow(o: Origin, w: World, clock: Time, p: Principal) returns (l': Local, until: Time)
    requires Acting(o, w, clock, p)
    requires var ph := w.spokes[p.member].phase; ph.Inbox? && HeadIsCreate(ph.queue)
    ensures Acting(o, Put(w, p.member, l'), until, p) && l'.hub == w.hub
    ensures l'.spoke.phase.Closed? && l'.spoke.phase.queue == w.spokes[p.member].phase.queue
  {
    var m := p.member;
    l', until := OpenNow(o, w, clock, p);
    if l'.spoke.phase.Correlating? {
      var l1 := l';
      TickPaths.PutTwice(w, m, l1, l1);
      l' := FindNow(o, Put(w, m, l1), until, p);
      TickPaths.PutTwice(w, m, l1, l');
    }
  }

  /** The head of a batch is applied and acked. */
  lemma ApplyNow(o: Origin, w: World, clock: Time, p: Principal) returns (l': Local, until: Time)
    requires Acting(o, w, clock, p)
    requires var ph := w.spokes[p.member].phase; ph.Inbox? && ph.queue != [] && ph.queue[0].key in HubDrain.Pending(w.hub)
    ensures Acting(o, Put(w, p.member, l'), until, p) && HubDrain.Measure(l'.hub) + 1 == HubDrain.Measure(w.hub)
  {
    var m := p.member;
    var l1: Local;
    until := clock;
    if w.spokes[m].phase.queue[0].CreateEntry? {
      l1, until := CreateNow(o, w, clock, p);
    } else {
      l1 := WriteNow(o, w, clock, p);
    }
    TickPaths.PutTwice(w, m, l1, l1);
    l' := AckNow(o, Put(w, m, l1), until, p);
    TickPaths.PutTwice(w, m, l1, l');
  }

  // ----- one round -----

  lemma MarkNow(o: Origin, w: World, clock: Time, p: Principal) returns (l': Local)
    requires Acting(o, w, clock, p) && w.spokes[p.member].phase.Retagged?
    ensures Acting(o, Put(w, p.member, l'), clock, p) && l'.hub == w.hub && l'.spoke.phase.Watching?
  {
    var l := LocalOf(w, p.member);
    MemberInOrder(w, p.member);
    l' := AfterMarkRetagged(l);
    Step(o, w, clock, p, MarkRetagged, l', clock);
  }

  /** What is in hand is put down. */
  lemma DropNow(o: Origin, w: World, clock: Time, p: Principal) returns (l': Local)
    requires Acting(o, w, clock, p) && !w.spokes[p.member].phase.Firing? && !w.spokes[p.member].phase.Retagged?
    ensures Acting(o, Put(w, p.member, l'), clock, p) && l'.hub == w.hub && l'.spoke.phase.Idle?
  {
    l' := AfterRest(LocalOf(w, p.member));
    Step(o, w, clock, p, Crash, l', clock);
  }

  /** Whatever the member is in the middle of, the tick can end: a write under way first, or a marker. */
  lemma RestNow(o: Origin, w: World, clock: Time, p: Principal) returns (l': Local, until: Time)
    requires Acting(o, w, clock, p)
    ensures Acting(o, Put(w, p.member, l'), until, p) && l'.hub == w.hub && l'.spoke.phase.Idle?
  {
    var m := p.member;
    until := clock;
    if w.spokes[m].phase.Firing? {
      var l1;
      l1, until := FireNow(o, w, clock, p);
      TickPaths.PutTwice(w, m, l1, l1);
      l' := DropNow(o, Put(w, m, l1), until, p);
      TickPaths.PutTwice(w, m, l1, l');
    } else if w.spokes[m].phase.Retagged? {
      var l1 := MarkNow(o, w, clock, p);
      TickPaths.PutTwice(w, m, l1, l1);
      l' := DropNow(o, Put(w, m, l1), clock, p);
      TickPaths.PutTwice(w, m, l1, l');
    } else {
      l' := DropNow(o, w, clock, p);
    }
  }

  /** A poll by an idle member with something pending, late enough, brings a pending entry. */
  lemma PollNow(o: Origin, w: World, clock: Time, p: Principal, k: DKey) returns (l': Local, until: Time)
    requires Acting(o, w, clock, p) && w.spokes[p.member].phase.Idle? && p.canReceive
    requires k in HubDrain.Pending(w.hub) && k.to == p.member
    ensures Acting(o, Put(w, p.member, l'), until, p) && HubDrain.Measure(l'.hub) == HubDrain.Measure(w.hub)
    ensures var ph := l'.spoke.phase; ph.Inbox? && ph.queue != [] && ph.queue[0].key in HubDrain.Pending(l'.hub)
  {
    var l := LocalOf(w, p.member);
    var order;
    order, until := HubDrain.LapsedListing(w.hub, k, clock);
    l' := AfterPoll(l, p, order, 0.0, until, true);
    Step(o, w, clock, p, Poll(order, 0.0, until, true), l', until);
    HubDrain.LeaseKeepsMeasure(w.hub, p, order, POLL_LIMIT, 0.0, until);
    PollBringsWork(w.hub, p, k, order, until);
  }

  lemma PendingLeasable(h: Hub, k: DKey, now: Time)
    requires HubInv(h) && AllAccounted(h) && k in HubDrain.Pending(h) && Lapsed(h.deliveries[k].progress, now)
    ensures Leasable(h, k, now)
  {
    assert DeliveryOk(h, k) && TransferOk(h, k.tid) && Accounted(h, k.tid);
  }

  lemma PollBringsWork(h: Hub, p: Principal, k: DKey, order: seq<DKey>, now: Time)
    requires HubInv(h) && AllAccounted(h) && k in HubDrain.Pending(h) && k.to == p.member && p.canReceive
    requires IsListing(h, p.member, order) && k in order && Lapsed(h.deliveries[k].progress, now)
    ensures var r := Lease(h, p, order, POLL_LIMIT, 0.0, now);
      r.result.Ok? && r.result.value != [] && r.result.value[0].key in HubDrain.Pending(r.hub)
  {
    PendingLeasable(h, k, now);
    assert k in Eligible(h, order, now);
    var ks := Handed(h, order, POLL_LIMIT, now);
    assert ks != [] && ks[0] in Eligible(h, order, now);
    var r := Lease(h, p, order, POLL_LIMIT, 0.0, now);
    assert r.result.value[0] == EntryFor(h, ks[0]);
    HubDrain.LeaseKeepsMeasure(h, p, order, POLL_LIMIT, 0.0, now);
    assert ks[0] in HubDrain.Pending(h);
  }

  /** A batch with something pending at its head, the rest of the queue as it was. */
  lemma FetchNow(o: Origin, w: World, clock: Time, p: Principal, k: DKey) returns (l': Local, until: Time)
    requires Acting(o, w, clock, p) && k in HubDrain.Pending(w.hub) && k.to == p.member && p.canReceive
    ensures Acting(o, Put(w, p.member, l'), until, p) && HubDrain.Measure(l'.hub) == HubDrain.Measure(w.hub)
    ensures var ph := l'.spoke.phase; ph.Inbox? && ph.queue != [] && ph.queue[0].key in HubDrain.Pending(l'.hub)
  {
    var m := p.member;
    var l1, t1 := RestNow(o, w, clock, p);
    TickPaths.PutTwice(w, m, l1, l1);
    l', until := PollNow(o, Put(w, m, l1), t1, p, k);
    TickPaths.PutTwice(w, m, l1, l');
  }

  lemma Round(o: Origin, w: World, clock: Time, p: Principal, k: DKey) returns (l': Local, until: Time)
    requires Acting(o, w, clock, p) && k in HubDrain.Pending(w.hub) && k.to == p.member && p.canReceive
    ensures Acting(o, Put(w, p.member, l'), until, p) && HubDrain.Measure(l'.hub) + 1 == HubDrain.Measure(w.hub)
  {
    var m := p.member;
    var l1, t1 := FetchNow(o, w, clock, p, k);
    TickPaths.PutTwice(w, m, l1, l1);
    l', until := ApplyNow(o, Put(w, m, l1), t1, p);
    TickPaths.PutTwice(w, m, l1, l');
  }
}
