/** Runs of the system under each layer of hypotheses, and what every state of such a run keeps. */
module CarefulRuns {
  import opened Basics
  import opened HubSpec
  import opened HubInvariant
  import opened HubHistory
  import opened HubEchoes
  import opened SpokeSpec
  import opened SpokeInvariant
  import opened SpokeSteps
  import opened Matching
  import opened System
  import opened SystemSafety
  import opened HomeInvariant
  import opened HomeAccount
  import opened HomeKept
  import opened HomeCareful
  import opened HomeDates

  // ----- ordinary runs -----

  /** Any tick, any fault; ordinary events. */
  ghost predicate OrdinaryRun(ws: seq<World>, ls: seq<Label>) {
    && |ws| == |ls| + 1
    && KeptWorld(ws[0])
    && forall i {:trigger ls[i]} :: 0 <= i < |ls| ==> Possible(ws[i], ls[i]) && Ordinary(ws[i], ls[i]) && ws[i + 1] == Next(ws[i], ls[i])
  }

  lemma OrdinaryNext(w: World, l: Label)
    requires KeptWorld(w) && Possible(w, l) && Ordinary(w, l)
    ensures KeptWorld(Next(w, l))
  {
    match l
    case Tick(p, a) => TickKeepsAll(w, p, a);
    case Life(m, e) => LifeKeepsAll(w, m, e);
  }

  lemma {:induction false} RunKept(ws: seq<World>, ls: seq<Label>, i: nat)
    requires OrdinaryRun(ws, ls) && i < |ws|
    ensures KeptWorld(ws[i])
  {
    if i > 0 {
      RunKept(ws, ls, i - 1);
      OrdinaryNext(ws[i - 1], ls[i - 1]);
    }
  }

  // ----- careful runs -----

  /** What an acting member needs to know of the hub. */
  ghost predicate Ready(l: Local, p: Principal) {
    ReadyToKeep(l, p) && ReportsOk(l.hub) && HomeOk(l.hub, p.member, l.spoke, l.home)
  }

  lemma SendOwn(l: Local, p: Principal, src: Uuid, tag: string, id: Tid, now: Time, heard: bool)
    requires Ready(l, p) && CanSend(l, src, tag, id)
    ensures var l' := AfterSend(l, p, src, tag, id, now, heard); HomeOk(l'.hub, p.member, l'.spoke, l'.home)
  {
    if Delegated(l.hub, p.member, src) { DelegatedIsPushed(l.hub, p, src); }
    SendHome(l, p, src, tag, id, now, heard);
  }

  lemma AckOwn(l: Local, p: Principal, now: Time, heard: bool)
    requires Ready(l, p) && CanAck(l.spoke)
    ensures var l' := AfterAckHead(l, p, now, heard); HomeOk(l'.hub, p.member, l'.spoke, l'.home)
  {
    var k := l.spoke.phase.queue[0].key;
    assert k in l.hub.deliveries ==> DeliveryOk(l.hub, k) && TransferOk(l.hub, k.tid);
    AckHome(l, p, now, heard);
  }

  lemma ReportOwn(l: Local, p: Principal, now: Time, heard: bool)
    requires Ready(l, p) && CanReport(l)
    ensures var l' := AfterReport(l, p, now, heard); HomeOk(l'.hub, p.member, l'.spoke, l'.home)
  {
    var w := l.spoke.phase.watch[0];
    assert w.tid in l.hub.transfers ==> TransferOk(l.hub, w.tid);
    ObserveGrows(l.hub, p, w.tid, News(l.spoke, l.home.mirror, w).value, now);
    ReportHome(l, p, now, heard);
  }

  /** Actions that stay with the entries in hand, or put everything down. */
  lemma RestOwn(l: Local, p: Principal, a: Action)
    requires HomeOk(l.hub, p.member, l.spoke, l.home) && PhaseOk(l.hub, p.member, l.spoke)
    requires Enabled(l, p, a) && CarefulTick(l, a)
    requires a.MarkSent? || a.Intend? || a.Fail? || a.Resume? || a.Find? || a.Finish? || a.Crash?
    ensures HomeOk(Act(l, p, a).hub, p.member, Act(l, p, a).spoke, Act(l, p, a).home)
  {
    var s' := Act(l, p, a).spoke;
    if a.Intend? || a.Fail? || a.Resume? || a.Find? {
      QueueStep(l.hub, p.member, l.spoke, s', l.home);
    } else {
      MoveStep(l.hub, p.member, l.spoke, s', l.home);
    }
  }

  /** The acting member's own account. */
  lemma OwnHome(l: Local, p: Principal, a: Action)
    requires Ready(l, p) && Enabled(l, p, a) && CarefulTick(l, a)
    ensures HomeOk(Act(l, p, a).hub, p.member, Act(l, p, a).spoke, Act(l, p, a).home)
  {
    match a
    case Send(src, tag, id, now, heard) => SendOwn(l, p, src, tag, id, now, heard);
    case Poll(order, seconds, now, heard) => PollHome(l, p, order, seconds, now, heard);
    case Fire(uuid, created) => FireHome(l, p.member, uuid, created);
    case AckHead(now, heard) => AckOwn(l, p, now, heard);
    case WriteTerminal(landed, verified) => WriteHome(l, p.member, landed, verified);
    case NackHead(arrives) => NackHome(l, p, arrives);
    case Watch(q) => WatchHome(l, p, q);
    case Pass => WatchMoves(l.hub, p.member, l.spoke, AfterPass(l).spoke, l.home);
    case Report(now, heard) => ReportOwn(l, p, now, heard);
    case MarkReported => WatchMoves(l.hub, p.member, l.spoke, AfterMarkReported(l).spoke, l.home);
    case Retag(landed, verified, kept) => RetagHome(l, p.member, landed, verified, kept);
    case MarkRetagged => MarkRetaggedHome(l, p.member);
    case _ => RestOwn(l, p, a);
  }

  /** The only calls a careful system makes: pushes, senders' echo acks, recipients' reports. */
  lemma TickIsRecipients(l: Local, p: Principal, a: Action)
    requires Ready(l, p) && Enabled(l, p, a)
    ensures CallOf(l, p, a).Some? ==> RecipientsCall(l.hub, CallOf(l, p, a).value)
  {
    match a
    case AckHead(now, _) => AckIsSenders(l, p, now);
    case Report(now, _) =>
      var w := l.spoke.phase.watch[0];
      assert w.tid in l.hub.transfers ==> TransferOk(l.hub, w.tid);
      ReportIsRecipients(l, p, now);
    case _ =>
  }

  lemma AckIsSenders(l: Local, p: Principal, now: Time)
    requires HubInv(l.hub) && CanAck(l.spoke) && PhaseOk(l.hub, p.member, l.spoke)
    requires EchoesOk(l.hub, p.member, QueueOf(l.spoke.phase))
    ensures RecipientsCall(l.hub, CallAck(p, l.spoke.phase.queue[0].key, AckUuid(l.spoke), now))
  {
    var e := l.spoke.phase.queue[0];
    assert EntryOk(l.hub, p.member, e) && e in QueueOf(l.spoke.phase);
    assert TransferOk(l.hub, e.key.tid);
  }

  lemma MemberInOrder(w: World, m: MemberId)
    requires CarefulOk(w) && m in w.spokes
    ensures m in w.homes && MemberOk(w.hub, m, w.spokes[m])
    ensures KeptOk(w.hub, m, w.spokes[m], w.homes[m]) && HomeOk(w.hub, m, w.spokes[m], w.homes[m])
  {
  }

  lemma ReadyToAct(w: World, p: Principal)
    requires CarefulOk(w) && p.member in w.spokes && p.member in w.homes && Authentic(w.hub, p)
    ensures Ready(LocalOf(w, p.member), p)
  {
    MemberInOrder(w, p.member);
  }

  lemma OthersHome(h: Hub, c: Call, m: MemberId, s: Spoke, home: Home)
    requires HubInv(h) && Legal(h, c) && RecipientsCall(h, c) && m != c.p.member && PhaseOk(h, m, s) && HomeOk(h, m, s, home)
    ensures HomeOk(Do(h, c), m, s, home)
  {
    DoGrows(h, c);
    CallUndisturbed(h, c, m);
    UndisturbedKeeps(h, Do(h, c), m, s, home);
  }

  lemma TickHomeFor(w: World, p: Principal, a: Action, m: MemberId)
    requires CarefulOk(w) && Possible(w, Tick(p, a)) && CarefulTick(LocalOf(w, p.member), a) && m in w.spokes
    ensures var l' := Act(LocalOf(w, p.member), p, a);
      m in w.homes
      && if m == p.member then HomeOk(l'.hub, m, l'.spoke, l'.home) else HomeOk(l'.hub, m, w.spokes[m], w.homes[m])
  {
    var l := LocalOf(w, p.member);
    ReadyToAct(w, p);
    if m == p.member {
      OwnHome(l, p, a);
    } else {
      MemberInOrder(w, m);
      TickIsCall(l, p, a);
      TickIsRecipients(l, p, a);
      match CallOf(l, p, a)
      case None =>
      case Some(c) => OthersHome(w.hub, c, m, w.spokes[m], w.homes[m]);
    }
  }

  lemma TickKeepsReports(w: World, p: Principal, a: Action)
    requires CarefulOk(w) && Possible(w, Tick(p, a))
    ensures ReportsOk(Act(LocalOf(w, p.member), p, a).hub)
  {
    var l := LocalOf(w, p.member);
    ReadyToAct(w, p);
    TickIsCall(l, p, a);
    TickIsRecipients(l, p, a);
    match CallOf(l, p, a)
    case None =>
    case Some(c) => CallKeepsReports(w.hub, c);
  }

  lemma PutHomes(h: Hub, spokes: map<MemberId, Spoke>, homes: map<MemberId, Home>, m: MemberId, s: Spoke, home: Home)
    requires HomeOk(h, m, s, home)
    requires forall n :: n in spokes && n != m ==> n in homes && HomeOk(h, n, spokes[n], homes[n])
    ensures AllHomes(h, spokes[m := s], homes[m := home])
  {
  }

  lemma TickHomes(w: World, p: Principal, a: Action)
    requires CarefulOk(w) && Possible(w, Tick(p, a)) && CarefulTick(LocalOf(w, p.member), a)
    ensures var w' := Next(w, Tick(p, a)); AllHomes(w'.hub, w'.spokes, w'.homes)
  {
    var l' := Act(LocalOf(w, p.member), p, a);
    TickHomeFor(w, p, a, p.member);
    forall n | n in w.spokes && n != p.member ensures n in w.homes && HomeOk(l'.hub, n, w.spokes[n], w.homes[n]) {
      TickHomeFor(w, p, a, n);
    }
    PutHomes(l'.hub, w.spokes, w.homes, p.member, l'.spoke, l'.home);
  }

  lemma TickKeepsCareful(w: World, p: Principal, a: Action)
    requires CarefulOk(w) && Possible(w, Tick(p, a)) && CarefulTick(LocalOf(w, p.member), a)
    ensures CarefulOk(Next(w, Tick(p, a)))
  {
    TickKeepsAll(w, p, a);
    TickKeepsReports(w, p, a);
    TickHomes(w, p, a);
  }

  lemma PutOneHome(h: Hub, spokes: map<MemberId, Spoke>, homes: map<MemberId, Home>, m: MemberId, home: Home)
    requires AllHomes(h, spokes, homes) && (m in spokes ==> HomeOk(h, m, spokes[m], home))
    ensures AllHomes(h, spokes, homes[m := home])
  {
  }

  lemma LifeHomes(w: World, m: MemberId, e: Event)
    requires CarefulOk(w) && Possible(w, Life(m, e)) && OrdinaryEvent(w.homes[m], e)
    ensures var w' := Next(w, Life(m, e)); AllHomes(w'.hub, w'.spokes, w'.homes)
  {
    MemberInOrder(w, m);
    LifeHome(w.hub, m, w.spokes[m], w.homes[m], e);
    PutOneHome(w.hub, w.spokes, w.homes, m, AfterEvent(w.spokes[m], w.homes[m], e));
  }

  lemma LifeKeepsCareful(w: World, m: MemberId, e: Event)
    requires CarefulOk(w) && Possible(w, Life(m, e)) && OrdinaryEvent(w.homes[m], e)
    ensures CarefulOk(Next(w, Life(m, e)))
  {
    LifeKeepsAll(w, m, e);
    LifeHomes(w, m, e);
  }

  lemma CarefulNext(w: World, l: Label)
    requires CarefulOk(w) && Possible(w, l) && Careful(w, l)
    ensures CarefulOk(Next(w, l))
  {
    match l
    case Tick(p, a) => TickKeepsCareful(w, p, a);
    case Life(m, e) => LifeKeepsCareful(w, m, e);
  }

  /** Any events; ticks that leave no retag unmarked but of transfers that are over. */
  ghost predicate CarefulRun(ws: seq<World>, ls: seq<Label>) {
    && |ws| == |ls| + 1
    && CarefulOk(ws[0])
    && forall i {:trigger ls[i]} :: 0 <= i < |ls| ==> Possible(ws[i], ls[i]) && Careful(ws[i], ls[i]) && ws[i + 1] == Next(ws[i], ls[i])
  }

  lemma {:induction false} RunCareful(ws: seq<World>, ls: seq<Label>, i: nat)
    requires CarefulRun(ws, ls) && i < |ws|
    ensures CarefulOk(ws[i])
  {
    if i > 0 {
      RunCareful(ws, ls, i - 1);
      CarefulNext(ws[i - 1], ls[i - 1]);
    }
  }

  // ----- dated runs -----

  lemma MemberDated(w: World, m: MemberId)
    requires DatedOk(w) && m in w.spokes
    ensures m in w.homes && MemberOk(w.hub, m, w.spokes[m]) && KeptOk(w.hub, m, w.spokes[m], w.homes[m])
    ensures HomeOk(w.hub, m, w.spokes[m], w.homes[m]) && DatesOk(w.spokes[m], w.homes[m])
  {
    MemberInOrder(w, m);
  }

  lemma TickDates(w: World, p: Principal, a: Action)
    requires DatedOk(w) && Possible(w, Tick(p, a)) && DatedTick(LocalOf(w, p.member), a) && p.member in w.spokes
    ensures var l' := Act(LocalOf(w, p.member), p, a); DatesOk(l'.spoke, l'.home)
  {
    MemberDated(w, p.member);
    ReadyToAct(w, p);
    OwnDates(LocalOf(w, p.member), p, a);
  }

  lemma EventDates(w: World, m: MemberId, e: Event)
    requires DatedOk(w) && Possible(w, Life(m, e)) && Dated(w, Life(m, e))
    ensures DatesOk(w.spokes[m], AfterEvent(w.spokes[m], w.homes[m], e))
  {
    MemberDated(w, m);
    LifeDates(w.spokes[m], w.homes[m], e);
  }

  lemma PutDates(spokes: map<MemberId, Spoke>, homes: map<MemberId, Home>, m: MemberId, s: Spoke, home: Home)
    requires AllDated(spokes, homes) && DatesOk(s, home)
    ensures AllDated(spokes[m := s], homes[m := home])
  {
  }

  lemma PutHomeDates(spokes: map<MemberId, Spoke>, homes: map<MemberId, Home>, m: MemberId, home: Home)
    requires AllDated(spokes, homes) && (m in spokes ==> DatesOk(spokes[m], home))
    ensures AllDated(spokes, homes[m := home])
  {
  }

  lemma TickDated(w: World, p: Principal, a: Action)
    requires DatedOk(w) && Possible(w, Tick(p, a)) && Dated(w, Tick(p, a))
    ensures DatedOk(Next(w, Tick(p, a)))
  {
    CarefulNext(w, Tick(p, a));
    TickDates(w, p, a);
    var l' := Act(LocalOf(w, p.member), p, a);
    PutDates(w.spokes, w.homes, p.member, l'.spoke, l'.home);
  }

  lemma LifeDated(w: World, m: MemberId, e: Event)
    requires DatedOk(w) && Possible(w, Life(m, e)) && Dated(w, Life(m, e))
    ensures DatedOk(Next(w, Life(m, e)))
  {
    CarefulNext(w, Life(m, e));
    EventDates(w, m, e);
    PutHomeDates(w.spokes, w.homes, m, AfterEvent(w.spokes[m], w.homes[m], e));
  }

  lemma DatedNext(w: World, l: Label)
    requires DatedOk(w) && Possible(w, l) && Dated(w, l)
    ensures DatedOk(Next(w, l))
  {
    match l
    case Tick(p, a) => TickDated(w, p, a);
    case Life(m, e) => LifeDated(w, m, e);
  }

  /** A careful run over dated todos. */
  ghost predicate DatedRun(ws: seq<World>, ls: seq<Label>) {
    && |ws| == |ls| + 1
    && DatedOk(ws[0])
    && forall i {:trigger ls[i]} :: 0 <= i < |ls| ==> Possible(ws[i], ls[i]) && Dated(ws[i], ls[i]) && ws[i + 1] == Next(ws[i], ls[i])
  }

  lemma {:induction false} RunDated(ws: seq<World>, ls: seq<Label>, i: nat)
    requires DatedRun(ws, ls) && i < |ws|
    ensures DatedOk(ws[i])
  {
    if i > 0 {
      RunDated(ws, ls, i - 1);
      DatedNext(ws[i - 1], ls[i - 1]);
    }
  }

  // ----- the start -----

  lemma NothingMade(s: Spoke)
    ensures Made(s, map[])
  {
    assert SyncedTodos(map[]) == {};
    assert MadeBy(map[], s, map[]);
  }

  /** Empty tables and empty accounts are in order, if no trigger tag looks like a provenance tag. */
  lemma StartDated(roster: Roster, triggers: map<MemberId, map<string, string>>)
    requires RosterOk(roster)
    requires forall m, t :: m in triggers && t in triggers[m] ==> !IsProvenance(t)
    ensures DatedOk(Start(roster, triggers))
  {
    StartOk(roster, triggers);
    var w := Start(roster, triggers);
    forall m | m in w.spokes
      ensures KeptOk(w.hub, m, w.spokes[m], w.homes[m]) && HomeOk(w.hub, m, w.spokes[m], w.homes[m])
      ensures DatesOk(w.spokes[m], w.homes[m])
    {
      FreshInOrder(roster, m, if m in triggers then triggers[m] else map[]);
    }
  }

  lemma FreshInOrder(roster: Roster, m: MemberId, triggers: map<string, string>)
    requires forall t :: t in triggers ==> !IsProvenance(t)
    ensures var h, s, home := EmptyHub(roster), FreshSpoke(triggers), Home(map[], map[], map[]);
      KeptOk(h, m, s, home) && HomeOk(h, m, s, home) && DatesOk(s, home)
  {
    NothingMade(FreshSpoke(triggers));
    EmptyMatches();
    assert OpenKeys(FreshSpoke(triggers)) == {};
  }
}
