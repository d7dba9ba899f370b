/**
 * One hub, every member's spoke and every member's account, interleaved statement by statement.
 * Here anything may happen: crashes anywhere, lost responses, stale mirrors, any human act.
 */
module System {
  import opened Basics
  import opened HubSpec
  import opened HubInvariant
  import opened HubHistory
  import opened HubEchoes
  import opened HubLeases
  import opened SpokeSpec
  import opened SpokeInvariant
  import opened SpokeSteps

  datatype World = World(hub: Hub, spokes: map<MemberId, Spoke>, homes: map<MemberId, Home>)

  /** What happens to an account and its mirror besides the spoke's own writes. */
  datatype Event =
    | Sync(view: Todos)             // the mirror is refreshed
    | Add(uuid: Uuid, todo: Todo)   // a human adds a todo
    | Edit(uuid: Uuid, todo: Todo)  // a human edits a todo
    | End(uuid: Uuid, todo: Todo)   // a human completes, cancels or trashes a todo
    | Anything(todos: Todos)        // a human does anything at all

  datatype Label =
    | Tick(p: Principal, a: Action)
    | Life(m: MemberId, e: Event)

  function LocalOf(w: World, m: MemberId): Local
    requires m in w.spokes && m in w.homes
  {
    Local(w.hub, w.spokes[m], w.homes[m])
  }

  function Put(w: World, m: MemberId, l: Local): World {
    World(l.hub, w.spokes[m := l.spoke], w.homes[m := l.home])
  }

  predicate HasTrigger(s: Spoke, todo: Todo) {
    exists t :: t in todo.tags && t in s.triggers
  }

  /** The account after an event; a todo that now carries a trigger tag is noted as delegated so. */
  function AfterEvent(s: Spoke, home: Home, e: Event): Home {
    match e
    case Sync(view) => home.(mirror := view)
    case Anything(todos) => home.(todos := todos)
    case End(u, todo) => home.(todos := home.todos[u := todo])
    case _ =>
      home.(todos := home.todos[e.uuid := e.todo],
            asked := if HasTrigger(s, e.todo) then home.asked[e.uuid := e.todo] else home.asked)
  }

  function MemberOf(l: Label): MemberId {
    match l
    case Tick(p, _) => p.member
    case Life(m, _) => m
  }

  ghost predicate Possible(w: World, l: Label) {
    && MemberOf(l) in w.spokes && MemberOf(l) in w.homes
    && match l
       case Tick(p, a) => Authentic(w.hub, p) && Enabled(LocalOf(w, p.member), p, a)
       case Life(_, _) => true
  }

  ghost function Next(w: World, l: Label): World
    requires Possible(w, l)
  {
    match l
    case Tick(p, a) => Put(w, p.member, Act(LocalOf(w, p.member), p, a))
    case Life(m, e) => w.(homes := w.homes[m := AfterEvent(w.spokes[m], w.homes[m], e)])
  }

  ghost predicate WorldOk(w: World) {
    && HubInv(w.hub) && AllAccounted(w.hub)
    && (forall m :: m in w.spokes ==> m in w.homes && MemberOk(w.hub, m, w.spokes[m]))
    && (forall t :: t in w.hub.transfers ==> w.hub.transfers[t].from in w.spokes && w.hub.transfers[t].to in w.spokes)
    && w.hub.roster.members.Keys <= w.spokes.Keys
  }

  // ----- a tick's hub call -----

  /** The hub call an action makes, if it makes one. */
  function CallOf(l: Local, p: Principal, a: Action): Option<Call> {
    match a
    case Send(src, tag, id, now, _) =>
      if CanSend(l, src, tag, id)
      then Some(CallPush(p, l.spoke.triggers[tag], src, Payload(l.home.mirror[src].title), 1, id, now))
      else None
    case Poll(order, seconds, now, _) => Some(CallLease(p, order, POLL_LIMIT, seconds, now))
    case AckHead(now, _) =>
      if CanAck(l.spoke) then Some(CallAck(p, l.spoke.phase.queue[0].key, AckUuid(l.spoke), now)) else None
    case NackHead(arrives) =>
      if arrives && l.spoke.phase.Failed? && l.spoke.phase.queue != []
      then Some(CallNack(p, l.spoke.phase.queue[0].key))
      else None
    case Report(now, _) =>
      if CanReport(l)
      then Some(CallObserve(p, l.spoke.phase.watch[0].tid, News(l.spoke, l.home.mirror, l.spoke.phase.watch[0]).value, now))
      else None
    case _ => None
  }

  /** A tick reaches the hub only through that call, and the call is legal. */
  lemma TickIsCall(l: Local, p: Principal, a: Action)
    requires Enabled(l, p, a) && Authentic(l.hub, p)
    ensures match CallOf(l, p, a)
      case None => Act(l, p, a).hub == l.hub
      case Some(c) => Legal(l.hub, c) && c.p == p && Act(l, p, a).hub == Do(l.hub, c)
  {
  }

  /** Observations from a watchlist snapshot, one per entry, keep the discipline of the echo accounting. */
  lemma ReportsAreDisciplined(l: Local, p: Principal, a: Action)
    requires a.Report? && CanReport(l) && HubInv(l.hub) && MemberOk(l.hub, p.member, l.spoke)
    ensures var w := l.spoke.phase.watch[0];
      Disciplined(l.hub, p, w.tid, News(l.spoke, l.home.mirror, w).value)
  {
    var w := l.spoke.phase.watch[0];
    assert WatchedOk(l.hub, p.member, w);
    assert TransferOk(l.hub, w.tid);
    assert Ahead(l.spoke.phase)[0] == w;
  }

  /** Nobody else's call disturbs a member. */
  lemma CallForeign(h: Hub, c: Call, m: MemberId)
    requires HubInv(h) && Legal(h, c) && m != c.p.member
    ensures Foreign(h, Do(h, c), m)
  {
    match c
    case CallPush(p, handle, src, payload, rev, id, now) => PushForeign(h, p, handle, src, payload, rev, id, now, m);
    case CallLease(p, order, limit, seconds, now) => LeaseForeign(h, p, order, limit, seconds, now, m);
    case CallAck(p, key, dst, now) =>
      assert key in h.deliveries ==> DeliveryOk(h, key) && TransferOk(h, key.tid);
      AckForeign(h, p, key, dst, now, m);
    case CallNack(p, key) => NackForeign(h, p, key, m);
    case CallObserve(p, t, s, now) => ObserveForeign(h, p, t, s, now, m);
  }

  /** What a call leaves true of the ledger as a whole. */
  lemma CallKeepsHub(w: World, p: Principal, a: Action)
    requires WorldOk(w) && Possible(w, Tick(p, a))
    ensures var h' := Act(LocalOf(w, p.member), p, a).hub;
      HubInv(h') && AllAccounted(h') && Grows(w.hub, h')
  {
    var l := LocalOf(w, p.member);
    TickIsCall(l, p, a);
    match CallOf(l, p, a)
    case None => GrowsReflexive(w.hub);
    case Some(c) =>
      if a.Report? { ReportsAreDisciplined(l, p, a); }
      DoGrows(w.hub, c);
      DoAccounts(w.hub, c);
  }

  lemma GrowsReflexive(h: Hub)
    ensures Grows(h, h)
  {
  }

  lemma OthersKeep(w: World, p: Principal, a: Action, m: MemberId)
    requires WorldOk(w) && Possible(w, Tick(p, a)) && m in w.spokes && m != p.member
    ensures MemberOk(Act(LocalOf(w, p.member), p, a).hub, m, w.spokes[m])
  {
    var l := LocalOf(w, p.member);
    TickIsCall(l, p, a);
    match CallOf(l, p, a)
    case None =>
    case Some(c) =>
      CallForeign(w.hub, c, m);
      ForeignKeeps(w.hub, Do(w.hub, c), m, w.spokes[m]);
  }

  lemma PartiesHaveSpokes(h: Hub, spokes: set<MemberId>)
    requires HubInv(h) && h.roster.members.Keys <= spokes
    ensures forall t :: t in h.transfers ==> h.transfers[t].from in spokes && h.transfers[t].to in spokes
  {
  }

  lemma MemberKeeps(w: World, p: Principal, a: Action, m: MemberId)
    requires WorldOk(w) && Possible(w, Tick(p, a)) && m in w.spokes
    ensures var l' := Act(LocalOf(w, p.member), p, a);
      m in w.homes && MemberOk(l'.hub, m, if m == p.member then l'.spoke else w.spokes[m])
  {
    if m == p.member {
      assert MemberOk(w.hub, m, w.spokes[m]);
      OwnStep(LocalOf(w, m), p, a);
    } else {
      OthersKeep(w, p, a, m);
    }
  }

  lemma TickKeeps(w: World, p: Principal, a: Action)
    requires WorldOk(w) && Possible(w, Tick(p, a))
    ensures WorldOk(Next(w, Tick(p, a)))
  {
    var w' := Next(w, Tick(p, a));
    CallKeepsHub(w, p, a);
    forall m | m in w'.spokes ensures m in w'.homes && MemberOk(w'.hub, m, w'.spokes[m]) {
      MemberKeeps(w, p, a, m);
    }
    PartiesHaveSpokes(w'.hub, w'.spokes.Keys);
  }

  lemma LifeKeepsWorld(w: World, m: MemberId, e: Event)
    requires WorldOk(w) && Possible(w, Life(m, e))
    ensures WorldOk(Next(w, Life(m, e)))
  {
    var w' := Next(w, Life(m, e));
    forall n | n in w'.spokes ensures n in w'.homes && MemberOk(w'.hub, n, w'.spokes[n]) {
      assert MemberOk(w.hub, n, w.spokes[n]);
    }
  }

  /** The invariant of the whole system, under every interleaving and every failure. */
  lemma NextKeeps(w: World, l: Label)
    requires WorldOk(w) && Possible(w, l)
    ensures WorldOk(Next(w, l)) && Grows(w.hub, Next(w, l).hub)
  {
    match l
    case Tick(p, a) =>
      TickKeeps(w, p, a);
      CallKeepsHub(w, p, a);
    case Life(m, e) =>
      LifeKeepsWorld(w, m, e);
      GrowsReflexive(w.hub);
  }

  // ----- runs -----

  ghost predicate Behaviour(ws: seq<World>, ls: seq<Label>) {
    && |ws| == |ls| + 1
    && WorldOk(ws[0])
    && forall i :: 0 <= i < |ls| ==> Possible(ws[i], ls[i]) && ws[i + 1] == Next(ws[i], ls[i])
  }

  function FreshSpoke(triggers: map<string, string>): Spoke {
    Spoke(triggers, map[], map[], {}, map[], Idle, [])
  }

  /** Everybody starts with empty tables. */
  function Start(roster: Roster, triggers: map<MemberId, map<string, string>>): World {
    World(EmptyHub(roster),
          map m | m in roster.members :: FreshSpoke(if m in triggers then triggers[m] else map[]),
          map m | m in roster.members :: Home(map[], map[], map[]))
  }

  lemma StartOk(roster: Roster, triggers: map<MemberId, map<string, string>>)
    requires RosterOk(roster)
    ensures WorldOk(Start(roster, triggers))
  {
    EmptyInv(roster);
  }

  lemma {:induction false} RunOk(ws: seq<World>, ls: seq<Label>, i: nat)
    requires Behaviour(ws, ls) && i < |ws|
    ensures WorldOk(ws[i])
  {
    if i > 0 {
      RunOk(ws, ls, i - 1);
      NextKeeps(ws[i - 1], ls[i - 1]);
    }
  }
}
