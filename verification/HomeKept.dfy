/** Whatever a tick does and wherever it fails, every account is kept: nothing delegated is lost, nothing received twice. */
module HomeKept {
  import opened Basics
  import opened HubSpec
  import opened HubInvariant
  import opened HubHistory
  import opened HubEchoes
  import opened HubLeases
  import HubLaws
  import opened SpokeSpec
  import opened SpokeInvariant
  import opened SpokeSteps
  import opened Matching
  import opened System
  import opened SystemSafety
  import opened HomeInvariant
  import opened HomeAccount

  // ----- the hub moves, the account does not -----

  /** None of the member's transfers is new. */
  ghost predicate NoneSent(h: Hub, h': Hub, m: MemberId) {
    forall t :: t in h'.transfers && h'.transfers[t].from == m ==> t in h.transfers
  }

  lemma HandedFrame(h: Hub, h': Hub, m: MemberId, home: Home)
    requires HandedAll(h, m, home) && TransfersGrow(h, h') && NoneSent(h, h', m)
    ensures HandedAll(h', m, home)
  {
    forall t | t in h'.transfers && h'.transfers[t].from == m ensures HandoverOk(h', home, t) {
      assert HandoverOk(h, home, t);
    }
  }

  lemma UnpushedFrame(h: Hub, h': Hub, m: MemberId, home: Home)
    requires UnpushedOk(h, m, home) && TransfersGrow(h, h')
    ensures UnpushedOk(h', m, home)
  {
    forall u | u in home.asked && Delegated(h, m, u) ensures Delegated(h', m, u) {
      var t :| t in h.transfers && h.transfers[t].from == m && h.transfers[t].src == u;
      assert t in h'.transfers;
    }
  }

  /** Entries in hand stay as good as they were, and fewer are as good. */
  lemma InHandFrame(h: Hub, h': Hub, m: MemberId, s: Spoke, s': Spoke)
    requires EchoesApplied(h, QueueOf(s.phase)) && Receiving(h, m, s) && TransfersGrow(h, h')
    requires forall e :: e in QueueOf(s'.phase) ==> e in QueueOf(s.phase)
    ensures EchoesApplied(h', QueueOf(s'.phase)) && Receiving(h', m, s')
  {
    if QueueOf(s'.phase) != [] { assert QueueOf(s'.phase)[0] in QueueOf(s.phase); }
  }

  /** A step that leaves the account, the journal and the history alone and sends nothing. */
  lemma KeptFrame(h: Hub, h': Hub, m: MemberId, s: Spoke, s': Spoke, home: Home)
    requires KeptOk(h, m, s, home) && TransfersGrow(h, h') && NoneSent(h, h', m)
    requires s'.triggers == s.triggers && s'.journal == s.journal && s'.fired == s.fired
    requires forall e :: e in QueueOf(s'.phase) ==> e in QueueOf(s.phase)
    ensures KeptOk(h', m, s', home)
  {
    AccountFrame(s, s', home);
    HandedFrame(h, h', m, home);
    UnpushedFrame(h, h', m, home);
    InHandFrame(h, h', m, s, s');
  }

  // ----- outbound -----

  lemma SentTransfer(l: Local, p: Principal, src: Uuid, tag: string, id: Tid, now: Time)
    requires CanSend(l, src, tag, id)
    ensures var h' := Push(l.hub, p, l.spoke.triggers[tag], src, Payload(l.home.mirror[src].title), 1, id, now).hub;
      && (forall t :: t in h'.transfers && t != id ==> t in l.hub.transfers && h'.transfers[t] == l.hub.transfers[t])
      && (id in h'.transfers ==>
            var tr := h'.transfers[id];
            tr.from == p.member != tr.to && tr.src == src && tr.payload.title == l.home.mirror[src].title
            && PushKey(p.tenant, p.member, src, 1) !in l.hub.pushed && tr.terminal.None? && tr.dst.None? && !tr.resolved)
  {
  }

  lemma DelegatedIsPushed(h: Hub, p: Principal, src: Uuid)
    requires HubInv(h) && FirstRevs(h) && Authentic(h, p) && Delegated(h, p.member, src)
    ensures PushKey(p.tenant, p.member, src, 1) in h.pushed
  {
    var t :| t in h.transfers && h.transfers[t].from == p.member && h.transfers[t].src == src;
    assert TransferOk(h, t);
    assert KeyOf(h.transfers[t]) == PushKey(p.tenant, p.member, src, 1);
  }

  lemma OfferedIsAsked(s: Spoke, home: Home, src: Uuid, tag: string)
    requires OffersOk(s, home, home.mirror) && tag in s.triggers && Candidate(home.mirror, src, tag)
    ensures src in home.asked && home.mirror[src] == home.asked[src]
  {
    assert HasTrigger(s, home.mirror[src]);
  }

  /** A new transfer's source is a delegated todo nobody has touched. */
  lemma SendHanded(h: Hub, h': Hub, m: MemberId, home: Home, src: Uuid, id: Tid)
    requires HandedAll(h, m, home) && UnpushedOk(h, m, home)
    requires src in home.mirror && src in home.asked && home.mirror[src] == home.asked[src]
    requires home.asked[src].status == Open && !home.asked[src].trashed
    requires forall t :: t in h'.transfers && t != id ==> t in h.transfers && h'.transfers[t] == h.transfers[t]
    requires id in h'.transfers ==>
      !Delegated(h, m, src) && h'.transfers[id].src == src && h'.transfers[id].payload.title == home.mirror[src].title
    ensures HandedAll(h', m, home)
  {
    forall t | t in h'.transfers && h'.transfers[t].from == m ensures HandoverOk(h', home, t) {
      if t != id { assert HandoverOk(h, home, t); }
    }
  }

  lemma SendKept(l: Local, p: Principal, src: Uuid, tag: string, id: Tid, now: Time, heard: bool)
    requires CanSend(l, src, tag, id) && KeptOk(l.hub, p.member, l.spoke, l.home)
    requires Delegated(l.hub, p.member, src) ==> PushKey(p.tenant, p.member, src, 1) in l.hub.pushed
    ensures var l' := AfterSend(l, p, src, tag, id, now, heard); KeptOk(l'.hub, p.member, l'.spoke, l'.home)
  {
    var l' := AfterSend(l, p, src, tag, id, now, heard);
    PushGrows(l.hub, p, l.spoke.triggers[tag], src, Payload(l.home.mirror[src].title), 1, id, now);
    SentTransfer(l, p, src, tag, id, now);
    OfferedIsAsked(l.spoke, l.home, src, tag);
    AccountFrame(l.spoke, l'.spoke, l.home);
    UnpushedFrame(l.hub, l'.hub, p.member, l.home);
    SendHanded(l.hub, l'.hub, p.member, l.home, src, id);
  }

  // ----- inbound -----

  lemma LeasedApplied(h: Hub, p: Principal, order: seq<DKey>, seconds: Time, now: Time)
    requires HubInv(h) && AllAccounted(h) && IsListing(h, p.member, order)
    requires Lease(h, p, order, POLL_LIMIT, seconds, now).result.Ok?
    ensures var r := Lease(h, p, order, POLL_LIMIT, seconds, now);
      EchoesApplied(r.hub, r.result.value)
  {
    var r := Lease(h, p, order, POLL_LIMIT, seconds, now);
    var ks := Handed(h, order, POLL_LIMIT, now);
    forall i | 0 <= i < |r.result.value| && r.result.value[i].EchoEntry?
      ensures r.result.value[i].key.tid in h.transfers && h.transfers[r.result.value[i].key.tid].dst.Some?
    {
      assert ks[i] in Eligible(h, order, now);
      assert DeliveryOk(h, ks[i]) && Accounted(h, ks[i].tid);
      assert r.result.value[i] == EntryFor(h, ks[i]);
      assert !NoEcho(h, ks[i].tid);
    }
  }

  lemma PollKept(l: Local, p: Principal, order: seq<DKey>, seconds: Time, now: Time, heard: bool)
    requires l.spoke.phase.Idle? && IsListing(l.hub, p.member, order) && Authentic(l.hub, p)
    requires HubInv(l.hub) && AllAccounted(l.hub) && KeptOk(l.hub, p.member, l.spoke, l.home)
    ensures var l' := AfterPoll(l, p, order, seconds, now, heard); KeptOk(l'.hub, p.member, l'.spoke, l'.home)
  {
    var l' := AfterPoll(l, p, order, seconds, now, heard);
    LeaseGrows(l.hub, p, order, POLL_LIMIT, seconds, now);
    KeptFrame(l.hub, l'.hub, p.member, l.spoke, l.spoke, l.home);
    AccountFrame(l.spoke, l'.spoke, l.home);
    if Lease(l.hub, p, order, POLL_LIMIT, seconds, now).result.Ok? { LeasedApplied(l.hub, p, order, seconds, now); }
  }

  /** A step on the entries in hand that keeps the account some other way. */
  lemma InHandStep(h: Hub, m: MemberId, s: Spoke, s': Spoke, home: Home)
    requires KeptOk(h, m, s, home) && AccountOk(s', home) && QueueOf(s'.phase) == QueueOf(s.phase)
    ensures KeptOk(h, m, s', home)
  {
  }

  lemma IntendKept(l: Local, m: MemberId, since: Time, firedAt: Time)
    requires CanIntend(l.spoke) && PhaseOk(l.hub, m, l.spoke) && FiredOk(l.spoke) && KeptOk(l.hub, m, l.spoke, l.home)
    ensures KeptOk(l.hub, m, AfterIntend(l, since, firedAt).spoke, l.home)
  {
    var s' := AfterIntend(l, since, firedAt).spoke;
    assert EntryOk(l.hub, m, l.spoke.phase.queue[0]);
    IntendAccount(l.hub, m, l.spoke, s', l.home, l.spoke.phase.queue[0], firedAt);
    InHandStep(l.hub, m, l.spoke, s', l.home);
  }

  lemma FindKept(l: Local, m: MemberId, found: Uuid)
    requires CanFind(l, found) && PhaseOk(l.hub, m, l.spoke) && JournalOk(l.hub, m, l.spoke.journal)
    requires KeptOk(l.hub, m, l.spoke, l.home)
    ensures KeptOk(l.hub, m, AfterFind(l, found).spoke, l.home)
  {
    var s, s', e := l.spoke, AfterFind(l, found).spoke, l.spoke.phase.queue[0];
    assert EntryOk(l.hub, m, e);
    FindAccount(s, s', l.home, e.key, found, s.phase.since - CLOCK_SKEW, JournaledDsts(s.journal));
    InHandStep(l.hub, m, s, s', l.home);
  }

  /** A todo outside the delegated ones changes or appears. */
  lemma OutsideHanded(h: Hub, m: MemberId, home: Home, u: Uuid, todo: Todo)
    requires HandedAll(h, m, home) && UnpushedOk(h, m, home) && u !in home.asked
    ensures var home' := home.(todos := home.todos[u := todo]); HandedAll(h, m, home') && UnpushedOk(h, m, home')
  {
    var home' := home.(todos := home.todos[u := todo]);
    forall t | t in h.transfers && h.transfers[t].from == m ensures HandoverOk(h, home', t) {
      assert HandoverOk(h, home, t);
    }
  }

  lemma FireKept(l: Local, m: MemberId, uuid: Uuid, created: Time)
    requires CanFire(l, uuid) && PhaseOk(l.hub, m, l.spoke) && JournalOk(l.hub, m, l.spoke.journal)
    requires KeptOk(l.hub, m, l.spoke, l.home)
    ensures var l' := AfterFire(l, uuid, created); KeptOk(l.hub, m, l'.spoke, l'.home)
  {
    var l' := AfterFire(l, uuid, created);
    var e := l.spoke.phase.queue[0];
    assert EntryOk(l.hub, m, e);
    FireAccount(l.spoke, l'.spoke, l.home, e.key, uuid, NewTodo(e, created));
    OutsideHanded(l.hub, m, l.home, uuid, NewTodo(e, created));
    FireStep(l.hub, m, l.spoke, l'.spoke, l.home, l'.home);
  }

  lemma FireStep(h: Hub, m: MemberId, s: Spoke, s': Spoke, home: Home, home': Home)
    requires KeptOk(h, m, s, home) && AccountOk(s', home') && HandedAll(h, m, home') && UnpushedOk(h, m, home')
    requires forall e :: e in QueueOf(s'.phase) ==> e in QueueOf(s.phase)
    ensures KeptOk(h, m, s', home')
  {
    InHandFrame(h, h, m, s, s');
  }

  // ----- rewriting a copy -----

  /** The transfer of one sender's todo is one transfer. */
  lemma OnlyTransferOf(h: Hub, t: Tid)
    requires HubInv(h) && FirstRevs(h) && t in h.transfers
    ensures forall u :: u in h.transfers && h.transfers[u].from == h.transfers[t].from && h.transfers[u].src == h.transfers[t].src
              ==> u == t
  {
    forall u | u in h.transfers && h.transfers[u].from == h.transfers[t].from && h.transfers[u].src == h.transfers[t].src
      ensures u == t
    {
      assert TransferOk(h, t) && TransferOk(h, u);
      assert KeyOf(h.transfers[u]) == KeyOf(h.transfers[t]);
    }
  }

  /** The copy of an applied transfer is completed, and its tags perhaps changed. */
  lemma CompletingHanded(h: Hub, m: MemberId, home: Home, t: Tid, tags: set<string>)
    requires HubInv(h) && FirstRevs(h) && HandedAll(h, m, home) && UnpushedOk(h, m, home)
    requires t in h.transfers && h.transfers[t].from == m && h.transfers[t].dst.Some?
    ensures var u := h.transfers[t].src;
      u in home.todos
      && var home' := home.(todos := home.todos[u := home.todos[u].(tags := tags, status := Ended(Completed))]);
         HandedAll(h, m, home') && UnpushedOk(h, m, home')
  {
    assert HandoverOk(h, home, t);
    OnlyTransferOf(h, t);
    var u := h.transfers[t].src;
    var home' := home.(todos := home.todos[u := home.todos[u].(tags := tags, status := Ended(Completed))]);
    forall v | v in h.transfers && h.transfers[v].from == m ensures HandoverOk(h, home', v) {
      assert HandoverOk(h, home, v);
    }
    assert Delegated(h, m, u);
  }

  /** An echo completes the sender's copy of an applied transfer, or (after a sender's report) the recipient's own copy. */
  lemma WriteHanded(h: Hub, m: MemberId, s: Spoke, home: Home, e: Entry)
    requires HubInv(h) && FirstRevs(h) && HandedAll(h, m, home) && UnpushedOk(h, m, home) && AccountOk(s, home)
    requires MappedOk(h, m, s.journal) && e.EchoEntry? && EntryOk(h, m, e) && h.transfers[e.key.tid].dst.Some?
    requires e.uuid in home.todos
    ensures var home' := home.(todos := home.todos[e.uuid := home.todos[e.uuid].(status := Ended(Completed))]);
      HandedAll(h, m, home') && UnpushedOk(h, m, home')
  {
    var t := e.key.tid;
    var todo := home.todos[e.uuid].(status := Ended(Completed));
    if h.transfers[t].from == m {
      CompletingHanded(h, m, home, t, home.todos[e.uuid].tags);
      assert todo == home.todos[e.uuid].(tags := home.todos[e.uuid].tags, status := Ended(Completed));
    } else {
      assert JournaledAs(s.journal, DKey(t, Create, m), Some(e.uuid));
      UnaskedCopy(s, home, DKey(t, Create, m));
      OutsideHanded(h, m, home, e.uuid, todo);
    }
  }

  lemma UnaskedCopy(s: Spoke, home: Home, k: DKey)
    requires AccountOk(s, home) && k in s.journal && s.journal[k].dst.Some?
    ensures s.journal[k].dst.value !in home.asked
  {
    CopyIsSynced(s, home.todos[s.journal[k].dst.value], k);
  }

  lemma WriteKept(l: Local, m: MemberId, landed: bool, verified: bool)
    requires CanWrite(l, landed, verified) && HubInv(l.hub) && FirstRevs(l.hub)
    requires MemberOk(l.hub, m, l.spoke) && KeptOk(l.hub, m, l.spoke, l.home)
    ensures var l' := AfterWriteTerminal(l, landed, verified); KeptOk(l.hub, m, l'.spoke, l'.home)
  {
    var l' := AfterWriteTerminal(l, landed, verified);
    var e := l.spoke.phase.queue[0];
    assert EntryOk(l.hub, m, e) && e in QueueOf(l.spoke.phase);
    if landed {
      WriteAccount(l.spoke, l.home, e.uuid);
      WriteHanded(l.hub, m, l.spoke, l.home, e);
    }
    AccountFrame(l.spoke, l'.spoke, l'.home);
    FireStep(l.hub, m, l.spoke, l'.spoke, l.home, l'.home);
  }

  lemma RetagRewrites(h: Hub, m: MemberId, s: Spoke, home: Home, t: Tid, kept: set<string>)
    requires HubInv(h) && FirstRevs(h) && KeptOk(h, m, s, home)
    requires t in h.transfers && h.transfers[t].from == m && h.transfers[t].dst.Some?
    requires h.transfers[t].src in home.mirror && kept <= RetagTags(s, home.mirror[h.transfers[t].src].tags)
    ensures var u := h.transfers[t].src;
      u in home.todos
      && var home' := home.(todos := home.todos[u := home.todos[u].(tags := kept, status := Ended(Completed))]);
         AccountOk(s, home') && HandedAll(h, m, home') && UnpushedOk(h, m, home')
  {
    assert HandoverOk(h, home, t);
    RetagAccount(s, home, h.transfers[t].src, kept);
    CompletingHanded(h, m, home, t, kept);
  }

  lemma RetagKept(l: Local, m: MemberId, landed: bool, verified: bool, kept: set<string>)
    requires CanRetag(l, landed, verified, kept) && HubInv(l.hub) && FirstRevs(l.hub)
    requires PhaseOk(l.hub, m, l.spoke) && KeptOk(l.hub, m, l.spoke, l.home)
    ensures var l' := AfterRetag(l, landed, verified, kept); KeptOk(l.hub, m, l'.spoke, l'.home)
  {
    var l' := AfterRetag(l, landed, verified, kept);
    var w := l.spoke.phase.watch[0];
    assert WatchedOk(l.hub, m, w);
    if landed { RetagRewrites(l.hub, m, l.spoke, l.home, w.tid, kept); }
    RetagStep(l.hub, m, l.spoke, l'.spoke, l.home, l'.home);
  }

  lemma RetagStep(h: Hub, m: MemberId, s: Spoke, s': Spoke, home: Home, home': Home)
    requires KeptOk(h, m, s, home) && AccountOk(s, home') && HandedAll(h, m, home') && UnpushedOk(h, m, home')
    requires s'.triggers == s.triggers && s'.journal == s.journal && s'.fired == s.fired && QueueOf(s'.phase) == []
    ensures KeptOk(h, m, s', home')
  {
    AccountFrame(s, s', home');
    FireStep(h, m, s, s', home, home');
  }

  // ----- every action -----

  /** What an acting member needs to know of the hub. */
  ghost predicate ReadyToKeep(l: Local, p: Principal) {
    && HubInv(l.hub) && AllAccounted(l.hub) && FirstRevs(l.hub) && Authentic(l.hub, p)
    && MemberOk(l.hub, p.member, l.spoke) && KeptOk(l.hub, p.member, l.spoke, l.home)
  }

  /** The actions that leave the account alone and send nothing. */
  predicate Moves(a: Action) {
    a.MarkSent? || a.Fail? || a.Resume? || a.AckHead? || a.NackHead? || a.Watch? || a.Pass? || a.Report?
    || a.MarkReported? || a.MarkRetagged? || a.Finish? || a.Crash?
  }

  lemma MovesAlone(l: Local, p: Principal, a: Action)
    requires Enabled(l, p, a) && Moves(a)
    ensures var l' := Act(l, p, a);
      && l'.home == l.home
      && l'.spoke.triggers == l.spoke.triggers && l'.spoke.journal == l.spoke.journal && l'.spoke.fired == l.spoke.fired
      && (forall e :: e in QueueOf(l'.spoke.phase) ==> e in QueueOf(l.spoke.phase))
  {
  }

  lemma MovesSendNothing(l: Local, p: Principal, a: Action)
    requires Enabled(l, p, a) && Moves(a)
    ensures NoneSent(l.hub, Act(l, p, a).hub, p.member)
  {
    if a.Report? {
      ObserveIsDecide(l.hub, p, l.spoke.phase.watch[0].tid, News(l.spoke, l.home.mirror, l.spoke.phase.watch[0]).value, a.now);
    }
  }

  lemma MoveKept(l: Local, p: Principal, a: Action)
    requires KeptOk(l.hub, p.member, l.spoke, l.home) && Enabled(l, p, a) && Moves(a)
    requires TransfersGrow(l.hub, Act(l, p, a).hub)
    ensures KeptOk(Act(l, p, a).hub, p.member, Act(l, p, a).spoke, Act(l, p, a).home)
  {
    MovesAlone(l, p, a);
    MovesSendNothing(l, p, a);
    KeptFrame(l.hub, Act(l, p, a).hub, p.member, l.spoke, Act(l, p, a).spoke, l.home);
  }

  lemma WorkKept(l: Local, p: Principal, a: Action)
    requires ReadyToKeep(l, p) && Enabled(l, p, a) && !Moves(a) && !a.Send? && !a.Poll?
    ensures KeptOk(Act(l, p, a).hub, p.member, Act(l, p, a).spoke, Act(l, p, a).home)
  {
    match a
    case Intend(since, firedAt) => IntendKept(l, p.member, since, firedAt);
    case Fire(uuid, created) => FireKept(l, p.member, uuid, created);
    case Find(found) => FindKept(l, p.member, found);
    case WriteTerminal(landed, verified) => WriteKept(l, p.member, landed, verified);
    case Retag(landed, verified, kept) => RetagKept(l, p.member, landed, verified, kept);
  }

  lemma OutKept(l: Local, p: Principal, a: Action)
    requires ReadyToKeep(l, p) && Enabled(l, p, a) && (a.Send? || a.Poll?)
    ensures KeptOk(Act(l, p, a).hub, p.member, Act(l, p, a).spoke, Act(l, p, a).home)
  {
    match a
    case Send(src, tag, id, now, heard) =>
      if Delegated(l.hub, p.member, src) { DelegatedIsPushed(l.hub, p, src); }
      SendKept(l, p, src, tag, id, now, heard);
    case Poll(order, seconds, now, heard) => PollKept(l, p, order, seconds, now, heard);
  }

  lemma OwnKept(l: Local, p: Principal, a: Action)
    requires ReadyToKeep(l, p) && Enabled(l, p, a) && TransfersGrow(l.hub, Act(l, p, a).hub)
    ensures KeptOk(Act(l, p, a).hub, p.member, Act(l, p, a).spoke, Act(l, p, a).home)
  {
    if Moves(a) {
      MoveKept(l, p, a);
    } else if a.Send? || a.Poll? {
      OutKept(l, p, a);
    } else {
      WorkKept(l, p, a);
    }
  }

  /** Somebody else's call sends nothing of this member's. */
  lemma OthersSendNothing(h: Hub, c: Call, m: MemberId)
    requires m != c.p.member
    ensures NoneSent(h, Do(h, c), m)
  {
    if c.CallObserve? { ObserveIsDecide(h, c.p, c.t, c.s, c.now); }
  }

  lemma OthersKept(h: Hub, c: Call, m: MemberId, s: Spoke, home: Home)
    requires TransfersGrow(h, Do(h, c)) && m != c.p.member && KeptOk(h, m, s, home)
    ensures KeptOk(Do(h, c), m, s, home)
  {
    OthersSendNothing(h, c, m);
    KeptFrame(h, Do(h, c), m, s, s, home);
  }

  lemma FirstRevsKept(l: Local, p: Principal, a: Action)
    requires FirstRevs(l.hub) && Enabled(l, p, a) && Authentic(l.hub, p)
    ensures FirstRevs(Act(l, p, a).hub)
  {
    TickIsCall(l, p, a);
    if a.Report? {
      ObserveIsDecide(l.hub, p, l.spoke.phase.watch[0].tid, News(l.spoke, l.home.mirror, l.spoke.phase.watch[0]).value, a.now);
    }
  }

  // ----- events -----

  lemma PutHanded(h: Hub, m: MemberId, home: Home, home': Home, u: Uuid)
    requires HandedAll(h, m, home) && UnpushedOk(h, m, home) && u !in home.asked && u in home'.todos
    requires home'.todos == home.todos[u := home'.todos[u]]
    requires home'.asked == home.asked || home'.asked == home.asked[u := home'.todos[u]]
    ensures HandedAll(h, m, home') && UnpushedOk(h, m, home')
  {
    forall t | t in h.transfers && h.transfers[t].from == m ensures HandoverOk(h, home', t) {
      assert HandoverOk(h, home, t);
    }
  }

  lemma LifeKept(h: Hub, m: MemberId, s: Spoke, home: Home, e: Event)
    requires KeptOk(h, m, s, home) && OrdinaryEvent(home, e)
    ensures KeptOk(h, m, s, AfterEvent(s, home, e))
  {
    var home' := AfterEvent(s, home, e);
    match e
    case Sync(view) =>
      SyncAccount(s, home, view);
      forall t | t in h.transfers && h.transfers[t].from == m ensures HandoverOk(h, home', t) {
        assert HandoverOk(h, home, t);
      }
    case Add(u, todo) =>
      assert AskedOk(home);
      PutAccount(s, home, u, todo);
      PutHanded(h, m, home, home', u);
    case Edit(u, todo) =>
      PutAccount(s, home, u, todo);
      PutHanded(h, m, home, home', u);
    case End(u, todo) =>
      EndAccount(s, home, u, todo);
      OutsideHanded(h, m, home, u, todo);
    case Anything(_) =>
  }

  // ----- the world -----

  lemma MemberKept(w: World, m: MemberId)
    requires KeptWorld(w) && m in w.spokes
    ensures m in w.homes && MemberOk(w.hub, m, w.spokes[m]) && KeptOk(w.hub, m, w.spokes[m], w.homes[m])
  {
  }

  lemma TickKeptFor(w: World, p: Principal, a: Action, m: MemberId)
    requires KeptWorld(w) && Possible(w, Tick(p, a)) && m in w.spokes
    ensures var l' := Act(LocalOf(w, p.member), p, a);
      m in w.homes
      && if m == p.member then KeptOk(l'.hub, m, l'.spoke, l'.home) else KeptOk(l'.hub, m, w.spokes[m], w.homes[m])
  {
    var l := LocalOf(w, p.member);
    MemberKept(w, m);
    CallKeepsHub(w, p, a);
    if m == p.member {
      OwnKept(l, p, a);
    } else {
      TickIsCall(l, p, a);
      match CallOf(l, p, a)
      case None =>
      case Some(c) => OthersKept(w.hub, c, m, w.spokes[m], w.homes[m]);
    }
  }

  lemma PutAllKept(h: Hub, spokes: map<MemberId, Spoke>, homes: map<MemberId, Home>, m: MemberId, s: Spoke, home: Home)
    requires KeptOk(h, m, s, home)
    requires forall n :: n in spokes && n != m ==> n in homes && KeptOk(h, n, spokes[n], homes[n])
    ensures AllKept(h, spokes[m := s], homes[m := home])
  {
  }

  lemma TickAllKept(w: World, p: Principal, a: Action)
    requires KeptWorld(w) && Possible(w, Tick(p, a))
    ensures var w' := Next(w, Tick(p, a)); AllKept(w'.hub, w'.spokes, w'.homes)
  {
    var l' := Act(LocalOf(w, p.member), p, a);
    TickKeptFor(w, p, a, p.member);
    forall m | m in w.spokes && m != p.member ensures m in w.homes && KeptOk(l'.hub, m, w.spokes[m], w.homes[m]) {
      TickKeptFor(w, p, a, m);
    }
    PutAllKept(l'.hub, w.spokes, w.homes, p.member, l'.spoke, l'.home);
  }

  // ----- where transfers go -----

  lemma AddressedFrame(h: Hub, h': Hub, m: MemberId, s: Spoke, s': Spoke, home: Home, home': Home)
    requires AddressedAll(h, m, s, home) && TransfersGrow(h, h') && NoneSent(h, h', m)
    requires s'.triggers == s.triggers && forall u :: u in home.asked ==> u in home'.asked && home'.asked[u] == home.asked[u]
    ensures AddressedAll(h', m, s', home')
  {
    forall t | t in h'.transfers && h'.transfers[t].from == m ensures Addressed(h', s', home', t) {
      assert Addressed(h, s, home, t);
    }
  }

  /** A new transfer's recipient bears the handle of the tag it was sent for, and the tag is the todo's. */
  lemma SentWhereTagged(l: Local, p: Principal, src: Uuid, tag: string, id: Tid, now: Time)
    requires CanSend(l, src, tag, id) && HubInv(l.hub) && Authentic(l.hub, p)
    requires OffersOk(l.spoke, l.home, l.home.mirror)
    ensures var h' := Push(l.hub, p, l.spoke.triggers[tag], src, Payload(l.home.mirror[src].title), 1, id, now).hub;
      id in h'.transfers ==> Addressed(h', l.spoke, l.home, id)
  {
    var c := CallPush(p, l.spoke.triggers[tag], src, Payload(l.home.mirror[src].title), 1, id, now);
    var h' := Do(l.hub, c);
    OfferedIsAsked(l.spoke, l.home, src, tag);
    if id in h'.transfers {
      HubLaws.TransferIsAsPushed(l.hub, c, h', id);
      PushGrows(l.hub, p, c.handle, src, c.payload, 1, id, now);
      assert TagNames(h', l.spoke, l.home.asked[src], h'.transfers[id].to);
    }
  }

  lemma SendAddressed(l: Local, p: Principal, src: Uuid, tag: string, id: Tid, now: Time, heard: bool)
    requires CanSend(l, src, tag, id) && HubInv(l.hub) && Authentic(l.hub, p)
    requires OffersOk(l.spoke, l.home, l.home.mirror) && AddressedAll(l.hub, p.member, l.spoke, l.home)
    ensures var l' := AfterSend(l, p, src, tag, id, now, heard); AddressedAll(l'.hub, p.member, l'.spoke, l'.home)
  {
    var l' := AfterSend(l, p, src, tag, id, now, heard);
    PushGrows(l.hub, p, l.spoke.triggers[tag], src, Payload(l.home.mirror[src].title), 1, id, now);
    SentTransfer(l, p, src, tag, id, now);
    SentWhereTagged(l, p, src, tag, id, now);
    forall t | t in l'.hub.transfers && l'.hub.transfers[t].from == p.member ensures Addressed(l'.hub, l'.spoke, l'.home, t) {
      assert t != id ==> Addressed(l.hub, l.spoke, l.home, t);
      assert t == id ==> Addressed(l'.hub, l.spoke, l.home, t);
    }
  }

  lemma ActAsksNothing(l: Local, p: Principal, a: Action)
    requires Enabled(l, p, a)
    ensures Act(l, p, a).home.asked == l.home.asked && Act(l, p, a).spoke.triggers == l.spoke.triggers
  {
  }

  lemma OnlySendsSend(l: Local, p: Principal, a: Action)
    requires Enabled(l, p, a) && Authentic(l.hub, p) && !a.Send?
    ensures NoneSent(l.hub, Act(l, p, a).hub, p.member)
  {
    TickIsCall(l, p, a);
    match CallOf(l, p, a)
    case None =>
    case Some(c) => if c.CallObserve? { ObserveIsDecide(l.hub, c.p, c.t, c.s, c.now); }
  }

  lemma OwnAddressed(l: Local, p: Principal, a: Action)
    requires ReadyToKeep(l, p) && Enabled(l, p, a) && TransfersGrow(l.hub, Act(l, p, a).hub)
    requires AddressedAll(l.hub, p.member, l.spoke, l.home)
    ensures AddressedAll(Act(l, p, a).hub, p.member, Act(l, p, a).spoke, Act(l, p, a).home)
  {
    if a.Send? {
      SendAddressed(l, p, a.src, a.tag, a.id, a.now, a.heard);
    } else {
      ActAsksNothing(l, p, a);
      OnlySendsSend(l, p, a);
      AddressedFrame(l.hub, Act(l, p, a).hub, p.member, l.spoke, Act(l, p, a).spoke, l.home, Act(l, p, a).home);
    }
  }

  lemma OthersAddressed(l: Local, p: Principal, a: Action, m: MemberId, s: Spoke, home: Home)
    requires Enabled(l, p, a) && Authentic(l.hub, p) && m != p.member && AddressedAll(l.hub, m, s, home)
    requires TransfersGrow(l.hub, Act(l, p, a).hub)
    ensures AddressedAll(Act(l, p, a).hub, m, s, home)
  {
    TickIsCall(l, p, a);
    match CallOf(l, p, a)
    case None =>
    case Some(c) => OthersSendNothing(l.hub, c, m);
    AddressedFrame(l.hub, Act(l, p, a).hub, m, s, s, home, home);
  }

  lemma PutAddressed(h: Hub, spokes: map<MemberId, Spoke>, homes: map<MemberId, Home>, m: MemberId, s: Spoke, home: Home)
    requires AddressedAll(h, m, s, home)
    requires forall n :: n in spokes && n in homes && n != m ==> AddressedAll(h, n, spokes[n], homes[n])
    ensures AllAddressed(h, spokes[m := s], homes[m := home])
  {
  }

  lemma TickAllAddressed(w: World, p: Principal, a: Action)
    requires KeptWorld(w) && Possible(w, Tick(p, a))
    ensures var w' := Next(w, Tick(p, a)); AllAddressed(w'.hub, w'.spokes, w'.homes)
  {
    var l := LocalOf(w, p.member);
    var l' := Act(l, p, a);
    MemberKept(w, p.member);
    CallKeepsHub(w, p, a);
    assert AddressedAll(w.hub, p.member, w.spokes[p.member], w.homes[p.member]);
    OwnAddressed(l, p, a);
    forall m | m in w.spokes && m in w.homes && m != p.member ensures AddressedAll(l'.hub, m, w.spokes[m], w.homes[m]) {
      assert AddressedAll(w.hub, m, w.spokes[m], w.homes[m]);
      OthersAddressed(l, p, a, m, w.spokes[m], w.homes[m]);
    }
    PutAddressed(l'.hub, w.spokes, w.homes, p.member, l'.spoke, l'.home);
  }

  lemma LifeAddressed(h: Hub, m: MemberId, s: Spoke, home: Home, e: Event)
    requires AddressedAll(h, m, s, home) && AskedOk(home) && OrdinaryEvent(home, e)
    ensures AddressedAll(h, m, s, AfterEvent(s, home, e))
  {
    AddressedFrame(h, h, m, s, s, home, AfterEvent(s, home, e));
  }

  /** Every action, with whatever fault, keeps every account. */
  lemma TickKeepsAll(w: World, p: Principal, a: Action)
    requires KeptWorld(w) && Possible(w, Tick(p, a))
    ensures KeptWorld(Next(w, Tick(p, a)))
  {
    TickKeeps(w, p, a);
    FirstRevsKept(LocalOf(w, p.member), p, a);
    TickAllKept(w, p, a);
    TickAllAddressed(w, p, a);
  }

  lemma PutOneKept(h: Hub, spokes: map<MemberId, Spoke>, homes: map<MemberId, Home>, m: MemberId, home: Home)
    requires AllKept(h, spokes, homes) && (m in spokes ==> KeptOk(h, m, spokes[m], home))
    ensures AllKept(h, spokes, homes[m := home])
  {
  }

  lemma OneAddressed(h: Hub, spokes: map<MemberId, Spoke>, homes: map<MemberId, Home>, m: MemberId, home: Home)
    requires AllAddressed(h, spokes, homes) && m in homes && m in spokes && AddressedAll(h, m, spokes[m], home)
    ensures AllAddressed(h, spokes, homes[m := home])
  {
    forall n | n in spokes && n in homes ensures AddressedAll(h, n, spokes[n], homes[m := home][n]) {
      if n != m { assert AddressedAll(h, n, spokes[n], homes[n]); }
    }
  }

  lemma LifeKeepsAll(w: World, m: MemberId, e: Event)
    requires KeptWorld(w) && Possible(w, Life(m, e)) && OrdinaryEvent(w.homes[m], e)
    ensures KeptWorld(Next(w, Life(m, e)))
  {
    LifeKeepsWorld(w, m, e);
    MemberKept(w, m);
    LifeKept(w.hub, m, w.spokes[m], w.homes[m], e);
    var home' := AfterEvent(w.spokes[m], w.homes[m], e);
    PutOneKept(w.hub, w.spokes, w.homes, m, home');
    assert AddressedAll(w.hub, m, w.spokes[m], w.homes[m]);
    LifeAddressed(w.hub, m, w.spokes[m], w.homes[m], e);
    OneAddressed(w.hub, w.spokes, w.homes, m, home');
  }
}
