/** Careful ticks: the recipient alone reports, and what is resolved is finished. */
module HomeCareful {
  import opened Basics
  import opened HubSpec
  import opened HubInvariant
  import opened HubHistory
  import opened HubEchoes
  import opened HubLeases
  import opened SpokeSpec
  import opened SpokeInvariant
  import opened SpokeSteps
  import opened Matching
  import opened System
  import opened HomeInvariant
  import opened HomeAccount
  import opened HomeKept

  // ----- what follows at once -----

  /** Every echo is addressed to the sender, of a transfer its recipient holds. */
  lemma EchoesAddressSenders(h: Hub, k: DKey)
    requires ReportsOk(h) && k in h.deliveries && DeliveryOk(h, k) && k.kind != Create
    requires TransferOk(h, k.tid) && Accounted(h, k.tid)
    ensures k.to == h.transfers[k.tid].from && k.to != h.transfers[k.tid].to
    ensures h.transfers[k.tid].terminal.Some? && h.transfers[k.tid].dst.Some?
  {
    assert !NoEcho(h, k.tid);
    assert k == TheEcho(h, k.tid);
  }

  /** A sender's entry never looks like news to the sender's spoke. */
  lemma SenderIsSilent(h: Hub, s: Spoke, home: Home, w: Watched)
    requires w.role == Sender && QuietOk(h, s, home, w) && w.tid in h.transfers && h.transfers[w.tid].src == w.uuid
    requires SenderOk(h, s, home, w.tid) && HandoverOk(h, home, w.tid)
    ensures News(s, home.mirror, w).None?
  {
  }

  lemma DstIsCopy(h: Hub, m: MemberId, s: Spoke, todos: Todos, t: Tid)
    requires JournalOk(h, m, s.journal) && MappedOk(h, m, s.journal) && Copied(s.journal, todos)
    requires TriggersOk(s) && RowsOk(s.journal)
    requires t in h.transfers && h.transfers[t].to == m && h.transfers[t].dst.Some?
    ensures var tr := h.transfers[t];
      && tr.from in h.roster.members && tr.dst.value in todos && tr.dst.value in JournaledDsts(s.journal)
      && todos[tr.dst.value].title == tr.payload.title
      && todos[tr.dst.value].tags == {ProvenanceTag(h.roster.members[tr.from].handle)}
      && Synced(todos[tr.dst.value])
  {
    var k := DKey(t, Create, m);
    assert JournaledAs(s.journal, k, h.transfers[t].dst);
    CopyIsSynced(s, todos[h.transfers[t].dst.value], k);
  }

  // ----- frames -----

  /** The two accounts agree on every todo outside us. */
  ghost predicate SameBut(home: Home, home': Home, us: set<Uuid>) {
    && (forall u :: u in home.todos && u !in us ==> u in home'.todos && home'.todos[u] == home.todos[u])
    && (forall u :: u in home.asked && u !in us ==> u in home'.asked && home'.asked[u] == home.asked[u])
  }

  lemma AheadSame(h: Hub, s: Spoke, home: Home, home': Home, us: set<Uuid>)
    requires AheadQuiet(h, s, home) && SameBut(home, home', us)
    requires forall i :: 0 <= i < |Ahead(s.phase)| && Ahead(s.phase)[i].role == Sender ==> Ahead(s.phase)[i].uuid !in us
    ensures AheadQuiet(h, s, home')
  {
    forall i | 0 <= i < |Ahead(s.phase)| ensures QuietOk(h, s, home', Ahead(s.phase)[i]) {
      assert QuietOk(h, s, home, Ahead(s.phase)[i]);
    }
  }

  /** The member's received transfers that were open still are. */
  ghost predicate StillOpen(h: Hub, h': Hub, m: MemberId) {
    forall t :: t in h.transfers && h.transfers[t].to == m && h.transfers[t].terminal.None? ==>
      t in h'.transfers && h'.transfers[t].terminal.None?
  }

  lemma AheadFrame(h: Hub, h': Hub, m: MemberId, s: Spoke, home: Home)
    requires AheadQuiet(h, s, home) && PhaseOk(h, m, s) && StillOpen(h, h', m)
    ensures AheadQuiet(h', s, home)
  {
    AheadOk(h, m, s);
    forall i | 0 <= i < |Ahead(s.phase)| ensures QuietOk(h', s, home, Ahead(s.phase)[i]) {
      assert QuietOk(h, s, home, Ahead(s.phase)[i]) && WatchedOk(h, m, Ahead(s.phase)[i]);
    }
  }

  lemma AheadTail(h: Hub, s: Spoke, s': Spoke, home: Home)
    requires AheadQuiet(h, s, home) && WatchOf(s.phase) != [] && s.retagged <= s'.retagged
    requires Ahead(s'.phase) == WatchOf(s.phase)[1..]
    ensures AheadQuiet(h, s', home)
  {
    forall i | 0 <= i < |Ahead(s'.phase)| ensures QuietOk(h, s', home, Ahead(s'.phase)[i]) {
      var n := if s.phase.Watching? then i + 1 else i;
      assert Ahead(s'.phase)[i] == Ahead(s.phase)[n];
      assert QuietOk(h, s, home, Ahead(s.phase)[n]);
    }
  }

  lemma EchoesFrame(h: Hub, h': Hub, m: MemberId, q: seq<Entry>, q': seq<Entry>)
    requires TransfersGrow(h, h') && EchoesOk(h, m, q) && forall e :: e in q' ==> e in q
    ensures EchoesOk(h', m, q')
  {
    forall e | e in q' ensures EchoOk(h', m, e) {
      assert EchoOk(h, m, e);
    }
  }

  /** A step that leaves the account alone, and resolves none of the member's transfers. */
  lemma SendersFrame(h: Hub, h': Hub, m: MemberId, s: Spoke, s': Spoke, home: Home)
    requires SendersOk(h, m, s, home) && TransfersGrow(h, h')
    requires s.retagged <= s'.retagged && (s.phase.Retagged? && s'.phase != s.phase ==> HeadIsOver(h, s))
    requires forall t :: t in h'.transfers && h'.transfers[t].from == m ==>
      t in h.transfers && h'.transfers[t].resolved == h.transfers[t].resolved
    ensures SendersOk(h', m, s', home)
  {
    forall t | t in h'.transfers && h'.transfers[t].from == m ensures SenderOk(h', s', home, t) {
      assert SenderOk(h, s, home, t);
    }
  }

  /** A step that leaves the account and the member's transfers alone. */
  lemma PhaseStep(h: Hub, h': Hub, m: MemberId, s: Spoke, s': Spoke, home: Home)
    requires HomeOk(h, m, s, home) && TransfersGrow(h, h') && s'.retagged == s.retagged
    requires s.phase.Retagged? ==> HeadIsOver(h, s)
    requires forall t :: t in h'.transfers && h'.transfers[t].from == m ==>
      t in h.transfers && h'.transfers[t].resolved == h.transfers[t].resolved
    requires TickOk(h', m, s', home)
    ensures HomeOk(h', m, s', home)
  {
    SendersFrame(h, h', m, s, s', home);
  }

  /** Steps that only move the tick along. */
  lemma MoveStep(h: Hub, m: MemberId, s: Spoke, s': Spoke, home: Home)
    requires HomeOk(h, m, s, home) && s'.retagged == s.retagged && (s.phase.Retagged? ==> HeadIsOver(h, s))
    requires TickOk(h, m, s', home)
    ensures HomeOk(h, m, s', home)
  {
    PhaseStep(h, h, m, s, s', home);
  }

  /** Going on with the same entries in hand. */
  lemma SameQueue(h: Hub, m: MemberId, s: Spoke, s': Spoke, home: Home)
    requires TickOk(h, m, s, home) && QueueOf(s.phase) != [] && QueueOf(s'.phase) == QueueOf(s.phase) && !s'.phase.Echoed?
    ensures TickOk(h, m, s', home)
  {
  }

  lemma QueueStep(h: Hub, m: MemberId, s: Spoke, s': Spoke, home: Home)
    requires HomeOk(h, m, s, home) && s'.retagged == s.retagged
    requires QueueOf(s.phase) != [] && QueueOf(s'.phase) == QueueOf(s.phase) && !s'.phase.Echoed?
    ensures HomeOk(h, m, s', home)
  {
    SameQueue(h, m, s, s', home);
    MoveStep(h, m, s, s', home);
  }

  // ----- todos that are neither delegated nor recorded -----

  lemma AheadAsked(h: Hub, m: MemberId, s: Spoke, home: Home)
    requires PhaseOk(h, m, s) && SendersOk(h, m, s, home)
    ensures forall i :: 0 <= i < |Ahead(s.phase)| && Ahead(s.phase)[i].role == Sender ==> Ahead(s.phase)[i].uuid in home.asked
  {
    AheadOk(h, m, s);
    forall i | 0 <= i < |Ahead(s.phase)| && Ahead(s.phase)[i].role == Sender ensures Ahead(s.phase)[i].uuid in home.asked {
      assert WatchedOk(h, m, Ahead(s.phase)[i]);
      assert SenderOk(h, s, home, Ahead(s.phase)[i].tid);
    }
  }

  lemma EchoedAsked(h: Hub, m: MemberId, s: Spoke, home: Home)
    requires PhaseOk(h, m, s) && SendersOk(h, m, s, home) && EchoesOk(h, m, QueueOf(s.phase))
    ensures s.phase.Echoed? && s.phase.queue != [] && s.phase.queue[0].EchoEntry? ==> s.phase.queue[0].uuid in home.asked
  {
    if s.phase.Echoed? {
      var e := s.phase.queue[0];
      assert EntryOk(h, m, e) && e in QueueOf(s.phase) && EchoOk(h, m, e);
      assert SenderOk(h, s, home, e.key.tid);
    }
  }

  lemma RetaggedAsked(h: Hub, m: MemberId, s: Spoke, home: Home)
    requires PhaseOk(h, m, s) && SendersOk(h, m, s, home)
    ensures s.phase.Retagged? ==> s.phase.watch[0].uuid in home.asked
  {
    if s.phase.Retagged? {
      assert WatchedOk(h, m, s.phase.watch[0]);
      assert SenderOk(h, s, home, s.phase.watch[0].tid);
    }
  }

  lemma OutsideKeeps(h: Hub, m: MemberId, s: Spoke, home: Home, home': Home, us: set<Uuid>)
    requires HomeOk(h, m, s, home) && PhaseOk(h, m, s)
    requires SameBut(home, home', us) && home'.mirror == home.mirror && us !! home.asked.Keys
    ensures HomeOk(h, m, s, home')
  {
    forall t | t in h.transfers && h.transfers[t].from == m ensures SenderOk(h, s, home', t) {
      assert SenderOk(h, s, home, t);
    }
    AheadAsked(h, m, s, home);
    AheadSame(h, s, home, home', us);
    EchoedAsked(h, m, s, home);
    RetaggedAsked(h, m, s, home);
  }

  // ----- events -----

  lemma SyncHome(h: Hub, m: MemberId, s: Spoke, home: Home, view: Todos)
    requires HomeOk(h, m, s, home) && Shows(home, view)
    ensures HomeOk(h, m, s, home.(mirror := view))
  {
    var home' := home.(mirror := view);
    forall t | t in h.transfers && h.transfers[t].from == m ensures SenderOk(h, s, home', t) {
      assert SenderOk(h, s, home, t);
    }
    AheadSame(h, s, home, home', {});
  }

  /** A todo that is not delegated is added, or changed in any way. */
  lemma PutHome(h: Hub, m: MemberId, s: Spoke, home: Home, home': Home, u: Uuid)
    requires MemberOk(h, m, s) && HomeOk(h, m, s, home) && u !in home.asked && u in home'.todos
    requires home'.todos == home.todos[u := home'.todos[u]] && home'.mirror == home.mirror
    requires home'.asked == home.asked || home'.asked == home.asked[u := home'.todos[u]]
    ensures HomeOk(h, m, s, home')
  {
    OutsideKeeps(h, m, s, home, home', {u});
  }

  lemma LifeHome(h: Hub, m: MemberId, s: Spoke, home: Home, e: Event)
    requires MemberOk(h, m, s) && AccountOk(s, home) && HomeOk(h, m, s, home) && OrdinaryEvent(home, e)
    ensures HomeOk(h, m, s, AfterEvent(s, home, e))
  {
    match e
    case Sync(view) => SyncHome(h, m, s, home, view);
    case Add(u, todo) =>
      assert AskedOk(home);
      PutHome(h, m, s, home, AfterEvent(s, home, e), u);
    case Edit(u, todo) => PutHome(h, m, s, home, AfterEvent(s, home, e), u);
    case End(u, todo) => PutHome(h, m, s, home, AfterEvent(s, home, e), u);
    case Anything(_) =>
  }

  // ----- somebody else's call -----

  /** Nothing this member's account depends on has moved. */
  ghost predicate Undisturbed(h: Hub, h': Hub, m: MemberId) {
    && TransfersGrow(h, h')
    && (forall t :: t in h'.transfers && h'.transfers[t].from == m ==>
          t in h.transfers && h'.transfers[t].resolved == h.transfers[t].resolved)
    && (forall t :: t in h'.transfers && h'.transfers[t].to == m ==>
          if t in h.transfers then h'.transfers[t].terminal == h.transfers[t].terminal && h'.transfers[t].dst == h.transfers[t].dst
          else h'.transfers[t].terminal.None?)
  }

  lemma UndisturbedKeeps(h: Hub, h': Hub, m: MemberId, s: Spoke, home: Home)
    requires HomeOk(h, m, s, home) && PhaseOk(h, m, s) && Undisturbed(h, h', m)
    ensures HomeOk(h', m, s, home)
  {
    SendersFrame(h, h', m, s, s, home);
    EchoesFrame(h, h', m, QueueOf(s.phase), QueueOf(s.phase));
    AheadFrame(h, h', m, s, home);
  }

  /** A report by a recipient that holds a copy; no other kind ever takes effect here. */
  predicate RecipientsCall(h: Hub, c: Call) {
    match c
    case CallAck(_, key, _, _) =>
      key in h.deliveries && h.deliveries[key].progress != Done && key.tid in h.transfers ==>
        if key.kind == Create then h.transfers[key.tid].dst.None? else key.to == h.transfers[key.tid].from
    case CallObserve(p, t, _, _) =>
      t in h.transfers ==>
        p.member == h.transfers[t].to != h.transfers[t].from && h.transfers[t].dst.Some? && h.transfers[t].terminal.None?
    case _ => true
  }

  /** What a recipient's report does to the ledger: the state is recorded once, nothing is resolved. */
  lemma ReportEffect(h: Hub, p: Principal, t: Tid, s: Terminal, now: Time)
    requires RecipientsCall(h, CallObserve(p, t, s, now))
    ensures var h' := Observe(h, p, t, s, now).hub;
      && h'.transfers.Keys == h.transfers.Keys
      && (forall u :: u in h.transfers && u != t ==> h'.transfers[u] == h.transfers[u])
      && (t in h.transfers ==> var tr, tr' := h.transfers[t], h'.transfers[t];
            tr' == tr || (tr.terminal.None? && tr' == tr.(terminal := Some(s), terminalBy := Some(tr.to))))
  {
  }

  lemma CallKeepsReports(h: Hub, c: Call)
    requires ReportsOk(h) && RecipientsCall(h, c)
    ensures ReportsOk(Do(h, c))
  {
    if c.CallObserve? { ReportEffect(h, c.p, c.t, c.s, c.now); }
  }

  lemma CallUndisturbed(h: Hub, c: Call, m: MemberId)
    requires TransfersGrow(h, Do(h, c)) && Legal(h, c) && RecipientsCall(h, c) && m != c.p.member
    requires c.CallAck? && c.key in h.deliveries ==> DeliveryOk(h, c.key)
    ensures Undisturbed(h, Do(h, c), m)
  {
    if c.CallObserve? { ReportEffect(h, c.p, c.t, c.s, c.now); }
  }

  // ----- outbound -----

  /** The new transfer's source is as delegated; the others are as they were. */
  lemma SendSenders(h: Hub, h': Hub, m: MemberId, s: Spoke, s': Spoke, home: Home, src: Uuid, id: Tid)
    requires SendersOk(h, m, s, home) && UnpushedOk(h, m, home) && TransfersGrow(h, h')
    requires s'.retagged == s.retagged && !s.phase.Retagged?
    requires src in home.mirror && src in home.asked && home.mirror[src] == home.asked[src]
    requires forall t :: t in h'.transfers && t != id ==> t in h.transfers && h'.transfers[t] == h.transfers[t]
    requires id in h'.transfers ==> !Delegated(h, m, src) && h'.transfers[id].src == src && !h'.transfers[id].resolved
    ensures SendersOk(h', m, s', home)
  {
    forall t | t in h'.transfers && h'.transfers[t].from == m ensures SenderOk(h', s', home, t) {
      if t != id { assert SenderOk(h, s, home, t); }
    }
  }

  lemma SendHome(l: Local, p: Principal, src: Uuid, tag: string, id: Tid, now: Time, heard: bool)
    requires CanSend(l, src, tag, id) && HomeOk(l.hub, p.member, l.spoke, l.home)
    requires UnpushedOk(l.hub, p.member, l.home) && OffersOk(l.spoke, l.home, l.home.mirror)
    requires Delegated(l.hub, p.member, src) ==> PushKey(p.tenant, p.member, src, 1) in l.hub.pushed
    ensures var l' := AfterSend(l, p, src, tag, id, now, heard); HomeOk(l'.hub, p.member, l'.spoke, l'.home)
  {
    var l' := AfterSend(l, p, src, tag, id, now, heard);
    PushGrows(l.hub, p, l.spoke.triggers[tag], src, Payload(l.home.mirror[src].title), 1, id, now);
    SentTransfer(l, p, src, tag, id, now);
    OfferedIsAsked(l.spoke, l.home, src, tag);
    SendSenders(l.hub, l'.hub, p.member, l.spoke, l'.spoke, l.home, src, id);
  }

  // ----- inbound -----

  lemma LeasedEchoesOk(h: Hub, p: Principal, order: seq<DKey>, seconds: Time, now: Time)
    requires HubInv(h) && AllAccounted(h) && ReportsOk(h) && IsListing(h, p.member, order)
    requires Lease(h, p, order, POLL_LIMIT, seconds, now).result.Ok?
    ensures var r := Lease(h, p, order, POLL_LIMIT, seconds, now);
      EchoesOk(r.hub, p.member, r.result.value)
  {
    var r := Lease(h, p, order, POLL_LIMIT, seconds, now);
    var ks := Handed(h, order, POLL_LIMIT, now);
    forall i | 0 <= i < |r.result.value| ensures EchoOk(r.hub, p.member, r.result.value[i]) {
      assert ks[i] in Eligible(h, order, now);
      assert DeliveryOk(h, ks[i]) && TransferOk(h, ks[i].tid) && Accounted(h, ks[i].tid);
      assert r.result.value[i] == EntryFor(h, ks[i]);
      if ks[i].kind != Create { EchoesAddressSenders(h, ks[i]); }
    }
  }

  lemma PollHome(l: Local, p: Principal, order: seq<DKey>, seconds: Time, now: Time, heard: bool)
    requires l.spoke.phase.Idle? && IsListing(l.hub, p.member, order)
    requires HubInv(l.hub) && AllAccounted(l.hub) && ReportsOk(l.hub) && HomeOk(l.hub, p.member, l.spoke, l.home)
    ensures var l' := AfterPoll(l, p, order, seconds, now, heard); HomeOk(l'.hub, p.member, l'.spoke, l'.home)
  {
    var r := Lease(l.hub, p, order, POLL_LIMIT, seconds, now);
    LeaseGrows(l.hub, p, order, POLL_LIMIT, seconds, now);
    if r.result.Ok? { LeasedEchoesOk(l.hub, p, order, seconds, now); }
    PollStep(l.hub, r.hub, p.member, l.spoke, AfterPoll(l, p, order, seconds, now, heard).spoke, l.home);
  }

  lemma PollStep(h: Hub, h': Hub, m: MemberId, s: Spoke, s': Spoke, home: Home)
    requires HomeOk(h, m, s, home) && TransfersGrow(h, h') && h'.transfers == h.transfers
    requires s.phase.Idle? && s' == s.(phase := s'.phase) && (s'.phase.Idle? || s'.phase.Inbox?)
    requires EchoesOk(h', m, QueueOf(s'.phase))
    ensures HomeOk(h', m, s', home)
  {
    PhaseStep(h, h', m, s, s', home);
  }

  lemma FireHome(l: Local, m: MemberId, uuid: Uuid, created: Time)
    requires CanFire(l, uuid) && PhaseOk(l.hub, m, l.spoke) && AccountOk(l.spoke, l.home)
    requires HomeOk(l.hub, m, l.spoke, l.home)
    ensures var l' := AfterFire(l, uuid, created); HomeOk(l.hub, m, l'.spoke, l'.home)
  {
    var l' := AfterFire(l, uuid, created);
    assert AskedOk(l.home);
    OutsideKeeps(l.hub, m, l.spoke, l.home, l'.home, {uuid});
    QueueStep(l.hub, m, l.spoke, l'.spoke, l'.home);
  }

  /** What an ack of the head does to the transfers: a create maps its copy, an echo resolves its transfer. */
  lemma AckEffect(h: Hub, p: Principal, k: DKey, dst: Uuid, now: Time)
    ensures var h' := Ack(h, p, k, dst, now).hub;
      h'.transfers == h.transfers
      || (&& k in h.deliveries && h.deliveries[k].progress != Done && k.tid in h.transfers
          && h'.transfers == h.transfers[k.tid :=
               if k.kind == Create then h.transfers[k.tid].(dst := Some(dst)) else h.transfers[k.tid].(resolved := true)])
  {
  }

  lemma AckSenders(h: Hub, h': Hub, m: MemberId, s: Spoke, home: Home, k: DKey, dst: Uuid)
    requires SendersOk(h, m, s, home) && TransfersGrow(h, h') && k.tid in h.transfers
    requires k.kind != Create && h.transfers[k.tid].from == m ==>
      h.transfers[k.tid].src in home.todos && IsFinished(home.todos[h.transfers[k.tid].src])
    requires h'.transfers == h.transfers[k.tid :=
               if k.kind == Create then h.transfers[k.tid].(dst := Some(dst)) else h.transfers[k.tid].(resolved := true)]
    ensures SendersOk(h', m, s, home)
  {
    forall t | t in h'.transfers && h'.transfers[t].from == m ensures SenderOk(h', s, home, t) {
      assert SenderOk(h, s, home, t);
    }
  }

  lemma AckHome(l: Local, p: Principal, now: Time, heard: bool)
    requires CanAck(l.spoke) && MemberOk(l.hub, p.member, l.spoke) && HomeOk(l.hub, p.member, l.spoke, l.home)
    requires var k := l.spoke.phase.queue[0].key;
      k in l.hub.deliveries ==> DeliveryOk(l.hub, k) && TransferOk(l.hub, k.tid)
    ensures var l' := AfterAckHead(l, p, now, heard); HomeOk(l'.hub, p.member, l'.spoke, l'.home)
  {
    var l' := AfterAckHead(l, p, now, heard);
    var h, h', m, s, s', home, e := l.hub, l'.hub, p.member, l.spoke, l'.spoke, l.home, l.spoke.phase.queue[0];
    AckGrows(h, p, e.key, AckUuid(s), now);
    AckEffect(h, p, e.key, AckUuid(s), now);
    assert EntryOk(h, m, e) && e in QueueOf(s.phase);
    assert SendersOk(h', m, s, home) by {
      if h'.transfers != h.transfers {
        AckSenders(h, h', m, s, home, e.key, AckUuid(s));
      } else {
        SendersFrame(h, h', m, s, s, home);
      }
    }
    QueueMoves(h, h', m, s, s', home);
  }

  /** The head leaves the queue, or the queue goes to the failed state. */
  lemma QueueMoves(h: Hub, h': Hub, m: MemberId, s: Spoke, s': Spoke, home: Home)
    requires QueueOf(s.phase) != [] && HomeOk(h, m, s, home) && TransfersGrow(h, h')
    requires SendersOk(h', m, s, home)
    requires s' == s.(phase := Inbox(QueueOf(s.phase)[1..])) || s' == s.(phase := Failed(QueueOf(s.phase)))
    ensures HomeOk(h', m, s', home)
  {
    EchoesFrame(h, h', m, QueueOf(s.phase), QueueOf(s'.phase));
    SendersFrame(h', h', m, s, s', home);
  }

  lemma NackHome(l: Local, p: Principal, arrives: bool)
    requires l.spoke.phase.Failed? && l.spoke.phase.queue != [] && HomeOk(l.hub, p.member, l.spoke, l.home)
    ensures var l' := AfterNackHead(l, p, arrives); HomeOk(l'.hub, p.member, l'.spoke, l'.home)
  {
    var l' := AfterNackHead(l, p, arrives);
    NackGrows(l.hub, p, l.spoke.phase.queue[0].key);
    SendersFrame(l.hub, l'.hub, p.member, l.spoke, l.spoke, l.home);
    QueueMoves(l.hub, l'.hub, p.member, l.spoke, l'.spoke, l.home);
  }

  // ----- writing the sender's copy -----

  /** The account with one sender's copy completed, and its tags perhaps changed. */
  function Completing(home: Home, u: Uuid, tags: set<string>): Home
    requires u in home.todos
  {
    home.(todos := home.todos[u := home.todos[u].(tags := tags, status := Ended(Completed))])
  }

  /** Completing the copy of a transfer t that the spoke will not mistake for news. */
  lemma CompletingSenders(h: Hub, m: MemberId, s: Spoke, s': Spoke, home: Home, t: Tid, tags: set<string>)
    requires HandedAll(h, m, home) && SendersOk(h, m, s, home) && t in h.transfers && h.transfers[t].from == m
    requires s'.retagged == s.retagged && !s.phase.Retagged? && Excused(h, s', t)
    requires forall u :: u in h.transfers && h.transfers[u].from == m && h.transfers[u].src == h.transfers[t].src ==> u == t
    requires h.transfers[t].src in home.todos && h.transfers[t].src in home.asked
    requires home.todos[h.transfers[t].src] != home.asked[h.transfers[t].src] ==> tags == home.todos[h.transfers[t].src].tags
    ensures SendersOk(h, m, s', Completing(home, h.transfers[t].src, tags))
  {
    var home' := Completing(home, h.transfers[t].src, tags);
    forall u | u in h.transfers && h.transfers[u].from == m ensures SenderOk(h, s', home', u) {
      assert SenderOk(h, s, home, u) && HandoverOk(h, home, u);
    }
  }

  lemma WriteHome(l: Local, m: MemberId, landed: bool, verified: bool)
    requires CanWrite(l, landed, verified) && HubInv(l.hub) && FirstRevs(l.hub)
    requires MemberOk(l.hub, m, l.spoke) && KeptOk(l.hub, m, l.spoke, l.home) && HomeOk(l.hub, m, l.spoke, l.home)
    ensures var l' := AfterWriteTerminal(l, landed, verified); HomeOk(l.hub, m, l'.spoke, l'.home)
  {
    var s, s', home := l.spoke, AfterWriteTerminal(l, landed, verified).spoke, l.home;
    var e := s.phase.queue[0];
    assert EntryOk(l.hub, m, e) && e in QueueOf(s.phase) && EchoOk(l.hub, m, e);
    if landed {
      OnlyTransferOf(l.hub, e.key.tid);
      WriteLanded(l.hub, m, s, s', home, e);
      assert AfterWriteTerminal(l, landed, verified).home == Completing(home, e.uuid, home.todos[e.uuid].tags);
    } else {
      QueueStep(l.hub, m, s, s', home);
    }
  }

  lemma WriteLanded(h: Hub, m: MemberId, s: Spoke, s': Spoke, home: Home, e: Entry)
    requires KeptOk(h, m, s, home) && HomeOk(h, m, s, home) && MappedOk(h, m, s.journal) && e.EchoEntry?
    requires e.key.tid in h.transfers && h.transfers[e.key.tid].from == m && h.transfers[e.key.tid].src == e.uuid
    requires h.transfers[e.key.tid].terminal.Some?
    requires forall v :: v in h.transfers && h.transfers[v].from == m && h.transfers[v].src == e.uuid ==> v == e.key.tid
    requires s.phase.Inbox? && s' == s.(phase := s'.phase) && (s'.phase.Echoed? || s'.phase.Failed?)
    requires s.phase.queue != [] && s.phase.queue[0] == e && s'.phase.queue == s.phase.queue
    ensures e.uuid in home.todos && HomeOk(h, m, s', Completing(home, e.uuid, home.todos[e.uuid].tags))
  {
    assert HandoverOk(h, home, e.key.tid);
    var tags := home.todos[e.uuid].tags;
    UnsyncedTags(home.todos[e.uuid]);
    CompletingSenders(h, m, s, s', home, e.key.tid, tags);
    WriteTick(h, m, s, s', Completing(home, e.uuid, tags), e);
  }

  lemma WriteTick(h: Hub, m: MemberId, s: Spoke, s': Spoke, home': Home, e: Entry)
    requires s.phase.Inbox? && s.phase.queue != [] && s.phase.queue[0] == e && EchoesOk(h, m, QueueOf(s.phase)) && e.EchoEntry?
    requires (s'.phase.Echoed? || s'.phase.Failed?) && s'.phase.queue == s.phase.queue
    requires e.uuid in home'.todos && IsFinished(home'.todos[e.uuid])
    ensures TickOk(h, m, s', home')
  {
  }

  // ----- observe and retag -----

  lemma WatchHome(l: Local, p: Principal, q: seq<Watched>)
    requires l.spoke.phase.Idle? && IsWatchlist(l.hub, p, q) && HomeOk(l.hub, p.member, l.spoke, l.home)
    ensures HomeOk(l.hub, p.member, l.spoke.(phase := Watching(q)), l.home)
  {
    var s' := l.spoke.(phase := Watching(q));
    assert AheadQuiet(l.hub, s', l.home) by {
      forall i | 0 <= i < |q| ensures QuietOk(l.hub, s', l.home, q[i]) {
        assert q[i] in q;
        if q[i].role == Sender { assert SenderOk(l.hub, l.spoke, l.home, q[i].tid); }
      }
    }
    MoveStep(l.hub, p.member, l.spoke, s', l.home);
  }

  /** The head of the watchlist is done with. */
  lemma WatchMoves(h: Hub, m: MemberId, s: Spoke, s': Spoke, home: Home)
    requires HomeOk(h, m, s, home) && WatchOf(s.phase) != [] && s'.retagged == s.retagged && !s.phase.Retagged?
    requires s'.phase == Watching(WatchOf(s.phase)[1..])
    ensures HomeOk(h, m, s', home)
  {
    AheadTail(h, s, s', home);
    MoveStep(h, m, s, s', home);
  }

  /** The one report this spoke can make next is of a copy it received, and nobody has reported that transfer. */
  lemma ReportIsRecipients(l: Local, p: Principal, now: Time)
    requires CanReport(l) && MemberOk(l.hub, p.member, l.spoke)
    requires KeptOk(l.hub, p.member, l.spoke, l.home) && HomeOk(l.hub, p.member, l.spoke, l.home)
    requires l.spoke.phase.watch[0].tid in l.hub.transfers ==> TransferOk(l.hub, l.spoke.phase.watch[0].tid)
    ensures var w := l.spoke.phase.watch[0];
      && RecipientsCall(l.hub, CallObserve(p, w.tid, News(l.spoke, l.home.mirror, w).value, now))
      && w.role == Recipient && w.tid in l.hub.transfers && l.hub.transfers[w.tid].dst == Some(w.uuid)
      && w.uuid in l.home.todos && Synced(l.home.todos[w.uuid])
  {
    var s, home, w := l.spoke, l.home, l.spoke.phase.watch[0];
    assert WatchedOk(l.hub, p.member, w);
    assert QuietOk(l.hub, s, home, Ahead(s.phase)[0]);
    if w.role == Sender {
      assert SenderOk(l.hub, s, home, w.tid) && HandoverOk(l.hub, home, w.tid);
      SenderIsSilent(l.hub, s, home, w);
    }
    DstIsCopy(l.hub, p.member, s, home.todos, w.tid);
  }

  lemma ReportHome(l: Local, p: Principal, now: Time, heard: bool)
    requires CanReport(l) && MemberOk(l.hub, p.member, l.spoke)
    requires KeptOk(l.hub, p.member, l.spoke, l.home) && HomeOk(l.hub, p.member, l.spoke, l.home)
    requires l.spoke.phase.watch[0].tid in l.hub.transfers ==> TransferOk(l.hub, l.spoke.phase.watch[0].tid)
    requires TransfersGrow(l.hub, AfterReport(l, p, now, heard).hub)
    ensures var l' := AfterReport(l, p, now, heard); HomeOk(l'.hub, p.member, l'.spoke, l'.home)
  {
    var l' := AfterReport(l, p, now, heard);
    var w, news := l.spoke.phase.watch[0], News(l.spoke, l.home.mirror, l.spoke.phase.watch[0]).value;
    ReportIsRecipients(l, p, now);
    ReportEffect(l.hub, p, w.tid, news, now);
    ReportMoves(l.hub, l'.hub, p.member, l.spoke, l'.spoke, l.home, w);
  }

  /** The entries still ahead are of other transfers. */
  lemma ReportAhead(h: Hub, h': Hub, s: Spoke, s': Spoke, home: Home, w: Watched)
    requires AheadQuiet(h, s', home) && WatchLive(h, s)
    requires s.phase.Watching? && s.phase.watch != [] && s.phase.watch[0] == w && Ahead(s'.phase) == s.phase.watch[1..]
    requires forall u :: u in h.transfers && u != w.tid ==> u in h'.transfers && h'.transfers[u] == h.transfers[u]
    ensures AheadQuiet(h', s', home)
  {
    forall i | 0 <= i < |Ahead(s'.phase)| ensures QuietOk(h', s', home, Ahead(s'.phase)[i]) {
      assert QuietOk(h, s', home, Ahead(s'.phase)[i]);
      assert Ahead(s'.phase)[i] == WatchOf(s.phase)[i + 1] && WatchOf(s.phase)[0] == w;
    }
  }

  lemma ReportMoves(h: Hub, h': Hub, m: MemberId, s: Spoke, s': Spoke, home: Home, w: Watched)
    requires HomeOk(h, m, s, home) && WatchLive(h, s) && TransfersGrow(h, h') && h'.transfers.Keys == h.transfers.Keys
    requires w.tid in h.transfers && h'.transfers[w.tid].resolved == h.transfers[w.tid].resolved
    requires forall u :: u in h.transfers && u != w.tid ==> h'.transfers[u] == h.transfers[u]
    requires s.phase.Watching? && s.phase.watch != [] && s.phase.watch[0] == w && s' == s.(phase := s'.phase)
    requires s'.phase == Watching(s.phase.watch[1..]) || (s'.phase.Reported? && s'.phase.watch == s.phase.watch)
    ensures HomeOk(h', m, s', home)
  {
    AheadTail(h, s, s', home);
    ReportAhead(h, h', s, s', home, w);
    PhaseStep(h, h', m, s, s', home);
  }

  lemma RetagHome(l: Local, m: MemberId, landed: bool, verified: bool, kept: set<string>)
    requires CanRetag(l, landed, verified, kept) && CarefulTick(l, Retag(landed, verified, kept))
    requires HubInv(l.hub) && FirstRevs(l.hub)
    requires MemberOk(l.hub, m, l.spoke) && KeptOk(l.hub, m, l.spoke, l.home) && HomeOk(l.hub, m, l.spoke, l.home)
    ensures var l' := AfterRetag(l, landed, verified, kept); HomeOk(l.hub, m, l'.spoke, l'.home)
  {
    var l' := AfterRetag(l, landed, verified, kept);
    var s, s', home, w := l.spoke, l'.spoke, l.home, l.spoke.phase.watch[0];
    assert WatchedOk(l.hub, m, w);
    assert QuietOk(l.hub, s, home, Ahead(s.phase)[0]);
    if landed {
      AheadTail(l.hub, s, s', home);
      OnlyTransferOf(l.hub, w.tid);
      RetagLanded(l.hub, m, s, s', home, w, kept);
    } else {
      WatchMoves(l.hub, m, s, s', home);
    }
  }

  /** The copy is finished; the marker is next, or the transfer is over and needs none. */
  lemma RetagLanded(h: Hub, m: MemberId, s: Spoke, s': Spoke, home: Home, w: Watched, kept: set<string>)
    requires KeptOk(h, m, s, home) && HomeOk(h, m, s, home) && MemberOk(h, m, s)
    requires WatchedOk(h, m, w) && w.role == Sender && w.applied && w.tid !in s.retagged
    requires forall u :: u in h.transfers && h.transfers[u].from == m && h.transfers[u].src == w.uuid ==> u == w.tid
    requires s.phase.Watching? && s.phase.watch != [] && s.phase.watch[0] == w && AheadQuiet(h, s', home)
    requires s' == s.(phase := Retagged(s.phase.watch))
          || (s' == s.(phase := Watching(s.phase.watch[1..])) && h.transfers[w.tid].terminal.Some?)
    requires w.uuid in home.todos && w.uuid in home.asked && home.todos[w.uuid] == home.asked[w.uuid]
    ensures HomeOk(h, m, s', Completing(home, w.uuid, kept))
  {
    var home' := Completing(home, w.uuid, kept);
    assert HandoverOk(h, home, w.tid);
    CompletingSenders(h, m, s, s', home, w.tid, kept);
    RetagQuiet(h, m, s, s', home, home', w);
  }

  lemma KeptTagsPlain(s: Spoke, home: Home, u: Uuid, kept: set<string>)
    requires AccountOk(s, home) && u in home.asked && u in home.mirror && kept <= RetagTags(s, home.mirror[u].tags)
    ensures NoProvenance(kept)
  {
    assert SeenAs(home.mirror[u], home.todos[u]);
    UnsyncedTags(home.mirror[u]);
    RetagTagsPlain(s, home.mirror[u].tags);
  }

  /** The other entries ahead name other todos. */
  lemma RetagQuiet(h: Hub, m: MemberId, s: Spoke, s': Spoke, home: Home, home': Home, w: Watched)
    requires AheadQuiet(h, s', home) && PhaseOk(h, m, s) && WatchLive(h, s)
    requires s.phase.Watching? && s.phase.watch != [] && s.phase.watch[0] == w && Ahead(s'.phase) == s.phase.watch[1..]
    requires forall u :: u in h.transfers && h.transfers[u].from == m && h.transfers[u].src == w.uuid ==> u == w.tid
    requires SameBut(home, home', {w.uuid})
    ensures AheadQuiet(h, s', home')
  {
    forall i | 0 <= i < |Ahead(s'.phase)| && Ahead(s'.phase)[i].role == Sender ensures Ahead(s'.phase)[i].uuid !in {w.uuid} {
      assert Ahead(s'.phase)[i] == s.phase.watch[i + 1] == WatchOf(s.phase)[i + 1];
      assert WatchOf(s.phase)[0] == w;
      assert WatchedOk(h, m, s.phase.watch[i + 1]);
    }
    AheadSame(h, s', home, home', {w.uuid});
  }

  lemma MarkRetaggedHome(l: Local, m: MemberId)
    requires l.spoke.phase.Retagged? && l.spoke.phase.watch != [] && HomeOk(l.hub, m, l.spoke, l.home)
    ensures HomeOk(l.hub, m, AfterMarkRetagged(l).spoke, l.home)
  {
    var s, s', home := l.spoke, AfterMarkRetagged(l).spoke, l.home;
    AheadTail(l.hub, s, s', home);
    forall t | t in l.hub.transfers && l.hub.transfers[t].from == m ensures SenderOk(l.hub, s', home, t) {
      assert SenderOk(l.hub, s, home, t);
    }
  }
}
