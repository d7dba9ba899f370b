/** Each action of a spoke keeps the spoke's invariant, whatever it meets at the hub. */
module SpokeSteps {
  import opened Basics
  import opened HubSpec
  import opened HubInvariant
  import opened HubHistory
  import opened HubLeases
  import opened SpokeSpec
  import opened SpokeInvariant

  /** A spoke's invariant against the hub. */
  ghost predicate MemberOk(h: Hub, m: MemberId, s: Spoke) {
    SpokeOk(h, m, s) && MappedOk(h, m, s.journal) && WatchLive(h, s)
  }

  /** Moving on in the tick: only the phase's own facts are new. */
  lemma Rephase(h: Hub, m: MemberId, s: Spoke, s': Spoke)
    requires MemberOk(h, m, s) && s' == s.(phase := s'.phase)
    requires PhaseOk(h, m, s') && WatchLive(h, s')
    ensures MemberOk(h, m, s')
  {
  }

  lemma TailOk(h: Hub, m: MemberId, q: seq<Entry>)
    requires q != [] && QueueOk(h, m, q)
    ensures QueueOk(h, m, q[1..])
  {
  }

  lemma WatchTailOk(h: Hub, m: MemberId, q: seq<Watched>)
    requires q != [] && WatchOk(h, m, q)
    ensures WatchOk(h, m, q[1..])
  {
  }

  lemma WatchTailLive(h: Hub, s: Spoke, s': Spoke)
    requires WatchLive(h, s) && WatchOf(s.phase) != []
    requires s'.phase == Watching(WatchOf(s.phase)[1..]) || s'.phase == Retagged(WatchOf(s.phase))
    ensures WatchLive(h, s')
  {
    var q := WatchOf(s.phase);
    assert Ahead(s'.phase) == q[1..];
    forall i | 0 <= i < |q[1..]| && q[1..][i].role == Sender ensures !Skipped(h, q[1..][i].tid) {
      assert q[1..][i] == if s.phase.Watching? then Ahead(s.phase)[i + 1] else Ahead(s.phase)[i];
    }
  }

  // ----- outbound -----

  lemma SendKeeps(l: Local, p: Principal, src: Uuid, tag: string, id: Tid, now: Time, heard: bool)
    requires CanSend(l, src, tag, id) && PushIndexOk(l.hub) && MemberOk(l.hub, p.member, l.spoke)
    ensures var l' := AfterSend(l, p, src, tag, id, now, heard); MemberOk(l'.hub, p.member, l'.spoke)
  {
    var l' := AfterSend(l, p, src, tag, id, now, heard);
    var to, payload := l.spoke.triggers[tag], Payload(l.home.mirror[src].title);
    assert MemberOk(l'.hub, p.member, l.spoke) by {
      PushForeign(l.hub, p, to, src, payload, 1, id, now, p.member);
      ForeignKeeps(l.hub, l'.hub, p.member, l.spoke);
    }
    if l'.spoke.phase.Pushed? { PushedIsMine(l.hub, p, to, src, payload, id, now); }
    Rephase(l'.hub, p.member, l.spoke, l'.spoke);
  }

  lemma PushedIsMine(h: Hub, p: Principal, to: string, src: Uuid, payload: Payload, id: Tid, now: Time)
    requires PushIndexOk(h) && Push(h, p, to, src, payload, 1, id, now).result.Ok?
    ensures var r := Push(h, p, to, src, payload, 1, id, now);
      var t := r.result.value.id;
      SentAs(r.hub, p.member, src, t)
  {
  }

  lemma MarkSentKeeps(l: Local, m: MemberId)
    requires l.spoke.phase.Pushed? && MemberOk(l.hub, m, l.spoke)
    ensures MemberOk(l.hub, m, AfterMarkSent(l).spoke)
  {
  }

  // ----- inbound -----

  lemma PollKeeps(l: Local, p: Principal, order: seq<DKey>, seconds: Time, now: Time, heard: bool)
    requires l.spoke.phase.Idle? && IsListing(l.hub, p.member, order)
    requires HubInv(l.hub) && MemberOk(l.hub, p.member, l.spoke)
    ensures var l' := AfterPoll(l, p, order, seconds, now, heard); MemberOk(l'.hub, p.member, l'.spoke)
  {
    var r := Lease(l.hub, p, order, POLL_LIMIT, seconds, now);
    if r.result.Ok? { LeasedQueueOk(l.hub, p, order, seconds, now); }
    LeaseForeign(l.hub, p, order, POLL_LIMIT, seconds, now, p.member);
    PollAnswered(l.hub, p.member, l.spoke, r);
  }

  lemma PollAnswered(h: Hub, m: MemberId, s: Spoke, r: Reply<seq<Entry>>)
    requires MemberOk(h, m, s) && s.phase.Idle? && Foreign(h, r.hub, m)
    requires r.result.Ok? ==> QueueOk(r.hub, m, r.result.value)
    ensures MemberOk(r.hub, m, s) && (r.result.Ok? ==> MemberOk(r.hub, m, s.(phase := Inbox(r.result.value))))
  {
    ForeignKeeps(h, r.hub, m, s);
    if r.result.Ok? { Rephase(r.hub, m, s, s.(phase := Inbox(r.result.value))); }
  }

  lemma LeasedQueueOk(h: Hub, p: Principal, order: seq<DKey>, seconds: Time, now: Time)
    requires HubInv(h) && IsListing(h, p.member, order)
    requires Lease(h, p, order, POLL_LIMIT, seconds, now).result.Ok?
    ensures var r := Lease(h, p, order, POLL_LIMIT, seconds, now);
      QueueOk(r.hub, p.member, r.result.value)
  {
  }

  lemma IntendKeeps(l: Local, m: MemberId, since: Time, firedAt: Time)
    requires CanIntend(l.spoke) && MemberOk(l.hub, m, l.spoke)
    ensures MemberOk(l.hub, m, AfterIntend(l, since, firedAt).spoke)
  {
    OpenKeeps(l.hub, m, l.spoke, AfterIntend(l, since, firedAt).spoke, l.spoke.phase.queue[0], since, firedAt);
  }

  lemma OpenKeeps(h: Hub, m: MemberId, s: Spoke, s': Spoke, e: Entry, since: Time, firedAt: Time)
    requires MemberOk(h, m, s) && CanIntend(s) && s.phase.queue[0] == e
    requires s' == s.(journal := s.journal[e.key := Intent(e.payload.title, e.provenance, firedAt, None)],
                      phase := Firing(s.phase.queue, since))
    ensures MemberOk(h, m, s')
  {
    assert EntryOk(h, m, e);
    OpenJournal(h, m, s.journal, e, firedAt);
  }

  lemma OpenJournal(h: Hub, m: MemberId, j: Journal, e: Entry, firedAt: Time)
    requires JournalOk(h, m, j) && Injective(j) && MappedOk(h, m, j) && e.CreateEntry? && EntryOk(h, m, e) && e.key !in j
    ensures var j' := j[e.key := Intent(e.payload.title, e.provenance, firedAt, None)];
      JournalOk(h, m, j') && Injective(j') && MappedOk(h, m, j')
  {
  }

  lemma FireKeeps(l: Local, m: MemberId, uuid: Uuid, created: Time)
    requires CanFire(l, uuid) && MemberOk(l.hub, m, l.spoke)
    ensures MemberOk(l.hub, m, AfterFire(l, uuid, created).spoke)
  {
  }

  lemma FailKeeps(l: Local, m: MemberId)
    requires CanFail(l.spoke) && MemberOk(l.hub, m, l.spoke)
    ensures MemberOk(l.hub, m, AfterFail(l).spoke)
  {
  }

  lemma ResumeKeeps(l: Local, m: MemberId)
    requires HeadJournaled(l.spoke) && MemberOk(l.hub, m, l.spoke)
    ensures MemberOk(l.hub, m, AfterResume(l).spoke)
  {
  }

  lemma FindKeeps(l: Local, m: MemberId, found: Uuid)
    requires CanFind(l, found) && MemberOk(l.hub, m, l.spoke)
    ensures MemberOk(l.hub, m, AfterFind(l, found).spoke)
  {
    CloseKeeps(l.hub, m, l.spoke, AfterFind(l, found).spoke, l.spoke.phase.queue[0].key, found);
  }

  lemma CloseKeeps(h: Hub, m: MemberId, s: Spoke, s': Spoke, k: DKey, found: Uuid)
    requires MemberOk(h, m, s) && s.phase.Correlating? && s.phase.queue[0].key == k
    requires found != "" && found !in JournaledDsts(s.journal)
    requires s' == s.(journal := s.journal[k := s.journal[k].(dst := Some(found))], phase := Closed(s.phase.queue, found))
    ensures MemberOk(h, m, s')
  {
    FoundIsNew(s.journal, k, found);
    CloseMaps(h, m, s.journal, k, found);
  }

  lemma CloseMaps(h: Hub, m: MemberId, j: Journal, k: DKey, found: Uuid)
    requires JournalOk(h, m, j) && MappedOk(h, m, j) && JournaledAs(j, k, None) && found != ""
    ensures var j' := j[k := j[k].(dst := Some(found))]; JournalOk(h, m, j') && MappedOk(h, m, j')
  {
  }

  lemma FoundIsNew(j: Journal, k: DKey, found: Uuid)
    requires Injective(j) && k in j && found !in JournaledDsts(j)
    ensures Injective(j[k := j[k].(dst := Some(found))])
  {
  }

  lemma AckKeeps(l: Local, p: Principal, now: Time, heard: bool)
    requires CanAck(l.spoke) && HubInv(l.hub) && MemberOk(l.hub, p.member, l.spoke)
    ensures var l' := AfterAckHead(l, p, now, heard); MemberOk(l'.hub, p.member, l'.spoke)
  {
    var k := l.spoke.phase.queue[0].key;
    assert k in l.hub.deliveries ==> DeliveryOk(l.hub, k) && TransferOk(l.hub, k.tid);
    AckAnswered(l, p, now, heard);
  }

  lemma AckAnswered(l: Local, p: Principal, now: Time, heard: bool)
    requires CanAck(l.spoke) && MemberOk(l.hub, p.member, l.spoke)
    requires var k := l.spoke.phase.queue[0].key;
      k in l.hub.deliveries ==> DeliveryOk(l.hub, k) && TransferOk(l.hub, k.tid)
    ensures var l' := AfterAckHead(l, p, now, heard); MemberOk(l'.hub, p.member, l'.spoke)
  {
    var s, q := l.spoke, l.spoke.phase.queue;
    var h' := Ack(l.hub, p, q[0].key, AckUuid(s), now).hub;
    AckGrows(l.hub, p, q[0].key, AckUuid(s), now);
    assert EntryOk(l.hub, p.member, q[0]);
    AckMaps(l.hub, p, q[0].key, AckUuid(s), now, s.journal);
    AckMoves(l.hub, h', p.member, s, AfterAckHead(l, p, now, heard).spoke);
  }

  lemma AckMoves(h: Hub, h': Hub, m: MemberId, s: Spoke, s': Spoke)
    requires CanAck(s) && SpokeOk(h, m, s) && TransfersGrow(h, h') && MappedOk(h', m, s.journal)
    requires s' == s.(phase := Inbox(s.phase.queue[1..])) || s' == s.(phase := Failed(s.phase.queue))
    ensures MemberOk(h', m, s')
  {
    SpokeFrame(h, h', m, s);
    TailOk(h', m, s.phase.queue);
    Rephase(h', m, s, s');
  }

  lemma AckMaps(h: Hub, p: Principal, k: DKey, dst: Uuid, now: Time, j: Journal)
    requires MappedOk(h, p.member, j)
    requires k.kind == Create ==> JournaledAs(j, k, Some(dst)) && k.to == p.member
    ensures MappedOk(Ack(h, p, k, dst, now).hub, p.member, j)
  {
  }

  lemma WriteKeeps(l: Local, m: MemberId, landed: bool, verified: bool)
    requires CanWrite(l, landed, verified) && MemberOk(l.hub, m, l.spoke)
    ensures MemberOk(l.hub, m, AfterWriteTerminal(l, landed, verified).spoke)
  {
  }

  lemma NackKeeps(l: Local, p: Principal, arrives: bool)
    requires l.spoke.phase.Failed? && l.spoke.phase.queue != [] && MemberOk(l.hub, p.member, l.spoke)
    ensures var l' := AfterNackHead(l, p, arrives); MemberOk(l'.hub, p.member, l'.spoke)
  {
    var l' := AfterNackHead(l, p, arrives);
    var q := l.spoke.phase.queue;
    assert MemberOk(l'.hub, p.member, l.spoke) by {
      if arrives {
        NackForeign(l.hub, p, q[0].key, p.member);
        ForeignKeeps(l.hub, l'.hub, p.member, l.spoke);
      }
    }
    TailOk(l'.hub, p.member, q);
    Rephase(l'.hub, p.member, l.spoke, l'.spoke);
  }

  // ----- observe and retag -----

  lemma WatchKeeps(l: Local, p: Principal, q: seq<Watched>)
    requires IsWatchlist(l.hub, p, q) && HubInv(l.hub) && MemberOk(l.hub, p.member, l.spoke)
    ensures MemberOk(l.hub, p.member, l.spoke.(phase := Watching(q)))
  {
    forall i | 0 <= i < |q| ensures WatchedOk(l.hub, p.member, q[i]) && !Skipped(l.hub, q[i].tid) {
      assert q[i] in q;
      assert TransferOk(l.hub, q[i].tid);
    }
    Rephase(l.hub, p.member, l.spoke, l.spoke.(phase := Watching(q)));
  }

  lemma PassKeeps(l: Local, m: MemberId)
    requires AtWatch(l.spoke) && MemberOk(l.hub, m, l.spoke)
    ensures MemberOk(l.hub, m, AfterPass(l).spoke)
  {
    WatchTailOk(l.hub, m, l.spoke.phase.watch);
    WatchTailLive(l.hub, l.spoke, AfterPass(l).spoke);
    Rephase(l.hub, m, l.spoke, AfterPass(l).spoke);
  }

  lemma MarkReportedKeeps(l: Local, m: MemberId)
    requires l.spoke.phase.Reported? && l.spoke.phase.watch != [] && MemberOk(l.hub, m, l.spoke)
    ensures MemberOk(l.hub, m, AfterMarkReported(l).spoke)
  {
    WatchTailOk(l.hub, m, l.spoke.phase.watch);
    WatchTailLive(l.hub, l.spoke, AfterMarkReported(l).spoke);
    assert WatchedOk(l.hub, m, l.spoke.phase.watch[0]);
  }

  lemma MarkRetaggedKeeps(l: Local, m: MemberId)
    requires l.spoke.phase.Retagged? && l.spoke.phase.watch != [] && MemberOk(l.hub, m, l.spoke)
    ensures MemberOk(l.hub, m, AfterMarkRetagged(l).spoke)
  {
    WatchTailOk(l.hub, m, l.spoke.phase.watch);
    WatchTailLive(l.hub, l.spoke, AfterMarkRetagged(l).spoke);
    assert WatchedOk(l.hub, m, l.spoke.phase.watch[0]);
  }

  lemma ReportKeeps(l: Local, p: Principal, now: Time, heard: bool)
    requires CanReport(l) && HubInv(l.hub) && MemberOk(l.hub, p.member, l.spoke)
    ensures var l' := AfterReport(l, p, now, heard); MemberOk(l'.hub, p.member, l'.spoke)
  {
    var w := l.spoke.phase.watch[0];
    ObserveGrows(l.hub, p, w.tid, News(l.spoke, l.home.mirror, w).value, now);
    ReportAnswered(l, p, now, heard);
  }

  lemma ReportAnswered(l: Local, p: Principal, now: Time, heard: bool)
    requires CanReport(l) && MemberOk(l.hub, p.member, l.spoke)
    requires TransfersGrow(l.hub, AfterReport(l, p, now, heard).hub)
    ensures var l' := AfterReport(l, p, now, heard); MemberOk(l'.hub, p.member, l'.spoke)
  {
    var s, s', q := l.spoke, AfterReport(l, p, now, heard).spoke, l.spoke.phase.watch;
    var news := News(s, l.home.mirror, q[0]).value;
    var h' := Observe(l.hub, p, q[0].tid, news, now).hub;
    ObserveKeepsMapping(l.hub, p, q[0].tid, news, now);
    assert SpokeOk(h', p.member, s) by { SpokeFrame(l.hub, h', p.member, s); }
    assert WatchOk(h', p.member, q);
    WatchTailOk(h', p.member, q);
    ReportLive(l.hub, h', p.member, s, s');
    assert MappedOk(h', p.member, s.journal);
    assert PhaseOk(h', p.member, s');
  }

  lemma ReportLive(h: Hub, h': Hub, m: MemberId, s: Spoke, s': Spoke)
    requires s.phase.Watching? && s.phase.watch != [] && WatchLive(h, s) && WatchOk(h, m, s.phase.watch)
    requires forall u :: u in h.transfers && u != s.phase.watch[0].tid && Skipped(h', u) ==> Skipped(h, u)
    requires s'.phase == Watching(s.phase.watch[1..])
          || (s'.phase.Reported? && s'.phase.watch == s.phase.watch)
    ensures WatchLive(h', s')
  {
    var q := s.phase.watch;
    assert Ahead(s'.phase) == q[1..];
    forall i | 0 <= i < |q[1..]| && q[1..][i].role == Sender ensures !Skipped(h', q[1..][i].tid) {
      assert q[1..][i] == q[i + 1] == Ahead(s.phase)[i + 1] == WatchOf(s.phase)[i + 1];
      assert WatchOf(s.phase)[0] == q[0];
      assert WatchedOk(h, m, q[i + 1]);
    }
    forall i, j | 0 <= i < j < |WatchOf(s'.phase)| ensures WatchOf(s'.phase)[i].tid != WatchOf(s'.phase)[j].tid {
      if s'.phase.Watching? {
        assert WatchOf(s'.phase)[i] == WatchOf(s.phase)[i + 1] && WatchOf(s'.phase)[j] == WatchOf(s.phase)[j + 1];
      } else {
        assert WatchOf(s'.phase) == WatchOf(s.phase);
      }
    }
  }

  lemma ObserveKeepsMapping(h: Hub, p: Principal, t: Tid, s: Terminal, now: Time)
    ensures var r := Observe(h, p, t, s, now);
      && (forall u :: u in r.hub.transfers ==>
            (u in h.transfers && r.hub.transfers[u].dst == h.transfers[u].dst && r.hub.transfers[u].to == h.transfers[u].to))
      && (forall u :: u in h.transfers && u != t && Skipped(r.hub, u) ==> Skipped(h, u))
      && (r.result.Ok? ==> t in r.hub.transfers && r.hub.transfers[t].terminal.Some?)
  {
    ObserveIsDecide(h, p, t, s, now);
    if Party(h, p, t) && Decides(h, t, s) {
      DecideKeepsMapping(h, t, s, p.member, now);
    }
  }

  lemma DecideKeepsMapping(h: Hub, t: Tid, s: Terminal, reporter: MemberId, now: Time)
    requires t in h.transfers
    ensures var h' := QueueEcho(Decided(h, t, s, reporter), t, s, now);
      && (forall u :: u in h'.transfers ==>
            (u in h.transfers && h'.transfers[u].dst == h.transfers[u].dst && h'.transfers[u].to == h.transfers[u].to))
      && (forall u :: u in h.transfers && u != t && Skipped(h', u) ==> Skipped(h, u))
      && h'.transfers[t].terminal.Some?
  {
  }

  /** A copy whose retag is verified is done, carries the delegated tag, no trigger but that, and every other tag it showed. */
  lemma RetagMarks(l: Local, kept: set<string>, u: Uuid, tag: string)
    requires CanRetag(l, true, true, kept) && u == l.spoke.phase.watch[0].uuid
    ensures var todos := AfterRetag(l, true, true, kept).home.todos;
      && u in todos && todos[u].status == Ended(Completed) && DELEGATED_TAG in todos[u].tags
      && (tag in l.spoke.triggers ==> !Candidate(todos, u, tag) && (tag in todos[u].tags <==> tag == DELEGATED_TAG))
      && (tag !in l.spoke.triggers && tag != DELEGATED_TAG ==> (tag in todos[u].tags <==> tag in l.home.mirror[u].tags))
      && forall v :: v in l.home.todos && v != u ==> v in todos && todos[v] == l.home.todos[v]
  {
  }

  lemma RetagKeeps(l: Local, m: MemberId, landed: bool, verified: bool, kept: set<string>)
    requires CanRetag(l, landed, verified, kept) && MemberOk(l.hub, m, l.spoke)
    ensures MemberOk(l.hub, m, AfterRetag(l, landed, verified, kept).spoke)
  {
    WatchTailOk(l.hub, m, l.spoke.phase.watch);
    WatchTailLive(l.hub, l.spoke, AfterRetag(l, landed, verified, kept).spoke);
    assert WatchedOk(l.hub, m, l.spoke.phase.watch[0]);
    Rephase(l.hub, m, l.spoke, AfterRetag(l, landed, verified, kept).spoke);
  }

  /** Every action keeps the acting spoke's invariant. */
  lemma OwnStep(l: Local, p: Principal, a: Action)
    requires Enabled(l, p, a) && HubInv(l.hub) && MemberOk(l.hub, p.member, l.spoke)
    ensures MemberOk(Act(l, p, a).hub, p.member, Act(l, p, a).spoke)
  {
    match a
    case Send(src, tag, id, now, heard) => SendKeeps(l, p, src, tag, id, now, heard);
    case MarkSent => MarkSentKeeps(l, p.member);
    case Poll(order, seconds, now, heard) => PollKeeps(l, p, order, seconds, now, heard);
    case Intend(since, firedAt) => IntendKeeps(l, p.member, since, firedAt);
    case Fire(uuid, created) => FireKeeps(l, p.member, uuid, created);
    case Fail => FailKeeps(l, p.member);
    case Resume => ResumeKeeps(l, p.member);
    case Find(found) => FindKeeps(l, p.member, found);
    case AckHead(now, heard) => AckKeeps(l, p, now, heard);
    case WriteTerminal(landed, verified) => WriteKeeps(l, p.member, landed, verified);
    case NackHead(arrives) => NackKeeps(l, p, arrives);
    case Watch(q) => WatchKeeps(l, p, q);
    case Pass => PassKeeps(l, p.member);
    case Report(now, heard) => ReportKeeps(l, p, now, heard);
    case MarkReported => MarkReportedKeeps(l, p.member);
    case Retag(landed, verified, kept) => RetagKeeps(l, p.member, landed, verified, kept);
    case MarkRetagged => MarkRetaggedKeeps(l, p.member);
    case Finish => Rephase(l.hub, p.member, l.spoke, AfterRest(l).spoke);
    case Crash => Rephase(l.hub, p.member, l.spoke, AfterRest(l).spoke);
  }
}
