/**
 * What each action of a tick does to the ledger, the account and the tables, stated over their own
 * fields: what is pushed, written, claimed, acked, reported and retagged, and for which transfer.
 */
module TickLaws {
  import opened Basics
  import opened HubSpec
  import opened HubInvariant
  import opened HubHistory
  import HubAnswers
  import HubLaws
  import LeaseLaws
  import opened SpokeSpec
  import opened SpokeInvariant
  import opened SpokeSteps
  import opened SentCache
  import opened System
  import TickPaths

  /** One action of a member's tick, in any state a run of the system can be in. */
  ghost predicate Acted(l: Local, p: Principal, a: Action, l': Local) {
    && HubInv(l.hub) && Authentic(l.hub, p) && MemberOk(l.hub, p.member, l.spoke)
    && Enabled(l, p, a) && l' == Act(l, p, a)
  }

  /** Every action of every run is one. */
  lemma RunActs(ws: seq<World>, ls: seq<Label>, i: nat)
    requires Behaviour(ws, ls) && i < |ls| && ls[i].Tick?
    ensures var m := ls[i].p.member;
      && m in ws[i].spokes && m in ws[i].homes && m in ws[i + 1].spokes && m in ws[i + 1].homes
      && Acted(LocalOf(ws[i], m), ls[i].p, ls[i].a, LocalOf(ws[i + 1], m))
  {
    RunOk(ws, ls, i);
  }

  // ----- outbound -----

  /** What the reader must show of a todo for it to be pushed. */
  predicate Pushable(todo: Todo) {
    !todo.trashed && todo.status == Open && todo.kind == 0 && !todo.repeating && todo.checklist <= 100
  }

  /**
   * A push is of a todo that shows as open, untrashed, not repeating and not too long, under one of
   * its own trigger tags, and not known to be sent; a transfer it makes goes to the member whose
   * handle the tag triggers, with the todo's title, as its first revision. Nothing is written.
   */
  lemma SendsWhatIsTagged(l: Local, p: Principal, a: Action, l': Local, t: Tid)
    requires Acted(l, p, a, l') && a.Send?
    ensures a.src in l.home.mirror && Pushable(l.home.mirror[a.src]) && a.src !in l.spoke.sent
    ensures a.tag in l.home.mirror[a.src].tags && a.tag in l.spoke.triggers
    ensures t in l'.hub.transfers && t !in l.hub.transfers ==>
      var tr := l'.hub.transfers[t];
      && tr.from == p.member && tr.src == a.src && tr.rev == 1 && tr.payload.title == l.home.mirror[a.src].title
      && tr.to in l.hub.roster.members && l.hub.roster.members[tr.to].handle == l.spoke.triggers[a.tag]
      && l.hub.roster.members[tr.to].tenant == p.tenant
    ensures l'.home == l.home && l'.spoke.sent == l.spoke.sent
  {
    var c := CallPush(p, l.spoke.triggers[a.tag], a.src, Payload(l.home.mirror[a.src].title), 1, a.id, a.now);
    if t in l'.hub.transfers && t !in l.hub.transfers { HubLaws.TransferIsAsPushed(l.hub, c, l'.hub, t); }
  }

  /** Every handle the todo is tagged for is somebody else's in the tenant, who may receive. */
  ghost predicate Reachable(l: Local, p: Principal, todo: Todo) {
    forall tag :: tag in todo.tags && tag in l.spoke.triggers ==>
      exists m :: HubAnswers.Addressee(l.hub, p, l.spoke.triggers[tag], m) && l.hub.roster.members[m].canReceive
  }

  /** A member who may send has a trigger tag on this todo, which shows as one to be pushed. */
  ghost predicate ToPush(l: Local, p: Principal, u: Uuid) {
    && p.canSend && u != "" && u in l.home.mirror
    && Pushable(l.home.mirror[u]) && l.home.mirror[u].title != "" && Reachable(l, p, l.home.mirror[u])
    && exists tag :: tag in l.home.mirror[u].tags && tag in l.spoke.triggers
  }

  lemma OfferedInPass(l: Local, cs: seq<Outgoing>, u: Uuid) returns (c: Outgoing)
    requires IsPass(l.spoke.triggers, l.home.mirror, {}, cs) && u in l.home.mirror && Pushable(l.home.mirror[u])
    requires exists tag :: tag in l.home.mirror[u].tags && tag in l.spoke.triggers
    ensures c in cs && c.src == u && IsOutgoing(l.spoke.triggers, l.home.mirror, c)
  {
    var tag :| tag in l.home.mirror[u].tags && tag in l.spoke.triggers;
    assert Candidate(l.home.mirror, u, tag);
    assert u in Srcs(cs);
    c :| c in cs && c.src == u;
  }

  // ----- inbound -----

  /** The head of the entries in hand is the create of this transfer, addressed to the member. */
  predicate AtCreate(l: Local, p: Principal, t: Tid) {
    var ph := l.spoke.phase;
    && (ph.Inbox? || ph.Firing? || ph.Correlating? || ph.Closed? || ph.Failed?) && ph.queue != []
    && ph.queue[0].key == DKey(t, Create, p.member) && t in l.hub.transfers && l.hub.transfers[t].to == p.member
    && l.hub.transfers[t].from in l.hub.roster.members
  }

  lemma HeadCreateOf(l: Local, p: Principal, a: Action) returns (t: Tid)
    requires Enabled(l, p, a) && PhaseOk(l.hub, p.member, l.spoke) && (a.Intend? || a.Fire? || a.Resume? || a.Find?)
    ensures AtCreate(l, p, t) && l.spoke.phase.queue[0].CreateEntry?
    ensures l.spoke.phase.queue[0].payload.title == l.hub.transfers[t].payload.title
    ensures l.spoke.phase.queue[0].provenance == "from-" + l.hub.roster.members[l.hub.transfers[t].from].handle
  {
    var e := l.spoke.phase.queue[0];
    assert EntryOk(l.hub, p.member, e);
    t := e.key.tid;
  }

  /**
   * The intent is journaled before the write and only once: title and provenance are those of the
   * transfer. Neither the ledger nor the account moves.
   */
  lemma IntentIsOfTransfer(l: Local, p: Principal, a: Action, l': Local) returns (t: Tid)
    requires Acted(l, p, a, l') && a.Intend?
    ensures AtCreate(l, p, t) && DKey(t, Create, p.member) !in l.spoke.journal
    ensures l'.spoke.journal == l.spoke.journal[DKey(t, Create, p.member) :=
      Intent(l.hub.transfers[t].payload.title, "from-" + l.hub.roster.members[l.hub.transfers[t].from].handle, a.firedAt, None)]
    ensures l'.hub == l.hub && l'.home == l.home && l'.spoke.fired == l.spoke.fired
  {
    t := HeadCreateOf(l, p, a);
  }

  /**
   * The write makes one new todo, open, under the transfer's title and tagged with who sent it, for a
   * create that is journaled, was not written before, and has no copy claimed. Nothing else changes.
   */
  lemma WritesTheTransfer(l: Local, p: Principal, a: Action, l': Local) returns (t: Tid)
    requires Acted(l, p, a, l') && a.Fire?
    ensures AtCreate(l, p, t) && JournaledAs(l.spoke.journal, DKey(t, Create, p.member), None)
    ensures DKey(t, Create, p.member) !in l.spoke.fired && l'.spoke.fired == l.spoke.fired + [DKey(t, Create, p.member)]
    ensures a.uuid !in l.home.todos && a.uuid != ""
    ensures l'.home.todos == l.home.todos[a.uuid :=
      Todo(l.hub.transfers[t].payload.title, {"from-" + l.hub.roster.members[l.hub.transfers[t].from].handle},
           Open, false, a.created, false, 0, 0)]
    ensures l'.hub == l.hub && l'.home.mirror == l.home.mirror && l'.spoke.journal == l.spoke.journal
  {
    t := HeadCreateOf(l, p, a);
  }

  /** A journaled create is not written again: it is searched for since it was journaled, or its claimed uuid acked again. */
  lemma ResumesWithoutWriting(l: Local, p: Principal, a: Action, l': Local) returns (t: Tid)
    requires Acted(l, p, a, l') && a.Resume?
    ensures AtCreate(l, p, t) && DKey(t, Create, p.member) in l.spoke.journal
    ensures var row, q := l.spoke.journal[DKey(t, Create, p.member)], l.spoke.phase.queue;
      l'.spoke.phase == if row.dst.None? then Correlating(q, row.firedAt) else Closed(q, row.dst.value)
    ensures l'.hub == l.hub && l'.home == l.home && l'.spoke.fired == l.spoke.fired && l'.spoke.journal == l.spoke.journal
  {
    t := HeadCreateOf(l, p, a);
  }

  /** A todo the mirror shows that may be the copy searched for: its title and tag, not trashed, no older than two minutes before, claimed by no row. */
  predicate MayBe(l: Local, u: Uuid, title: string, sender: string, since: Time) {
    && u in l.home.mirror
    && var todo := l.home.mirror[u];
       && todo.title == title && ("from-" + sender) in todo.tags && !todo.trashed && todo.created >= since - 120.0
       && forall k :: k in l.spoke.journal ==> l.spoke.journal[k].dst != Some(u)
  }

  /** The row claims, of the todos that may be its copy, one that is no newer than any other. */
  lemma ClaimsTheEarliest(l: Local, p: Principal, a: Action, l': Local) returns (t: Tid)
    requires Acted(l, p, a, l') && a.Find?
    ensures AtCreate(l, p, t) && DKey(t, Create, p.member) in l.spoke.journal && l.spoke.phase.Correlating?
    ensures var title, sender := l.hub.transfers[t].payload.title, l.hub.roster.members[l.hub.transfers[t].from].handle;
      && MayBe(l, a.found, title, sender, l.spoke.phase.since)
      && forall u :: MayBe(l, u, title, sender, l.spoke.phase.since) ==> l.home.mirror[a.found].created <= l.home.mirror[u].created
    ensures l'.spoke.journal == l.spoke.journal[DKey(t, Create, p.member) :=
      l.spoke.journal[DKey(t, Create, p.member)].(dst := Some(a.found))]
    ensures l'.hub == l.hub && l'.home == l.home && l'.spoke.fired == l.spoke.fired
  {
    t := HeadCreateOf(l, p, a);
    var title, sender, since := l.hub.transfers[t].payload.title, l.hub.roster.members[l.hub.transfers[t].from].handle, l.spoke.phase.since;
    forall u ensures MayBe(l, u, title, sender, since)
      <==> Matches(l.home.mirror, u, title, since - CLOCK_SKEW, ProvenanceTag(sender), JournaledDsts(l.spoke.journal))
    {
      MayBeMatches(l, u, title, sender, since);
    }
  }

  lemma MayBeMatches(l: Local, u: Uuid, title: string, sender: string, since: Time)
    ensures MayBe(l, u, title, sender, since)
       <==> Matches(l.home.mirror, u, title, since - CLOCK_SKEW, ProvenanceTag(sender), JournaledDsts(l.spoke.journal))
  {
    if u in JournaledDsts(l.spoke.journal) {
      var k :| k in l.spoke.journal && l.spoke.journal[k].dst == Some(u);
    }
  }

  /**
   * The ack of a create carries the uuid its row claims: if the row of the delivery is unfinished, the
   * transfer is mapped to that uuid, and whatever else it had stays; the spoke goes on only if it was
   * answered.
   */
  lemma AcksTheClaim(l: Local, p: Principal, a: Action, l': Local) returns (t: Tid)
    requires Acted(l, p, a, l') && a.AckHead? && l.spoke.phase.Closed?
    ensures AtCreate(l, p, t) && DKey(t, Create, p.member) in l.spoke.journal && l.spoke.journal[DKey(t, Create, p.member)].dst.Some?
    ensures t in l'.hub.transfers
    ensures HubAnswers.UnfinishedRow(l.hub, DKey(t, Create, p.member)) ==>
      l'.hub.transfers[t].dst == l.spoke.journal[DKey(t, Create, p.member)].dst
    ensures l'.spoke.phase == Inbox(l.spoke.phase.queue[1..]) || l'.spoke.phase == Failed(l.spoke.phase.queue)
    ensures l'.spoke.phase.Inbox? ==>
      && a.heard && DKey(t, Create, p.member) in l'.hub.deliveries
      && l'.hub.deliveries[DKey(t, Create, p.member)].progress == Done
    ensures l'.home == l.home && l'.spoke.journal == l.spoke.journal
  {
    t := ClosedAtCreate(l, p);
    AcksAs(l, p, a.now, a.heard, t);
  }

  lemma AcksAs(l: Local, p: Principal, now: Time, heard: bool, t: Tid)
    requires HubInv(l.hub) && Authentic(l.hub, p) && l.spoke.phase.Closed? && AtCreate(l, p, t) && l.spoke.phase.dst != ""
    ensures var k, l', q := DKey(t, Create, p.member), AfterAckHead(l, p, now, heard), l.spoke.phase.queue;
      && t in l'.hub.transfers
      && (HubAnswers.UnfinishedRow(l.hub, k) ==> l'.hub.transfers[t].dst == Some(l.spoke.phase.dst))
      && (l'.spoke.phase == Inbox(q[1..]) || l'.spoke.phase == Failed(q))
      && (l'.spoke.phase.Inbox? ==> heard && k in l'.hub.deliveries && l'.hub.deliveries[k].progress == Done)
      && l'.home == l.home && l'.spoke.journal == l.spoke.journal
  {
    AckIsCall(l, p, now, heard);
    AckedAsClaimed(l.hub, CallAck(p, DKey(t, Create, p.member), l.spoke.phase.dst, now), AfterAckHead(l, p, now, heard).hub, t);
  }

  lemma ClosedAtCreate(l: Local, p: Principal) returns (t: Tid)
    requires l.spoke.phase.Closed? && PhaseOk(l.hub, p.member, l.spoke)
    ensures AtCreate(l, p, t) && l.spoke.phase.dst != ""
    ensures JournaledAs(l.spoke.journal, DKey(t, Create, p.member), Some(l.spoke.phase.dst))
  {
    assert EntryOk(l.hub, p.member, l.spoke.phase.queue[0]);
    t := l.spoke.phase.queue[0].key.tid;
  }

  lemma AckIsCall(l: Local, p: Principal, now: Time, heard: bool)
    requires CanAck(l.spoke) && l.spoke.phase.Closed?
    ensures var l', q := AfterAckHead(l, p, now, heard), l.spoke.phase.queue;
      var r := Ack(l.hub, p, q[0].key, l.spoke.phase.dst, now);
      && l'.hub == r.hub && l'.home == l.home && l'.spoke.journal == l.spoke.journal
      && l'.spoke.phase == if heard && r.result.Ok? then Inbox(q[1..]) else Failed(q)
  {
  }

  lemma AckedAsClaimed(h: Hub, c: Call, h': Hub, t: Tid)
    requires HubLaws.Called(h, c, h') && t in h.transfers && h.transfers[t].to == c.p.member
    requires c.CallAck? && c.key == DKey(t, Create, c.p.member) && c.dst != ""
    ensures t in h'.transfers && c.key in h'.deliveries && h'.deliveries[c.key].progress == Done
    ensures HubAnswers.UnfinishedRow(h, c.key) ==> h'.transfers[t].dst == Some(c.dst)
  {
    assert TransferOk(h, t);
    HubLaws.MappedByAck(h, c, h', t);
    HubAnswers.AckIsAnswered(h, c.p, c.key, c.dst, c.now);
    DoKeepsInv(h, c);
    assert TransferOk(h', t);
  }

  /** The member's own copy of a transfer: what they delegated, or what they received. */
  predicate IsOwn(tr: Transfer, m: MemberId, u: Uuid) {
    if m == tr.from then u == tr.src else m == tr.to && tr.dst == Some(u)
  }

  /** An echo completes the member's own copy of its transfer, if the write lands, and nothing else; only verified does it go on to its ack. */
  lemma CompletesOwnCopy(l: Local, p: Principal, a: Action, l': Local) returns (t: Tid, u: Uuid)
    requires Acted(l, p, a, l') && a.WriteTerminal?
    ensures t in l.hub.transfers && IsOwn(l.hub.transfers[t], p.member, u)
    ensures a.landed ==>
      u in l.home.todos && l'.home.todos == l.home.todos[u := l.home.todos[u].(status := Ended(Completed))]
    ensures !a.landed ==> l'.home.todos == l.home.todos
    ensures l'.spoke.phase.Echoed? <==> a.verified
    ensures l'.hub == l.hub && l'.home.mirror == l.home.mirror
  {
    var e := l.spoke.phase.queue[0];
    assert EntryOk(l.hub, p.member, e);
    t, u := e.key.tid, e.uuid;
  }

  /** A poll leases at most ten rows, and the spoke holds what it was told, if it heard. */
  lemma PollsTen(l: Local, p: Principal, a: Action, l': Local)
    requires Acted(l, p, a, l') && a.Poll?
    ensures |LeaseLaws.AllTaken(l.hub, l'.hub)| <= 10
    ensures l'.spoke.phase.Inbox? <==> a.heard && p.canReceive
    ensures l'.spoke.phase.Inbox? ==>
      && |l'.spoke.phase.queue| == |LeaseLaws.AllTaken(l.hub, l'.hub)|
      && forall e :: e in l'.spoke.phase.queue ==> LeaseLaws.SaysSo(l.hub, l'.hub, p.member, e)
  {
    var c := CallLease(p, a.order, POLL_LIMIT, a.seconds, a.now);
    LeaseLaws.LeaseTakes(l.hub, c, l'.hub);
    LeaseLaws.LeaseIsAnswered(l.hub, p, a.order, POLL_LIMIT, a.seconds, a.now);
  }

  /** An entry that failed is given back, if the request arrives, and the spoke goes on to the next. */
  lemma GivesBack(l: Local, p: Principal, a: Action, l': Local)
    requires Acted(l, p, a, l') && a.NackHead?
    ensures l.spoke.phase.Failed? && l.spoke.phase.queue != [] && l'.spoke.phase == Inbox(l.spoke.phase.queue[1..])
    ensures var k := l.spoke.phase.queue[0].key;
      a.arrives && HubAnswers.UnfinishedRow(l.hub, k) ==> k in l'.hub.deliveries && l'.hub.deliveries[k].progress == Queued
    ensures l'.home == l.home && l'.spoke.journal == l.spoke.journal
  {
    assert EntryOk(l.hub, p.member, l.spoke.phase.queue[0]);
  }

  // ----- observe and retag -----

  /** What a todo shows that a human has ended: trashed or canceled reads as canceled, completed and not trashed as completed. */
  predicate Shown(todo: Todo, s: Terminal) {
    match s
    case Canceled => todo.trashed || todo.status == Ended(Canceled)
    case Completed => !todo.trashed && todo.status == Ended(Completed)
  }

  /** The watch entry at hand. */
  predicate AtEntry(l: Local, w: Watched) {
    l.spoke.phase.Watching? && l.spoke.phase.watch != [] && l.spoke.phase.watch[0] == w
  }

  /** The entry is to be reported in this state: its todo shows it, it was not reported so before, and it is not the sender's own retag. */
  predicate ToReport(l: Local, w: Watched, s: Terminal) {
    && !(w.role == Sender && w.tid in l.spoke.retagged)
    && w.uuid in l.home.mirror && Shown(l.home.mirror[w.uuid], s)
    && !(w.tid in l.spoke.observed && l.spoke.observed[w.tid] == s)
  }

  /** The entry is to be retagged: the sender's, applied, not marked, and its todo shows nothing to report. */
  predicate ToRetag(l: Local, w: Watched) {
    && w.role == Sender && w.applied && w.tid !in l.spoke.retagged && w.uuid in l.home.mirror
    && forall s :: !ToReport(l, w, s)
  }

  lemma ReadsAsShown(l: Local, w: Watched)
    ensures forall s :: ToReport(l, w, s) <==> News(l.spoke, l.home.mirror, w) == Some(s)
    ensures ToRetag(l, w) <==> WantsRetag(l.spoke, l.home.mirror, w)
  {
    if News(l.spoke, l.home.mirror, w).Some? { assert ToReport(l, w, News(l.spoke, l.home.mirror, w).value); }
  }

  /**
   * What is done with a watch entry: it can be reported exactly when there is something to report, and
   * retagged exactly when it is to be; without a fault it is passed over only when neither.
   */
  lemma LooksExactlyWhen(l: Local, p: Principal, w: Watched, now: Time, heard: bool)
    requires AtEntry(l, w)
    ensures Enabled(l, p, Report(now, heard)) <==> exists s :: ToReport(l, w, s)
    ensures Enabled(l, p, Retag(false, false, {})) <==> ToRetag(l, w)
    ensures TickPaths.Smooth(l, Pass) <==> !ToRetag(l, w) && forall s :: !ToReport(l, w, s)
  {
    ReadsAsShown(l, w);
    if News(l.spoke, l.home.mirror, w).Some? { assert ToReport(l, w, News(l.spoke, l.home.mirror, w).value); }
  }

  /**
   * What is reported: the state the todo shows. If nobody has reported the transfer, that is its
   * terminal state from then on, under the member's name; and what the spoke remembers, if it heard.
   */
  lemma ReportsWhatIsShown(l: Local, p: Principal, a: Action, l': Local, w: Watched, s: Terminal)
    requires Acted(l, p, a, l') && a.Report? && AtEntry(l, w) && w.uuid in l.home.mirror && Shown(l.home.mirror[w.uuid], s)
    ensures w.tid in l.hub.transfers && w.tid in l'.hub.transfers && IsOwn(l.hub.transfers[w.tid], p.member, w.uuid)
    ensures l.hub.transfers[w.tid].terminal.None? ==>
      l'.hub.transfers[w.tid].terminal == Some(s) && l'.hub.transfers[w.tid].terminalBy == Some(p.member)
    ensures l'.spoke.phase == if a.heard then Reported(l.spoke.phase.watch, s) else Watching(l.spoke.phase.watch[1..])
    ensures l'.home == l.home && l'.spoke.observed == l.spoke.observed
  {
    assert WatchedOk(l.hub, p.member, w);
    ReportsAs(l, p, a.now, a.heard, w, s);
  }

  lemma ReportsAs(l: Local, p: Principal, now: Time, heard: bool, w: Watched, s: Terminal)
    requires HubInv(l.hub) && Authentic(l.hub, p) && CanReport(l) && AtEntry(l, w) && WatchedOk(l.hub, p.member, w)
    requires Shown(l.home.mirror[w.uuid], s)
    ensures var l' := AfterReport(l, p, now, heard);
      && w.tid in l'.hub.transfers
      && (l.hub.transfers[w.tid].terminal.None? ==>
            l'.hub.transfers[w.tid].terminal == Some(s) && l'.hub.transfers[w.tid].terminalBy == Some(p.member))
      && l'.spoke.phase == (if heard then Reported(l.spoke.phase.watch, s) else Watching(l.spoke.phase.watch[1..]))
      && l'.home == l.home && l'.spoke.observed == l.spoke.observed
  {
    OneShown(l.home.mirror[w.uuid], s, News(l.spoke, l.home.mirror, w).value);
    assert TransferOk(l.hub, w.tid);
    ReportIsCall(l, p, now, heard, w, s);
    ReportDecides(l.hub, CallObserve(p, w.tid, s, now), AfterReport(l, p, now, heard).hub);
  }

  lemma ReportDecides(h: Hub, c: Call, h': Hub)
    requires HubLaws.Called(h, c, h') && c.CallObserve? && c.t in h.transfers && HubLaws.IsParty(h.transfers[c.t], c.p)
    ensures c.t in h'.transfers && Observe(h, c.p, c.t, c.s, c.now).result.Ok?
    ensures h.transfers[c.t].terminal.None? ==>
      h'.transfers[c.t].terminal == Some(c.s) && h'.transfers[c.t].terminalBy == Some(c.p.member)
  {
    HubLaws.DecidedByReporter(h, c, h', c.t);
    HubAnswers.ObserveIsAnswered(h, c.p, c.t, c.s, c.now);
  }

  lemma ReportIsCall(l: Local, p: Principal, now: Time, heard: bool, w: Watched, s: Terminal)
    requires CanReport(l) && AtEntry(l, w) && News(l.spoke, l.home.mirror, w) == Some(s)
    ensures var l', r := AfterReport(l, p, now, heard), Observe(l.hub, p, w.tid, s, now);
      && l'.hub == r.hub && l'.home == l.home && l'.spoke.observed == l.spoke.observed
      && l'.spoke.phase == if heard && r.result.Ok? then Reported(l.spoke.phase.watch, s) else Watching(l.spoke.phase.watch[1..])
  {
  }

  lemma OneShown(todo: Todo, s: Terminal, other: Terminal)
    requires Shown(todo, s) && TerminalOf(todo) == Some(other)
    ensures s == other
  {
  }

  /** An entry at hand with something to report is so reported. */
  lemma ReportIsShown(l: Local, p: Principal, a: Action) returns (w: Watched, s: Terminal)
    requires Enabled(l, p, a) && a.Report?
    ensures AtEntry(l, w) && ToReport(l, w, s)
  {
    w := l.spoke.phase.watch[0];
    LooksExactlyWhen(l, p, w, a.now, a.heard);
    s :| ToReport(l, w, s);
  }

  /**
   * Over every run: a report makes the transfer, if nobody has reported it, canceled when the mirror
   * shows the member's own copy as trashed or canceled, and completed when it shows it as completed.
   */
  lemma ReportsSayWhatShows(ws: seq<World>, ls: seq<Label>, i: nat) returns (w: Watched)
    requires Behaviour(ws, ls) && i < |ls| && ls[i].Tick? && ls[i].a.Report?
    ensures var m := ls[i].p.member;
      && m in ws[i].spokes && m in ws[i].homes && AtEntry(LocalOf(ws[i], m), w) && w.uuid in ws[i].homes[m].mirror
      && w.tid in ws[i].hub.transfers && w.tid in ws[i + 1].hub.transfers
      && IsOwn(ws[i].hub.transfers[w.tid], m, w.uuid)
    ensures ws[i].hub.transfers[w.tid].terminal.None? ==>
      var seen, tr' := ws[i].homes[ls[i].p.member].mirror[w.uuid], ws[i + 1].hub.transfers[w.tid];
      && (tr'.terminal == Some(Canceled) <==> seen.trashed || seen.status == Ended(Canceled))
      && (tr'.terminal == Some(Completed) <==> !seen.trashed && seen.status == Ended(Completed))
      && tr'.terminal.Some? && tr'.terminalBy == Some(ls[i].p.member)
  {
    RunActs(ws, ls, i);
    w := ReportSays(LocalOf(ws[i], ls[i].p.member), ls[i].p, ls[i].a, LocalOf(ws[i + 1], ls[i].p.member));
  }

  lemma ReportSays(l: Local, p: Principal, a: Action, l': Local) returns (w: Watched)
    requires Acted(l, p, a, l') && a.Report?
    ensures AtEntry(l, w) && w.uuid in l.home.mirror
    ensures w.tid in l.hub.transfers && w.tid in l'.hub.transfers && IsOwn(l.hub.transfers[w.tid], p.member, w.uuid)
    ensures l.hub.transfers[w.tid].terminal.None? ==>
      var seen, tr' := l.home.mirror[w.uuid], l'.hub.transfers[w.tid];
      && (tr'.terminal == Some(Canceled) <==> seen.trashed || seen.status == Ended(Canceled))
      && (tr'.terminal == Some(Completed) <==> !seen.trashed && seen.status == Ended(Completed))
      && tr'.terminal.Some? && tr'.terminalBy == Some(p.member)
  {
    var s;
    w, s := ReportIsShown(l, p, a);
    ReportsWhatIsShown(l, p, a, l', w, s);
    ShownIs(l.home.mirror[w.uuid], s);
  }

  lemma ShownIs(todo: Todo, s: Terminal)
    requires Shown(todo, s)
    ensures s == Canceled <==> todo.trashed || todo.status == Ended(Canceled)
    ensures s == Completed <==> !todo.trashed && todo.status == Ended(Completed)
  {
  }

  /** The report is remembered once it was answered, as it was made. */
  lemma RemembersTheReport(l: Local, p: Principal, a: Action, l': Local)
    requires Acted(l, p, a, l') && a.MarkReported?
    ensures l.spoke.phase.Reported? && l.spoke.phase.watch != []
    ensures l'.spoke.observed == l.spoke.observed[l.spoke.phase.watch[0].tid := l.spoke.phase.state]
    ensures l'.hub == l.hub && l'.home == l.home && l'.spoke.phase == Watching(l.spoke.phase.watch[1..])
  {
  }

  /**
   * A retag is of the sender's own copy of an applied transfer that is not marked. If it lands, that
   * todo alone changes: completed, with the tags it showed except the triggers, and the delegated tag,
   * as far as the account knows them; and only if all of them is it verified, to be marked.
   */
  lemma RetagsTheHandedOver(l: Local, p: Principal, a: Action, l': Local, w: Watched)
    requires Acted(l, p, a, l') && a.Retag? && AtEntry(l, w)
    ensures ToRetag(l, w) && w.tid in l.hub.transfers
    ensures var tr := l.hub.transfers[w.tid]; tr.from == p.member && tr.src == w.uuid && tr.dst.Some?
    ensures var wanted := (set tag | tag in l.home.mirror[w.uuid].tags && tag !in l.spoke.triggers) + {"\U{1F449} delegated"};
      a.kept <= wanted && (a.verified ==> a.landed && a.kept == wanted)
    ensures a.landed ==>
      w.uuid in l.home.todos
      && l'.home.todos == l.home.todos[w.uuid := l.home.todos[w.uuid].(tags := a.kept, status := Ended(Completed))]
    ensures !a.landed ==> l'.home.todos == l.home.todos
    ensures l'.spoke.phase == if a.verified then Retagged(l.spoke.phase.watch) else Watching(l.spoke.phase.watch[1..])
    ensures l'.hub == l.hub && l'.spoke.retagged == l.spoke.retagged
  {
    ReadsAsShown(l, w);
    assert WatchedOk(l.hub, p.member, w);
  }

  /** Marking follows a verified retag, and marks that transfer. */
  lemma MarksTheRetagged(l: Local, p: Principal, a: Action, l': Local)
    requires Acted(l, p, a, l') && l'.spoke.retagged != l.spoke.retagged
    ensures a.MarkRetagged? && l.spoke.phase.Retagged? && l.spoke.phase.watch != []
    ensures l'.spoke.retagged == l.spoke.retagged + {l.spoke.phase.watch[0].tid}
  {
  }

  // ----- a whole watchlist, without faults -----

  /** The entry was reported or retagged if it had to be when the watchlist was fetched. */
  ghost predicate Handled(was: Local, l: Local, w: Watched) {
    && (forall s :: ToReport(was, w, s) ==>
          && w.tid in l.hub.transfers && l.hub.transfers[w.tid].terminal == Some(s)
          && w.tid in l.spoke.observed && l.spoke.observed[w.tid] == s)
    && (ToRetag(was, w) && w.uuid in was.home.todos ==>
          && w.tid in l.spoke.retagged && w.uuid in l.home.todos && l.home.todos[w.uuid].status == Ended(Completed))
  }

  /** As far as this entry goes, nothing has happened since the watchlist was fetched. */
  ghost predicate Untried(was: Local, l: Local, w: Watched) {
    && l.home.mirror == was.home.mirror
    && (w.tid in l.spoke.retagged <==> w.tid in was.spoke.retagged)
    && (w.tid in l.spoke.observed <==> w.tid in was.spoke.observed)
    && (w.tid in was.spoke.observed ==> l.spoke.observed[w.tid] == was.spoke.observed[w.tid])
    && w.tid in was.hub.transfers && w.tid in l.hub.transfers && l.hub.transfers[w.tid] == was.hub.transfers[w.tid]
    && (w.uuid in was.home.todos ==> w.uuid in l.home.todos)
  }

  /** Looking at one entry leaves the others' transfers and marks alone, and takes nothing back. */
  ghost predicate OthersUntried(l: Local, l': Local, w: Watched) {
    && l'.home.mirror == l.home.mirror
    && (forall t :: t != w.tid ==> (t in l'.spoke.retagged <==> t in l.spoke.retagged))
    && (forall t :: t != w.tid ==> (t in l'.spoke.observed <==> t in l.spoke.observed))
    && (forall t :: t != w.tid && t in l.spoke.observed ==> l'.spoke.observed[t] == l.spoke.observed[t])
    && (forall t :: t != w.tid && t in l.hub.transfers ==> t in l'.hub.transfers && l'.hub.transfers[t] == l.hub.transfers[t])
    && (forall u :: u in l.home.todos ==>
          u in l'.home.todos && (l.home.todos[u].status == Ended(Completed) ==> l'.home.todos[u].status == Ended(Completed)))
  }

  ghost predicate HandledTo(was: Local, l: Local, q: seq<Watched>, i: nat) {
    && i <= |q|
    && (forall j :: 0 <= j < i ==> Handled(was, l, q[j]))
    && (forall j :: i <= j < |q| ==> Untried(was, l, q[j]))
  }

  lemma OneMoreHandled(was: Local, l: Local, l': Local, q: seq<Watched>, i: nat)
    requires HandledTo(was, l, q, i) && i < |q| && forall j, k :: 0 <= j < k < |q| ==> q[j].tid != q[k].tid
    requires OthersUntried(l, l', q[i]) && Handled(l, l', q[i])
    ensures HandledTo(was, l', q, i + 1)
  {
    forall j | 0 <= j < i ensures Handled(was, l', q[j]) {
      assert Handled(was, l, q[j]) && q[j].tid != q[i].tid;
    }
    forall j | i < j < |q| ensures Untried(was, l', q[j]) {
      assert Untried(was, l, q[j]) && q[j].tid != q[i].tid;
    }
    StillToDo(was, l, q[i]);
  }

  lemma StillToDo(was: Local, l: Local, w: Watched)
    requires Untried(was, l, w)
    ensures forall s :: ToReport(l, w, s) <==> ToReport(was, w, s)
    ensures ToRetag(l, w) <==> ToRetag(was, w)
  {
  }
}
