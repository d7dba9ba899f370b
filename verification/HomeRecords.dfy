/** Copies finished once: the recipient's copy is in the state the hub recorded. */
module HomeRecords {
  import opened Basics
  import opened HubSpec
  import opened HubInvariant
  import opened HubHistory
  import opened SpokeSpec
  import opened SpokeInvariant
  import opened SpokeSteps
  import opened Matching
  import opened System
  import opened HomeInvariant
  import opened HomeAccount
  import opened HomeKept
  import opened HomeCareful
  import opened CarefulRuns

  // ----- the ledger moves -----

  /** No report of the member's has been recorded meanwhile. */
  ghost predicate SameRecords(h: Hub, h': Hub, m: MemberId) {
    forall t :: t in h'.transfers && h'.transfers[t].to == m && h'.transfers[t].terminal.Some? ==>
      && t in h.transfers && h.transfers[t].to == m
      && h.transfers[t].terminal == h'.transfers[t].terminal && h.transfers[t].dst == h'.transfers[t].dst
  }

  lemma RecordFrame(h: Hub, h': Hub, m: MemberId, home: Home)
    requires RecipientsOk(h, m, home) && SameRecords(h, h', m)
    ensures RecipientsOk(h', m, home)
  {
    forall t | t in h'.transfers && h'.transfers[t].to == m ensures RecipientOk(h', home, t) {
      if h'.transfers[t].terminal.Some? { assert RecipientOk(h, home, t); }
    }
  }

  lemma CallRecords(h: Hub, c: Call, m: MemberId)
    requires Legal(h, c) && RecipientsCall(h, c) && ReportsOk(h) && (c.CallObserve? ==> m != c.p.member)
    requires c.CallAck? && c.key in h.deliveries ==> DeliveryOk(h, c.key)
    ensures SameRecords(h, Do(h, c), m)
  {
    match c
    case CallObserve(p, t, s, now) => ReportEffect(h, p, t, s, now);
    case CallAck(p, key, dst, now) => AckEffect(h, p, key, dst, now);
    case _ =>
  }

  lemma ReportRecorded(h: Hub, h': Hub, m: MemberId, home: Home, w: Watched, news: Terminal)
    requires RecipientsOk(h, m, home) && h'.transfers.Keys == h.transfers.Keys
    requires w.tid in h.transfers && h.transfers[w.tid].dst == Some(w.uuid)
    requires w.uuid in home.todos && TerminalOf(home.todos[w.uuid]) == Some(news)
    requires forall u :: u in h.transfers && u != w.tid ==> h'.transfers[u] == h.transfers[u]
    requires var tr, tr' := h.transfers[w.tid], h'.transfers[w.tid];
      tr' == tr || (tr.terminal.None? && tr' == tr.(terminal := Some(news), terminalBy := Some(tr.to)))
    ensures RecipientsOk(h', m, home)
  {
    forall t | t in h'.transfers && h'.transfers[t].to == m ensures RecipientOk(h', home, t) {
      assert RecipientOk(h, home, t);
    }
  }

  // ----- the account moves -----

  lemma CompletingRecipients(h: Hub, m: MemberId, s: Spoke, home: Home, u: Uuid, tags: set<string>)
    requires RecipientsOk(h, m, home) && MappedOk(h, m, s.journal) && AccountOk(s, home) && u in home.asked
    ensures u in home.todos && RecipientsOk(h, m, Completing(home, u, tags))
  {
    var home' := Completing(home, u, tags);
    UnsyncedIsNoCopy(s.journal, home.todos, u);
    forall t | t in h.transfers && h.transfers[t].to == m ensures RecipientOk(h, home', t) {
      assert RecipientOk(h, home, t);
      if h.transfers[t].dst.Some? {
        assert JournaledAs(s.journal, DKey(t, Create, m), h.transfers[t].dst);
      }
    }
  }

  lemma CompletingVersions(s: Spoke, home: Home, u: Uuid, tags: set<string>)
    requires VersionsOk(home) && AccountOk(s, home) && u in home.asked && NoProvenance(tags)
    ensures u in home.todos && VersionsOk(Completing(home, u, tags))
  {
    UnsyncedTags(Completing(home, u, tags).todos[u]);
  }

  lemma UnlistedRecipients(h: Hub, m: MemberId, home: Home, home': Home, u: Uuid)
    requires RecipientsOk(h, m, home) && SameBut(home, home', {u})
    requires forall t :: t in h.transfers && h.transfers[t].to == m && h.transfers[t].dst.Some? && h.transfers[t].terminal.Some? ==>
      h.transfers[t].dst.value != u
    ensures RecipientsOk(h, m, home')
  {
    forall t | t in h.transfers && h.transfers[t].to == m ensures RecipientOk(h, home', t) {
      assert RecipientOk(h, home, t);
    }
  }

  lemma FireRecord(h: Hub, m: MemberId, home: Home, u: Uuid, todo: Todo)
    requires RecordOk(h, m, home) && SeenOk(home) && u !in home.todos
    ensures RecordOk(h, m, home.(todos := home.todos[u := todo]))
  {
    forall t | t in h.transfers && h.transfers[t].to == m && h.transfers[t].dst.Some? && h.transfers[t].terminal.Some?
      ensures h.transfers[t].dst.value != u
    {
      assert RecipientOk(h, home, t);
    }
    UnlistedRecipients(h, m, home, home.(todos := home.todos[u := todo]), u);
  }

  lemma CompletingRecord(h: Hub, m: MemberId, s: Spoke, home: Home, u: Uuid, tags: set<string>)
    requires RecordOk(h, m, home) && MappedOk(h, m, s.journal) && AccountOk(s, home)
    requires u in home.asked && NoProvenance(tags)
    ensures u in home.todos && RecordOk(h, m, Completing(home, u, tags))
  {
    CompletingRecipients(h, m, s, home, u, tags);
    CompletingVersions(s, home, u, tags);
  }

  // ----- events -----

  lemma PutRecord(h: Hub, m: MemberId, s: Spoke, home: Home, home': Home, u: Uuid)
    requires MemberOk(h, m, s) && AccountOk(s, home) && RecordOk(h, m, home) && u in home'.todos
    requires home'.todos == home.todos[u := home'.todos[u]] && home'.mirror == home.mirror
    requires SameBut(home, home', {u})
    requires !Synced(home'.todos[u]) && (u in home.todos ==> !Synced(home.todos[u]))
    ensures RecordOk(h, m, home')
  {
    forall t | t in h.transfers && h.transfers[t].to == m && h.transfers[t].dst.Some?
      ensures h.transfers[t].dst.value != u
    {
      assert JournaledAs(s.journal, DKey(t, Create, m), h.transfers[t].dst);
      UnsyncedIsNoCopy(s.journal, home.todos, u);
    }
    UnlistedRecipients(h, m, home, home', u);
  }

  lemma EndVersions(home: Home, u: Uuid, todo: Todo)
    requires VersionsOk(home) && SeenOk(home) && u in home.todos && Synced(home.todos[u]) && Finishes(home.todos[u], todo)
    ensures VersionsOk(home.(todos := home.todos[u := todo]))
  {
  }

  /** A recorded copy is over already, so it is not the one finished now. */
  lemma EndRecord(h: Hub, m: MemberId, home: Home, u: Uuid, todo: Todo)
    requires SeenOk(home) && RecordOk(h, m, home) && u in home.todos && Synced(home.todos[u]) && Finishes(home.todos[u], todo)
    ensures RecordOk(h, m, home.(todos := home.todos[u := todo]))
  {
    EndVersions(home, u, todo);
    forall t | t in h.transfers && h.transfers[t].to == m && h.transfers[t].dst.Some? && h.transfers[t].terminal.Some?
      ensures h.transfers[t].dst.value != u
    {
      assert RecipientOk(h, home, t);
    }
    UnlistedRecipients(h, m, home, home.(todos := home.todos[u := todo]), u);
  }

  lemma LifeRecord(h: Hub, m: MemberId, s: Spoke, home: Home, e: Event)
    requires MemberOk(h, m, s) && AccountOk(s, home) && RecordOk(h, m, home)
    requires OrdinaryEvent(home, e) && FinishesOnce(home, e)
    ensures RecordOk(h, m, AfterEvent(s, home, e))
  {
    match e
    case Sync(view) =>
      forall t | t in h.transfers && h.transfers[t].to == m ensures RecipientOk(h, home.(mirror := view), t) {
        assert RecipientOk(h, home, t);
      }
    case Add(u, todo) => PutRecord(h, m, s, home, AfterEvent(s, home, e), u);
    case Edit(u, todo) => PutRecord(h, m, s, home, AfterEvent(s, home, e), u);
    case End(u, todo) => EndRecord(h, m, home, u, todo);
    case Anything(_) =>
  }

  // ----- reports -----

  /** What is reported is the state of the copy in the account. */
  lemma ReportIsCurrent(l: Local, p: Principal)
    requires CanReport(l) && Ready(l, p) && RecordOk(l.hub, p.member, l.home)
    ensures var w := l.spoke.phase.watch[0];
      w.uuid in l.home.todos && TerminalOf(l.home.todos[w.uuid]) == News(l.spoke, l.home.mirror, w)
  {
    var w := l.spoke.phase.watch[0];
    assert w.tid in l.hub.transfers ==> TransferOk(l.hub, w.tid);
    ReportIsRecipients(l, p, 0.0);
    CurrentNews(l.home, l.spoke, w);
  }

  lemma CurrentNews(home: Home, s: Spoke, w: Watched)
    requires VersionsOk(home) && News(s, home.mirror, w).Some? && w.uuid in home.todos && Synced(home.todos[w.uuid])
    ensures TerminalOf(home.todos[w.uuid]) == News(s, home.mirror, w)
  {
  }

  // ----- every action -----

  lemma ReportRecord(l: Local, p: Principal, now: Time, heard: bool)
    requires CanReport(l) && Ready(l, p) && RecordOk(l.hub, p.member, l.home)
    ensures RecordOk(AfterReport(l, p, now, heard).hub, p.member, l.home)
  {
    var w, news := l.spoke.phase.watch[0], News(l.spoke, l.home.mirror, l.spoke.phase.watch[0]).value;
    assert w.tid in l.hub.transfers ==> TransferOk(l.hub, w.tid);
    ReportIsRecipients(l, p, now);
    ReportIsCurrent(l, p);
    ReportEffect(l.hub, p, w.tid, news, now);
    ReportRecorded(l.hub, AfterReport(l, p, now, heard).hub, p.member, l.home, w, news);
  }

  lemma FireNowRecord(l: Local, m: MemberId, uuid: Uuid, created: Time)
    requires CanFire(l, uuid) && SeenOk(l.home) && RecordOk(l.hub, m, l.home)
    ensures RecordOk(l.hub, m, AfterFire(l, uuid, created).home)
  {
    FireRecord(l.hub, m, l.home, uuid, NewTodo(l.spoke.phase.queue[0], created));
  }

  lemma WriteNowRecord(l: Local, m: MemberId, landed: bool, verified: bool)
    requires CanWrite(l, landed, verified) && MemberOk(l.hub, m, l.spoke) && KeptOk(l.hub, m, l.spoke, l.home)
    requires HomeOk(l.hub, m, l.spoke, l.home) && RecordOk(l.hub, m, l.home)
    ensures RecordOk(l.hub, m, AfterWriteTerminal(l, landed, verified).home)
  {
    if landed { WriteRecord(l, m); }
  }

  lemma RetagNowRecord(l: Local, m: MemberId, landed: bool, verified: bool, kept: set<string>)
    requires CanRetag(l, landed, verified, kept) && MemberOk(l.hub, m, l.spoke) && KeptOk(l.hub, m, l.spoke, l.home)
    requires RecordOk(l.hub, m, l.home)
    ensures RecordOk(l.hub, m, AfterRetag(l, landed, verified, kept).home)
  {
    if landed { RetagRecord(l, m, kept); }
  }

  /** The account after the action, against the ledger before it. */
  lemma OwnWrites(l: Local, p: Principal, a: Action)
    requires Ready(l, p) && RecordOk(l.hub, p.member, l.home) && Enabled(l, p, a)
    ensures RecordOk(l.hub, p.member, Act(l, p, a).home)
  {
    match a
    case Fire(uuid, created) => FireNowRecord(l, p.member, uuid, created);
    case WriteTerminal(landed, verified) => WriteNowRecord(l, p.member, landed, verified);
    case Retag(landed, verified, kept) => RetagNowRecord(l, p.member, landed, verified, kept);
    case _ =>
  }

  lemma WriteRecord(l: Local, m: MemberId)
    requires CanWrite(l, true, false) && MemberOk(l.hub, m, l.spoke) && KeptOk(l.hub, m, l.spoke, l.home)
    requires HomeOk(l.hub, m, l.spoke, l.home) && RecordOk(l.hub, m, l.home)
    ensures var u := l.spoke.phase.queue[0].uuid;
      RecordOk(l.hub, m, l.home.(todos := l.home.todos[u := l.home.todos[u].(status := Ended(Completed))]))
  {
    var e := l.spoke.phase.queue[0];
    assert EntryOk(l.hub, m, e) && e in QueueOf(l.spoke.phase) && EchoOk(l.hub, m, e);
    assert HandoverOk(l.hub, l.home, e.key.tid);
    UnsyncedTags(l.home.todos[e.uuid]);
    CompletingRecord(l.hub, m, l.spoke, l.home, e.uuid, l.home.todos[e.uuid].tags);
    assert Completing(l.home, e.uuid, l.home.todos[e.uuid].tags)
        == l.home.(todos := l.home.todos[e.uuid := l.home.todos[e.uuid].(status := Ended(Completed))]);
  }

  lemma RetagRecord(l: Local, m: MemberId, kept: set<string>)
    requires CanRetag(l, true, false, kept) && MemberOk(l.hub, m, l.spoke) && KeptOk(l.hub, m, l.spoke, l.home)
    requires RecordOk(l.hub, m, l.home)
    ensures RecordOk(l.hub, m, Completing(l.home, l.spoke.phase.watch[0].uuid, kept))
  {
    var w := l.spoke.phase.watch[0];
    assert WatchedOk(l.hub, m, w) && HandoverOk(l.hub, l.home, w.tid);
    KeptTagsPlain(l.spoke, l.home, w.uuid, kept);
    CompletingRecord(l.hub, m, l.spoke, l.home, w.uuid, kept);
  }

  lemma OwnRecords(l: Local, p: Principal, a: Action)
    requires Ready(l, p) && Enabled(l, p, a) && !a.Report?
    ensures SameRecords(l.hub, Act(l, p, a).hub, p.member)
  {
    TickIsCall(l, p, a);
    TickIsRecipients(l, p, a);
    match CallOf(l, p, a)
    case None =>
    case Some(c) => CallRecords(l.hub, c, p.member);
  }

  lemma OwnRecord(l: Local, p: Principal, a: Action)
    requires Ready(l, p) && RecordOk(l.hub, p.member, l.home) && Enabled(l, p, a)
    ensures RecordOk(Act(l, p, a).hub, p.member, Act(l, p, a).home)
  {
    if a.Report? {
      ReportRecord(l, p, a.now, a.heard);
    } else {
      OwnWrites(l, p, a);
      OwnRecords(l, p, a);
      RecordFrame(l.hub, Act(l, p, a).hub, p.member, Act(l, p, a).home);
    }
  }

  lemma OthersRecord(l: Local, p: Principal, a: Action, m: MemberId, home: Home)
    requires Ready(l, p) && Enabled(l, p, a) && m != p.member && RecordOk(l.hub, m, home)
    ensures RecordOk(Act(l, p, a).hub, m, home)
  {
    TickIsCall(l, p, a);
    TickIsRecipients(l, p, a);
    match CallOf(l, p, a)
    case None =>
    case Some(c) =>
      CallRecords(l.hub, c, m);
      RecordFrame(l.hub, Act(l, p, a).hub, m, home);
  }

  // ----- runs -----

  lemma TickRecords(w: World, p: Principal, a: Action)
    requires CarefulOk(w) && AllRecorded(w.hub, w.homes) && Possible(w, Tick(p, a))
    ensures AllRecorded(Next(w, Tick(p, a)).hub, Next(w, Tick(p, a)).homes)
  {
    var l := LocalOf(w, p.member);
    ReadyToAct(w, p);
    OwnRecord(l, p, a);
    forall m | m in w.homes && m != p.member ensures RecordOk(Act(l, p, a).hub, m, w.homes[m]) {
      OthersRecord(l, p, a, m, w.homes[m]);
    }
    PutRecords(Act(l, p, a).hub, w.homes, p.member, Act(l, p, a).home);
  }

  lemma PutRecords(h: Hub, homes: map<MemberId, Home>, m: MemberId, home: Home)
    requires RecordOk(h, m, home) && forall n :: n in homes && n != m ==> RecordOk(h, n, homes[n])
    ensures AllRecorded(h, homes[m := home])
  {
  }

  lemma LifeRecords(w: World, m: MemberId, e: Event)
    requires CarefulOk(w) && AllRecorded(w.hub, w.homes) && Possible(w, Life(m, e))
    requires OrdinaryEvent(w.homes[m], e) && FinishesOnce(w.homes[m], e)
    ensures AllRecorded(Next(w, Life(m, e)).hub, Next(w, Life(m, e)).homes)
  {
    MemberInOrder(w, m);
    LifeRecord(w.hub, m, w.spokes[m], w.homes[m], e);
    PutRecords(w.hub, w.homes, m, AfterEvent(w.spokes[m], w.homes[m], e));
  }

  /** Received copies are finished once. */
  ghost predicate FinishedOnce(ws: seq<World>, ls: seq<Label>)
    requires |ls| <= |ws|
  {
    forall i :: 0 <= i < |ls| && ls[i].Life? && ls[i].m in ws[i].homes ==> FinishesOnce(ws[i].homes[ls[i].m], ls[i].e)
  }

  lemma RecordsNext(ws: seq<World>, ls: seq<Label>, i: nat)
    requires CarefulRun(ws, ls) && FinishedOnce(ws, ls) && i < |ls| && AllRecorded(ws[i].hub, ws[i].homes)
    ensures AllRecorded(ws[i + 1].hub, ws[i + 1].homes)
  {
    RunCareful(ws, ls, i);
    match ls[i]
    case Tick(p, a) => TickRecords(ws[i], p, a);
    case Life(m, e) => LifeRecords(ws[i], m, e);
  }

  lemma {:induction false} RecordsAlong(ws: seq<World>, n: nat)
    requires n < |ws| && AllRecorded(ws[0].hub, ws[0].homes)
    requires forall i: nat :: i + 1 < |ws| && AllRecorded(ws[i].hub, ws[i].homes) ==> AllRecorded(ws[i + 1].hub, ws[i + 1].homes)
    ensures AllRecorded(ws[n].hub, ws[n].homes)
  {
    if n > 0 {
      RecordsAlong(ws, n - 1);
      assert AllRecorded(ws[n - 1].hub, ws[n - 1].homes);
    }
  }

  /** In every state of every careful run whose copies are finished once, each copy is in its recorded state. */
  lemma RunRecorded(ws: seq<World>, ls: seq<Label>, n: nat)
    requires CarefulRun(ws, ls) && FinishedOnce(ws, ls) && AllRecorded(ws[0].hub, ws[0].homes) && n < |ws|
    ensures AllRecorded(ws[n].hub, ws[n].homes)
  {
    forall i: nat | i + 1 < |ws| && AllRecorded(ws[i].hub, ws[i].homes) ensures AllRecorded(ws[i + 1].hub, ws[i + 1].homes) {
      RecordsNext(ws, ls, i);
    }
    RecordsAlong(ws, n);
  }

  /** Empty accounts are in their recorded states. */
  lemma StartRecorded(roster: Roster, triggers: map<MemberId, map<string, string>>)
    ensures AllRecorded(Start(roster, triggers).hub, Start(roster, triggers).homes)
  {
  }
}
