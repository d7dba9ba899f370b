/** No cascade over careful runs, and no starvation over dated ones. */
module Hypotheses {
  import opened Basics
  import opened HubSpec
  import opened HubInvariant
  import opened HubEchoes
  import opened SpokeSpec
  import opened SpokeInvariant
  import opened SpokeSteps
  import opened Matching
  import opened System
  import opened HomeInvariant
  import opened HomeAccount
  import opened HomeKept
  import opened HomeCareful
  import opened HomeDates
  import opened CarefulRuns
  import opened HomeRecords
  import opened Delegation
  import TickPaths
  import TickLaws

  // ----- no cascade -----

  /** In every careful run the recipient alone decides, and every echo goes to the sender. */
  lemma RecipientDecides(ws: seq<World>, ls: seq<Label>, i: nat)
    requires CarefulRun(ws, ls) && i < |ws|
    ensures forall t :: t in ws[i].hub.transfers && ws[i].hub.transfers[t].terminal.Some? ==>
      ws[i].hub.transfers[t].terminalBy == Some(ws[i].hub.transfers[t].to)
    ensures forall k :: k in ws[i].hub.deliveries && k.kind != Create ==>
      k.tid in ws[i].hub.transfers && k.to == ws[i].hub.transfers[k.tid].from != ws[i].hub.transfers[k.tid].to
  {
    RunCareful(ws, ls, i);
    var h := ws[i].hub;
    forall k | k in h.deliveries && k.kind != Create
      ensures k.tid in h.transfers && k.to == h.transfers[k.tid].from != h.transfers[k.tid].to
    {
      assert DeliveryOk(h, k) && TransferOk(h, k.tid) && Accounted(h, k.tid);
      EchoesAddressSenders(h, k);
    }
  }

  lemma ReportedIsCopy(w: World, p: Principal, a: Action)
    requires CarefulOk(w) && Possible(w, Tick(p, a)) && a.Report?
    ensures ReportsCopy(w, p)
  {
    var l := LocalOf(w, p.member);
    ReadyToAct(w, p);
    var entry := l.spoke.phase.watch[0];
    assert entry.tid in w.hub.transfers ==> TransferOk(w.hub, entry.tid);
    ReportIsRecipients(l, p, 0.0);
  }

  /** The watch entry at hand is for a copy this member received, of a transfer nobody has reported. */
  ghost predicate ReportsCopy(w: World, p: Principal) {
    && p.member in w.spokes && p.member in w.homes && AtWatch(w.spokes[p.member])
    && var s, home, entry := w.spokes[p.member], w.homes[p.member], w.spokes[p.member].phase.watch[0];
       && entry.tid in w.hub.transfers && w.hub.transfers[entry.tid].to == p.member
       && w.hub.transfers[entry.tid].dst == Some(entry.uuid) && w.hub.transfers[entry.tid].terminal.None?
       && entry.uuid in home.todos && Synced(home.todos[entry.uuid])
  }

  /**
   * The report of the entry at hand makes the transfer what the copy is in the account: canceled if it
   * is trashed or canceled, completed if it is completed and not trashed.
   */
  ghost predicate ReportsAsIs(l: Local, p: Principal, h': Hub) {
    && AtWatch(l.spoke)
    && var entry := l.spoke.phase.watch[0];
       && entry.uuid in l.home.todos && entry.tid in h'.transfers
       && var copy, tr' := l.home.todos[entry.uuid], h'.transfers[entry.tid];
          && tr'.terminal.Some? && tr'.terminalBy == Some(p.member)
          && (tr'.terminal == Some(Canceled) <==> copy.trashed || copy.status == Ended(Canceled))
          && (tr'.terminal == Some(Completed) <==> !copy.trashed && copy.status == Ended(Completed))
  }

  /** A sender's spoke never reports its own completion: every report is of a received copy, and the first of it. */
  lemma OnlyCopiesAreReported(ws: seq<World>, ls: seq<Label>, i: nat)
    requires CarefulRun(ws, ls) && i < |ls| && ls[i].Tick? && ls[i].a.Report?
    ensures ReportsCopy(ws[i], ls[i].p)
  {
    RunCareful(ws, ls, i);
    ReportedIsCopy(ws[i], ls[i].p, ls[i].a);
  }

  /** And where copies are finished once, it is of the copy's state in the account, however stale the mirror. */
  lemma ReportsAreCurrent(ws: seq<World>, ls: seq<Label>, i: nat)
    requires CarefulRun(ws, ls) && FinishedOnce(ws, ls) && AllRecorded(ws[0].hub, ws[0].homes)
    requires i < |ls| && ls[i].Tick? && ls[i].a.Report?
    ensures ls[i].p.member in ws[i].spokes && ls[i].p.member in ws[i].homes
    ensures ReportsAsIs(LocalOf(ws[i], ls[i].p.member), ls[i].p, ws[i + 1].hub)
  {
    RunCareful(ws, ls, i);
    RunRecorded(ws, ls, i);
    ReportedAsIs(ws[i], ls[i].p, ls[i].a);
  }

  lemma ReportedAsIs(w: World, p: Principal, a: Action)
    requires CarefulOk(w) && AllRecorded(w.hub, w.homes) && Possible(w, Tick(p, a)) && a.Report?
    ensures ReportsAsIs(LocalOf(w, p.member), p, Act(LocalOf(w, p.member), p, a).hub)
  {
    ReadyToAct(w, p);
    ReportIsAsIs(LocalOf(w, p.member), p, a);
  }

  lemma ReportIsAsIs(l: Local, p: Principal, a: Action)
    requires Ready(l, p) && RecordOk(l.hub, p.member, l.home) && Enabled(l, p, a) && a.Report?
    ensures ReportsAsIs(l, p, Act(l, p, a).hub)
  {
    var entry := l.spoke.phase.watch[0];
    assert entry.tid in l.hub.transfers ==> TransferOk(l.hub, entry.tid);
    ReportIsRecipients(l, p, 0.0);
    ReportIsCurrent(l, p);
    SeenIsShown(l, entry);
    TickLaws.ReportsWhatIsShown(l, p, a, Act(l, p, a), entry, News(l.spoke, l.home.mirror, entry).value);
    ShownInAccount(l.home.todos[entry.uuid], News(l.spoke, l.home.mirror, entry).value);
  }

  lemma ShownInAccount(todo: Todo, s: Terminal)
    requires TerminalOf(todo) == Some(s)
    ensures TickLaws.Shown(todo, s)
  {
  }

  lemma SeenIsShown(l: Local, entry: Watched)
    requires AtWatch(l.spoke) && l.spoke.phase.watch[0] == entry && News(l.spoke, l.home.mirror, entry).Some?
    ensures entry.uuid in l.home.mirror && TickLaws.Shown(l.home.mirror[entry.uuid], News(l.spoke, l.home.mirror, entry).value)
  {
  }

  lemma TickLeavesCopies(w: World, p: Principal, a: Action, m: MemberId, u: Uuid)
    requires CarefulOk(w) && Possible(w, Tick(p, a)) && m in w.spokes && m in w.homes
    requires u in w.homes[m].todos && Synced(w.homes[m].todos[u])
    ensures var home' := if m == p.member then Act(LocalOf(w, m), p, a).home else w.homes[m];
      u in home'.todos && home'.todos[u] == w.homes[m].todos[u]
  {
    if m == p.member {
      ReadyToAct(w, p);
      ActLeavesCopies(LocalOf(w, m), p, a, u);
    }
  }

  lemma HomeAfterTick(w: World, p: Principal, a: Action, m: MemberId)
    requires Possible(w, Tick(p, a)) && m in w.homes
    ensures m in Next(w, Tick(p, a)).homes
    ensures Next(w, Tick(p, a)).homes[m] == if m == p.member then Act(LocalOf(w, m), p, a).home else w.homes[m]
  {
  }

  /** No spoke changes a received copy: not its owner's, and nobody else's reaches the account. */
  lemma SpokesLeaveCopies(ws: seq<World>, ls: seq<Label>, i: nat, m: MemberId, u: Uuid)
    requires CarefulRun(ws, ls) && i < |ls| && ls[i].Tick? && m in ws[i].spokes && m in ws[i].homes
    requires u in ws[i].homes[m].todos && Synced(ws[i].homes[m].todos[u])
    ensures m in ws[i + 1].homes && u in ws[i + 1].homes[m].todos
    ensures ws[i + 1].homes[m].todos[u] == ws[i].homes[m].todos[u]
  {
    RunCareful(ws, ls, i);
    HomeAfterTick(ws[i], ls[i].p, ls[i].a, m);
    TickLeavesCopies(ws[i], ls[i].p, ls[i].a, m, u);
  }

  lemma ActLeavesCopies(l: Local, p: Principal, a: Action, u: Uuid)
    requires Ready(l, p) && Enabled(l, p, a) && u in l.home.todos && Synced(l.home.todos[u])
    ensures u in Act(l, p, a).home.todos && Act(l, p, a).home.todos[u] == l.home.todos[u]
  {
    if Rewritten(l.spoke, a).Some? { WritesSenders(l, p, a); }
    UntouchedElsewhere(l, p, a, u);
  }

  /** The todo an action rewrites, if it rewrites one. */
  function Rewritten(s: Spoke, a: Action): Option<Uuid> {
    match a
    case WriteTerminal(_, _) =>
      if s.phase.Inbox? && s.phase.queue != [] && s.phase.queue[0].EchoEntry? then Some(s.phase.queue[0].uuid) else None
    case Retag(_, _, _) => if AtWatch(s) then Some(s.phase.watch[0].uuid) else None
    case _ => None
  }

  lemma UntouchedElsewhere(l: Local, p: Principal, a: Action, u: Uuid)
    requires Enabled(l, p, a) && u in l.home.todos && Rewritten(l.spoke, a) != Some(u)
    ensures u in Act(l, p, a).home.todos && Act(l, p, a).home.todos[u] == l.home.todos[u]
  {
  }

  /** Only delegated todos are rewritten, and those carry no provenance tag. */
  lemma WritesSenders(l: Local, p: Principal, a: Action)
    requires Ready(l, p) && Enabled(l, p, a) && Rewritten(l.spoke, a).Some?
    ensures var u := Rewritten(l.spoke, a).value;
      u in l.home.asked && u in l.home.todos && !Synced(l.home.todos[u])
  {
    var t: Tid;
    if a.Retag? {
      t := l.spoke.phase.watch[0].tid;
      assert WatchedOk(l.hub, p.member, l.spoke.phase.watch[0]);
    } else {
      t := l.spoke.phase.queue[0].key.tid;
      assert EntryOk(l.hub, p.member, l.spoke.phase.queue[0]);
      assert EchoOk(l.hub, p.member, QueueOf(l.spoke.phase)[0]);
    }
    assert HandoverOk(l.hub, l.home, t);
  }

  // ----- no starvation -----

  /**
   * As long as every journaled create was written, or is about to be: for every threshold x, the
   * unclaimed copies of a (title, provenance) class dated x or later are
   * at least as many as the open journal rows of the class whose window starts at x or later.
   */
  lemma EnoughCopies(ws: seq<World>, ls: seq<Label>, i: nat, m: MemberId, title: string, provenance: string, x: Time)
    requires DatedRun(ws, ls) && i < |ws| && m in ws[i].spokes && NoneAbandoned(ws[i].spokes[m])
    ensures m in ws[i].homes
    ensures |Waiting(ws[i].spokes[m].journal, OpenKeys(ws[i].spokes[m]), title, provenance, x)|
         <= |Unclaimed(ws[i].spokes[m].journal, ws[i].homes[m].todos, title, provenance, x)|
  {
    RunDated(ws, ls, i);
    MemberDated(ws[i], m);
    EnoughForAll(ws[i].spokes[m].journal, OpenKeys(ws[i].spokes[m]), ws[i].homes[m].todos, title, provenance, x);
  }

  lemma {:induction false} EarliestOf(view: Todos, us: set<Uuid>) returns (first: Uuid)
    requires us != {} && us <= view.Keys
    ensures first in us && forall u :: u in us ==> view[first].created <= view[u].created
  {
    first :| first in us;
    if us != {first} {
      var rest := EarliestOf(view, us - {first});
      if view[rest].created < view[first].created { first := rest; }
    }
  }

  lemma EarliestExists(view: Todos, title: string, after: Time, provenance: string, exclude: set<Uuid>)
    requires exists u :: Matches(view, u, title, after, provenance, exclude)
    ensures exists u :: Earliest(view, u, title, after, provenance, exclude)
  {
    var us := set u | u in view && Matches(view, u, title, after, provenance, exclude);
    var u :| Matches(view, u, title, after, provenance, exclude);
    assert u in us;
    var first := EarliestOf(view, us);
    forall v | Matches(view, v, title, after, provenance, exclude) ensures view[first].created <= view[v].created {
      assert v in us;
    }
    assert Earliest(view, first, title, after, provenance, exclude);
  }

  lemma SearchHasAnswer(w: World, m: MemberId)
    requires DatedOk(w) && m in w.spokes && m in w.homes && NoneAbandoned(w.spokes[m])
    requires w.spokes[m].phase.Correlating? && w.homes[m].mirror == w.homes[m].todos
    ensures exists found :: CanFind(LocalOf(w, m), found)
  {
    MemberDated(w, m);
    SearchAnswered(LocalOf(w, m), m);
  }

  /** Correlation never starves: once the mirror has caught up, the search under way has an answer. */
  lemma SearchSucceeds(ws: seq<World>, ls: seq<Label>, i: nat, m: MemberId)
    requires DatedRun(ws, ls) && i < |ws| && m in ws[i].spokes && m in ws[i].homes && NoneAbandoned(ws[i].spokes[m])
    requires ws[i].spokes[m].phase.Correlating? && ws[i].homes[m].mirror == ws[i].homes[m].todos
    ensures exists found :: CanFind(LocalOf(ws[i], m), found)
  {
    RunDated(ws, ls, i);
    SearchHasAnswer(ws[i], m);
  }

  lemma SearchAnswered(l: Local, m: MemberId)
    requires l.spoke.phase.Correlating? && l.home.mirror == l.home.todos && "" !in l.home.todos
    requires PhaseOk(l.hub, m, l.spoke) && JournalOk(l.hub, m, l.spoke.journal) && WindowOk(l.spoke)
    requires Matchable(l.spoke.journal, OpenKeys(l.spoke), l.home.todos)
    ensures exists found :: CanFind(l, found)
  {
    var e := l.spoke.phase.queue[0];
    assert EntryOk(l.hub, m, e);
    assert e.key in OpenKeys(l.spoke);
    SearchMatched(l, e);
  }

  lemma SearchMatched(l: Local, e: Entry)
    requires l.spoke.phase.Correlating? && l.spoke.phase.queue != [] && l.spoke.phase.queue[0] == e && e.CreateEntry?
    requires l.home.mirror == l.home.todos && "" !in l.home.todos
    requires e.key in l.spoke.journal && l.spoke.phase.since <= l.spoke.journal[e.key].firedAt
    requires l.spoke.journal[e.key].title == e.payload.title && l.spoke.journal[e.key].provenance == e.provenance
    requires Matchable(l.spoke.journal, OpenKeys(l.spoke), l.home.todos) && e.key in OpenKeys(l.spoke)
    ensures exists found :: CanFind(l, found)
  {
    var title, after, exclude := e.payload.title, l.spoke.phase.since - CLOCK_SKEW, JournaledDsts(l.spoke.journal);
    OpenRowHasMatch(l.spoke.journal, OpenKeys(l.spoke), l.home.todos, e.key, after);
    EarliestExists(l.home.mirror, title, after, e.provenance, exclude);
    var found :| Earliest(l.home.mirror, found, title, after, e.provenance, exclude);
    assert CanFind(l, found);
  }

  // ----- ticks without faults -----

  /** The hypotheses on a tick ask for no more than the absence of faults. */
  lemma FaultlessIsCareful(p: Principal, l: Local, a: Action, l': Local)
    requires TickPaths.Takes(p, false, l, a, l')
    ensures CarefulTick(l, a) && DatedTick(l, a)
  {
  }

  /** The account once the mirror has caught up with it. */
  function CaughtUp(home: Home): Home {
    home.(mirror := home.todos)
  }
}
