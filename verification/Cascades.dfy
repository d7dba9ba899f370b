/**
 * Exactly when a sender's spoke can mistake its own completion for the human's: after a crash between
 * a retag and its marker, or a retag that landed unverified, of a transfer that is not over.
 */
module Cascades {
  import opened Basics
  import opened HubSpec
  import opened HubInvariant
  import opened HubHistory
  import opened HubEchoes
  import opened SpokeSpec
  import opened SpokeInvariant
  import opened SpokeSteps
  import opened System
  import opened HomeInvariant
  import opened HomeKept
  import opened HomeCareful
  import opened CarefulRuns
  import opened Hypotheses
  import TickPaths

  // ----- the watchlist -----

  lemma {:induction false} EntriesOf(h: Hub, p: Principal, ts: set<Tid>) returns (q: seq<Watched>)
    requires forall t :: t in ts ==> OnWatch(h, p, t)
    ensures forall i, j :: 0 <= i < j < |q| ==> q[i].tid != q[j].tid
    ensures forall w :: w in q ==> w.tid in ts && w == WatchEntry(h, p, w.tid)
    ensures forall t :: t in ts ==> WatchEntry(h, p, t) in q
    decreases |ts|
  {
    q := [];
    if t :| t in ts {
      var rest := EntriesOf(h, p, ts - {t});
      q := [WatchEntry(h, p, t)] + rest;
      forall u | u in ts ensures WatchEntry(h, p, u) in q {
        if u != t { assert WatchEntry(h, p, u) in rest; }
      }
    }
  }

  /** A watchlist on which this transfer comes first. */
  lemma WatchedFirst(h: Hub, p: Principal, t: Tid) returns (q: seq<Watched>)
    requires OnWatch(h, p, t)
    ensures IsWatchlist(h, p, q) && q != [] && q[0] == WatchEntry(h, p, t)
  {
    var ts := set u | u in h.transfers && OnWatch(h, p, u);
    var rest := EntriesOf(h, p, ts - {t});
    q := [WatchEntry(h, p, t)] + rest;
    forall u | OnWatch(h, p, u) ensures WatchEntry(h, p, u) in q {
      if u != t { assert u in ts - {t}; }
    }
  }

  // ----- the cascade -----

  /** The sender's copy is finished, the handover is neither marked nor over, and the tick has moved on. */
  ghost predicate Exposed(l: Local, m: MemberId, t: Tid) {
    && t in l.hub.transfers && TransferOk(l.hub, t)
    && var tr := l.hub.transfers[t];
       && tr.from == m && tr.dst.Some? && tr.terminal.None?
       && t !in l.spoke.retagged && t !in l.spoke.observed && !l.spoke.phase.Retagged?
       && tr.src in l.home.todos && IsFinished(l.home.todos[tr.src])
  }

  /** An unmarked sender copy that shows as completed is reported, and the recipient is told to complete theirs. */
  lemma UnmarkedIsReported(l: Local, p: Principal, q: seq<Watched>, now: Time)
    requires IsWatchlist(l.hub, p, q) && q != [] && q[0].role == Sender && l.spoke.phase == Watching(q)
    requires TransferOk(l.hub, q[0].tid) && l.hub.transfers[q[0].tid].dst.Some?
    requires q[0].tid !in l.spoke.retagged && q[0].tid !in l.spoke.observed
    requires q[0].uuid in l.home.mirror && IsFinished(l.home.mirror[q[0].uuid])
    ensures CanReport(l)
    ensures var h', t := AfterReport(l, p, now, true).hub, q[0].tid;
      && t in h'.transfers && h'.transfers[t].terminal == Some(Completed)
      && h'.transfers[t].terminalBy == Some(p.member) && h'.transfers[t].from == p.member
      && DKey(t, Complete, h'.transfers[t].to) in h'.deliveries
  {
    assert q[0] in q;
  }

  /** The sender's spoke has reported its own completion, and the recipient is told to complete theirs. */
  ghost predicate SenderReported(h: Hub) {
    exists t :: t in h.transfers && h.transfers[t].terminalBy == Some(h.transfers[t].from)
                && DKey(t, Complete, h.transfers[t].to) in h.deliveries
  }

  /** The next tick, once the mirror has caught up. */
  function NextLook(l: Local, q: seq<Watched>): Local {
    Local(l.hub, l.spoke.(phase := Watching(q)), CaughtUp(l.home))
  }

  lemma ExposedIsReported(l: Local, p: Principal, t: Tid, q: seq<Watched>, now: Time)
    requires Exposed(l, p.member, t) && IsWatchlist(l.hub, p, q)
    requires q != [] && q[0] == Watched(t, l.hub.transfers[t].src, Sender, true)
    ensures CanReport(NextLook(l, q)) && SenderReported(AfterReport(NextLook(l, q), p, now, true).hub)
  {
    UnmarkedIsReported(NextLook(l, q), p, q, now);
    var h' := AfterReport(NextLook(l, q), p, now, true).hub;
    assert t in h'.transfers && h'.transfers[t].terminalBy == Some(h'.transfers[t].from);
  }

  lemma ExposedOnWatch(l: Local, p: Principal, t: Tid)
    requires Exposed(l, p.member, t) && Authentic(l.hub, p)
    ensures OnWatch(l.hub, p, t) && WatchEntry(l.hub, p, t) == Watched(t, l.hub.transfers[t].src, Sender, true)
  {
  }

  /** What exposes it: the two faults that a careful tick excludes. */
  lemma CarelessExposes(l: Local, p: Principal, a: Action)
    requires Ready(l, p) && Enabled(l, p, a) && !CarefulTick(l, a)
    ensures exists t :: Exposed(Act(l, p, a), p.member, t)
  {
    var w := WatchOf(l.spoke.phase)[0];
    assert WatchedOk(l.hub, p.member, w) && TransferOk(l.hub, w.tid);
    if a.Retag? {
      assert QuietOk(l.hub, l.spoke, l.home, Ahead(l.spoke.phase)[0]);
      assert HandoverOk(l.hub, l.home, w.tid);
    }
    assert Exposed(Act(l, p, a), p.member, w.tid);
  }

  // ----- from any state -----

  /** A careful step. */
  ghost predicate StepsTo(w: World, l: Label, w': World) {
    Possible(w, l) && Careful(w, l) && w' == Next(w, l)
  }

  /** Careful steps, from whatever state. */
  ghost predicate CarefulSteps(ws: seq<World>, ls: seq<Label>) {
    |ws| == |ls| + 1 && forall i {:trigger ls[i]} :: 0 <= i < |ls| ==> StepsTo(ws[i], ls[i], ws[i + 1])
  }

  /** Careful steps can lead to a sender's spoke reporting its own completion. */
  ghost predicate CanCascade(w: World) {
    exists ws: seq<World>, ls: seq<Label> :: CarefulSteps(ws, ls) && ws[0] == w && SenderReported(ws[|ls|].hub)
  }

  lemma CascadesNow(w: World)
    requires SenderReported(w.hub)
    ensures CanCascade(w)
  {
    assert CarefulSteps([w], []) && [w][0] == w;
  }

  lemma PrependStep(w: World, l: Label, ws: seq<World>, ls: seq<Label>)
    requires CarefulSteps(ws, ls) && StepsTo(w, l, ws[0])
    ensures CarefulSteps([w] + ws, [l] + ls)
  {
    var ws', ls' := [w] + ws, [l] + ls;
    forall i | 0 <= i < |ls'| ensures StepsTo(ws'[i], ls'[i], ws'[i + 1]) {
      if i > 0 { assert ls'[i] == ls[i - 1] && ws'[i] == ws[i - 1]; }
    }
  }

  lemma CascadesBack(w: World, l: Label, w': World)
    requires StepsTo(w, l, w') && CanCascade(w')
    ensures CanCascade(w)
  {
    var ws: seq<World>, ls: seq<Label> :| CarefulSteps(ws, ls) && ws[0] == w' && SenderReported(ws[|ls|].hub);
    PrependStep(w, l, ws, ls);
    assert ([w] + ws)[|[l] + ls|] == ws[|ls|];
  }

  lemma TickSteps(w: World, p: Principal, l: Local, a: Action)
    requires p.member in w.spokes && p.member in w.homes && LocalOf(w, p.member) == l && Authentic(l.hub, p)
    requires Enabled(l, p, a) && CarefulTick(l, a)
    ensures StepsTo(w, Tick(p, a), Put(w, p.member, Act(l, p, a)))
  {
  }

  lemma SyncSteps(w: World, p: Principal, l: Local)
    requires p.member in w.spokes && p.member in w.homes && LocalOf(w, p.member) == l
    ensures StepsTo(w, Life(p.member, Sync(l.home.todos)), Put(w, p.member, l.(home := CaughtUp(l.home))))
  {
  }

  /** Put the tick down, let the mirror catch up, fetch the watchlist, report. */
  lemma ExposedCascades(w: World, p: Principal, t: Tid)
    requires p.member in w.spokes && p.member in w.homes && Authentic(w.hub, p)
    requires Exposed(LocalOf(w, p.member), p.member, t)
    ensures CanCascade(w)
  {
    var m := p.member;
    var l := LocalOf(w, m);
    ExposedOnWatch(l, p, t);
    var q := WatchedFirst(l.hub, p, t);
    ExposedIsReported(l, p, t, q, 0.0);
    var l1 := AfterRest(l);
    var l2 := l1.(home := CaughtUp(l.home));
    var l3 := NextLook(l, q);
    var l4 := AfterReport(l3, p, 0.0, true);
    TickSteps(w, p, l, Crash);
    TickPaths.PutTwice(w, m, l1, l2);
    SyncSteps(Put(w, m, l1), p, l1);
    TickPaths.PutTwice(w, m, l2, l3);
    TickSteps(Put(w, m, l2), p, l2, Watch(q));
    TickPaths.PutTwice(w, m, l3, l4);
    TickSteps(Put(w, m, l3), p, l3, Report(0.0, true));
    CascadesNow(Put(w, m, l4));
    CascadesBack(Put(w, m, l3), Tick(p, Report(0.0, true)), Put(w, m, l4));
    CascadesBack(Put(w, m, l2), Tick(p, Watch(q)), Put(w, m, l3));
    CascadesBack(Put(w, m, l1), Life(m, Sync(l1.home.todos)), Put(w, m, l2));
    CascadesBack(w, Tick(p, Crash), Put(w, m, l1));
  }

  lemma CarefulNeverCascades(w: World)
    requires CarefulOk(w)
    ensures !CanCascade(w)
  {
    if ws: seq<World>, ls: seq<Label> :| CarefulSteps(ws, ls) && ws[0] == w && SenderReported(ws[|ls|].hub) {
      RunCareful(ws, ls, |ls|);
      OnlyRecipientsReport(ws[|ls|]);
    }
  }

  lemma OnlyRecipientsReport(w: World)
    requires CarefulOk(w)
    ensures !SenderReported(w.hub)
  {
    forall t | t in w.hub.transfers ensures w.hub.transfers[t].terminalBy != Some(w.hub.transfers[t].from) {
      assert TransferOk(w.hub, t);
    }
  }

  lemma CarelessCascades(w: World, p: Principal, a: Action)
    requires CarefulOk(w) && Possible(w, Tick(p, a)) && !CarefulTick(LocalOf(w, p.member), a)
    ensures CanCascade(Next(w, Tick(p, a)))
  {
    var l := LocalOf(w, p.member);
    ReadyToAct(w, p);
    CarelessExposes(l, p, a);
    var t :| Exposed(Act(l, p, a), p.member, t);
    TickPaths.PutTwice(w, p.member, Act(l, p, a), Act(l, p, a));
    ExposedCascades(Next(w, Tick(p, a)), p, t);
  }

  /**
   * No cascade, exactly: in every state of every careful run and for every ordinary step that is
   * possible there, careful steps can lead on from it to a sender's spoke reporting its own
   * completion, so that the recipient is told to complete theirs, if and only if the step is not
   * careful itself.
   */
  lemma CascadesExactlyWhen(ws: seq<World>, ls: seq<Label>, i: nat, l: Label)
    requires CarefulRun(ws, ls) && i < |ws| && Possible(ws[i], l) && Ordinary(ws[i], l)
    ensures CanCascade(Next(ws[i], l)) <==> !Careful(ws[i], l)
  {
    RunCareful(ws, ls, i);
    if Careful(ws[i], l) {
      CarefulNext(ws[i], l);
      CarefulNeverCascades(Next(ws[i], l));
    } else {
      CarelessCascades(ws[i], l.p, l.a);
    }
  }
}
