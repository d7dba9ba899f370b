/**
 * Once the retag is marked, whatever is done to the sender's copy is inert: over every run
 * whatsoever, with any human acts and crashes anywhere, the sender's spoke never reports that
 * transfer, and if its sender had not decided it by then its sender never does.
 */
module Marked {
  import opened Basics
  import opened HubSpec
  import opened HubInvariant
  import opened HubHistory
  import opened SpokeSpec
  import opened SpokeInvariant
  import opened SpokeSteps
  import opened System
  import opened SystemSafety

  /** The sender's spoke has marked the transfer. */
  predicate IsMarked(w: World, t: Tid) {
    && t in w.hub.transfers
    && w.hub.transfers[t].from in w.spokes && t in w.spokes[w.hub.transfers[t].from].retagged
  }

  /** The label reports this transfer on its sender's behalf. */
  predicate SenderReports(w: World, l: Label, t: Tid) {
    && l.Tick? && l.a.Report? && l.p.member in w.spokes && AtWatch(w.spokes[l.p.member])
    && w.spokes[l.p.member].phase.watch[0].tid == t
    && t in w.hub.transfers && w.hub.transfers[t].from == l.p.member
  }

  lemma MarkedIsSilent(h: Hub, m: MemberId, s: Spoke, view: Todos, w: Watched)
    requires WatchedOk(h, m, w) && w.tid in s.retagged && h.transfers[w.tid].from == m != h.transfers[w.tid].to
    ensures News(s, view, w).None?
  {
  }

  lemma CannotReport(l: Local, m: MemberId)
    requires AtWatch(l.spoke) && PhaseOk(l.hub, m, l.spoke) && l.spoke.phase.watch[0].tid in l.spoke.retagged
    requires var t := l.spoke.phase.watch[0].tid;
      t in l.hub.transfers && l.hub.transfers[t].from == m && TransferOk(l.hub, t)
    ensures !CanReport(l)
  {
    MarkedIsSilent(l.hub, m, l.spoke, l.home.mirror, l.spoke.phase.watch[0]);
  }

  lemma NotReported(w: World, l: Label, t: Tid)
    requires Possible(w, l) && IsMarked(w, t) && TransferOk(w.hub, t)
    requires MemberOk(w.hub, w.hub.transfers[t].from, w.spokes[w.hub.transfers[t].from])
    ensures !SenderReports(w, l, t)
  {
    if SenderReports(w, l, t) { CannotReport(LocalOf(w, l.p.member), l.p.member); }
  }

  lemma MemberAndTransfer(w: World, t: Tid)
    requires WorldOk(w) && t in w.hub.transfers && w.hub.transfers[t].from in w.spokes
    ensures MemberOk(w.hub, w.hub.transfers[t].from, w.spokes[w.hub.transfers[t].from]) && TransferOk(w.hub, t)
  {
  }

  /** Only an observation of a transfer changes who decided it, to the observer. */
  lemma CallDecides(h: Hub, c: Call, t: Tid)
    requires Legal(h, c) && t in h.transfers
    ensures var h' := Do(h, c);
      && t in h'.transfers && h'.transfers[t].from == h.transfers[t].from
      && (h'.transfers[t].terminalBy == h.transfers[t].terminalBy
          || (c.CallObserve? && c.t == t && h'.transfers[t].terminalBy == Some(c.p.member)))
  {
    if c.CallObserve? { ObserveIsDecide(h, c.p, c.t, c.s, c.now); }
  }

  lemma DeciderMoves(l: Local, p: Principal, a: Action, t: Tid)
    requires Enabled(l, p, a) && Authentic(l.hub, p) && t in l.hub.transfers
    ensures var h' := Act(l, p, a).hub;
      && t in h'.transfers && h'.transfers[t].from == l.hub.transfers[t].from
      && (h'.transfers[t].terminalBy == l.hub.transfers[t].terminalBy
          || (a.Report? && l.spoke.phase.watch[0].tid == t && h'.transfers[t].terminalBy == Some(p.member)))
  {
    TickIsCall(l, p, a);
    match CallOf(l, p, a)
    case None =>
    case Some(c) => CallDecides(l.hub, c, t);
  }

  ghost predicate Undecided(w: World, t: Tid) {
    IsMarked(w, t) && w.hub.transfers[t].terminalBy != Some(w.hub.transfers[t].from)
  }

  lemma StillMarked(w: World, l: Label, t: Tid)
    requires WorldOk(w) && Possible(w, l) && IsMarked(w, t)
    ensures IsMarked(Next(w, l), t) && Next(w, l).hub.transfers[t].from == w.hub.transfers[t].from
  {
    var m := w.hub.transfers[t].from;
    assert MemberOk(w.hub, m, w.spokes[m]);
    NextRemembers(w, l, m);
    if l.Tick? { DeciderMoves(LocalOf(w, l.p.member), l.p, l.a, t); }
  }

  lemma StillUndecided(w: World, l: Label, t: Tid)
    requires WorldOk(w) && Possible(w, l) && Undecided(w, t)
    ensures Undecided(Next(w, l), t)
  {
    StillMarked(w, l, t);
    MemberAndTransfer(w, t);
    NotReported(w, l, t);
    if l.Tick? { DeciderMoves(LocalOf(w, l.p.member), l.p, l.a, t); }
  }

  lemma MarkedStep(ws: seq<World>, ls: seq<Label>, t: Tid, i: nat)
    requires Behaviour(ws, ls) && i < |ls|
    ensures IsMarked(ws[i], t) ==> IsMarked(ws[i + 1], t)
    ensures Undecided(ws[i], t) ==> Undecided(ws[i + 1], t)
  {
    RunOk(ws, ls, i);
    if IsMarked(ws[i], t) { StillMarked(ws[i], ls[i], t); }
    if Undecided(ws[i], t) { StillUndecided(ws[i], ls[i], t); }
  }

  lemma {:induction false} MarkedAlong(ws: seq<World>, t: Tid, i: nat, j: nat)
    requires i <= j < |ws|
    requires forall n: nat :: n + 1 < |ws| && IsMarked(ws[n], t) ==> IsMarked(ws[n + 1], t)
    requires forall n: nat :: n + 1 < |ws| && Undecided(ws[n], t) ==> Undecided(ws[n + 1], t)
    ensures IsMarked(ws[i], t) ==> IsMarked(ws[j], t)
    ensures Undecided(ws[i], t) ==> Undecided(ws[j], t)
    decreases j
  {
    if i < j {
      MarkedAlong(ws, t, i, j - 1);
    }
  }

  lemma MarkedStays(ws: seq<World>, ls: seq<Label>, t: Tid, i: nat, j: nat)
    requires Behaviour(ws, ls) && i <= j < |ws|
    ensures IsMarked(ws[i], t) ==> IsMarked(ws[j], t)
    ensures Undecided(ws[i], t) ==> Undecided(ws[j], t)
  {
    forall n: nat | n + 1 < |ws|
      ensures IsMarked(ws[n], t) ==> IsMarked(ws[n + 1], t)
      ensures Undecided(ws[n], t) ==> Undecided(ws[n + 1], t)
    {
      MarkedStep(ws, ls, t, n);
    }
    MarkedAlong(ws, t, i, j);
  }

  /** A marked transfer is never reported by its sender again, whatever the human does to the copy. */
  lemma MarkedIsInert(ws: seq<World>, ls: seq<Label>, t: Tid, i: nat, j: nat)
    requires Behaviour(ws, ls) && i <= j < |ls| && IsMarked(ws[i], t)
    ensures !SenderReports(ws[j], ls[j], t)
  {
    MarkedStays(ws, ls, t, i, j);
    RunOk(ws, ls, j);
    MemberAndTransfer(ws[j], t);
    NotReported(ws[j], ls[j], t);
  }

  /** So from then on only its recipient can decide it. */
  lemma MarkedIsRecipients(ws: seq<World>, ls: seq<Label>, t: Tid, i: nat, j: nat)
    requires Behaviour(ws, ls) && i <= j < |ws| && Undecided(ws[i], t)
    ensures t in ws[j].hub.transfers
    ensures ws[j].hub.transfers[t].terminal.Some? ==> ws[j].hub.transfers[t].terminalBy == Some(ws[j].hub.transfers[t].to)
  {
    MarkedStays(ws, ls, t, i, j);
    RunOk(ws, ls, j);
    assert TransferOk(ws[j].hub, t);
  }
}
