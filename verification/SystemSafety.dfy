/** What holds of every run of the system, with crashes at any statement and any human behaviour. */
module SystemSafety {
  import opened Basics
  import opened HubSpec
  import opened HubInvariant
  import opened HubHistory
  import opened HubEchoes
  import opened SpokeSpec
  import opened SpokeInvariant
  import opened SpokeSteps
  import opened System

  // ----- a spoke's memory -----

  /** A spoke's tables only gain rows, and a correlated uuid is never rewritten. */
  ghost predicate Remembers(s: Spoke, s': Spoke) {
    && s.fired <= s'.fired
    && (forall k :: k in s.journal ==> k in s'.journal && (s.journal[k].dst.Some? ==> s'.journal[k].dst == s.journal[k].dst))
    && s.sent.Keys <= s'.sent.Keys && s.retagged <= s'.retagged && s.observed.Keys <= s'.observed.Keys
  }

  lemma ActRemembers(l: Local, p: Principal, a: Action)
    requires Enabled(l, p, a) && PhaseOk(l.hub, p.member, l.spoke)
    ensures Remembers(l.spoke, Act(l, p, a).spoke)
  {
  }

  lemma RemembersTransitive(a: Spoke, b: Spoke, c: Spoke)
    requires Remembers(a, b) && Remembers(b, c)
    ensures Remembers(a, c)
  {
  }

  lemma NextRemembers(w: World, l: Label, m: MemberId)
    requires Possible(w, l) && m in w.spokes && PhaseOk(w.hub, m, w.spokes[m])
    ensures m in Next(w, l).spokes && Remembers(w.spokes[m], Next(w, l).spokes[m])
  {
    if l.Tick? && l.p.member == m { ActRemembers(LocalOf(w, m), l.p, l.a); }
  }

  lemma PhaseInRun(ws: seq<World>, ls: seq<Label>, i: nat, m: MemberId)
    requires Behaviour(ws, ls) && i < |ws| && m in ws[i].spokes
    ensures PhaseOk(ws[i].hub, m, ws[i].spokes[m])
  {
    RunOk(ws, ls, i);
    assert MemberOk(ws[i].hub, m, ws[i].spokes[m]);
  }

  lemma StepRemembers(ws: seq<World>, ls: seq<Label>, i: nat, m: MemberId)
    requires Behaviour(ws, ls) && i < |ls| && m in ws[i].spokes
    ensures m in ws[i + 1].spokes && Remembers(ws[i].spokes[m], ws[i + 1].spokes[m])
  {
    PhaseInRun(ws, ls, i, m);
    NextRemembers(ws[i], ls[i], m);
  }

  lemma {:induction false} RemembersAlong(ws: seq<World>, i: nat, j: nat, m: MemberId)
    requires i <= j < |ws| && m in ws[i].spokes
    requires forall n: nat :: n + 1 < |ws| && m in ws[n].spokes ==>
      m in ws[n + 1].spokes && Remembers(ws[n].spokes[m], ws[n + 1].spokes[m])
    ensures m in ws[j].spokes && Remembers(ws[i].spokes[m], ws[j].spokes[m])
    decreases j
  {
    if i < j {
      RemembersAlong(ws, i, j - 1, m);
      assert m in ws[j - 1].spokes;
      RemembersTransitive(ws[i].spokes[m], ws[j - 1].spokes[m], ws[j].spokes[m]);
    }
  }

  lemma RunRemembers(ws: seq<World>, ls: seq<Label>, i: nat, j: nat, m: MemberId)
    requires Behaviour(ws, ls) && i <= j < |ws| && m in ws[i].spokes
    ensures m in ws[j].spokes && Remembers(ws[i].spokes[m], ws[j].spokes[m])
  {
    forall n: nat | n + 1 < |ws| && m in ws[n].spokes
      ensures m in ws[n + 1].spokes && Remembers(ws[n].spokes[m], ws[n + 1].spokes[m])
    {
      StepRemembers(ws, ls, n, m);
    }
    RemembersAlong(ws, i, j, m);
  }

  // ----- at most once -----

  /** This label writes the create of delivery k. */
  predicate Fires(w: World, l: Label, k: DKey) {
    && l.Tick? && l.a.Fire? && l.p.member in w.spokes
    && var ph := w.spokes[l.p.member].phase;
       ph.Firing? && HeadIsCreate(ph.queue) && ph.queue[0].key == k
  }

  /** No delivery's create is written twice: two writes in a run are the same write. */
  lemma AtMostOnceApply(ws: seq<World>, ls: seq<Label>, i: nat, j: nat, k: DKey)
    requires Behaviour(ws, ls) && i <= j < |ls|
    requires Fires(ws[i], ls[i], k) && Fires(ws[j], ls[j], k)
    ensures i == j
  {
    RunOk(ws, ls, i);
    RunOk(ws, ls, j);
    FiresAtHome(ws[i], ls[i], k);
    FiresAtHome(ws[j], ls[j], k);
    if i < j {
      assert k in ws[i + 1].spokes[k.to].fired;
      RunRemembers(ws, ls, i + 1, j, k.to);
    }
  }

  lemma FiresAtHome(w: World, l: Label, k: DKey)
    requires WorldOk(w) && Fires(w, l, k)
    ensures l.p.member == k.to && k !in w.spokes[k.to].fired
  {
    var ph := w.spokes[l.p.member].phase;
    assert MemberOk(w.hub, l.p.member, w.spokes[l.p.member]);
    assert EntryOk(w.hub, l.p.member, ph.queue[0]);
  }

  /** The create of k was journaled but its write never happened, and the tick has moved on. */
  predicate Abandoned(s: Spoke, k: DKey) {
    k in s.journal && k !in s.fired && !(s.phase.Firing? && HeadIsCreate(s.phase.queue) && s.phase.queue[0].key == k)
  }

  /** After a crash between the journal row and the write, the create is never written. */
  lemma {:induction false} AbandonedIsForever(ws: seq<World>, ls: seq<Label>, m: MemberId, k: DKey, i: nat, j: nat)
    requires Behaviour(ws, ls) && i <= j < |ws| && m in ws[i].spokes && Abandoned(ws[i].spokes[m], k)
    ensures m in ws[j].spokes && Abandoned(ws[j].spokes[m], k)
    decreases j
  {
    if i < j {
      AbandonedIsForever(ws, ls, m, k, i, j - 1);
      PhaseInRun(ws, ls, j - 1, m);
      AbandonedNext(ws[j - 1], ls[j - 1], m, k);
    }
  }

  lemma AbandonedNext(w: World, l: Label, m: MemberId, k: DKey)
    requires Possible(w, l) && m in w.spokes && PhaseOk(w.hub, m, w.spokes[m]) && Abandoned(w.spokes[m], k)
    ensures m in Next(w, l).spokes && Abandoned(Next(w, l).spokes[m], k)
  {
    if l.Tick? && l.p.member == m { AbandonedStep(LocalOf(w, m), l.p, l.a, k); }
  }

  lemma AbandonedStep(l: Local, p: Principal, a: Action, k: DKey)
    requires Enabled(l, p, a) && PhaseOk(l.hub, p.member, l.spoke) && Abandoned(l.spoke, k)
    ensures Abandoned(Act(l, p, a).spoke, k)
  {
    ActRemembers(l, p, a);
  }

  /** The crash that does it: between journaling the intent and firing the write. */
  lemma CrashWhileFiringAbandons(l: Local, p: Principal)
    requires l.spoke.phase.Firing? && PhaseOk(l.hub, p.member, l.spoke)
    ensures Abandoned(Act(l, p, Crash).spoke, l.spoke.phase.queue[0].key)
  {
  }

  // ----- the mapping -----

  lemma MappingDiffers(h: Hub, m: MemberId, s: Spoke, t: Tid, u: Tid)
    requires MemberOk(h, m, s) && t in h.transfers && u in h.transfers && t != u
    requires h.transfers[t].to == m && h.transfers[u].to == m && h.transfers[t].dst.Some?
    ensures h.transfers[t].dst != h.transfers[u].dst
  {
  }

  /** Two transfers to one member never share a uuid, whatever their titles. */
  lemma MappingIsInjective(ws: seq<World>, ls: seq<Label>, i: nat, t: Tid, u: Tid)
    requires Behaviour(ws, ls) && i < |ws|
    requires t in ws[i].hub.transfers && u in ws[i].hub.transfers && t != u
    requires ws[i].hub.transfers[t].to == ws[i].hub.transfers[u].to && ws[i].hub.transfers[t].dst.Some?
    ensures ws[i].hub.transfers[t].dst != ws[i].hub.transfers[u].dst
  {
    RunOk(ws, ls, i);
    var m := ws[i].hub.transfers[t].to;
    assert MemberOk(ws[i].hub, m, ws[i].spokes[m]);
    MappingDiffers(ws[i].hub, m, ws[i].spokes[m], t, u);
  }

  /** This label acks the create k with this uuid. */
  predicate AcksCreate(w: World, l: Label, k: DKey, dst: Uuid) {
    && l.Tick? && l.a.AckHead? && l.p.member in w.spokes
    && var ph := w.spokes[l.p.member].phase;
       ph.Closed? && ph.queue != [] && ph.queue[0].key == k && ph.dst == dst
  }

  /**
   * Every ack of a create carries the same uuid, and the hub's mapping, at any later time, is
   * that uuid or not there yet.
   */
  lemma AcksAgree(ws: seq<World>, ls: seq<Label>, k: DKey, i: nat, j: nat, a: Uuid, b: Uuid)
    requires Behaviour(ws, ls) && i <= j < |ls| && AcksCreate(ws[i], ls[i], k, a)
    ensures AcksCreate(ws[j], ls[j], k, b) ==> a == b
    ensures k.tid in ws[j].hub.transfers
    ensures ws[j].hub.transfers[k.tid].dst == None || ws[j].hub.transfers[k.tid].dst == Some(a)
  {
    AckStaysJournaled(ws, ls, k, i, j, a);
    if AcksCreate(ws[j], ls[j], k, b) { AckIsJournaled(ws, ls, j, k, b); }
    RunOk(ws, ls, j);
    MappedAsJournaled(ws[j], k, a);
  }

  lemma AckStaysJournaled(ws: seq<World>, ls: seq<Label>, k: DKey, i: nat, j: nat, a: Uuid)
    requires Behaviour(ws, ls) && i <= j < |ls| && AcksCreate(ws[i], ls[i], k, a)
    ensures k.to in ws[j].spokes && JournaledAs(ws[j].spokes[k.to].journal, k, Some(a))
  {
    AckIsJournaled(ws, ls, i, k, a);
    RunRemembers(ws, ls, i, j, k.to);
  }

  lemma MappedAsJournaled(w: World, k: DKey, a: Uuid)
    requires WorldOk(w) && k.to in w.spokes && JournaledAs(w.spokes[k.to].journal, k, Some(a))
    ensures k.tid in w.hub.transfers
    ensures w.hub.transfers[k.tid].dst == None || w.hub.transfers[k.tid].dst == Some(a)
  {
    assert MemberOk(w.hub, k.to, w.spokes[k.to]);
  }

  lemma AckIsJournaled(ws: seq<World>, ls: seq<Label>, i: nat, k: DKey, a: Uuid)
    requires Behaviour(ws, ls) && i < |ls| && AcksCreate(ws[i], ls[i], k, a)
    ensures k.to in ws[i].spokes && JournaledAs(ws[i].spokes[k.to].journal, k, Some(a))
  {
    RunOk(ws, ls, i);
    var m := ls[i].p.member;
    assert MemberOk(ws[i].hub, m, ws[i].spokes[m]);
    assert EntryOk(ws[i].hub, m, ws[i].spokes[m].phase.queue[0]);
  }

  // ----- caches and accounting -----

  /** The local caches never disagree with the hub. */
  lemma CachesAgree(ws: seq<World>, ls: seq<Label>, i: nat, m: MemberId)
    requires Behaviour(ws, ls) && i < |ws| && m in ws[i].spokes
    ensures var s, h := ws[i].spokes[m], ws[i].hub;
      && (forall u :: u in s.sent ==> SentAs(h, m, u, s.sent[u]))
      && (forall t :: t in s.observed ==> t in h.transfers && h.transfers[t].terminal.Some?)
      && (forall t :: t in s.retagged ==> t in h.transfers && h.transfers[t].from == m && h.transfers[t].dst.Some?)
  {
    RunOk(ws, ls, i);
    var s, h := ws[i].spokes[m], ws[i].hub;
    assert MemberOk(h, m, s);
  }

  /** Echo accounting holds throughout: the spokes only ever make disciplined observations. */
  lemma SystemAccounts(ws: seq<World>, ls: seq<Label>, i: nat)
    requires Behaviour(ws, ls) && i < |ws|
    ensures HubInv(ws[i].hub) && AllAccounted(ws[i].hub)
  {
    RunOk(ws, ls, i);
  }
}
