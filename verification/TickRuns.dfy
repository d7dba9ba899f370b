/**
 * A whole tick is a stretch of a run: with faults, of an ordinary run; without, of a careful one.
 * So what the protocol promises of runs holds of the tick as the program writes it.
 */
module TickRuns {
  import opened Basics
  import opened HubSpec
  import opened HubInvariant
  import opened SpokeSpec
  import opened SpokeInvariant
  import opened System
  import opened HomeInvariant
  import opened CarefulRuns
  import opened Delegation
  import opened HomeRecords
  import opened TickPaths
  import opened Hypotheses
  import HubAnswers
  import Program = Tick
  import SentCache
  import Settling
  import SpokeSteps
  import TickLaws

  /** A run from one state to the other: ordinary, or careful. */
  ghost predicate OrdinarilyLeads(w: World, w': World) {
    exists ws, ls :: OrdinaryRun(ws, ls) && ws[0] == w && ws[|ls|] == w'
  }

  /** No human acts: the mirror is all that changes outside the ticks. */
  ghost predicate NoActs(ls: seq<Label>) {
    forall i :: 0 <= i < |ls| && ls[i].Life? ==> ls[i].e.Sync?
  }

  ghost predicate CarefullyLeads(w: World, w': World) {
    exists ws, ls :: CarefulRun(ws, ls) && NoActs(ls) && ws[0] == w && ws[|ls|] == w'
  }

  ghost predicate DatedlyLeads(w: World, w': World) {
    exists ws, ls :: DatedRun(ws, ls) && ws[0] == w && ws[|ls|] == w'
  }

  lemma LongerOrdinary(ws: seq<World>, ls: seq<Label>, l: Label)
    requires OrdinaryRun(ws, ls) && Possible(ws[|ls|], l) && Ordinary(ws[|ls|], l)
    ensures OrdinaryRun(ws + [Next(ws[|ls|], l)], ls + [l])
  {
    var ws', ls' := ws + [Next(ws[|ls|], l)], ls + [l];
    forall i | 0 <= i < |ls'|
      ensures Possible(ws'[i], ls'[i]) && Ordinary(ws'[i], ls'[i]) && ws'[i + 1] == Next(ws'[i], ls'[i])
    {
      if i < |ls| {
        assert ls'[i] == ls[i] && ws'[i] == ws[i] && ws'[i + 1] == ws[i + 1];
      } else {
        assert ls'[i] == l && ws'[i] == ws[|ls|];
      }
    }
  }

  lemma LongerCareful(ws: seq<World>, ls: seq<Label>, l: Label)
    requires CarefulRun(ws, ls) && Possible(ws[|ls|], l) && Careful(ws[|ls|], l)
    ensures CarefulRun(ws + [Next(ws[|ls|], l)], ls + [l])
  {
    var ws', ls' := ws + [Next(ws[|ls|], l)], ls + [l];
    forall i | 0 <= i < |ls'|
      ensures Possible(ws'[i], ls'[i]) && Careful(ws'[i], ls'[i]) && ws'[i + 1] == Next(ws'[i], ls'[i])
    {
      if i < |ls| {
        assert ls'[i] == ls[i] && ws'[i] == ws[i] && ws'[i + 1] == ws[i + 1];
      } else {
        assert ls'[i] == l && ws'[i] == ws[|ls|];
      }
    }
  }

  lemma OrdinarilyLonger(ws: seq<World>, ls: seq<Label>, l: Label)
    requires OrdinaryRun(ws, ls) && Possible(ws[|ls|], l) && Ordinary(ws[|ls|], l)
    ensures OrdinarilyLeads(ws[0], Next(ws[|ls|], l))
  {
    LongerOrdinary(ws, ls, l);
    var ws', ls' := ws + [Next(ws[|ls|], l)], ls + [l];
    assert ws'[0] == ws[0] && ws'[|ls'|] == Next(ws[|ls|], l);
  }

  lemma OrdinarilyOn(w0: World, w: World, l: Label)
    requires OrdinarilyLeads(w0, w) && Possible(w, l) && Ordinary(w, l)
    ensures OrdinarilyLeads(w0, Next(w, l))
  {
    var ws, ls :| OrdinaryRun(ws, ls) && ws[0] == w0 && ws[|ls|] == w;
    OrdinarilyLonger(ws, ls, l);
  }

  lemma CarefullyLonger(ws: seq<World>, ls: seq<Label>, l: Label)
    requires CarefulRun(ws, ls) && NoActs(ls) && Possible(ws[|ls|], l) && Careful(ws[|ls|], l) && (l.Life? ==> l.e.Sync?)
    ensures CarefullyLeads(ws[0], Next(ws[|ls|], l))
  {
    LongerCareful(ws, ls, l);
    var ws', ls' := ws + [Next(ws[|ls|], l)], ls + [l];
    assert NoActs(ls') && ws'[0] == ws[0] && ws'[|ls'|] == Next(ws[|ls|], l);
  }

  lemma CarefullyOn(w0: World, w: World, l: Label)
    requires CarefullyLeads(w0, w) && Possible(w, l) && Careful(w, l) && (l.Life? ==> l.e.Sync?)
    ensures CarefullyLeads(w0, Next(w, l))
  {
    var ws, ls :| CarefulRun(ws, ls) && NoActs(ls) && ws[0] == w0 && ws[|ls|] == w;
    CarefullyLonger(ws, ls, l);
  }

  lemma DatedlyLonger(ws: seq<World>, ls: seq<Label>, l: Label)
    requires DatedRun(ws, ls) && Possible(ws[|ls|], l) && Dated(ws[|ls|], l)
    ensures DatedlyLeads(ws[0], Next(ws[|ls|], l))
  {
    Settling.LongerRun(ws, ls, l);
    var ws', ls' := ws + [Next(ws[|ls|], l)], ls + [l];
    assert ws'[0] == ws[0] && ws'[|ls'|] == Next(ws[|ls|], l);
  }

  lemma DatedlyOn(w0: World, w: World, l: Label)
    requires DatedlyLeads(w0, w) && Possible(w, l) && Dated(w, l)
    ensures DatedlyLeads(w0, Next(w, l))
  {
    var ws, ls :| DatedRun(ws, ls) && ws[0] == w0 && ws[|ls|] == w;
    DatedlyLonger(ws, ls, l);
  }

  /** The label of one move of a tick. */
  lemma MoveIsLabel(w: World, p: Principal, faults: bool, l': Local) returns (l: Label)
    requires p.member in w.spokes && p.member in w.homes && Authentic(w.hub, p)
    requires TickPaths.Moves(p, faults, LocalOf(w, p.member), l')
    ensures Possible(w, l) && Next(w, l) == Put(w, p.member, l') && Ordinary(w, l) && (!faults ==> Dated(w, l))
    ensures l.Life? ==> l.e.Sync?
  {
    var m := p.member;
    var l0 := LocalOf(w, m);
    if Refreshes(faults, l0, l') {
      l := Life(m, Sync(l'.home.mirror));
      assert Next(w, l) == Put(w, m, l');
    } else {
      var a :| Takes(p, faults, l0, a, l');
      l := Tick(p, a);
      if !faults { FaultlessIsCareful(p, l0, a, l'); }
    }
  }

  lemma MoveOrdinary(w0: World, w: World, p: Principal, faults: bool, l': Local)
    requires CanAct(w, p) && OrdinarilyLeads(w0, w) && TickPaths.Moves(p, faults, LocalOf(w, p.member), l')
    ensures CanAct(Put(w, p.member, l'), p) && OrdinarilyLeads(w0, Put(w, p.member, l'))
  {
    var l := MoveIsLabel(w, p, faults, l');
    OrdinarilyOn(w0, w, l);
    MoveKeepsWorld(w, p, faults, l');
  }

  lemma MoveCareful(w0: World, w: World, p: Principal, l': Local)
    requires CanAct(w, p) && CarefullyLeads(w0, w) && TickPaths.Moves(p, false, LocalOf(w, p.member), l')
    ensures CanAct(Put(w, p.member, l'), p) && CarefullyLeads(w0, Put(w, p.member, l'))
  {
    var l := MoveIsLabel(w, p, false, l');
    CarefullyOn(w0, w, l);
    MoveKeepsWorld(w, p, false, l');
  }

  lemma MoveDated(w0: World, w: World, p: Principal, l': Local)
    requires CanAct(w, p) && DatedlyLeads(w0, w) && TickPaths.Moves(p, false, LocalOf(w, p.member), l')
    ensures CanAct(Put(w, p.member, l'), p) && DatedlyLeads(w0, Put(w, p.member, l'))
  {
    var l := MoveIsLabel(w, p, false, l');
    DatedlyOn(w0, w, l);
    MoveKeepsWorld(w, p, false, l');
  }

  lemma {:induction false} PathIsOrdinary(w0: World, w: World, p: Principal, faults: bool, ls: seq<Local>)
    requires CanAct(w, p) && OrdinarilyLeads(w0, w) && Path(p, faults, ls) && ls[0] == LocalOf(w, p.member)
    ensures OrdinarilyLeads(w0, Put(w, p.member, ls[|ls| - 1]))
    decreases |ls|
  {
    if |ls| == 1 {
      assert Put(w, p.member, ls[0]) == w;
    } else {
      PathTail(p, faults, ls);
      MoveOrdinary(w0, w, p, faults, ls[1]);
      PutTwice(w, p.member, ls[1], ls[|ls| - 1]);
      PathIsOrdinary(w0, Put(w, p.member, ls[1]), p, faults, ls[1..]);
    }
  }

  lemma {:induction false} PathIsCareful(w0: World, w: World, p: Principal, ls: seq<Local>)
    requires CanAct(w, p) && CarefullyLeads(w0, w) && Path(p, false, ls) && ls[0] == LocalOf(w, p.member)
    ensures CarefullyLeads(w0, Put(w, p.member, ls[|ls| - 1]))
    decreases |ls|
  {
    if |ls| == 1 {
      assert Put(w, p.member, ls[0]) == w;
    } else {
      PathTail(p, false, ls);
      MoveCareful(w0, w, p, ls[1]);
      PutTwice(w, p.member, ls[1], ls[|ls| - 1]);
      PathIsCareful(w0, Put(w, p.member, ls[1]), p, ls[1..]);
    }
  }

  lemma {:induction false} PathIsDated(w0: World, w: World, p: Principal, ls: seq<Local>)
    requires CanAct(w, p) && DatedlyLeads(w0, w) && Path(p, false, ls) && ls[0] == LocalOf(w, p.member)
    ensures DatedlyLeads(w0, Put(w, p.member, ls[|ls| - 1]))
    decreases |ls|
  {
    if |ls| == 1 {
      assert Put(w, p.member, ls[0]) == w;
    } else {
      PathTail(p, false, ls);
      MoveDated(w0, w, p, ls[1]);
      PutTwice(w, p.member, ls[1], ls[|ls| - 1]);
      PathIsDated(w0, Put(w, p.member, ls[1]), p, ls[1..]);
    }
  }

  /** Whatever faults a tick meets, short of a crash, it is a stretch of an ordinary run. */
  lemma TickIsOrdinaryRun(w: World, p: Principal, faults: bool, l': Local)
    requires KeptWorld(w) && CanAct(w, p) && Reaches(p, faults, LocalOf(w, p.member), l')
    ensures OrdinarilyLeads(w, Put(w, p.member, l'))
  {
    var ls :| Path(p, faults, ls) && ls[0] == LocalOf(w, p.member) && ls[|ls| - 1] == l';
    assert OrdinaryRun([w], []);
    PathIsOrdinary(w, w, p, faults, ls);
  }

  /** Meeting none, of a careful run. */
  lemma TickIsCarefulRun(w: World, p: Principal, l': Local)
    requires CarefulOk(w) && CanAct(w, p) && Reaches(p, false, LocalOf(w, p.member), l')
    ensures CarefullyLeads(w, Put(w, p.member, l'))
  {
    var ls :| Path(p, false, ls) && ls[0] == LocalOf(w, p.member) && ls[|ls| - 1] == l';
    assert CarefulRun([w], []) && NoActs([]);
    PathIsCareful(w, w, p, ls);
  }

  lemma LeadsToItself(w: World)
    requires DatedOk(w)
    ensures DatedlyLeads(w, w)
  {
    assert DatedRun([w], []) && [w][0] == w;
  }

  /** And of a dated run, where it starts in one. */
  lemma TickIsDatedRun(w: World, p: Principal, l': Local)
    requires DatedOk(w) && CanAct(w, p) && Reaches(p, false, LocalOf(w, p.member), l')
    ensures DatedlyLeads(w, Put(w, p.member, l'))
  {
    var ls :| Path(p, false, ls) && ls[0] == LocalOf(w, p.member) && ls[|ls| - 1] == l';
    LeadsToItself(w);
    PathIsDated(w, w, p, ls);
  }

  /** So a tick, whatever faults it meets, loses no delegated todo of anybody's. */
  lemma TickLosesNothing(w: World, p: Principal, faults: bool, l': Local, m: MemberId, u: Uuid)
    requires KeptWorld(w) && CanAct(w, p) && Reaches(p, faults, LocalOf(w, p.member), l')
    requires m in w.spokes && u in w.homes[m].asked
    ensures var w' := Put(w, p.member, l');
      && m in w'.homes && u in w'.homes[m].todos
      && (w'.homes[m].todos[u] == w.homes[m].asked[u] || Arrived(w', m, u, w.homes[m].asked[u]))
  {
    TickIsOrdinaryRun(w, p, faults, l');
    var ws, ls :| OrdinaryRun(ws, ls) && ws[0] == w && ws[|ls|] == Put(w, p.member, l');
    AskedStays(ws, ls, 0, |ls|, m, u);
    RunKept(ws, ls, |ls|);
    NothingLost(ws[|ls|], m, u);
  }

  lemma ActlessRecorded(ws: seq<World>, ls: seq<Label>)
    requires CarefulRun(ws, ls) && NoActs(ls) && AllRecorded(ws[0].hub, ws[0].homes)
    ensures AllRecorded(ws[|ls|].hub, ws[|ls|].homes)
  {
    assert FinishedOnce(ws, ls);
    RunRecorded(ws, ls, |ls|);
  }

  /**
   * And after one that meets none, every transfer with nothing left to deliver has come round, and a
   * recipient's copy that was in its recorded state is in it still.
   */
  lemma TickComesRound(w: World, p: Principal, l': Local, t: Tid)
    requires CarefulOk(w) && CanAct(w, p) && Reaches(p, false, LocalOf(w, p.member), l')
    requires t in l'.hub.transfers && AllDelivered(l'.hub, t)
    ensures CameRound(Put(w, p.member, l'), t)
    ensures AllRecorded(w.hub, w.homes) ==> AsRecorded(Put(w, p.member, l'), t)
  {
    TickIsCarefulRun(w, p, l');
    var ws, ls :| CarefulRun(ws, ls) && NoActs(ls) && ws[0] == w && ws[|ls|] == Put(w, p.member, l');
    RoundTrip(ws, ls, |ls|, t);
    if AllRecorded(w.hub, w.homes) {
      ActlessRecorded(ws, ls);
      RunCareful(ws, ls, |ls|);
      AsRecordedAt(ws[|ls|], t);
    }
  }

  // ----- every candidate -----

  /**
   * The outbound phase of a tick without faults leaves no todo unpushed that shows as one to push, under a
   * tag that triggers the handle of somebody who may receive.
   */
  lemma EveryCandidateIsPushed(l: Local, p: Principal, l': Local, u: Uuid) returns (t: Tid)
    requires HubInv(l.hub) && Authentic(l.hub, p) && SpokeSteps.MemberOk(l.hub, p.member, l.spoke) && HubInv(l'.hub)
    requires Program.Sends(p, false, l, l') && TickLaws.ToPush(l, p, u)
    ensures t in l'.hub.transfers
    ensures var tr := l'.hub.transfers[t]; tr.from == p.member && tr.src == u && tr.rev == 1
  {
    var cs :| Program.Passes(p, false, l, cs, l');
    var c := TickLaws.OfferedInPass(l, cs, u);
    var tag :| tag in l.spoke.triggers && Candidate(l.home.mirror, u, tag) && l.spoke.triggers[tag] == c.handle;
    HubAnswers.PushIsTaken(l.hub, p, c.handle, u, Payload(c.title), 1, c.id, c.now);
    if u in l.spoke.sent {
      SentCache.SentIsTruthful(l.hub, p, l.spoke);
      SentCache.PushedStays(l.hub, p, cs, l.spoke.sent.Keys, u);
    } else {
      SentCache.PassPushes(l.hub, p, cs, l.spoke.sent.Keys, c);
    }
    t := l'.hub.pushed[PushKey(p.tenant, p.member, u, 1)];
  }
}
