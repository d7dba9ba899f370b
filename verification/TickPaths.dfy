/** Paths through one member's tick, and what they say about the whole system. */
module TickPaths {
  import opened Basics
  import opened HubSpec
  import opened HubInvariant
  import opened SpokeSpec
  import opened SpokeInvariant
  import opened SpokeSteps
  import opened System

  /** The search has no answer (a todo without a uuid is none). */
  ghost predicate NoAnswer(l: Local) {
    "" in l.home.mirror || forall found :: !CanFind(l, found)
  }

  /** The action meets no fault: responses are heard, writes land, clocks are sane, and nothing is skipped that could be done. */
  ghost predicate Smooth(l: Local, a: Action)
    requires a.Pass? ==> AtWatch(l.spoke)
    requires a.WriteTerminal? ==> CanWrite(l, a.landed, a.verified)
    requires a.Retag? ==> CanRetag(l, a.landed, a.verified, a.kept)
  {
    match a
    case Send(_, _, _, _, heard) => heard
    case Poll(_, _, _, heard) => heard
    case AckHead(_, heard) => heard
    case NackHead(arrives) => arrives
    case Intend(since, firedAt) => since <= firedAt
    case Fire(_, created) => WellDated(l, created)
    case Report(_, heard) => heard
    case WriteTerminal(_, verified) => verified || l.spoke.phase.queue[0].uuid !in l.home.todos
    case Retag(_, verified, _) => verified || l.spoke.phase.watch[0].uuid !in l.home.todos
    case Fail => l.spoke.phase.Correlating? && l.home.mirror == l.home.todos && NoAnswer(l)
    case Pass =>
      News(l.spoke, l.home.mirror, l.spoke.phase.watch[0]).None?
      && !WantsRetag(l.spoke, l.home.mirror, l.spoke.phase.watch[0])
    case Crash => false
    case _ => true
  }

  ghost predicate Takes(p: Principal, faults: bool, l: Local, a: Action, l': Local) {
    Enabled(l, p, a) && !a.Crash? && (faults || Smooth(l, a)) && l' == Act(l, p, a)
  }

  /** A refresh moves the mirror to a view of the account; without faults it catches up. */
  predicate Refreshes(faults: bool, l: Local, l': Local) {
    && l' == l.(home := l'.home) && l'.home == l.home.(mirror := l'.home.mirror)
    && Shows(l.home, l'.home.mirror) && (faults || l'.home.mirror == l.home.todos)
  }

  ghost predicate Moves(p: Principal, faults: bool, l: Local, l': Local) {
    Refreshes(faults, l, l') || exists a :: Takes(p, faults, l, a, l')
  }

  ghost predicate Path(p: Principal, faults: bool, ls: seq<Local>) {
    ls != [] && forall i :: 0 < i < |ls| ==> Moves(p, faults, ls[i - 1], ls[i])
  }

  /** The tick, not crashing, can go from one state to the other. */
  ghost predicate Reaches(p: Principal, faults: bool, from: Local, to: Local) {
    exists ls :: Path(p, faults, ls) && ls[0] == from && ls[|ls| - 1] == to
  }

  lemma Stays(p: Principal, faults: bool, l: Local)
    ensures Reaches(p, faults, l, l)
  {
    assert Path(p, faults, [l]);
  }

  lemma Onward(p: Principal, faults: bool, a: Local, b: Local, c: Local)
    requires Reaches(p, faults, a, b) && Moves(p, faults, b, c)
    ensures Reaches(p, faults, a, c)
  {
    var ls :| Path(p, faults, ls) && ls[0] == a && ls[|ls| - 1] == b;
    assert Path(p, faults, ls + [c]);
  }

  lemma {:induction false} Joined(p: Principal, faults: bool, a: Local, b: Local, c: Local)
    requires Reaches(p, faults, a, b) && Reaches(p, faults, b, c)
    ensures Reaches(p, faults, a, c)
  {
    var ls :| Path(p, faults, ls) && ls[0] == a && ls[|ls| - 1] == b;
    var ks :| Path(p, faults, ks) && ks[0] == b && ks[|ks| - 1] == c;
    var both := ls + ks[1..];
    forall i | 0 < i < |both| ensures Moves(p, faults, both[i - 1], both[i]) {
      if i >= |ls| { assert both[i] == ks[i - |ls| + 1] && both[i - 1] == ks[i - |ls|]; }
    }
    assert Path(p, faults, both);
  }

  lemma TookStep(p: Principal, faults: bool, from: Local, l: Local, a: Action, l': Local)
    requires Reaches(p, faults, from, l) && Takes(p, faults, l, a, l')
    ensures Reaches(p, faults, from, l')
  {
    Onward(p, faults, from, l, l');
  }

  // ----- paths in the middle of a tick -----

  ghost predicate Busy(ls: seq<Local>) {
    forall i :: 0 <= i < |ls| ==> !ls[i].spoke.phase.Idle?
  }

  /** The tick can go from one state to the other without coming to rest in between. */
  ghost predicate Works(p: Principal, faults: bool, from: Local, to: Local) {
    exists ls :: Path(p, faults, ls) && Busy(ls) && ls[0] == from && ls[|ls| - 1] == to
  }

  lemma WorkReaches(p: Principal, faults: bool, from: Local, to: Local)
    requires Works(p, faults, from, to)
    ensures Reaches(p, faults, from, to)
  {
  }

  lemma Holds(p: Principal, faults: bool, l: Local)
    requires !l.spoke.phase.Idle?
    ensures Works(p, faults, l, l)
  {
    assert Path(p, faults, [l]) && Busy([l]);
  }

  lemma WorkOn(p: Principal, faults: bool, a: Local, b: Local, c: Local)
    requires Works(p, faults, a, b) && Moves(p, faults, b, c) && !c.spoke.phase.Idle?
    ensures Works(p, faults, a, c)
  {
    var ls :| Path(p, faults, ls) && Busy(ls) && ls[0] == a && ls[|ls| - 1] == b;
    assert Path(p, faults, ls + [c]) && Busy(ls + [c]);
  }

  lemma {:induction false} WorkJoined(p: Principal, faults: bool, a: Local, b: Local, c: Local)
    requires Works(p, faults, a, b) && Works(p, faults, b, c)
    ensures Works(p, faults, a, c)
  {
    var ls :| Path(p, faults, ls) && Busy(ls) && ls[0] == a && ls[|ls| - 1] == b;
    var ks :| Path(p, faults, ks) && Busy(ks) && ks[0] == b && ks[|ks| - 1] == c;
    var both := ls + ks[1..];
    forall i | 0 < i < |both| ensures Moves(p, faults, both[i - 1], both[i]) {
      if i >= |ls| { assert both[i] == ks[i - |ls| + 1] && both[i - 1] == ks[i - |ls|]; }
    }
    assert Path(p, faults, both) && Busy(both);
  }

  lemma WorkStep(p: Principal, faults: bool, from: Local, l: Local, a: Action, l': Local)
    requires Works(p, faults, from, l) && Takes(p, faults, l, a, l') && !l'.spoke.phase.Idle?
    ensures Works(p, faults, from, l')
  {
    WorkOn(p, faults, from, l, l');
  }

  // ----- the steps, one by one -----

  lemma TakesPoll(p: Principal, faults: bool, l: Local, order: seq<DKey>, seconds: Time, now: Time, heard: bool)
    requires l.spoke.phase.Idle? && IsListing(l.hub, p.member, order) && (faults || heard)
    ensures Takes(p, faults, l, Poll(order, seconds, now, heard), AfterPoll(l, p, order, seconds, now, heard))
    ensures Act(l, p, Poll(order, seconds, now, heard)) == AfterPoll(l, p, order, seconds, now, heard)
  {
  }

  lemma TakesIntend(p: Principal, faults: bool, l: Local, since: Time, firedAt: Time)
    requires CanIntend(l.spoke) && since <= firedAt
    ensures Takes(p, faults, l, Intend(since, firedAt), AfterIntend(l, since, firedAt))
  {
  }

  lemma TakesFire(p: Principal, faults: bool, l: Local, uuid: Uuid, created: Time)
    requires CanFire(l, uuid) && (faults || WellDated(l, created))
    ensures Takes(p, faults, l, Fire(uuid, created), AfterFire(l, uuid, created))
  {
  }

  lemma TakesFail(p: Principal, faults: bool, l: Local)
    requires CanFail(l.spoke)
    requires faults || (l.spoke.phase.Correlating? && l.home.mirror == l.home.todos && NoAnswer(l))
    ensures Takes(p, faults, l, Fail, AfterFail(l))
  {
  }

  lemma TakesResume(p: Principal, faults: bool, l: Local)
    requires HeadJournaled(l.spoke)
    ensures Takes(p, faults, l, Resume, AfterResume(l))
  {
  }

  lemma TakesFind(p: Principal, faults: bool, l: Local, found: Uuid)
    requires CanFind(l, found)
    ensures Takes(p, faults, l, Find(found), AfterFind(l, found))
  {
  }

  lemma TakesAck(p: Principal, faults: bool, l: Local, now: Time, heard: bool)
    requires CanAck(l.spoke) && (faults || heard)
    ensures Takes(p, faults, l, AckHead(now, heard), AfterAckHead(l, p, now, heard))
  {
  }

  lemma TakesNack(p: Principal, faults: bool, l: Local, arrives: bool)
    requires l.spoke.phase.Failed? && l.spoke.phase.queue != [] && (faults || arrives)
    ensures Takes(p, faults, l, NackHead(arrives), AfterNackHead(l, p, arrives))
  {
  }

  lemma TakesWrite(p: Principal, faults: bool, l: Local, landed: bool, verified: bool)
    requires CanWrite(l, landed, verified) && (faults || verified || l.spoke.phase.queue[0].uuid !in l.home.todos)
    ensures Takes(p, faults, l, WriteTerminal(landed, verified), AfterWriteTerminal(l, landed, verified))
  {
  }

  lemma TakesSend(p: Principal, faults: bool, l: Local, src: Uuid, tag: string, id: Tid, now: Time, heard: bool)
    requires CanSend(l, src, tag, id) && (faults || heard)
    ensures Takes(p, faults, l, Send(src, tag, id, now, heard), AfterSend(l, p, src, tag, id, now, heard))
  {
  }

  lemma TakesMarkSent(p: Principal, faults: bool, l: Local)
    requires l.spoke.phase.Pushed?
    ensures Takes(p, faults, l, MarkSent, AfterMarkSent(l))
  {
  }

  lemma TakesWatch(p: Principal, faults: bool, l: Local, q: seq<Watched>)
    requires l.spoke.phase.Idle? && IsWatchlist(l.hub, p, q)
    ensures Takes(p, faults, l, Watch(q), l.(spoke := l.spoke.(phase := Watching(q))))
  {
  }

  lemma TakesFinish(p: Principal, faults: bool, l: Local)
    requires l.spoke.phase == Inbox([]) || l.spoke.phase == Watching([])
    ensures Takes(p, faults, l, Finish, AfterRest(l))
  {
  }

  lemma TakesPass(p: Principal, faults: bool, l: Local)
    requires AtWatch(l.spoke)
    requires faults || (News(l.spoke, l.home.mirror, l.spoke.phase.watch[0]).None?
                        && !WantsRetag(l.spoke, l.home.mirror, l.spoke.phase.watch[0]))
    ensures Takes(p, faults, l, Pass, AfterPass(l))
  {
  }

  lemma TakesReport(p: Principal, faults: bool, l: Local, now: Time, heard: bool)
    requires CanReport(l) && (faults || heard)
    ensures Takes(p, faults, l, Report(now, heard), AfterReport(l, p, now, heard))
  {
  }

  lemma TakesMarkReported(p: Principal, faults: bool, l: Local)
    requires l.spoke.phase.Reported? && l.spoke.phase.watch != []
    ensures Takes(p, faults, l, MarkReported, AfterMarkReported(l))
  {
  }

  lemma TakesRetag(p: Principal, faults: bool, l: Local, landed: bool, verified: bool, kept: set<string>)
    requires CanRetag(l, landed, verified, kept) && (faults || verified || l.spoke.phase.watch[0].uuid !in l.home.todos)
    ensures Takes(p, faults, l, Retag(landed, verified, kept), AfterRetag(l, landed, verified, kept))
  {
  }

  lemma TakesMarkRetagged(p: Principal, faults: bool, l: Local)
    requires l.spoke.phase.Retagged? && l.spoke.phase.watch != []
    ensures Takes(p, faults, l, MarkRetagged, AfterMarkRetagged(l))
  {
  }

  // ----- a path is a run of the system -----

  /** The world with this member able to act. */
  ghost predicate CanAct(w: World, p: Principal) {
    WorldOk(w) && p.member in w.spokes && p.member in w.homes && Authentic(w.hub, p)
  }

  lemma MoveKeepsWorld(w: World, p: Principal, faults: bool, l': Local)
    requires CanAct(w, p) && Moves(p, faults, LocalOf(w, p.member), l')
    ensures CanAct(Put(w, p.member, l'), p)
  {
    var l := LocalOf(w, p.member);
    if Refreshes(faults, l, l') {
      assert MemberOk(w.hub, p.member, w.spokes[p.member]);
    } else {
      var a :| Takes(p, faults, l, a, l');
      NextKeeps(w, Tick(p, a));
    }
  }

  lemma PutTwice(w: World, m: MemberId, a: Local, b: Local)
    ensures Put(Put(w, m, a), m, b) == Put(w, m, b) && LocalOf(Put(w, m, a), m) == a
  {
  }

  /** So whatever a tick does between its start and its end, it keeps the invariant of the whole system. */
  lemma {:induction false} PathKeepsWorld(w: World, p: Principal, faults: bool, ls: seq<Local>)
    requires CanAct(w, p) && Path(p, faults, ls) && ls[0] == LocalOf(w, p.member)
    ensures CanAct(Put(w, p.member, ls[|ls| - 1]), p)
    decreases |ls|
  {
    if |ls| == 1 {
      assert Put(w, p.member, ls[0]) == w;
    } else {
      PathTail(p, faults, ls);
      MoveKeepsWorld(w, p, faults, ls[1]);
      PutTwice(w, p.member, ls[1], ls[|ls| - 1]);
      PathKeepsWorld(Put(w, p.member, ls[1]), p, faults, ls[1..]);
    }
  }

  lemma PathTail(p: Principal, faults: bool, ls: seq<Local>)
    requires Path(p, faults, ls) && |ls| > 1
    ensures Moves(p, faults, ls[0], ls[1])
    ensures Path(p, faults, ls[1..]) && ls[1..][|ls| - 2] == ls[|ls| - 1]
  {
    var rest := ls[1..];
    forall i | 0 < i < |rest| ensures Moves(p, faults, rest[i - 1], rest[i]) {
      assert rest[i] == ls[i + 1] && rest[i - 1] == ls[i];
    }
  }

  lemma ReachesKeepsWorld(w: World, p: Principal, faults: bool, l': Local)
    requires CanAct(w, p) && Reaches(p, faults, LocalOf(w, p.member), l')
    ensures CanAct(Put(w, p.member, l'), p)
  {
    var ls :| Path(p, faults, ls) && ls[0] == LocalOf(w, p.member) && ls[|ls| - 1] == l';
    PathKeepsWorld(w, p, faults, ls);
  }
}
