/**
 * Four runs from empty tables, one for each thing the program cannot undo: a crash between a
 * journaled intent and its write, a crash between a retag and its marker, a retag that lands
 * unverified, and a sender who may not receive.
 */
module Gaps {
  import opened Basics
  import opened HubSpec
  import opened HubInvariant
  import opened SpokeSpec
  import opened SpokeInvariant
  import opened Matching
  import opened System
  import opened SystemSafety
  import opened HomeInvariant
  import opened CarefulRuns
  import opened RawApi
  import HubDrain
  import Settling
  import TickRuns
  import opened Deliverable

  // ----- alice, who may or may not receive, bob, and their accounts -----

  function Team(receives: bool): Roster {
    Roster(map[ALICE := Member(0, "alice", true, receives), BOB := Member(0, "bob", true, true)],
           map[Address(0, "alice") := ALICE, Address(0, "bob") := BOB])
  }

  function Alice(receives: bool): Principal {
    Principal(0, ALICE, ALICE, true, receives)
  }

  const TRIGGERS := map[ALICE := map["@bob" := "bob"]]
  const TODO := Todo("title", {"@bob"}, Open, false, 0.0, false, 0, 0)

  function Both(h: Hub, a: Spoke, b: Spoke, home: Home, guest: Home): World {
    World(h, map[ALICE := a, BOB := b], map[ALICE := home, BOB := guest])
  }

  const A0 := FreshSpoke(map["@bob" := "bob"])
  const B0 := FreshSpoke(map[])
  const NOBODY := Home(map[], map[], map[])

  ghost predicate Goes(w: World, l: Label, w': World) {
    Possible(w, l) && Ordinary(w, l) && w' == Next(w, l)
  }

  lemma PairUpdates<V>(a: V, b: V, c: V)
    ensures map[ALICE := a, BOB := b][ALICE := c] == map[ALICE := c, BOB := b]
    ensures map[ALICE := a, BOB := b][BOB := c] == map[ALICE := a, BOB := c]
  {
  }

  lemma PutAlice(h: Hub, s: Spoke, home: Home, b: Spoke, guest: Home, l: Local)
    ensures LocalOf(Both(h, s, b, home, guest), ALICE) == Local(h, s, home)
    ensures Put(Both(h, s, b, home, guest), ALICE, l) == Both(l.hub, l.spoke, b, l.home, guest)
  {
    PairUpdates(s, b, l.spoke);
    PairUpdates(home, guest, l.home);
  }

  lemma PutBob(h: Hub, a: Spoke, home: Home, s: Spoke, guest: Home, l: Local)
    ensures LocalOf(Both(h, a, s, home, guest), BOB) == Local(h, s, guest)
    ensures Put(Both(h, a, s, home, guest), BOB, l) == Both(l.hub, a, l.spoke, home, l.home)
  {
    PairUpdates(a, s, l.spoke);
    PairUpdates(home, guest, l.home);
  }

  lemma AliceTicks(
      p: Principal, h: Hub, s: Spoke, home: Home, b: Spoke, guest: Home, a: Action, h': Hub, s': Spoke, home': Home)
    requires p.member == ALICE && Authentic(h, p) && Enabled(Local(h, s, home), p, a)
    requires Act(Local(h, s, home), p, a) == Local(h', s', home')
    ensures Goes(Both(h, s, b, home, guest), Tick(p, a), Both(h', s', b, home', guest))
  {
    PutAlice(h, s, home, b, guest, Local(h', s', home'));
  }

  lemma BobTicks(h: Hub, a: Spoke, home: Home, s: Spoke, guest: Home, c: Action, h': Hub, s': Spoke, guest': Home)
    requires Authentic(h, Caller(BOB)) && Enabled(Local(h, s, guest), Caller(BOB), c)
    requires Act(Local(h, s, guest), Caller(BOB), c) == Local(h', s', guest')
    ensures Goes(Both(h, a, s, home, guest), Tick(Caller(BOB), c), Both(h', a, s', home, guest'))
  {
    PutBob(h, a, home, s, guest, Local(h', s', guest'));
  }

  lemma AliceLives(h: Hub, s: Spoke, home: Home, b: Spoke, guest: Home, e: Event, home': Home)
    requires OrdinaryEvent(home, e) && AfterEvent(s, home, e) == home'
    ensures Goes(Both(h, s, b, home, guest), Life(ALICE, e), Both(h, s, b, home', guest))
  {
    PairUpdates(home, guest, home');
  }

  lemma BobLives(h: Hub, a: Spoke, home: Home, s: Spoke, guest: Home, e: Event, guest': Home)
    requires OrdinaryEvent(guest, e) && AfterEvent(s, guest, e) == guest'
    ensures Goes(Both(h, a, s, home, guest), Life(BOB, e), Both(h, a, s, home, guest'))
  {
    PairUpdates(home, guest, guest');
  }

  // ----- runs from empty tables -----

  /** No act of bob's human. */
  predicate NotBobs(l: Label) {
    l.Life? && l.m == BOB ==> l.e.Sync?
  }

  ghost predicate BobIsIdle(ls: seq<Label>) {
    forall i :: 0 <= i < |ls| ==> NotBobs(ls[i])
  }

  /** A dated run leads from empty tables to here, and bob's human has done nothing if he is idle. */
  ghost predicate DatedTo(receives: bool, idle: bool, w: World) {
    exists ws, ls :: DatedRun(ws, ls) && (idle ==> BobIsIdle(ls)) && ws[0] == Start(Team(receives), TRIGGERS) && ws[|ls|] == w
  }

  /** An ordinary run leads from empty tables to here, and bob's human has done nothing. */
  ghost predicate OrdinaryTo(w: World) {
    exists ws, ls :: OrdinaryRun(ws, ls) && BobIsIdle(ls) && ws[0] == Start(Team(true), TRIGGERS) && ws[|ls|] == w
  }

  /** A step of a dated run that is none of bob's human's. */
  ghost predicate Steps(w: World, l: Label, w': World) {
    Goes(w, l, w') && Dated(w, l) && NotBobs(l)
  }

  lemma LongerDated(receives: bool, idle: bool, ws: seq<World>, ls: seq<Label>, l: Label, w': World)
    requires DatedRun(ws, ls) && (idle ==> BobIsIdle(ls)) && ws[0] == Start(Team(receives), TRIGGERS)
    requires Goes(ws[|ls|], l, w') && Dated(ws[|ls|], l) && (idle ==> NotBobs(l))
    ensures DatedTo(receives, idle, w')
  {
    Settling.LongerRun(ws, ls, l);
    if idle { OneMoreIdle(ls, l); }
    assert (ws + [w'])[|ls + [l]|] == w' && (ws + [w'])[0] == ws[0];
  }

  lemma OneMoreIdle(ls: seq<Label>, l: Label)
    requires BobIsIdle(ls) && NotBobs(l)
    ensures BobIsIdle(ls + [l])
  {
  }

  lemma DatedOn(receives: bool, idle: bool, w: World, l: Label, w': World)
    requires DatedTo(receives, idle, w) && Goes(w, l, w') && Dated(w, l) && (idle ==> NotBobs(l))
    ensures DatedTo(receives, idle, w')
  {
    var ws, ls :| DatedRun(ws, ls) && (idle ==> BobIsIdle(ls)) && ws[0] == Start(Team(receives), TRIGGERS) && ws[|ls|] == w;
    LongerDated(receives, idle, ws, ls, l, w');
  }

  lemma StepsOn(receives: bool, w: World, l: Label, w': World)
    requires DatedTo(receives, true, w) && Steps(w, l, w')
    ensures DatedTo(receives, true, w')
  {
    DatedOn(receives, true, w, l, w');
  }

  lemma LongerOrdinary(ws: seq<World>, ls: seq<Label>, l: Label, w': World)
    requires OrdinaryRun(ws, ls) && BobIsIdle(ls) && ws[0] == Start(Team(true), TRIGGERS)
    requires Goes(ws[|ls|], l, w') && NotBobs(l)
    ensures OrdinaryTo(w')
  {
    TickRuns.LongerOrdinary(ws, ls, l);
    assert (ws + [w'])[|ls + [l]|] == w' && (ws + [w'])[0] == ws[0];
  }

  lemma OrdinaryOn(w: World, l: Label, w': World)
    requires OrdinaryTo(w) && Goes(w, l, w') && NotBobs(l)
    ensures OrdinaryTo(w')
  {
    var ws, ls :| OrdinaryRun(ws, ls) && BobIsIdle(ls) && ws[0] == Start(Team(true), TRIGGERS) && ws[|ls|] == w;
    LongerOrdinary(ws, ls, l, w');
  }

  lemma DatedToOrdinary(w: World)
    requires DatedTo(true, true, w)
    ensures OrdinaryTo(w)
  {
    var ws, ls :| DatedRun(ws, ls) && BobIsIdle(ls) && ws[0] == Start(Team(true), TRIGGERS) && ws[|ls|] == w;
    DatedIsOrdinary(ws, ls);
  }

  lemma StillIdle(receives: bool, w: World)
    requires DatedTo(receives, true, w)
    ensures DatedTo(receives, false, w)
  {
  }

  // ----- the hub along the way -----

  const KEY := PushKey(0, ALICE, "src", 1)
  const MAPPED := FRESH.(dst := Some("dst"))

  function Ledger(receives: bool, transfer: Transfer, deliveries: map<DKey, Delivery>, generation: nat): Hub {
    Hub(Team(receives), map[7 := transfer], map[KEY := 7], deliveries, generation)
  }

  function Empty(r: bool): Hub {
    EmptyHub(Team(r))
  }

  function Sent(r: bool): Hub {
    Ledger(r, FRESH, map[CREATE := Delivery(Queued, 0, 0.0)], 1)
  }

  function Polled(r: bool): Hub {
    Ledger(r, FRESH, map[CREATE := Delivery(Leased(BOB, 61.0), 1, 0.0)], 1)
  }

  function Applied(r: bool): Hub {
    Ledger(r, MAPPED, map[CREATE := Delivery(Done, 1, 0.0)], 1)
  }

  lemma PushSends(r: bool)
    ensures Push(Empty(r), Alice(r), "bob", "src", Payload("title"), 1, 7, 0.0) == Reply(Sent(r), Ok(PushReply(7, false, None)))
  {
  }

  // ----- alice delegates; bob polls, applies and acks -----

  const ASKED := Home(map["src" := TODO], map[], map["src" := TODO])
  const SHOWN := Home(map["src" := TODO], map["src" := TODO], map["src" := TODO])
  const A3 := A0.(phase := Pushed("src", 7))
  const A4 := A0.(sent := map["src" := 7])
  const ENTRY := CreateEntry(CREATE, 1, Payload("title"), "from-alice")
  const B5 := B0.(phase := Inbox([ENTRY]))
  const ROW := Intent("title", "from-alice", 1.0, None)
  const B6 := B0.(journal := map[CREATE := ROW], phase := Firing([ENTRY], 1.0))
  const COPY := Todo("title", {"from-alice"}, Open, false, 2.0, false, 0, 0)
  const B7 := B6.(phase := Correlating([ENTRY], 1.0), fired := [CREATE])
  const RECEIVED := Home(map["dst" := COPY], map[], map[])
  const SEEN := Home(map["dst" := COPY], map["dst" := COPY], map[])
  const B9 := B7.(journal := map[CREATE := ROW.(dst := Some("dst"))], phase := Closed([ENTRY], "dst"))
  const B10 := B9.(phase := Inbox([]))
  const B11 := B9.(phase := Idle)

  function W0(r: bool): World { Both(Empty(r), A0, B0, NOBODY, NOBODY) }
  function W1(r: bool): World { Both(Empty(r), A0, B0, ASKED, NOBODY) }
  function W2(r: bool): World { Both(Empty(r), A0, B0, SHOWN, NOBODY) }
  function W3(r: bool): World { Both(Sent(r), A3, B0, SHOWN, NOBODY) }
  function W4(r: bool): World { Both(Sent(r), A4, B0, SHOWN, NOBODY) }
  function W5(r: bool): World { Both(Polled(r), A4, B5, SHOWN, NOBODY) }
  function W6(r: bool): World { Both(Polled(r), A4, B6, SHOWN, NOBODY) }
  function W7(r: bool): World { Both(Polled(r), A4, B7, SHOWN, RECEIVED) }
  function W8(r: bool): World { Both(Polled(r), A4, B7, SHOWN, SEEN) }
  function W9(r: bool): World { Both(Polled(r), A4, B9, SHOWN, SEEN) }
  function W10(r: bool): World { Both(Applied(r), A4, B10, SHOWN, SEEN) }
  function W11(r: bool): World { Both(Applied(r), A4, B11, SHOWN, SEEN) }

  const ADD := Life(ALICE, Add("src", TODO))
  const SHOW := Life(ALICE, Sync(map["src" := TODO]))
  const SEND_TODO := Send("src", "@bob", 7, 0.0, true)
  const POLL_BATCH := Poll([CREATE], 60.0, 1.0, true)

  lemma WhenStarted(r: bool)
    ensures W0(r) == Start(Team(r), TRIGGERS)
  {
    var w := Start(Team(r), TRIGGERS);
    assert w.spokes == map[ALICE := A0, BOB := B0];
    assert w.homes == map[ALICE := NOBODY, BOB := NOBODY];
  }

  lemma StartsDated(receives: bool)
    requires DatedOk(Start(Team(receives), TRIGGERS))
    ensures DatedTo(receives, true, Start(Team(receives), TRIGGERS))
  {
    var w := Start(Team(receives), TRIGGERS);
    assert DatedRun([w], []) && BobIsIdle([]) && [w][0] == w;
  }

  lemma Starts(r: bool)
    ensures DatedTo(r, true, W0(r))
  {
    WhenStarted(r);
    StartDated(Team(r), TRIGGERS);
    StartsDated(r);
  }

  lemma Step0(r: bool)
    ensures Steps(W0(r), ADD, W1(r))
  {
    assert !Synced(TODO);
    assert "@bob" in TODO.tags && HasTrigger(A0, TODO);
    AliceLives(Empty(r), A0, NOBODY, B0, NOBODY, Add("src", TODO), ASKED);
  }

  lemma Step1(r: bool)
    ensures Steps(W1(r), SHOW, W2(r))
  {
    AliceLives(Empty(r), A0, ASKED, B0, NOBODY, Sync(map["src" := TODO]), SHOWN);
  }

  lemma Step2(r: bool)
    ensures Steps(W2(r), Tick(Alice(r), SEND_TODO), W3(r))
  {
    PushSends(r);
    AliceTicks(Alice(r), Empty(r), A0, SHOWN, B0, NOBODY, SEND_TODO, Sent(r), A3, SHOWN);
  }

  lemma Step3(r: bool)
    ensures Steps(W3(r), Tick(Alice(r), MarkSent), W4(r))
  {
    AliceTicks(Alice(r), Sent(r), A3, SHOWN, B0, NOBODY, MarkSent, Sent(r), A4, SHOWN);
  }

  lemma BobsBatch(r: bool)
    ensures IsListing(Sent(r), BOB, [CREATE])
    ensures Lease(Sent(r), Caller(BOB), [CREATE], POLL_LIMIT, 60.0, 1.0) == Reply(Polled(r), Ok([ENTRY]))
  {
    assert Eligible(Sent(r), [CREATE], 1.0) == [CREATE];
    assert ProvenanceTag("alice") == "from-alice";
    var batch := Entries(Sent(r), [CREATE], 1.0);
    assert batch[0] == ENTRY;
    assert batch == [ENTRY];
  }

  lemma Step4(r: bool)
    ensures Steps(W4(r), Tick(Caller(BOB), POLL_BATCH), W5(r))
  {
    BobsBatch(r);
    BobTicks(Sent(r), A4, SHOWN, B0, NOBODY, POLL_BATCH, Polled(r), B5, NOBODY);
  }

  lemma Step5(r: bool)
    ensures Steps(W5(r), Tick(Caller(BOB), Intend(1.0, 1.0)), W6(r))
  {
    BobTicks(Polled(r), A4, SHOWN, B5, NOBODY, Intend(1.0, 1.0), Polled(r), B6, NOBODY);
  }

  lemma SixSteps(r: bool)
    ensures DatedTo(r, true, W6(r))
  {
    Starts(r);
    Step0(r);
    StepsOn(r, W0(r), ADD, W1(r));
    Step1(r);
    StepsOn(r, W1(r), SHOW, W2(r));
    Step2(r);
    StepsOn(r, W2(r), Tick(Alice(r), SEND_TODO), W3(r));
    Step3(r);
    StepsOn(r, W3(r), Tick(Alice(r), MarkSent), W4(r));
    Step4(r);
    StepsOn(r, W4(r), Tick(Caller(BOB), POLL_BATCH), W5(r));
    Step5(r);
    StepsOn(r, W5(r), Tick(Caller(BOB), Intend(1.0, 1.0)), W6(r));
  }

  // ----- a crash before the write -----

  const GIVEN_UP := B6.(phase := Idle)

  function Crashed(): World { Both(Polled(true), A4, GIVEN_UP, SHOWN, NOBODY) }

  lemma Crashes()
    ensures Steps(W6(true), Tick(Caller(BOB), Crash), Crashed())
  {
    BobTicks(Polled(true), A4, SHOWN, B6, NOBODY, Crash, Polled(true), GIVEN_UP, NOBODY);
  }

  lemma NotSettled(r: bool, idle: bool, w: World, start: Time, m: MemberId)
    requires DatedTo(r, idle, w) && m in w.spokes && !(Receivable(w.hub, {m}) && NoneGivenUp(w, {m}))
    ensures !CanSettle(w, start, {m})
  {
    var ws, ls :| DatedRun(ws, ls) && (idle ==> BobIsIdle(ls)) && ws[0] == Start(Team(r), TRIGGERS) && ws[|ls|] == w;
    SettlesExactlyWhen(ws, ls, |ls|, start, {m});
  }

  lemma BobGaveUp()
    ensures BOB in Crashed().spokes && Abandoned(Crashed().spokes[BOB], CREATE) && !NoneGivenUp(Crashed(), {BOB})
  {
    assert Abandoned(GIVEN_UP, CREATE);
  }

  /**
   * Bob's spoke journals the intent and crashes before the write. Alice's todo stays as she tagged
   * it, bob's account stays empty, and no schedule, however late it starts, delivers what is pending
   * to bob.
   */
  lemma CrashBeforeWrite(start: Time)
    ensures DatedTo(true, true, Crashed())
    ensures BOB in Crashed().spokes && Abandoned(Crashed().spokes[BOB], CREATE) && CREATE in Crashed().hub.deliveries
    ensures Crashed().homes == map[ALICE := SHOWN, BOB := NOBODY] && SHOWN.todos == map["src" := TODO]
    ensures !CanSettle(Crashed(), start, {BOB})
  {
    SixSteps(true);
    Crashes();
    StepsOn(true, W6(true), Tick(Caller(BOB), Crash), Crashed());
    BobGaveUp();
    NotSettled(true, true, Crashed(), start, BOB);
  }

  // ----- the handover -----

  lemma Step6(r: bool)
    ensures Steps(W6(r), Tick(Caller(BOB), Fire("dst", 2.0)), W7(r))
  {
    assert NewTodo(ENTRY, 2.0) == COPY;
    BobTicks(Polled(r), A4, SHOWN, B6, NOBODY, Fire("dst", 2.0), Polled(r), B7, RECEIVED);
  }

  lemma Step7(r: bool)
    ensures Steps(W7(r), Life(BOB, Sync(map["dst" := COPY])), W8(r))
  {
    BobLives(Polled(r), A4, SHOWN, B7, RECEIVED, Sync(map["dst" := COPY]), SEEN);
  }

  lemma Step8(r: bool)
    ensures Steps(W8(r), Tick(Caller(BOB), Find("dst")), W9(r))
  {
    assert JournaledDsts(B7.journal) == {};
    assert Matches(SEEN.mirror, "dst", "title", 1.0 - CLOCK_SKEW, "from-alice", {});
    BobTicks(Polled(r), A4, SHOWN, B7, SEEN, Find("dst"), Polled(r), B9, SEEN);
  }

  lemma Step9(r: bool)
    ensures Steps(W9(r), Tick(Caller(BOB), AckHead(3.0, true)), W10(r))
  {
    assert Ack(Polled(r), Caller(BOB), CREATE, "dst", 3.0) == Reply(Applied(r), Ok(Acked));
    assert [ENTRY][1..] == [];
    BobTicks(Polled(r), A4, SHOWN, B9, SEEN, AckHead(3.0, true), Applied(r), B10, SEEN);
  }

  lemma Step10(r: bool)
    ensures Steps(W10(r), Tick(Caller(BOB), Finish), W11(r))
  {
    BobTicks(Applied(r), A4, SHOWN, B10, SEEN, Finish, Applied(r), B11, SEEN);
  }

  lemma ElevenSteps(r: bool)
    ensures DatedTo(r, true, W11(r))
  {
    SixSteps(r);
    Step6(r);
    StepsOn(r, W6(r), Tick(Caller(BOB), Fire("dst", 2.0)), W7(r));
    Step7(r);
    StepsOn(r, W7(r), Life(BOB, Sync(map["dst" := COPY])), W8(r));
    Step8(r);
    StepsOn(r, W8(r), Tick(Caller(BOB), Find("dst")), W9(r));
    Step9(r);
    StepsOn(r, W9(r), Tick(Caller(BOB), AckHead(3.0, true)), W10(r));
    Step10(r);
    StepsOn(r, W10(r), Tick(Caller(BOB), Finish), W11(r));
  }

  // ----- a retag without its marker -----

  const WATCHED := Watched(7, "src", Sender, true)
  const A12 := A4.(phase := Watching([WATCHED]))
  const A13 := A4.(phase := Retagged([WATCHED]))
  const A14 := A4.(phase := Watching([]))

  /** Alice's todo, completed, with these tags of the retag's kept. */
  function Finished(kept: set<string>): Todo {
    TODO.(tags := kept, status := Ended(Completed))
  }

  function HomeDone(kept: set<string>): Home {
    SHOWN.(todos := map["src" := Finished(kept)])
  }

  function HomeShown(kept: set<string>): Home {
    HomeDone(kept).(mirror := map["src" := Finished(kept)])
  }

  function W12(): World { Both(Applied(true), A12, B11, SHOWN, SEEN) }
  function Verified(): World { Both(Applied(true), A13, B11, HomeDone({DELEGATED_TAG}), SEEN) }
  function Unverified(): World { Both(Applied(true), A14, B11, HomeDone({}), SEEN) }
  function Unmarked(kept: set<string>): World { Both(Applied(true), A4, B11, HomeDone(kept), SEEN) }

  lemma AlicesWatch(r: bool)
    ensures IsWatchlist(Applied(r), Alice(r), [WATCHED])
  {
    assert OnWatch(Applied(r), Alice(r), 7) && WatchEntry(Applied(r), Alice(r), 7) == WATCHED;
    assert WATCHED in [WATCHED];
  }

  lemma Step11()
    ensures Steps(W11(true), Tick(Alice(true), Watch([WATCHED])), W12())
  {
    AlicesWatch(true);
    AliceTicks(Alice(true), Applied(true), A4, SHOWN, B11, SEEN, Watch([WATCHED]), Applied(true), A12, SHOWN);
  }

  lemma AtRetag()
    ensures OrdinaryTo(W12())
  {
    ElevenSteps(true);
    Step11();
    StepsOn(true, W11(true), Tick(Alice(true), Watch([WATCHED])), W12());
    DatedToOrdinary(W12());
  }

  lemma AlicesTags()
    ensures RetagTags(A12, TODO.tags) == {DELEGATED_TAG}
  {
  }

  lemma Retags()
    ensures Goes(W12(), Tick(Alice(true), Retag(true, true, {DELEGATED_TAG})), Verified())
  {
    AlicesTags();
    AliceTicks(Alice(true), Applied(true), A12, SHOWN, B11, SEEN, Retag(true, true, {DELEGATED_TAG}),
               Applied(true), A13, HomeDone({DELEGATED_TAG}));
  }

  lemma CrashesUnmarked()
    ensures Goes(Verified(), Tick(Alice(true), Crash), Unmarked({DELEGATED_TAG}))
  {
    AliceTicks(Alice(true), Applied(true), A13, HomeDone({DELEGATED_TAG}), B11, SEEN, Crash,
               Applied(true), A4, HomeDone({DELEGATED_TAG}));
  }

  /** Alice's account has no delegated tag: the todo is completed, the tag dropped, the write not verified. */
  lemma RetagsUnverified()
    ensures Goes(W12(), Tick(Alice(true), Retag(true, false, {})), Unverified())
  {
    AlicesTags();
    assert [WATCHED][1..] == [];
    AliceTicks(Alice(true), Applied(true), A12, SHOWN, B11, SEEN, Retag(true, false, {}), Applied(true), A14, HomeDone({}));
  }

  lemma FinishesUnmarked()
    ensures Goes(Unverified(), Tick(Alice(true), Finish), Unmarked({}))
  {
    AliceTicks(Alice(true), Applied(true), A14, HomeDone({}), B11, SEEN, Finish, Applied(true), A4, HomeDone({}));
  }

  // ----- what the next ticks make of it -----

  const A17 := A4.(phase := Reported([WATCHED], Completed))
  const ECHO := DKey(7, Complete, BOB)
  const TOLD := MAPPED.(terminal := Some(Completed), terminalBy := Some(ALICE))
  const ECHO_ENTRY := EchoEntry(ECHO, 1, "dst")
  const B18 := B9.(phase := Inbox([ECHO_ENTRY]))
  const B19 := B9.(phase := Echoed([ECHO_ENTRY]))
  const TOUCHED := SEEN.(todos := map["dst" := COPY.(status := Ended(Completed))])

  function Told(): Hub {
    Ledger(true, TOLD, map[CREATE := Delivery(Done, 1, 0.0), ECHO := Delivery(Queued, 0, 4.0)], 2)
  }

  function Echoing(): Hub {
    Ledger(true, TOLD, map[CREATE := Delivery(Done, 1, 0.0), ECHO := Delivery(Leased(BOB, 65.0), 1, 4.0)], 2)
  }

  function W15(kept: set<string>): World { Both(Applied(true), A4, B11, HomeShown(kept), SEEN) }
  function W16(kept: set<string>): World { Both(Applied(true), A12, B11, HomeShown(kept), SEEN) }
  function W17(kept: set<string>): World { Both(Told(), A17, B11, HomeShown(kept), SEEN) }
  function W18(kept: set<string>): World { Both(Echoing(), A17, B18, HomeShown(kept), SEEN) }
  function W19(kept: set<string>): World { Both(Echoing(), A17, B19, HomeShown(kept), TOUCHED) }

  lemma Step14(kept: set<string>)
    ensures Goes(Unmarked(kept), Life(ALICE, Sync(map["src" := Finished(kept)])), W15(kept))
  {
    AliceLives(Applied(true), A4, HomeDone(kept), B11, SEEN, Sync(map["src" := Finished(kept)]), HomeShown(kept));
  }

  lemma Step15(kept: set<string>)
    ensures Goes(W15(kept), Tick(Alice(true), Watch([WATCHED])), W16(kept))
  {
    AlicesWatch(true);
    AliceTicks(Alice(true), Applied(true), A4, HomeShown(kept), B11, SEEN, Watch([WATCHED]),
               Applied(true), A12, HomeShown(kept));
  }

  lemma WhenTold()
    ensures Observe(Applied(true), Alice(true), 7, Completed, 4.0) == Reply(Told(), Ok(ObserveReply(Completed, false)))
  {
  }

  lemma Step16(kept: set<string>)
    ensures Goes(W16(kept), Tick(Alice(true), Report(4.0, true)), W17(kept))
  {
    WhenTold();
    AliceTicks(Alice(true), Applied(true), A12, HomeShown(kept), B11, SEEN, Report(4.0, true), Told(), A17, HomeShown(kept));
  }

  lemma EchoBatch()
    ensures IsListing(Told(), BOB, [ECHO])
    ensures Lease(Told(), Caller(BOB), [ECHO], POLL_LIMIT, 60.0, 5.0) == Reply(Echoing(), Ok([ECHO_ENTRY]))
  {
    assert Eligible(Told(), [ECHO], 5.0) == [ECHO];
    var batch := Entries(Told(), [ECHO], 5.0);
    assert batch[0] == ECHO_ENTRY;
    assert batch == [ECHO_ENTRY];
  }

  lemma Step17(kept: set<string>)
    ensures Goes(W17(kept), Tick(Caller(BOB), Poll([ECHO], 60.0, 5.0, true)), W18(kept))
  {
    EchoBatch();
    BobTicks(Told(), A17, HomeShown(kept), B11, SEEN, Poll([ECHO], 60.0, 5.0, true), Echoing(), B18, SEEN);
  }

  lemma Step18(kept: set<string>)
    ensures Goes(W18(kept), Tick(Caller(BOB), WriteTerminal(true, true)), W19(kept))
  {
    BobTicks(Echoing(), A17, HomeShown(kept), B18, SEEN, WriteTerminal(true, true), Echoing(), B19, TOUCHED);
  }

  lemma Cascade(kept: set<string>)
    requires OrdinaryTo(Unmarked(kept))
    ensures OrdinaryTo(W19(kept))
  {
    Step14(kept);
    OrdinaryOn(Unmarked(kept), Life(ALICE, Sync(map["src" := Finished(kept)])), W15(kept));
    Step15(kept);
    OrdinaryOn(W15(kept), Tick(Alice(true), Watch([WATCHED])), W16(kept));
    Step16(kept);
    OrdinaryOn(W16(kept), Tick(Alice(true), Report(4.0, true)), W17(kept));
    Step17(kept);
    OrdinaryOn(W17(kept), Tick(Caller(BOB), Poll([ECHO], 60.0, 5.0, true)), W18(kept));
    Step18(kept);
    OrdinaryOn(W18(kept), Tick(Caller(BOB), WriteTerminal(true, true)), W19(kept));
  }

  /** Alice is recorded as the one who reported, and bob's copy, which his human never touched, is completed. */
  ghost predicate Cascaded(w: World) {
    && w.hub.transfers == map[7 := TOLD] && TOLD.terminalBy == Some(ALICE)
    && BOB in w.homes && w.homes[BOB].todos == map["dst" := COPY.(status := Ended(Completed))]
  }

  lemma WhenTouched(kept: set<string>)
    ensures Cascaded(W19(kept))
  {
  }

  /**
   * Alice's spoke retags her todo and crashes before the marker. On its next tick it reports its own
   * completion as hers, the hub tells bob, and bob's spoke completes a copy he never touched.
   */
  lemma CrashBeforeMarker()
    ensures OrdinaryTo(Verified()) && Goes(Verified(), Tick(Alice(true), Crash), Unmarked({DELEGATED_TAG}))
    ensures OrdinaryTo(W19({DELEGATED_TAG})) && Cascaded(W19({DELEGATED_TAG}))
  {
    AtRetag();
    Retags();
    OrdinaryOn(W12(), Tick(Alice(true), Retag(true, true, {DELEGATED_TAG})), Verified());
    CrashesUnmarked();
    OrdinaryOn(Verified(), Tick(Alice(true), Crash), Unmarked({DELEGATED_TAG}));
    Cascade({DELEGATED_TAG});
    WhenTouched({DELEGATED_TAG});
  }

  /**
   * The same with no crash: alice's account lacks the delegated tag, so the retag completes her todo,
   * drops the tag and goes unverified, and the next tick does not retry it but reports it.
   */
  lemma RetagGoesUnverified()
    ensures OrdinaryTo(W12()) && Goes(W12(), Tick(Alice(true), Retag(true, false, {})), Unverified())
    ensures OrdinaryTo(W19({})) && Cascaded(W19({}))
  {
    AtRetag();
    RetagsUnverified();
    OrdinaryOn(W12(), Tick(Alice(true), Retag(true, false, {})), Unverified());
    FinishesUnmarked();
    OrdinaryOn(Unverified(), Tick(Alice(true), Finish), Unmarked({}));
    Cascade({});
    WhenTouched({});
  }

  // ----- a sender who may not receive -----

  const MINE := Watched(7, "dst", Recipient, true)
  const B12 := B11.(phase := Watching([MINE]))
  const B13 := B11.(phase := Reported([MINE], Completed))
  const ENDED := COPY.(status := Ended(Completed))
  const ENDED_HERE := SEEN.(todos := map["dst" := ENDED])
  const ENDED_SHOWN := ENDED_HERE.(mirror := map["dst" := ENDED])
  const BACK := DKey(7, Complete, ALICE)

  function Owed(): Hub {
    Ledger(false, MAPPED.(terminal := Some(Completed), terminalBy := Some(BOB)),
           map[CREATE := Delivery(Done, 1, 0.0), BACK := Delivery(Queued, 0, 4.0)], 2)
  }

  function V12(): World { Both(Applied(false), A4, B11, SHOWN, ENDED_HERE) }
  function V13(): World { Both(Applied(false), A4, B11, SHOWN, ENDED_SHOWN) }
  function V14(): World { Both(Applied(false), A4, B12, SHOWN, ENDED_SHOWN) }
  function V15(): World { Both(Owed(), A4, B13, SHOWN, ENDED_SHOWN) }

  lemma BobCompletes()
    ensures Goes(W11(false), Life(BOB, End("dst", ENDED)), V12()) && Dated(W11(false), Life(BOB, End("dst", ENDED)))
  {
    assert "from-alice" in COPY.tags && Synced(COPY);
    BobLives(Applied(false), A4, SHOWN, B11, SEEN, End("dst", ENDED), ENDED_HERE);
  }

  lemma BobShows()
    ensures Steps(V12(), Life(BOB, Sync(map["dst" := ENDED])), V13())
  {
    BobLives(Applied(false), A4, SHOWN, B11, ENDED_HERE, Sync(map["dst" := ENDED]), ENDED_SHOWN);
  }

  lemma BobsWatch()
    ensures IsWatchlist(Applied(false), Caller(BOB), [MINE])
  {
    assert OnWatch(Applied(false), Caller(BOB), 7) && WatchEntry(Applied(false), Caller(BOB), 7) == MINE;
    assert MINE in [MINE];
  }

  lemma BobWatches()
    ensures Steps(V13(), Tick(Caller(BOB), Watch([MINE])), V14())
  {
    BobsWatch();
    BobTicks(Applied(false), A4, SHOWN, B11, ENDED_SHOWN, Watch([MINE]), Applied(false), B12, ENDED_SHOWN);
  }

  lemma WhenOwed()
    ensures Observe(Applied(false), Caller(BOB), 7, Completed, 4.0) == Reply(Owed(), Ok(ObserveReply(Completed, false)))
  {
  }

  lemma BobReports()
    ensures Steps(V14(), Tick(Caller(BOB), Report(4.0, true)), V15())
  {
    WhenOwed();
    BobTicks(Applied(false), A4, SHOWN, B12, ENDED_SHOWN, Report(4.0, true), Owed(), B13, ENDED_SHOWN);
  }

  lemma BobsReport()
    ensures DatedTo(false, false, V15())
  {
    ElevenSteps(false);
    StillIdle(false, W11(false));
    BobCompletes();
    DatedOn(false, false, W11(false), Life(BOB, End("dst", ENDED)), V12());
    BobShows();
    DatedOn(false, false, V12(), Life(BOB, Sync(map["dst" := ENDED])), V13());
    BobWatches();
    DatedOn(false, false, V13(), Tick(Caller(BOB), Watch([MINE])), V14());
    BobReports();
    DatedOn(false, false, V14(), Tick(Caller(BOB), Report(4.0, true)), V15());
  }

  lemma AliceIsOwed()
    ensures ALICE in V15().spokes && BACK in HubDrain.Pending(V15().hub) && !Receivable(V15().hub, {ALICE})
  {
  }

  /**
   * Alice may send and not receive: her push is accepted, bob applies and completes, and the echo
   * that would complete her todo waits for ever. No schedule delivers it.
   */
  lemma SenderMayNotReceive(start: Time)
    ensures DatedTo(false, false, V15()) && BACK in HubDrain.Pending(V15().hub)
    ensures V15().homes == map[ALICE := SHOWN, BOB := ENDED_SHOWN]
    ensures !CanSettle(V15(), start, {ALICE})
  {
    BobsReport();
    AliceIsOwed();
    NotSettled(false, false, V15(), start, ALICE);
  }
}
