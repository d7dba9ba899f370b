/**
 * What can be seen of a create given up: some class of rows has more waiting for a todo than there
 * are unclaimed todos for them.
 */
module Shortage {
  import opened Basics
  import opened HubSpec
  import opened HubInvariant
  import opened SpokeSpec
  import opened SpokeInvariant
  import opened SpokeSteps
  import opened Matching
  import opened System
  import opened SystemSafety
  import opened HomeInvariant
  import opened HomeAccount
  import opened CarefulRuns

  /** What a search goes by. */
  datatype Class = Class(title: string, provenance: string)

  predicate OfClass(row: Intent, c: Class) {
    row.title == c.title && row.provenance == c.provenance
  }

  predicate IsFiring(s: Spoke, k: DKey) {
    s.phase.Firing? && HeadIsCreate(s.phase.queue) && s.phase.queue[0].key == k
  }

  /** The rows of the class whose write is not the next thing to happen. */
  function Rows(s: Spoke, c: Class): set<DKey> {
    set k | k in s.journal && OfClass(s.journal[k], c) && !IsFiring(s, k)
  }

  function Closed(s: Spoke, c: Class): set<DKey> {
    set k | k in Rows(s, c) && s.journal[k].dst.Some?
  }

  function Fired(s: Spoke, c: Class): set<DKey> {
    set k | k in s.journal && k in s.fired && OfClass(s.journal[k], c)
  }

  function Copies(todos: Todos, c: Class): set<Uuid> {
    set u | u in todos && todos[u].title == c.title && todos[u].tags == {c.provenance}
  }

  function Claimed(s: Spoke, c: Class): set<Uuid> {
    set k | k in Closed(s, c) :: s.journal[k].dst.value
  }

  /** Each copy was made by a row of its class. */
  lemma CopiesAtMost(s: Spoke, todos: Todos, c: Class)
    requires Made(s, todos) && IsProvenance(c.provenance)
    ensures |Copies(todos, c)| <= |Fired(s, c)|
  {
    var makes :| MadeBy(makes, s, todos);
    forall u | u in Copies(todos, c) ensures u in makes && makes[u] in Fired(s, c) {
      assert c.provenance in todos[u].tags;
      assert u in SyncedTodos(todos);
      assert todos[u].tags == {s.journal[makes[u]].provenance};
    }
    InjectionBound(Copies(todos, c), Fired(s, c), makes);
  }

  /** Closed rows claim as many copies. */
  lemma ClaimedCopies(s: Spoke, todos: Todos, c: Class)
    requires Injective(s.journal) && Copied(s.journal, todos)
    ensures |Closed(s, c)| <= |Claimed(s, c)| && Claimed(s, c) <= Copies(todos, c)
  {
    var f := map k | k in Closed(s, c) :: s.journal[k].dst.value;
    forall k, l | k in Closed(s, c) && l in Closed(s, c) && f[k] == f[l] ensures k == l {
      assert s.journal[k].dst == s.journal[l].dst;
    }
    InjectionBound(Closed(s, c), Claimed(s, c), f);
  }

  /** What matches a row is an unclaimed copy of its class. */
  lemma UnclaimedCopies(s: Spoke, todos: Todos, c: Class, x: Time)
    requires Made(s, todos) && IsProvenance(c.provenance)
    ensures Unclaimed(s.journal, todos, c.title, c.provenance, x) <= Copies(todos, c) - Claimed(s, c)
  {
    forall u | u in Unclaimed(s.journal, todos, c.title, c.provenance, x) ensures u in Copies(todos, c) - Claimed(s, c) {
      assert c.provenance in todos[u].tags;
      var k := SyncedIsCopy(s, todos, u);
    }
  }

  /** A row given up is one that made nothing. */
  lemma GivenUpMadeNothing(h: Hub, m: MemberId, s: Spoke, c: Class, k: DKey)
    requires PhaseOk(h, m, s) && Abandoned(s, k) && OfClass(s.journal[k], c)
    ensures |Fired(s, c)| + 1 <= |Rows(s, c)|
  {
    SubsetSize(Fired(s, c), Rows(s, c) - {k});
    assert k in Rows(s, c);
  }

  lemma SubsetSize<T>(xs: set<T>, ys: set<T>)
    requires xs <= ys
    ensures |xs| <= |ys|
  {
    InjectionBound(xs, ys, map x | x in xs :: x);
  }

  lemma {:induction false} LowStart(j: Journal, ks: set<DKey>) returns (x: Time)
    requires ks <= j.Keys
    ensures forall k :: k in ks ==> x <= WindowStart(j[k])
  {
    x := 0.0;
    if ks != {} {
      var k :| k in ks;
      x := LowStart(j, ks - {k});
      if WindowStart(j[k]) < x { x := WindowStart(j[k]); }
    }
  }

  lemma RowsOpenOrClosed(h: Hub, m: MemberId, s: Spoke, c: Class, x: Time)
    requires PhaseOk(h, m, s) && forall k :: k in Rows(s, c) ==> x <= WindowStart(s.journal[k])
    ensures |Rows(s, c)| == |Waiting(s.journal, OpenKeys(s), c.title, c.provenance, x)| + |Closed(s, c)|
  {
    var waiting := Waiting(s.journal, OpenKeys(s), c.title, c.provenance, x);
    assert waiting !! Closed(s, c);
    assert Rows(s, c) == waiting + Closed(s, c);
  }

  ghost predicate Enough(s: Spoke, todos: Todos) {
    forall title, provenance, x ::
      |Waiting(s.journal, OpenKeys(s), title, provenance, x)| <= |Unclaimed(s.journal, todos, title, provenance, x)|
  }

  /** Counting: claimed and unclaimed copies are made by written rows, of which there is one too few. */
  lemma GivenUpIsShort(h: Hub, m: MemberId, s: Spoke, todos: Todos, k: DKey)
    requires PhaseOk(h, m, s) && Injective(s.journal) && Copied(s.journal, todos) && Made(s, todos) && RowsOk(s.journal)
    requires Abandoned(s, k)
    ensures !Enough(s, todos)
  {
    var c := Class(s.journal[k].title, s.journal[k].provenance);
    var x := LowStart(s.journal, Rows(s, c));
    CopiesAtMost(s, todos, c);
    ClaimedCopies(s, todos, c);
    UnclaimedCopies(s, todos, c, x);
    GivenUpMadeNothing(h, m, s, c, k);
    RowsOpenOrClosed(h, m, s, c, x);
    SubsetSize(Unclaimed(s.journal, todos, c.title, c.provenance, x), Copies(todos, c) - Claimed(s, c));
    assert |Copies(todos, c) - Claimed(s, c)| == |Copies(todos, c)| - |Claimed(s, c)|;
    assert |Waiting(s.journal, OpenKeys(s), c.title, c.provenance, x)|
         > |Unclaimed(s.journal, todos, c.title, c.provenance, x)|;
  }

  lemma MatchedIsEnough(s: Spoke, todos: Todos)
    requires Matchable(s.journal, OpenKeys(s), todos)
    ensures Enough(s, todos)
  {
    forall title, provenance, x
      ensures |Waiting(s.journal, OpenKeys(s), title, provenance, x)| <= |Unclaimed(s.journal, todos, title, provenance, x)|
    {
      EnoughForAll(s.journal, OpenKeys(s), todos, title, provenance, x);
    }
  }

  lemma EnoughExactly(w: World, m: MemberId)
    requires DatedOk(w) && m in w.spokes && m in w.homes
    ensures NoneAbandoned(w.spokes[m]) <==> Enough(w.spokes[m], w.homes[m].todos)
  {
    MemberDated(w, m);
    if NoneAbandoned(w.spokes[m]) {
      MatchedIsEnough(w.spokes[m], w.homes[m].todos);
    } else {
      var k :| k in w.spokes[m].journal && Abandoned(w.spokes[m], k);
      GivenUpIsShort(w.hub, m, w.spokes[m], w.homes[m].todos, k);
    }
  }

  /**
   * In every state of every dated run, a member has given up no create if and only if, for every
   * title, provenance and threshold, the unclaimed copies dated from the threshold on are at least
   * as many as the open rows whose window starts from it on.
   */
  lemma GivenUpExactlyWhen(ws: seq<World>, ls: seq<Label>, i: nat, m: MemberId)
    requires DatedRun(ws, ls) && i < |ws| && m in ws[i].spokes
    ensures m in ws[i].homes
    ensures NoneAbandoned(ws[i].spokes[m]) <==> Enough(ws[i].spokes[m], ws[i].homes[m].todos)
  {
    RunDated(ws, ls, i);
    MemberDated(ws[i], m);
    EnoughExactly(ws[i], m);
  }
}
