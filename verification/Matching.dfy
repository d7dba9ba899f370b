/**
 * Read-after-write correlation. Greedy earliest-first search is a matching between the journal's
 * open rows and the created todos nobody has claimed yet, and the matching never runs out.
 */
module Matching {
  import opened Basics
  import opened HubSpec
  import opened SpokeSpec

  /** Provenance tags mark sync-created todos; nothing else carries one. */
  predicate IsProvenance(tag: string) {
    "from-" <= tag
  }

  predicate Synced(todo: Todo) {
    exists t :: t in todo.tags && IsProvenance(t)
  }

  /** The todo that writing this intent makes. */
  predicate IsCopy(todo: Todo, intent: Intent) {
    todo.title == intent.title && todo.tags == {intent.provenance}
  }

  /** Rows whose create was written and whose todo is not correlated yet. */
  function OpenKeys(s: Spoke): set<DKey> {
    set k | k in s.journal && s.journal[k].dst.None?
            && !(s.phase.Firing? && s.phase.queue != [] && s.phase.queue[0].key == k)
  }

  /** A todo that open row k may claim. */
  predicate Claimable(j: Journal, todos: Todos, k: DKey, u: Uuid) {
    && k in j && u in todos && u !in JournaledDsts(j)
    && IsCopy(todos[u], j[k]) && !todos[u].trashed
    && todos[u].created >= WindowStart(j[k])
  }

  /** A bijection between the open rows and the unclaimed sync-created todos, each within its row's window. */
  ghost predicate Matching(assign: map<DKey, Uuid>, j: Journal, open: set<DKey>, todos: Todos) {
    && assign.Keys == open
    && (forall k, l :: k in assign && l in assign && assign[k] == assign[l] ==> k == l)
    && (forall k :: k in assign ==> Claimable(j, todos, k, assign[k]))
    && (forall u :: u in todos && Synced(todos[u]) && u !in JournaledDsts(j) ==> exists k :: k in assign && assign[k] == u)
  }

  ghost predicate Matchable(j: Journal, open: set<DKey>, todos: Todos) {
    exists assign :: Matching(assign, j, open, todos)
  }

  lemma EmptyMatches()
    ensures Matchable(map[], {}, map[])
  {
    assert Matching(map[], map[], {}, map[]);
  }

  /** A row's uuid is that of a copy of it. */
  ghost predicate Copied(j: Journal, todos: Todos) {
    forall k :: k in j && j[k].dst.Some? ==> j[k].dst.value in todos && IsCopy(todos[j[k].dst.value], j[k])
  }

  // ----- what the tick does to the matching -----

  lemma IntendMatches(j: Journal, open: set<DKey>, todos: Todos, k: DKey, intent: Intent)
    requires Matchable(j, open, todos) && k !in j && intent.dst.None?
    ensures Matchable(j[k := intent], open, todos)
  {
    var j' := j[k := intent];
    assert JournaledDsts(j') == JournaledDsts(j) by { SameDsts(j, j'); }
    var assign :| Matching(assign, j, open, todos);
    assert Matching(assign, j', open, todos);
  }

  lemma SameDsts(j: Journal, j': Journal)
    requires forall k :: k in j && j[k].dst.Some? ==> k in j' && j'[k].dst == j[k].dst
    requires forall k :: k in j' && j'[k].dst.Some? ==> k in j && j'[k].dst == j[k].dst
    ensures JournaledDsts(j') == JournaledDsts(j)
  {
  }

  lemma FireMatches(j: Journal, open: set<DKey>, todos: Todos, k: DKey, u: Uuid, todo: Todo)
    requires Matchable(j, open, todos) && k in j && k !in open && u !in todos && u !in JournaledDsts(j)
    requires IsCopy(todo, j[k]) && !todo.trashed && todo.created >= WindowStart(j[k])
    ensures Matchable(j, open + {k}, todos[u := todo])
  {
    var assign :| Matching(assign, j, open, todos);
    FireExtends(assign, j, open, todos, k, u, todo);
  }

  lemma FireExtends(assign: map<DKey, Uuid>, j: Journal, open: set<DKey>, todos: Todos, k: DKey, u: Uuid, todo: Todo)
    requires Matching(assign, j, open, todos) && k in j && k !in open && u !in todos
    requires Claimable(j, todos[u := todo], k, u)
    ensures Matching(assign[k := u], j, open + {k}, todos[u := todo])
  {
    var assign', todos' := assign[k := u], todos[u := todo];
    forall l | l in assign' ensures Claimable(j, todos', l, assign'[l]) && (l != k ==> assign'[l] in todos) {
      if l != k { assert Claimable(j, todos, l, assign[l]); }
    }
    forall v | v in todos' && Synced(todos'[v]) && v !in JournaledDsts(j)
      ensures exists l :: l in assign' && assign'[l] == v
    {
      if v == u {
        assert k in assign' && assign'[k] == v;
      } else {
        var l :| l in assign && assign[l] == v;
        assert l in assign' && assign'[l] == v;
      }
    }
  }

  /** Nothing that matters for claiming the todo has changed. */
  predicate StillClaimable(before: Todo, after: Todo) {
    && after.title == before.title && after.tags == before.tags && after.created == before.created
    && (after.trashed ==> before.trashed)
  }

  /** Changes that leave the unclaimed sync-created todos claimable keep the matching. */
  lemma EditMatches(j: Journal, open: set<DKey>, todos: Todos, todos': Todos)
    requires Matchable(j, open, todos)
    requires forall u :: u in todos && Synced(todos[u]) && u !in JournaledDsts(j) ==>
      u in todos' && StillClaimable(todos[u], todos'[u])
    requires forall u :: u in todos' && Synced(todos'[u]) ==> u in todos && Synced(todos[u])
    requires forall k :: k in j ==> IsProvenance(j[k].provenance)
    ensures Matchable(j, open, todos')
  {
    var assign :| Matching(assign, j, open, todos);
    forall k | k in assign ensures Claimable(j, todos', k, assign[k]) {
      assert Claimable(j, todos, k, assign[k]);
      assert j[k].provenance in todos[assign[k]].tags;
    }
    assert Matching(assign, j, open, todos');
  }

  /** A row claims the earliest todo; if that was promised to another row, the two swap. */
  function Swap(assign: map<DKey, Uuid>, k: DKey, found: Uuid): map<DKey, Uuid>
    requires k in assign
  {
    map l | l in assign && l != k :: if assign[l] == found then assign[k] else assign[l]
  }

  /** Greedy is safe: claiming the earliest match in k's window leaves every other open row a match. */
  lemma FindMatches(j: Journal, open: set<DKey>, todos: Todos, k: DKey, found: Uuid, after: Time)
    requires Matchable(j, open, todos) && k in open && k in j && j[k].dst.None? && after <= WindowStart(j[k])
    requires found in todos && Synced(todos[found]) && IsCopy(todos[found], j[k]) && found !in JournaledDsts(j)
    requires forall v :: v in todos && IsCopy(todos[v], j[k]) && v !in JournaledDsts(j)
                      && !todos[v].trashed && todos[v].created >= after
                      ==> todos[found].created <= todos[v].created
    ensures Matchable(j[k := j[k].(dst := Some(found))], open - {k}, todos)
  {
    var assign :| Matching(assign, j, open, todos);
    var j' := j[k := j[k].(dst := Some(found))];
    FoundDsts(j, k, found);
    assert Claimable(j, todos, k, assign[k]);
    SwapMatches(assign, j, open, todos, k, found);
  }

  lemma FoundDsts(j: Journal, k: DKey, found: Uuid)
    requires k in j && j[k].dst.None?
    ensures JournaledDsts(j[k := j[k].(dst := Some(found))]) == JournaledDsts(j) + {found}
  {
    var j' := j[k := j[k].(dst := Some(found))];
    forall u | u in JournaledDsts(j) + {found} ensures u in JournaledDsts(j') {
      if u == found {
        assert k in j' && j'[k].dst == Some(found);
      } else {
        var l :| l in j && j[l].dst.Some? && j[l].dst.value == u;
        assert l in j' && j'[l].dst == Some(u);
      }
    }
  }

  lemma SwapMatches(assign: map<DKey, Uuid>, j: Journal, open: set<DKey>, todos: Todos, k: DKey, found: Uuid)
    requires Matching(assign, j, open, todos) && k in open && j[k].dst.None?
    requires found in todos && Synced(todos[found]) && IsCopy(todos[found], j[k]) && found !in JournaledDsts(j)
    requires todos[found].created <= todos[assign[k]].created
    requires JournaledDsts(j[k := j[k].(dst := Some(found))]) == JournaledDsts(j) + {found}
    ensures Matching(Swap(assign, k, found), j[k := j[k].(dst := Some(found))], open - {k}, todos)
  {
    var j' := j[k := j[k].(dst := Some(found))];
    var assign' := Swap(assign, k, found);
    assert Claimable(j, todos, k, assign[k]);
    forall l | l in assign' ensures Claimable(j', todos, l, assign'[l]) {
      assert Claimable(j, todos, l, assign[l]);
    }
    forall u | u in todos && Synced(todos[u]) && u !in JournaledDsts(j')
      ensures exists l :: l in assign' && assign'[l] == u
    {
      var l :| l in assign && assign[l] == u;
      if l == k {
        var o :| o in assign && assign[o] == found;
        assert o in assign' && assign'[o] == u;
      } else {
        assert l in assign' && assign'[l] == u;
      }
    }
  }

  // ----- no starvation -----

  /** Open rows of one (title, provenance) class whose window starts at x or later. */
  function Waiting(j: Journal, open: set<DKey>, title: string, provenance: string, x: Time): set<DKey> {
    set k | k in open && k in j && j[k].title == title && j[k].provenance == provenance && WindowStart(j[k]) >= x
  }

  /** Unclaimed todos of the class created at x or later. */
  function Unclaimed(j: Journal, todos: Todos, title: string, provenance: string, x: Time): set<Uuid> {
    set u | u in todos && Matches(todos, u, title, x, provenance, JournaledDsts(j))
  }

  /** For every threshold, the unclaimed todos of a class are at least as many as the rows waiting for one. */
  lemma EnoughForAll(j: Journal, open: set<DKey>, todos: Todos, title: string, provenance: string, x: Time)
    requires Matchable(j, open, todos)
    ensures |Waiting(j, open, title, provenance, x)| <= |Unclaimed(j, todos, title, provenance, x)|
  {
    var assign :| Matching(assign, j, open, todos);
    forall k | k in Waiting(j, open, title, provenance, x)
      ensures k in assign && assign[k] in Unclaimed(j, todos, title, provenance, x)
    {
      assert Claimable(j, todos, k, assign[k]);
    }
    InjectionBound(Waiting(j, open, title, provenance, x), Unclaimed(j, todos, title, provenance, x), assign);
  }

  /** So an open row never starves: once the mirror shows the account, its search has an answer. */
  lemma OpenRowHasMatch(j: Journal, open: set<DKey>, todos: Todos, k: DKey, after: Time)
    requires Matchable(j, open, todos) && k in open && after <= WindowStart(j[k])
    ensures exists u :: Matches(todos, u, j[k].title, after, j[k].provenance, JournaledDsts(j))
  {
    var assign :| Matching(assign, j, open, todos);
    assert Claimable(j, todos, k, assign[k]);
    assert Matches(todos, assign[k], j[k].title, after, j[k].provenance, JournaledDsts(j));
  }
}
