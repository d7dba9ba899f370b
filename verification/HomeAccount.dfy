/** An account is kept by every action of a tick, whatever fails, and by every ordinary event. */
module HomeAccount {
  import opened Basics
  import opened HubSpec
  import opened HubInvariant
  import opened HubHistory
  import opened SpokeSpec
  import opened SpokeInvariant
  import opened SpokeSteps
  import opened Matching
  import opened System
  import opened SystemSafety
  import opened HomeInvariant

  predicate NoProvenance(tags: set<string>) {
    forall t :: t in tags ==> !IsProvenance(t)
  }

  lemma UnsyncedTags(todo: Todo)
    ensures !Synced(todo) <==> NoProvenance(todo.tags)
  {
  }

  lemma ProvenanceIs(handle: string)
    ensures IsProvenance(ProvenanceTag(handle))
  {
  }

  /** A copy of a journal row is synced and carries no trigger. */
  lemma CopyIsSynced(s: Spoke, todo: Todo, k: DKey)
    requires TriggersOk(s) && RowsOk(s.journal) && k in s.journal && IsCopy(todo, s.journal[k])
    ensures Synced(todo) && !HasTrigger(s, todo)
  {
    assert s.journal[k].provenance in todo.tags;
  }

  lemma SyncedIsCopy(s: Spoke, todos: Todos, u: Uuid) returns (k: DKey)
    requires Made(s, todos) && u in todos && Synced(todos[u])
    ensures k in s.fired && k in s.journal && IsCopy(todos[u], s.journal[k])
  {
    var makes :| MadeBy(makes, s, todos);
    k := makes[u];
  }

  /** A todo without a provenance tag is nobody's copy. */
  lemma UnsyncedIsNoCopy(j: Journal, todos: Todos, u: Uuid)
    requires Copied(j, todos) && RowsOk(j) && (u in todos ==> !Synced(todos[u]))
    ensures forall k :: k in j && j[k].dst.Some? ==> j[k].dst.value != u
  {
  }

  // ----- one todo changes -----

  /** The change keeps what the todo is: a copy under its title and tags, or no copy. */
  ghost predicate SameKind(todos: Todos, u: Uuid, todo: Todo) {
    if u in todos && Synced(todos[u]) then todo.title == todos[u].title && todo.tags == todos[u].tags
    else !Synced(todo)
  }

  lemma ChangeSynced(todos: Todos, u: Uuid, todo: Todo)
    requires SameKind(todos, u, todo)
    ensures SyncedTodos(todos[u := todo]) == SyncedTodos(todos)
  {
    if u in todos && Synced(todos[u]) {
      UnsyncedTags(todo);
      UnsyncedTags(todos[u]);
    }
  }

  lemma MakesStill(makes: map<Uuid, DKey>, s: Spoke, todos: Todos, u: Uuid, todo: Todo)
    requires MadeBy(makes, s, todos) && SameKind(todos, u, todo) && SyncedTodos(todos[u := todo]) == SyncedTodos(todos)
    ensures MadeBy(makes, s, todos[u := todo])
  {
    forall v | v in makes ensures IsCopy(todos[u := todo][v], s.journal[makes[v]]) {
      assert v in SyncedTodos(todos);
    }
  }

  lemma CopiedStill(j: Journal, todos: Todos, u: Uuid, todo: Todo)
    requires Copied(j, todos) && RowsOk(j) && SameKind(todos, u, todo)
    ensures Copied(j, todos[u := todo])
  {
    if !(u in todos && Synced(todos[u])) { UnsyncedIsNoCopy(j, todos, u); }
  }

  lemma ChangeMade(s: Spoke, todos: Todos, u: Uuid, todo: Todo)
    requires Made(s, todos) && Copied(s.journal, todos) && RowsOk(s.journal) && SameKind(todos, u, todo)
    ensures Made(s, todos[u := todo]) && Copied(s.journal, todos[u := todo])
  {
    ChangeSynced(todos, u, todo);
    CopiedStill(s.journal, todos, u, todo);
    var makes :| MadeBy(makes, s, todos);
    MakesStill(makes, s, todos, u, todo);
  }

  lemma ChangeSeen(home: Home, u: Uuid, todo: Todo)
    requires SeenOk(home) && SameKind(home.todos, u, todo)
    ensures SeenOk(home.(todos := home.todos[u := todo]))
  {
    if u in home.todos && Synced(home.todos[u]) { UnsyncedTags(todo); UnsyncedTags(home.todos[u]); }
  }

  lemma ChangeAsked(home: Home, u: Uuid, todo: Todo)
    requires AskedOk(home) && SameKind(home.todos, u, todo)
    ensures AskedOk(home.(todos := home.todos[u := todo]))
  {
  }

  /** A todo changes to one that offers nothing. */
  lemma ChangeAccount(s: Spoke, home: Home, u: Uuid, todo: Todo)
    requires AccountOk(s, home) && SameKind(home.todos, u, todo)
    requires HasTrigger(s, todo) ==> todo.status.Ended?
    ensures AccountOk(s, home.(todos := home.todos[u := todo]))
  {
    var home' := home.(todos := home.todos[u := todo]);
    ChangeMade(s, home.todos, u, todo);
    ChangeSeen(home, u, todo);
    ChangeAsked(home, u, todo);
    assert OffersOk(s, home', home'.todos) && OffersOk(s, home', home'.mirror);
  }

  // ----- ordinary events -----

  lemma SyncAccount(s: Spoke, home: Home, view: Todos)
    requires AccountOk(s, home) && Shows(home, view)
    ensures AccountOk(s, home.(mirror := view))
  {
    var home' := home.(mirror := view);
    assert OffersOk(s, home', home'.mirror);
    assert SeenOk(home');
  }

  lemma PutOffers(s: Spoke, home: Home, u: Uuid, todo: Todo)
    requires OffersOk(s, home, home.todos) && OffersOk(s, home, home.mirror) && u !in home.asked
    ensures var asked' := if HasTrigger(s, todo) then home.asked[u := todo] else home.asked;
      var home' := home.(todos := home.todos[u := todo], asked := asked');
      OffersOk(s, home', home'.todos) && OffersOk(s, home', home'.mirror)
  {
  }

  /** Adding a todo, or editing one not yet delegated. */
  lemma PutAccount(s: Spoke, home: Home, u: Uuid, todo: Todo)
    requires AccountOk(s, home) && u !in home.asked && !Synced(todo) && (u in home.todos ==> !Synced(home.todos[u]))
    ensures var asked' := if HasTrigger(s, todo) then home.asked[u := todo] else home.asked;
      AccountOk(s, home.(todos := home.todos[u := todo], asked := asked'))
  {
    var asked' := if HasTrigger(s, todo) then home.asked[u := todo] else home.asked;
    var home' := home.(todos := home.todos[u := todo], asked := asked');
    PutOffers(s, home, u, todo);
    ChangeMade(s, home.todos, u, todo);
    ChangeSeen(home, u, todo);
    ChangeAsked(home, u, todo);
    assert AskedOk(home');
  }

  lemma EndAccount(s: Spoke, home: Home, u: Uuid, todo: Todo)
    requires AccountOk(s, home) && u in home.todos && Synced(home.todos[u])
    requires todo.title == home.todos[u].title && todo.tags == home.todos[u].tags
    ensures AccountOk(s, home.(todos := home.todos[u := todo])) && u !in home.asked
  {
    var k := SyncedIsCopy(s, home.todos, u);
    CopyIsSynced(s, todo, k);
    ChangeAccount(s, home, u, todo);
  }

  // ----- the tick's own changes -----

  lemma OffersFrame(s: Spoke, s': Spoke, home: Home, view: Todos)
    requires OffersOk(s, home, view) && s'.triggers == s.triggers
    ensures OffersOk(s', home, view)
  {
  }

  lemma AccountFrame(s: Spoke, s': Spoke, home: Home)
    requires AccountOk(s, home) && s'.triggers == s.triggers && s'.journal == s.journal && s'.fired == s.fired
    ensures AccountOk(s', home)
  {
    OffersFrame(s, s', home, home.todos);
    OffersFrame(s, s', home, home.mirror);
    var makes :| MadeBy(makes, s, home.todos);
    assert MadeBy(makes, s', home.todos);
  }

  /** A row is opened, or closed on a copy of it. */
  lemma RowAccount(s: Spoke, s': Spoke, home: Home, k: DKey, row: Intent)
    requires AccountOk(s, home) && s'.triggers == s.triggers && s'.fired == s.fired && s'.journal == s.journal[k := row]
    requires IsProvenance(row.provenance)
    requires if k in s.journal then row == s.journal[k].(dst := row.dst) else k !in s.fired
    requires row.dst.Some? ==> row.dst.value in home.todos && IsCopy(home.todos[row.dst.value], row)
    ensures AccountOk(s', home)
  {
    OffersFrame(s, s', home, home.todos);
    OffersFrame(s, s', home, home.mirror);
    var makes :| MadeBy(makes, s, home.todos);
    assert MadeBy(makes, s', home.todos);
  }

  lemma IntendAccount(h: Hub, m: MemberId, s: Spoke, s': Spoke, home: Home, e: Entry, firedAt: Time)
    requires AccountOk(s, home) && e.CreateEntry? && EntryOk(h, m, e) && e.key !in s.journal && FiredOk(s)
    requires s'.triggers == s.triggers && s'.fired == s.fired
    requires s'.journal == s.journal[e.key := Intent(e.payload.title, e.provenance, firedAt, None)]
    ensures AccountOk(s', home)
  {
    ProvenanceIs(h.roster.members[h.transfers[e.key.tid].from].handle);
    RowAccount(s, s', home, e.key, Intent(e.payload.title, e.provenance, firedAt, None));
  }

  /** What matches a row in the mirror is a copy of it in the account. */
  lemma MatchIsCopy(s: Spoke, home: Home, k: DKey, found: Uuid, after: Time, exclude: set<Uuid>)
    requires AccountOk(s, home) && k in s.journal
    requires Matches(home.mirror, found, s.journal[k].title, after, s.journal[k].provenance, exclude)
    ensures found in home.todos && Synced(home.todos[found]) && IsCopy(home.todos[found], s.journal[k])
  {
    var row := s.journal[k];
    assert row.provenance in home.mirror[found].tags && IsProvenance(row.provenance);
    assert SeenAs(home.mirror[found], home.todos[found]);
    assert Synced(home.mirror[found]);
    var l := SyncedIsCopy(s, home.todos, found);
  }

  lemma FindAccount(s: Spoke, s': Spoke, home: Home, k: DKey, found: Uuid, after: Time, exclude: set<Uuid>)
    requires AccountOk(s, home) && k in s.journal
    requires Matches(home.mirror, found, s.journal[k].title, after, s.journal[k].provenance, exclude)
    requires s'.triggers == s.triggers && s'.fired == s.fired
    requires s'.journal == s.journal[k := s.journal[k].(dst := Some(found))]
    ensures AccountOk(s', home)
  {
    MatchIsCopy(s, home, k, found, after, exclude);
    RowAccount(s, s', home, k, s.journal[k].(dst := Some(found)));
  }

  lemma FireMade(s: Spoke, s': Spoke, todos: Todos, k: DKey, u: Uuid, todo: Todo)
    requires Made(s, todos) && k in s.journal && k !in s.fired && u !in todos
    requires s'.journal == s.journal && s'.fired == s.fired + [k] && IsCopy(todo, s.journal[k]) && Synced(todo)
    ensures Made(s', todos[u := todo])
  {
    var makes :| MadeBy(makes, s, todos);
    MakesOneMore(makes, s, s', todos, k, u, todo);
  }

  lemma MakesOneMore(makes: map<Uuid, DKey>, s: Spoke, s': Spoke, todos: Todos, k: DKey, u: Uuid, todo: Todo)
    requires MadeBy(makes, s, todos) && k in s.journal && k !in s.fired && u !in todos
    requires s'.journal == s.journal && s'.fired == s.fired + [k] && IsCopy(todo, s.journal[k]) && Synced(todo)
    ensures MadeBy(makes[u := k], s', todos[u := todo])
  {
    assert SyncedTodos(todos[u := todo]) == SyncedTodos(todos) + {u};
    forall v | v in makes ensures makes[v] in s'.fired && makes[v] != k {
    }
  }

  lemma FireAccount(s: Spoke, s': Spoke, home: Home, k: DKey, u: Uuid, todo: Todo)
    requires AccountOk(s, home) && k in s.journal && k !in s.fired && u !in home.todos && IsCopy(todo, s.journal[k])
    requires s'.triggers == s.triggers && s'.journal == s.journal && s'.fired == s.fired + [k]
    ensures AccountOk(s', home.(todos := home.todos[u := todo]))
  {
    var home' := home.(todos := home.todos[u := todo]);
    CopyIsSynced(s, todo, k);
    FireMade(s, s', home.todos, k, u, todo);
    assert OffersOk(s, home', home'.todos) && OffersOk(s, home', home'.mirror);
    OffersFrame(s, s', home', home'.todos);
    OffersFrame(s, s', home', home'.mirror);
    assert SeenOk(home') && AskedOk(home');
  }

  /** A terminal write changes a status and nothing else. */
  lemma WriteAccount(s: Spoke, home: Home, u: Uuid)
    requires AccountOk(s, home) && u in home.todos
    ensures AccountOk(s, home.(todos := home.todos[u := home.todos[u].(status := Ended(Completed))]))
  {
    UnsyncedTags(home.todos[u]);
    UnsyncedTags(home.todos[u].(status := Ended(Completed)));
    ChangeAccount(s, home, u, home.todos[u].(status := Ended(Completed)));
  }

  lemma RetagTagsPlain(s: Spoke, tags: set<string>)
    requires NoProvenance(tags)
    ensures NoProvenance(RetagTags(s, tags))
  {
    assert DELEGATED_TAG[0] != 'f';
  }

  lemma RetagAccount(s: Spoke, home: Home, u: Uuid, kept: set<string>)
    requires AccountOk(s, home) && u in home.asked && u in home.mirror && kept <= RetagTags(s, home.mirror[u].tags)
    ensures u in home.todos
    ensures AccountOk(s, home.(todos := home.todos[u := home.todos[u].(tags := kept, status := Ended(Completed))]))
  {
    var todo := home.todos[u].(tags := kept, status := Ended(Completed));
    assert SeenAs(home.mirror[u], home.todos[u]);
    UnsyncedTags(home.mirror[u]);
    RetagTagsPlain(s, home.mirror[u].tags);
    UnsyncedTags(todo);
    ChangeAccount(s, home, u, todo);
  }
}
