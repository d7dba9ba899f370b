/** Dated todos keep a match for every journaled row whose create was written, as long as none was abandoned. */
module HomeDates {
  import opened Basics
  import opened HubSpec
  import opened HubInvariant
  import opened SpokeSpec
  import opened SpokeInvariant
  import opened SpokeSteps
  import opened Matching
  import opened System
  import opened SystemSafety
  import opened HomeInvariant
  import opened HomeAccount
  import opened HomeKept
  import opened HomeCareful

  // ----- steps that leave the account alone -----

  lemma StillNone(s: Spoke, s': Spoke)
    requires s'.journal == s.journal && s'.fired == s.fired && !s.phase.Firing? && !s'.phase.Firing?
    ensures NoneAbandoned(s') <==> NoneAbandoned(s)
    ensures OpenKeys(s') == OpenKeys(s)
  {
    forall k | k in s.journal ensures Abandoned(s', k) <==> Abandoned(s, k) {
    }
  }

  /** Leaving the firing state without firing abandons the row. */
  lemma LeavingAbandons(h: Hub, m: MemberId, s: Spoke, s': Spoke)
    requires PhaseOk(h, m, s) && s.phase.Firing? && !s'.phase.Firing? && s'.journal == s.journal && s'.fired == s.fired
    ensures !NoneAbandoned(s')
  {
    assert Abandoned(s', s.phase.queue[0].key);
  }

  lemma MoveDates(h: Hub, m: MemberId, s: Spoke, s': Spoke, home: Home)
    requires DatesOk(s, home) && PhaseOk(h, m, s) && s'.journal == s.journal && s'.fired == s.fired
    requires !s'.phase.Firing? && WindowOk(s')
    ensures DatesOk(s', home)
  {
    if s.phase.Firing? {
      LeavingAbandons(h, m, s, s');
    } else {
      StillNone(s, s');
    }
  }

  // ----- the journal -----

  /** A row is opened, or an open one closed. */
  lemma RowUntrashed(s: Spoke, s': Spoke, home: Home, k: DKey, row: Intent)
    requires UntrashedOk(s, home) && s'.journal == s.journal[k := row] && (k in s.journal ==> s.journal[k].dst.None?)
    ensures UntrashedOk(s', home)
  {
    forall u | u in JournaledDsts(s.journal) ensures u in JournaledDsts(s'.journal) {
      var l :| l in s.journal && s.journal[l].dst.Some? && s.journal[l].dst.value == u;
      assert l in s'.journal && s'.journal[l].dst == Some(u);
    }
  }

  lemma IntendDates(s: Spoke, s': Spoke, home: Home, e: Entry, row: Intent, since: Time)
    requires DatesOk(s, home) && CanIntend(s) && s.phase.queue[0] == e && row.dst.None? && since <= row.firedAt
    requires s'.journal == s.journal[e.key := row] && s'.fired == s.fired && s'.phase == Firing(s.phase.queue, since)
    ensures DatesOk(s', home)
  {
    RowUntrashed(s, s', home, e.key, row);
    if NoneAbandoned(s') {
      forall k | k in s.journal ensures !Abandoned(s, k) {
        assert !Abandoned(s', k);
      }
      assert OpenKeys(s') == OpenKeys(s);
      IntendMatches(s.journal, OpenKeys(s), home.todos, e.key, row);
    }
  }

  /** The found todo is the earliest unclaimed copy, even of those the mirror does not show yet. */
  lemma FoundIsEarliest(s: Spoke, home: Home, k: DKey, found: Uuid, after: Time)
    requires AccountOk(s, home) && DatesOk(s, home) && k in s.journal
    requires Earliest(home.mirror, found, s.journal[k].title, after, s.journal[k].provenance, JournaledDsts(s.journal))
    ensures found in home.todos && Synced(home.todos[found]) && IsCopy(home.todos[found], s.journal[k])
    ensures forall v :: v in home.todos && IsCopy(home.todos[v], s.journal[k]) && v !in JournaledDsts(s.journal)
                        && !home.todos[v].trashed && home.todos[v].created >= after
                        ==> home.todos[found].created <= home.todos[v].created
  {
    var j, row := s.journal, s.journal[k];
    MatchIsCopy(s, home, k, found, after, JournaledDsts(j));
    forall v | v in home.todos && IsCopy(home.todos[v], row) && v !in JournaledDsts(j)
               && !home.todos[v].trashed && home.todos[v].created >= after
      ensures home.todos[found].created <= home.todos[v].created
    {
      if v in home.mirror {
        CopyIsSynced(s, home.todos[v], k);
        assert Matches(home.mirror, v, row.title, after, row.provenance, JournaledDsts(j));
      }
    }
  }

  lemma FindOpens(s: Spoke, s': Spoke, k: DKey, found: Uuid)
    requires !s.phase.Firing? && !s'.phase.Firing? && JournaledAs(s.journal, k, None) && s'.fired == s.fired
    requires s'.journal == s.journal[k := s.journal[k].(dst := Some(found))]
    ensures k in OpenKeys(s) && OpenKeys(s') == OpenKeys(s) - {k}
    ensures NoneAbandoned(s') ==> NoneAbandoned(s)
  {
    forall l | l in s.journal ensures Abandoned(s', l) <==> Abandoned(s, l) {
    }
  }

  lemma FindDates(s: Spoke, s': Spoke, home: Home, k: DKey, found: Uuid, after: Time)
    requires AccountOk(s, home) && DatesOk(s, home) && JournaledAs(s.journal, k, None)
    requires !s.phase.Firing? && s'.phase.Closed? && s'.fired == s.fired && after <= WindowStart(s.journal[k])
    requires Earliest(home.mirror, found, s.journal[k].title, after, s.journal[k].provenance, JournaledDsts(s.journal))
    requires s'.journal == s.journal[k := s.journal[k].(dst := Some(found))]
    ensures DatesOk(s', home)
  {
    FoundIsEarliest(s, home, k, found, after);
    FindOpens(s, s', k, found);
    RowUntrashed(s, s', home, k, s.journal[k].(dst := Some(found)));
    if NoneAbandoned(s') { FindMatches(s.journal, OpenKeys(s), home.todos, k, found, after); }
  }

  // ----- the account -----

  /** One todo changes without becoming harder to claim. */
  lemma ChangeMatches(s: Spoke, home: Home, u: Uuid, todo: Todo)
    requires RowsOk(s.journal) && SameKind(home.todos, u, todo) && Matchable(s.journal, OpenKeys(s), home.todos)
    requires u in home.todos && Synced(home.todos[u]) && u !in JournaledDsts(s.journal) ==> StillClaimable(home.todos[u], todo)
    ensures Matchable(s.journal, OpenKeys(s), home.todos[u := todo])
  {
    UnsyncedTags(todo);
    if u in home.todos { UnsyncedTags(home.todos[u]); }
    EditMatches(s.journal, OpenKeys(s), home.todos, home.todos[u := todo]);
  }

  /** A todo is added, or changed keeping its date. */
  lemma ChangeDates(s: Spoke, home: Home, home': Home, u: Uuid, todo: Todo)
    requires AccountOk(s, home) && DatesOk(s, home) && SameKind(home.todos, u, todo) && u != ""
    requires u in home.todos && Synced(home.todos[u]) && u !in JournaledDsts(s.journal) ==> StillClaimable(home.todos[u], todo)
    requires if u in home.todos then todo.created == home.todos[u].created else Newest(home.todos, todo.created)
    requires home'.todos == home.todos[u := todo] && home'.mirror == home.mirror
    ensures DatesOk(s, home')
  {
    if NoneAbandoned(s) { ChangeMatches(s, home, u, todo); }
  }

  lemma FireOpens(s: Spoke, s': Spoke, k: DKey)
    requires s.phase.Firing? && HeadIsCreate(s.phase.queue) && s.phase.queue[0].key == k && JournaledAs(s.journal, k, None)
    requires s'.journal == s.journal && s'.fired == s.fired + [k] && s'.phase == Correlating(s.phase.queue, s.phase.since)
    ensures NoneAbandoned(s') ==> NoneAbandoned(s)
    ensures k !in OpenKeys(s) && OpenKeys(s') == OpenKeys(s) + {k}
  {
    if NoneAbandoned(s') {
      forall l | l in s.journal ensures !Abandoned(s, l) {
        assert !Abandoned(s', l);
      }
    }
  }

  lemma FireMatchable(s: Spoke, home: Home, k: DKey, uuid: Uuid, todo: Todo)
    requires Copied(s.journal, home.todos) && JournaledAs(s.journal, k, None) && k !in OpenKeys(s)
    requires Matchable(s.journal, OpenKeys(s), home.todos) && uuid !in home.todos
    requires IsCopy(todo, s.journal[k]) && !todo.trashed && todo.created >= WindowStart(s.journal[k])
    ensures Matchable(s.journal, OpenKeys(s) + {k}, home.todos[uuid := todo])
  {
    NewIsUnclaimed(s.journal, home.todos, uuid);
    FireMatches(s.journal, OpenKeys(s), home.todos, k, uuid, todo);
  }

  lemma FireShown(home: Home, uuid: Uuid, todo: Todo)
    requires SeenOk(home) && ShownOk(home) && uuid !in home.todos && uuid != "" && Newest(home.todos, todo.created)
    ensures ShownOk(home.(todos := home.todos[uuid := todo]))
  {
  }

  lemma FireUntrashed(s: Spoke, s': Spoke, home: Home, uuid: Uuid, todo: Todo)
    requires SeenOk(home) && UntrashedOk(s, home) && s'.journal == s.journal && uuid !in home.todos && !todo.trashed
    ensures UntrashedOk(s', home.(todos := home.todos[uuid := todo]))
  {
  }

  lemma FireDates(s: Spoke, s': Spoke, home: Home, k: DKey, uuid: Uuid, todo: Todo)
    requires AccountOk(s, home) && DatesOk(s, home) && JournaledAs(s.journal, k, None)
    requires s.phase.Firing? && HeadIsCreate(s.phase.queue) && s.phase.queue[0].key == k
    requires s'.journal == s.journal && s'.fired == s.fired + [k] && s'.phase == Correlating(s.phase.queue, s.phase.since)
    requires uuid !in home.todos && uuid != "" && Newest(home.todos, todo.created)
    requires IsCopy(todo, s.journal[k]) && !todo.trashed && todo.created >= WindowStart(s.journal[k])
    ensures DatesOk(s', home.(todos := home.todos[uuid := todo]))
  {
    FireShown(home, uuid, todo);
    FireUntrashed(s, s', home, uuid, todo);
    FireOpens(s, s', k);
    if NoneAbandoned(s') { FireMatchable(s, home, k, uuid, todo); }
  }

  lemma NewIsUnclaimed(j: Journal, todos: Todos, uuid: Uuid)
    requires Copied(j, todos) && uuid !in todos
    ensures uuid !in JournaledDsts(j)
  {
  }

  lemma LifeDates(s: Spoke, home: Home, e: Event)
    requires AccountOk(s, home) && DatesOk(s, home)
    requires OrdinaryEvent(home, e) && DatedEvent(s, home, e)
    ensures DatesOk(s, AfterEvent(s, home, e))
  {
    match e
    case Sync(view) =>
    case Add(u, todo) => ChangeDates(s, home, AfterEvent(s, home, e), u, todo);
    case Edit(u, todo) => ChangeDates(s, home, AfterEvent(s, home, e), u, todo);
    case End(u, todo) => ChangeDates(s, home, AfterEvent(s, home, e), u, todo);
    case Anything(_) =>
  }

  // ----- every action -----

  /** A write by the spoke is to a delegated todo, or changes no more than a status. */
  lemma RewriteDates(s: Spoke, home: Home, u: Uuid, tags: set<string>)
    requires AccountOk(s, home) && DatesOk(s, home) && u in home.todos
    requires tags == home.todos[u].tags || (!Synced(home.todos[u]) && NoProvenance(tags))
    ensures DatesOk(s, Completing(home, u, tags))
  {
    var todo := home.todos[u].(tags := tags, status := Ended(Completed));
    UnsyncedTags(todo);
    UnsyncedTags(home.todos[u]);
    ChangeDates(s, home, Completing(home, u, tags), u, todo);
  }

  lemma WriteDates(l: Local, m: MemberId, landed: bool, verified: bool)
    requires CanWrite(l, landed, verified) && PhaseOk(l.hub, m, l.spoke)
    requires AccountOk(l.spoke, l.home) && DatesOk(l.spoke, l.home)
    ensures var l' := AfterWriteTerminal(l, landed, verified); DatesOk(l'.spoke, l'.home)
  {
    var l' := AfterWriteTerminal(l, landed, verified);
    var u := l.spoke.phase.queue[0].uuid;
    if landed {
      RewriteDates(l.spoke, l.home, u, l.home.todos[u].tags);
      assert l'.home == Completing(l.home, u, l.home.todos[u].tags);
    }
    MoveDates(l.hub, m, l.spoke, l'.spoke, l'.home);
  }

  lemma RetagDates(l: Local, m: MemberId, landed: bool, verified: bool, kept: set<string>)
    requires CanRetag(l, landed, verified, kept) && PhaseOk(l.hub, m, l.spoke)
    requires KeptOk(l.hub, m, l.spoke, l.home) && DatesOk(l.spoke, l.home)
    ensures var l' := AfterRetag(l, landed, verified, kept); DatesOk(l'.spoke, l'.home)
  {
    var l' := AfterRetag(l, landed, verified, kept);
    var w := l.spoke.phase.watch[0];
    assert WatchedOk(l.hub, m, w) && HandoverOk(l.hub, l.home, w.tid);
    if landed {
      KeptTagsPlain(l.spoke, l.home, w.uuid, kept);
      RewriteDates(l.spoke, l.home, w.uuid, kept);
    }
    MoveDates(l.hub, m, l.spoke, l'.spoke, l'.home);
  }

  lemma FireNowDates(l: Local, m: MemberId, uuid: Uuid, created: Time)
    requires CanFire(l, uuid) && DatedTick(l, Fire(uuid, created)) && PhaseOk(l.hub, m, l.spoke)
    requires JournalOk(l.hub, m, l.spoke.journal) && AccountOk(l.spoke, l.home) && DatesOk(l.spoke, l.home)
    ensures var l' := AfterFire(l, uuid, created); DatesOk(l'.spoke, l'.home)
  {
    var e := l.spoke.phase.queue[0];
    assert EntryOk(l.hub, m, e);
    FireDates(l.spoke, AfterFire(l, uuid, created).spoke, l.home, e.key, uuid, NewTodo(e, created));
  }

  lemma FindNowDates(l: Local, m: MemberId, found: Uuid)
    requires CanFind(l, found) && PhaseOk(l.hub, m, l.spoke) && JournalOk(l.hub, m, l.spoke.journal)
    requires AccountOk(l.spoke, l.home) && DatesOk(l.spoke, l.home)
    ensures DatesOk(AfterFind(l, found).spoke, l.home)
  {
    var s, e := l.spoke, l.spoke.phase.queue[0];
    assert EntryOk(l.hub, m, e);
    FindDates(s, AfterFind(l, found).spoke, l.home, e.key, found, s.phase.since - CLOCK_SKEW);
  }

  /** The actions that touch neither the account nor the journal. */
  predicate LeavesJournal(a: Action) {
    !a.Intend? && !a.Fire? && !a.Find? && !a.WriteTerminal? && !a.Retag?
  }

  lemma LeavesJournalAlone(l: Local, p: Principal, a: Action)
    requires Enabled(l, p, a) && LeavesJournal(a)
    ensures var l' := Act(l, p, a);
      l'.home == l.home && l'.spoke.journal == l.spoke.journal && l'.spoke.fired == l.spoke.fired
      && !l'.spoke.phase.Firing? && WindowOk(l'.spoke)
  {
  }

  lemma MoveNowDates(l: Local, p: Principal, a: Action)
    requires PhaseOk(l.hub, p.member, l.spoke) && DatesOk(l.spoke, l.home) && Enabled(l, p, a) && LeavesJournal(a)
    ensures DatesOk(Act(l, p, a).spoke, Act(l, p, a).home)
  {
    LeavesJournalAlone(l, p, a);
    MoveDates(l.hub, p.member, l.spoke, Act(l, p, a).spoke, l.home);
  }

  lemma IntendNowDates(l: Local, m: MemberId, since: Time, firedAt: Time)
    requires CanIntend(l.spoke) && since <= firedAt && DatesOk(l.spoke, l.home)
    ensures DatesOk(AfterIntend(l, since, firedAt).spoke, l.home)
  {
    var e := l.spoke.phase.queue[0];
    IntendDates(l.spoke, AfterIntend(l, since, firedAt).spoke, l.home, e, Intent(e.payload.title, e.provenance, firedAt, None), since);
  }

  lemma WriteOrRetagDates(l: Local, p: Principal, a: Action)
    requires ReadyToKeep(l, p) && DatesOk(l.spoke, l.home) && Enabled(l, p, a) && (a.WriteTerminal? || a.Retag?)
    ensures DatesOk(Act(l, p, a).spoke, Act(l, p, a).home)
  {
    match a
    case WriteTerminal(landed, verified) => WriteDates(l, p.member, landed, verified);
    case Retag(landed, verified, kept) => RetagDates(l, p.member, landed, verified, kept);
  }

  lemma CreateDates(l: Local, p: Principal, a: Action)
    requires ReadyToKeep(l, p) && DatesOk(l.spoke, l.home) && Enabled(l, p, a) && DatedTick(l, a)
    requires a.Intend? || a.Fire? || a.Find?
    ensures DatesOk(Act(l, p, a).spoke, Act(l, p, a).home)
  {
    match a
    case Intend(since, firedAt) => IntendNowDates(l, p.member, since, firedAt);
    case Fire(uuid, created) => FireNowDates(l, p.member, uuid, created);
    case Find(found) => FindNowDates(l, p.member, found);
  }

  lemma OwnDates(l: Local, p: Principal, a: Action)
    requires ReadyToKeep(l, p) && DatesOk(l.spoke, l.home) && Enabled(l, p, a) && DatedTick(l, a)
    ensures DatesOk(Act(l, p, a).spoke, Act(l, p, a).home)
  {
    if LeavesJournal(a) {
      MoveNowDates(l, p, a);
    } else if a.WriteTerminal? || a.Retag? {
      WriteOrRetagDates(l, p, a);
    } else {
      CreateDates(l, p, a);
    }
  }
}
