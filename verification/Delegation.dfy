/**
 * The protocol's promises. Whatever the ticks do: no loss, no duplicate, and exactly one copy of
 * what is applied. Over careful runs: the round trip.
 */
module Delegation {
  import opened Basics
  import opened HubSpec
  import opened HubInvariant
  import opened HubHistory
  import opened HubEchoes
  import opened SpokeSpec
  import opened SpokeInvariant
  import opened SpokeSteps
  import opened Matching
  import opened System
  import opened HomeInvariant
  import opened HomeAccount
  import opened HomeKept
  import opened HomeCareful
  import opened CarefulRuns
  import opened HomeRecords

  // ----- no loss -----

  /** The recipient's account holds the todo, tagged with who sent it, at the uuid the hub recorded. */
  ghost predicate AtRecipient(w: World, t: Tid) {
    && t in w.hub.transfers
    && var tr := w.hub.transfers[t];
       && tr.dst.Some? && tr.to in w.homes && tr.dst.value in w.homes[tr.to].todos
       && tr.from in w.hub.roster.members
       && var todo := w.homes[tr.to].todos[tr.dst.value];
          todo.title == tr.payload.title && todo.tags == {ProvenanceTag(w.hub.roster.members[tr.from].handle)}
  }

  lemma MappedIsThere(w: World, t: Tid)
    requires KeptWorld(w) && t in w.hub.transfers && w.hub.transfers[t].dst.Some?
    ensures AtRecipient(w, t)
  {
    var m := w.hub.transfers[t].to;
    MemberKept(w, m);
    DstIsCopy(w.hub, m, w.spokes[m], w.homes[m].todos, t);
  }

  /** This transfer has brought the member's todo, under its title, to a member whose handle one of its tags triggers. */
  ghost predicate Brought(w: World, m: MemberId, u: Uuid, todo: Todo, t: Tid)
    requires m in w.spokes
  {
    && AtRecipient(w, t)
    && var tr := w.hub.transfers[t];
       && tr.from == m && tr.src == u && tr.payload.title == todo.title && tr.to in w.hub.roster.members
       && exists tag :: && tag in todo.tags && tag in w.spokes[m].triggers
                        && w.hub.roster.members[tr.to].handle == w.spokes[m].triggers[tag]
  }

  /** The sender's copy is done, and the recipient whom the todo was tagged for has it. */
  ghost predicate Arrived(w: World, m: MemberId, u: Uuid, todo: Todo) {
    && m in w.homes && u in w.homes[m].todos
    && w.homes[m].todos[u].status == Ended(Completed) && !w.homes[m].todos[u].trashed
    && m in w.spokes && exists t :: Brought(w, m, u, todo, t)
  }

  lemma BroughtWhereTagged(w: World, m: MemberId, t: Tid)
    requires KeptWorld(w) && m in w.spokes && m in w.homes && t in w.hub.transfers && w.hub.transfers[t].from == m
    requires w.hub.transfers[t].dst.Some?
    ensures var u := w.hub.transfers[t].src;
      u in w.homes[m].asked && Brought(w, m, u, w.homes[m].asked[u], t)
  {
    MemberKept(w, m);
    assert HandoverOk(w.hub, w.homes[m], t);
    MappedIsThere(w, t);
    assert AddressedAll(w.hub, m, w.spokes[m], w.homes[m]);
    assert Addressed(w.hub, w.spokes[m], w.homes[m], t);
  }

  /** A delegated todo is exactly as the human delegated it, or the recipient has it. */
  lemma NothingLost(w: World, m: MemberId, u: Uuid)
    requires KeptWorld(w) && m in w.spokes && m in w.homes && u in w.homes[m].asked
    ensures u in w.homes[m].todos
    ensures w.homes[m].todos[u] == w.homes[m].asked[u] || Arrived(w, m, u, w.homes[m].asked[u])
  {
    MemberKept(w, m);
    if w.homes[m].todos[u] != w.homes[m].asked[u] {
      var t :| t in w.hub.transfers && w.hub.transfers[t].from == m && w.hub.transfers[t].src == u;
      assert HandoverOk(w.hub, w.homes[m], t);
      BroughtWhereTagged(w, m, t);
    }
  }

  /** The note of what was delegated is never changed, nor what the tags trigger. */
  lemma {:induction false} AskedStays(ws: seq<World>, ls: seq<Label>, i: nat, j: nat, m: MemberId, u: Uuid)
    requires OrdinaryRun(ws, ls) && i <= j < |ws| && m in ws[i].spokes && m in ws[i].homes && u in ws[i].homes[m].asked
    ensures m in ws[j].spokes && m in ws[j].homes && u in ws[j].homes[m].asked
    ensures ws[j].homes[m].asked[u] == ws[i].homes[m].asked[u] && ws[j].spokes[m].triggers == ws[i].spokes[m].triggers
    decreases j
  {
    if i < j {
      AskedStays(ws, ls, i, j - 1, m, u);
      AskedNext(ws, ls, j - 1, m, u);
    }
  }

  lemma AskedNext(ws: seq<World>, ls: seq<Label>, i: nat, m: MemberId, u: Uuid)
    requires OrdinaryRun(ws, ls) && i < |ls| && m in ws[i].spokes && m in ws[i].homes && u in ws[i].homes[m].asked
    ensures m in ws[i + 1].spokes && m in ws[i + 1].homes && u in ws[i + 1].homes[m].asked
    ensures ws[i + 1].homes[m].asked[u] == ws[i].homes[m].asked[u]
    ensures ws[i + 1].spokes[m].triggers == ws[i].spokes[m].triggers
  {
    AskedInRun(ws, ls, i, m);
    AskedStep(ws[i], ls[i], m, u);
  }

  lemma AskedInRun(ws: seq<World>, ls: seq<Label>, i: nat, m: MemberId)
    requires OrdinaryRun(ws, ls) && i < |ws| && m in ws[i].spokes && m in ws[i].homes
    ensures AskedOk(ws[i].homes[m])
  {
    RunKept(ws, ls, i);
    MemberKept(ws[i], m);
  }

  lemma AskedStep(w: World, l: Label, m: MemberId, u: Uuid)
    requires Possible(w, l) && Ordinary(w, l) && m in w.spokes && m in w.homes && u in w.homes[m].asked
    requires AskedOk(w.homes[m])
    ensures var w' := Next(w, l);
      && m in w'.spokes && m in w'.homes && u in w'.homes[m].asked && w'.homes[m].asked[u] == w.homes[m].asked[u]
      && w'.spokes[m].triggers == w.spokes[m].triggers
  {
    if l.Tick? && l.p.member == m { ActAsksNothing(LocalOf(w, m), l.p, l.a); }
  }

  /** A human tags a todo for somebody. */
  predicate Delegates(w: World, l: Label, m: MemberId, u: Uuid, todo: Todo) {
    && l.Life? && l.m == m && (l.e == Add(u, todo) || l.e == Edit(u, todo))
    && m in w.spokes && HasTrigger(w.spokes[m], todo)
  }

  /**
   * No loss: from the moment a todo is tagged, in every later state, whatever crashes or fails in
   * between, it is still exactly as tagged in the sender's account, or it is in the account of a
   * member whose handle one of its own tags triggers, at its transfer's uuid.
   */
  lemma NoLoss(ws: seq<World>, ls: seq<Label>, i: nat, j: nat, m: MemberId, u: Uuid, todo: Todo)
    requires OrdinaryRun(ws, ls) && i < j < |ws| && Delegates(ws[i], ls[i], m, u, todo)
    ensures m in ws[j].homes && u in ws[j].homes[m].todos
    ensures ws[j].homes[m].todos[u] == todo || Arrived(ws[j], m, u, todo)
    ensures m in ws[j].spokes && ws[j].spokes[m].triggers == ws[i].spokes[m].triggers
  {
    AskedStays(ws, ls, i + 1, j, m, u);
    RunKept(ws, ls, j);
    NothingLost(ws[j], m, u);
  }

  lemma TransferGoesWhereTagged(w: World, t: Tid)
    requires KeptWorld(w) && t in w.hub.transfers
    ensures var m := w.hub.transfers[t].from;
      m in w.spokes && m in w.homes && Addressed(w.hub, w.spokes[m], w.homes[m], t)
  {
    var m := w.hub.transfers[t].from;
    MemberKept(w, m);
    assert AddressedAll(w.hub, m, w.spokes[m], w.homes[m]);
  }

  /** Applied or not, every transfer is of a todo its sender tagged, and goes to a member whose handle one of those tags triggers. */
  lemma GoesWhereTagged(ws: seq<World>, ls: seq<Label>, i: nat, t: Tid)
    requires OrdinaryRun(ws, ls) && i < |ws| && t in ws[i].hub.transfers
    ensures var tr := ws[i].hub.transfers[t];
      && tr.from in ws[i].spokes && tr.from in ws[i].homes && tr.src in ws[i].homes[tr.from].asked
      && tr.to in ws[i].hub.roster.members
      && exists tag :: && tag in ws[i].homes[tr.from].asked[tr.src].tags && tag in ws[i].spokes[tr.from].triggers
                       && ws[i].spokes[tr.from].triggers[tag] == ws[i].hub.roster.members[tr.to].handle
  {
    RunKept(ws, ls, i);
    TransferGoesWhereTagged(ws[i], t);
  }

  // ----- no duplicate -----

  function ReceivedBy(h: Hub, m: MemberId): set<Tid> {
    set t | t in h.transfers && h.transfers[t].to == m
  }

  /** Each synced todo of an account belongs to a transfer addressed to the member, and no two to the same. */
  ghost predicate Owners(h: Hub, m: MemberId, todos: Todos, owner: map<Uuid, Tid>) {
    && owner.Keys == SyncedTodos(todos)
    && (forall u, v :: u in owner && v in owner && owner[u] == owner[v] ==> u == v)
    && (forall u :: u in owner ==>
          owner[u] in ReceivedBy(h, m) && todos[u].title == h.transfers[owner[u]].payload.title)
  }

  lemma RowIsTransfer(h: Hub, m: MemberId, j: Journal, todo: Todo, k: DKey)
    requires JournalOk(h, m, j) && k in j && IsCopy(todo, j[k])
    ensures k == DKey(k.tid, Create, m) && k.tid in ReceivedBy(h, m)
    ensures todo.title == h.transfers[k.tid].payload.title
  {
  }

  lemma OwnersOf(h: Hub, m: MemberId, s: Spoke, todos: Todos) returns (owner: map<Uuid, Tid>)
    requires JournalOk(h, m, s.journal) && Made(s, todos)
    ensures Owners(h, m, todos, owner)
  {
    var makes: map<Uuid, DKey> :| MadeBy(makes, s, todos);
    MakersAreTransfers(h, m, s, todos, makes);
    owner := TidsOf(makes);
    TidsOwn(h, m, todos, makes);
  }

  function TidsOf(makes: map<Uuid, DKey>): map<Uuid, Tid> {
    map u | u in makes :: makes[u].tid
  }

  lemma TidsOwn(h: Hub, m: MemberId, todos: Todos, makes: map<Uuid, DKey>)
    requires makes.Keys == SyncedTodos(todos)
    requires forall u, v :: u in makes && v in makes && makes[u] == makes[v] ==> u == v
    requires forall u :: u in makes ==>
      makes[u] == DKey(makes[u].tid, Create, m) && makes[u].tid in ReceivedBy(h, m)
      && todos[u].title == h.transfers[makes[u].tid].payload.title
    ensures Owners(h, m, todos, TidsOf(makes))
  {
  }

  lemma MakersAreTransfers(h: Hub, m: MemberId, s: Spoke, todos: Todos, makes: map<Uuid, DKey>)
    requires JournalOk(h, m, s.journal) && MadeBy(makes, s, todos)
    ensures forall u :: u in makes ==>
      makes[u] == DKey(makes[u].tid, Create, m) && makes[u].tid in ReceivedBy(h, m)
      && todos[u].title == h.transfers[makes[u].tid].payload.title
  {
    forall u | u in makes
      ensures makes[u] == DKey(makes[u].tid, Create, m) && makes[u].tid in ReceivedBy(h, m)
      ensures todos[u].title == h.transfers[makes[u].tid].payload.title
    {
      RowIsTransfer(h, m, s.journal, todos[u], makes[u]);
    }
  }

  /**
   * No duplicate: in every state, whatever crashes or fails, a member's account holds at most one
   * synced todo per transfer addressed to the member, under its title.
   */
  lemma NoDuplicates(ws: seq<World>, ls: seq<Label>, i: nat, m: MemberId)
    requires OrdinaryRun(ws, ls) && i < |ws| && m in ws[i].spokes
    ensures m in ws[i].homes && exists owner :: Owners(ws[i].hub, m, ws[i].homes[m].todos, owner)
    ensures |SyncedTodos(ws[i].homes[m].todos)| <= |ReceivedBy(ws[i].hub, m)|
  {
    RunKept(ws, ls, i);
    MemberKept(ws[i], m);
    var owner := OwnersOf(ws[i].hub, m, ws[i].spokes[m], ws[i].homes[m].todos);
    InjectionBound(SyncedTodos(ws[i].homes[m].todos), ReceivedBy(ws[i].hub, m), owner);
  }

  // ----- round trip -----

  /** The transfer has nothing left to deliver. */
  ghost predicate AllDelivered(h: Hub, t: Tid) {
    forall k :: k in h.deliveries && k.tid == t ==> h.deliveries[k].progress == Done
  }

  lemma DeliveredTransfer(h: Hub, t: Tid)
    requires t in h.transfers && AllDelivered(h, t) && TransferOk(h, t) && Accounted(h, t) && ReportsOk(h)
    ensures h.transfers[t].dst.Some? && (h.transfers[t].terminal.Some? ==> h.transfers[t].resolved)
  {
    assert CreateDone(h, t);
  }

  lemma PartiesInOrder(w: World, t: Tid)
    requires CarefulOk(w) && t in w.hub.transfers
    ensures var tr := w.hub.transfers[t];
      && TransferOk(w.hub, t) && Accounted(w.hub, t) && tr.to in w.homes
      && tr.from in w.spokes && tr.from in w.homes && SenderOk(w.hub, w.spokes[tr.from], w.homes[tr.from], t)
  {
    MemberInOrder(w, w.hub.transfers[t].from);
    MemberInOrder(w, w.hub.transfers[t].to);
  }

  /** The transfer's copy is with its recipient, and a terminal state has reached the sender. */
  ghost predicate CameRound(w: World, t: Tid) {
    && AtRecipient(w, t)
    && var tr := w.hub.transfers[t];
       tr.terminal.Some? ==>
         && tr.resolved && tr.terminalBy == Some(tr.to)
         && tr.from in w.homes && tr.src in w.homes[tr.from].todos && IsFinished(w.homes[tr.from].todos[tr.src])
  }

  /**
   * The recipient's copy is in the state recorded, if there is one: trashed or canceled if that is
   * canceled, completed and not trashed if it is completed.
   */
  ghost predicate AsRecorded(w: World, t: Tid) {
    t in w.hub.transfers && w.hub.transfers[t].terminal.Some? ==>
      && AtRecipient(w, t)
      && var tr := w.hub.transfers[t];
         var copy := w.homes[tr.to].todos[tr.dst.value];
         && (tr.terminal == Some(Canceled) <==> copy.trashed || copy.status == Ended(Canceled))
         && (tr.terminal == Some(Completed) <==> !copy.trashed && copy.status == Ended(Completed))
  }

  lemma CameRoundAt(w: World, t: Tid)
    requires CarefulOk(w) && t in w.hub.transfers && AllDelivered(w.hub, t)
    ensures CameRound(w, t)
  {
    PartiesInOrder(w, t);
    DeliveredTransfer(w.hub, t);
    MappedIsThere(w, t);
  }

  lemma AsRecordedAt(w: World, t: Tid)
    requires CarefulOk(w) && AllRecorded(w.hub, w.homes) && t in w.hub.transfers
    ensures AsRecorded(w, t)
  {
    if w.hub.transfers[t].terminal.Some? {
      PartiesInOrder(w, t);
      MappedIsThere(w, t);
      RecordIsShown(w.hub, w.hub.transfers[t].to, w.homes, t);
    }
  }

  lemma RecordIsShown(h: Hub, m: MemberId, homes: map<MemberId, Home>, t: Tid)
    requires AllRecorded(h, homes) && m in homes && t in h.transfers && h.transfers[t].to == m
    requires h.transfers[t].terminal.Some? && h.transfers[t].dst.Some?
    ensures h.transfers[t].dst.value in homes[m].todos
    ensures var tr, copy := h.transfers[t], homes[m].todos[h.transfers[t].dst.value];
      && (tr.terminal == Some(Canceled) <==> copy.trashed || copy.status == Ended(Canceled))
      && (tr.terminal == Some(Completed) <==> !copy.trashed && copy.status == Ended(Completed))
  {
    assert RecordOk(h, m, homes[m]);
    assert RecipientOk(h, homes[m], t);
  }

  /**
   * Round trip: in every state of every careful run, a transfer with nothing left to deliver is
   * applied, its copy is in the recipient's account, and if it has a terminal state then its
   * recipient reported it, it is resolved, and the sender's copy is completed.
   */
  lemma RoundTrip(ws: seq<World>, ls: seq<Label>, i: nat, t: Tid)
    requires CarefulRun(ws, ls) && i < |ws| && t in ws[i].hub.transfers && AllDelivered(ws[i].hub, t)
    ensures CameRound(ws[i], t)
  {
    RunCareful(ws, ls, i);
    CameRoundAt(ws[i], t);
  }

  /**
   * And where copies are finished once, every transfer with a terminal state, delivered or not, is
   * applied and the recipient's copy is in that state (trashed counts as canceled).
   */
  lemma RecordedState(ws: seq<World>, ls: seq<Label>, i: nat, t: Tid)
    requires CarefulRun(ws, ls) && FinishedOnce(ws, ls) && AllRecorded(ws[0].hub, ws[0].homes)
    requires i < |ws| && t in ws[i].hub.transfers
    ensures AsRecorded(ws[i], t)
  {
    RunCareful(ws, ls, i);
    RunRecorded(ws, ls, i);
    AsRecordedAt(ws[i], t);
  }

  // ----- exactly one copy -----

  /** The mapping is a bijection from the transfers to a member onto the synced todos of the account. */
  ghost predicate OneCopyEach(h: Hub, m: MemberId, todos: Todos) {
    && (forall t :: t in ReceivedBy(h, m) ==> h.transfers[t].dst.Some? && h.transfers[t].dst.value in SyncedTodos(todos))
    && (forall t, u :: t in ReceivedBy(h, m) && u in ReceivedBy(h, m) && t != u ==> h.transfers[t].dst != h.transfers[u].dst)
    && (forall u :: u in SyncedTodos(todos) ==> exists t :: t in ReceivedBy(h, m) && h.transfers[t].dst == Some(u))
  }

  ghost predicate AllMapped(h: Hub, m: MemberId) {
    forall t :: t in ReceivedBy(h, m) ==> h.transfers[t].dst.Some?
  }

  /** A journal row whose transfer is mapped claims the mapped uuid. */
  lemma RowMapped(h: Hub, m: MemberId, s: Spoke, todos: Todos, k: DKey)
    requires MemberOk(h, m, s) && TriggersOk(s) && RowsOk(s.journal) && Copied(s.journal, todos) && k in s.journal
    requires k.tid in ReceivedBy(h, m) && h.transfers[k.tid].dst.Some?
    ensures s.journal[k].dst == h.transfers[k.tid].dst && s.journal[k].dst.value in SyncedTodos(todos)
  {
    assert JournaledAs(s.journal, DKey(k.tid, Create, m), h.transfers[k.tid].dst);
    CopyIsSynced(s, todos[s.journal[k].dst.value], k);
  }

  ghost predicate RowsAreMapped(h: Hub, m: MemberId, j: Journal) {
    forall k :: k in j ==> k.tid in ReceivedBy(h, m) && j[k].dst == h.transfers[k.tid].dst
  }

  lemma RowsMapped(h: Hub, m: MemberId, s: Spoke, todos: Todos)
    requires MemberOk(h, m, s) && TriggersOk(s) && RowsOk(s.journal) && Copied(s.journal, todos) && AllMapped(h, m)
    ensures AllClaim(s.journal, todos) && RowsAreMapped(h, m, s.journal)
  {
    forall k | k in s.journal
      ensures k.tid in ReceivedBy(h, m) && s.journal[k].dst == h.transfers[k.tid].dst
      ensures s.journal[k].dst.Some? && s.journal[k].dst.value in SyncedTodos(todos)
    {
      assert k.tid in ReceivedBy(h, m);
      RowMapped(h, m, s, todos, k);
    }
  }

  /** Each row with the uuid it claims. */
  function Claims(j: Journal): map<DKey, Uuid> {
    map k | k in j && j[k].dst.Some? :: j[k].dst.value
  }

  ghost predicate AllClaim(j: Journal, todos: Todos) {
    forall k :: k in j ==> j[k].dst.Some? && j[k].dst.value in SyncedTodos(todos)
  }

  lemma ClaimsInject(j: Journal, todos: Todos)
    requires Injective(j) && AllClaim(j, todos)
    ensures InjectsInto(j.Keys, SyncedTodos(todos), Claims(j))
  {
    forall k, l | k in j && l in j && Claims(j)[k] == Claims(j)[l] ensures k == l {
      assert j[k].dst == j[l].dst;
    }
  }

  lemma MakersInject(makes: map<Uuid, DKey>, s: Spoke, todos: Todos)
    requires MadeBy(makes, s, todos)
    ensures InjectsInto(SyncedTodos(todos), s.journal.Keys, makes)
  {
  }

  /** Counting: rows inject into the synced todos by the uuids they claim. */
  lemma RowsAtMost(j: Journal, todos: Todos)
    requires Injective(j) && AllClaim(j, todos)
    ensures |j.Keys| <= |SyncedTodos(todos)|
  {
    ClaimsInject(j, todos);
    InjectedSize(j.Keys, SyncedTodos(todos), Claims(j));
  }

  /** And the synced todos into the rows that made them. */
  lemma TodosAtMost(s: Spoke, todos: Todos)
    requires Made(s, todos)
    ensures |SyncedTodos(todos)| <= |s.journal.Keys|
  {
    var makes :| MadeBy(makes, s, todos);
    MakersInject(makes, s, todos);
    InjectedSize(SyncedTodos(todos), s.journal.Keys, makes);
  }

  /** So every synced todo is claimed by a row. */
  lemma ClaimOf(j: Journal, todos: Todos, u: Uuid) returns (k: DKey)
    requires Injective(j) && AllClaim(j, todos) && |SyncedTodos(todos)| <= |j.Keys| && u in SyncedTodos(todos)
    ensures k in j && j[k].dst == Some(u)
  {
    ClaimsInject(j, todos);
    k := InjectionCovers(j.Keys, SyncedTodos(todos), Claims(j), u);
  }

  /** And every row's create was written. */
  lemma RowWasFired(s: Spoke, todos: Todos, k: DKey)
    requires Made(s, todos) && |s.journal.Keys| <= |SyncedTodos(todos)| && k in s.journal
    ensures k in s.fired
  {
    var makes :| MadeBy(makes, s, todos);
    MakersInject(makes, s, todos);
    var u := InjectionCovers(SyncedTodos(todos), s.journal.Keys, makes, k);
  }

  lemma CopiesBiject(h: Hub, m: MemberId, s: Spoke, home: Home)
    requires MemberOk(h, m, s) && AccountOk(s, home) && AllMapped(h, m)
    ensures OneCopyEach(h, m, home.todos)
  {
    TransfersMapped(h, m, s, home);
    TodosAtMost(s, home.todos);
    TodosMapped(h, m, s, home.todos);
  }

  lemma TransferOf(h: Hub, m: MemberId, j: Journal, todos: Todos, u: Uuid) returns (t: Tid)
    requires Injective(j) && AllClaim(j, todos) && |SyncedTodos(todos)| <= |j.Keys| && u in SyncedTodos(todos)
    requires RowsAreMapped(h, m, j)
    ensures t in ReceivedBy(h, m) && h.transfers[t].dst == Some(u)
  {
    var k := ClaimOf(j, todos, u);
    t := k.tid;
  }

  lemma TodosMapped(h: Hub, m: MemberId, s: Spoke, todos: Todos)
    requires MemberOk(h, m, s) && TriggersOk(s) && RowsOk(s.journal) && Copied(s.journal, todos) && AllMapped(h, m)
    requires |SyncedTodos(todos)| <= |s.journal.Keys|
    ensures forall u :: u in SyncedTodos(todos) ==> exists t :: t in ReceivedBy(h, m) && h.transfers[t].dst == Some(u)
  {
    RowsMapped(h, m, s, todos);
    forall u | u in SyncedTodos(todos) ensures exists t :: t in ReceivedBy(h, m) && h.transfers[t].dst == Some(u) {
      var t := TransferOf(h, m, s.journal, todos, u);
    }
  }

  lemma NoMoreRows(h: Hub, m: MemberId, s: Spoke, todos: Todos)
    requires MemberOk(h, m, s) && TriggersOk(s) && RowsOk(s.journal) && Copied(s.journal, todos) && AllMapped(h, m)
    ensures |s.journal.Keys| <= |SyncedTodos(todos)|
  {
    RowsMapped(h, m, s, todos);
    RowsAtMost(s.journal, todos);
  }

  lemma RowsFired(h: Hub, m: MemberId, s: Spoke, home: Home)
    requires MemberOk(h, m, s) && AccountOk(s, home) && AllMapped(h, m)
    ensures forall k :: k in s.journal ==> k in s.fired
  {
    NoMoreRows(h, m, s, home.todos);
    forall k | k in s.journal ensures k in s.fired {
      RowWasFired(s, home.todos, k);
    }
  }

  lemma TransfersMapped(h: Hub, m: MemberId, s: Spoke, home: Home)
    requires MemberOk(h, m, s) && AccountOk(s, home) && AllMapped(h, m)
    ensures forall t :: t in ReceivedBy(h, m) ==> h.transfers[t].dst.value in SyncedTodos(home.todos)
    ensures forall t, u :: t in ReceivedBy(h, m) && u in ReceivedBy(h, m) && t != u ==> h.transfers[t].dst != h.transfers[u].dst
  {
    forall t | t in ReceivedBy(h, m)
      ensures JournaledAs(s.journal, DKey(t, Create, m), h.transfers[t].dst)
      ensures h.transfers[t].dst.value in SyncedTodos(home.todos)
    {
      assert JournaledAs(s.journal, DKey(t, Create, m), h.transfers[t].dst);
      DstIsCopy(h, m, s, home.todos, t);
    }
  }

  /**
   * Exactly one copy: in every state, whatever crashes or fails, once every transfer to a member is
   * applied, the account holds exactly one todo for each and no other synced todo.
   */
  lemma ExactlyOneCopy(ws: seq<World>, ls: seq<Label>, i: nat, m: MemberId)
    requires OrdinaryRun(ws, ls) && i < |ws| && m in ws[i].spokes && AllMapped(ws[i].hub, m)
    ensures m in ws[i].homes && OneCopyEach(ws[i].hub, m, ws[i].homes[m].todos)
  {
    RunKept(ws, ls, i);
    MemberKept(ws[i], m);
    CopiesBiject(ws[i].hub, m, ws[i].spokes[m], ws[i].homes[m]);
  }

  /** And every journaled create was written. */
  lemma AppliedAreFired(w: World, m: MemberId)
    requires KeptWorld(w) && m in w.spokes && AllMapped(w.hub, m)
    ensures forall k :: k in w.spokes[m].journal ==> k in w.spokes[m].fired
  {
    MemberKept(w, m);
    RowsFired(w.hub, m, w.spokes[m], w.homes[m]);
  }
}
