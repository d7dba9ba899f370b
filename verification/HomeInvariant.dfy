/**
 * The accounts, in layers of hypotheses, each with what it lets a member's account and mirror keep:
 * nothing is lost or duplicated (any tick), the recipient alone decides (careful ticks), the copy is
 * in the state recorded (copies finished once), correlation never starves (dated todos).
 */
module HomeInvariant {
  import opened Basics
  import opened HubSpec
  import opened HubInvariant
  import opened HubHistory
  import opened HubEchoes
  import opened SpokeSpec
  import opened SpokeInvariant
  import opened SpokeSteps
  import opened Matching
  import opened System
  import opened SystemSafety

  // ----- the hypotheses -----

  /**
   * Ticks do anything. Humans add todos, edit todos not yet delegated, and do what they like to the
   * status of a received copy. Only sync-created todos carry provenance tags. The mirror shows
   * existing todos, each as it is or as it was last shown.
   */
  ghost predicate OrdinaryEvent(home: Home, e: Event) {
    match e
    case Sync(view) => Shows(home, view)
    case Add(u, todo) => u !in home.todos && !Synced(todo)
    case Edit(u, todo) => u in home.todos && u !in home.asked && !Synced(home.todos[u]) && !Synced(todo)
    case End(u, todo) =>
      u in home.todos && Synced(home.todos[u]) && todo.title == home.todos[u].title && todo.tags == home.todos[u].tags
    case Anything(_) => false
  }

  /** The transfer of the watch entry at hand is over: its watchlist entry will not come again. */
  predicate HeadIsOver(h: Hub, s: Spoke) {
    && WatchOf(s.phase) != []
    && var t := WatchOf(s.phase)[0].tid;
       t in h.transfers && h.transfers[t].terminal.Some?
  }

  /**
   * No crash falls between the retag and its marker, and no retag lands without being verified, but
   * of a transfer that is over.
   */
  ghost predicate CarefulTick(l: Local, a: Action) {
    match a
    case Crash => l.spoke.phase.Retagged? ==> HeadIsOver(l.hub, l.spoke)
    case Retag(landed, verified, _) => landed ==> verified || HeadIsOver(l.hub, l.spoke)
    case _ => true
  }

  /** Completed, canceled or trashed, from open. */
  predicate Finishes(before: Todo, after: Todo) {
    && before.status == Open && !before.trashed
    && (after == before.(trashed := true) || (after.status.Ended? && after == before.(status := after.status)))
  }

  /** A received copy is finished once. */
  ghost predicate FinishesOnce(home: Home, e: Event) {
    match e
    case End(u, todo) => u in home.todos && Finishes(home.todos[u], todo)
    case _ => true
  }

  /** The view shows a creation-order prefix of the account. */
  ghost predicate InCreationOrder(todos: Todos, view: Todos) {
    forall u, v :: u in view && u in todos && v in todos && v !in view ==> todos[u].created <= todos[v].created
  }

  /** An intent is journaled after its search window's base was read, and a new todo is dated within it. */
  ghost predicate DatedTick(l: Local, a: Action) {
    match a
    case Intend(since, firedAt) => since <= firedAt
    case Fire(_, created) => WellDated(l, created)
    case _ => true
  }

  /** Mirrors follow creation order, dates do not change, and a copy is trashed only once it is correlated. */
  ghost predicate DatedEvent(s: Spoke, home: Home, e: Event) {
    match e
    case Sync(view) => InCreationOrder(home.todos, view)
    case Add(u, todo) => u != "" && Newest(home.todos, todo.created)
    case Edit(u, todo) => u in home.todos && todo.created == home.todos[u].created
    case End(u, todo) =>
      u in home.todos && todo.created == home.todos[u].created && (todo.trashed ==> u in JournaledDsts(s.journal))
    case Anything(_) => true
  }

  ghost predicate Ordinary(w: World, l: Label)
    requires Possible(w, l)
  {
    l.Life? ==> OrdinaryEvent(w.homes[l.m], l.e)
  }

  ghost predicate Careful(w: World, l: Label)
    requires Possible(w, l)
  {
    Ordinary(w, l) && (l.Tick? ==> CarefulTick(LocalOf(w, l.p.member), l.a))
  }

  ghost predicate Dated(w: World, l: Label)
    requires Possible(w, l)
  {
    && Careful(w, l)
    && match l
       case Tick(p, a) => DatedTick(LocalOf(w, p.member), a)
       case Life(m, e) => DatedEvent(w.spokes[m], w.homes[m], e)
  }

  // ----- the account, whatever the tick does -----

  ghost predicate TriggersOk(s: Spoke) {
    forall t :: t in s.triggers ==> !IsProvenance(t)
  }

  ghost predicate AskedOk(home: Home) {
    forall u :: u in home.asked ==> u in home.todos && !Synced(home.asked[u]) && !Synced(home.todos[u])
  }

  /** Whatever a view offers for delegation is a todo noted as delegated. */
  ghost predicate OffersOk(s: Spoke, home: Home, view: Todos) {
    forall u :: u in view && HasTrigger(s, view[u]) && view[u].status == Open ==>
      u in home.asked && view[u] == home.asked[u]
  }

  /** What the mirror shows of a todo: a copy under its own title and tags, any other without provenance. */
  ghost predicate SeenAs(seen: Todo, now: Todo) {
    if Synced(now) then seen.title == now.title && seen.tags == now.tags else !Synced(seen)
  }

  ghost predicate SeenOk(home: Home) {
    home.mirror.Keys <= home.todos.Keys && forall u :: u in home.mirror ==> SeenAs(home.mirror[u], home.todos[u])
  }

  ghost predicate RowsOk(j: Journal) {
    forall k :: k in j ==> IsProvenance(j[k].provenance)
  }

  function SyncedTodos(todos: Todos): set<Uuid> {
    set u | u in todos && Synced(todos[u])
  }

  /** Every synced todo is the copy of a row whose create was written, and no row made two. */
  ghost predicate MadeBy(makes: map<Uuid, DKey>, s: Spoke, todos: Todos) {
    && makes.Keys == SyncedTodos(todos)
    && (forall u, v :: u in makes && v in makes && makes[u] == makes[v] ==> u == v)
    && (forall u :: u in makes ==>
          makes[u] in s.fired && makes[u] in s.journal && IsCopy(todos[u], s.journal[makes[u]]))
  }

  ghost predicate Made(s: Spoke, todos: Todos) {
    exists makes :: MadeBy(makes, s, todos)
  }

  ghost predicate AccountOk(s: Spoke, home: Home) {
    && TriggersOk(s) && AskedOk(home) && OffersOk(s, home, home.todos) && OffersOk(s, home, home.mirror)
    && SeenOk(home) && Copied(s.journal, home.todos) && RowsOk(s.journal) && Made(s, home.todos)
  }

  // ----- the account against the hub, whatever the tick does -----

  predicate IsFinished(todo: Todo) {
    todo.status == Ended(Completed) && !todo.trashed
  }

  /** A sender's copy: as delegated, or completed once the recipient's copy exists. */
  ghost predicate HandoverOk(h: Hub, home: Home, t: Tid)
    requires t in h.transfers
  {
    var tr := h.transfers[t];
    var u := tr.src;
    && u in home.asked && u in home.todos
    && home.asked[u].status == Open && !home.asked[u].trashed && home.asked[u].title == tr.payload.title
    && (home.todos[u] == home.asked[u] || (IsFinished(home.todos[u]) && tr.dst.Some?))
  }

  ghost predicate HandedAll(h: Hub, m: MemberId, home: Home) {
    forall t :: t in h.transfers && h.transfers[t].from == m ==> HandoverOk(h, home, t)
  }

  predicate Delegated(h: Hub, m: MemberId, u: Uuid) {
    exists t :: t in h.transfers && h.transfers[t].from == m && h.transfers[t].src == u
  }

  /** A delegated todo is untouched until it is pushed. */
  ghost predicate UnpushedOk(h: Hub, m: MemberId, home: Home) {
    forall u :: u in home.asked ==> u in home.todos && (home.todos[u] == home.asked[u] || Delegated(h, m, u))
  }

  function QueueOf(ph: Phase): seq<Entry> {
    if ph.Inbox? || ph.Firing? || ph.Correlating? || ph.Closed? || ph.Echoed? || ph.Failed? then ph.queue else []
  }

  /** An echo in hand is for an applied transfer. */
  ghost predicate EchoesApplied(h: Hub, q: seq<Entry>) {
    forall e :: e in q && e.EchoEntry? ==> e.key.tid in h.transfers && h.transfers[e.key.tid].dst.Some?
  }

  /** Only a member who may receive has anything in hand. */
  ghost predicate Receiving(h: Hub, m: MemberId, s: Spoke) {
    QueueOf(s.phase) != [] ==> m in h.roster.members && h.roster.members[m].canReceive
  }

  ghost predicate KeptOk(h: Hub, m: MemberId, s: Spoke, home: Home) {
    && AccountOk(s, home) && HandedAll(h, m, home) && UnpushedOk(h, m, home)
    && EchoesApplied(h, QueueOf(s.phase)) && Receiving(h, m, s)
  }

  /** Spokes push first revisions only. */
  ghost predicate FirstRevs(h: Hub) {
    forall t :: t in h.transfers ==> h.transfers[t].rev == 1
  }

  ghost predicate AllKept(h: Hub, spokes: map<MemberId, Spoke>, homes: map<MemberId, Home>) {
    forall m :: m in spokes ==> m in homes && KeptOk(h, m, spokes[m], homes[m])
  }

  /** One of the todo's own tags triggers this recipient's handle. */
  ghost predicate TagNames(h: Hub, s: Spoke, todo: Todo, to: MemberId) {
    to in h.roster.members
    && exists tag :: tag in todo.tags && tag in s.triggers && s.triggers[tag] == h.roster.members[to].handle
  }

  /** A transfer goes where the todo was tagged to go. */
  ghost predicate Addressed(h: Hub, s: Spoke, home: Home, t: Tid) {
    t in h.transfers && h.transfers[t].src in home.asked
    && TagNames(h, s, home.asked[h.transfers[t].src], h.transfers[t].to)
  }

  ghost predicate AddressedAll(h: Hub, m: MemberId, s: Spoke, home: Home) {
    forall t {:trigger Addressed(h, s, home, t)} :: t in h.transfers && h.transfers[t].from == m ==> Addressed(h, s, home, t)
  }

  ghost predicate AllAddressed(h: Hub, spokes: map<MemberId, Spoke>, homes: map<MemberId, Home>) {
    forall m {:trigger AddressedAll(h, m, spokes[m], homes[m])} :: m in spokes && m in homes ==>
      AddressedAll(h, m, spokes[m], homes[m])
  }

  ghost predicate KeptWorld(w: World) {
    && WorldOk(w) && FirstRevs(w.hub) && AllKept(w.hub, w.spokes, w.homes)
    && AllAddressed(w.hub, w.spokes, w.homes)
  }

  // ----- under careful ticks -----

  /** Why the sender's spoke will not mistake its own completion for the human's. */
  predicate Excused(h: Hub, s: Spoke, t: Tid)
    requires t in h.transfers
  {
    h.transfers[t].terminal.Some? || t in s.retagged
    || (s.phase.Retagged? && s.phase.watch != [] && s.phase.watch[0].tid == t)
  }

  ghost predicate SenderOk(h: Hub, s: Spoke, home: Home, t: Tid)
    requires t in h.transfers
  {
    var tr := h.transfers[t];
    var u := tr.src;
    && u in home.asked && u in home.todos
    && (u in home.mirror ==> home.mirror[u] == home.asked[u] || home.mirror[u] == home.todos[u])
    && (home.todos[u] == home.asked[u] || Excused(h, s, t))
    && (tr.resolved ==> IsFinished(home.todos[u]))
  }

  ghost predicate SendersOk(h: Hub, m: MemberId, s: Spoke, home: Home) {
    forall t :: t in h.transfers && h.transfers[t].from == m ==> SenderOk(h, s, home, t)
  }

  /** An echo in hand is for a transfer this member sent and its recipient finished. */
  ghost predicate EchoOk(h: Hub, m: MemberId, e: Entry) {
    e.EchoEntry? ==>
      e.key.tid in h.transfers && h.transfers[e.key.tid].from == m && h.transfers[e.key.tid].terminal.Some?
  }

  ghost predicate EchoesOk(h: Hub, m: MemberId, q: seq<Entry>) {
    forall e :: e in q ==> EchoOk(h, m, e)
  }

  /**
   * A sender's watch entry still ahead is already retagged, or over, or its todo is as delegated; a
   * recipient's is of a transfer nobody has reported.
   */
  ghost predicate QuietOk(h: Hub, s: Spoke, home: Home, w: Watched) {
    match w.role
    case Sender =>
      w.tid in s.retagged || (w.uuid in home.todos && w.uuid in home.asked && home.todos[w.uuid] == home.asked[w.uuid])
    case Recipient => w.tid in h.transfers && h.transfers[w.tid].terminal.None?
  }

  ghost predicate AheadQuiet(h: Hub, s: Spoke, home: Home) {
    forall i :: 0 <= i < |Ahead(s.phase)| ==> QuietOk(h, s, home, Ahead(s.phase)[i])
  }

  ghost predicate EchoedOk(s: Spoke, home: Home) {
    s.phase.Echoed? && s.phase.queue != [] && s.phase.queue[0].EchoEntry? ==>
      s.phase.queue[0].uuid in home.todos && IsFinished(home.todos[s.phase.queue[0].uuid])
  }

  /** Between a retag and its marker the copy is finished and not yet marked. */
  ghost predicate RetaggedOk(s: Spoke, home: Home) {
    s.phase.Retagged? && s.phase.watch != [] ==>
      && s.phase.watch[0].tid !in s.retagged
      && s.phase.watch[0].uuid in home.todos && IsFinished(home.todos[s.phase.watch[0].uuid])
  }

  ghost predicate TickOk(h: Hub, m: MemberId, s: Spoke, home: Home) {
    EchoesOk(h, m, QueueOf(s.phase)) && AheadQuiet(h, s, home) && EchoedOk(s, home) && RetaggedOk(s, home)
  }

  ghost predicate HomeOk(h: Hub, m: MemberId, s: Spoke, home: Home) {
    SendersOk(h, m, s, home) && TickOk(h, m, s, home)
  }

  /** Only recipients report, and only once they hold a copy. */
  ghost predicate ReportsOk(h: Hub) {
    forall t :: t in h.transfers && h.transfers[t].terminal.Some? ==>
      h.transfers[t].terminalBy == Some(h.transfers[t].to) && h.transfers[t].dst.Some?
  }

  ghost predicate AllHomes(h: Hub, spokes: map<MemberId, Spoke>, homes: map<MemberId, Home>) {
    forall m :: m in spokes ==> m in homes && HomeOk(h, m, spokes[m], homes[m])
  }

  ghost predicate CarefulOk(w: World) {
    KeptWorld(w) && ReportsOk(w.hub) && AllHomes(w.hub, w.spokes, w.homes)
  }

  // ----- under copies finished once -----

  function Untouched(todo: Todo): Todo {
    todo.(status := Open, trashed := false)
  }

  /** The mirror shows a received copy as it is or as it arrived. */
  ghost predicate VersionsOk(home: Home) {
    forall u :: u in home.mirror && u in home.todos && Synced(home.todos[u]) ==>
      home.mirror[u] == home.todos[u] || home.mirror[u] == Untouched(home.todos[u])
  }

  /** A recipient's copy is in the state the hub recorded. */
  ghost predicate RecipientOk(h: Hub, home: Home, t: Tid)
    requires t in h.transfers
  {
    var tr := h.transfers[t];
    tr.terminal.Some? && tr.dst.Some? ==>
      tr.dst.value in home.todos && TerminalOf(home.todos[tr.dst.value]) == tr.terminal
  }

  ghost predicate RecipientsOk(h: Hub, m: MemberId, home: Home) {
    forall t :: t in h.transfers && h.transfers[t].to == m ==> RecipientOk(h, home, t)
  }

  ghost predicate RecordOk(h: Hub, m: MemberId, home: Home) {
    VersionsOk(home) && RecipientsOk(h, m, home)
  }

  ghost predicate AllRecorded(h: Hub, homes: map<MemberId, Home>) {
    forall m :: m in homes ==> RecordOk(h, m, homes[m])
  }

  // ----- under dated todos -----

  ghost predicate WindowOk(s: Spoke) {
    (s.phase.Firing? || s.phase.Correlating?) && HeadIsCreate(s.phase.queue) && s.phase.queue[0].key in s.journal ==>
      s.phase.since <= s.journal[s.phase.queue[0].key].firedAt
  }

  /** Every journaled create was written, or is about to be. */
  ghost predicate NoneAbandoned(s: Spoke) {
    forall k :: k in s.journal ==> !Abandoned(s, k)
  }

  /** An uncorrelated copy is not trashed, and was not when last shown. */
  ghost predicate UntrashedOk(s: Spoke, home: Home) {
    forall u :: u in home.todos && Synced(home.todos[u]) && u !in JournaledDsts(s.journal) ==>
      !home.todos[u].trashed && (u in home.mirror ==> !home.mirror[u].trashed)
  }

  /** The mirror follows the account in creation order, and dates do not change. */
  ghost predicate ShownOk(home: Home) {
    && "" !in home.todos && InCreationOrder(home.todos, home.mirror)
    && forall u :: u in home.mirror && u in home.todos ==> home.mirror[u].created == home.todos[u].created
  }

  ghost predicate DatesOk(s: Spoke, home: Home) {
    && UntrashedOk(s, home) && ShownOk(home) && WindowOk(s)
    && (NoneAbandoned(s) ==> Matchable(s.journal, OpenKeys(s), home.todos))
  }

  ghost predicate AllDated(spokes: map<MemberId, Spoke>, homes: map<MemberId, Home>) {
    forall m :: m in spokes ==> m in homes && DatesOk(spokes[m], homes[m])
  }

  ghost predicate DatedOk(w: World) {
    CarefulOk(w) && AllDated(w.spokes, w.homes)
  }
}
