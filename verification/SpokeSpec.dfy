/**
 * One member's spoke, its local state and the account it serves, as a state machine: one action
 * for each statement of the tick that can be seen from outside (a hub call, a write to Things, a
 * local commit) and one for a crash. The phase is the place in the tick.
 */
module SpokeSpec {
  import opened Basics
  import opened HubSpec

  const DELEGATED_TAG := "\U{1F449} delegated"
  const MAX_CHECKLIST := 100
  const POLL_LIMIT := 10
  const CLOCK_SKEW: Time := 120.0

  datatype Status = Open | Ended(how: Terminal)

  datatype Todo = Todo(
    title: string, tags: set<string>, status: Status, trashed: bool, created: Time,
    repeating: bool, checklist: nat, kind: nat)

  type Todos = map<Uuid, Todo>

  /** A journal row: the intent to create, and the copy once correlated. */
  datatype Intent = Intent(title: string, provenance: string, firedAt: Time, dst: Option<Uuid>)

  type Journal = map<DKey, Intent>

  datatype Phase =
    | Idle
    | Pushed(src: Uuid, tid: Tid)                        // the push's reply is in hand
    | Inbox(queue: seq<Entry>)                           // applying leased entries, head first
    | Firing(queue: seq<Entry>, since: Time)             // the head's intent is journaled, its write is next
    | Correlating(queue: seq<Entry>, since: Time)        // looking for the head's todo
    | Closed(queue: seq<Entry>, dst: Uuid)               // the head's uuid is journaled, its ack is next
    | Echoed(queue: seq<Entry>)                          // the head's terminal write is verified, its ack is next
    | Failed(queue: seq<Entry>)                          // the head raised, its nack is next
    | Watching(watch: seq<Watched>)                      // going down the watchlist, head first
    | Reported(watch: seq<Watched>, state: Terminal)     // the head's observation was answered
    | Retagged(watch: seq<Watched>)                      // the head's retag is verified

  datatype Spoke = Spoke(
    triggers: map<string, string>,   // trigger tag -> recipient handle
    sent: map<Uuid, Tid>,
    journal: Journal,
    retagged: set<Tid>,
    observed: map<Tid, Terminal>,
    phase: Phase,
    fired: seq<DKey>)                // history: the deliveries whose create was written

  /** A Things account, what the reader last saw of it, and (history) each todo as it was delegated. */
  datatype Home = Home(todos: Todos, mirror: Todos, asked: Todos)

  datatype Local = Local(hub: Hub, spoke: Spoke, home: Home)

  datatype Action =
    | Send(src: Uuid, tag: string, id: Tid, now: Time, heard: bool)
    | MarkSent
    | Poll(order: seq<DKey>, seconds: Time, now: Time, heard: bool)
    | Intend(since: Time, firedAt: Time)
    | Fire(uuid: Uuid, created: Time)
    | Resume
    | Find(found: Uuid)
    | Fail
    | AckHead(now: Time, heard: bool)
    | WriteTerminal(landed: bool, verified: bool)
    | NackHead(arrives: bool)
    | Watch(q: seq<Watched>)
    | Pass
    | Report(now: Time, heard: bool)
    | MarkReported
    | Retag(landed: bool, verified: bool, kept: set<string>)
    | MarkRetagged
    | Finish
    | Crash

  // ----- the reader -----

  function TerminalOf(todo: Todo): Option<Terminal> {
    if todo.trashed then Some(Canceled)
    else match todo.status
         case Open => None
         case Ended(how) => Some(how)
  }

  /** A view of an account: existing todos, each as it is or as the mirror last showed it. */
  predicate Shows(home: Home, view: Todos) {
    && view.Keys <= home.todos.Keys
    && forall u :: u in view ==> view[u] == home.todos[u] || (u in home.mirror && view[u] == home.mirror[u])
  }

  /** outbound_candidates: open, untrashed to-dos carrying the tag. */
  predicate Candidate(view: Todos, u: Uuid, tag: string) {
    u in view && view[u].status == Open && !view[u].trashed && view[u].kind == 0 && tag in view[u].tags
  }

  /** Why a candidate is left tagged and untouched instead of pushed. */
  predicate Refused(todo: Todo) {
    todo.repeating || todo.checklist > MAX_CHECKLIST || todo.kind != 0
  }

  function JournaledDsts(j: Journal): set<Uuid> {
    set k | k in j && j[k].dst.Some? :: j[k].dst.value
  }

  /** What correlation looks for: exact title, created in the window, carrying the tag, not trashed, not known. */
  predicate Matches(view: Todos, u: Uuid, title: string, after: Time, provenance: string, exclude: set<Uuid>) {
    && u in view && u !in exclude
    && view[u].title == title && view[u].created >= after && provenance in view[u].tags && !view[u].trashed
  }

  ghost predicate Earliest(view: Todos, u: Uuid, title: string, after: Time, provenance: string, exclude: set<Uuid>) {
    && Matches(view, u, title, after, provenance, exclude)
    && forall v :: Matches(view, v, title, after, provenance, exclude) ==> view[u].created <= view[v].created
  }

  // ----- the tick -----

  /** A retagged sender copy is never looked at again. */
  predicate OwnDoing(s: Spoke, w: Watched) {
    w.role == Sender && w.tid in s.retagged
  }

  /** The terminal state to report for a watch entry, if there is one not yet recorded. */
  function News(s: Spoke, view: Todos, w: Watched): Option<Terminal> {
    if OwnDoing(s, w) || w.uuid !in view then None
    else
      var seen := TerminalOf(view[w.uuid]);
      if seen.Some? && w.tid in s.observed && s.observed[w.tid] == seen.value then None else seen
  }

  /** The sender's confirmed handoff that still needs its retag. */
  predicate WantsRetag(s: Spoke, view: Todos, w: Watched) {
    && w.role == Sender && w.applied && w.tid !in s.retagged
    && w.uuid in view && News(s, view, w).None?
  }

  function RetagTags(s: Spoke, tags: set<string>): set<string> {
    (set t | t in tags && t !in s.triggers) + {DELEGATED_TAG}
  }

  // Outbound: push one candidate; a refusal leaves it alone, a lost response leaves it unsent.

  predicate CanSend(l: Local, src: Uuid, tag: string, id: Tid) {
    && l.spoke.phase.Idle? && tag in l.spoke.triggers && Candidate(l.home.mirror, src, tag)
    && src !in l.spoke.sent && !Refused(l.home.mirror[src]) && id !in l.hub.transfers
  }

  function AfterSend(l: Local, p: Principal, src: Uuid, tag: string, id: Tid, now: Time, heard: bool): Local
    requires CanSend(l, src, tag, id)
  {
    var r := Push(l.hub, p, l.spoke.triggers[tag], src, Payload(l.home.mirror[src].title), 1, id, now);
    Local(r.hub, l.spoke.(phase := if heard && r.result.Ok? then Pushed(src, r.result.value.id) else Idle), l.home)
  }

  function AfterMarkSent(l: Local): Local
    requires l.spoke.phase.Pushed?
  {
    var s := l.spoke;
    l.(spoke := s.(sent := s.sent[s.phase.src := s.phase.tid], phase := Idle))
  }

  // Inbound: lease a batch; apply its entries one at a time.

  function AfterPoll(l: Local, p: Principal, order: seq<DKey>, seconds: Time, now: Time, heard: bool): Local {
    var r := Lease(l.hub, p, order, POLL_LIMIT, seconds, now);
    Local(r.hub, l.spoke.(phase := if heard && r.result.Ok? then Inbox(r.result.value) else Idle), l.home)
  }

  predicate HeadIsCreate(q: seq<Entry>) {
    q != [] && q[0].CreateEntry?
  }

  predicate CanIntend(s: Spoke) {
    s.phase.Inbox? && HeadIsCreate(s.phase.queue) && s.phase.queue[0].key !in s.journal
  }

  function AfterIntend(l: Local, since: Time, firedAt: Time): Local
    requires CanIntend(l.spoke)
  {
    var s, e := l.spoke, l.spoke.phase.queue[0];
    l.(spoke := s.(journal := s.journal[e.key := Intent(e.payload.title, e.provenance, firedAt, None)],
                   phase := Firing(s.phase.queue, since)))
  }

  predicate CanFire(l: Local, uuid: Uuid) {
    l.spoke.phase.Firing? && HeadIsCreate(l.spoke.phase.queue) && uuid !in l.home.todos && uuid != ""
  }

  /** The todo a create write makes: the provenance tag and no other (it is pre-created in every account). */
  function NewTodo(e: Entry, created: Time): Todo
    requires e.CreateEntry?
  {
    Todo(e.payload.title, {e.provenance}, Open, false, created, false, 0, 0)
  }

  function WindowStart(intent: Intent): Time {
    intent.firedAt - CLOCK_SKEW
  }

  ghost predicate Newest(todos: Todos, created: Time) {
    forall u :: u in todos ==> todos[u].created <= created
  }

  /** A new todo is dated within the skew allowance of its row, and not before any todo already in the account. */
  ghost predicate WellDated(l: Local, created: Time) {
    && l.spoke.phase.Firing? && HeadIsCreate(l.spoke.phase.queue) && l.spoke.phase.queue[0].key in l.spoke.journal
    && created >= WindowStart(l.spoke.journal[l.spoke.phase.queue[0].key])
    && Newest(l.home.todos, created)
  }

  function AfterFire(l: Local, uuid: Uuid, created: Time): Local
    requires CanFire(l, uuid)
  {
    var s, e := l.spoke, l.spoke.phase.queue[0];
    l.(spoke := s.(phase := Correlating(s.phase.queue, s.phase.since), fired := s.fired + [e.key]),
       home := l.home.(todos := l.home.todos[uuid := NewTodo(e, created)]))
  }

  /** An exception in an entry's application, caught by the inbound loop. */
  predicate CanFail(s: Spoke) {
    (s.phase.Firing? || s.phase.Correlating? || s.phase.Closed? || s.phase.Echoed?) && s.phase.queue != []
  }

  function AfterFail(l: Local): Local
    requires CanFail(l.spoke)
  {
    l.(spoke := l.spoke.(phase := Failed(l.spoke.phase.queue)))
  }

  predicate HeadJournaled(s: Spoke) {
    s.phase.Inbox? && HeadIsCreate(s.phase.queue) && s.phase.queue[0].key in s.journal
  }

  /** An open journal row: re-correlate from when it fired. A closed one: re-ack the same uuid. */
  function AfterResume(l: Local): Local
    requires HeadJournaled(l.spoke)
  {
    var s := l.spoke;
    var row := s.journal[s.phase.queue[0].key];
    l.(spoke := s.(phase :=
      match row.dst
      case None => Correlating(s.phase.queue, row.firedAt)
      case Some(u) => Closed(s.phase.queue, u)))
  }

  ghost predicate CanFind(l: Local, found: Uuid) {
    var s := l.spoke;
    && s.phase.Correlating? && HeadIsCreate(s.phase.queue) && s.phase.queue[0].key in s.journal && found != ""
    && Earliest(l.home.mirror, found, s.phase.queue[0].payload.title, s.phase.since - CLOCK_SKEW,
                s.phase.queue[0].provenance, JournaledDsts(s.journal))
  }

  function AfterFind(l: Local, found: Uuid): Local
    requires l.spoke.phase.Correlating? && l.spoke.phase.queue != [] && l.spoke.phase.queue[0].key in l.spoke.journal
  {
    var s, k := l.spoke, l.spoke.phase.queue[0].key;
    l.(spoke := s.(journal := s.journal[k := s.journal[k].(dst := Some(found))], phase := Closed(s.phase.queue, found)))
  }

  predicate CanAck(s: Spoke) {
    (s.phase.Closed? || s.phase.Echoed?) && s.phase.queue != []
  }

  function AckUuid(s: Spoke): Uuid {
    if s.phase.Closed? then s.phase.dst else ""
  }

  function AfterAckHead(l: Local, p: Principal, now: Time, heard: bool): Local
    requires CanAck(l.spoke)
  {
    var s := l.spoke;
    var r := Ack(l.hub, p, s.phase.queue[0].key, AckUuid(s), now);
    Local(r.hub,
          s.(phase := if heard && r.result.Ok? then Inbox(s.phase.queue[1..]) else Failed(s.phase.queue)),
          l.home)
  }

  predicate CanWrite(l: Local, landed: bool, verified: bool) {
    && l.spoke.phase.Inbox? && l.spoke.phase.queue != [] && l.spoke.phase.queue[0].EchoEntry?
    && (landed ==> l.spoke.phase.queue[0].uuid in l.home.todos) && (verified ==> landed)
  }

  /** A terminal echo: the sender's copy is always completed, whatever the echo's kind. */
  function AfterWriteTerminal(l: Local, landed: bool, verified: bool): Local
    requires CanWrite(l, landed, verified)
  {
    var s, todos, u := l.spoke, l.home.todos, l.spoke.phase.queue[0].uuid;
    Local(l.hub,
          s.(phase := if verified then Echoed(s.phase.queue) else Failed(s.phase.queue)),
          l.home.(todos := if landed then todos[u := todos[u].(status := Ended(Completed))] else todos))
  }

  function AfterNackHead(l: Local, p: Principal, arrives: bool): Local
    requires l.spoke.phase.Failed? && l.spoke.phase.queue != []
  {
    var s := l.spoke;
    Local(if arrives then Nack(l.hub, p, s.phase.queue[0].key).hub else l.hub,
          s.(phase := Inbox(s.phase.queue[1..])),
          l.home)
  }

  // Observe and retag: take a watchlist; look at its entries one at a time.

  predicate AtWatch(s: Spoke) {
    s.phase.Watching? && s.phase.watch != []
  }

  function AfterPass(l: Local): Local
    requires AtWatch(l.spoke)
  {
    l.(spoke := l.spoke.(phase := Watching(l.spoke.phase.watch[1..])))
  }

  predicate CanReport(l: Local) {
    AtWatch(l.spoke) && News(l.spoke, l.home.mirror, l.spoke.phase.watch[0]).Some?
  }

  function AfterReport(l: Local, p: Principal, now: Time, heard: bool): Local
    requires CanReport(l)
  {
    var s, w := l.spoke, l.spoke.phase.watch[0];
    var news := News(s, l.home.mirror, w).value;
    var r := Observe(l.hub, p, w.tid, news, now);
    Local(r.hub,
          s.(phase := if heard && r.result.Ok? then Reported(s.phase.watch, news) else Watching(s.phase.watch[1..])),
          l.home)
  }

  function AfterMarkReported(l: Local): Local
    requires l.spoke.phase.Reported? && l.spoke.phase.watch != []
  {
    var s := l.spoke;
    l.(spoke := s.(observed := s.observed[s.phase.watch[0].tid := s.phase.state],
                   phase := Watching(s.phase.watch[1..])))
  }

  /** The one write of a retag: tags an account does not know are dropped, and then it is not verified. */
  predicate CanRetag(l: Local, landed: bool, verified: bool, kept: set<string>) {
    && AtWatch(l.spoke) && WantsRetag(l.spoke, l.home.mirror, l.spoke.phase.watch[0])
    && (landed ==> l.spoke.phase.watch[0].uuid in l.home.todos) && (verified ==> landed)
    && var tags := RetagTags(l.spoke, l.home.mirror[l.spoke.phase.watch[0].uuid].tags);
       kept <= tags && (verified ==> kept == tags)
  }

  function AfterRetag(l: Local, landed: bool, verified: bool, kept: set<string>): Local
    requires CanRetag(l, landed, verified, kept)
  {
    var s, todos, u := l.spoke, l.home.todos, l.spoke.phase.watch[0].uuid;
    Local(l.hub,
          s.(phase := if verified then Retagged(s.phase.watch) else Watching(s.phase.watch[1..])),
          l.home.(todos := if landed then todos[u := todos[u].(tags := kept, status := Ended(Completed))] else todos))
  }

  function AfterMarkRetagged(l: Local): Local
    requires l.spoke.phase.Retagged? && l.spoke.phase.watch != []
  {
    var s := l.spoke;
    l.(spoke := s.(retagged := s.retagged + {s.phase.watch[0].tid}, phase := Watching(s.phase.watch[1..])))
  }

  function AfterRest(l: Local): Local {
    l.(spoke := l.spoke.(phase := Idle))
  }

  /** When the tick can take this action next. */
  ghost predicate Enabled(l: Local, p: Principal, a: Action) {
    match a
    case Send(src, tag, id, _, _) => CanSend(l, src, tag, id)
    case MarkSent => l.spoke.phase.Pushed?
    case Poll(order, _, _, _) => l.spoke.phase.Idle? && IsListing(l.hub, p.member, order)
    case Intend(_, _) => CanIntend(l.spoke)
    case Fire(uuid, _) => CanFire(l, uuid)
    case Fail => CanFail(l.spoke)
    case Resume => HeadJournaled(l.spoke)
    case Find(found) => CanFind(l, found)
    case AckHead(_, _) => CanAck(l.spoke)
    case WriteTerminal(landed, verified) => CanWrite(l, landed, verified)
    case NackHead(_) => l.spoke.phase.Failed? && l.spoke.phase.queue != []
    case Watch(q) => l.spoke.phase.Idle? && IsWatchlist(l.hub, p, q)
    case Pass => AtWatch(l.spoke)
    case Report(_, _) => CanReport(l)
    case MarkReported => l.spoke.phase.Reported? && l.spoke.phase.watch != []
    case Retag(landed, verified, kept) => CanRetag(l, landed, verified, kept)
    case MarkRetagged => l.spoke.phase.Retagged? && l.spoke.phase.watch != []
    case Finish => l.spoke.phase == Inbox([]) || l.spoke.phase == Watching([])
    case Crash => true
  }

  ghost function Act(l: Local, p: Principal, a: Action): Local
    requires Enabled(l, p, a)
  {
    match a
    case Send(src, tag, id, now, heard) => AfterSend(l, p, src, tag, id, now, heard)
    case MarkSent => AfterMarkSent(l)
    case Poll(order, seconds, now, heard) => AfterPoll(l, p, order, seconds, now, heard)
    case Intend(since, firedAt) => AfterIntend(l, since, firedAt)
    case Fire(uuid, created) => AfterFire(l, uuid, created)
    case Fail => AfterFail(l)
    case Resume => AfterResume(l)
    case Find(found) => AfterFind(l, found)
    case AckHead(now, heard) => AfterAckHead(l, p, now, heard)
    case WriteTerminal(landed, verified) => AfterWriteTerminal(l, landed, verified)
    case NackHead(arrives) => AfterNackHead(l, p, arrives)
    case Watch(q) => l.(spoke := l.spoke.(phase := Watching(q)))
    case Pass => AfterPass(l)
    case Report(now, heard) => AfterReport(l, p, now, heard)
    case MarkReported => AfterMarkReported(l)
    case Retag(landed, verified, kept) => AfterRetag(l, landed, verified, kept)
    case MarkRetagged => AfterMarkRetagged(l)
    case Finish => AfterRest(l)
    case Crash => AfterRest(l)
  }
}
