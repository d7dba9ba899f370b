/**
 * The hub ledger as a value: the transfers and deliveries tables, their
 * UNIQUE indexes, and one function for each call a member can make.
 * Each function is one committed transaction of hub/ledger.py.
 */
module HubSpec {
  import opened Basics

  datatype Kind = Create | Complete | Cancel

  /** queued -> leased -> done; a lease names its device and expiry. */
  datatype Progress = Queued | Leased(device: DeviceId, expires: Time) | Done

  /** UNIQUE(transfer_id, kind, to_member); a delivery row is named by this key. */
  datatype DKey = DKey(tid: Tid, kind: Kind, to: MemberId)

  datatype Delivery = Delivery(progress: Progress, attempts: nat, createdAt: Time)

  datatype Payload = Payload(title: string)

  datatype Transfer = Transfer(
    tenant: TenantId, from: MemberId, to: MemberId, src: Uuid, rev: int, payload: Payload,
    dst: Option<Uuid>, terminal: Option<Terminal>, terminalBy: Option<MemberId>, resolved: bool)

  /** UNIQUE(tenant_id, from_member, src_uuid, rev). */
  datatype PushKey = PushKey(tenant: TenantId, from: MemberId, src: Uuid, rev: int)

  datatype Member = Member(tenant: TenantId, handle: string, canSend: bool, canReceive: bool)

  /** UNIQUE(tenant_id, handle). */
  datatype Address = Address(tenant: TenantId, handle: string)

  datatype Roster = Roster(members: map<MemberId, Member>, byHandle: map<Address, MemberId>)

  datatype Principal = Principal(
    tenant: TenantId, member: MemberId, device: DeviceId, canSend: bool, canReceive: bool)

  datatype Hub = Hub(
    roster: Roster,
    transfers: map<Tid, Transfer>,
    pushed: map<PushKey, Tid>,
    deliveries: map<DKey, Delivery>,
    generation: nat)

  /** A call's committed state and what it returns. */
  datatype Reply<+T> = Reply(hub: Hub, result: Result<T>)

  datatype PushReply = PushReply(id: Tid, deduped: bool, terminal: Option<Terminal>)

  datatype AckReply = Acked | AlreadyDone

  datatype ObserveReply = ObserveReply(terminal: Terminal, alreadySet: bool)

  /** What a lease hands out. */
  datatype Entry =
    | CreateEntry(key: DKey, attempts: nat, payload: Payload, provenance: string)
    | EchoEntry(key: DKey, attempts: nat, uuid: Uuid)

  datatype Role = Sender | Recipient

  datatype Watched = Watched(tid: Tid, uuid: Uuid, role: Role, applied: bool)

  function EmptyHub(roster: Roster): Hub {
    Hub(roster, map[], map[], map[], 0)
  }

  function EchoKind(s: Terminal): Kind {
    match s
    case Completed => Complete
    case Canceled => Cancel
  }

  function ProvenanceTag(handle: string): string {
    "from-" + handle
  }

  function KeyOf(tr: Transfer): PushKey {
    PushKey(tr.tenant, tr.from, tr.src, tr.rev)
  }

  function CreateKey(h: Hub, t: Tid): DKey
    requires t in h.transfers
  {
    DKey(t, Create, h.transfers[t].to)
  }

  predicate Authentic(h: Hub, p: Principal) {
    && p.member in h.roster.members
    && var m := h.roster.members[p.member];
       m.tenant == p.tenant && m.canSend == p.canSend && m.canReceive == p.canReceive
  }

  /** INSERT OR IGNORE of a queued row. */
  function Enqueue(ds: map<DKey, Delivery>, k: DKey, now: Time): map<DKey, Delivery> {
    if k in ds then ds else ds[k := Delivery(Queued, 0, now)]
  }

  function MarkDone(ds: map<DKey, Delivery>, k: DKey): map<DKey, Delivery>
    requires k in ds
  {
    ds[k := ds[k].(progress := Done)]
  }

  // ----- push_transfer -----

  function Push(h: Hub, p: Principal, to: string, src: Uuid, payload: Payload, rev: int, id: Tid, now: Time)
    : Reply<PushReply>
  {
    var address := Address(p.tenant, to);
    if !p.canSend then Reply(h, Err(Forbidden))
    else if src == "" || payload.title == "" then Reply(h, Err(BadRequest))
    else if address !in h.roster.byHandle then Reply(h, Err(NotFound))
    else if h.roster.byHandle[address] == p.member then Reply(h, Err(BadRequest))
    else if h.roster.byHandle[address] !in h.roster.members
         || !h.roster.members[h.roster.byHandle[address]].canReceive then Reply(h, Err(Forbidden))
    else
      var key := PushKey(p.tenant, p.member, src, rev);
      if key in h.pushed then
        var t := h.pushed[key];
        var terminal := if t in h.transfers then h.transfers[t].terminal else None;
        Reply(h, Ok(PushReply(t, true, terminal)))
      else
        var recipient := h.roster.byHandle[address];
        var tr := Transfer(p.tenant, p.member, recipient, src, rev, payload, None, None, None, false);
        var h' := h.(
          transfers := h.transfers[id := tr],
          pushed := h.pushed[key := id],
          deliveries := Enqueue(h.deliveries, DKey(id, Create, recipient), now),
          generation := h.generation + 1);
        Reply(h', Ok(PushReply(id, false, None)))
  }

  // ----- lease_deliveries -----

  /** The rows the lease query returns: this member's rows that are not done, oldest first. */
  ghost predicate IsListing(h: Hub, m: MemberId, order: seq<DKey>) {
    && Distinct(order)
    && (forall k :: k in order <==> k in h.deliveries && k.to == m && h.deliveries[k].progress != Done)
    && (forall i, j :: 0 <= i < j < |order| ==> h.deliveries[order[i]].createdAt <= h.deliveries[order[j]].createdAt)
  }

  predicate Lapsed(g: Progress, now: Time) {
    match g
    case Queued => true
    case Leased(_, expires) => expires < now
    case Done => false
  }

  /** The copy a member holds of a transfer, once it exists. */
  function OwnCopy(tr: Transfer, m: MemberId): Option<Uuid> {
    if m == tr.from then Some(tr.src) else tr.dst
  }

  /** The ordering guard: an echo is handed out only to a member whose copy exists. */
  predicate Leasable(h: Hub, k: DKey, now: Time) {
    && k in h.deliveries
    && k.tid in h.transfers
    && h.transfers[k.tid].from in h.roster.members
    && Lapsed(h.deliveries[k].progress, now)
    && (k.kind != Create ==> OwnCopy(h.transfers[k.tid], k.to).Some?)
  }

  function Eligible(h: Hub, order: seq<DKey>, now: Time): (r: seq<DKey>)
    ensures forall k :: k in r <==> k in order && Leasable(h, k, now)
  {
    if order == [] then []
    else (if Leasable(h, order[0], now) then [order[0]] else []) + Eligible(h, order[1..], now)
  }

  function Handed(h: Hub, order: seq<DKey>, limit: int, now: Time): seq<DKey> {
    Prefix(Eligible(h, order, now), limit)
  }

  /** The row once handed out. */
  function Handout(d: Delivery, device: DeviceId, expires: Time): Delivery {
    d.(progress := Leased(device, expires), attempts := d.attempts + 1)
  }

  function Grant(ds: map<DKey, Delivery>, ks: seq<DKey>, device: DeviceId, expires: Time): map<DKey, Delivery> {
    map k | k in ds ::
      if k in ks then Handout(ds[k], device, expires) else ds[k]
  }

  function EntryFor(h: Hub, k: DKey): Entry
    requires k in h.deliveries && k.tid in h.transfers && h.transfers[k.tid].from in h.roster.members
    requires k.kind != Create ==> OwnCopy(h.transfers[k.tid], k.to).Some?
  {
    var tr := h.transfers[k.tid];
    if k.kind == Create then
      CreateEntry(k, h.deliveries[k].attempts + 1, tr.payload, ProvenanceTag(h.roster.members[tr.from].handle))
    else
      EchoEntry(k, h.deliveries[k].attempts + 1, OwnCopy(tr, k.to).value)
  }

  function Entries(h: Hub, ks: seq<DKey>, now: Time): (r: seq<Entry>)
    requires forall i :: 0 <= i < |ks| ==> Leasable(h, ks[i], now)
    ensures |r| == |ks|
    ensures forall i :: 0 <= i < |r| ==> Leasable(h, ks[i], now) && r[i] == EntryFor(h, ks[i])
  {
    seq(|ks|, i requires 0 <= i < |ks| => assert Leasable(h, ks[i], now); EntryFor(h, ks[i]))
  }

  function Lease(h: Hub, p: Principal, order: seq<DKey>, limit: int, seconds: Time, now: Time): Reply<seq<Entry>> {
    if !p.canReceive then Reply(h, Err(Forbidden))
    else
      var ks := Handed(h, order, limit, now);
      Reply(h.(deliveries := Grant(h.deliveries, ks, p.device, now + seconds)), Ok(Entries(h, ks, now)))
  }

  // ----- ack_delivery, nack_delivery -----

  function Ack(h: Hub, p: Principal, k: DKey, dst: Uuid, now: Time): Reply<AckReply> {
    if k !in h.deliveries || k.tid !in h.transfers || k.to != p.member then Reply(h, Err(NotFound))
    else if h.deliveries[k].progress == Done then Reply(h, Ok(AlreadyDone))
    else
      var tr := h.transfers[k.tid];
      var ds := MarkDone(h.deliveries, k);
      if k.kind == Create then
        if dst == "" then Reply(h, Err(BadRequest))
        else
          var h' := h.(transfers := h.transfers[k.tid := tr.(dst := Some(dst))], deliveries := ds);
          match tr.terminal
          case None => Reply(h', Ok(Acked))
          case Some(s) =>
            // the sender revoked while the create was in flight
            Reply(h'.(deliveries := Enqueue(ds, DKey(k.tid, EchoKind(s), k.to), now),
                      generation := h.generation + 1),
                  Ok(Acked))
      else
        Reply(h.(transfers := h.transfers[k.tid := tr.(resolved := true)], deliveries := ds), Ok(Acked))
  }

  function Nack(h: Hub, p: Principal, k: DKey): Reply<AckReply> {
    if k !in h.deliveries || k.to != p.member then Reply(h, Err(NotFound))
    else if h.deliveries[k].progress == Done then Reply(h, Ok(AlreadyDone))
    else Reply(h.(deliveries := h.deliveries[k := h.deliveries[k].(progress := Queued)]), Ok(Acked))
  }

  // ----- watchlist, observe -----

  /** A transfer on a member's watchlist: open, and the member's own copy exists. */
  predicate OnWatch(h: Hub, p: Principal, t: Tid) {
    && t in h.transfers
    && var tr := h.transfers[t];
       tr.tenant == p.tenant && !tr.resolved && tr.terminal.None?
       && (tr.from == p.member || (tr.to == p.member && tr.dst.Some?))
  }

  function WatchEntry(h: Hub, p: Principal, t: Tid): Watched
    requires OnWatch(h, p, t)
  {
    var tr := h.transfers[t];
    if tr.from == p.member then Watched(t, tr.src, Sender, tr.dst.Some?)
    else Watched(t, tr.dst.value, Recipient, tr.dst.Some?)
  }

  /** The watchlist, in whatever order the query returns it. */
  ghost predicate IsWatchlist(h: Hub, p: Principal, q: seq<Watched>) {
    && (forall i, j :: 0 <= i < j < |q| ==> q[i].tid != q[j].tid)
    && (forall w :: w in q ==> OnWatch(h, p, w.tid) && w == WatchEntry(h, p, w.tid))
    && (forall t :: OnWatch(h, p, t) ==> WatchEntry(h, p, t) in q)
  }

  predicate CancelDelivered(h: Hub, t: Tid) {
    exists k :: k in h.deliveries && k.tid == t && k.kind == Cancel && h.deliveries[k].progress == Done
  }

  /** DELETE of the cancel echoes that are not done. */
  function DropCancels(ds: map<DKey, Delivery>, t: Tid): map<DKey, Delivery> {
    map k | k in ds && !(k.tid == t && k.kind == Cancel && ds[k].progress != Done) :: ds[k]
  }

  /** The party that did not report the terminal state. */
  function Other(tr: Transfer): MemberId {
    if tr.terminalBy == Some(tr.from) then tr.to else tr.from
  }

  /** _queue_echo: the committed state; the generation moves only when a leasable row is queued. */
  function QueueEcho(h: Hub, t: Tid, s: Terminal, now: Time): Hub
    requires t in h.transfers
  {
    var tr := h.transfers[t];
    var create := CreateKey(h, t);
    var waiting := Other(tr) == tr.to && tr.dst.None? && create in h.deliveries;
    if waiting && h.deliveries[create].progress == Queued then
      // revoked before the recipient applied it: never materialize a dead todo
      h.(deliveries := MarkDone(h.deliveries, create), transfers := h.transfers[t := tr.(resolved := true)])
    else if waiting && h.deliveries[create].progress.Leased? then
      h // in flight: the create's ack queues the echo
    else
      h.(deliveries := Enqueue(h.deliveries, DKey(t, EchoKind(s), Other(tr)), now),
         generation := h.generation + 1)
  }

  function SetTerminal(h: Hub, t: Tid, s: Terminal, reporter: MemberId): Hub
    requires t in h.transfers
  {
    h.(transfers := h.transfers[t := h.transfers[t].(terminal := Some(s), terminalBy := Some(reporter))])
  }

  predicate Party(h: Hub, p: Principal, t: Tid) {
    && t in h.transfers
    && h.transfers[t].tenant == p.tenant
    && (h.transfers[t].from == p.member || h.transfers[t].to == p.member)
  }

  function Observe(h: Hub, p: Principal, t: Tid, s: Terminal, now: Time): Reply<ObserveReply> {
    if !Party(h, p, t) then Reply(h, Err(NotFound))
    else
      match h.transfers[t].terminal
      case None =>
        Reply(QueueEcho(SetTerminal(h, t, s, p.member), t, s, now), Ok(ObserveReply(s, false)))
      case Some(was) =>
        if was == s then Reply(h, Ok(ObserveReply(s, true)))
        else if was == Canceled then
          if CancelDelivered(h, t) then Reply(h, Ok(ObserveReply(Canceled, true)))
          else
            // work done wins
            var h1 := SetTerminal(h, t, Completed, p.member);
            var h2 := h1.(deliveries := DropCancels(h1.deliveries, t));
            Reply(QueueEcho(h2, t, Completed, now), Ok(ObserveReply(Completed, false)))
        else Reply(h, Ok(ObserveReply(Completed, true)))
  }
}
