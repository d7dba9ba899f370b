/** What every call keeps of the ledger, whoever makes it and in whatever order. */
module HubInvariant {
  import opened Basics
  import opened HubSpec

  datatype Call =
    | CallPush(p: Principal, handle: string, src: Uuid, payload: Payload, rev: int, id: Tid, now: Time)
    | CallLease(p: Principal, order: seq<DKey>, limit: int, seconds: Time, now: Time)
    | CallAck(p: Principal, key: DKey, dst: Uuid, now: Time)
    | CallNack(p: Principal, key: DKey)
    | CallObserve(p: Principal, t: Tid, s: Terminal, now: Time)

  /** The caller is who the roster says; ids are fresh; the query lists the caller's rows. */
  ghost predicate Legal(h: Hub, c: Call) {
    && Authentic(h, c.p)
    && (c.CallPush? ==> c.id !in h.transfers)
    && (c.CallLease? ==> IsListing(h, c.p.member, c.order))
  }

  function Do(h: Hub, c: Call): Hub {
    match c
    case CallPush(p, handle, src, payload, rev, id, now) => Push(h, p, handle, src, payload, rev, id, now).hub
    case CallLease(p, order, limit, seconds, now) => Lease(h, p, order, limit, seconds, now).hub
    case CallAck(p, key, dst, now) => Ack(h, p, key, dst, now).hub
    case CallNack(p, key) => Nack(h, p, key).hub
    case CallObserve(p, t, s, now) => Observe(h, p, t, s, now).hub
  }

  // ----- the invariant -----

  /** The member is found under their own handle. */
  predicate Indexed(r: Roster, m: MemberId)
    requires m in r.members
  {
    var a := Address(r.members[m].tenant, r.members[m].handle);
    a in r.byHandle && r.byHandle[a] == m
  }

  /** The index on (tenant, handle) is unique and finds every member. */
  ghost predicate RosterOk(r: Roster) {
    && (forall a :: a in r.byHandle ==>
          && r.byHandle[a] in r.members
          && r.members[r.byHandle[a]].tenant == a.tenant
          && r.members[r.byHandle[a]].handle == a.handle)
    && (forall m {:trigger Indexed(r, m)} :: m in r.members ==> Indexed(r, m))
  }

  predicate CreateDone(h: Hub, t: Tid)
    requires t in h.transfers
  {
    CreateKey(h, t) in h.deliveries && h.deliveries[CreateKey(h, t)].progress == Done
  }

  /** The create was suppressed before the recipient applied it. */
  predicate Skipped(h: Hub, t: Tid) {
    t in h.transfers && CreateDone(h, t) && h.transfers[t].dst.None?
  }

  ghost predicate TransferOk(h: Hub, t: Tid)
    requires t in h.transfers
  {
    var tr := h.transfers[t];
    && tr.from != tr.to
    && tr.from in h.roster.members && h.roster.members[tr.from].tenant == tr.tenant
    && tr.to in h.roster.members && h.roster.members[tr.to].tenant == tr.tenant
    && CreateKey(h, t) in h.deliveries
    && (tr.terminal.Some? <==> tr.terminalBy.Some?)
    && (tr.terminalBy.Some? ==> tr.terminalBy.value == tr.from || tr.terminalBy.value == tr.to)
    && (tr.dst.Some? ==> CreateDone(h, t) && tr.dst.value != "")
    && (Skipped(h, t) ==> tr.resolved)
    && (tr.resolved ==> tr.terminal.Some?)
  }

  ghost predicate DeliveryOk(h: Hub, k: DKey) {
    && k.tid in h.transfers
    && var tr := h.transfers[k.tid];
       && (k.to == tr.from || k.to == tr.to)
       && (k.kind == Create ==> k.to == tr.to)
       && (k.kind != Create ==> tr.terminal.Some? && k.kind == EchoKind(tr.terminal.value))
  }

  /** The push index and the transfers table name each other. */
  ghost predicate PushIndexOk(h: Hub) {
    && (forall k :: k in h.pushed ==> h.pushed[k] in h.transfers && KeyOf(h.transfers[h.pushed[k]]) == k)
    && (forall t :: t in h.transfers ==> KeyOf(h.transfers[t]) in h.pushed && h.pushed[KeyOf(h.transfers[t])] == t)
  }

  ghost predicate HubInv(h: Hub) {
    && RosterOk(h.roster)
    && PushIndexOk(h)
    && (forall t :: t in h.transfers ==> TransferOk(h, t))
    && (forall k :: k in h.deliveries ==> DeliveryOk(h, k))
  }

  lemma EmptyInv(roster: Roster)
    requires RosterOk(roster)
    ensures HubInv(EmptyHub(roster))
  {
  }

  lemma PushKeepsInv(h: Hub, p: Principal, to: string, src: Uuid, payload: Payload, rev: int, id: Tid, now: Time)
    requires HubInv(h) && Authentic(h, p) && id !in h.transfers
    ensures HubInv(Push(h, p, to, src, payload, rev, id, now).hub)
  {
    var h' := Push(h, p, to, src, payload, rev, id, now).hub;
    if h' != h {
      forall t | t in h'.transfers ensures TransferOk(h', t) {
        if t != id { assert TransferOk(h, t); }
      }
      forall k | k in h'.deliveries ensures DeliveryOk(h', k) {
        if k in h.deliveries { assert DeliveryOk(h, k); }
      }
    }
  }

  lemma LeaseKeepsInv(h: Hub, p: Principal, order: seq<DKey>, limit: int, seconds: Time, now: Time)
    requires HubInv(h)
    ensures HubInv(Lease(h, p, order, limit, seconds, now).hub)
  {
    var h' := Lease(h, p, order, limit, seconds, now).hub;
    forall t | t in h'.transfers ensures TransferOk(h', t) {
      assert TransferOk(h, t);
    }
    forall k | k in h'.deliveries ensures DeliveryOk(h', k) {
      assert DeliveryOk(h, k);
    }
  }

  lemma AckTransferOk(h: Hub, p: Principal, key: DKey, dst: Uuid, now: Time, t: Tid)
    requires t in h.transfers && TransferOk(h, t) && (key in h.deliveries ==> DeliveryOk(h, key))
    ensures var h' := Ack(h, p, key, dst, now).hub; t in h'.transfers && TransferOk(h', t)
  {
    var h' := Ack(h, p, key, dst, now).hub;
    assert CreateKey(h', t) == CreateKey(h, t);
  }

  lemma AckDeliveryOk(h: Hub, p: Principal, key: DKey, dst: Uuid, now: Time, k: DKey)
    requires (k in h.deliveries ==> DeliveryOk(h, k)) && (key in h.deliveries ==> DeliveryOk(h, key))
    requires k in Ack(h, p, key, dst, now).hub.deliveries
    ensures DeliveryOk(Ack(h, p, key, dst, now).hub, k)
  {
  }

  lemma AckKeepsInv(h: Hub, p: Principal, key: DKey, dst: Uuid, now: Time)
    requires HubInv(h)
    ensures HubInv(Ack(h, p, key, dst, now).hub)
  {
    var h' := Ack(h, p, key, dst, now).hub;
    PushIndexKept(h, h');
    forall t | t in h'.transfers ensures TransferOk(h', t) {
      AckTransferOk(h, p, key, dst, now, t);
    }
    forall k | k in h'.deliveries ensures DeliveryOk(h', k) {
      AckDeliveryOk(h, p, key, dst, now, k);
    }
  }

  lemma NackKeepsInv(h: Hub, p: Principal, key: DKey)
    requires HubInv(h)
    ensures HubInv(Nack(h, p, key).hub)
  {
    var h' := Nack(h, p, key).hub;
    forall t | t in h'.transfers ensures TransferOk(h', t) {
      assert TransferOk(h, t);
    }
    forall k | k in h'.deliveries ensures DeliveryOk(h', k) {
      assert DeliveryOk(h, k);
    }
  }

  /** The state an effective observation leaves before its echo is queued. */
  function Decided(h: Hub, t: Tid, s: Terminal, reporter: MemberId): Hub
    requires t in h.transfers
  {
    var h1 := SetTerminal(h, t, s, reporter);
    if h.transfers[t].terminal.None? then h1 else h1.(deliveries := DropCancels(h1.deliveries, t))
  }

  /** The observations that set or upgrade the terminal state. */
  predicate Decides(h: Hub, t: Tid, s: Terminal)
    requires t in h.transfers
  {
    match h.transfers[t].terminal
    case None => true
    case Some(was) => was == Canceled && s == Completed && !CancelDelivered(h, t)
  }

  lemma ObserveIsDecide(h: Hub, p: Principal, t: Tid, s: Terminal, now: Time)
    ensures Party(h, p, t) && Decides(h, t, s) ==>
      Observe(h, p, t, s, now).hub == QueueEcho(Decided(h, t, s, p.member), t, s, now)
    ensures !(Party(h, p, t) && Decides(h, t, s)) ==> Observe(h, p, t, s, now).hub == h
  {
  }

  lemma SetTransferOk(h: Hub, t: Tid, s: Terminal, reporter: MemberId, u: Tid)
    requires t in h.transfers && u in h.transfers && TransferOk(h, u)
    requires reporter == h.transfers[t].from || reporter == h.transfers[t].to
    ensures TransferOk(SetTerminal(h, t, s, reporter), u)
  {
  }

  lemma DropTransferOk(h: Hub, t: Tid, u: Tid)
    requires u in h.transfers && TransferOk(h, u)
    ensures TransferOk(h.(deliveries := DropCancels(h.deliveries, t)), u)
  {
  }

  lemma DecidedTransferOk(h: Hub, t: Tid, s: Terminal, reporter: MemberId, u: Tid)
    requires t in h.transfers && u in h.transfers && TransferOk(h, u)
    requires reporter == h.transfers[t].from || reporter == h.transfers[t].to
    ensures TransferOk(Decided(h, t, s, reporter), u)
  {
    SetTransferOk(h, t, s, reporter, u);
    DropTransferOk(SetTerminal(h, t, s, reporter), t, u);
  }

  lemma DecidedDeliveryOk(h: Hub, t: Tid, s: Terminal, reporter: MemberId, k: DKey)
    requires t in h.transfers && Decides(h, t, s)
    requires k in h.deliveries && DeliveryOk(h, k) && k in Decided(h, t, s, reporter).deliveries
    ensures DeliveryOk(Decided(h, t, s, reporter), k)
  {
  }

  lemma PushIndexKept(h: Hub, h': Hub)
    requires PushIndexOk(h) && h'.pushed == h.pushed
    requires forall t :: t in h'.transfers <==> t in h.transfers
    requires forall t :: t in h.transfers ==> KeyOf(h'.transfers[t]) == KeyOf(h.transfers[t])
    ensures PushIndexOk(h')
  {
    forall k | k in h'.pushed
      ensures h'.pushed[k] in h'.transfers && KeyOf(h'.transfers[h'.pushed[k]]) == k
    {
      var t := h.pushed[k];
      assert t in h.transfers && KeyOf(h.transfers[t]) == k;
    }
  }

  lemma DecidedKeepsInv(h: Hub, t: Tid, s: Terminal, reporter: MemberId)
    requires HubInv(h) && t in h.transfers && Decides(h, t, s)
    requires reporter == h.transfers[t].from || reporter == h.transfers[t].to
    ensures HubInv(Decided(h, t, s, reporter))
  {
    var h' := Decided(h, t, s, reporter);
    PushIndexKept(h, h');
    forall u | u in h'.transfers ensures TransferOk(h', u) {
      DecidedTransferOk(h, t, s, reporter, u);
    }
    forall k | k in h'.deliveries ensures DeliveryOk(h', k) {
      DecidedDeliveryOk(h, t, s, reporter, k);
    }
  }

  lemma QueueTransferOk(h: Hub, t: Tid, s: Terminal, now: Time, u: Tid)
    requires t in h.transfers && h.transfers[t].terminal == Some(s) && u in h.transfers && TransferOk(h, u)
    ensures TransferOk(QueueEcho(h, t, s, now), u)
  {
    assert CreateKey(QueueEcho(h, t, s, now), u) == CreateKey(h, u);
  }

  lemma QueueDeliveryOk(h: Hub, t: Tid, s: Terminal, now: Time, k: DKey)
    requires t in h.transfers && h.transfers[t].terminal == Some(s)
    requires k in QueueEcho(h, t, s, now).deliveries && (k in h.deliveries ==> DeliveryOk(h, k))
    ensures DeliveryOk(QueueEcho(h, t, s, now), k)
  {
  }

  lemma QueueEchoKeepsInv(h: Hub, t: Tid, s: Terminal, now: Time)
    requires HubInv(h) && t in h.transfers && h.transfers[t].terminal == Some(s)
    ensures HubInv(QueueEcho(h, t, s, now))
  {
    var h' := QueueEcho(h, t, s, now);
    PushIndexKept(h, h');
    forall u | u in h'.transfers ensures TransferOk(h', u) {
      QueueTransferOk(h, t, s, now, u);
    }
    forall k | k in h'.deliveries ensures DeliveryOk(h', k) {
      QueueDeliveryOk(h, t, s, now, k);
    }
  }

  lemma ObserveKeepsInv(h: Hub, p: Principal, t: Tid, s: Terminal, now: Time)
    requires HubInv(h)
    ensures HubInv(Observe(h, p, t, s, now).hub)
  {
    ObserveIsDecide(h, p, t, s, now);
    if Party(h, p, t) && Decides(h, t, s) {
      DecidedKeepsInv(h, t, s, p.member);
      QueueEchoKeepsInv(Decided(h, t, s, p.member), t, s, now);
    }
  }

  lemma DoKeepsInv(h: Hub, c: Call)
    requires HubInv(h) && Legal(h, c)
    ensures HubInv(Do(h, c))
  {
    match c
    case CallPush(p, handle, src, payload, rev, id, now) => PushKeepsInv(h, p, handle, src, payload, rev, id, now);
    case CallLease(p, order, limit, seconds, now) => LeaseKeepsInv(h, p, order, limit, seconds, now);
    case CallAck(p, key, dst, now) => AckKeepsInv(h, p, key, dst, now);
    case CallNack(p, key) => NackKeepsInv(h, p, key);
    case CallObserve(p, t, s, now) => ObserveKeepsInv(h, p, t, s, now);
  }
}
