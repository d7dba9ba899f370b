/** What each call is answered, and what a watchlist says, stated over the rows alone. */
module HubAnswers {
  import opened Basics
  import opened HubSpec
  import opened HubInvariant
  import opened HubHistory
  import opened HubLeases
  import opened HubLaws
  import opened LeaseLaws

  // ----- pushes -----

  /** The member of the tenant under this handle, someone else than the sender. */
  predicate Addressee(h: Hub, p: Principal, handle: string, m: MemberId) {
    Named(h, p.tenant, handle, m) && m != p.member
  }

  /**
   * A push is taken exactly when its sender may send, it has a source and a title, and somebody else
   * in the tenant bears the handle and may receive; and who may not, and whom nobody knows, is told so.
   */
  lemma PushIsTaken(h: Hub, p: Principal, handle: string, src: Uuid, payload: Payload, rev: int, id: Tid, now: Time)
    requires HubInv(h) && Authentic(h, p)
    ensures var r, well := Push(h, p, handle, src, payload, rev, id, now).result, src != "" && payload.title != "";
      && (r.Ok? <==> p.canSend && well && exists m :: Addressee(h, p, handle, m) && h.roster.members[m].canReceive)
      && (r == Err(NotFound) <==> p.canSend && well && forall m :: !Named(h, p.tenant, handle, m))
      && (r == Err(Forbidden) <==>
            !p.canSend || (well && exists m :: Addressee(h, p, handle, m) && !h.roster.members[m].canReceive))
  {
    if Address(p.tenant, handle) in h.roster.byHandle {
      var m := h.roster.byHandle[Address(p.tenant, handle)];
      assert Named(h, p.tenant, handle, m);
      OnlyNamed(h, p.tenant, handle);
    } else {
      NobodyNamed(h, p.tenant, handle);
    }
  }

  lemma OnlyNamed(h: Hub, tenant: TenantId, handle: string)
    requires RosterOk(h.roster) && Address(tenant, handle) in h.roster.byHandle
    ensures forall m :: Named(h, tenant, handle, m) ==> m == h.roster.byHandle[Address(tenant, handle)]
  {
    forall m | Named(h, tenant, handle, m) ensures m == h.roster.byHandle[Address(tenant, handle)] {
      assert Indexed(h.roster, m);
    }
  }

  lemma NobodyNamed(h: Hub, tenant: TenantId, handle: string)
    requires RosterOk(h.roster) && Address(tenant, handle) !in h.roster.byHandle
    ensures forall m :: !Named(h, tenant, handle, m)
  {
    forall m ensures !Named(h, tenant, handle, m) {
      if m in h.roster.members { assert Indexed(h.roster, m); }
    }
  }

  /** A push taken is answered with the transfer of its natural key and its terminal state; only a new one changes the ledger. */
  lemma PushIsAnswered(h: Hub, p: Principal, handle: string, src: Uuid, payload: Payload, rev: int, id: Tid, now: Time)
    requires HubInv(h) && Legal(h, CallPush(p, handle, src, payload, rev, id, now))
    ensures var r, c := Push(h, p, handle, src, payload, rev, id, now), CallPush(p, handle, src, payload, rev, id, now);
      match r.result
      case Err(_) => r.hub == h
      case Ok(a) =>
        && a.id in r.hub.transfers && SameNaturalKey(r.hub.transfers[a.id], c) && a.terminal == r.hub.transfers[a.id].terminal
        && (if exists u :: u in h.transfers && SameNaturalKey(h.transfers[u], c)
            then a.deduped && r.hub == h
            else !a.deduped && a.id !in h.transfers)
  {
    var c := CallPush(p, handle, src, payload, rev, id, now);
    if u :| u in h.transfers && SameNaturalKey(h.transfers[u], c) {
      assert KeyOf(h.transfers[u]) == PushKey(p.tenant, p.member, src, rev);
    }
    if PushKey(p.tenant, p.member, src, rev) in h.pushed { KnownKey(h, c); }
  }

  lemma KnownKey(h: Hub, c: Call)
    requires PushIndexOk(h) && c.CallPush? && PushKey(c.p.tenant, c.p.member, c.src, c.rev) in h.pushed
    ensures exists u :: u in h.transfers && SameNaturalKey(h.transfers[u], c)
  {
    var u := h.pushed[PushKey(c.p.tenant, c.p.member, c.src, c.rev)];
    assert u in h.transfers && SameNaturalKey(h.transfers[u], c);
  }

  // ----- acks, nacks and observations -----

  predicate UnfinishedRow(h: Hub, k: DKey) {
    k in h.deliveries && h.deliveries[k].progress != Done
  }

  /** An ack is answered Acked exactly when it finishes the row; whatever else it is answered, nothing changes. */
  lemma AckIsAnswered(h: Hub, p: Principal, k: DKey, dst: Uuid, now: Time)
    requires HubInv(h)
    ensures var r := Ack(h, p, k, dst, now);
      && (r.result == Ok(Acked) <==> UnfinishedRow(h, k) && !UnfinishedRow(r.hub, k))
      && (r.result == Err(NotFound) <==> k !in h.deliveries || k.to != p.member)
      && (r.result == Err(BadRequest) <==> UnfinishedRow(h, k) && k.to == p.member && k.kind == Create && dst == "")
      && (r.result != Ok(Acked) ==> r.hub == h)
  {
    if k in h.deliveries { assert DeliveryOk(h, k); }
  }

  /** A nack is answered Acked exactly when the row is the caller's and unfinished. */
  lemma NackIsAnswered(h: Hub, p: Principal, k: DKey)
    ensures var r := Nack(h, p, k);
      && (r.result == Ok(Acked) <==> UnfinishedRow(h, k) && k.to == p.member)
      && (r.result == Ok(AlreadyDone) <==> k in h.deliveries && !UnfinishedRow(h, k) && k.to == p.member)
      && (r.result != Ok(Acked) ==> r.hub == h)
  {
  }

  /** A party is answered with the state the transfer now has, and whether it had it before; nobody else learns anything. */
  lemma ObserveIsAnswered(h: Hub, p: Principal, t: Tid, s: Terminal, now: Time)
    ensures var r := Observe(h, p, t, s, now);
      match r.result
      case Err(e) => e == NotFound && r.hub == h && (t in h.transfers ==> !IsParty(h.transfers[t], p))
      case Ok(a) =>
        && t in h.transfers && IsParty(h.transfers[t], p) && t in r.hub.transfers
        && r.hub.transfers[t].terminal == Some(a.terminal)
        && (a.alreadySet <==> r.hub.transfers[t].terminal == h.transfers[t].terminal)
        && (a.alreadySet ==> r.hub == h)
  {
    ObserveIsDecide(h, p, t, s, now);
  }

  // ----- the watchlist -----

  /**
   * A member's watchlist: each transfer of theirs that nobody has reported, once, if their own copy
   * exists. The sender's copy always does; the recipient's once it is applied.
   */
  lemma WatchlistIs(h: Hub, p: Principal, q: seq<Watched>)
    requires HubInv(h) && IsWatchlist(h, p, q)
    ensures forall t :: t in h.transfers && h.transfers[t].tenant == p.tenant && h.transfers[t].terminal.None? ==>
      var tr := h.transfers[t];
      && (tr.from == p.member ==> Watched(t, tr.src, Sender, tr.dst.Some?) in q)
      && (tr.to == p.member && tr.dst.Some? ==> Watched(t, tr.dst.value, Recipient, true) in q)
    ensures forall w :: w in q ==>
      && w.tid in h.transfers && h.transfers[w.tid].tenant == p.tenant && h.transfers[w.tid].terminal.None?
      && var tr := h.transfers[w.tid];
         if tr.from == p.member then w == Watched(w.tid, tr.src, Sender, tr.dst.Some?)
         else tr.to == p.member && tr.dst.Some? && w == Watched(w.tid, tr.dst.value, Recipient, true)
    ensures forall i, j :: 0 <= i < j < |q| ==> q[i].tid != q[j].tid
  {
    forall t | t in h.transfers && h.transfers[t].tenant == p.tenant && h.transfers[t].terminal.None?
      ensures var tr := h.transfers[t];
        && (tr.from == p.member ==> Watched(t, tr.src, Sender, tr.dst.Some?) in q)
        && (tr.to == p.member && tr.dst.Some? ==> Watched(t, tr.dst.value, Recipient, true) in q)
    {
      assert TransferOk(h, t);
      if OnWatch(h, p, t) { assert WatchEntry(h, p, t) in q; }
    }
  }

  /**
   * So a sender who has ended the todo before the recipient polls finds it on the watchlist, and the
   * report suppresses the create: done, resolved, never mapped, and nobody is told.
   */
  lemma WatchedRevokeSuppresses(h: Hub, p: Principal, q: seq<Watched>, w: Watched, s: Terminal, now: Time)
    requires HubInv(h) && Authentic(h, p) && IsWatchlist(h, p, q) && w in q && w.role == Sender && !w.applied
    requires w.tid in h.transfers ==>
      var create := DKey(w.tid, Create, h.transfers[w.tid].to); create in h.deliveries && h.deliveries[create].progress == Queued
    ensures var h' := Observe(h, p, w.tid, s, now).hub;
      && w.tid in h'.transfers
      && var tr := h'.transfers[w.tid];
         && tr.resolved && tr.dst.None? && tr.terminal == Some(s) && tr.terminalBy == Some(p.member)
         && !UnfinishedRow(h', DKey(w.tid, Create, tr.to)) && DKey(w.tid, Create, tr.to) in h'.deliveries
         && (forall k :: k in h'.deliveries && k.tid == w.tid ==> k.kind == Create)
  {
    var c := CallObserve(p, w.tid, s, now);
    var h' := Do(h, c);
    WatchlistIs(h, p, q);
    assert TransferOk(h, w.tid);
    DecidedByReporter(h, c, h', w.tid);
    OtherPartyIsTold(h, c, h', w.tid, h.transfers[w.tid].to);
    RunGrows([h, h'], [c], 0, 1);
    MappedByAck(h, c, h', w.tid);
  }

  /** A revoke in time: the sender's report reaches the hub while the create is queued and not applied. */
  predicate RevokedInTime(h: Hub, c: Call, h': Hub, t: Tid) {
    && TerminalMoved(h, h', t) && c.p.member == h.transfers[t].from && h.transfers[t].dst.None?
    && DKey(t, Create, h.transfers[t].to) in h.deliveries
    && h.deliveries[DKey(t, Create, h.transfers[t].to)].progress == Queued
  }

  /** Over every run: after a revoke in time the recipient is never handed anything of the transfer, nor does it ever get a copy. */
  lemma RevokedNeverArrives(states: seq<Hub>, calls: seq<Call>, n: nat, j: nat, t: Tid, k: DKey)
    requires Run(states, calls) && n < j < |calls| && RevokedInTime(states[n], calls[n], states[n + 1], t)
    requires k.tid == t && k.to == states[n].transfers[t].to
    ensures t in states[j].transfers && states[j].transfers[t].dst.None?
    ensures !Taken(states[j], states[j + 1], k)
  {
    SuppressedByRevoke(states, calls, n, t);
    SkipIsForever(states, calls, t, n + 1, j);
    RecipientIs(states, calls, n, j, t);
    RunCalls(states, calls, j);
    if Taken(states[j], states[j + 1], k) { TakenIsLeasable(states[j], calls[j], states[j + 1], k); }
  }

  lemma SuppressedByRevoke(states: seq<Hub>, calls: seq<Call>, n: nat, t: Tid)
    requires Run(states, calls) && n < |calls| && RevokedInTime(states[n], calls[n], states[n + 1], t)
    ensures Skipped(states[n + 1], t)
  {
    RunCalls(states, calls, n);
    RunGrows(states, calls, n, n + 1);
    DecidedByReporter(states[n], calls[n], states[n + 1], t);
    assert TransferOk(states[n], t);
    OtherPartyIsTold(states[n], calls[n], states[n + 1], t, states[n].transfers[t].to);
    MappedByAck(states[n], calls[n], states[n + 1], t);
  }

  lemma RecipientIs(states: seq<Hub>, calls: seq<Call>, i: nat, j: nat, t: Tid)
    requires Run(states, calls) && i <= j < |states| && t in states[i].transfers
    ensures t in states[j].transfers && states[j].transfers[t].to == states[i].transfers[t].to
  {
    RunGrows(states, calls, i, j);
  }

  lemma TakenIsLeasable(h: Hub, c: Call, h': Hub, k: DKey)
    requires Called(h, c, h') && Taken(h, h', k)
    ensures c.CallLease? && Leasable(h, k, c.now)
  {
    TakenByLease(h, c, h', k);
    assert DeliveryOk(h, k) && TransferOk(h, k.tid);
    WaitsIsLeasable(h, c.p.member, k, c.now);
  }
}
