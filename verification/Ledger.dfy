/** The ledger as the hub keeps it: tables updated in place, one method per transaction. */
module LedgerTables {
  import opened Basics
  import opened HubSpec
  import opened HubInvariant
  import opened HubLeases

  lemma {:induction false} EligibleSplit(h: Hub, a: seq<DKey>, b: seq<DKey>, now: Time)
    ensures Eligible(h, a + b, now) == Eligible(h, a, now) + Eligible(h, b, now)
  {
    if a == [] {
      assert a + b == b;
    } else {
      assert (a + b)[1..] == a[1..] + b;
      EligibleSplit(h, a[1..], b, now);
    }
  }

  lemma GrantOneMore(ds: map<DKey, Delivery>, ks: seq<DKey>, k: DKey, device: DeviceId, expires: Time)
    requires k in ds && k !in ks
    ensures Grant(ds, ks + [k], device, expires)
         == Grant(ds, ks, device, expires)[k := Handout(ds[k], device, expires)]
  {
  }

  /** The entries are those of the eligible rows among the first i, in order. */
  ghost predicate Collected(h: Hub, rows: seq<DKey>, i: int, now: Time, leased: seq<Entry>)
    requires 0 <= i <= |rows|
  {
    var ks := Eligible(h, rows[..i], now);
    |leased| == |ks| && forall j :: 0 <= j < |ks| ==> Leasable(h, ks[j], now) && leased[j] == EntryFor(h, ks[j])
  }

  lemma EligibleOneMore(h: Hub, rows: seq<DKey>, i: nat, now: Time)
    requires i < |rows|
    ensures Eligible(h, rows[..i + 1], now)
         == Eligible(h, rows[..i], now) + (if Leasable(h, rows[i], now) then [rows[i]] else [])
  {
    assert rows[..i + 1] == rows[..i] + [rows[i]];
    EligibleSplit(h, rows[..i], [rows[i]], now);
  }

  lemma CollectOneMore(h: Hub, rows: seq<DKey>, i: nat, now: Time, leased: seq<Entry>, entry: Option<Entry>)
    requires i < |rows| && Collected(h, rows, i, now, leased)
    requires entry.Some? <==> Leasable(h, rows[i], now)
    requires entry.Some? ==> entry.value == EntryFor(h, rows[i])
    ensures Collected(h, rows, i + 1, now, if entry.Some? then leased + [entry.value] else leased)
  {
    EligibleOneMore(h, rows, i, now);
  }

  lemma GrantStep(h: Hub, rows: seq<DKey>, i: nat, now: Time, device: DeviceId, expires: Time, entry: Option<Entry>)
    requires i < |rows| && Distinct(rows) && rows[i] in h.deliveries
    requires entry.Some? <==> Leasable(h, rows[i], now)
    ensures entry.None? ==> Eligible(h, rows[..i + 1], now) == Eligible(h, rows[..i], now)
    ensures entry.Some? ==>
      Grant(h.deliveries, Eligible(h, rows[..i + 1], now), device, expires)
      == Grant(h.deliveries, Eligible(h, rows[..i], now), device, expires)
           [rows[i] := Handout(h.deliveries[rows[i]], device, expires)]
  {
    EligibleOneMore(h, rows, i, now);
    var ks := Eligible(h, rows[..i], now);
    assert rows[i] !in ks;
    if entry.Some? {
      GrantOneMore(h.deliveries, ks, rows[i], device, expires);
    } else {
      assert Eligible(h, rows[..i + 1], now) == ks;
    }
  }

  lemma CollectedAll(h: Hub, p: Principal, rows: seq<DKey>, i: nat, limit: int, seconds: Time, now: Time, leased: seq<Entry>)
    requires p.canReceive && i <= |rows| && Collected(h, rows, i, now, leased)
    requires (i > 0 ==> |leased| <= limit) && (i < |rows| ==> limit <= |leased|)
    ensures Handed(h, rows, limit, now) == Eligible(h, rows[..i], now)
    ensures Lease(h, p, rows, limit, seconds, now)
      == Reply(h.(deliveries := Grant(h.deliveries, Eligible(h, rows[..i], now), p.device, now + seconds)), Ok(leased))
  {
    assert rows == rows[..i] + rows[i..];
    EligibleSplit(h, rows[..i], rows[i..], now);
    assert Handed(h, rows, limit, now) == Eligible(h, rows[..i], now);
    assert leased == Entries(h, Handed(h, rows, limit, now), now);
  }

  class Ledger {
    const roster: Roster
    var transfers: map<Tid, Transfer>
    var pushed: map<PushKey, Tid>
    var deliveries: map<DKey, Delivery>
    var generation: nat

    /** The tables as one value. */
    ghost function H(): Hub
      reads this
    {
      Hub(roster, transfers, pushed, deliveries, generation)
    }

    constructor (roster: Roster)
      ensures H() == EmptyHub(roster)
    {
      this.roster := roster;
      transfers, pushed, deliveries, generation := map[], map[], map[], 0;
    }

    /** Announce committed work to parked readers. */
    method SignalDelivery()
      modifies this`generation
      ensures generation == old(generation) + 1
    {
      generation := generation + 1;
    }

    method InsertOrIgnore(k: DKey, now: Time)
      modifies this`deliveries
      ensures deliveries == Enqueue(old(deliveries), k, now)
    {
      if k !in deliveries {
        deliveries := deliveries[k := Delivery(Queued, 0, now)];
      }
    }

    /** An id no transfer has. */
    method NewId() returns (id: Tid)
      ensures id !in transfers
    {
      id := 0;
      var rows := transfers.Items;
      while rows != {}
        invariant rows <= transfers.Items
        invariant forall t :: t in transfers ==> (t, transfers[t]) in rows || t < id
        decreases |rows|
      {
        var row :| row in rows;
        if row.0 >= id { id := row.0 + 1; }
        rows := rows - {row};
      }
    }

    method PushTransfer(p: Principal, to: string, src: Uuid, payload: Payload, rev: int, id: Tid, now: Time)
      returns (r: Result<PushReply>)
      modifies this
      ensures Reply(H(), r) == Push(old(H()), p, to, src, payload, rev, id, now)
    {
      if !p.canSend { return Err(Forbidden); }
      if src == "" || payload.title == "" { return Err(BadRequest); }
      if Address(p.tenant, to) !in roster.byHandle { return Err(NotFound); }
      var recipient := roster.byHandle[Address(p.tenant, to)];
      if recipient == p.member { return Err(BadRequest); }
      if recipient !in roster.members || !roster.members[recipient].canReceive { return Err(Forbidden); }
      var key := PushKey(p.tenant, p.member, src, rev);
      if key in pushed {
        var t := pushed[key];
        return Ok(PushReply(t, true, if t in transfers then transfers[t].terminal else None));
      }
      transfers := transfers[id := Transfer(p.tenant, p.member, recipient, src, rev, payload, None, None, None, false)];
      pushed := pushed[key := id];
      InsertOrIgnore(DKey(id, Create, recipient), now);
      SignalDelivery();
      r := Ok(PushReply(id, false, None));
    }

    /** The lease query: this member's rows that are not done, oldest first. */
    method SelectRows(m: MemberId) returns (order: seq<DKey>)
      ensures IsListing(H(), m, order)
    {
      var rest := set k | k in deliveries && k.to == m && deliveries[k].progress != Done;
      order := [];
      while rest != {}
        invariant forall k :: k in rest || k in order <==>
          k in deliveries && k.to == m && deliveries[k].progress != Done
        invariant forall k :: k in order ==> k !in rest
        invariant Distinct(order)
        invariant forall i, j :: 0 <= i < j < |order| ==> deliveries[order[i]].createdAt <= deliveries[order[j]].createdAt
        invariant forall k, l :: k in order && l in rest ==> deliveries[k].createdAt <= deliveries[l].createdAt
        decreases |rest|
      {
        var next := Oldest(rest);
        order := order + [next];
        rest := rest - {next};
      }
    }

    method Oldest(ks: set<DKey>) returns (first: DKey)
      requires ks != {} && forall k :: k in ks ==> k in deliveries
      ensures first in ks && forall k :: k in ks ==> deliveries[first].createdAt <= deliveries[k].createdAt
    {
      first :| first in ks;
      var rest := ks - {first};
      while rest != {}
        invariant rest <= ks && first in ks
        invariant forall k :: k in ks ==> k in rest || deliveries[first].createdAt <= deliveries[k].createdAt
        decreases |rest|
      {
        var k :| k in rest;
        if deliveries[k].createdAt < deliveries[first].createdAt { first := k; }
        rest := rest - {k};
      }
    }

    /** Lease one fetched row, unless a live lease holds it or its member's copy does not exist yet. */
    method LeaseRow(p: Principal, k: DKey, d: Delivery, now: Time, expires: Time, ghost h: Hub)
      returns (entry: Option<Entry>)
      requires roster == h.roster && transfers == h.transfers
      requires k in h.deliveries && d == h.deliveries[k] && d.progress != Done
      modifies this`deliveries
      ensures entry.Some? <==> Leasable(h, k, now)
      ensures entry.Some? ==> entry.value == EntryFor(h, k)
      ensures entry.None? ==> deliveries == old(deliveries)
      ensures entry.Some? ==> deliveries == old(deliveries)[k := Handout(d, p.device, expires)]
    {
      if d.progress.Leased? && d.progress.expires >= now { return None; }
      if k.tid !in transfers || transfers[k.tid].from !in roster.members { return None; }
      var tr := transfers[k.tid];
      if k.kind == Create {
        entry := Some(CreateEntry(k, d.attempts + 1, tr.payload, ProvenanceTag(roster.members[tr.from].handle)));
      } else if k.to == tr.from {
        entry := Some(EchoEntry(k, d.attempts + 1, tr.src));
      } else if tr.dst.Some? {
        entry := Some(EchoEntry(k, d.attempts + 1, tr.dst.value));
      } else {
        return None;
      }
      deliveries := deliveries[k := Handout(d, p.device, expires)];
    }

    method LeaseDeliveries(p: Principal, limit: int, seconds: Time, now: Time)
      returns (r: Result<seq<Entry>>, ghost order: seq<DKey>)
      modifies this`deliveries
      ensures p.canReceive ==> IsListing(old(H()), p.member, order)
      ensures Reply(H(), r) == Lease(old(H()), p, order, limit, seconds, now)
    {
      if !p.canReceive { return Err(Forbidden), []; }
      var rows := SelectRows(p.member);
      order := rows;
      var leased, i := LeaseRows(p, rows, limit, now, now + seconds);
      ghost var h := old(H());
      CollectedAll(h, p, rows, i, limit, seconds, now, leased);
      ghost var h' := h.(deliveries := Grant(h.deliveries, Eligible(h, rows[..i], now), p.device, now + seconds));
      assert H() == h';
      r := Ok(leased);
    }

    /** The lease loop: go down the fetched rows, leasing what may be leased, until the limit. */
    method LeaseRows(p: Principal, rows: seq<DKey>, limit: int, now: Time, expires: Time)
      returns (leased: seq<Entry>, i: int)
      requires Distinct(rows) && forall k :: k in rows ==> k in deliveries && deliveries[k].progress != Done
      modifies this`deliveries
      ensures 0 <= i <= |rows| && Collected(old(H()), rows, i, now, leased)
      ensures (i > 0 ==> |leased| <= limit) && (i < |rows| ==> limit <= |leased|)
      ensures deliveries == Grant(old(deliveries), Eligible(old(H()), rows[..i], now), p.device, expires)
    {
      ghost var h := H();
      var fetched := deliveries;
      leased := [];
      i := 0;
      while i < |rows| && |leased| < limit
        invariant 0 <= i <= |rows| && Collected(h, rows, i, now, leased)
        invariant i > 0 ==> |leased| <= limit
        invariant deliveries == Grant(h.deliveries, Eligible(h, rows[..i], now), p.device, expires)
      {
        var entry := LeaseRow(p, rows[i], fetched[rows[i]], now, expires, h);
        GrantStep(h, rows, i, now, p.device, expires, entry);
        CollectOneMore(h, rows, i, now, leased, entry);
        if entry.Some? { leased := leased + [entry.value]; }
        i := i + 1;
      }
    }

    method AckDelivery(p: Principal, k: DKey, dst: Uuid, now: Time) returns (r: Result<AckReply>)
      modifies this
      ensures Reply(H(), r) == Ack(old(H()), p, k, dst, now)
    {
      if k !in deliveries || k.tid !in transfers || k.to != p.member { return Err(NotFound); }
      if deliveries[k].progress == Done { return Ok(AlreadyDone); }
      var tr := transfers[k.tid];
      var queuedEcho := false;
      if k.kind == Create {
        if dst == "" { return Err(BadRequest); }
        transfers := transfers[k.tid := tr.(dst := Some(dst))];
        deliveries := deliveries[k := deliveries[k].(progress := Done)];
        if tr.terminal.Some? {
          InsertOrIgnore(DKey(k.tid, EchoKind(tr.terminal.value), k.to), now);
          queuedEcho := true;
        }
      } else {
        deliveries := deliveries[k := deliveries[k].(progress := Done)];
        transfers := transfers[k.tid := tr.(resolved := true)];
      }
      if queuedEcho { SignalDelivery(); }
      r := Ok(Acked);
    }

    method NackDelivery(p: Principal, k: DKey) returns (r: Result<AckReply>)
      modifies this`deliveries
      ensures Reply(H(), r) == Nack(old(H()), p, k)
    {
      if k !in deliveries || k.to != p.member { return Err(NotFound); }
      if deliveries[k].progress == Done { return Ok(AlreadyDone); }
      deliveries := deliveries[k := deliveries[k].(progress := Queued)];
      r := Ok(Acked);
    }

    method Watchlist(p: Principal) returns (q: seq<Watched>)
      ensures IsWatchlist(H(), p, q)
    {
      q := [];
      var rows := transfers.Items;
      while rows != {}
        invariant forall row :: row in rows ==> row.0 in transfers && transfers[row.0] == row.1
        invariant forall i, j :: 0 <= i < j < |q| ==> q[i].tid != q[j].tid
        invariant forall w :: w in q ==> OnWatch(H(), p, w.tid) && w == WatchEntry(H(), p, w.tid)
        invariant forall w :: w in q ==> (w.tid, transfers[w.tid]) !in rows
        invariant forall t :: OnWatch(H(), p, t) ==> (t, transfers[t]) in rows || WatchEntry(H(), p, t) in q
        decreases |rows|
      {
        var row :| row in rows;
        rows := rows - {row};
        var t, tr := row.0, row.1;
        if tr.tenant == p.tenant && !tr.resolved && tr.terminal.None? && (tr.from == p.member || tr.to == p.member) {
          if tr.from == p.member {
            q := q + [Watched(t, tr.src, Sender, tr.dst.Some?)];
          } else if tr.dst.Some? {
            q := q + [Watched(t, tr.dst.value, Recipient, true)];
          }
        }
      }
    }

    method Observe(p: Principal, t: Tid, s: Terminal, now: Time) returns (r: Result<ObserveReply>)
      modifies this
      ensures Reply(H(), r) == HubSpec.Observe(old(H()), p, t, s, now)
    {
      ghost var h := H();
      ObserveIsDecide(h, p, t, s, now);
      if t !in transfers || transfers[t].tenant != p.tenant
      || !(transfers[t].from == p.member || transfers[t].to == p.member) {
        return Err(NotFound);
      }
      var tr := transfers[t];
      var queuedEcho := false;
      if tr.terminal.Some? {
        if tr.terminal.value == s {
          r := Ok(ObserveReply(s, true));
        } else if tr.terminal.value == Canceled {
          var delivered := exists k :: k in deliveries && k.tid == t && k.kind == Cancel && deliveries[k].progress == Done;
          if delivered {
            r := Ok(ObserveReply(Canceled, true));
          } else {
            transfers := transfers[t := tr.(terminal := Some(Completed), terminalBy := Some(p.member))];
            deliveries := map k | k in deliveries && !(k.tid == t && k.kind == Cancel && deliveries[k].progress != Done)
              :: deliveries[k];
            assert H() == Decided(h, t, Completed, p.member);
            queuedEcho := QueueEcho(t, Completed, now);
            r := Ok(ObserveReply(Completed, false));
          }
        } else {
          r := Ok(ObserveReply(Completed, true));
        }
      } else {
        transfers := transfers[t := tr.(terminal := Some(s), terminalBy := Some(p.member))];
        assert H() == Decided(h, t, s, p.member);
        queuedEcho := QueueEcho(t, s, now);
        r := Ok(ObserveReply(s, false));
      }
      if queuedEcho { SignalDelivery(); }
    }

    /** Queues the echo; true when a leasable row was queued and the caller must signal. */
    method QueueEcho(t: Tid, s: Terminal, now: Time) returns (queued: bool)
      requires t in transfers
      modifies this`transfers, this`deliveries
      ensures H().(generation := old(generation) + if queued then 1 else 0) == HubSpec.QueueEcho(old(H()), t, s, now)
    {
      var tr := transfers[t];
      var other := if tr.terminalBy == Some(tr.from) then tr.to else tr.from;
      if other == tr.to && tr.dst.None? {
        var create := DKey(t, Create, tr.to);
        if create in deliveries && deliveries[create].progress == Queued {
          deliveries := deliveries[create := deliveries[create].(progress := Done)];
          transfers := transfers[t := tr.(resolved := true)];
          return false;
        }
        if create in deliveries && deliveries[create].progress.Leased? {
          return false;
        }
      }
      InsertOrIgnore(DKey(t, EchoKind(s), other), now);
      queued := true;
    }
  }
}
