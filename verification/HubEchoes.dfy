/** Echo accounting: where the other party's echo is, for every transfer with a terminal state. */
module HubEchoes {
  import opened Basics
  import opened HubSpec
  import opened HubInvariant
  import opened HubHistory

  ghost predicate NoEcho(h: Hub, t: Tid) {
    forall k :: k in h.deliveries && k.tid == t ==> k.kind == Create
  }

  /** The echo of the current terminal state to the party that did not report it. */
  function TheEcho(h: Hub, t: Tid): DKey
    requires t in h.transfers && h.transfers[t].terminal.Some?
  {
    DKey(t, EchoKind(h.transfers[t].terminal.value), Other(h.transfers[t]))
  }

  /** The sender revoked while the create is still on its way; its ack will queue the echo. */
  ghost predicate AwaitsCreate(h: Hub, t: Tid)
    requires t in h.transfers
  {
    && !CreateDone(h, t) && h.transfers[t].dst.None? && NoEcho(h, t) && !h.transfers[t].resolved
    && h.transfers[t].terminalBy == Some(h.transfers[t].from)
  }

  /** Both copies exist, there is exactly one echo, and it alone resolves the transfer. */
  ghost predicate Echoes(h: Hub, t: Tid)
    requires t in h.transfers && h.transfers[t].terminal.Some?
  {
    var e := TheEcho(h, t);
    && h.transfers[t].dst.Some?
    && e in h.deliveries
    && (forall k :: k in h.deliveries && k.tid == t && k.kind != Create ==> k == e)
    && (h.transfers[t].resolved <==> h.deliveries[e].progress == Done)
  }

  /** The create was suppressed: resolved, and nobody is told anything. */
  ghost predicate Suppressed(h: Hub, t: Tid)
    requires t in h.transfers
  {
    Skipped(h, t) && NoEcho(h, t) && h.transfers[t].resolved
  }

  ghost predicate Accounted(h: Hub, t: Tid)
    requires t in h.transfers
  {
    if h.transfers[t].terminal.None? then NoEcho(h, t) && !h.transfers[t].resolved
    else AwaitsCreate(h, t) || Echoes(h, t) || Suppressed(h, t)
  }

  ghost predicate AllAccounted(h: Hub) {
    forall t :: t in h.transfers ==> Accounted(h, t)
  }

  /** The three states of a terminal transfer exclude each other. */
  lemma OneStateEach(h: Hub, t: Tid)
    requires t in h.transfers && h.transfers[t].terminal.Some? && TransferOk(h, t)
    ensures !(AwaitsCreate(h, t) && Echoes(h, t))
    ensures !(AwaitsCreate(h, t) && Suppressed(h, t))
    ensures !(Echoes(h, t) && Suppressed(h, t))
  {
  }

  /**
   * What an observation must satisfy: it changes nothing, or it does not revive a suppressed
   * create and, when it is the recipient's, the recipient's copy is known.
   */
  predicate Disciplined(h: Hub, p: Principal, t: Tid, s: Terminal) {
    Party(h, p, t) && Decides(h, t, s) ==>
      !Skipped(h, t) && (p.member == h.transfers[t].to ==> h.transfers[t].dst.Some?)
  }

  lemma PushAccounts(h: Hub, p: Principal, to: string, src: Uuid, payload: Payload, rev: int, id: Tid, now: Time)
    requires HubInv(h) && AllAccounted(h) && id !in h.transfers
    ensures AllAccounted(Push(h, p, to, src, payload, rev, id, now).hub)
  {
    var h' := Push(h, p, to, src, payload, rev, id, now).hub;
    forall t | t in h'.transfers ensures Accounted(h', t) {
      if t == id && h' != h {
        forall k | k in h.deliveries ensures k.tid != t { assert DeliveryOk(h, k); }
      } else {
        assert Accounted(h, t);
        assert NoEcho(h, t) ==> NoEcho(h', t);
      }
    }
  }

  lemma LeaseAccounts(h: Hub, p: Principal, order: seq<DKey>, limit: int, seconds: Time, now: Time)
    requires AllAccounted(h) && IsListing(h, p.member, order)
    ensures AllAccounted(Lease(h, p, order, limit, seconds, now).hub)
  {
    var h' := Lease(h, p, order, limit, seconds, now).hub;
    var ks := Handed(h, order, limit, now);
    forall k | k in ks ensures h.deliveries[k].progress != Done {
      assert k in Eligible(h, order, now);
    }
    forall t | t in h'.transfers ensures Accounted(h', t) {
      assert Accounted(h, t);
      assert NoEcho(h', t) == NoEcho(h, t);
    }
  }

  lemma NackAccounts(h: Hub, p: Principal, key: DKey)
    requires AllAccounted(h)
    ensures AllAccounted(Nack(h, p, key).hub)
  {
  }

  lemma AckedAccounted(h: Hub, p: Principal, key: DKey, dst: Uuid, now: Time)
    requires key in h.deliveries && DeliveryOk(h, key) && TransferOk(h, key.tid) && Accounted(h, key.tid)
    ensures Accounted(Ack(h, p, key, dst, now).hub, key.tid)
  {
  }

  lemma AckAccounts(h: Hub, p: Principal, key: DKey, dst: Uuid, now: Time)
    requires HubInv(h) && AllAccounted(h)
    ensures AllAccounted(Ack(h, p, key, dst, now).hub)
  {
    var h' := Ack(h, p, key, dst, now).hub;
    if h' != h {
      assert DeliveryOk(h, key) && TransferOk(h, key.tid) && Accounted(h, key.tid);
      AckedAccounted(h, p, key, dst, now);
      forall t | t in h'.transfers ensures Accounted(h', t) {
        if t != key.tid {
          assert SameFor(h, h', t);
          SameAccounted(h, h', t);
        }
      }
    }
  }

  lemma FirstReportAccounts(h: Hub, t: Tid, s: Terminal, reporter: MemberId, now: Time)
    requires t in h.transfers && TransferOk(h, t) && Accounted(h, t) && h.transfers[t].terminal.None?
    requires reporter == h.transfers[t].from || (reporter == h.transfers[t].to && h.transfers[t].dst.Some?)
    ensures Accounted(QueueEcho(SetTerminal(h, t, s, reporter), t, s, now), t)
  {
  }

  lemma UpgradeAccounts(h: Hub, t: Tid, reporter: MemberId, now: Time)
    requires t in h.transfers && TransferOk(h, t) && Accounted(h, t) && Decides(h, t, Completed)
    requires h.transfers[t].terminal.Some? && !Skipped(h, t)
    requires reporter == h.transfers[t].from || (reporter == h.transfers[t].to && h.transfers[t].dst.Some?)
    ensures Accounted(QueueEcho(Decided(h, t, Completed, reporter), t, Completed, now), t)
  {
    var h1 := Decided(h, t, Completed, reporter);
    var h' := QueueEcho(h1, t, Completed, now);
    assert CreateKey(h1, t) == CreateKey(h, t) == CreateKey(h', t);
    assert NoEcho(h1, t) by {
      forall k | k in h.deliveries && k.tid == t && k.kind != Create ensures k !in h1.deliveries {
        assert k == TheEcho(h, t);
        assert h.deliveries[k].progress != Done;
      }
    }
    assert !h1.transfers[t].resolved;
  }

  /** Nothing about transfer u differs between the two states. */
  ghost predicate SameFor(h: Hub, h': Hub, u: Tid)
    requires u in h.transfers
  {
    && u in h'.transfers && h'.transfers[u] == h.transfers[u]
    && (forall k :: k in h'.deliveries && k.tid == u ==> k in h.deliveries)
    && (forall k :: k in h.deliveries && k.tid == u ==> k in h'.deliveries && h'.deliveries[k] == h.deliveries[k])
  }

  lemma SameAccounted(h: Hub, h': Hub, u: Tid)
    requires u in h.transfers && SameFor(h, h', u) && Accounted(h, u)
    ensures Accounted(h', u)
  {
  }

  lemma OthersSame(h: Hub, t: Tid, s: Terminal, reporter: MemberId, now: Time, u: Tid)
    requires t in h.transfers && u in h.transfers && u != t
    ensures SameFor(h, QueueEcho(Decided(h, t, s, reporter), t, s, now), u)
  {
  }

  /** The one direction: an observation that keeps the discipline keeps the accounting. */
  lemma DisciplineAccounts(h: Hub, p: Principal, t: Tid, s: Terminal, now: Time)
    requires HubInv(h) && AllAccounted(h) && Disciplined(h, p, t, s)
    ensures AllAccounted(Observe(h, p, t, s, now).hub)
  {
    var h' := Observe(h, p, t, s, now).hub;
    ObserveIsDecide(h, p, t, s, now);
    if Party(h, p, t) && Decides(h, t, s) {
      assert TransferOk(h, t) && Accounted(h, t);
      if h.transfers[t].terminal.None? {
        FirstReportAccounts(h, t, s, p.member, now);
      } else {
        UpgradeAccounts(h, t, p.member, now);
      }
      forall u | u in h'.transfers ensures Accounted(h', u) {
        if u != t {
          OthersSame(h, t, s, p.member, now, u);
          SameAccounted(h, h', u);
        }
      }
    }
  }

  /** The other direction: without the discipline the observed transfer falls out of account. */
  lemma IndisciplineBreaks(h: Hub, p: Principal, t: Tid, s: Terminal, now: Time)
    requires HubInv(h) && AllAccounted(h) && !Disciplined(h, p, t, s)
    ensures !AllAccounted(Observe(h, p, t, s, now).hub)
  {
    var h' := Observe(h, p, t, s, now).hub;
    ObserveIsDecide(h, p, t, s, now);
    assert TransferOk(h, t) && Accounted(h, t);
    assert !Accounted(h', t);
  }

  /** Echo accounting survives an observation exactly when the observation is disciplined. */
  lemma ObserveAccounting(h: Hub, p: Principal, t: Tid, s: Terminal, now: Time)
    requires HubInv(h) && AllAccounted(h)
    ensures AllAccounted(Observe(h, p, t, s, now).hub) <==> Disciplined(h, p, t, s)
  {
    if Disciplined(h, p, t, s) {
      DisciplineAccounts(h, p, t, s, now);
    } else {
      IndisciplineBreaks(h, p, t, s, now);
    }
  }

  ghost predicate DisciplinedCall(h: Hub, c: Call) {
    c.CallObserve? ==> Disciplined(h, c.p, c.t, c.s)
  }

  lemma DoAccounts(h: Hub, c: Call)
    requires HubInv(h) && Legal(h, c) && AllAccounted(h)
    ensures AllAccounted(Do(h, c)) <==> DisciplinedCall(h, c)
  {
    match c
    case CallPush(p, handle, src, payload, rev, id, now) => PushAccounts(h, p, handle, src, payload, rev, id, now);
    case CallLease(p, order, limit, seconds, now) => LeaseAccounts(h, p, order, limit, seconds, now);
    case CallAck(p, key, dst, now) => AckAccounts(h, p, key, dst, now);
    case CallNack(p, key) => NackAccounts(h, p, key);
    case CallObserve(p, t, s, now) => ObserveAccounting(h, p, t, s, now);
  }

  /** Along a run that starts empty, the accounting holds throughout iff every observation was disciplined. */
  lemma {:induction false} RunAccounting(states: seq<Hub>, calls: seq<Call>)
    requires Run(states, calls) && AllAccounted(states[0])
    ensures (forall i :: 0 <= i < |states| ==> AllAccounted(states[i]))
       <==> (forall i :: 0 <= i < |calls| ==> DisciplinedCall(states[i], calls[i]))
  {
    if forall i :: 0 <= i < |calls| ==> DisciplinedCall(states[i], calls[i]) {
      for n := 0 to |calls|
        invariant forall i :: 0 <= i <= n ==> AllAccounted(states[i])
      {
        RunInv(states, calls, n);
        DoAccounts(states[n], calls[n]);
      }
    }
    if forall i :: 0 <= i < |states| ==> AllAccounted(states[i]) {
      forall i | 0 <= i < |calls| ensures DisciplinedCall(states[i], calls[i]) {
        RunInv(states, calls, i);
        DoAccounts(states[i], calls[i]);
        assert AllAccounted(states[i + 1]);
      }
    }
  }
}
