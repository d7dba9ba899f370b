/** How the ledger moves: facts relating one state to a later one, over any run of calls. */
module HubHistory {
  import opened Basics
  import opened HubSpec
  import opened HubInvariant

  /** none < canceled < completed. */
  function Rank(s: Option<Terminal>): nat {
    match s
    case None => 0
    case Some(Canceled) => 1
    case Some(Completed) => 2
  }

  predicate EchoDelivered(h: Hub, t: Tid) {
    exists k :: k in h.deliveries && k.tid == t && k.kind != Create && h.deliveries[k].progress == Done
  }

  ghost predicate TransferGrows(a: Transfer, b: Transfer) {
    && b.tenant == a.tenant && b.from == a.from && b.to == a.to
    && b.src == a.src && b.rev == a.rev && b.payload == a.payload
    && (a.dst.Some? ==> b.dst == a.dst)
    && Rank(a.terminal) <= Rank(b.terminal)
    && (a.resolved ==> b.resolved)
  }

  ghost predicate TransfersGrow(h: Hub, h': Hub) {
    && h'.roster == h.roster
    && h.generation <= h'.generation
    && (forall k :: k in h.pushed ==> k in h'.pushed && h'.pushed[k] == h.pushed[k])
    && (forall t :: t in h.transfers ==> t in h'.transfers && TransferGrows(h.transfers[t], h'.transfers[t]))
  }

  /** Rows stay, done rows stay done; only a pending cancel of a completed transfer is deleted. */
  ghost predicate DeliveriesGrow(h: Hub, h': Hub) {
    forall k :: k in h.deliveries ==>
      if k in h'.deliveries then h.deliveries[k].progress == Done ==> h'.deliveries[k].progress == Done
      else
        && k.kind == Cancel && h.deliveries[k].progress != Done
        && k.tid in h'.transfers && h'.transfers[k.tid].terminal == Some(Completed)
  }

  /** Once any echo is delivered the terminal state is frozen. */
  ghost predicate TerminalFrozen(h: Hub, h': Hub) {
    forall t :: t in h.transfers && EchoDelivered(h, t) ==>
      && t in h'.transfers
      && h'.transfers[t].terminal == h.transfers[t].terminal
      && h'.transfers[t].terminalBy == h.transfers[t].terminalBy
  }

  /** Transfers, mappings, terminal states and finished deliveries are never taken back. */
  ghost predicate Grows(h: Hub, h': Hub) {
    TransfersGrow(h, h') && DeliveriesGrow(h, h') && TerminalFrozen(h, h')
  }

  lemma SameTerminals(h: Hub, h': Hub)
    requires TransfersGrow(h, h')
    requires forall t :: t in h.transfers ==>
      h'.transfers[t].terminal == h.transfers[t].terminal && h'.transfers[t].terminalBy == h.transfers[t].terminalBy
    ensures TerminalFrozen(h, h')
  {
  }

  lemma PushGrows(h: Hub, p: Principal, to: string, src: Uuid, payload: Payload, rev: int, id: Tid, now: Time)
    requires id !in h.transfers
    ensures Grows(h, Push(h, p, to, src, payload, rev, id, now).hub)
  {
    var h' := Push(h, p, to, src, payload, rev, id, now).hub;
    assert TransfersGrow(h, h');
    SameTerminals(h, h');
  }

  lemma LeaseGrows(h: Hub, p: Principal, order: seq<DKey>, limit: int, seconds: Time, now: Time)
    requires IsListing(h, p.member, order)
    ensures Grows(h, Lease(h, p, order, limit, seconds, now).hub)
  {
    var h' := Lease(h, p, order, limit, seconds, now).hub;
    SameTerminals(h, h');
    var ks := Handed(h, order, limit, now);
    forall k | k in ks ensures h.deliveries[k].progress != Done {
      assert k in Eligible(h, order, now);
    }
  }

  lemma AckGrows(h: Hub, p: Principal, key: DKey, dst: Uuid, now: Time)
    requires key in h.deliveries ==> DeliveryOk(h, key) && TransferOk(h, key.tid)
    ensures Grows(h, Ack(h, p, key, dst, now).hub)
  {
    var h' := Ack(h, p, key, dst, now).hub;
    assert TransfersGrow(h, h');
    SameTerminals(h, h');
  }

  lemma NackGrows(h: Hub, p: Principal, key: DKey)
    ensures Grows(h, Nack(h, p, key).hub)
  {
    SameTerminals(h, Nack(h, p, key).hub);
  }

  lemma UndecidedEcho(h: Hub, t: Tid, s: Terminal)
    requires t in h.transfers && Decides(h, t, s) && (forall k :: k in h.deliveries ==> DeliveryOk(h, k))
    ensures !EchoDelivered(h, t)
  {
  }

  lemma DecidedKeepsRows(h: Hub, t: Tid, s: Terminal, reporter: MemberId)
    requires t in h.transfers && Decides(h, t, s)
    ensures TransfersGrow(h, Decided(h, t, s, reporter)) && DeliveriesGrow(h, Decided(h, t, s, reporter))
  {
  }

  lemma DecidedGrows(h: Hub, t: Tid, s: Terminal, reporter: MemberId)
    requires HubInv(h) && t in h.transfers && Decides(h, t, s)
    ensures Grows(h, Decided(h, t, s, reporter))
  {
    DecidedKeepsRows(h, t, s, reporter);
    UndecidedEcho(h, t, s);
  }

  lemma QueueEchoGrows(h: Hub, t: Tid, s: Terminal, now: Time)
    requires t in h.transfers
    ensures Grows(h, QueueEcho(h, t, s, now))
  {
  }

  lemma FrozenTransitive(a: Hub, b: Hub, c: Hub)
    requires DeliveriesGrow(a, b) && TerminalFrozen(a, b) && TerminalFrozen(b, c)
    ensures TerminalFrozen(a, c)
  {
  }

  lemma DeliveriesTransitive(a: Hub, b: Hub, c: Hub)
    requires TransfersGrow(b, c) && DeliveriesGrow(a, b) && DeliveriesGrow(b, c) && HubInv(c)
    ensures DeliveriesGrow(a, c)
  {
    forall k | k in c.deliveries ensures DeliveryOk(c, k) {
    }
  }

  lemma GrowsTransitive(a: Hub, b: Hub, c: Hub)
    requires Grows(a, b) && Grows(b, c) && HubInv(c)
    ensures Grows(a, c)
  {
    assert TransfersGrow(a, c);
    DeliveriesTransitive(a, b, c);
    FrozenTransitive(a, b, c);
  }

  lemma ObserveGrows(h: Hub, p: Principal, t: Tid, s: Terminal, now: Time)
    requires HubInv(h)
    ensures Grows(h, Observe(h, p, t, s, now).hub)
  {
    ObserveKeepsInv(h, p, t, s, now);
    ObserveIsDecide(h, p, t, s, now);
    if Party(h, p, t) && Decides(h, t, s) {
      var h1 := Decided(h, t, s, p.member);
      DecidedGrows(h, t, s, p.member);
      QueueEchoGrows(h1, t, s, now);
      GrowsTransitive(h, h1, QueueEcho(h1, t, s, now));
    }
  }

  lemma DoGrows(h: Hub, c: Call)
    requires HubInv(h) && Legal(h, c)
    ensures Grows(h, Do(h, c)) && HubInv(Do(h, c))
  {
    DoKeepsInv(h, c);
    match c
    case CallPush(p, handle, src, payload, rev, id, now) => PushGrows(h, p, handle, src, payload, rev, id, now);
    case CallLease(p, order, limit, seconds, now) => LeaseGrows(h, p, order, limit, seconds, now);
    case CallAck(p, key, dst, now) => AckGrows(h, p, key, dst, now);
    case CallNack(p, key) => NackGrows(h, p, key);
    case CallObserve(p, t, s, now) => ObserveGrows(h, p, t, s, now);
  }

  // ----- runs -----

  /** A run: calls by anyone, in any order, and the states between them. */
  ghost predicate Run(states: seq<Hub>, calls: seq<Call>) {
    && |states| == |calls| + 1
    && HubInv(states[0])
    && forall i :: 0 <= i < |calls| ==> Legal(states[i], calls[i]) && states[i + 1] == Do(states[i], calls[i])
  }

  lemma {:induction false} RunInv(states: seq<Hub>, calls: seq<Call>, i: nat)
    requires Run(states, calls) && i < |states|
    ensures HubInv(states[i])
  {
    if i > 0 {
      RunInv(states, calls, i - 1);
      DoKeepsInv(states[i - 1], calls[i - 1]);
    }
  }

  lemma RunStep(states: seq<Hub>, calls: seq<Call>, i: nat)
    requires Run(states, calls) && i < |calls|
    ensures HubInv(states[i]) && Legal(states[i], calls[i]) && states[i + 1] == Do(states[i], calls[i])
  {
    RunInv(states, calls, i);
  }

  lemma {:induction false} RunGrows(states: seq<Hub>, calls: seq<Call>, i: nat, j: nat)
    requires Run(states, calls) && i <= j < |states|
    ensures Grows(states[i], states[j])
    decreases j - i
  {
    if i < j {
      RunGrows(states, calls, i, j - 1);
      RunInv(states, calls, j - 1);
      DoGrows(states[j - 1], calls[j - 1]);
      GrowsTransitive(states[i], states[j - 1], states[j]);
    }
  }

  /** A deleted row never comes back under its key, so a key names at most one row in a run. */
  lemma KeyNotReused(states: seq<Hub>, calls: seq<Call>, k: DKey, i: nat, j: nat, l: nat)
    requires Run(states, calls) && i <= j <= l < |states|
    requires k in states[i].deliveries && k !in states[j].deliveries
    ensures k !in states[l].deliveries
  {
    RunGrows(states, calls, i, j);
    RunGrows(states, calls, j, l);
    RunInv(states, calls, l);
  }
}
