/** Pushes are conserved, observations are confluent, and every new row is signalled. */
module HubFlow {
  import opened Basics
  import opened HubSpec
  import opened HubInvariant
  import opened HubHistory

  // ----- pushes -----

  /** The call is a push that succeeds, under this natural key. */
  predicate Sends(h: Hub, c: Call, key: PushKey) {
    && c.CallPush?
    && key == PushKey(c.p.tenant, c.p.member, c.src, c.rev)
    && Push(h, c.p, c.handle, c.src, c.payload, c.rev, c.id, c.now).result.Ok?
  }

  lemma PushedStep(h: Hub, c: Call, key: PushKey)
    requires PushIndexOk(h)
    ensures key in Do(h, c).pushed <==> key in h.pushed || Sends(h, c, key)
    ensures Sends(h, c, key) ==>
      Push(h, c.p, c.handle, c.src, c.payload, c.rev, c.id, c.now).result.value.id == Do(h, c).pushed[key]
  {
    if c.CallObserve? { ObserveIsDecide(h, c.p, c.t, c.s, c.now); }
  }

  /** From an empty ledger, the transfers are in bijection with the natural keys pushed successfully. */
  lemma {:induction false} PushesAreTransfers(states: seq<Hub>, calls: seq<Call>, n: nat)
    requires Run(states, calls) && states[0].pushed == map[] && n < |states|
    ensures forall key :: key in states[n].pushed <==> exists i :: 0 <= i < n && Sends(states[i], calls[i], key)
    ensures PushIndexOk(states[n])
  {
    RunInv(states, calls, n);
    if n > 0 {
      PushesAreTransfers(states, calls, n - 1);
      forall key
        ensures key in states[n].pushed <==> exists i :: 0 <= i < n && Sends(states[i], calls[i], key)
      {
        PushedStep(states[n - 1], calls[n - 1], key);
      }
    }
  }

  /** A replay, however late and to whatever handle, returns the first push's transfer and changes nothing. */
  lemma ReplayIsDeduped(states: seq<Hub>, calls: seq<Call>, key: PushKey, i: nat, j: nat)
    requires Run(states, calls) && i < j < |calls|
    requires Sends(states[i], calls[i], key) && Sends(states[j], calls[j], key)
    ensures states[j + 1] == states[j]
    ensures var a, b := calls[i], calls[j];
      Push(states[i], a.p, a.handle, a.src, a.payload, a.rev, a.id, a.now).result.value.id
      == Push(states[j], b.p, b.handle, b.src, b.payload, b.rev, b.id, b.now).result.value.id
  {
    RunInv(states, calls, i);
    PushedStep(states[i], calls[i], key);
    RunGrows(states, calls, i + 1, j);
  }

  /** A transfer has one create row, to its recipient; it is never deleted. */
  lemma OneCreateEach(states: seq<Hub>, calls: seq<Call>, t: Tid, i: nat, j: nat)
    requires Run(states, calls) && i <= j < |states| && t in states[i].transfers
    ensures t in states[j].transfers && CreateKey(states[i], t) == CreateKey(states[j], t)
    ensures CreateKey(states[j], t) in states[j].deliveries
    ensures forall k :: k in states[j].deliveries && k.tid == t && k.kind == Create ==> k == CreateKey(states[j], t)
  {
    RunGrows(states, calls, i, j);
    RunInv(states, calls, j);
    assert TransferOk(states[j], t);
    forall k | k in states[j].deliveries && k.tid == t && k.kind == Create
      ensures k == CreateKey(states[j], t)
    {
      assert DeliveryOk(states[j], k);
    }
  }

  // ----- observations -----

  /** The terminal state this call reports for t, if it is a party's observation of t. */
  function Report(h: Hub, c: Call, t: Tid): Option<Terminal> {
    if c.CallObserve? && c.t == t && Party(h, c.p, t) then Some(c.s) else None
  }

  function Better(a: Option<Terminal>, b: Option<Terminal>): Option<Terminal> {
    if Rank(a) < Rank(b) then b else a
  }

  /** The best report among calls i..j. */
  function Verdict(states: seq<Hub>, calls: seq<Call>, t: Tid, i: nat, j: nat): Option<Terminal>
    requires i <= j <= |calls| && j < |states|
    decreases j
  {
    if i == j then None
    else Better(Verdict(states, calls, t, i, j - 1), Report(states[j - 1], calls[j - 1], t))
  }

  predicate DeliversEcho(h: Hub, c: Call, t: Tid) {
    && c.CallAck? && c.key.tid == t && c.key.kind != Create && c.key.to == c.p.member
    && c.key in h.deliveries && h.deliveries[c.key].progress != Done
  }

  ghost predicate NoEchoDone(h: Hub, t: Tid) {
    forall k :: k in h.deliveries && k.tid == t && k.kind != Create ==> h.deliveries[k].progress != Done
  }

  /** What an observation is answered. */
  function Answer(h: Hub, c: Call): Option<Terminal>
    requires c.CallObserve?
  {
    match Observe(h, c.p, c.t, c.s, c.now).result
    case Ok(r) => Some(r.terminal)
    case Err(_) => None
  }

  lemma VerdictStep(h: Hub, c: Call, t: Tid)
    requires t in h.transfers && NoEchoDone(h, t) && !DeliversEcho(h, c, t)
    requires c.CallPush? ==> c.id !in h.transfers
    requires c.CallLease? ==> IsListing(h, c.p.member, c.order)
    ensures t in Do(h, c).transfers
    ensures Do(h, c).transfers[t].terminal == Better(h.transfers[t].terminal, Report(h, c, t))
    ensures Report(h, c, t).Some? ==> Answer(h, c) == Do(h, c).transfers[t].terminal
  {
    if c.CallObserve? { ObserveIsDecide(h, c.p, c.t, c.s, c.now); }
  }

  lemma DecideLeavesUndone(h: Hub, t: Tid, s: Terminal, reporter: MemberId, now: Time, u: Tid)
    requires t in h.transfers && NoEchoDone(h, u)
    ensures NoEchoDone(QueueEcho(Decided(h, t, s, reporter), t, s, now), u)
  {
  }

  lemma NoEchoDoneStep(h: Hub, c: Call, t: Tid)
    requires t in h.transfers && NoEchoDone(h, t) && !DeliversEcho(h, c, t)
    requires c.CallLease? ==> IsListing(h, c.p.member, c.order)
    ensures NoEchoDone(Do(h, c), t)
  {
    if c.CallObserve? {
      ObserveIsDecide(h, c.p, c.t, c.s, c.now);
      if Party(h, c.p, c.t) && Decides(h, c.t, c.s) { DecideLeavesUndone(h, c.t, c.s, c.p.member, c.now, t); }
    }
  }

  lemma {:induction false} TerminalIsVerdict(states: seq<Hub>, calls: seq<Call>, t: Tid, i: nat, j: nat)
    requires Run(states, calls) && i <= j <= |calls|
    requires t in states[i].transfers && states[i].transfers[t].terminal.None?
    requires forall n :: i <= n < j ==> !DeliversEcho(states[n], calls[n], t)
    ensures t in states[j].transfers && states[j].transfers[t].terminal == Verdict(states, calls, t, i, j)
    ensures NoEchoDone(states[j], t)
    decreases j
  {
    if i == j {
      RunInv(states, calls, i);
      NoneYet(states[i], t);
    } else {
      TerminalIsVerdict(states, calls, t, i, j - 1);
      RunStep(states, calls, j - 1);
      VerdictStep(states[j - 1], calls[j - 1], t);
      NoEchoDoneStep(states[j - 1], calls[j - 1], t);
    }
  }

  lemma NoneYet(h: Hub, t: Tid)
    requires HubInv(h) && t in h.transfers && h.transfers[t].terminal.None?
    ensures NoEchoDone(h, t)
  {
  }

  /**
   * Observations of an open transfer, with no echo delivered meanwhile: the terminal state is the
   * best report so far, and every observation is told it.
   */
  lemma ObservationsConverge(states: seq<Hub>, calls: seq<Call>, t: Tid, i: nat, j: nat)
    requires Run(states, calls) && i <= j <= |calls|
    requires t in states[i].transfers && states[i].transfers[t].terminal.None?
    requires forall n :: i <= n < j ==> !DeliversEcho(states[n], calls[n], t)
    ensures t in states[j].transfers && states[j].transfers[t].terminal == Verdict(states, calls, t, i, j)
    ensures forall n :: i <= n < j && Report(states[n], calls[n], t).Some? ==>
      Answer(states[n], calls[n]) == Verdict(states, calls, t, i, n + 1)
  {
    TerminalIsVerdict(states, calls, t, i, j);
    forall n | i <= n < j && Report(states[n], calls[n], t).Some?
      ensures Answer(states[n], calls[n]) == Verdict(states, calls, t, i, n + 1)
    {
      TerminalIsVerdict(states, calls, t, i, n);
      RunStep(states, calls, n);
      VerdictStep(states[n], calls[n], t);
    }
  }

  /** The verdict does not depend on the order of the reports: completed wins if anyone reported it. */
  lemma {:induction false} VerdictIsBest(states: seq<Hub>, calls: seq<Call>, t: Tid, i: nat, j: nat)
    requires i <= j <= |calls| && j < |states|
    ensures Verdict(states, calls, t, i, j) == Some(Completed)
       <==> exists n :: i <= n < j && Report(states[n], calls[n], t) == Some(Completed)
    ensures Verdict(states, calls, t, i, j) == None
       <==> forall n :: i <= n < j ==> Report(states[n], calls[n], t) == None
    decreases j
  {
    if i < j {
      VerdictIsBest(states, calls, t, i, j - 1);
      var r := Report(states[j - 1], calls[j - 1], t);
      assert Verdict(states, calls, t, i, j) == Better(Verdict(states, calls, t, i, j - 1), r);
    }
  }

  // ----- signals -----

  lemma ObserveSignals(h: Hub, p: Principal, t: Tid, s: Terminal, at: Time, k: DKey, now: Time)
    requires !Leasable(h, k, now) && Leasable(Observe(h, p, t, s, at).hub, k, now)
    ensures h.generation < Observe(h, p, t, s, at).hub.generation
  {
    ObserveIsDecide(h, p, t, s, at);
    if Party(h, p, t) && Decides(h, t, s) { DecideSignals(h, t, s, p.member, at, k, now); }
  }

  lemma DecideSignals(h: Hub, t: Tid, s: Terminal, reporter: MemberId, at: Time, k: DKey, now: Time)
    requires t in h.transfers && !Leasable(h, k, now)
    requires Leasable(QueueEcho(Decided(h, t, s, reporter), t, s, at), k, now)
    ensures h.generation < QueueEcho(Decided(h, t, s, reporter), t, s, at).generation
  {
  }

  lemma AckSignals(h: Hub, p: Principal, key: DKey, dst: Uuid, at: Time, k: DKey, now: Time)
    requires k in h.deliveries ==> DeliveryOk(h, k) && TransferOk(h, k.tid)
    requires key in h.deliveries ==> DeliveryOk(h, key)
    requires !Leasable(h, k, now) && Leasable(Ack(h, p, key, dst, at).hub, k, now)
    ensures h.generation < Ack(h, p, key, dst, at).hub.generation
  {
  }

  /** A lease makes no row leasable, then or at any other time, unless its seconds are negative. */
  lemma LeaseIsQuiet(h: Hub, p: Principal, order: seq<DKey>, limit: int, seconds: Time, at: Time, k: DKey, now: Time)
    requires seconds >= 0.0 || now == at
    requires Leasable(Lease(h, p, order, limit, seconds, at).hub, k, now)
    ensures Leasable(h, k, now)
  {
    if k in Handed(h, order, limit, at) { assert k in Eligible(h, order, at); }
  }

  lemma PushSignals(h: Hub, p: Principal, to: string, src: Uuid, payload: Payload, rev: int, id: Tid, at: Time, k: DKey, now: Time)
    requires !Leasable(h, k, now) && Leasable(Push(h, p, to, src, payload, rev, id, at).hub, k, now)
    ensures h.generation < Push(h, p, to, src, payload, rev, id, at).hub.generation
  {
  }

  lemma CallSignals(h: Hub, c: Call, k: DKey, now: Time)
    requires HubInv(h) && !c.CallNack? && (c.CallLease? ==> c.seconds >= 0.0 || now == c.now)
    requires !Leasable(h, k, now) && Leasable(Do(h, c), k, now)
    ensures h.generation < Do(h, c).generation
  {
    match c
    case CallPush(p, handle, src, payload, rev, id, at) => PushSignals(h, p, handle, src, payload, rev, id, at, k, now);
    case CallLease(p, order, limit, seconds, at) => LeaseIsQuiet(h, p, order, limit, seconds, at, k, now);
    case CallAck(p, key, dst, at) =>
      if k in h.deliveries { assert DeliveryOk(h, k) && TransferOk(h, k.tid); }
      if key in h.deliveries { assert DeliveryOk(h, key); }
      AckSignals(h, p, key, dst, at, k, now);
    case CallNack(_, _) =>
    case CallObserve(p, t, s, at) => ObserveSignals(h, p, t, s, at, k, now);
  }

  /**
   * Every call other than a nack that makes some row leasable has advanced the generation by the
   * time it returns, so a parked reader wakes.
   */
  lemma NewWorkIsSignalled(states: seq<Hub>, calls: seq<Call>, n: nat, k: DKey, now: Time)
    requires Run(states, calls) && n < |calls| && !calls[n].CallNack?
    requires calls[n].CallLease? ==> calls[n].seconds >= 0.0 || now == calls[n].now
    requires !Leasable(states[n], k, now) && Leasable(states[n + 1], k, now)
    ensures states[n].generation < states[n + 1].generation
  {
    RunStep(states, calls, n);
    CallSignals(states[n], calls[n], k, now);
  }

  /** A nack does make its row leasable, and says nothing. */
  lemma NackIsSilent(h: Hub, p: Principal, k: DKey, now: Time)
    requires HubInv(h) && k in h.deliveries && k.to == p.member && h.deliveries[k].progress != Done
    ensures Nack(h, p, k).hub.generation == h.generation
    ensures Leasable(Nack(h, p, k).hub, k, now) <==>
      (k.kind == Create || OwnCopy(h.transfers[k.tid], k.to).Some?)
  {
    assert DeliveryOk(h, k) && TransferOk(h, k.tid);
  }
}
