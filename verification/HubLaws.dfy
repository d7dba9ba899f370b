/**
 * What a call does to the ledger, field by field: when each column changes, who changed it and to
 * what, stated over the rows before and after alone.
 */
module HubLaws {
  import opened Basics
  import opened HubSpec
  import opened HubInvariant
  import opened HubHistory
  import opened HubLeases

  /** One call, by anyone, in any state a run can be in. */
  ghost predicate Called(h: Hub, c: Call, h': Hub) {
    HubInv(h) && Legal(h, c) && h' == Do(h, c)
  }

  /** Every call of every run is one. */
  lemma RunCalls(states: seq<Hub>, calls: seq<Call>, n: nat)
    requires Run(states, calls) && n < |calls|
    ensures Called(states[n], calls[n], states[n + 1])
  {
    RunStep(states, calls, n);
  }

  // ----- transfers come from pushes -----

  /** A member of the tenant under this handle. */
  predicate Named(h: Hub, tenant: TenantId, handle: string, m: MemberId) {
    m in h.roster.members && h.roster.members[m].tenant == tenant && h.roster.members[m].handle == handle
  }

  predicate SameNaturalKey(tr: Transfer, c: Call)
    requires c.CallPush?
  {
    tr.tenant == c.p.tenant && tr.from == c.p.member && tr.src == c.src && tr.rev == c.rev
  }

  /**
   * A transfer appears only by a push. It goes to the one member of the sender's tenant who bears the
   * handle, it says what the call says, and it brings one queued create to that member and a signal.
   */
  lemma TransferIsAsPushed(h: Hub, c: Call, h': Hub, t: Tid)
    requires Called(h, c, h') && t !in h.transfers && t in h'.transfers
    ensures c.CallPush? && t == c.id
    ensures var tr := h'.transfers[t];
      && Named(h, c.p.tenant, c.handle, tr.to) && h.roster.members[tr.to].canReceive
      && (forall m :: Named(h, c.p.tenant, c.handle, m) ==> m == tr.to)
      && tr.from == c.p.member != tr.to && tr.tenant == c.p.tenant
      && tr.src == c.src && tr.rev == c.rev && tr.payload == c.payload
      && tr.dst.None? && tr.terminal.None? && !tr.resolved
      && (forall u :: u in h.transfers ==> !SameNaturalKey(h.transfers[u], c))
      && DKey(t, Create, tr.to) in h'.deliveries
      && h'.deliveries[DKey(t, Create, tr.to)] == Delivery(Queued, 0, c.now)
      && h'.generation == h.generation + 1
  {
    if !c.CallPush? { OthersSendNothing(h, c, t); }
    PushedRowIsNew(h, t);
    PushMakes(h, c, t);
    forall m | Named(h, c.p.tenant, c.handle, m) ensures m == h'.transfers[t].to {
      assert Indexed(h.roster, m);
    }
    forall u | u in h.transfers ensures !SameNaturalKey(h.transfers[u], c) {
      assert KeyOf(h.transfers[u]) in h.pushed;
    }
  }

  lemma OthersSendNothing(h: Hub, c: Call, t: Tid)
    requires !c.CallPush? && t in Do(h, c).transfers
    ensures t in h.transfers
  {
    if c.CallObserve? { ObserveIsDecide(h, c.p, c.t, c.s, c.now); }
  }

  lemma PushMakes(h: Hub, c: Call, t: Tid)
    requires c.CallPush? && RosterOk(h.roster) && t !in h.transfers && t in Do(h, c).transfers
    requires forall k :: k in h.deliveries ==> k.tid != t
    ensures t == c.id && PushKey(c.p.tenant, c.p.member, c.src, c.rev) !in h.pushed
    ensures var h', tr := Do(h, c), Do(h, c).transfers[t];
      && Named(h, c.p.tenant, c.handle, tr.to) && h.roster.members[tr.to].canReceive
      && tr.to != c.p.member && SameNaturalKey(tr, c) && tr.payload == c.payload
      && tr.dst.None? && tr.terminal.None? && !tr.resolved
      && DKey(t, Create, tr.to) in h'.deliveries
      && h'.deliveries[DKey(t, Create, tr.to)] == Delivery(Queued, 0, c.now)
      && h'.generation == h.generation + 1
  {
  }

  lemma PushedRowIsNew(h: Hub, t: Tid)
    requires HubInv(h) && t !in h.transfers
    ensures forall k :: k in h.deliveries ==> k.tid != t
  {
    forall k | k in h.deliveries ensures k.tid != t { assert DeliveryOk(h, k); }
  }

  // ----- the columns of a transfer -----

  /** The mapping is set once: by the recipient's ack of the unfinished create, to the uuid the ack names. */
  lemma MappedByAck(h: Hub, c: Call, h': Hub, t: Tid)
    requires Called(h, c, h') && t in h.transfers
    ensures t in h'.transfers && DKey(t, Create, h.transfers[t].to) in h.deliveries
    ensures var tr, tr', create := h.transfers[t], h'.transfers[t], DKey(t, Create, h.transfers[t].to);
      && (tr'.dst != tr.dst <==>
            c.CallAck? && c.key == create && c.p.member == tr.to && c.dst != "" && h.deliveries[create].progress != Done)
      && (tr'.dst != tr.dst ==> tr.dst.None? && tr'.dst == Some(c.dst))
  {
    assert TransferOk(h, t);
    if c.CallAck? {
      if c.key in h.deliveries { assert DeliveryOk(h, c.key); }
      AckMaps(h, c, t);
    } else {
      OthersMapNothing(h, c, t);
    }
  }

  lemma OthersMapNothing(h: Hub, c: Call, t: Tid)
    requires !c.CallAck? && t in h.transfers && (c.CallPush? ==> c.id !in h.transfers)
    ensures t in Do(h, c).transfers && Do(h, c).transfers[t].dst == h.transfers[t].dst
  {
    if c.CallObserve? { ObserveIsDecide(h, c.p, c.t, c.s, c.now); }
  }

  lemma AckMaps(h: Hub, c: Call, t: Tid)
    requires c.CallAck? && t in h.transfers && TransferOk(h, t) && (c.key in h.deliveries ==> DeliveryOk(h, c.key))
    ensures t in Do(h, c).transfers
    ensures var tr, tr', create := h.transfers[t], Do(h, c).transfers[t], DKey(t, Create, h.transfers[t].to);
      && (tr'.dst != tr.dst <==>
            c.key == create && c.p.member == tr.to && c.dst != "" && h.deliveries[create].progress != Done)
      && (tr'.dst != tr.dst ==> tr.dst.None? && tr'.dst == Some(c.dst))
  {
  }

  /** No cancel echo of the transfer has been delivered. */
  ghost predicate CancelOpen(h: Hub, t: Tid) {
    forall k :: k in h.deliveries && k.tid == t && k.kind == Cancel ==> h.deliveries[k].progress != Done
  }

  predicate IsParty(tr: Transfer, p: Principal) {
    p.tenant == tr.tenant && (p.member == tr.from || p.member == tr.to)
  }

  /**
   * A terminal state is set, or raised from canceled to completed before a cancel echo is delivered,
   * by a party's report and by nothing else; it is the state reported, under the reporter's name.
   */
  lemma DecidedByReporter(h: Hub, c: Call, h': Hub, t: Tid)
    requires Called(h, c, h') && t in h.transfers
    ensures t in h'.transfers
    ensures var tr, tr' := h.transfers[t], h'.transfers[t];
      && (tr'.terminal != tr.terminal <==>
            && c.CallObserve? && c.t == t && IsParty(tr, c.p)
            && (tr.terminal.None? || (tr.terminal == Some(Canceled) && c.s == Completed && CancelOpen(h, t))))
      && (if tr'.terminal != tr.terminal then tr'.terminal == Some(c.s) && tr'.terminalBy == Some(c.p.member)
          else tr'.terminalBy == tr.terminalBy)
  {
    if c.CallObserve? { ObserveDecides(h, c, t); } else { OthersDecideNothing(h, c, t); }
  }

  lemma OthersDecideNothing(h: Hub, c: Call, t: Tid)
    requires !c.CallObserve? && t in h.transfers && (c.CallPush? ==> c.id !in h.transfers)
    ensures t in Do(h, c).transfers
    ensures var tr, tr' := h.transfers[t], Do(h, c).transfers[t];
      tr'.terminal == tr.terminal && tr'.terminalBy == tr.terminalBy
  {
  }

  lemma ObserveDecides(h: Hub, c: Call, t: Tid)
    requires c.CallObserve? && t in h.transfers
    ensures t in Do(h, c).transfers
    ensures var tr, tr' := h.transfers[t], Do(h, c).transfers[t];
      && (tr'.terminal != tr.terminal <==>
            && c.t == t && IsParty(tr, c.p)
            && (tr.terminal.None? || (tr.terminal == Some(Canceled) && c.s == Completed && CancelOpen(h, t))))
      && (if tr'.terminal != tr.terminal then tr'.terminal == Some(c.s) && tr'.terminalBy == Some(c.p.member)
          else tr'.terminalBy == tr.terminalBy)
  {
    ObserveIsDecide(h, c.p, c.t, c.s, c.now);
  }

  /** The transfer's terminal state is not what it was. */
  predicate TerminalMoved(h: Hub, h': Hub, t: Tid) {
    t in h.transfers && t in h'.transfers && h'.transfers[t].terminal != h.transfers[t].terminal
  }

  /** The row by which a member is told of a terminal state. */
  function EchoTo(t: Tid, s: Terminal, m: MemberId): DKey {
    DKey(t, if s == Completed then Complete else Cancel, m)
  }

  /** The sender reports while the recipient has not acked the create. */
  predicate Early(h: Hub, t: Tid, m: MemberId)
    requires t in h.transfers && DKey(t, Create, h.transfers[t].to) in h.deliveries
  {
    var tr := h.transfers[t];
    m == tr.from && tr.dst.None? && h.deliveries[DKey(t, Create, tr.to)].progress != Done
  }

  /**
   * The report left one echo of the transfer: a queued one of the state reported, to the party that
   * did not report it. Only if it came early is there none: a queued create is then done, and the
   * transfer resolved with nobody told; a leased one is left to its ack.
   */
  ghost predicate Told(h: Hub, c: Call, h': Hub, t: Tid, o: MemberId)
    requires c.CallObserve? && t in h.transfers && t in h'.transfers
    requires DKey(t, Create, h.transfers[t].to) in h.deliveries
  {
    var tr, create, echo, early := h.transfers[t], DKey(t, Create, h.transfers[t].to), EchoTo(t, c.s, o), Early(h, t, c.p.member);
    && (forall k :: k in h'.deliveries && k.tid == t && k.kind != Create ==> k == echo)
    && (echo in h'.deliveries <==> !early)
    && (!early ==> h'.deliveries[echo] == Delivery(Queued, 0, c.now))
    && create in h'.deliveries
    && h'.deliveries[create] == (if early && h.deliveries[create].progress == Queued
                                 then h.deliveries[create].(progress := Done) else h.deliveries[create])
    && (h'.transfers[t].resolved <==> tr.resolved || (early && h.deliveries[create].progress == Queued))
    && h'.generation == h.generation + (if early then 0 else 1)
  }

  /** Who is told of the state reported, and when nobody is. */
  lemma OtherPartyIsTold(h: Hub, c: Call, h': Hub, t: Tid, o: MemberId)
    requires Called(h, c, h') && TerminalMoved(h, h', t)
    requires (o == h.transfers[t].from || o == h.transfers[t].to) && o != c.p.member
    ensures c.CallObserve? && DKey(t, Create, h.transfers[t].to) in h.deliveries && Told(h, c, h', t, o)
  {
    DecidedByReporter(h, c, h', t);
    assert TransferOk(h, t);
    EchoesAgree(h, t);
    ReportTells(h, c, t, o);
  }

  /** Every echo of the transfer is of its terminal state. */
  ghost predicate EchoesOf(h: Hub, t: Tid)
    requires t in h.transfers
  {
    forall k :: k in h.deliveries && k.tid == t && k.kind != Create ==>
      h.transfers[t].terminal.Some? && k.kind == EchoKind(h.transfers[t].terminal.value)
  }

  lemma EchoesAgree(h: Hub, t: Tid)
    requires HubInv(h) && t in h.transfers
    ensures EchoesOf(h, t)
  {
    forall k | k in h.deliveries && k.tid == t && k.kind != Create
      ensures h.transfers[t].terminal.Some? && k.kind == EchoKind(h.transfers[t].terminal.value)
    {
      assert DeliveryOk(h, k);
    }
  }

  lemma ReportTells(h: Hub, c: Call, t: Tid, o: MemberId)
    requires c.CallObserve? && c.t == t && t in h.transfers && TransferOk(h, t) && EchoesOf(h, t)
    requires TerminalMoved(h, Do(h, c), t) && IsParty(h.transfers[t], c.p)
    requires (o == h.transfers[t].from || o == h.transfers[t].to) && o != c.p.member
    ensures t in Do(h, c).transfers && Told(h, c, Do(h, c), t, o)
  {
    ReportEchoes(h, c, t, o);
    ReportSuppresses(h, c, t);
  }

  lemma ReportEchoes(h: Hub, c: Call, t: Tid, o: MemberId)
    requires c.CallObserve? && c.t == t && t in h.transfers && TransferOk(h, t) && EchoesOf(h, t)
    requires TerminalMoved(h, Do(h, c), t) && IsParty(h.transfers[t], c.p)
    requires (o == h.transfers[t].from || o == h.transfers[t].to) && o != c.p.member
    ensures var h', echo, early := Do(h, c), EchoTo(t, c.s, o), Early(h, t, c.p.member);
      && (forall k :: k in h'.deliveries && k.tid == t && k.kind != Create ==> k == echo)
      && (echo in h'.deliveries <==> !early)
      && (!early ==> h'.deliveries[echo] == Delivery(Queued, 0, c.now))
      && h'.generation == h.generation + (if early then 0 else 1)
  {
    ObserveIsDecide(h, c.p, c.t, c.s, c.now);
  }

  lemma ReportSuppresses(h: Hub, c: Call, t: Tid)
    requires c.CallObserve? && c.t == t && t in h.transfers && TransferOk(h, t)
    requires TerminalMoved(h, Do(h, c), t) && IsParty(h.transfers[t], c.p)
    ensures t in Do(h, c).transfers
    ensures var h', tr, create, early := Do(h, c), h.transfers[t], DKey(t, Create, h.transfers[t].to), Early(h, t, c.p.member);
      && create in h'.deliveries
      && h'.deliveries[create] == (if early && h.deliveries[create].progress == Queued
                                   then h.deliveries[create].(progress := Done) else h.deliveries[create])
      && (h'.transfers[t].resolved <==> tr.resolved || (early && h.deliveries[create].progress == Queued))
  {
    ObserveIsDecide(h, c.p, c.t, c.s, c.now);
  }

  /**
   * Over every run: whoever reports the terminal state that a transfer comes to have is recorded as
   * the one who did; and once the copy is known, the other party is told that state, and no echo is
   * waiting for the one who reported it.
   */
  lemma ReporterIsRecorded(states: seq<Hub>, calls: seq<Call>, n: nat, t: Tid)
    requires Run(states, calls) && n < |calls| && TerminalMoved(states[n], states[n + 1], t)
    ensures calls[n].CallObserve? && calls[n].t == t
    ensures states[n + 1].transfers[t].terminal == Some(calls[n].s)
    ensures states[n + 1].transfers[t].terminalBy == Some(calls[n].p.member)
    ensures var tr, me := states[n].transfers[t], calls[n].p.member;
      && (me == tr.from || me == tr.to)
      && (tr.dst.Some? ==>
            && EchoTo(t, calls[n].s, if me == tr.from then tr.to else tr.from) in states[n + 1].deliveries
            && forall k :: k in states[n + 1].deliveries && k.tid == t && k.kind != Create && k.to == me ==>
                 states[n + 1].deliveries[k].progress == Done)
  {
    RunCalls(states, calls, n);
    DecidedByReporter(states[n], calls[n], states[n + 1], t);
    var tr, me := states[n].transfers[t], calls[n].p.member;
    assert TransferOk(states[n], t);
    OtherPartyIsTold(states[n], calls[n], states[n + 1], t, if me == tr.from then tr.to else tr.from);
  }

  /**
   * A transfer is resolved by its addressee's ack of an echo, or by the sender's report while the
   * create is queued.
   */
  lemma ResolvedBy(h: Hub, c: Call, h': Hub, t: Tid)
    requires Called(h, c, h') && t in h.transfers && !h.transfers[t].resolved
    ensures t in h'.transfers && DKey(t, Create, h.transfers[t].to) in h.deliveries
    ensures var tr := h.transfers[t];
      h'.transfers[t].resolved <==>
        || (&& c.CallAck? && c.key.tid == t && c.key.kind != Create && c.p.member == c.key.to
            && c.key in h.deliveries && h.deliveries[c.key].progress != Done)
        || (&& TerminalMoved(h, h', t) && c.p.member == tr.from && tr.dst.None?
            && h.deliveries[DKey(t, Create, tr.to)].progress == Queued)
  {
    assert TransferOk(h, t);
    DecidedByReporter(h, c, h', t);
    if TerminalMoved(h, h', t) {
      OtherPartyIsTold(h, c, h', t, if c.p.member == h.transfers[t].from then h.transfers[t].to else h.transfers[t].from);
    } else {
      ResolvedByAck(h, c, t);
    }
  }

  lemma ResolvedByAck(h: Hub, c: Call, t: Tid)
    requires t in h.transfers && !h.transfers[t].resolved && !TerminalMoved(h, Do(h, c), t)
    requires c.CallPush? ==> c.id !in h.transfers
    ensures t in Do(h, c).transfers
    ensures Do(h, c).transfers[t].resolved <==>
        && c.CallAck? && c.key.tid == t && c.key.kind != Create && c.p.member == c.key.to
        && c.key in h.deliveries && h.deliveries[c.key].progress != Done
  {
    if c.CallObserve? { IdleReport(h, c, t); }
  }

  /** A report that does not decide the transfer leaves it as it is. */
  lemma IdleReport(h: Hub, c: Call, t: Tid)
    requires c.CallObserve? && t in h.transfers && !TerminalMoved(h, Do(h, c), t)
    ensures t in Do(h, c).transfers && Do(h, c).transfers[t] == h.transfers[t]
  {
    ObserveIsDecide(h, c.p, c.t, c.s, c.now);
  }

  // ----- the rows of deliveries -----

  /** What a row newly in the table is for. */
  ghost predicate NewRowFor(h: Hub, c: Call, h': Hub, k: DKey)
    requires k.tid in h'.transfers
  {
    var tr := h'.transfers[k.tid];
    if k.kind == Create then k.tid !in h.transfers && k.to == tr.to   // its push
    else
      && tr.terminal.Some? && k == EchoTo(k.tid, tr.terminal.value, k.to)
      && ((TerminalMoved(h, h', k.tid) && (k.to == tr.from || k.to == tr.to) && k.to != c.p.member)   // a report by the other party
          || (k.tid in h.transfers && h.transfers[k.tid].dst != tr.dst && k.to == tr.to))             // the ack after a revoke
  }

  /** A row appears queued and unattempted: a create with its push, an echo with the other party's report or the late ack. */
  lemma RowsComeFrom(h: Hub, c: Call, h': Hub, k: DKey)
    requires Called(h, c, h') && k !in h.deliveries && k in h'.deliveries
    ensures !c.CallNack? && h'.deliveries[k] == Delivery(Queued, 0, c.now)
    ensures k.tid in h'.transfers && NewRowFor(h, c, h', k)
  {
    DoKeepsInv(h, c);
    assert DeliveryOk(h', k);
    if c.CallObserve? {
      ObservedRow(h, c, k);
    } else if c.CallAck? {
      if c.key in h.deliveries { assert DeliveryOk(h, c.key) && TransferOk(h, c.key.tid); }
      AckedRow(h, c, k);
    } else {
      PushedRow(h, c, k);
    }
  }

  lemma PushedRow(h: Hub, c: Call, k: DKey)
    requires !c.CallObserve? && !c.CallAck? && (c.CallPush? ==> c.id !in h.transfers)
    requires k !in h.deliveries && k in Do(h, c).deliveries
    ensures !c.CallNack? && Do(h, c).deliveries[k] == Delivery(Queued, 0, c.now)
    ensures k.tid in Do(h, c).transfers && NewRowFor(h, c, Do(h, c), k)
  {
  }

  lemma AckedRow(h: Hub, c: Call, k: DKey)
    requires c.CallAck? && (c.key in h.deliveries ==> DeliveryOk(h, c.key) && TransferOk(h, c.key.tid))
    requires k !in h.deliveries && k in Do(h, c).deliveries
    ensures Do(h, c).deliveries[k] == Delivery(Queued, 0, c.now)
    ensures k.tid in Do(h, c).transfers && NewRowFor(h, c, Do(h, c), k)
  {
  }

  lemma ObservedRow(h: Hub, c: Call, k: DKey)
    requires Called(h, c, Do(h, c)) && c.CallObserve? && k !in h.deliveries && k in Do(h, c).deliveries
    requires k.tid in Do(h, c).transfers && DeliveryOk(Do(h, c), k)
    ensures Do(h, c).deliveries[k] == Delivery(Queued, 0, c.now) && NewRowFor(h, c, Do(h, c), k)
  {
    var h' := Do(h, c);
    RowFromReport(h, c, k);
    assert TransferOk(h, k.tid);
    DecidedByReporter(h, c, h', k.tid);
    var o := if c.p.member == h.transfers[k.tid].from then h.transfers[k.tid].to else h.transfers[k.tid].from;
    OtherPartyIsTold(h, c, h', k.tid, o);
  }

  lemma RowFromReport(h: Hub, c: Call, k: DKey)
    requires c.CallObserve? && k !in h.deliveries && k in Do(h, c).deliveries
    ensures k.kind != Create || k.tid in h.transfers
    ensures TerminalMoved(h, Do(h, c), k.tid)
    ensures k.kind != Create
  {
    ObserveIsDecide(h, c.p, c.t, c.s, c.now);
  }

  /** A row disappears only as a pending cancel, when the canceled transfer comes to be completed. */
  lemma RowsLeave(h: Hub, c: Call, h': Hub, k: DKey)
    requires Called(h, c, h') && k in h.deliveries
    ensures k !in h'.deliveries <==>
      k.kind == Cancel && h.deliveries[k].progress != Done && TerminalMoved(h, h', k.tid)
  {
    assert DeliveryOk(h, k);
    DecidedByReporter(h, c, h', k.tid);
    if c.CallObserve? && c.t == k.tid {
      ReportDrops(h, c, k);
    } else {
      OthersDropNothing(h, c, k);
    }
  }

  lemma ReportDrops(h: Hub, c: Call, k: DKey)
    requires c.CallObserve? && c.t == k.tid && k in h.deliveries && DeliveryOk(h, k)
    ensures k !in Do(h, c).deliveries <==>
      k.kind == Cancel && h.deliveries[k].progress != Done && TerminalMoved(h, Do(h, c), k.tid)
  {
    ObserveIsDecide(h, c.p, c.t, c.s, c.now);
  }

  lemma OthersDropNothing(h: Hub, c: Call, k: DKey)
    requires k in h.deliveries && (c.CallObserve? ==> c.t != k.tid)
    ensures k in Do(h, c).deliveries
  {
    if c.CallObserve? { ObserveIsDecide(h, c.p, c.t, c.s, c.now); }
  }

  /** The row becomes done: by its addressee's ack, or as a queued create whose sender reports. */
  predicate Finishes(h: Hub, c: Call, h': Hub, k: DKey)
    requires k in h.deliveries && k.tid in h.transfers
  {
    && h.deliveries[k].progress != Done
    && (|| (c.CallAck? && c.key == k && c.p.member == k.to && (k.kind == Create ==> c.dst != ""))
        || (&& k.kind == Create && h.deliveries[k].progress == Queued && h.transfers[k.tid].dst.None?
            && TerminalMoved(h, h', k.tid) && c.p.member == h.transfers[k.tid].from))
  }

  /** How a row moves: done as above, queued again by its addressee's nack, or handed out; otherwise not at all. */
  ghost predicate RowMoves(h: Hub, c: Call, h': Hub, k: DKey)
    requires k in h.deliveries && k in h'.deliveries && k.tid in h.transfers
  {
    var d, d' := h.deliveries[k], h'.deliveries[k];
    if Finishes(h, c, h', k) then d' == Delivery(Done, d.attempts, d.createdAt)
    else if c.CallNack? && c.key == k && c.p.member == k.to && d.progress != Done then
      d' == Delivery(Queued, d.attempts, d.createdAt)
    else
      d' == d || (&& c.CallLease? && c.p.member == k.to && c.p.canReceive && d.progress != Done
                  && d' == Delivery(Leased(c.p.device, c.now + c.seconds), d.attempts + 1, d.createdAt))
  }

  /** Every row still there after a call has moved so. */
  lemma RowsMoveSo(h: Hub, c: Call, h': Hub, k: DKey)
    requires Called(h, c, h') && k in h.deliveries && k in h'.deliveries
    ensures k.tid in h.transfers && RowMoves(h, c, h', k)
  {
    assert DeliveryOk(h, k) && TransferOk(h, k.tid);
    DecidedByReporter(h, c, h', k.tid);
    if c.CallObserve? {
      ObservedRowMoves(h, c, k);
    } else if c.CallLease? {
      LeasedRowMoves(h, c, k);
    } else {
      OtherRowMoves(h, c, k);
    }
  }

  lemma LeasedRowMoves(h: Hub, c: Call, k: DKey)
    requires c.CallLease? && IsListing(h, c.p.member, c.order)
    requires k in h.deliveries && k in Do(h, c).deliveries && k.tid in h.transfers
    ensures RowMoves(h, c, Do(h, c), k)
  {
    if k in Handed(h, c.order, c.limit, c.now) { HandedIsListed(h, c.p.member, c.order, c.limit, c.now, k); }
    LeasedRow(h, c, k);
  }

  lemma HandedIsListed(h: Hub, m: MemberId, order: seq<DKey>, limit: int, now: Time, k: DKey)
    requires IsListing(h, m, order) && k in Handed(h, order, limit, now)
    ensures k in h.deliveries && k.to == m && h.deliveries[k].progress != Done
  {
    assert k in Eligible(h, order, now);
  }

  lemma LeasedRow(h: Hub, c: Call, k: DKey)
    requires c.CallLease? && k in h.deliveries
    requires k in Handed(h, c.order, c.limit, c.now) ==> c.p.member == k.to && h.deliveries[k].progress != Done
    ensures Do(h, c).transfers == h.transfers && k in Do(h, c).deliveries
    ensures var d, d' := h.deliveries[k], Do(h, c).deliveries[k];
      d' == d || (&& c.p.member == k.to && c.p.canReceive && d.progress != Done
                  && d' == Delivery(Leased(c.p.device, c.now + c.seconds), d.attempts + 1, d.createdAt))
  {
  }

  lemma OtherRowMoves(h: Hub, c: Call, k: DKey)
    requires !c.CallLease? && !c.CallObserve? && (c.CallPush? ==> c.id !in h.transfers)
    requires k in h.deliveries && k in Do(h, c).deliveries && k.tid in h.transfers
    requires !TerminalMoved(h, Do(h, c), k.tid)
    ensures RowMoves(h, c, Do(h, c), k)
  {
  }

  lemma ReportLeavesRow(h: Hub, c: Call, k: DKey)
    requires c.CallObserve? && k in h.deliveries && k in Do(h, c).deliveries
    requires k.kind == Create && TerminalMoved(h, Do(h, c), k.tid) ==> h.transfers[k.tid].to != k.to
    ensures Do(h, c).deliveries[k] == h.deliveries[k]
  {
    ObserveIsDecide(h, c.p, c.t, c.s, c.now);
  }

  lemma ObservedRowMoves(h: Hub, c: Call, k: DKey)
    requires Called(h, c, Do(h, c)) && c.CallObserve? && k in h.deliveries && k in Do(h, c).deliveries
    requires DeliveryOk(h, k) && TransferOk(h, k.tid)
    ensures RowMoves(h, c, Do(h, c), k)
  {
    var tr := h.transfers[k.tid];
    if k.kind == Create && TerminalMoved(h, Do(h, c), k.tid) {
      DecidedByReporter(h, c, Do(h, c), k.tid);
      OtherPartyIsTold(h, c, Do(h, c), k.tid, if c.p.member == tr.from then tr.to else tr.from);
    } else {
      ReportLeavesRow(h, c, k);
    }
  }

  /**
   * The recipient's ack finishes the create; if the sender has revoked meanwhile, the echo of that
   * state is there for the recipient, and announced.
   */
  lemma RevokeFollowsAck(h: Hub, c: Call, h': Hub, t: Tid)
    requires Called(h, c, h') && t in h.transfers && t in h'.transfers && h'.transfers[t].dst != h.transfers[t].dst
    ensures var tr, create := h.transfers[t], DKey(t, Create, h.transfers[t].to);
      && create in h'.deliveries && h'.deliveries[create].progress == Done
      && (tr.terminal.Some? ==> EchoTo(t, tr.terminal.value, tr.to) in h'.deliveries)
      && h'.generation == h.generation + (if tr.terminal.Some? then 1 else 0)
  {
    MappedByAck(h, c, h', t);
    AckFollows(h, c, t);
  }

  lemma AckFollows(h: Hub, c: Call, t: Tid)
    requires c.CallAck? && t in h.transfers && c.key == DKey(t, Create, h.transfers[t].to) && c.key in h.deliveries
    requires h.deliveries[c.key].progress != Done && c.dst != "" && c.p.member == c.key.to
    ensures var tr, h' := h.transfers[t], Do(h, c);
      && c.key in h'.deliveries && h'.deliveries[c.key].progress == Done
      && (tr.terminal.Some? ==> EchoTo(t, tr.terminal.value, tr.to) in h'.deliveries)
      && h'.generation == h.generation + (if tr.terminal.Some? then 1 else 0)
  {
  }
}
