/**
 * What a spoke keeps against the hub whatever happens: any crash, any lost response, any human act,
 * and any calls by the other members in between.
 */
module SpokeInvariant {
  import opened Basics
  import opened HubSpec
  import opened HubInvariant
  import opened HubHistory
  import opened SpokeSpec

  // ----- what is in hand -----

  /** A leased entry tells the truth about its transfer, and keeps telling it. */
  ghost predicate EntryOk(h: Hub, m: MemberId, e: Entry) {
    && e.key.tid in h.transfers && e.key.to == m
    && var tr := h.transfers[e.key.tid];
       if e.CreateEntry? then
         && e.key.kind == Create && tr.to == m && e.payload == tr.payload
         && tr.from in h.roster.members && e.provenance == ProvenanceTag(h.roster.members[tr.from].handle)
       else
         e.key.kind != Create && (m == tr.from || m == tr.to) && OwnCopy(tr, m) == Some(e.uuid)
  }

  ghost predicate QueueOk(h: Hub, m: MemberId, q: seq<Entry>) {
    forall i :: 0 <= i < |q| ==> EntryOk(h, m, q[i])
  }

  ghost predicate WatchedOk(h: Hub, m: MemberId, w: Watched) {
    && w.tid in h.transfers
    && var tr := h.transfers[w.tid];
       && (if w.role == Sender then tr.from == m && w.uuid == tr.src else tr.to == m && tr.dst == Some(w.uuid))
       && (w.applied ==> tr.dst.Some?)
  }

  ghost predicate WatchOk(h: Hub, m: MemberId, q: seq<Watched>) {
    forall i :: 0 <= i < |q| ==> WatchedOk(h, m, q[i])
  }

  /** The delivery is journaled with this uuid (or still open). */
  predicate JournaledAs(j: Journal, k: DKey, dst: Option<Uuid>) {
    k in j && j[k].dst == dst
  }

  /** The member's push of this todo made this transfer. */
  predicate SentAs(h: Hub, m: MemberId, src: Uuid, t: Tid) {
    t in h.transfers && h.transfers[t].from == m && h.transfers[t].src == src && h.transfers[t].rev == 1
  }

  ghost predicate PhaseOk(h: Hub, m: MemberId, s: Spoke) {
    match s.phase
    case Idle => true
    case Pushed(src, t) => SentAs(h, m, src, t)
    case Inbox(q) => QueueOk(h, m, q)
    case Firing(q, _) => HeadIsCreate(q) && QueueOk(h, m, q) && JournaledAs(s.journal, q[0].key, None) && q[0].key !in s.fired
    case Correlating(q, _) => HeadIsCreate(q) && QueueOk(h, m, q) && JournaledAs(s.journal, q[0].key, None)
    case Closed(q, u) => HeadIsCreate(q) && QueueOk(h, m, q) && JournaledAs(s.journal, q[0].key, Some(u)) && u != ""
    case Echoed(q) => q != [] && q[0].EchoEntry? && QueueOk(h, m, q)
    case Failed(q) => q != [] && QueueOk(h, m, q)
    case Watching(q) => WatchOk(h, m, q)
    case Reported(q, _) => q != [] && WatchOk(h, m, q) && h.transfers[q[0].tid].terminal.Some?
    case Retagged(q) => q != [] && WatchOk(h, m, q) && q[0].role == Sender && q[0].applied
  }

  // ----- the journal -----

  ghost predicate JournalOk(h: Hub, m: MemberId, j: Journal) {
    forall k :: k in j ==>
      && k.kind == Create && k.to == m && k.tid in h.transfers
      && var tr := h.transfers[k.tid];
         && tr.to == m && j[k].title == tr.payload.title
         && tr.from in h.roster.members && j[k].provenance == ProvenanceTag(h.roster.members[tr.from].handle)
         && j[k].dst != Some("")
  }

  /** No two deliveries are correlated to the same todo. */
  ghost predicate Injective(j: Journal) {
    forall k, l :: k in j && l in j && k != l && j[k].dst.Some? ==> j[k].dst != j[l].dst
  }

  /** Every create ever written was journaled first, and no delivery's create was written twice. */
  ghost predicate FiredOk(s: Spoke) {
    Distinct(s.fired) && forall k :: k in s.fired ==> k in s.journal
  }

  ghost predicate CachesOk(h: Hub, m: MemberId, s: Spoke) {
    && (forall u :: u in s.sent ==> SentAs(h, m, u, s.sent[u]))
    && (forall t :: t in s.observed ==> t in h.transfers && h.transfers[t].terminal.Some?)
    && (forall t :: t in s.retagged ==> t in h.transfers && h.transfers[t].from == m && h.transfers[t].dst.Some?)
  }

  ghost predicate SpokeOk(h: Hub, m: MemberId, s: Spoke) {
    && JournalOk(h, m, s.journal) && Injective(s.journal)
    && FiredOk(s) && CachesOk(h, m, s) && PhaseOk(h, m, s)
  }

  /** The hub's mapping is the journal's. */
  ghost predicate MappedOk(h: Hub, m: MemberId, j: Journal) {
    forall t :: t in h.transfers && h.transfers[t].to == m && h.transfers[t].dst.Some? ==>
      JournaledAs(j, DKey(t, Create, m), h.transfers[t].dst)
  }

  function WatchOf(ph: Phase): seq<Watched> {
    if ph.Watching? || ph.Reported? || ph.Retagged? then ph.watch else []
  }

  /** The watch entries still to be looked at. */
  function Ahead(ph: Phase): seq<Watched> {
    if ph.Watching? then ph.watch
    else if (ph.Reported? || ph.Retagged?) && ph.watch != [] then ph.watch[1..]
    else []
  }

  /** A sender's watch entry still ahead is never for a suppressed create, and no transfer comes up twice. */
  ghost predicate WatchLive(h: Hub, s: Spoke) {
    && (forall i :: 0 <= i < |Ahead(s.phase)| && Ahead(s.phase)[i].role == Sender ==> !Skipped(h, Ahead(s.phase)[i].tid))
    && (forall i, j :: 0 <= i < j < |WatchOf(s.phase)| ==> WatchOf(s.phase)[i].tid != WatchOf(s.phase)[j].tid)
  }

  // ----- frames -----

  lemma QueueFrame(h: Hub, h': Hub, m: MemberId, q: seq<Entry>)
    requires TransfersGrow(h, h') && QueueOk(h, m, q)
    ensures QueueOk(h', m, q)
  {
  }

  lemma WatchFrame(h: Hub, h': Hub, m: MemberId, q: seq<Watched>)
    requires TransfersGrow(h, h') && WatchOk(h, m, q)
    ensures WatchOk(h', m, q)
  {
  }

  lemma PhaseFrame(h: Hub, h': Hub, m: MemberId, s: Spoke)
    requires TransfersGrow(h, h') && PhaseOk(h, m, s)
    ensures PhaseOk(h', m, s)
  {
    match s.phase
    case Idle =>
    case Pushed(src, t) =>
    case Inbox(q) => QueueFrame(h, h', m, q);
    case Firing(q, _) => QueueFrame(h, h', m, q);
    case Correlating(q, _) => QueueFrame(h, h', m, q);
    case Closed(q, u) => QueueFrame(h, h', m, q);
    case Echoed(q) => QueueFrame(h, h', m, q);
    case Failed(q) => QueueFrame(h, h', m, q);
    case Watching(q) => WatchFrame(h, h', m, q);
    case Reported(q, _) =>
      WatchFrame(h, h', m, q);
      assert WatchedOk(h, m, q[0]);
    case Retagged(q) => WatchFrame(h, h', m, q);
  }

  lemma SpokeFrame(h: Hub, h': Hub, m: MemberId, s: Spoke)
    requires TransfersGrow(h, h') && SpokeOk(h, m, s)
    ensures SpokeOk(h', m, s)
  {
    PhaseFrame(h, h', m, s);
    assert JournalOk(h', m, s.journal);
    forall u | u in s.sent ensures SentAs(h', m, u, s.sent[u]) {
      assert SentAs(h, m, u, s.sent[u]);
    }
  }

  // ----- the other members' calls -----

  /** A call by somebody else: nothing addressed to m is mapped, and no create of m's is suppressed. */
  ghost predicate Foreign(h: Hub, h': Hub, m: MemberId) {
    && TransfersGrow(h, h')
    && (forall t :: t in h'.transfers && h'.transfers[t].to == m && h'.transfers[t].dst.Some? ==>
          t in h.transfers && h.transfers[t].dst == h'.transfers[t].dst)
    && (forall t :: t in h.transfers && h.transfers[t].from == m && Skipped(h', t) ==> Skipped(h, t))
  }

  lemma ForeignKeeps(h: Hub, h': Hub, m: MemberId, s: Spoke)
    requires Foreign(h, h', m) && SpokeOk(h, m, s) && MappedOk(h, m, s.journal) && WatchLive(h, s)
    ensures SpokeOk(h', m, s) && MappedOk(h', m, s.journal) && WatchLive(h', s)
  {
    SpokeFrame(h, h', m, s);
    AheadOk(h, m, s);
    forall i | 0 <= i < |Ahead(s.phase)| && Ahead(s.phase)[i].role == Sender
      ensures !Skipped(h', Ahead(s.phase)[i].tid)
    {
      assert WatchedOk(h, m, Ahead(s.phase)[i]);
    }
  }

  lemma AheadOk(h: Hub, m: MemberId, s: Spoke)
    requires PhaseOk(h, m, s)
    ensures WatchOk(h, m, Ahead(s.phase))
  {
  }

  lemma PushForeign(h: Hub, p: Principal, to: string, src: Uuid, payload: Payload, rev: int, id: Tid, now: Time, m: MemberId)
    requires id !in h.transfers
    ensures Foreign(h, Push(h, p, to, src, payload, rev, id, now).hub, m)
  {
    PushGrows(h, p, to, src, payload, rev, id, now);
  }

  lemma LeaseForeign(h: Hub, p: Principal, order: seq<DKey>, limit: int, seconds: Time, now: Time, m: MemberId)
    requires IsListing(h, p.member, order)
    ensures Foreign(h, Lease(h, p, order, limit, seconds, now).hub, m)
  {
  }

  lemma NackForeign(h: Hub, p: Principal, k: DKey, m: MemberId)
    ensures Foreign(h, Nack(h, p, k).hub, m)
  {
  }

  lemma AckForeign(h: Hub, p: Principal, k: DKey, dst: Uuid, now: Time, m: MemberId)
    requires k in h.deliveries ==> DeliveryOk(h, k) && TransferOk(h, k.tid)
    requires m != p.member || k.kind != Create
    ensures Foreign(h, Ack(h, p, k, dst, now).hub, m)
  {
    AckGrows(h, p, k, dst, now);
  }

  /** Only the sender's own report can suppress a create. */
  lemma OnlySenderSkips(h: Hub, t: Tid, s: Terminal, reporter: MemberId, now: Time, u: Tid)
    requires t in h.transfers && u in h.transfers
    requires u == t ==> h.transfers[t].from != reporter && h.transfers[t].from != h.transfers[t].to
    ensures var h' := QueueEcho(Decided(h, t, s, reporter), t, s, now);
      Skipped(h', u) ==> Skipped(h, u)
  {
  }

  lemma DecideForeign(h: Hub, t: Tid, s: Terminal, reporter: MemberId, now: Time, m: MemberId)
    requires t in h.transfers && h.transfers[t].from != h.transfers[t].to && m != reporter
    requires TransfersGrow(h, QueueEcho(Decided(h, t, s, reporter), t, s, now))
    ensures Foreign(h, QueueEcho(Decided(h, t, s, reporter), t, s, now), m)
  {
    var h' := QueueEcho(Decided(h, t, s, reporter), t, s, now);
    forall u | u in h.transfers && h.transfers[u].from == m && Skipped(h', u) ensures Skipped(h, u) {
      OnlySenderSkips(h, t, s, reporter, now, u);
    }
  }

  lemma ObserveForeign(h: Hub, p: Principal, t: Tid, s: Terminal, now: Time, m: MemberId)
    requires HubInv(h)
    requires m != p.member
    ensures Foreign(h, Observe(h, p, t, s, now).hub, m)
  {
    ObserveGrows(h, p, t, s, now);
    ObserveIsDecide(h, p, t, s, now);
    if Party(h, p, t) && Decides(h, t, s) {
      assert TransferOk(h, t);
      DecideForeign(h, t, s, p.member, now, m);
    }
  }
}
