/**
 * The tick as the program runs it: phases that loop, write and give up on an error. Each is proved
 * to be a path of the state machine, so the machine's theorems are about this code.
 */
module Tick {
  import opened Basics
  import opened HubSpec
  import opened HubInvariant
  import opened LedgerTables
  import opened SpokeSpec
  import opened SpokeInvariant
  import opened Accounts
  import opened SentCache
  import opened TickPaths
  import opened TickLaws

  // ----- what each phase does, from one idle state to the next -----

  /** The outbound pass over these candidates. */
  ghost predicate Passes(p: Principal, faults: bool, a: Local, cs: seq<Outgoing>, b: Local) {
    && IsPass(a.spoke.triggers, a.home.mirror, {}, cs)
    && (!faults ==> b.hub == PushAll(a.hub, p, cs, a.spoke.sent.Keys))
    && Remembered(a.hub, p, cs, a.spoke.sent, b.spoke.sent, !faults)
  }

  ghost predicate Sends(p: Principal, faults: bool, a: Local, b: Local) {
    exists cs :: Passes(p, faults, a, cs, b)
  }

  /** This poll, and then every entry it brought, applied or given back in order, without a rest. */
  ghost predicate Leases(p: Principal, faults: bool, a: Local, poll: Action, leased: Local, b: Local) {
    && poll.Poll? && Takes(p, faults, a, poll, leased)
    && if leased.spoke.phase.Inbox?
       then Works(p, faults, leased, b.(spoke := b.spoke.(phase := Inbox([]))))
       else b == leased
  }

  ghost predicate Receives(p: Principal, faults: bool, a: Local, b: Local) {
    || (b == a && (faults || !p.canReceive))
    || exists poll, leased :: Leases(p, faults, a, poll, leased, b)
  }

  /** This watchlist, and every entry of it looked at in order. */
  ghost predicate LooksAt(p: Principal, faults: bool, a: Local, q: seq<Watched>, b: Local) {
    var fetched := a.(spoke := a.spoke.(phase := Watching(q)));
    && Takes(p, faults, a, Watch(q), fetched)
    && Reaches(p, faults, fetched, b.(spoke := b.spoke.(phase := Watching([]))))
  }

  ghost predicate Observes(p: Principal, faults: bool, a: Local, b: Local) {
    || (b == a && faults)
    || exists q :: LooksAt(p, faults, a, q, b)
  }

  lemma ObserveMovesOne(h: Hub, p: Principal, t: Tid, s: Terminal, now: Time)
    ensures var r := HubSpec.Observe(h, p, t, s, now);
      && (forall u :: u in h.transfers && u != t ==> u in r.hub.transfers && r.hub.transfers[u] == h.transfers[u])
      && (Party(h, p, t) && h.transfers[t].terminal.None? ==>
            r.result.Ok? && t in r.hub.transfers && r.hub.transfers[t].terminal == Some(s))
  {
    ObserveIsDecide(h, p, t, s, now);
  }

  /** A transfer of the member's that nobody has reported. */
  predicate Watchable(h: Hub, p: Principal, t: Tid) {
    Party(h, p, t) && h.transfers[t].terminal.None?
  }

  lemma StartsUntried(l: Local, p: Principal, q: seq<Watched>)
    requires IsWatchlist(l.hub, p, q)
    ensures HandledTo(l, l, q, 0)
  {
    forall j | 0 <= j < |q| ensures Untried(l, l, q[j]) {
      assert q[j] in q;
    }
  }

  lemma NextIsWatchable(was: Local, l: Local, p: Principal, q: seq<Watched>, i: nat)
    requires IsWatchlist(was.hub, p, q) && HandledTo(was, l, q, i) && i < |q|
    ensures Watchable(l.hub, p, q[i].tid)
  {
    assert q[i] in q && Untried(was, l, q[i]);
  }

  class SpokeState {
    const triggers: map<string, string>
    var sent: map<Uuid, Tid>
    var journal: Journal
    var retagged: set<Tid>
    var observed: map<Tid, Terminal>
    ghost var fired: seq<DKey>

    ghost function S(phase: Phase): Spoke
      reads this
    {
      Spoke(triggers, sent, journal, retagged, observed, phase, fired)
    }

    constructor (triggers: map<string, string>)
      ensures this.triggers == triggers
      ensures sent == map[] && journal == map[] && retagged == {} && observed == map[] && fired == []
    {
      this.triggers := triggers;
      sent, journal, retagged, observed, fired := map[], map[], {}, map[], [];
    }

    predicate KnownSent(src: Uuid)
      reads this
    {
      src in sent
    }

    method MarkSent(src: Uuid, t: Tid)
      modifies this`sent
      ensures sent == old(sent)[src := t]
    {
      sent := sent[src := t];
    }

    method JournalIntent(k: DKey, title: string, provenance: string, firedAt: Time)
      modifies this`journal
      ensures journal == old(journal)[k := Intent(title, provenance, firedAt, None)]
    {
      journal := journal[k := Intent(title, provenance, firedAt, None)];
    }

    method JournalClose(k: DKey, dst: Uuid)
      modifies this`journal
      ensures journal == if k in old(journal) then old(journal)[k := old(journal)[k].(dst := Some(dst))] else old(journal)
    {
      if k in journal { journal := journal[k := journal[k].(dst := Some(dst))]; }
    }

    method MarkRetagged(t: Tid)
      modifies this`retagged
      ensures retagged == old(retagged) + {t}
    {
      retagged := retagged + {t};
    }

    method MarkObserved(t: Tid, state: Terminal)
      modifies this`observed
      ensures observed == old(observed)[t := state]
    {
      observed := observed[t := state];
    }
  }

  class SpokeCore {
    const p: Principal
    const hub: Ledger
    const state: SpokeState
    const things: Account

    constructor (p: Principal, hub: Ledger, state: SpokeState, things: Account)
      ensures this.p == p && this.hub == hub && this.state == state && this.things == things
    {
      this.p, this.hub, this.state, this.things := p, hub, state, things;
    }

    /** Where the tick is. */
    ghost function At(phase: Phase): Local
      reads this, hub, state, things
    {
      Local(hub.H(), state.S(phase), things.Here())
    }

    // ----- inbound -----

    /**
     * Bounded search for the head's todo, refreshing the mirror before each look. With no fault a
     * miss means the account itself holds no match.
     */
    method Correlate(q: seq<Entry>, since: Time, faults: bool) returns (found: Option<Uuid>)
      requires HeadIsCreate(q) && q[0].key in state.journal
      modifies things`mirror
      ensures Works(p, faults, old(At(Correlating(q, since))), At(Correlating(q, since)))
      ensures found.Some? ==> CanFind(At(Correlating(q, since)), found.value)
      ensures found.None? && !faults ==>
        things.mirror == things.todos && NoAnswer(At(Correlating(q, since)))
    {
      ghost var start := At(Correlating(q, since));
      Holds(p, faults, start);
      var exclude := JournaledDsts(state.journal);
      var left: int := *;
      var timeout := false;
      found := None;
      while !timeout && found.None?
        invariant Works(p, faults, start, At(Correlating(q, since)))
        invariant found.Some? ==> CanFind(At(Correlating(q, since)), found.value)
        invariant timeout && !faults ==> things.mirror == things.todos && NoAnswer(At(Correlating(q, since)))
        decreases !timeout && found.None?, left
      {
        ghost var before := At(Correlating(q, since));
        things.Refresh(faults);
        WorkOn(p, faults, start, before, At(Correlating(q, since)));
        found := Look(q, since, exclude);
        timeout := found.None? && left <= 0;
        left := left - 1;
      }
    }

    /** One look: an answer without a uuid is no answer. */
    method Look(q: seq<Entry>, since: Time, exclude: set<Uuid>) returns (found: Option<Uuid>)
      requires HeadIsCreate(q) && q[0].key in state.journal && exclude == JournaledDsts(state.journal)
      ensures found.Some? ==> CanFind(At(Correlating(q, since)), found.value)
      ensures found.None? ==> NoAnswer(At(Correlating(q, since)))
    {
      var title, after, provenance := q[0].payload.title, since - CLOCK_SKEW, q[0].provenance;
      var rows := things.Rows(title, after, provenance);
      SearchIsEarliest(things.mirror, title, after, provenance, rows, exclude);
      found := FirstFresh(rows, exclude);
      if found == Some("") { found := None; }
    }

    /** Acking the head, from Closed or Echoed: the request may not arrive, and the answer may not be heard. */
    method AckHeadOf(q: seq<Entry>, closed: Phase, dst: Uuid, faults: bool) returns (ok: bool)
      requires (closed == Closed(q, dst) || (closed == Echoed(q) && dst == "")) && q != []
      modifies hub
      ensures Works(p, faults, old(At(closed)), At(if ok then Inbox(q[1..]) else Failed(q)))
    {
      ghost var start := At(closed);
      Holds(p, faults, start);
      var arrives: bool := *;
      if faults && !arrives {
        TakesFail(p, faults, start);
        WorkStep(p, faults, start, start, Fail, At(Failed(q)));
        return false;
      }
      var now: Time := *;
      var heard: bool := *;
      heard := heard || !faults;
      var r := hub.AckDelivery(p, q[0].key, dst, now);
      ok := heard && r.Ok?;
      TakesAck(p, faults, start, now, heard);
      WorkStep(p, faults, start, start, AckHead(now, heard), At(if ok then Inbox(q[1..]) else Failed(q)));
    }

    /** Journal the intent, then write; a journaled delivery is never written again. */
    method ApplyCreate(q: seq<Entry>, faults: bool) returns (ok: bool)
      requires HeadIsCreate(q)
      modifies hub, state, things
      ensures Works(p, faults, old(At(Inbox(q))), At(if ok then Inbox(q[1..]) else Failed(q)))
    {
      ghost var start := At(Inbox(q));
      var d := q[0];
      var since: Time := *;
      if d.key !in state.journal {
        var wrote := Write(q, since, faults);
        if !wrote { return false; }
      } else {
        var row := state.journal[d.key];
        TakesResume(p, faults, start);
        Holds(p, faults, start);
        if row.dst.Some? {
          WorkStep(p, faults, start, start, Resume, At(Closed(q, row.dst.value)));
          ghost var closed := At(Closed(q, row.dst.value));
          ok := AckHeadOf(q, Closed(q, row.dst.value), row.dst.value, faults);
          WorkJoined(p, faults, start, closed, At(if ok then Inbox(q[1..]) else Failed(q)));
          return;
        }
        since := row.firedAt;
        WorkStep(p, faults, start, start, Resume, At(Correlating(q, since)));
      }
      ghost var searching := At(Correlating(q, since));
      ok := Finish(q, since, faults);
      WorkJoined(p, faults, start, searching, At(if ok then Inbox(q[1..]) else Failed(q)));
    }

    /** The first attempt at a create: the row is committed before the write is fired. */
    method Write(q: seq<Entry>, since: Time, faults: bool) returns (wrote: bool)
      requires HeadIsCreate(q) && q[0].key !in state.journal
      modifies state, things
      ensures Works(p, faults, old(At(Inbox(q))), At(if wrote then Correlating(q, since) else Failed(q)))
      ensures q[0].key in state.journal && (!faults ==> wrote)
    {
      ghost var start := At(Inbox(q));
      var firedAt: Time := *;
      if firedAt < since { firedAt := since; }
      state.JournalIntent(q[0].key, q[0].payload.title, q[0].provenance, firedAt);
      ghost var journaled := At(Firing(q, since));
      TakesIntend(p, faults, start, since, firedAt);
      Holds(p, faults, start);
      WorkStep(p, faults, start, start, Intend(since, firedAt), journaled);
      var fires: bool := *;
      if faults && !fires {
        TakesFail(p, faults, journaled);
        WorkStep(p, faults, start, journaled, Fail, At(Failed(q)));
        return false;
      }
      var uuid := things.FreshUuid();
      var created := things.Stamp(firedAt - CLOCK_SKEW, faults);
      things.Create(uuid, NewTodo(q[0], created));
      state.fired := state.fired + [q[0].key];
      ghost var written := At(Correlating(q, since));
      TakesFire(p, faults, journaled, uuid, created);
      WorkStep(p, faults, start, journaled, Fire(uuid, created), written);
      var raises: bool := *;
      wrote := !faults || !raises;
      if !wrote {
        TakesFail(p, faults, written);
        WorkStep(p, faults, start, written, Fail, At(Failed(q)));
      }
    }

    /** Find the todo, close the row, ack. */
    method Finish(q: seq<Entry>, since: Time, faults: bool) returns (ok: bool)
      requires HeadIsCreate(q) && q[0].key in state.journal
      modifies hub, state, things
      ensures Works(p, faults, old(At(Correlating(q, since))), At(if ok then Inbox(q[1..]) else Failed(q)))
    {
      ghost var start := At(Correlating(q, since));
      var found := Correlate(q, since, faults);
      ghost var looked := At(Correlating(q, since));
      if found.None? {
        TakesFail(p, faults, looked);
        WorkStep(p, faults, start, looked, Fail, At(Failed(q)));
        return false;
      }
      state.JournalClose(q[0].key, found.value);
      ghost var closed := At(Closed(q, found.value));
      TakesFind(p, faults, looked, found.value);
      WorkStep(p, faults, start, looked, Find(found.value), closed);
      ok := AckHeadOf(q, Closed(q, found.value), found.value, faults);
      WorkJoined(p, faults, start, closed, At(if ok then Inbox(q[1..]) else Failed(q)));
    }

    /** A terminal echo completes the member's copy, whatever its kind. */
    method ApplyTerminal(q: seq<Entry>, faults: bool) returns (ok: bool)
      requires q != [] && q[0].EchoEntry?
      modifies hub, things
      ensures Works(p, faults, old(At(Inbox(q))), At(if ok then Inbox(q[1..]) else Failed(q)))
    {
      ghost var start := At(Inbox(q));
      var landed, verified := things.SetTerminal(q[0].uuid, Completed, faults);
      ghost var written := At(if verified then Echoed(q) else Failed(q));
      TakesWrite(p, faults, start, landed, verified);
      Holds(p, faults, start);
      WorkStep(p, faults, start, start, WriteTerminal(landed, verified), written);
      if !verified { return false; }
      ok := AckHeadOf(q, Echoed(q), "", faults);
      WorkJoined(p, faults, start, written, At(if ok then Inbox(q[1..]) else Failed(q)));
    }

    /** A failed entry is given back, if the request gets through; otherwise its lease will lapse. */
    method GiveBack(q: seq<Entry>, faults: bool)
      requires q != []
      modifies hub
      ensures Works(p, faults, old(At(Failed(q))), At(Inbox(q[1..])))
    {
      ghost var start := At(Failed(q));
      var arrives: bool := *;
      arrives := arrives || !faults;
      if arrives { var _ := hub.NackDelivery(p, q[0].key); }
      TakesNack(p, faults, start, arrives);
      Holds(p, faults, start);
      WorkStep(p, faults, start, start, NackHead(arrives), At(Inbox(q[1..])));
    }

    /** One leased entry, applied or given back. */
    method ApplyOne(q: seq<Entry>, faults: bool)
      requires q != []
      modifies hub, state, things
      ensures Works(p, faults, old(At(Inbox(q))), At(Inbox(q[1..])))
    {
      ghost var start := At(Inbox(q));
      var ok: bool;
      if q[0].CreateEntry? { ok := ApplyCreate(q, faults); } else { ok := ApplyTerminal(q, faults); }
      if !ok {
        ghost var failed := At(Failed(q));
        GiveBack(q, faults);
        WorkJoined(p, faults, start, failed, At(Inbox(q[1..])));
      }
    }

    /** Lease a batch and go through it one entry at a time. */
    method LeaseAndApply(faults: bool) returns (ghost poll: Option<Action>, ghost leased: Local)
      modifies hub, state, things
      ensures poll.None? ==> (faults || !p.canReceive) && At(Idle) == old(At(Idle))
      ensures poll.Some? ==>
        && poll.value.Poll? && Takes(p, faults, old(At(Idle)), poll.value, leased)
        && if leased.spoke.phase.Inbox? then Works(p, faults, leased, At(Inbox([]))) else At(Idle) == leased
    {
      ghost var start := At(Idle);
      var arrives: bool := *;
      leased := start;
      if (faults && !arrives) || !p.canReceive { return None, start; }
      var seconds: Time := *;
      var now: Time := *;
      var heard: bool := *;
      heard := heard || !faults;
      var r, order := hub.LeaseDeliveries(p, POLL_LIMIT, seconds, now);
      poll := Some(Poll(order, seconds, now, heard));
      TakesPoll(p, faults, start, order, seconds, now, heard);
      leased := At(Idle);
      if !heard || r.Err? { return; }
      var deliveries := r.value;
      leased := At(Inbox(deliveries));
      ApplyAll(deliveries, faults);
    }

    /** The entries of a batch, in order. */
    method ApplyAll(deliveries: seq<Entry>, faults: bool)
      modifies hub, state, things
      ensures Works(p, faults, old(At(Inbox(deliveries))), At(Inbox([])))
    {
      ghost var leased := At(Inbox(deliveries));
      Holds(p, faults, leased);
      var i := 0;
      while i < |deliveries|
        invariant 0 <= i <= |deliveries|
        invariant Works(p, faults, leased, At(Inbox(deliveries[i..])))
      {
        ghost var before := At(Inbox(deliveries[i..]));
        ApplyOne(deliveries[i..], faults);
        assert deliveries[i..][1..] == deliveries[i + 1..];
        WorkJoined(p, faults, leased, before, At(Inbox(deliveries[i + 1..])));
        i := i + 1;
      }
      assert deliveries[i..] == [];
    }

    // ----- outbound -----

    /** Push one candidate; a failed request, a refusal by the hub or a lost response leaves it for the next tick. */
    method PushOut(src: Uuid, tag: string, faults: bool) returns (ghost c: Outgoing)
      requires tag in state.triggers && Candidate(things.mirror, src, tag) && src !in state.sent && !Refused(things.mirror[src])
      modifies hub, state`sent
      ensures Reaches(p, faults, old(At(Idle)), At(Idle))
      ensures c.src == src && c.handle == state.triggers[tag] && c.title == things.mirror[src].title
      ensures !faults ==> hub.H() == PushOne(old(hub.H()), p, c)
      ensures state.sent == old(state.sent) || (src in state.sent && state.sent == old(state.sent)[src := state.sent[src]])
      ensures !faults ==> (src in state.sent <==> Accepted(old(hub.H()), p, c))
    {
      ghost var start := At(Idle);
      Stays(p, faults, start);
      var id := hub.NewId();
      var now: Time := *;
      c := Outgoing(src, state.triggers[tag], things.mirror[src].title, id, now);
      var arrives: bool := *;
      if faults && !arrives { return; }
      var heard: bool := *;
      heard := heard || !faults;
      var r := hub.PushTransfer(p, state.triggers[tag], src, Payload(things.mirror[src].title), 1, id, now);
      TakesSend(p, faults, start, src, tag, id, now, heard);
      if !heard || r.Err? {
        TookStep(p, faults, start, start, Send(src, tag, id, now, heard), At(Idle));
        return;
      }
      ghost var pushed := At(Pushed(src, r.value.id));
      TookStep(p, faults, start, start, Send(src, tag, id, now, heard), pushed);
      state.MarkSent(src, r.value.id);
      TakesMarkSent(p, faults, pushed);
      TookStep(p, faults, start, pushed, MarkSent, At(Idle));
    }

    /** One candidate of a pass: known, or pushed now. */
    method Offer(src: Uuid, tag: string, faults: bool) returns (ghost c: Outgoing)
      requires tag in state.triggers && Candidate(things.mirror, src, tag) && !Refused(things.mirror[src])
      modifies hub, state`sent
      ensures Reaches(p, faults, old(At(Idle)), At(Idle))
      ensures c.src == src && IsOutgoing(state.triggers, things.mirror, c)
      ensures src in old(state.sent) ==> state.sent == old(state.sent)
      ensures state.sent == old(state.sent) || (src in state.sent && state.sent == old(state.sent)[src := state.sent[src]])
      ensures !faults && src !in old(state.sent) ==>
        hub.H() == PushOne(old(hub.H()), p, c) && (src in state.sent <==> Accepted(old(hub.H()), p, c))
      ensures src in old(state.sent) ==> hub.H() == old(hub.H())
    {
      c := Outgoing(src, state.triggers[tag], things.mirror[src].title, 0, 0.0);
      Stays(p, faults, At(Idle));
      if !state.KnownSent(src) { c := PushOut(src, tag, faults); }
    }

    /**
     * Push every candidate not known to be sent. Without faults the ledger afterwards is the pass
     * over the candidates, and exactly those the hub accepts are remembered as sent.
     */
    method Outbound(faults: bool) returns (ghost cs: seq<Outgoing>)
      modifies hub, state`sent
      ensures Reaches(p, faults, old(At(Idle)), At(Idle))
      ensures IsPass(state.triggers, things.mirror, {}, cs)
      ensures !faults ==> hub.H() == PushAll(old(hub.H()), p, cs, old(state.sent.Keys))
      ensures Remembered(old(hub.H()), p, cs, old(state.sent), state.sent, !faults)
    {
      ghost var start, h, sent := At(Idle), hub.H(), state.sent;
      Stays(p, faults, start);
      if state.triggers.Keys == {} { return []; }
      var rest := set u | u in things.mirror && IsCandidate(state.triggers, things.mirror, u);
      cs := [];
      while rest != {}
        invariant Reaches(p, faults, start, At(Idle))
        invariant IsPass(state.triggers, things.mirror, rest, cs)
        invariant forall u :: u in rest ==> u in things.mirror && IsCandidate(state.triggers, things.mirror, u)
        invariant !faults ==> hub.H() == PushAll(h, p, cs, sent.Keys)
        invariant Remembered(h, p, cs, sent, state.sent, !faults)
        decreases |rest|
      {
        var src :| src in rest;
        if !Refused(things.mirror[src]) {
          var tag :| tag in state.triggers && Candidate(things.mirror, src, tag);
          ghost var before, h1, was := At(Idle), hub.H(), state.sent;
          ghost var c := Offer(src, tag, faults);
          Joined(p, faults, start, before, At(Idle));
          Offered(h, h1, hub.H(), rest, cs, c, sent, was, faults);
          cs := cs + [c];
        }
        rest := rest - {src};
      }
    }

    /** What one offer adds to the pass. */
    lemma Offered(h: Hub, h1: Hub, h2: Hub, rest: set<Uuid>, cs: seq<Outgoing>, c: Outgoing,
                  sent: map<Uuid, Tid>, was: map<Uuid, Tid>, faults: bool)
      requires IsPass(state.triggers, things.mirror, rest, cs) && c.src in rest && IsOutgoing(state.triggers, things.mirror, c)
      requires Remembered(h, p, cs, sent, was, !faults) && h1.roster == h.roster
      requires c.src in was ==> state.sent == was && h2 == h1
      requires state.sent == was || (c.src in state.sent && state.sent == was[c.src := state.sent[c.src]])
      requires !faults ==> h1 == PushAll(h, p, cs, sent.Keys)
      requires !faults && c.src !in was ==> h2 == PushOne(h1, p, c) && (c.src in state.sent <==> Accepted(h1, p, c))
      ensures IsPass(state.triggers, things.mirror, rest - {c.src}, cs + [c])
      ensures !faults ==> h2 == PushAll(h, p, cs + [c], sent.Keys)
      ensures Remembered(h, p, cs + [c], sent, state.sent, !faults)
    {
      PassOneMore(state.triggers, things.mirror, rest, cs, c);
      PushAllSnoc(h, p, cs, c, sent.Keys);
      AcceptanceStays(h, h1, p, c);
      forall d | d in cs ensures d.src != c.src {
      }
      RememberOneMore(h, p, cs, c, sent, was, state.sent, !faults);
    }

    // ----- observe and retag -----

    /** Tag and complete the sender's copy in one write; only a verified write is marked. */
    method RetagSenderCopy(q: seq<Watched>, faults: bool)
      requires q != [] && WantsRetag(state.S(Watching(q)), things.mirror, q[0])
      modifies state`retagged, things`todos
      ensures Reaches(p, faults, old(At(Watching(q))), At(Watching(q[1..])))
      ensures OthersUntried(old(At(Idle)), At(Idle), q[0])
      ensures !faults && q[0].uuid in old(things.todos) ==>
        && q[0].tid in state.retagged
        && q[0].uuid in things.todos && things.todos[q[0].uuid].status == Ended(Completed)
    {
      ghost var start := At(Watching(q));
      Stays(p, faults, start);
      var w := q[0];
      var current := things.mirror[w.uuid].tags;
      var tags := (set t | t in current && t !in state.triggers) + {DELEGATED_TAG};
      assert tags == RetagTags(start.spoke, current);
      var landed, verified, kept := things.SetTagsAndTerminal(w.uuid, tags, Completed, faults);
      TakesRetag(p, faults, start, landed, verified, kept);
      ghost var written := At(if verified then Retagged(q) else Watching(q[1..]));
      TookStep(p, faults, start, start, Retag(landed, verified, kept), written);
      if !verified { return; }
      state.MarkRetagged(w.tid);
      TakesMarkRetagged(p, faults, written);
      TookStep(p, faults, start, written, MarkRetagged, At(Watching(q[1..])));
    }

    /** Report the head's terminal state; it is remembered only once the hub has answered. */
    method ReportState(q: seq<Watched>, terminal: Terminal, faults: bool)
      requires q != [] && News(state.S(Watching(q)), things.mirror, q[0]) == Some(terminal)
      modifies hub, state`observed
      ensures Reaches(p, faults, old(At(Watching(q))), At(Watching(q[1..])))
      ensures OthersUntried(old(At(Idle)), At(Idle), q[0])
      ensures !faults && old(Watchable(hub.H(), p, q[0].tid)) ==>
        && q[0].tid in hub.transfers && hub.transfers[q[0].tid].terminal == Some(terminal)
        && q[0].tid in state.observed && state.observed[q[0].tid] == terminal
    {
      ghost var start := At(Watching(q));
      Stays(p, faults, start);
      var arrives: bool := *;
      if faults && !arrives {
        TakesPass(p, faults, start);
        TookStep(p, faults, start, start, Pass, At(Watching(q[1..])));
        return;
      }
      var now: Time := *;
      var heard: bool := *;
      heard := heard || !faults;
      var r := hub.Observe(p, q[0].tid, terminal, now);
      ObserveMovesOne(start.hub, p, q[0].tid, terminal, now);
      TakesReport(p, faults, start, now, heard);
      ghost var answered := At(if heard && r.Ok? then Reported(q, terminal) else Watching(q[1..]));
      TookStep(p, faults, start, start, SpokeSpec.Report(now, heard), answered);
      if heard && r.Ok? {
        state.MarkObserved(q[0].tid, terminal);
        TakesMarkReported(p, faults, answered);
        TookStep(p, faults, start, answered, MarkReported, At(Watching(q[1..])));
      }
    }

    /** One watch entry: skip our own doing, report what is new, retag what was handed over. */
    method LookAt(q: seq<Watched>, faults: bool)
      requires q != []
      modifies hub, state, things`todos
      ensures Reaches(p, faults, old(At(Watching(q))), At(Watching(q[1..])))
      ensures OthersUntried(old(At(Idle)), At(Idle), q[0])
      ensures !faults && old(Watchable(hub.H(), p, q[0].tid)) ==> Handled(old(At(Idle)), At(Idle), q[0])
    {
      var w := q[0];
      ReadsAsShown(At(Idle), w);
      if !(w.role == Sender && w.tid in state.retagged) && w.uuid in things.mirror {
        var terminal := TerminalOf(things.mirror[w.uuid]);
        if terminal.Some? && !(w.tid in state.observed && state.observed[w.tid] == terminal.value) {
          ReportState(q, terminal.value, faults);
          return;
        }
        if w.role == Sender && w.applied {
          RetagSenderCopy(q, faults);
          return;
        }
      }
      ghost var start := At(Watching(q));
      Stays(p, faults, start);
      TakesPass(p, faults, start);
      TookStep(p, faults, start, start, Pass, At(Watching(q[1..])));
    }

    method WatchAndLook(faults: bool) returns (ghost watch: Option<seq<Watched>>)
      modifies hub, state, things`todos
      ensures watch.None? ==> faults && At(Idle) == old(At(Idle))
      ensures watch.Some? ==>
        && Takes(p, faults, old(At(Idle)), Watch(watch.value), old(At(Watching(watch.value))))
        && Reaches(p, faults, old(At(Watching(watch.value))), At(Watching([])))
        && (!faults ==> forall w :: w in watch.value ==> Handled(old(At(Idle)), At(Idle), w))
    {
      var heard: bool := *;
      if faults && !heard { return None; }
      var q := hub.Watchlist(p);
      watch := Some(q);
      TakesWatch(p, faults, At(Idle), q);
      LookAtAll(q, faults);
    }

    /** The entries of a watchlist, in order. */
    method LookAtAll(q: seq<Watched>, faults: bool)
      requires IsWatchlist(hub.H(), p, q)
      modifies hub, state, things`todos
      ensures Reaches(p, faults, old(At(Watching(q))), At(Watching([])))
      ensures !faults ==> forall w :: w in q ==> Handled(old(At(Idle)), At(Idle), w)
    {
      ghost var idle, start := At(Idle), At(Watching(q));
      StartsUntried(idle, p, q);
      Stays(p, faults, start);
      var i := 0;
      while i < |q|
        invariant 0 <= i <= |q|
        invariant Reaches(p, faults, start, At(Watching(q[i..])))
        invariant !faults ==> HandledTo(idle, At(Idle), q, i)
      {
        ghost var before, was := At(Watching(q[i..])), At(Idle);
        if !faults { NextIsWatchable(idle, was, p, q, i); }
        LookAt(q[i..], faults);
        if !faults { OneMoreHandled(idle, was, At(Idle), q, i); }
        assert q[i..][1..] == q[i + 1..];
        Joined(p, faults, start, before, At(Watching(q[i + 1..])));
        i := i + 1;
      }
      assert q[i..] == [];
    }

    // ----- the phases of a tick -----

    method Inbound(faults: bool)
      modifies hub, state, things
      ensures Receives(p, faults, old(At(Idle)), At(Idle)) && Reaches(p, faults, old(At(Idle)), At(Idle))
    {
      ghost var start := At(Idle);
      Stays(p, faults, start);
      ghost var poll, leased := LeaseAndApply(faults);
      if poll.Some? {
        assert Leases(p, faults, start, poll.value, leased, At(Idle));
        TookStep(p, faults, start, start, poll.value, leased);
        if leased.spoke.phase.Inbox? {
          ghost var done := At(Inbox([]));
          WorkReaches(p, faults, leased, done);
          Joined(p, faults, start, leased, done);
          TakesFinish(p, faults, done);
          TookStep(p, faults, start, done, SpokeSpec.Finish, At(Idle));
        }
      }
    }

    /**
     * Without faults, each entry of the member's watchlist that had something to report is reported in
     * the state its todo showed, and each handover to be retagged is retagged and marked.
     */
    method ObserveAndRetag(faults: bool)
      modifies hub, state, things`todos
      ensures Observes(p, faults, old(At(Idle)), At(Idle)) && Reaches(p, faults, old(At(Idle)), At(Idle))
      ensures !faults ==>
        exists q :: IsWatchlist(old(hub.H()), p, q) && forall w :: w in q ==> Handled(old(At(Idle)), At(Idle), w)
    {
      ghost var start := At(Idle);
      Stays(p, faults, start);
      ghost var watch := WatchAndLook(faults);
      if watch.Some? {
        ghost var fetched := old(At(Watching(watch.value)));
        assert LooksAt(p, faults, start, watch.value, At(Idle));
        TookStep(p, faults, start, start, Watch(watch.value), fetched);
        ghost var done := At(Watching([]));
        Joined(p, faults, start, fetched, done);
        TakesFinish(p, faults, done);
        TookStep(p, faults, start, done, SpokeSpec.Finish, At(Idle));
      }
    }

    /** One serialized pass over all the phases, in order: refresh, push, receive, observe. */
    method Tick(faults: bool) returns (ghost refreshed: Local, ghost pushed: Local, ghost applied: Local)
      modifies hub, state, things
      ensures Refreshes(faults, old(At(Idle)), refreshed)
      ensures Sends(p, faults, refreshed, pushed)
      ensures Receives(p, faults, pushed, applied)
      ensures Observes(p, faults, applied, At(Idle))
      ensures Reaches(p, faults, old(At(Idle)), At(Idle))
    {
      ghost var start := At(Idle);
      Stays(p, faults, start);
      things.Refresh(faults);
      refreshed := At(Idle);
      Onward(p, faults, start, start, refreshed);
      ghost var cs := Outbound(faults);
      pushed := At(Idle);
      assert Passes(p, faults, refreshed, cs, pushed);
      Joined(p, faults, start, refreshed, pushed);
      Inbound(faults);
      applied := At(Idle);
      Joined(p, faults, start, pushed, applied);
      ObserveAndRetag(faults);
      Joined(p, faults, start, applied, At(Idle));
    }
  }
}
