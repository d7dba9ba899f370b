/** The sent cache is only a cache: an outbound pass over any part of it leaves the same ledger. */
module SentCache {
  import opened Basics
  import opened HubSpec
  import opened HubInvariant
  import opened SpokeSpec
  import opened SpokeInvariant
  import opened SpokeSteps
  import opened System

  /** A candidate as the outbound pass pushes it; the id is what a new transfer would get. */
  datatype Outgoing = Outgoing(src: Uuid, handle: string, title: string, id: Tid, now: Time)

  function PushOne(h: Hub, p: Principal, c: Outgoing): Hub {
    Push(h, p, c.handle, c.src, Payload(c.title), 1, c.id, c.now).hub
  }

  /** The pass: every candidate not known to be sent is pushed. */
  function PushAll(h: Hub, p: Principal, cs: seq<Outgoing>, sent: set<Uuid>): Hub
    decreases |cs|
  {
    if cs == [] then h
    else PushAll(if cs[0].src in sent then h else PushOne(h, p, cs[0]), p, cs[1..], sent)
  }

  lemma {:induction false} PushAllSnoc(h: Hub, p: Principal, cs: seq<Outgoing>, c: Outgoing, sent: set<Uuid>)
    ensures PushAll(h, p, cs + [c], sent)
      == if c.src in sent then PushAll(h, p, cs, sent) else PushOne(PushAll(h, p, cs, sent), p, c)
    decreases |cs|
  {
    if cs == [] {
      assert PushAll(if c.src in sent then h else PushOne(h, p, c), p, [], sent)
        == if c.src in sent then h else PushOne(h, p, c);
    } else {
      assert (cs + [c])[1..] == cs[1..] + [c];
      PushAllSnoc(if cs[0].src in sent then h else PushOne(h, p, cs[0]), p, cs[1..], c, sent);
    }
  }

  /** What the cache remembers was pushed. */
  ghost predicate Truthful(h: Hub, p: Principal, sent: set<Uuid>) {
    forall u :: u in sent ==> PushKey(p.tenant, p.member, u, 1) in h.pushed
  }

  /** Whether the hub takes a push depends on the roster alone. */
  lemma AcceptanceStays(h: Hub, h': Hub, p: Principal, c: Outgoing)
    requires h'.roster == h.roster
    ensures Accepted(h', p, c) <==> Accepted(h, p, c)
  {
  }

  lemma PushOneRemembers(h: Hub, p: Principal, c: Outgoing, sent: set<Uuid>)
    requires Truthful(h, p, sent)
    ensures Truthful(PushOne(h, p, c), p, sent)
  {
  }

  /** Dropping any part of a truthful cache before the pass leaves the resulting ledger the same. */
  lemma {:induction false} CacheIsOnlyACache(h: Hub, p: Principal, cs: seq<Outgoing>, kept: set<Uuid>, sent: set<Uuid>)
    requires kept <= sent && Truthful(h, p, sent)
    ensures PushAll(h, p, cs, kept) == PushAll(h, p, cs, sent)
    decreases |cs|
  {
    if cs != [] {
      if cs[0].src in sent {
        assert PushOne(h, p, cs[0]) == h;
        CacheIsOnlyACache(h, p, cs[1..], kept, sent);
      } else {
        PushOneRemembers(h, p, cs[0], sent);
        CacheIsOnlyACache(PushOne(h, p, cs[0]), p, cs[1..], kept, sent);
      }
    }
  }

  lemma SentIsTruthful(h: Hub, p: Principal, s: Spoke)
    requires HubInv(h) && Authentic(h, p) && CachesOk(h, p.member, s)
    ensures Truthful(h, p, s.sent.Keys)
  {
  }

  /** In every reachable state the spoke's cache may be lost, wholly or in part, without the ledger ever showing it. */
  lemma LosingTheCacheIsInvisible(w: World, p: Principal, cs: seq<Outgoing>, kept: set<Uuid>)
    requires WorldOk(w) && p.member in w.spokes && Authentic(w.hub, p) && kept <= w.spokes[p.member].sent.Keys
    ensures PushAll(w.hub, p, cs, kept) == PushAll(w.hub, p, cs, w.spokes[p.member].sent.Keys)
  {
    assert MemberOk(w.hub, p.member, w.spokes[p.member]);
    SentIsTruthful(w.hub, p, w.spokes[p.member]);
    CacheIsOnlyACache(w.hub, p, cs, kept, w.spokes[p.member].sent.Keys);
  }

  // ----- what a pass goes through -----

  predicate IsCandidate(triggers: map<string, string>, view: Todos, u: Uuid) {
    exists tag :: tag in triggers && Candidate(view, u, tag)
  }

  ghost predicate IsOutgoing(triggers: map<string, string>, view: Todos, c: Outgoing) {
    && c.src in view && !Refused(view[c.src]) && c.title == view[c.src].title
    && exists tag :: tag in triggers && Candidate(view, c.src, tag) && triggers[tag] == c.handle
  }

  function Srcs(cs: seq<Outgoing>): set<Uuid> {
    set c | c in cs :: c.src
  }

  /** Each candidate not refused comes up once, unless it is still to come. */
  ghost predicate IsPass(triggers: map<string, string>, view: Todos, rest: set<Uuid>, cs: seq<Outgoing>) {
    && (forall i, j :: 0 <= i < j < |cs| ==> cs[i].src != cs[j].src)
    && (forall c :: c in cs ==> IsOutgoing(triggers, view, c) && c.src !in rest)
    && (forall u :: IsCandidate(triggers, view, u) && !Refused(view[u]) ==> u in rest || u in Srcs(cs))
  }

  predicate Accepted(h: Hub, p: Principal, c: Outgoing) {
    Push(h, p, c.handle, c.src, Payload(c.title), 1, c.id, c.now).result.Ok?
  }

  /** The cache keeps what it had and gains, of the candidates, those the hub accepts. */
  ghost predicate Remembered(h: Hub, p: Principal, cs: seq<Outgoing>, sent: map<Uuid, Tid>, sent': map<Uuid, Tid>, all: bool) {
    && (forall u :: u in sent ==> u in sent' && sent'[u] == sent[u])
    && (forall u :: u in sent' ==> u in sent || u in Srcs(cs))
    && (all ==> forall c :: c in cs && c.src !in sent ==> (c.src in sent' <==> Accepted(h, p, c)))
  }

  lemma SrcsSnoc(cs: seq<Outgoing>, c: Outgoing)
    ensures Srcs(cs + [c]) == Srcs(cs) + {c.src}
  {
  }

  lemma PassOneMore(triggers: map<string, string>, view: Todos, rest: set<Uuid>, cs: seq<Outgoing>, c: Outgoing)
    requires IsPass(triggers, view, rest, cs) && c.src in rest && IsOutgoing(triggers, view, c)
    ensures IsPass(triggers, view, rest - {c.src}, cs + [c])
  {
  }

  lemma RememberOneMore(
      h: Hub, p: Principal, cs: seq<Outgoing>, c: Outgoing, sent: map<Uuid, Tid>, was: map<Uuid, Tid>, now: map<Uuid, Tid>, all: bool)
    requires Remembered(h, p, cs, sent, was, all) && c.src !in Srcs(cs)
    requires if c.src in was then c.src in sent && now == was
             else (now == was || (c.src in now && now == was[c.src := now[c.src]])) && (all ==> (c.src in now <==> Accepted(h, p, c)))
    ensures Remembered(h, p, cs + [c], sent, now, all)
  {
    SrcsSnoc(cs, c);
    forall d | d in cs + [c] && d.src !in sent && all ensures d.src in now <==> Accepted(h, p, d) {
      if d in cs { assert d.src in Srcs(cs); }
    }
  }

  // ----- what a pass leaves behind -----

  predicate IsPushed(h: Hub, p: Principal, src: Uuid) {
    PushKey(p.tenant, p.member, src, 1) in h.pushed
  }

  lemma {:induction false} PushedStays(h: Hub, p: Principal, cs: seq<Outgoing>, sent: set<Uuid>, src: Uuid)
    requires IsPushed(h, p, src)
    ensures IsPushed(PushAll(h, p, cs, sent), p, src)
    decreases |cs|
  {
    if cs != [] { PushedStays(if cs[0].src in sent then h else PushOne(h, p, cs[0]), p, cs[1..], sent, src); }
  }

  /** After the pass, every candidate the hub accepts is pushed, whatever came before it. */
  lemma {:induction false} PassPushes(h: Hub, p: Principal, cs: seq<Outgoing>, sent: set<Uuid>, c: Outgoing)
    requires c in cs && c.src !in sent && Accepted(h, p, c)
    ensures IsPushed(PushAll(h, p, cs, sent), p, c.src)
    decreases |cs|
  {
    var h1 := if cs[0].src in sent then h else PushOne(h, p, cs[0]);
    if cs[0] == c {
      PushedStays(h1, p, cs[1..], sent, c.src);
    } else {
      AcceptanceStays(h, h1, p, c);
      PassPushes(h1, p, cs[1..], sent, c);
    }
  }
}
