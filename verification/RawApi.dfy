/** Two runs of the bare API, from an empty ledger, that the spokes' discipline rules out. */
module RawApi {
  import opened Basics
  import opened HubSpec
  import opened HubInvariant
  import opened HubHistory
  import opened HubEchoes

  const ALICE: MemberId := 1
  const BOB: MemberId := 2

  function Pair(): Roster {
    Roster(map[ALICE := Member(0, "alice", true, true), BOB := Member(0, "bob", true, true)],
           map[Address(0, "alice") := ALICE, Address(0, "bob") := BOB])
  }

  function Caller(m: MemberId): Principal {
    Principal(0, m, m, true, true)
  }

  const EMPTY := EmptyHub(Pair())
  const CREATE := DKey(7, Create, BOB)

  const SEND := CallPush(Caller(ALICE), "bob", "src", Payload("title"), 1, 7, 0.0)
  const SENT := Do(EMPTY, SEND)
  const FRESH := Transfer(0, ALICE, BOB, "src", 1, Payload("title"), None, None, None, false)

  lemma WhenSent()
    ensures SENT.transfers == map[7 := FRESH] && SENT.deliveries == map[CREATE := Delivery(Queued, 0, 0.0)]
    ensures SENT.roster == Pair() && HubInv(EMPTY) && HubInv(SENT) && Legal(EMPTY, SEND)
  {
    EmptyInv(Pair());
    DoKeepsInv(EMPTY, SEND);
  }

  lemma RunOneMore(states: seq<Hub>, calls: seq<Call>, c: Call, h: Hub)
    requires Run(states, calls) && Legal(states[|calls|], c) && h == Do(states[|calls|], c)
    ensures Run(states + [h], calls + [c])
  {
  }

  // ----- a suppressed create revived -----

  const REVOKE := CallObserve(Caller(ALICE), 7, Canceled, 1.0)
  const REVOKED := Do(SENT, REVOKE)
  const UPGRADE := CallObserve(Caller(ALICE), 7, Completed, 2.0)
  const REVIVED := Do(REVOKED, UPGRADE)

  lemma WhenRevoked()
    ensures REVOKED.transfers == map[7 := FRESH.(terminal := Some(Canceled), terminalBy := Some(ALICE), resolved := true)]
    ensures REVOKED.deliveries == map[CREATE := Delivery(Done, 0, 0.0)] && REVOKED.roster == Pair() && Legal(SENT, REVOKE)
  {
    WhenSent();
  }

  /**
   * A sender who cancels before the recipient polls and then completes: the create is suppressed,
   * and the upgrade queues an echo for a todo the recipient will never have.
   */
  lemma SenderRevivesSuppressedCreate()
    ensures Run([EMPTY] + [SENT] + [REVOKED] + [REVIVED], [] + [SEND] + [REVOKE] + [UPGRADE])
    ensures 7 in REVOKED.transfers && Suppressed(REVOKED, 7)
    ensures DKey(7, Complete, BOB) in REVIVED.deliveries && REVIVED.deliveries[DKey(7, Complete, BOB)].progress == Queued
    ensures 7 in REVIVED.transfers && !Accounted(REVIVED, 7) && Skipped(REVIVED, 7)
  {
    WhenSent();
    WhenRevoked();
    RunOneMore([EMPTY], [], SEND, SENT);
    RunOneMore([EMPTY] + [SENT], [] + [SEND], REVOKE, REVOKED);
    RunOneMore([EMPTY] + [SENT] + [REVOKED], [] + [SEND] + [REVOKE], UPGRADE, REVIVED);
  }

  // ----- a report before the ack -----

  const POLL := CallLease(Caller(BOB), [CREATE], 10, 60.0, 1.0)
  const POLLED := Do(SENT, POLL)
  const REPORT := CallObserve(Caller(BOB), 7, Canceled, 2.0)
  const REPORTED := Do(POLLED, REPORT)
  const ACK := CallAck(Caller(BOB), CREATE, "dst", 3.0)
  const ACKED := Do(REPORTED, ACK)

  lemma BobsListing()
    ensures IsListing(SENT, BOB, [CREATE]) && Handed(SENT, [CREATE], 10, 1.0) == [CREATE]
  {
    WhenSent();
    assert Eligible(SENT, [CREATE], 1.0) == [CREATE];
  }

  lemma WhenPolled()
    ensures POLLED.transfers == map[7 := FRESH] && POLLED.deliveries == map[CREATE := Delivery(Leased(BOB, 61.0), 1, 0.0)]
    ensures POLLED.roster == Pair() && Legal(SENT, POLL)
  {
    WhenSent();
    BobsListing();
  }

  lemma WhenReported()
    ensures REPORTED.transfers == map[7 := FRESH.(terminal := Some(Canceled), terminalBy := Some(BOB))]
    ensures REPORTED.deliveries
      == map[CREATE := Delivery(Leased(BOB, 61.0), 1, 0.0), DKey(7, Cancel, ALICE) := Delivery(Queued, 0, 2.0)]
    ensures REPORTED.roster == Pair() && Legal(POLLED, REPORT)
  {
    WhenPolled();
  }

  lemma WhenAcked()
    ensures ACKED.transfers == map[7 := FRESH.(dst := Some("dst"), terminal := Some(Canceled), terminalBy := Some(BOB))]
    ensures DKey(7, Cancel, ALICE) in ACKED.deliveries && DKey(7, Cancel, BOB) in ACKED.deliveries
    ensures Legal(REPORTED, ACK)
  {
    WhenReported();
  }

  lemma TwoEchoesUnaccounted(h: Hub)
    requires 7 in h.transfers && h.transfers[7].terminal == Some(Canceled)
    requires DKey(7, Cancel, ALICE) in h.deliveries && DKey(7, Cancel, BOB) in h.deliveries
    ensures !Accounted(h, 7)
  {
  }

  /**
   * A recipient who reports before acking the create: the report queues the sender's echo, and the
   * ack, finding a terminal state, queues the recipient's own.
   */
  lemma RecipientReportsTooSoon()
    ensures Run([EMPTY] + [SENT] + [POLLED] + [REPORTED] + [ACKED], [] + [SEND] + [POLL] + [REPORT] + [ACK])
    ensures DKey(7, Cancel, ALICE) in ACKED.deliveries && DKey(7, Cancel, BOB) in ACKED.deliveries
    ensures 7 in ACKED.transfers && !Accounted(ACKED, 7)
  {
    WhenSent();
    WhenPolled();
    WhenReported();
    WhenAcked();
    TwoEchoesUnaccounted(ACKED);
    RunOneMore([EMPTY], [], SEND, SENT);
    RunOneMore([EMPTY] + [SENT], [] + [SEND], POLL, POLLED);
    RunOneMore([EMPTY] + [SENT] + [POLLED], [] + [SEND] + [POLL], REPORT, REPORTED);
    RunOneMore([EMPTY] + [SENT] + [POLLED] + [REPORTED], [] + [SEND] + [POLL] + [REPORT], ACK, ACKED);
  }
}
