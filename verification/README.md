# The delegation protocol, modelled and proved

One hub keeps a ledger of transfers and deliveries. Each member has a Things account and a spoke
that ticks: it pushes todos that carry a trigger tag, applies what the hub leases to it, reports what
became of watched copies, and completes the sender's copy once the handover is confirmed. This
project models the ledger (`hub/ledger.py`), the spoke's tick and its tables (`spoke/core.py`), and
the reader's meaning (`spoke/things_db.py`), composes one hub with any number of members, and proves
what the protocol promises over every run.

## How it is laid out

- `HubSpec` is the ledger as a value, one function for each committed call. `LedgerTables.Ledger` is
  the ledger as the hub keeps it, tables updated in place and loops included; every method is proved
  equal to its function.
- `HubInvariant`, `HubHistory`, `HubEchoes`, `HubLeases`, `HubFlow`, `HubDrain`, `RawApi` prove what
  every sequence of calls keeps, whoever makes them: the bare API.
- `HubLaws`, `LeaseLaws` and `HubAnswers` say what each call does column by column: when each field of
  each row changes, by whose call and to what, and what the caller is told. They speak of the rows
  before and after and of the call alone, not of the functions of `HubSpec`, so they can be read against
  the SQL. `TickLaws` does the same for the actions of a tick. They hold of any call or action in any
  state that meets the invariants, so of every one of every run (`HubLaws.RunCalls`, `TickLaws.RunActs`).
- `SpokeSpec` is one member's tick as a state machine with one action for each statement that can be
  seen from outside, lost responses and crashes among them. `Accounts` and `Tick` are the tick as the
  program runs it, with its loops and early exits; every phase is proved to be a path of the machine
  (`TickPaths`), and without faults a path that skips nothing.
- `SpokeInvariant`, `SpokeSteps`, `System`, `SystemSafety` compose everything. Here anything may
  happen: a crash at any statement, any lost response, any mirror, any human act.
- `Marked` is about the sender's copy once its retag is marked, under anything a human does to it.
- `HomeInvariant` adds the accounts, under layers of hypotheses (below). `HomeAccount` and `HomeKept`,
  then `HomeCareful` and `HomeRecords`, then `Matching` and `HomeDates` show what each layer keeps,
  and `CarefulRuns` that every state of a run under it does.
- `Delegation` and `Hypotheses` draw the conclusions: no loss, no duplicate, exactly one copy, round
  trip, no cascade, no starvation. `Cascades` says exactly when a cascade can happen, `Shortage` what
  can be seen of a create given up. `Settling` and `Deliverable` say exactly when everything pending
  can still be delivered, `Batches` that ticks without faults deliver it, and `TickRuns` carries the
  promises over to the tick as the program writes it. `Gaps` holds four runs from empty tables that
  show what goes wrong.
- `SentCache` shows the sent cache is only a cache.

A delivery is named by its UNIQUE key (transfer, kind, recipient); `HubHistory.KeyNotReused` shows
that a deleted row's key never returns. A transfer counts as applied exactly when its `dst` is set.

## What the theorems about accounts assume

`HomeInvariant` states the hypotheses as `OrdinaryEvent`, `CarefulTick`, `FinishesOnce`, `DatedTick`
and `DatedEvent`; `Hypotheses.FaultlessIsCareful` shows that a tick without faults meets its part.

1. **Ordinary runs.** Ticks do anything: a crash or a failure at any statement, a lost response, a
   write that lands unverified, any clock. Humans add todos, edit todos not yet delegated, and do what
   they like to the status of a received copy, as often as they like, keeping its title and tags. Only
   sync-created todos carry provenance tags, and no trigger tag looks like one. The mirror shows
   existing todos, each as it is or as it was last shown. One serialized spoke serves each member, and
   provenance tags exist in recipients' accounts, as deployment requires.
2. **Careful runs.** Besides, no crash falls between a verified retag and its marker, and no retag
   lands without being verified (`spoke/core.py:439-442`), unless the transfer already has a terminal
   state. The second means that the delegated tag exists in senders' accounts and that a write given
   up on does not land later. `Cascades.CascadesExactlyWhen` shows that this is exactly what no
   cascade takes.
3. **Dated runs.** Besides, a new todo is dated no earlier than 120 seconds before its journal row
   and not before any todo already in the account; dates do not change; mirrors show a creation-order
   prefix of the account; and a copy is trashed only once it is correlated. A crash between a
   journaled intent and its write is still allowed: what it costs is stated as a condition.

One more hypothesis is used where a statement compares a copy with what was recorded of it, and only
there: received copies are **finished once** (completed, canceled or trashed, from open).

What the code does outside them:

- A crash between the journaled intent and the write (`spoke/core.py:324-331`) loses nothing: the
  sender's todo stays as it was tagged (`Delegation.NoLoss`). What is lost is the delivery.
  `Deliverable.AbandonedIsUndelivered` shows that from then on, whatever happens, some transfer to that
  member is not applied, `Shortage.GivenUpExactlyWhen` how it shows in the account, and
  `Deliverable.SettlesExactlyWhen` that this and a member who may not receive are the only things that
  stop a delivery. `Gaps.CrashBeforeWrite` and `Gaps.SenderMayNotReceive` are such runs.
- A crash between the retag and its marker, or a retag that lands unverified, makes the sender's spoke
  report its own completion as the human's. `Gaps.CrashBeforeMarker` and `Gaps.RetagGoesUnverified` are
  such runs, each ending with the recipient's copy completed by nobody.
- Whatever a human does to a delegated todo is outside these hypotheses. Once its retag is marked it
  is inert all the same (`Marked.MarkedIsInert`, `Marked.MarkedIsRecipients`).
- Observations other than one for each watchlist entry: `HubEchoes.RunAccounting` says exactly which
  keep the echoes in account, and `RawApi` gives two runs that do not.

## The main results

Over every call and every action of every run, in terms of the fields alone:
`HubLaws.TransferIsAsPushed` (a transfer goes to the one member under the handle of its push),
`HubLaws.MappedByAck`, `HubLaws.DecidedByReporter`, `HubLaws.OtherPartyIsTold`,
`HubLaws.ReporterIsRecorded`, `HubLaws.ResolvedBy`, `HubLaws.RowsComeFrom`, `HubLaws.RowsLeave`,
`HubLaws.RowsMoveSo`, `LeaseLaws.LeaseTakes`, `LeaseLaws.LeaseRunsToExpiry`, `HubAnswers.PushIsTaken`,
`HubAnswers.WatchlistIs`, `HubAnswers.RevokedNeverArrives`,
`TickLaws.WritesTheTransfer`, `TickLaws.ClaimsTheEarliest`, `TickLaws.AcksTheClaim`,
`TickLaws.LooksExactlyWhen`, `TickLaws.ReportsSayWhatShows`, `TickLaws.RetagsTheHandedOver`; and of
phases without faults, `TickRuns.EveryCandidateIsPushed` and `Tick.SpokeCore.ObserveAndRetag`.

Over ordinary runs: `Delegation.NoLoss`, `Delegation.GoesWhereTagged`, `Delegation.NoDuplicates`,
`Delegation.ExactlyOneCopy`, `Deliverable.AbandonedIsUndelivered`, and `TickRuns.TickLosesNothing`.

Over careful runs: `Cascades.CascadesExactlyWhen` (an if-and-only-if), `Delegation.RoundTrip`,
`Hypotheses.RecipientDecides`, `Hypotheses.OnlyCopiesAreReported`, `Hypotheses.SpokesLeaveCopies`, and
`TickRuns.TickComesRound`; with copies finished once, `Delegation.RecordedState` and
`Hypotheses.ReportsAreCurrent`.

Over dated runs: `Hypotheses.EnoughCopies`, `Hypotheses.SearchSucceeds`, `Shortage.GivenUpExactlyWhen`
and `Deliverable.SettlesExactlyWhen` (if-and-only-ifs), `Deliverable.SettledComesRound`,
`Batches.FaultlessInbound`, and `Batches.EnoughVisits`.

Over every run whatsoever, with crashes at any statement and any human act: `System.NextKeeps`,
`SystemSafety.AtMostOnceApply`, `SystemSafety.AcksAgree`, `SystemSafety.MappingIsInjective`,
`SystemSafety.CachesAgree`, `SystemSafety.SystemAccounts`, `SentCache.LosingTheCacheIsInvisible`,
`Marked.MarkedIsInert`, `Marked.MarkedIsRecipients`.

Over every sequence of calls of the bare API: `HubHistory.RunGrows`, `HubEchoes.RunAccounting`,
`HubLeases.HandsOutFirstEligible`, `HubLeases.LeaseExcludes`, `HubLeases.SkipIsForever`,
`HubFlow.PushesAreTransfers`, `HubFlow.ObservationsConverge`, `HubFlow.NewWorkIsSignalled`,
`HubDrain.QueueDrains` (an if-and-only-if), `HubDrain.NeverHandedOut`.

Of the code as it loops and writes: every method of `LedgerTables.Ledger` equals its function, and
`Tick.SpokeCore.Tick` is refresh, outbound, inbound and observe in turn, a path of the machine.

## Where the code and its documentation differ

The model follows the code.

- The lease's own description withholds an echo until the create is done; the code asks only whether
  the recipient's uuid is set (`hub/ledger.py:443-450`). `HubLeases.HandoutsAreOwnCopies` shows the two
  agree in every reachable state.
- The README says deliveries persist until acked; an upgrade deletes a pending cancel
  (`hub/ledger.py:588-590`). `HubHistory` counts that as the one deletion there is.
- `spoke/core.py:439-441` says of a retag not verified that it will be retried on the next tick. If the
  write did land, the next tick reports it instead (`Gaps.RetagGoesUnverified`).
- `spoke/core.py:366-377` says echoes only ever address the sender. That holds of careful runs
  (`Hypotheses.RecipientDecides`), not of the bare API (`RawApi`).

## Model

| member | source | states |
|---|---|---|
| LedgerTables.Ledger.PushTransfer | hub/ledger.py:348-395 | The push transaction with all its refusals and its replay branch; a new transfer brings one queued create and one signal |
| LedgerTables.Ledger.SelectRows | hub/ledger.py:425-434 | The lease query lists exactly the member's rows that are not done, each once, oldest first |
| LedgerTables.Ledger.LeaseRow | hub/ledger.py:439-467 | One row is leased exactly when it is not under a live lease and its member's copy exists; otherwise nothing changes |
| LedgerTables.Ledger.LeaseRows | hub/ledger.py:435-468 | The loop, stopping at the limit, leases and returns exactly the eligible rows among those it went through |
| LedgerTables.Ledger.LeaseDeliveries | hub/ledger.py:411-468 | The whole lease, against the listing it fetched: who is refused, what is handed out, and every other row unchanged |
| LedgerTables.Ledger.AckDelivery | hub/ledger.py:470-515 | Create ack: mapping, and the echo of a revoke that came meanwhile; echo ack: the transfer resolves; a second ack changes nothing |
| LedgerTables.Ledger.NackDelivery | hub/ledger.py:517-532 | A row that is not done goes back to queued; nothing else moves |
| LedgerTables.Ledger.Watchlist | hub/ledger.py:535-553 | Exactly the member's open transfers whose own copy exists, each once, under the member's own uuid |
| LedgerTables.Ledger.Observe | hub/ledger.py:555-608 | Set once; completed upgrades canceled unless a cancel echo was delivered, dropping the pending ones |
| LedgerTables.Ledger.QueueEcho | hub/ledger.py:610-643 | Suppress a queued create, leave a leased one to its ack, or queue the echo to the other party and ask for a signal |
| LedgerTables.Ledger.SignalDelivery | hub/ledger.py:206-213 | The generation advances by one |
| HubInvariant.DoKeepsInv | hub/ledger.py:85-115 | Every call keeps the UNIQUE indexes, the create rows, own-tenant parties, and that each echo matches its transfer's current terminal state |
| HubInvariant.ObserveIsDecide | hub/ledger.py:570-603 | An observation either changes nothing or decides the state and queues its echo |
| HubHistory.DoGrows | hub/ledger.py:470-608 | No call takes back a transfer, a mapping, a terminal state or a finished delivery; a delivered echo freezes the terminal state |
| HubHistory.RunGrows | hub/ledger.py:555-608 | The same from any state of a run to any later one: the terminal state only climbs none, canceled, completed, and is frozen once an echo is done |
| HubHistory.KeyNotReused | hub/ledger.py:588-590 | A deleted cancel's key never comes back, so in a run a key names one row |
| HubEchoes.ObserveAccounting | hub/ledger.py:555-643 | Echo accounting survives an observation if and only if it neither revives a suppressed create nor reports a copy not yet known |
| HubEchoes.DoAccounts | hub/ledger.py:348-643 | The same for every call: all but such observations keep the accounting |
| HubEchoes.RunAccounting | hub/ledger.py:555-643 | Over a run, every state is in account if and only if every observation was disciplined |
| HubEchoes.OneStateEach | hub/ledger.py:610-643 | Awaiting the create, echoing, and suppressed exclude each other |
| HubLeases.HandsOutFirstEligible | hub/ledger.py:435-468 | A lease hands out exactly the first `limit` eligible rows in order; blocked and live-leased rows use up none of it |
| HubLeases.NonePassedOver | hub/ledger.py:435-468 | No eligible row is passed over for a later one |
| HubLeases.HandoutsAreOwnCopies | hub/ledger.py:443-467 | An echo reaches the recipient only when the create is done and the copy is known, and every uuid handed out is the member's own copy |
| HubLeases.WatchIsOwnCopy | hub/ledger.py:545-553 | The watchlist names only the member's own copy |
| HubLeases.LeaseExcludes | hub/ledger.py:439-456 | Between two consecutive handouts of a delivery the first lease expired or was given back |
| HubLeases.AttemptsAreHandouts | hub/ledger.py:452-456 | A row's attempts count is the number of times it was handed out |
| HubLeases.SkipIsForever | hub/ledger.py:622-636 | A suppressed create stays dead in every continuation: no mapping, and nothing is ever leased to the recipient |
| HubLeases.RevivedSkipStrandsEcho | hub/ledger.py:584-591 | An upgrade of a suppressed create queues an echo that no continuation hands out |
| RawApi.SenderRevivesSuppressedCreate | hub/ledger.py:584-591 | A three-call run from the empty ledger that does this |
| RawApi.RecipientReportsTooSoon | hub/ledger.py:497-504 | A four-call run from the empty ledger that ends with two echoes for one transfer |
| HubLaws.TransferIsAsPushed | hub/ledger.py:357-394 | A transfer appears only by a push: it goes to the one member of the tenant under the push's handle, is the call's in every field, has a natural key no other has, and brings that member one queued create and a signal |
| HubLaws.MappedByAck | hub/ledger.py:486-496 | The mapping changes exactly when the recipient acks the unfinished create with a uuid, from none to that uuid |
| HubLaws.DecidedByReporter | hub/ledger.py:565-603 | The terminal state changes exactly when a party reports an open transfer, or completed on a canceled one with no cancel delivered; to the state reported, under the reporter's name |
| HubLaws.OtherPartyIsTold | hub/ledger.py:610-643 | Such a report leaves one echo, queued, of that state, to the party that did not report; none exactly when the sender reports before the create is acked: a queued create is then done and the transfer resolved, a leased one left alone |
| HubLaws.ReporterIsRecorded | hub/ledger.py:584-591 | Over runs: whoever reports the state a transfer comes to have is recorded, an upgrade included; the copy known, the other party is told and nothing waits for the reporter |
| HubLaws.ResolvedBy | hub/ledger.py:508-512 | A transfer becomes resolved exactly by its addressee's ack of an unfinished echo, or by the sender's report while the create is queued |
| HubLaws.RowsComeFrom | hub/ledger.py:383-643 | Every new row is queued and unattempted, and is a new transfer's create, the other party's echo of a report, or the recipient's echo of a revoke that its ack finds |
| HubLaws.RowsLeave | hub/ledger.py:588-590 | A row disappears exactly as an unfinished cancel of a transfer whose terminal state changes |
| HubLaws.RowsMoveSo | hub/ledger.py:470-532 | A row is done by its addressee's ack or the suppression, queued again by its addressee's nack, or leased to the polling device until now plus the seconds asked, one attempt more; nothing else moves it, and its creation time never changes |
| HubLaws.RevokeFollowsAck | hub/ledger.py:497-505 | The create's ack finishes it; if the sender has revoked meanwhile the recipient's echo is there and announced |
| LeaseLaws.LeaseTakes | hub/ledger.py:425-456 | What is handed out is the member's, queued or past its expiry, and actionable; at most the limit; and what is left out is no older than anything handed out, which is then as many as the limit |
| LeaseLaws.LeaseRunsToExpiry | hub/ledger.py:438-442 | Over runs: between two polls with room for every row, a row handed out by the first and still unfinished is handed out by the second if and only if the clock is past the first lease's expiry or the row was given back |
| LeaseLaws.LeaseIsAnswered | hub/ledger.py:411-468 | One entry for each row handed out, oldest first, with the row's attempts, the transfer's payload and sender's tag, or the member's own copy; refused exactly to those who may not receive |
| HubAnswers.PushIsTaken | hub/ledger.py:348-363 | A push is taken, refused, or of nobody known exactly when the roster says so |
| HubAnswers.PushIsAnswered | hub/ledger.py:365-395 | The answer names the transfer of the natural key and its terminal state, marked as a duplicate exactly when there was one, and then nothing changes |
| HubAnswers.AckIsAnswered | hub/ledger.py:470-488 | An ack is answered as done exactly when it finished the row; otherwise nothing changes |
| HubAnswers.NackIsAnswered | hub/ledger.py:517-532 | A nack is taken exactly of the caller's own unfinished row |
| HubAnswers.ObserveIsAnswered | hub/ledger.py:565-608 | Parties alone are answered, with the state the transfer now has and whether it had it before |
| HubAnswers.WatchlistIs | hub/ledger.py:535-553 | Every transfer of the member that nobody has reported is listed under the member's own copy, the sender's always and the recipient's once applied, each once, and nothing else is |
| HubAnswers.WatchedRevokeSuppresses | hub/ledger.py:622-636 | The report of a sender's entry not yet applied, its create queued, leaves the create done, the transfer resolved and unmapped, and nobody told |
| HubAnswers.RevokedNeverArrives | hub/ledger.py:622-636 | Over runs: after such a report the recipient is never handed anything of the transfer and never has a copy |
| HubFlow.PushesAreTransfers | hub/ledger.py:365-390 | Transfers are in bijection with the natural keys pushed successfully |
| HubFlow.ReplayIsDeduped | hub/ledger.py:365-373 | A replay, however late and to whatever handle, changes nothing and returns the first push's transfer |
| HubFlow.OneCreateEach | hub/ledger.py:384-388 | Each transfer has one create, to its recipient, never deleted |
| HubFlow.ObservationsConverge | hub/ledger.py:570-605 | With no echo delivered meanwhile, the terminal state is the best report so far and every observation is answered with it |
| HubFlow.VerdictIsBest | hub/ledger.py:570-605 | Completed if and only if someone reported completed, in whatever order |
| HubFlow.NewWorkIsSignalled | hub/ledger.py:393-394 | Every call but a nack that makes a row leasable, at whatever time, has advanced the generation (a lease of negative length apart) |
| HubFlow.NackIsSilent | hub/ledger.py:517-532 | A nack may make its row leasable and never advances the generation |
| HubDrain.MeasureBound | hub/ledger.py:470-515 | At most one pending delivery, and at most two acks left, for each transfer |
| HubDrain.AckLowers | hub/ledger.py:470-515 | Every successful ack lowers the number of acks left by exactly one |
| HubDrain.AcksAreCounted | hub/ledger.py:470-515 | Over a run without pushes or observations, the acks made and the acks left add up to the acks left at the start |
| HubDrain.PendingIsDeliverable | hub/ledger.py:411-515 | A pending delivery is handed to its member's lease if and only if the member may receive and the row is queued or past its lease's expiry; and its ack succeeds |
| HubDrain.QueueDrains | hub/ledger.py:411-515 | Rounds, each handing out a row and then acking that row, on a clock that never goes back, can empty the queue in as many rounds as the measure if and only if every member something is pending for may receive |
| HubDrain.NeverHandedOut | hub/ledger.py:419-420 | In no run is a delivery ever handed out to a member who may not receive |
| Accounts.SearchIsEarliest | spoke/things_db.py:165-185 | Skipping known rows in creation order finds the earliest fresh match, if there is one |
| Accounts.Account.Rows | spoke/things_db.py:172-182 | The correlation query: exactly the matches, oldest first |
| Accounts.Account.SetTerminal | tests/fakes.py:112-119 | The todo is completed or canceled as asked; a write may land and go unverified, and a verified write landed |
| Accounts.Account.SetTagsAndTerminal | tests/fakes.py:132-141 | The combined write: the todo is completed or canceled as asked with the tags the account knows, and verified only when none was dropped |
| Tick.SpokeState.JournalIntent | spoke/core.py:123-129 | The row is opened with no uuid |
| Tick.SpokeState.JournalClose | spoke/core.py:131-135 | The uuid is set on an existing row; a missing row is left missing |
| Tick.SpokeState.MarkSent | spoke/core.py:111-116 | The source is remembered with its transfer |
| Tick.SpokeState.MarkRetagged | spoke/core.py:150-154 | The transfer is marked |
| Tick.SpokeState.MarkObserved | spoke/core.py:162-166 | The last reported state is remembered |
| Tick.SpokeCore.Outbound | spoke/core.py:242-269 | The pass offers every candidate not refused, once; without faults the ledger is the pass over them and exactly the accepted ones become known |
| Tick.SpokeCore.PushOut | spoke/core.py:252-269 | One push: marked as sent only when the answer was heard and good |
| Tick.SpokeCore.ApplyCreate | spoke/core.py:318-346 | Intent before write, resume without a second write, re-ack of a closed row; a path of the machine to the next entry or to failure |
| Tick.SpokeCore.Write | spoke/core.py:324-331 | The row is committed before the write; without faults the write is fired |
| Tick.SpokeCore.Correlate | spoke/core.py:348-364 | The bounded search returns the earliest match in the window outside the journal; without faults a miss means the account has none |
| Tick.SpokeCore.ApplyTerminal | spoke/core.py:366-382 | The copy is completed whatever the echo's kind, and acked only once verified |
| Tick.SpokeCore.Inbound | spoke/core.py:299-316 | One poll; then every entry, in order, applied or given back |
| Tick.SpokeCore.ObserveAndRetag | spoke/core.py:385-418 | One watchlist, then every entry looked at; without faults each entry whose todo shows a state not reported is reported and remembered in that state, and each handover to be retagged is completed and marked |
| Tick.SpokeCore.RetagSenderCopy | spoke/core.py:420-443 | Trigger tags out, the delegated tag in and the copy completed in one write; marked only when verified |
| Tick.SpokeCore.Tick | spoke/core.py:216-224 | Refresh, outbound, inbound, observe, in that order, each as specified, and all of it a path of the machine |
| TickLaws.SendsWhatIsTagged | spoke/core.py:242-285 | What is pushed shows as an open, untrashed, non-repeating todo of at most 100 checklist items under one of its own trigger tags; the transfer it makes goes to the member whose handle the tag triggers, with its title |
| TickLaws.IntentIsOfTransfer | spoke/core.py:318-328 | The row is journaled once, with the transfer's title and its sender's tag, before anything is written |
| TickLaws.WritesTheTransfer | spoke/core.py:324-331 | The write makes one new open todo with the transfer's title and its sender's tag, for a journaled create never written before |
| TickLaws.ResumesWithoutWriting | spoke/core.py:332-339 | A journaled create is searched for from when it was fired, or its claimed uuid acked again; nothing is written |
| TickLaws.ClaimsTheEarliest | spoke/core.py:348-364 | The row claims a todo of the transfer's title and sender's tag, untrashed, dated at most 120 seconds before, claimed by no row, and no newer than any other such |
| TickLaws.AcksTheClaim | spoke/core.py:344-345 | The ack maps an unfinished delivery's transfer to the uuid its row claims, and the spoke goes on only once the delivery is done |
| TickLaws.CompletesOwnCopy | spoke/core.py:366-382 | An echo completes the member's own copy of its transfer and no other todo, and is acked only once verified |
| TickLaws.PollsTen | spoke/core.py:299-304 | A poll takes at most ten rows and the spoke holds exactly what it was told of them |
| TickLaws.GivesBack | spoke/core.py:309-316 | A failed entry's row is queued again if the request arrives, and the spoke goes on |
| TickLaws.LooksExactlyWhen | spoke/core.py:391-418 | An entry is reported exactly when its todo shows a state not reported before and the retag is not our own, retagged exactly when it is the sender's, applied, unmarked and shows nothing to report; without faults passed over only when neither |
| TickLaws.ReportsSayWhatShows | spoke/core.py:399-413 | Over runs: a report makes an open transfer canceled when the mirror shows the member's own copy trashed or canceled, completed when it shows it completed and not trashed |
| TickLaws.ReportsWhatIsShown | spoke/core.py:399-413 | And that state is what the spoke goes on to remember, if it heard the answer |
| TickLaws.RemembersTheReport | spoke/core.py:410-411 | What is remembered is the state reported, for that transfer alone |
| TickLaws.RetagsTheHandedOver | spoke/core.py:420-443 | A retag changes only the sender's own copy of an applied, unmarked transfer: completed, its triggers out and the delegated tag in; only with all its tags is it verified, to be marked |
| TickLaws.MarksTheRetagged | spoke/core.py:442-443 | The marks grow only by a transfer whose retag was verified |
| TickRuns.EveryCandidateIsPushed | spoke/core.py:242-269 | After an outbound phase without faults, every todo that shows as one to push, under tags of handles that may receive, is a transfer |
| SpokeSteps.RetagMarks | spoke/core.py:420-441 | A retagged copy is completed, carries the delegated tag and no other trigger, keeps its other tags, and is no candidate again |
| TickPaths.ReachesKeepsWorld | spoke/core.py:216-224 | Whatever a tick does from start to end keeps the invariant of the whole system |
| System.TickIsCall | spoke/core.py:242-443 | An action reaches the hub only through one legal call |
| System.ReportsAreDisciplined | spoke/core.py:385-418 | Reports from a watchlist, one for each entry, keep the discipline of the echo accounting |
| System.NextKeeps | spoke/core.py:216-443 | Every step of every member, every crash, lost response and human act keeps the invariant of hub and spokes |
| System.RunOk | spoke/core.py:216-443 | So it holds in every state of every run |
| SystemSafety.AtMostOnceApply | spoke/core.py:318-346 | Over all runs, the create of a delivery is written at most once |
| SystemSafety.AcksAgree | spoke/core.py:333-345 | Every ack of a create carries the same uuid, and the ledger's mapping is that uuid or not yet set |
| SystemSafety.MappingIsInjective | spoke/core.py:131-143 | Two transfers to one member never share a uuid, whatever their titles |
| SystemSafety.CachesAgree | spoke/core.py:105-166 | A sent entry names the member's own transfer, an observed one a terminal transfer, a retagged one an applied transfer |
| SystemSafety.SystemAccounts | spoke/core.py:385-418 | Echo accounting holds in every state of every run of the system |
| SystemSafety.AbandonedIsForever | spoke/core.py:324-331 | A create journaled but not written when the tick moves on is never written; what that costs is Deliverable.AbandonedIsUndelivered |
| SystemSafety.CrashWhileFiringAbandons | spoke/core.py:324-331 | A crash between the row and the write does that |
| SentCache.CacheIsOnlyACache | spoke/core.py:242-269 | Dropping any part of a truthful sent cache before a pass leaves the same ledger |
| SentCache.LosingTheCacheIsInvisible | spoke/core.py:242-269 | In every reachable state the cache is truthful, so losing any of it never shows |
| Matching.FindMatches | spoke/core.py:348-364 | Claiming the earliest match leaves every other open row a match of its own |
| Matching.EnoughForAll | spoke/things_db.py:165-185 | For every threshold, the unclaimed copies of a class are at least as many as the open rows waiting for one |
| HomeAccount.MakesOneMore | spoke/core.py:318-346 | A written create keeps it so that every synced todo was made by a journal row whose create was written, and no row made two |
| HomeCareful.EchoesAddressSenders | spoke/core.py:366-382 | When only recipients report, every echo goes to the sender of an applied transfer |
| HomeCareful.SenderIsSilent | spoke/core.py:396-415 | A sender's watch entry is never news to the sender's spoke |
| HomeDates.FoundIsEarliest | spoke/things_db.py:165-185 | What correlation finds in a stale mirror is an unclaimed copy of the row it searches for, and the earliest even of those the mirror does not show |
| HomeCareful.ReportIsRecipients | spoke/core.py:385-418 | The only report a spoke can make next is of a copy it received, of a transfer nobody has reported |
| HomeKept.OwnKept | spoke/core.py:216-443 | Every action, with whatever fault, keeps the acting member's account: nothing delegated lost, nothing received twice |
| HomeKept.TickKeepsAll | spoke/core.py:216-443 | And everybody else's |
| CarefulRuns.RunKept | spoke/core.py:216-443 | So every state of every ordinary run keeps every account |
| CarefulRuns.OwnHome | spoke/core.py:216-443 | Every careful action keeps the acting member's side of each transfer, whatever was done to received copies |
| CarefulRuns.RunCareful | spoke/core.py:216-443 | So every state of every careful run is in order |
| HomeRecords.RunRecorded | spoke/core.py:385-418 | With copies finished once, every recipient's copy is in the state recorded, in every state of every careful run |
| HomeDates.OwnDates | spoke/core.py:318-364 | Every dated action keeps a match for every journaled create, as long as none was given up |
| CarefulRuns.RunDated | spoke/core.py:216-443 | So every state of every dated run does |
| CarefulRuns.StartDated | spoke/core.py:97-103 | Empty tables and accounts are in order under every layer |
| Delegation.NoLoss | spoke/core.py:416-443 | Whatever crashes or fails: from the moment a todo is tagged it is exactly as tagged in the sender's account, or it is at its transfer's uuid in the account of a member whose handle one of its own tags triggers |
| Delegation.GoesWhereTagged | spoke/core.py:242-257 | Applied or not, every transfer is of a todo its sender tagged and goes to a member whose handle one of those tags triggers |
| Delegation.NoDuplicates | spoke/core.py:318-346 | Whatever crashes or fails: an account never holds more than one synced todo for each transfer to the member, under its title |
| Delegation.RoundTrip | spoke/core.py:216-443 | A transfer with nothing left to deliver is applied, its copy in place, and with a terminal state it is resolved, reported by its recipient, and the sender's copy completed |
| Delegation.RecordedState | spoke/core.py:385-418 | With copies finished once, every transfer with a terminal state is applied; it is canceled exactly when the copy is trashed or canceled, completed exactly when the copy is completed and not trashed |
| Delegation.ExactlyOneCopy | spoke/core.py:318-364 | Whatever crashes or fails: once every transfer to a member is applied, the mapping is a bijection between them and the member's synced todos |
| Hypotheses.RecipientDecides | spoke/core.py:385-443 | In every careful run the recipient alone decides and echoes only ever address senders |
| Hypotheses.OnlyCopiesAreReported | spoke/core.py:385-418 | A sender's spoke never reports its own completion: every report is of a received copy, of a transfer nobody has reported |
| Hypotheses.ReportsAreCurrent | spoke/core.py:396-415 | With copies finished once, a report makes the transfer what the copy is in the account, trashed or canceled or completed, however stale the mirror |
| Hypotheses.SpokesLeaveCopies | spoke/core.py:366-443 | No spoke changes a received copy |
| Hypotheses.EnoughCopies | spoke/core.py:348-364 | The counting bound in every state of the composed system, as long as the member has given up no create |
| Hypotheses.SearchSucceeds | spoke/core.py:348-364 | A search under way has an answer as soon as the mirror has caught up, on the same condition |
| Cascades.CascadesExactlyWhen | spoke/core.py:434-443 | From every state of every careful run, an ordinary step lets careful steps lead to a sender's spoke reporting its own completion, and the recipient being told to complete theirs, if and only if it is a crash between a verified retag and its marker, or a retag that lands unverified, of a transfer without a terminal state |
| Hypotheses.FaultlessIsCareful | spoke/core.py:318-443 | Without faults a tick meets the hypotheses of every layer |
| Settling.ApplyNow | spoke/core.py:318-382 | Whatever the journal says of it, the entry at the head of a batch can be applied and acked, leaving one delivery fewer |
| Deliverable.AbandonedIsUndelivered | spoke/core.py:324-331 | Once a create is given up, in every later state of every ordinary run some transfer to that member is not applied |
| Deliverable.UnreceivableStays | hub/ledger.py:419-420 | What is pending for a member who may not receive stays pending through ticks that neither push nor report |
| Deliverable.SettlesExactlyWhen | spoke/core.py:216-443 | For any members, ticks and refreshes alone, on a clock that never goes back, can deliver everything pending to them if and only if each may receive what is pending for them and has given up no create |
| Deliverable.SettledComesRound | spoke/core.py:216-443 | And then every transfer between them can be made to make the round trip in the terminal state it had, with recipients' copies left in their recorded states |
| Batches.FaultlessInbound | spoke/core.py:299-346 | The inbound phase of a tick without faults, of a member who may receive and has given up no create, applies and acks every entry it was handed, lowering the measure by as many; unless the batch was full, nothing it could be handed is left |
| Batches.EnoughVisits | spoke/core.py:299-346 | In any sequence of such phases, of any of the members at any times, at most as many as the measure find something they can be handed, and once that many have, nothing is pending |
| Shortage.GivenUpExactlyWhen | spoke/core.py:318-364 | A member has given up no create if and only if, for every title, provenance and threshold, unclaimed copies are at least as many as open rows |
| TickRuns.TickIsOrdinaryRun | spoke/core.py:216-224 | A whole tick, whatever faults it meets, is a stretch of an ordinary run |
| TickRuns.TickIsCarefulRun | spoke/core.py:216-224 | A whole tick that meets none is a stretch of a careful run, with no human act in it |
| TickRuns.TickIsDatedRun | spoke/core.py:216-224 | And of a dated one |
| TickRuns.TickLosesNothing | spoke/core.py:216-224 | A tick with any faults leaves every delegated todo as it was tagged, or with its recipient |
| TickRuns.TickComesRound | spoke/core.py:216-224 | After a tick without faults, every transfer with nothing left to deliver has come round, and recipients' copies that were in their recorded states are |
| Gaps.CrashBeforeWrite | spoke/core.py:324-331 | A run from empty tables with one such crash, after which no schedule delivers the todo, and the sender still holds it as tagged |
| Gaps.CrashBeforeMarker | spoke/core.py:439-442 | A run from empty tables with one such crash, ending with the recipient's untouched copy completed and the sender recorded as the one who reported |
| Gaps.RetagGoesUnverified | spoke/core.py:439-441 | The same with no crash, in an account without the delegated tag |
| Gaps.SenderMayNotReceive | hub/ledger.py:356-420 | A run from empty tables of a sender who may not receive: the push is accepted, the recipient completes, and no schedule ever delivers the echo |
| Marked.MarkedIsInert | spoke/core.py:391-397 | Over every run, once the retag is marked the sender's spoke never reports that transfer, whatever the human does to the copy |
| Marked.MarkedIsRecipients | spoke/core.py:391-397 | And unless its sender had decided it before, only its recipient ever does |

## Left out

- HTTP, clients, tokens, devices, tenants' administration, SQLite, WAL and threads: each `with lock, conn` block is one atomic step whose response may be lost.
- Waiting for the generation counter: a signal between an empty lease and the wait is slept through until the timeout (`hub/api.py:98-104`, `hub/ledger.py:195-204`), so no claim is made that no wakeup is lost.
- The gateway's two threads over one state: the tick here is serialized, and no-cascade is not claimed for the two-loop driver.
- Which todo correlation finds when titles repeat: two rows of one title may swap their todos; each still gets exactly one.
- Envelope fields other than the title, the case of tags, the emoji in provenance tags, a provenance tag missing from the recipient's account, the events table, logs and last errors.
- `applied_at` as a column of its own: it is set when and only when `dst_uuid` is.
- Opaque delivery ids: a delivery is named by its UNIQUE key.
- The order of rows created at the same instant, and of candidates and watch entries: arbitrary.
- Loss of the journal file, `rev > 1`, re-delegation and edit propagation.
- Writer internals and the mirror's refresh: a write lands or not, is verified or not; a refresh moves the mirror.
- What a human may do to a delegated todo: such acts are outside the hypotheses of the account theorems, not of the hub and spoke theorems.
- SystemSafety.AbandonedIsForever: says only that the write never happens, since among arbitrary human acts is adding a todo that correlation takes for the copy; over ordinary runs `Deliverable.AbandonedIsUndelivered` says the rest.
- Hypotheses.SearchSucceeds: stated for members who have given up no create; with one given up, a row of its title may be left without a todo.
- Deliverable.SettlesExactlyWhen: a schedule may put down a tick in hand, which counts as a crash where one is allowed; that some schedule delivers is not that every schedule does. `Batches.EnoughVisits` says what every sequence of inbound phases without faults does.
- Accounts.Account.SetTagsAndTerminal: an account that lacks one of the tags counts as a fault of the write, so a tick without faults is one in accounts that have them.
- The handle of a push is taken as the hub stores it: trimming and lower-casing it (`hub/ledger.py:344`) is not modelled.
- LedgerTables.Ledger.LeaseDeliveries: the listing is a ghost result, since rows created at the same instant may come in any order.
