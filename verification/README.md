# Formal model of the version 2 swap

This project models the asynchronous (version 2) atomic swap between QDAY and Bitcoin in Dafny and
proves properties of it that no single function shows.

- **Engine and journal.** `SwapState` is the durable journal: the phase graph, every record update as a
  function of the stored record, and the transactions that commit them. `Protocol` is the swap as one
  participant sees it: a history of events (observations, journal writes, broadcasts), the rule each event
  has to obey, and theorems about every history that obeys them. `Engine` is the driver itself, one method
  per source function; it is proved to produce only such histories, whatever the chains answer and wherever
  it stops. `Rounds` says what a round of its loop has to have done by the time it rests or moves on: the looks
  it took and what it handed over. `Actions` covers journaled Bitcoin transactions, with two workers racing.
- **Relay.** `Relay` is the store with its transactions; `RelaySafety`, `RelayMessages`, `RelayRecords` and
  `RelayLimits` are invariants of every state it can reach, and `RelayWitness` a run that meets the strongest
  hypotheses.
  `Outbound` couples a sender's outbox with the relay. `Sync` is the client: it follows its mailbox with a
  durable cursor and matches acceptances of its own orders while the relay moves on; `Scenes` says what stays.
- **Contract.** `Script` interprets the opcodes in use, `Htlc` says exactly which witness stacks satisfy the
  contract, `Spends` builds, completes and recognises its spends, `Chain` shows what one chain answers about
  them, `Terms` derives refund heights and the agreement.
- **Encodings and amounts.** `Records`, `Encoding` and `Trade` are the signed records, their canonical bytes
  and their validation; `Decimal` is exact amounts, `Funds`, `Listing` and `Snapshot` are reserved funds.

How to read it:

- A crash is a run that stops. In `Engine` every wallet, relay and journal call may return `Interrupted`,
  before or after it took effect, so every point between two calls is a possible end of a pass. Only the
  journal, the chains and the history survive it.
- Chain answers are arbitrary between any two calls. Where a theorem needs them consistent and growing
  within one pass it says `steady`; that the two ways to ask for a refund then agree is derived in `Chain`.
  `dormant` stands for closed windows and an own funding no wallet knows, which then last through the pass.
  A pass keeps the chains as they were at each event (`looks`), and each reported answer is true of them.
- SHA-256, signatures and curve checks are uninterpreted functions. That no other text has the digest of a
  given one, that digests are hexadecimal, and that honest signatures check are hypotheses of the lemmas that
  need them; the first is asked of single texts, never of all. Matches of own orders reach the relay only if this
  participant posted them.
- The relay clock is positive and never moves back (`ClockRuns`); Bitcoin heights below 500,000,000 are a
  hypothesis where BIP 65 tells heights from times.

Five statements one might expect are false of the code, and are settled exactly:

- An abandoned swap need not reach a terminal phase: `maybeStartRefund` asks for `expired` from phases whose
  edge the journal refuses. With nothing of its own out and the windows closed, a pass ends in `expired` if
  and only if the swap is in the first phase (`Engine.DriveSwap`, `Engine.Engine.DriveRound`); from any other
  every pass fails, for good (`Engine.DriveTicks`), and makers do get there (`Engine.StrandedReachable`).
- `ValidateAsync` does not accept exactly what `BuildAsyncAgreement` returns: it never compares heights with
  the ones the acceptance signs. `Terms.BuilderMeetsValidator` gives the condition, for all inputs, and
  `Terms.BuilderMayRefuseValidated` a concrete pair.
- `reconcileBitcoinAction` can fail on legal statuses when another worker moved the action on:
  `Actions.MarkFailsExactly` and `Actions.FinishFailsExactly` say exactly when, two runs show it
  (`Actions.MarkFailureHappens`, `Actions.FinishFailureHappens`), and a retry succeeds.
- `ensureLocalRefund` and `refundStateConfirmed` need not agree on a mined refund: consensus lets anyone
  change its flag byte without changing its ID (`Chain.FlagIsMalleable`). They agree exactly when the mined
  witness has the canonical form (`Chain.RefundAnswersAgree`).
- A closed own order need not be free of reservations: it is if and only if no maker swap of it still
  reserves (`Snapshot.ClosedReservesExactly`, `Snapshot.ClosedOwnOrder`). A run from nothing ends with such a
  swap (`Snapshot.ClosedStillReserved`, `RelayWitness.ClosingHappens`): a provisional selection, which outlives
  its acceptance exactly when that is skipped (`Sync.Reader.HandleAcceptance`), which the engine skips
  (`Engine.DriveSwap`), and which no later pass releases or drops (`Sync.Reader.SyncTicks`), so its amount
  stays reserved through all of them (`Scenes.ReservedForGood`).

`dafny verify dfyconfig.toml` checks everything.

## Model

| member | source | states |
|---|---|---|
| `Protocol.EvidenceAlways` | internal/app/async_engine.go:153-557 | In every run a version 2 record carries what its phase claims: agreement and taker funding once started, the submitted marker once funded, maker notice and maker template once maker-funded, a taker template only with its journaled proxy claim, a secret opening the agreement hash once claimed |
| `Protocol.StepKeepsEvidence` | internal/swapstate/journal.go:701-875 | Every journal write the rules permit keeps that evidence |
| `Protocol.PrefixAccepted` | internal/app/async_engine.go:242-560 | A run cut off after any event is itself a permitted run, so a crash anywhere is covered |
| `Protocol.SeenIsWitnessed` | internal/app/async_engine.go:253-557 | Whatever an iteration acts on was observed by an event of that same iteration |
| `Protocol.ClaimIsSentFirst` | internal/app/async_engine.go:391-431 | No event makes the taker count as having claimed except its own claim |
| `Protocol.OwnClaimFirst` | internal/app/async_engine.go:391-431 | The first transaction of a taker that carries the preimage is its own claim; a proxy claim only follows it |
| `Protocol.OwnClaimGuarded` | internal/app/async_engine.go:391-420 | Each own claim happens in an iteration that saw both fundings confirmed, with a stored template and a journaled completed maker claim |
| `Protocol.OwnClaimReachable` | internal/app/async_engine.go:283-431 | The rules leave room for a swap: every released taker record has a permitted run that ends with its own claim |
| `Protocol.MakerFundingGuarded` | internal/app/engine.go:1265-1326 | The maker hands its funding to a wallet only after its stored template was accepted by the relay, in an iteration that saw the taker funding confirmed and both chains at heights at least 360 QDAY and 36 Bitcoin blocks below the refund heights of the agreement |
| `Protocol.RefundIsATrap` | internal/swapstate/journal.go:1053-1106 | Once waiting for refund, refunding or refunded, always one of the three, and no claim is ever broadcast again |
| `Protocol.RefundEntryGuarded` | internal/app/engine.go:1551-1583 | With own funding out the refund path is entered only in an iteration that saw the chain of that leg at or past the refund height of the agreement, and no counterparty claim; without, only after the counterparty refund was seen |
| `Protocol.ExpiredIsFinal` | internal/swapstate/journal.go:1053-1106 | Expired is never left, and nothing is claimed or funded after it |
| `Protocol.ExpiryEntryGuarded` | internal/app/engine.go:1519-1534 | Expired is entered only from the first phase, with the local funding neither recorded as submitted nor found when looked for in the same iteration, and a chain seen less than 360 QDAY or 36 Bitcoin blocks below its refund height |
| `Protocol.ExpiryEdge` | internal/swapstate/journal.go:1053-1081 | Of the running phases exactly the first has the edge to expired that the engine asks for |
| `Protocol.LegacyPhasesUnreachable` | internal/app/async_engine.go:555-557 | No run of a version 2 record reaches a legacy phase |
| `Protocol.ReservationPhaseTestRedundant` | internal/app/funds.go:170-178 | On every reachable record still counted there, the phase test beside the submitted marker changes nothing |
| `Protocol.ProvisionalMatchSentNothing` | internal/app/engine.go:448-453 | While a match is provisional nothing has reached either chain |
| `Protocol.PositionInIteration` | internal/app/async_engine.go:253-254 | An event "in this iteration" stands at a position with no later start of an iteration |
| `Protocol.PositionSuffices` | internal/app/async_engine.go:253-254 | And every event at such a position is in this iteration, so the two say the same |
| `Protocol.DueInHeights` | internal/app/engine.go:1565-1577 | What a round knows of its own leg being due is exactly whether the height it saw of that leg's own chain has reached the refund height |
| `Protocol.RecordExtends` | internal/swapstate/journal.go:701-886 | Along any run the record keeps every piece of evidence it ever held |
| `Protocol.GraphTraps` | internal/swapstate/journal.go:1053-1106 | The phase graph itself, whatever is asked of it: expired has no way out, the refund phases none to a claim, a running version 2 phase none into the legacy engine |
| `Rounds.ChecksFirst` | internal/app/async_engine.go:253-281 | What the check for a due refund adds before the switch takes nothing away from what the phase did after it |
| `Rounds.ThenWrote` | internal/app/async_engine.go:283-557 | Nor does the journal write a round ends with |
| `Engine.Engine.constructor` | internal/app/async_engine.go:242-249 | A pass starts from a stored record that some permitted run produced |
| `Engine.Engine.Set` | internal/swapstate/journal.go:1007-1028 | A write-once setter commits what the journal computes or changes nothing, fails only interrupted or for the journal's own reason, and other swaps keep their records |
| `Engine.Engine.Rewind` | internal/swapstate/journal.go:716-735 | Commits the earlier phase with its reason and withdraws the submitted marker only on return to taker funding |
| `Engine.Engine.ObserveFunding` | internal/app/async_engine.go:846-852 | Whether the noticed funding is confirmed in the chain view at that moment |
| `Engine.Engine.EnsureMakerClaimTemplate` | internal/app/async_engine.go:562-653 | On success the template is stored and delivered in this iteration |
| `Engine.Engine.JournalTemplate` | internal/app/async_engine.go:583-647 | The stored template spends the funding it was built for |
| `Engine.Engine.Submit` | internal/app/engine.go:1278-1300 | A hand-over to a wallet is one event that may take effect although the answer is lost |
| `Engine.Engine.SubmitBitcoin` | internal/app/engine.go:1284-1316 | The transaction handed over is the journaled one under its action ID |
| `Engine.Engine.JournaledAction` | internal/app/engine.go:1290-1305 | An existing action is returned as it is; a new one is journaled first |
| `Engine.Engine.EnsureLocalFunding` | internal/app/engine.go:1265-1326 | On success the notice is journaled and the relay has it, and without a notice before one funding went to a wallet; with a closed window nothing is handed over |
| `Engine.Engine.HandFundingToWallet` | internal/app/engine.go:1276-1317 | On success exactly one funding hand-over was added, and the notice names the maker's asset and, on Bitcoin, the journaled transaction |
| `Engine.Engine.EnsureLocalClaim` | internal/app/engine.go:1365-1435 | On success exactly one own claim was added, under the claim rules, through the journal if and only if the counterparty funds Bitcoin |
| `Engine.Engine.BroadcastProxyMakerClaim` | internal/app/async_engine.go:753-794 | On success it has looked for the maker's claim and published the completed one unless that was visible, and changed nothing else it remembers |
| `Engine.Engine.WaitWhenDue` | internal/app/engine.go:1551-1583 | With own funding: waiting only with the counterparty's claim looked for in vain and the chain of the own leg at its refund height; going on only with the claim visible or that height not reached |
| `Engine.Engine.RefundStateConfirmed` | internal/app/engine.go:1798-1814 | Reports the refund of that same leg |
| `Engine.Engine.Initialize` | internal/app/async_engine.go:153-211 | Ends approved in the first phase with exactly the agreement both parties derive from the order and acceptance |
| `Engine.Engine.JournalTakerNotice` | internal/app/async_engine.go:55-67 | The stored taker notice is the one the signed acceptance describes, field by field, and only a well-formed one |
| `Engine.Engine.JournalAgreement` | internal/app/async_engine.go:173-189 | Stores the derived agreement once; a later pass must derive the same |
| `Engine.Engine.AcceptFundingNotice` | internal/app/engine.go:909-945 | On success the stored notice is the peer's own, of its asset, once and for all, and a Bitcoin funding was relayed; the phase stays |
| `Engine.Engine.DriveTakerFunding` | internal/app/async_engine.go:283-314 | Does what the decision table says about what the round saw; a round without an error has met the funding confirmed, or published it, marked it and looked again |
| `Engine.Engine.DriveTakerFunded` | internal/app/async_engine.go:316-329 | The same for this phase, including the reorganization rewind |
| `Engine.Engine.DriveMakerFunding` | internal/app/async_engine.go:331-362 | The same; unless it goes back, a maker's round has delivered template and notice and handed its funding to a wallet if none was out |
| `Engine.Engine.DriveMakerFunded` | internal/app/async_engine.go:364-389 | The same; a taker without a template waits |
| `Engine.Engine.DriveTakerClaimed` | internal/app/async_engine.go:433-446 | The same for this phase |
| `Engine.Engine.DriveMakerClaiming` | internal/app/async_engine.go:448-502 | The same; unless it goes back, the round has looked for the maker's claim and, if it was not there, met the taker funding confirmed and sent the claim: the maker its own, the taker the completed one unless a second look found it, with one more look after that |
| `Engine.Engine.DriveComplete` | internal/app/async_engine.go:504-523 | The same; a swap stays complete only with both claims looked at and settled, and is reopened when one is not |
| `Engine.Engine.DriveRefunding` | internal/app/async_engine.go:531-539 | The same; a round without an error has looked at the leg that ends the swap and sent an own refund: always on Bitcoin, on QDAY unless it was there |
| `Engine.Engine.DriveRefunded` | internal/app/async_engine.go:541-551 | The same; it rests only with that refund seen confirmed, and an unconfirmed one is driven again |
| `Engine.RankFalls` | internal/app/async_engine.go:253-559 | The distance from rest never grows with growing answers and is at most thirteen |
| `Engine.LostFundingIsCloser` | internal/app/async_engine.go:364-408 | Rewinding after a lost funding still brings the pass closer to rest |
| `Engine.ActionsDiffer` | internal/app/engine.go:1289-1400 | No two actions share an action ID, of one swap or of two |
| `Engine.Engine.Advance` | internal/swapstate/journal.go:701-714 | Commits exactly the new phase with a cleared error, unless interrupted; an edge the graph lacks is refused and nothing changes |
| `Engine.Engine.ObserveClaim` | internal/app/engine.go:1437-1474 | Whether the other leg is claimed, and settled, in the chain view at that moment, and with which secret |
| `Engine.Engine.EnsureFundingWindows` | internal/app/engine.go:1680-1707 | Open if and only if, in the chain view at that moment, QDAY is at least 360 and Bitcoin at least 36 blocks below the refund heights of the agreement |
| `Engine.Engine.RecoverSubmittedLocalFunding` | internal/app/engine.go:1586-1621 | Own funding is found exactly when it was recorded as broadcast or the wallet knows it, and on Bitcoin it is the journaled transaction |
| `Engine.Engine.RestoreOwnFunding` | internal/app/engine.go:1484-1518 | True exactly when the own leg counts as funded in the stored record; false only after a vain search that changes nothing |
| `Engine.Engine.AbandonOrWait` | internal/app/engine.go:1519-1550 | Without own funding and with a window seen closed: expired if and only if the phase is the first, in any other a refused write and the record as it was; with open windows waiting, or why not |
| `Engine.Engine.Abandon` | internal/app/engine.go:1527-1533 | Release, then expire, with those two ends |
| `Engine.Engine.Expire` | internal/app/engine.go:1530-1532 | Unless interrupted: expired from the first phase, InvalidAdvance and no change from any other |
| `Engine.Engine.MaybeStartRefund` | internal/app/engine.go:1476-1584 | Turns to the refund path, or states exactly why the swap goes on, in heights of the own leg's chain; hands nothing over; a window seen closed without own funding ends it as above |
| `Engine.Engine.EnsureLocalRefund` | internal/app/engine.go:1709-1796 | Reports the refund of the leg that ends the swap; on consistent chains success means FindSpend shows that refund too |
| `Engine.Engine.RefundTransaction` | internal/app/engine.go:1783-1795 | The second question about a refund: confirmed exactly when the journaled refund is mined |
| `Engine.Engine.ProcessPeerMessages` | internal/app/engine.go:537-623 | On success every message has left in the record what it says, funding notices and templates included; messages never move the phase, and a maker's add nothing about its own funding or actions |
| `Engine.Engine.AcceptMakerClaimTemplate` | internal/app/async_engine.go:655-751 | The taker stores a template only for its own funding, and only with that template completed with its secret and journaled |
| `Engine.Engine.PrepareProxyClaim` | internal/app/async_engine.go:687-747 | The journaled proxy claim is the completed template under the template's transaction ID |
| `Engine.Engine.DriveTakerClaiming` | internal/app/async_engine.go:391-431 | The same; unless it goes back or waits for a template, a taker's round has sent its own claim, looked for the maker's after it and published that if it was not there, then looked for its own; the journaled secret is the visible one |
| `Engine.Engine.DriveRound` | internal/app/async_engine.go:253-557 | A round ends on the refund path, where the decision table leads, or at rest, and unless it turns to the refund path or goes back it has done what its phase asks for (Rounds.Does); without own funding and with closed windows it expires from the first phase and from any other stops with InvalidAdvance and an unchanged record |
| `Engine.Engine.DriveRounds` | internal/app/async_engine.go:253-559 | With consistent, growing chain answers sixteen rounds always suffice; a quiet end comes from a round that did what its phase asks for and whose looks lead nowhere else |
| `Engine.Engine.DriveAsyncSwap` | internal/app/async_engine.go:242-560 | Every event of a pass obeys the rules and agrees with the chains at that moment; a quiet end means the last round did what its phase asks for, nothing is left to decide and every message was taken; no legacy phase; on steady chains no transition limit; other swaps untouched |
| `Engine.DriveSwap` | internal/app/engine.go:434-481 | Passes compose into one permitted run; a quiet one did what its phase asks for; a provisional match is skipped; a dormant swap expires if and only if it is in the first phase, and past it each pass fails and leaves it where it was |
| `Engine.DriveTicks` | internal/app/engine.go:121-141 | Where "every abandoned swap ends" fails: a swap past the first phase without own funding, with windows closed at each tick, fails pass after pass in the same phase, whatever the peer sends |
| `Engine.StrandedReachable` | internal/app/engine.go:1519-1550 | That family is not empty: every released maker record has a permitted run into it, with the taker funding confirmed |
| `Engine.IdleIsMaker` | internal/app/engine.go:1519-1550 | Past the first phase only makers, and only in two phases, can be without own funding |
| `Engine.Engine.SendProtocolMessage` | internal/app/engine.go:761-813 | Only the outbox changes; success means some state of the relay accepted the very envelope bound to the step, and of a template message that it was delivered in this iteration |
| `Engine.Engine.JournalEnvelope` | internal/app/engine.go:787-810 | A step not bound yet is bound to an envelope from this participant to its counterparty about this trade, with the next sequence of its stream, before anything is sent |
| `Engine.Engine.ObserveDue` | internal/app/engine.go:1565-1577 | Due if and only if the chain of that leg, in the view at that moment, has reached the refund height of the agreement |
| `Engine.FundedWhileOpen` | internal/app/engine.go:1680-1707 | Whenever the maker's funding was handed to a wallet, the same iteration had met the chains 360 QDAY and 36 Bitcoin blocks short of the agreement's refund heights, and the taker funding confirmed |
| `Engine.RevealedOverConfirmed` | internal/app/async_engine.go:391-420 | Whenever the taker revealed its secret, the same iteration had met both fundings confirmed on the chains |
| `Engine.RefundedWhenReached` | internal/app/engine.go:1565-1583 | Whenever a participant turned to the refund path with its funding out, the same iteration had met the chain of that leg at or past its refund height |
| `Actions.ReconcileBitcoinAction` | internal/app/engine.go:1930-1946 | The stored action and the answer are those of the reconciliation; other actions stay |
| `Actions.OneTransactionPerAction` | internal/swapstate/journal.go:899-972 | Over all interleavings of two workers and crashes at most one byte string is broadcast per action, the journaled one |
| `Actions.JournaledBytesNeverChange` | internal/swapstate/journal.go:899-931 | The journaled transaction of an action never changes afterwards |
| `Actions.MarkFailsExactly` | internal/app/engine.go:1933-1938 | In every reachable race of two workers the first journal call fails exactly for a prepared copy of an action stored as confirmed |
| `Actions.FinishFailsExactly` | internal/app/engine.go:1939-1944 | And the second exactly for an unmined transaction, a confirmed copy and an action stored as no longer confirmed |
| `Actions.MarkFailureHappens` | internal/app/engine.go:1933-1938 | A run of two workers that ends in that first failure |
| `Actions.FinishFailureHappens` | internal/app/engine.go:1939-1944 | A run of two workers that ends in that second failure |
| `Actions.RetrySucceeds` | internal/app/engine.go:1930-1946 | From any reachable race a worker that starts over and is left alone succeeds, and the action ends confirmed exactly when mined |
| `Actions.ReconciledIsSent` | internal/app/engine.go:1930-1946 | A reconciliation that succeeds leaves the action confirmed exactly when its transaction is mined, and never as if it had not been sent |
| `SwapState.ApplyExtends` | internal/swapstate/journal.go:701-886 | No single update takes back evidence |
| `SwapState.EvidenceIsWriteOnce` | internal/swapstate/journal.go:701-886 | Nor does any sequence of attempted updates |
| `SwapState.Journal.UpdateSwap` | internal/swapstate/journal.go:1007-1028 | One transaction on one record: the computed update or no change |
| `SwapState.Journal.Create` | internal/swapstate/journal.go:591-628 | A new record with nothing done yet, provisional for a maker and not for a taker; the same selection again; or an immutability error exactly for another selection under that trade ID; never an overwrite |
| `SwapState.Journal.RemoveRelayPendingSwap` | internal/swapstate/journal.go:640-668 | Succeeds exactly for a provisional selection without any action, and removes only that |
| `SwapState.Journal.PrepareAction` | internal/swapstate/journal.go:899-931 | Returns the journaled action if the data agree, and conflicts otherwise |
| `SwapState.Journal.MarkConfirmed` | internal/swapstate/journal.go:947-960 | Refused for height zero and for an action never broadcast |
| `SwapState.Journal.MarkReorged` | internal/swapstate/journal.go:962-972 | Allowed from confirmed only, and forgets the height |
| `SwapState.Journal.SaveOutboundMessage` | internal/swapstate/journal.go:370-435 | A protocol step is bound to one envelope for good, in the transaction that stores it |
| `SwapState.Journal.SaveRelayMessage` | internal/swapstate/journal.go:344-364 | Stores a verified message once |
| `SwapState.Journal.SetRelayCursor` | internal/swapstate/journal.go:482-493 | The durable cursor never moves back |
| `SwapState.RetryChangesNothing` | internal/swapstate/journal.go:737-886 | Storing the same evidence again succeeds and changes nothing, so a pass may be repeated |
| `SwapState.OtherIsRefused` | internal/swapstate/journal.go:737-886 | Storing other evidence in its place is refused, and nothing else is |
| `Relay.Store.Publish` | internal/relay/store.go:146-183 | Commits the new open order or nothing; idempotent; refused at the maker quota |
| `Relay.Store.CountOpen` | internal/relay/store.go:158-170 | Counts the maker's orders that are open now |
| `Relay.Store.Cancel` | internal/relay/store.go:185-221 | Commits a cancellation of an open own order; idempotent |
| `Relay.Store.SubmitAcceptance` | internal/relay/mailbox.go:54-133 | Commits all puts of a new acceptance or none; refuses tombstoned, duplicate and excess ones |
| `Relay.Store.CountPending` | internal/relay/mailbox.go:95-115 | Counts pending acceptances, or stops at one of the same taker |
| `Relay.Store.CancelAcceptance` | internal/relay/mailbox.go:138-220 | Commits a cancellation, marking the acceptance if known; refused once matched |
| `Relay.Store.ConfirmMatch` | internal/relay/mailbox.go:222-277 | Commits the match of an open order with a standing acceptance; idempotent |
| `Relay.Store.PublishMessage` | internal/relay/mailbox.go:279-350 | Stores only the next sequence of its stream; idempotent by ID |
| `Relay.Store.PollMailbox` | internal/relay/mailbox.go:352-382 | The page of a mailbox after a cursor, with whether more follows |
| `RelaySafety.AlwaysConsistent` | internal/relay/mailbox.go:54-277 | In every reachable state acceptances, cancellations and matches agree with each other |
| `RelaySafety.NoMatchOnCancelled` | internal/relay/mailbox.go:222-277 | No order is matched to a cancelled acceptance |
| `RelaySafety.CancellationMarksAcceptance` | internal/relay/mailbox.go:138-220 | A stored acceptance has a cancellation under its key exactly when it is marked, and that cancellation binds it |
| `RelaySafety.LateSubmitRefused` | internal/relay/mailbox.go:79-94 | A late submit of a cancelled acceptance meets its tombstone, whatever signature or time it carries |
| `RelaySafety.TombstoneIsForever` | internal/relay/mailbox.go:135-220 | Once a binding cancellation of an unseen acceptance is stored, no later run stores or matches that acceptance |
| `RelayWitness.TombstoneHappens` | internal/relay/mailbox.go:79-94 | A concrete run that meets all hypotheses of the two: an order, an early cancellation, and the late submit refused |
| `RelayWitness.ClosingHappens` | internal/app/funds.go:151-169 | Concrete verified records for that run |
| `RelayMessages.AlwaysFiled` | internal/relay/mailbox.go:279-350 | Numbering, index and mailboxes are consistent in every reachable state |
| `RelayMessages.ExactlyOneToHead` | internal/relay/mailbox.go:310-341 | The messages of a trade and sender carry exactly the sequences 1 to head |
| `RelayMessages.OneEnvelopePerSequence` | internal/relay/mailbox.go:310-317 | No sequence is bound to two envelopes |
| `RelayMessages.MessagesStay` | internal/relay/mailbox.go:306-333 | A stored message stays, unchanged, in every later state |
| `RelayMessages.MailboxInOrder` | internal/relay/mailbox.go:342-416 | Cursors count from one; a sender's messages of a trade stand in strictly increasing sequence; all are stored and addressed to the owner |
| `RelayMessages.DeliveredOnce` | internal/relay/mailbox.go:342-345 | Every stored message stands at exactly one cursor of its recipient |
| `RelayMessages.NoGapBefore` | internal/relay/mailbox.go:310-341 | Before any message of a sender in a trade stand all its earlier numbers, each on a message of that very sender and trade |
| `RelayRecords.AlwaysSigned` | internal/relay/mailbox.go:54-350 | In every reachable state each stored order, acceptance, cancellation, match and message is signed under the key it names, on its own signing bytes; no order is cancelled or matched without its maker's signature |
| `RelayRecords.MatchDeliveredOnce` | internal/relay/mailbox.go:262-276 | In every reachable state the match of a matched order stands in its taker's mailbox exactly once, and in no other |
| `RelayRecords.AcceptanceDeliveredOnce` | internal/relay/mailbox.go:117-133 | In every reachable state a stored acceptance stands exactly once in the mailbox of the maker of its order |
| `RelayRecords.MessagesAlwaysBelong` | internal/relay/mailbox.go:279-305 | In every reachable state a message belongs to a matched order, names its trade, is no older than the match and runs between its maker and its taker |
| `RelayRecords.OrdersCloseOnly` | internal/relay/store.go:185-221 | An order changes only while it is open and unexpired, and only into a cancelled or a matched one |
| `RelayRecords.PublishRefusal` | internal/relay/store.go:158-170 | The order quota refuses only with a hundred open orders of that maker |
| `RelayRecords.SubmitDecided` | internal/relay/mailbox.go:54-115 | An acceptance is stored only for an open order, with no other of that taker and fewer than a hundred waiting; and refused only for an order not open, its own cancellation, another one of that taker waiting, or a hundred waiting |
| `RelayRecords.RevokeRefusal` | internal/relay/mailbox.go:138-200 | A cancellation is refused as matched or as excess only if the order stands on that acceptance or a thousand are stored |
| `RelayRecords.MatchRefusal` | internal/relay/mailbox.go:222-260 | A match is refused as not open or as cancelled only for an order that is not open or an acceptance that was cancelled |
| `RelayLimits.AlwaysLimited` | internal/relay/store.go:158-170 | The quotas on open orders, pending acceptances and cancellations hold in every reachable state |
| `RelayLimits.QuotasHold` | internal/relay/mailbox.go:95-183 | And at any later time, with at most one pending acceptance per taker and order |
| `Outbound.NextSequence` | internal/app/engine.go:788-800 | One past the largest own sequence in the journal |
| `Outbound.NewEnvelope` | internal/app/engine.go:761-813 | A new number means an identity not journaled before |
| `Outbound.MoveCoupled` | internal/app/engine.go:761-813 | Composing, delivering, receiving and anything others do at the relay keep outbox and relay coupled |
| `Outbound.RelayHoldsPrefix` | internal/relay/mailbox.go:279-350 | With any losses, retries and crashes the relay's messages of an honest sender are a prefix of its journaled outbox |
| `Outbound.OutboxOnlyGrows` | internal/swapstate/journal.go:370-435 | The outbox only grows, so no number goes to a second envelope |
| `Sync.PageExact` | internal/relay/mailbox.go:352-382 | A page is exactly the next items after the cursor |
| `Sync.ReadsExactlyOnce` | internal/relay/mailbox.go:352-382 | Following the cursor from anywhere, with any limits, while items arrive, yields every later item once and in order, and no more means caught up |
| `Sync.Reader.HandleAcceptance` | internal/app/service.go:1459-1520 | It ends with the order closed, its swap released if this acceptance closed it, or with the acceptance expired, cancelled or refused; a provisional selection outlives it if and only if it was there before and, when fetched, the order was closed by something else or the acceptance had expired |
| `Sync.Reader.SyncTicks` | internal/app/engine.go:121-141 | A provisional selection whose acceptance the cursor has passed stays exactly as it is over any number of passes |
| `Sync.Reader.constructor` | internal/app/service.go:1409-1443 | A client starts from any consistent relay whose matches of its orders are journaled |
| `Sync.Reader.PresentConsistent` | internal/app/service.go:1132-1182 | In every state the client can bring about, each own order the relay has matched is journaled |
| `Sync.Reader.SyncRelay` | internal/app/service.go:1440-1571 | Every item up to the durable cursor was handled; a completed pass has handled all items present at its start; all acts of the pass are careful |
| `Sync.Reader.SyncPage` | internal/app/service.go:1447-1567 | The cursor moves only past an item handled to the end |
| `Sync.Reader.Handle` | internal/app/service.go:1457-1556 | A handled message or match is in the journal for good; a handled acceptance is answered for good |
| `Sync.Reader.HandleMatch` | internal/app/service.go:1521-1545 | A match of an own acceptance is journaled as a swap to take |
| `Sync.Reader.Adopt` | internal/app/service.go:1478-1492 | A match the relay already has is journaled and released |
| `Sync.Reader.Choose` | internal/app/service.go:1132-1171 | The selection is journaled, with a match of exactly this acceptance, after agreement and funding were checked |
| `Sync.Reader.SendMatch` | internal/app/service.go:1172-1178 | Sends only a match whose selection is journaled; the answer "cancelled" means the relay has marked the acceptance |
| `Sync.Reader.MatchAcceptance` | internal/app/service.go:1132-1198 | Released only after the relay matched; cancelled only if the relay says so; refused only for its terms |
| `Sync.Reader.Withdraw` | internal/app/service.go:1510-1513 | A provisional selection is dropped only once the relay called its acceptance cancelled |
| `Sync.Reader.Arrive` | internal/relay/mailbox.go:54-350 | Whatever reaches the relay, no handled item loses its answer and no posted match turns harmful |
| `Scenes.ReservedForGood` | internal/app/service.go:1493-1495 | A selection still provisional when its acceptance has been passed by is reserved at every later reading of the funds |
| `Scenes.AcceptancesAlwaysFiled` | internal/relay/mailbox.go:117-133 | In every reachable state a mailbox names an acceptance at most once, as it is stored |
| `Scenes.KeptLater` | internal/app/service.go:1457-1563 | What handling an item left stays, whatever the relay, the clocks and the journal do later |
| `Terms.HeightsExact` | internal/trade/protocol.go:245-267 | For every valid version 2 acceptance the machine arithmetic equals the formula over unbounded integers |
| `Terms.BoundedHeightsExact` | internal/trade/protocol.go:245-267 | And fails exactly when the exact height does not fit |
| `Terms.TakerWaitsLonger` | internal/trade/protocol.go:245-267 | At 60 and 600 seconds a block the taker leg refunds at least 85,860 s after the maker leg, a full day when the maker gives QDAY, and the maker leg at least a day past order expiry |
| `Terms.GapIsTight` | internal/trade/protocol.go:245-267 | Those 85,860 s and that day are reached when the maker gives Bitcoin, so the bounds are exact |
| `Terms.AgreementUnique` | internal/swap/terms.go:272-325 | At most one agreement passes validation for an order and acceptance |
| `Terms.BuilderMeetsValidator` | internal/swap/terms.go:139-190 | The built agreement is the validated one if and only if the acceptance signs the derived heights; EachFundsItsAmount and AgreementIsSigned say what either contains |
| `Terms.BuilderMayRefuseValidated` | internal/swap/terms.go:272-325 | A signed order and acceptance where validation accepts an agreement the builder does not return |
| `Terms.KeysFollowFunding` | internal/app/async_engine.go:69-94 | On each chain the refund key is the funder's and the claim key the other party's, with opposite QDAY roles |
| `Terms.GapIsTightGivingQDAY` | internal/trade/protocol.go:245-267 | And both days when it gives QDAY |
| `Terms.EachFundsItsAmount` | internal/swap/terms.go:139-190 | In every built or validated agreement each party funds exactly what the order names for it, asset and amount, in either direction of the pair |
| `Terms.AgreementIsSigned` | internal/swap/terms.go:272-325 | A validated agreement says what the two parties signed, field by field, with the refund heights of the exact formula |
| `Trade.VerifiedAtCreation` | internal/swapstate/journal.go:344-350 | A message the relay accepted also verifies at its creation time, where a late reader checks it |
| `Trade.AcceptanceIdentity` | internal/trade/protocol.go:299-322 | Two verified acceptances with one ID are the same acceptance, if no other text has its digest |
| `Trade.MessageIdentity` | internal/trade/protocol.go:631-651 | Two verified messages with one ID are the same message, if no other text has its digest |
| `Trade.ValidatedReads` | internal/trade/protocol.go:671-810 | Whatever validation accepts, of all seven kinds of record, is recovered exactly from the bytes it signs |
| `Encoding.SigningBytesInjective` | internal/trade/protocol.go:381-415 | Signing bytes determine kind, version and every field, the funding list included |
| `Encoding.TagsDiverge` | internal/order/order.go:36-40 | No domain tag is a prefix of another |
| `Encoding.AcceptanceSigningBytes` | internal/trade/protocol.go:381-415 | The buffer with its loop over funding transactions produces the specified bytes |
| `Encoding.CanonicalEncoder.Put` | internal/order/order.go:446-477 | Appends one field and nothing else |
| `Encoding.ReadInverts` | internal/order/order.go:237-266 | A reader recovers every record that fits the encoding from its signing bytes |
| `Encoding.IdentitiesDistinct` | internal/trade/protocol.go:183-193 | A record of any kind shares its identity with no other, if no other text has its digest |
| `Script.NumberInverse` | internal/bitcoinlike/htlc.go:76 | Every 32-bit height survives as a script number |
| `Script.ParseInverts` | internal/bitcoinlike/htlc.go:69-81 | The opcodes are read back from the script bytes |
| `Htlc.SatisfiedExactly` | internal/bitcoinlike/htlc.go:61-82 | A stack satisfies the emitted script if and only if it is a claim or a refund stack, under consensus and under policy rules |
| `Htlc.ClaimRun` | internal/bitcoinlike/htlc.go:71-74 | What the claim branch does to any stack |
| `Htlc.RefundRun` | internal/bitcoinlike/htlc.go:76-80 | What the refund branch does to any stack |
| `Spends.FindFunding` | internal/bitcoinlike/htlc.go:94-119 | Returns an output only if it is the single matching one, and fails only if none or several match |
| `Spends.SpendExactly` | internal/bitcoinlike/htlc.go:61-92 | A spend of the contract output is valid exactly when it shows the script with a claim or refund stack |
| `Spends.BeforeRefundHeight` | internal/bitcoinlike/htlc.go:61-82 | Up to the refund height every mined spend holds a preimage of the secret hash and a recipient signature |
| `Spends.RefundRecognised` | internal/bitcoinlike/htlc.go:316-342 | A valid spend is recognised as a refund exactly when it took the refund branch with the canonical flag |
| `Spends.ClaimRecognised` | internal/bitcoinlike/htlc.go:285-314 | A valid claim of the funding yields the secret exactly when it has no further inputs |
| `Spends.CompletionKeepsID` | internal/bitcoinlike/htlc.go:234-277 | Completing any template keeps its transaction ID, what it spends and what it pays, satisfies the script, may be mined at once and reveals the secret |
| `Spends.TemplateThenSecretIsClaim` | internal/bitcoinlike/htlc.go:136-277 | For all inputs template then completion equals the direct claim, refusals included, and pays all of the amount but the fee to the destination |
| `Spends.TemplateRoundTrip` | internal/bitcoinlike/htlc.go:136-314 | The whole round trip from template to extracted secret, with template and claim paying the amount less the fee to the destination |
| `Spends.RefundIsValid` | internal/bitcoinlike/htlc.go:279-283 | A built refund is valid and recognised, pays the amount less the fee to the destination, and is minable exactly above the refund height |
| `Spends.FeeAccepted` | internal/app/engine.go:1916-1928 | For every amount an order may name the fee is positive and at most a tenth |
| `Spends.ExtractedIsTheSecret` | internal/bitcoinlike/htlc.go:285-314 | No transaction can pass off another text as the secret; of the valid spends that stand alone, every claim and no refund yields it |
| `Spends.SpendPays` | internal/bitcoinlike/htlc.go:136-190 | Every claim and every refund spends the funding alone and pays all of the amount but the fee to the destination; a claim may be mined at once |
| `Spends.TemplatePays` | internal/bitcoinlike/htlc.go:199-232 | So do every template and whatever completes it |
| `Spends.FundingHoldsContract` | internal/bitcoinlike/htlc.go:85-119 | An output FindFunding looks for can be spent exactly by the spends of the contract, under the witness rule of BIP 141 |
| `Spends.FeeValues` | internal/app/engine.go:1916-1928 | The fee on each stretch: a hundredth between 100,000 and 1,000,000 satoshi, 1,000 and 10,000 outside, half of an amount up to 1,000 |
| `Chain.MinedIsFound` | internal/bitcoinwallet/swap.go:379-401 | What is mined under the ID of the journaled refund is what FindSpend returns |
| `Chain.RefundAnswersAgree` | internal/app/engine.go:1779-1850 | Both questions about a mined refund have one answer exactly when its mined witness has the refund shape with the empty flag, which the relay policy enforces |
| `Chain.FlagIsMalleable` | internal/bitcoinlike/htlc.go:316-342 | Under consensus alone they can differ: the same refund with a zero byte for a flag is valid, keeps its ID and is not recognised |
| `Chain.LegsAgree` | internal/app/engine.go:1709-1850 | So the answers the engine relies on agree on every chain whose mined spends meet the relay policy |
| `Chain.ContractFollowsOrder` | internal/app/engine.go:741-759 | The Bitcoin contract of a validated agreement locks what the order names for the party funding Bitcoin, for the other party's signed key to claim and its own to take back |
| `Chain.RefundDueWhenMinable` | internal/app/engine.go:1571-1577 | A Bitcoin leg counts as due at a height if and only if the contract's refund may be mined in the next block, and that refund pays the agreed amount less the fee |
| `Decimal.DecimalExact` | internal/app/service.go:1286-1322 | Accepts exactly the positive plain decimals with few enough places, and scales them exactly |
| `Decimal.AtomicRoundTrip` | internal/app/service.go:1356-1371 | Printing a canonical amount and reading it back is the identity |
| `Decimal.DecimalRoundTrip` | internal/app/service.go:1286-1371 | Reading and printing only strips redundant zeros |
| `Decimal.FormatBTC` | internal/bitcoinwallet/manager.go:476-491 | Agrees with atomicDecimal at eight places, for negative amounts after the sign |
| `Decimal.CoinSplits` | internal/bitcoinwallet/manager.go:482-490 | Dividing by a hundred million is cutting eight digits off the text |
| `Funds.TotalAnyFirst` | internal/app/funds.go:189-198 | The sum does not depend on the order the map yields its entries |
| `Funds.ReservedFunds` | internal/app/funds.go:84-199 | Fails exactly for an unverified listed order, a malformed amount or two amounts under one key; otherwise the entries hold exactly the sources, one per key, and the totals are their sums |
| `Funds.ReservesWhileNotOut` | internal/app/funds.go:151-185 | On every reachable record the amount is held back exactly while the swap is neither over nor being refunded and the own funding is not out |
| `Funds.OneReservation` | internal/app/funds.go:110-185 | An order and its selected swap, or an own acceptance and the swap it led to, go under one key with one amount: what the order gives, or asks for |
| `Funds.OrderAmountCounts` | internal/app/funds.go:84-108 | An amount an order names counts as what it says on its own asset and as nothing on the other |
| `Snapshot.OpenIsCounted` | internal/app/funds.go:110-131 | An own order open when the relay is read has its entry |
| `Snapshot.MatchedIsCounted` | internal/app/funds.go:151-185 | An own order matched by then has its entry as long as its swap, read later, still reserves |
| `Snapshot.ActKeepsSelected` | internal/app/service.go:1132-1182 | Every own order the relay has matched stands in the journal after any careful act |
| `Snapshot.AlwaysSelected` | internal/app/service.go:1132-1182 | And so over whole runs; Sync.Reader produces no others |
| `Snapshot.CountedOnce` | internal/app/funds.go:95-108 | An own order listed as open and its selected swap share one key and one amount, and it counts once |
| `Snapshot.ClosedReservesExactly` | internal/app/funds.go:110-185 | An own order that is not listed reserves its amount if and only if some maker swap of it still does |
| `Snapshot.ClosedOwnOrder` | internal/app/funds.go:110-185 | So at the relay and in the journal: a closed own order reserves nothing if and only if no journaled swap of it holds on |
| `Snapshot.ClosedStillReserved` | internal/app/funds.go:151-169 | From an empty relay and journal four careful acts (publish, accept, select, cancel) close an order with its amount reserved |
| `Snapshot.TakerCountedOnce` | internal/app/funds.go:133-185 | An own acceptance still pending and the swap it led to share one key and one amount, what the order asks for, and count once |
| `Listing.List` | internal/relay/store.go:235-298 | One page of exactly the matching orders, each once, newest first |
| `Listing.ListingUnique` | internal/relay/store.go:274-279 | The sorted listing is determined by what it lists, so a page is too |
| `Listing.PagesCover` | internal/relay/store.go:285-297 | The pages up to the last, one after the other, are the whole listing |
| `Listing.ListingIsOnePage` | internal/app/funds.go:110-131 | In every reachable state the first page of a hundred holds all own open orders, so the relay is read at one moment |
| `Listing.ListOwn` | internal/app/funds.go:110-131 | The loop over the pages then asks once and returns exactly those orders |
| `Listing.ListedExactly` | internal/relay/store.go:235-298 | What is listed: exactly the orders of the wanted status, market, asset and maker, newer ones first |
| `Listing.PageSizes` | internal/relay/store.go:235-243 | A page holds twenty unless between one and a hundred are asked for |

## Left out

- The legacy engine (`driveExecution`, hello and agreement exchange): a smaller twin with the secret owner swapped; version 2 records only meet its messages as errors.
- HTTP, the browser interface, process and file handling, key storage, recovery import and price display.
- Raw transaction, JSON, hex and base64 encodings: records and transactions are compared as values, and a record that fails to decode is not modelled.
- Record timestamps, `lastError` writes after a pass and mailbox cursors per swap: no decision of the engine reads them.
- Read errors of the journal: the engine ignores some of them in the source; here reading a stored record succeeds.
- Concurrency inside one process: the engine mutex is taken as given, except for Bitcoin actions (two workers), the relay while the mailbox is read (others' operations between any two calls) and reservation snapshots (interleaved acts).
- `time.Time` outside whole seconds and outside 64-bit Unix time.
- Wallet internals: which output of a QDAY wallet view a transaction funds, fee estimation, input reservations and their release.
- `reconcileNegotiations`, retries of pending acceptances and the taker half of matching before a match arrives.
- `Stats` and `Trades` of the relay: counters.
- Engine.Engine.AcceptMakerClaimTemplate: what completing a template returns is a parameter of the engine; `Spends` proves what it returns on the Bitcoin leg, and the QDAY completion is a wallet call.
- Engine.Engine.SendProtocolMessage: the relay answers from any state it may be in, which is not carried from one message to the next here; `Outbound` couples the two. The encrypted payload, its times and its nonce are arbitrary.
- Engine.Engine.EnsureLocalRefund: that both answers about a refund agree is the condition `Coherent` of a steady view here; `Chain` derives it for a chain under the relay policy, and the QDAY wallet answers both by one status.
- Sync.Reader.HandleAcceptance: incoming acceptances themselves are not journaled in the model, so matching one by hand from the browser is left out, and initializing a released swap is `Engine.Engine.Initialize`.
- Funds.ReservedFunds: the taker side is summed like the source does, but its continuity past the acceptance deadline is not claimed, because the source skips expired acceptances.
- Decimal.FormatBTC: nothing is stated for the smallest 64-bit integer, whose negation wraps.
- Script.ParseInverts: only the opcodes of the contract; pushes above 75 bytes, size limits and signature encodings are not part of this model.
- `roundPositiveRat` and the price conversions.
