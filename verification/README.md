# Verification of the commerce voice agent's core

This project models the parts of the agent where money, authority and caller consent are decided, and
proves what they keep. Each state-changing part is a class (or a method with a loop) proved equal to a
specification function; the laws are proved about that function, over every run or every interleaving.

| files | what they cover |
|---|---|
| `Orders`, `OrderLaws`, `OrderReceipts`, `OrderAnswers`, `OrderStore`, `Receipts` | the order store's four idempotency ledgers: conservation of money, exclusivity of remedies, exactly-once through crashes |
| `Principals`, `PrincipalLaws`, `PrincipalAnswers` | switching the caller and rotating the checkpoint thread, with a fault possible at every await |
| `Recovery`, `RecoveryLaws`, `RecoveryAnswers` | recovery markers: who seeds them, who checks them, and what recovery concludes from the ledgers |
| `Verification`, `VerificationLaws`, `VerificationAnswers` | one-time-code challenges and the proofs they earn |
| `Quiescence`, `Closing`, `Admission` | the execution tracker, closing a session, and admitting turns, as interleaved atomic steps |
| `Consent`, `Spoken`, `Catalog` | the consent search, the phone redactor, and catalog ranking, each against a declarative specification |
| `Cart`, `RecentOrders`, `Routing` | the cart and its receipts, recent order references, route materialisation and resolution |
| `Partitions`, `Capacity`, `Budgets` | the routing-data leak audit, acquisition capacity, and acceptance budgets |
| `Amounts` | amounts counted against keys, added up key by key and in total, for the ledgers and for the plan |
| `Common` | result types, ASCII text, insertion-ordered dictionaries |

The `*Laws` files state what runs keep; the `*Answers` files state what each caller is told and when, on the
fields the answer is decided by.

Dictionaries whose order shows (ledgers, the cart) are sequences of items in insertion order. Money is
whole cents. Awaited calls are atomic steps with a fault value that says whether the other side acted.

Where a promise holds only under a condition, the condition is proved exactly and a witness shows it fail:

- a refused cancellation changes nothing, unless the fixture holds a blank order id
  (`OrderReceipts.RefusalChangesNothingIff`);
- the refund guards refuse only what would unbalance the ledgers, except a refund of nothing on a voided
  or unknown order (`OrderReceipts.RefundAcceptedIffSound`);
- an invalidated principal leaves nothing behind, except what its own failed cleanups leave
  (`PrincipalLaws.InvalidationLeavesNoPrincipal`);
- a node handler's marker passes both checks of recovery markers, except that the engine's refuses it on
  the checkpoint the handler leaves (`RecoveryLaws.HandlerMarkerAgreesIff`);
- recording a snapshot of recent orders again gives it back, unless it was truncated
  (`RecentOrders.RecordingAgainKeepsIffComplete`);
- saying a whole product name makes that product a candidate, unless its several words are all the same
  word (`Catalog.SpokenNameQualifiesIff`);
- passing the overall acceptance budget does not pass every domain's (`Budgets.OverallDoesNotImplyDomains`).

The consent search answers no to an empty reply even when a signal phrase is empty
(`Consent.IsBoundedAffirmative`).

## Model

| member | source | states |
|---|---|---|
| OrderLaws.RunKeepsInv | src/agnostic_market/commerce/orders.py:793-1367 | every run of placements, refunds, returns and cancellations from a sound fixture keeps the four ledgers, the counters and the cancel overlay consistent |
| OrderLaws.OrderConserved | src/agnostic_market/commerce/orders.py:1131-1194 | for each order, captured total if cancelled plus refunds paid plus refunds promised never exceeds what was captured; unknown orders have none of these |
| OrderLaws.StoreConserved | src/agnostic_market/commerce/orders.py:1073-1130 | summed over the whole store, all voids, refunds and promised refunds together never exceed all captures |
| OrderLaws.CancelledExcludesOtherRemedies | src/agnostic_market/commerce/orders.py:1326-1367 | a cancelled order has exactly one cancel record, for all it captured, no refunded money and no return |
| OrderLaws.NoReturnNothingDue | src/agnostic_market/commerce/orders.py:1258-1291 | without an open return nothing is promised, so the balance check of a new return may leave the promised term out |
| OrderLaws.CapturedIsCaptures | src/agnostic_market/commerce/orders.py:1073-1086 | the captured total a guard reads is exactly what that order adds to the store's captures |
| OrderLaws.CreateReturnKeepsInv | src/agnostic_market/commerce/orders.py:1225-1290 | opening a return keeps every order's balance although its guard omits the promised term |
| OrderLaws.PlacedOrderIsNew | src/agnostic_market/commerce/orders.py:966-997 | a new placement gets an id no order had, is captured for its total and in processing, and touches no other order |
| OrderReceipts.RefundAcceptedIffSound | src/agnostic_market/commerce/orders.py:1154-1194 | a new refund of any amount is accepted exactly when it names a destination and an instrument, recording it would keep the ledgers sound, the order did not enter already cancelled, and it is not a refund of nothing on a voided or unknown order |
| OrderReceipts.ZeroRefundIsRefused | src/agnostic_market/commerce/orders.py:1168-1179 | a refund of nothing on any voided or unknown order is refused although its record would break nothing |
| OrderReceipts.ReturnAcceptedIffSound | src/agnostic_market/commerce/orders.py:1241-1290 | a new return is accepted exactly when it names a destination and recording it would keep the ledgers sound |
| OrderReceipts.CancelAcceptedIffSound | src/agnostic_market/commerce/orders.py:1326-1367 | a new cancellation is accepted exactly when some void record would keep the ledgers sound |
| OrderReceipts.ReplayReturnsOriginal | src/agnostic_market/commerce/orders.py:1154-1165 | replaying a committed effect returns its first record and changes nothing |
| OrderReceipts.ReusedKeyRefused | src/agnostic_market/commerce/orders.py:978-983 | a key reused with other parameters is refused and nothing changes |
| OrderReceipts.RowSurvivesRun | src/agnostic_market/commerce/orders.py:793-1367 | no later effect rewrites or drops a committed row, and only its own intent can create it |
| OrderReceipts.CommitsAtMostOnce | src/agnostic_market/commerce/orders.py:966-997 | however often an intent is retried, at most one step of a run commits it, and the final ledger says whether one did |
| OrderReceipts.CrashVerdictAgrees | src/agnostic_market/commerce/orders.py:999-1013 | whatever happens between a crash and recovery, the receipt says committed exactly when the effect went through, with its very record, and a retry returns it unchanged |
| OrderReceipts.DecidedVerdictStands | src/agnostic_market/commerce/orders.py:1196-1217 | a crash in a retry of an already decided key cannot change the receipt's verdict |
| OrderReceipts.RefusalChangesNothingIff | src/agnostic_market/commerce/orders.py:1347-1367 | a refused effect leaves the store as it was, except a fresh cancellation of a live order whose id is blank |
| OrderReceipts.RefusalChangesNothing | src/agnostic_market/commerce/orders.py:803-808 | under the fixture contract every refusal is inert |
| OrderReceipts.BlankFixtureIdLeavesMark | src/agnostic_market/commerce/orders.py:1353-1367 | the concrete blank-id fixture for which a refused cancellation does leave a mark |
| OrderStores.OrderStore.Place | src/agnostic_market/commerce/orders.py:966-997 | the method turns the ledgers into the specified next state and returns the specified record or error |
| OrderStores.OrderStore.Refund | src/agnostic_market/commerce/orders.py:1131-1194 | a refund leaves exactly the ledgers the specification gives, with the specified record or error |
| OrderStores.OrderStore.Return | src/agnostic_market/commerce/orders.py:1225-1290 | a return leaves exactly the ledgers the specification gives, with the specified record or error |
| OrderStores.OrderStore.Cancel | src/agnostic_market/commerce/orders.py:1326-1367 | a cancellation leaves exactly the ledgers and overlay the specification gives, with the specified record or error |
| OrderStores.OrderStore.OwnedCancellable | src/agnostic_market/commerce/orders.py:931-949 | the bounded listing is exactly the first cancellable orders the caller owns, with overflow reported exactly when there are more, unless a reference without a placement comes before the answer is settled, which is exactly when it raises |
| OrderStores.OverflowSettles | src/agnostic_market/commerce/orders.py:931-949 | one cancellable order past the limit settles the listing, whatever follows |
| OrderStores.CancellablesMember | src/agnostic_market/commerce/orders.py:893-949 | an order is listed exactly when it is owned and in processing |
| Text.StripIs | src/agnostic_market/commerce/orders.py:571-583 | stripping a reference takes away the spaces at both its ends and nothing else |
| Text.UpperIs | src/agnostic_market/commerce/orders.py:571-583 | upper-casing it turns each lower-case letter into its capital and leaves every other character alone |
| OrderAnswers.StatusIs | src/agnostic_market/commerce/orders.py:816-832 | an order's status is cancelled if voided, else what its fixture entry says, else processing if placed here, else unknown |
| OrderAnswers.CapturedIs | src/agnostic_market/commerce/orders.py:1073-1086 | the captured total is the fixture entry's, or that of the placement, cancelled or not |
| OrderAnswers.CancelAnswers | src/agnostic_market/commerce/orders.py:1326-1367 | each refusal of a new cancellation, and success, under its own condition, with what it records |
| OrderAnswers.FixtureCancelIff | src/agnostic_market/commerce/orders.py:1347-1367 | a fixture order is cancelled exactly while its entry says processing, once, and before any refund, for its whole total |
| OrderAnswers.PlacedCancelIff | src/agnostic_market/commerce/orders.py:1347-1367 | an order placed here is cancelled exactly once and before any refund, for its whole total |
| OrderAnswers.ReturnAnswers | src/agnostic_market/commerce/orders.py:1241-1290 | each refusal of a new return, and success, under its own condition, with what it records |
| OrderAnswers.FixtureReturnIff | src/agnostic_market/commerce/orders.py:1250-1290 | a fixture order is returned exactly when its entry says shipped or delivered, once, within what is left |
| OrderAnswers.RefundAnswers | src/agnostic_market/commerce/orders.py:1154-1194 | each refusal of a new refund, and success, under its own condition, with what it records |
| OrderAnswers.FixtureRefundIff | src/agnostic_market/commerce/orders.py:1166-1194 | a fixture order is refunded exactly within what is left, unless its entry or a void says cancelled |
| OrderAnswers.PlaceAnswers | src/agnostic_market/commerce/orders.py:978-997 | a new placement is refused only for a negative total or an empty cart, and records what it was given |
| OrderAnswers.NegativeAmountRefused | src/agnostic_market/commerce/orders.py:1131-1155 | a negative amount is refused before anything else, and nothing else is refused as one |
| OrderAnswers.RowAnswers | src/agnostic_market/commerce/orders.py:553-600 | a used key answers field by field: its own request again, or a refusal |
| OrderAnswers.RetryAnsweredIffSameRequest | src/agnostic_market/commerce/orders.py:553-600 | after an effect and whatever followed, its key answers exactly those that ask the same in every respect, with the first record, and refuses the rest |
| OrderAnswers.OwnedFixtureSplits | src/agnostic_market/commerce/orders.py:893-912 | the fixture part of a listing is in fixture order |
| OrderAnswers.OwnedFixtureIs | src/agnostic_market/commerce/orders.py:893-912 | it holds exactly the orders of that customer |
| OrderAnswers.SessionReferencesAre | src/agnostic_market/commerce/orders.py:871-912 | the session part lists the references in order, each present exactly when some placement has it |
| RecentOrders.RecentOrderContext.RecordOrders | src/agnostic_market/commerce/orders.py:655-691 | an accepted call installs the specified snapshot within the bound; a refused one leaves the previous snapshot |
| RecentOrders.RecordedIsCoherent | src/agnostic_market/commerce/orders.py:625-636 | whatever `record` builds passes the snapshot's own validator |
| RecentOrders.RecordedIff | src/agnostic_market/commerce/orders.py:663-684 | a call is refused exactly when it names no reference, a foreign focus, or an outcome on a foreign order |
| RecentOrders.CompleteIffNothingDropped | src/agnostic_market/commerce/orders.py:666-677 | the completeness flag is set exactly when no named reference was left out |
| RecentOrders.RecordingAgainKeepsIffComplete | src/agnostic_market/commerce/orders.py:655-691 | recording a snapshot's own contents again gives it back with its completeness flag set, so exactly the complete snapshots are given back unchanged |
| RecentOrders.TruncationIsForgotten | src/agnostic_market/commerce/orders.py:666-677 | every call naming more orders than fit makes a snapshot that loses its incompleteness mark when recorded again |
| RecentOrders.TwoOrdersWhereOneFits | src/agnostic_market/commerce/orders.py:666-677 | the smallest such call: two orders under a bound of one |
| RecentOrders.RecordContents | src/agnostic_market/commerce/orders.py:663-691 | the operation, focus, references and outcomes a call leaves, each stated on what it was given |
| RecentOrders.NewestAreKept | src/agnostic_market/commerce/orders.py:666-677 | whichever reference is kept, all named after it are kept too, the focus aside |
| RecentOrders.FirstNamedStaysFirst | src/agnostic_market/commerce/orders.py:663-664 | naming more orders never moves those named before |
| Principals.PrincipalContext.TransitionTo | src/agnostic_market/session.py:171-203 | the method computes the specified transition for every fault at every await |
| Principals.PrincipalContext.InvalidateTransition | src/agnostic_market/session.py:230-258 | the method computes the specified teardown and the exception that comes out, for every fault in its nested cleanups, the discard of the local projection included |
| Principals.PrincipalContext.Complete | src/agnostic_market/session.py:260-266 | the marker is cleared exactly when it is this transition's and its retirement finishes |
| Principals.ReasoningEngine.RotatePendingTransition | src/agnostic_market/agents/engine.py:870-993 | the rotation computes the specified outcome for every combination of faults, its own cleanup and the drop of the abandoned seed included |
| PrincipalLaws.InvalidationLeavesNoPrincipal | src/agnostic_market/session.py:230-258 | wherever it raises or is cancelled, an invalidation leaves no principal; caller state, retirement marker and proofs are each gone exactly when committed away, discarded, cleaned up or never there, and a call that returns leaves nothing |
| PrincipalLaws.TransitionIsMarked | src/agnostic_market/session.py:171-203 | a transition changes nothing or has its marker published first; new authority is never seen with old state |
| PrincipalLaws.RotationMoves | src/agnostic_market/durability/session_registry.py:753-829 | the engine moves only by a switch recorded from the thread it stood on, and recorded switches stay |
| PrincipalLaws.RotationOutcome | src/agnostic_market/agents/engine.py:870-993 | wherever a rotation fails: the context is as found, or no principal is left and what remains of one is exactly what the failed teardown left, or the new principal stands alone on the destination thread with its source deleted |
| PrincipalLaws.CompletedLeavesNothing | src/agnostic_market/agents/engine.py:967-974 | a rotation that fails after completing the transition leaves neither a principal nor any state of one |
| PrincipalLaws.AbandonedSeedStaysIff | src/agnostic_market/agents/engine.py:973-983 | an abandoned seed thread stays exactly when a cancellation skipped the cleanup, the invalidation failed, or the deletion did |
| PrincipalLaws.TransitionSettles | src/agnostic_market/agents/engine.py:870-1015 | over a whole run of failures, retries, last resorts, recovery teardowns and other work, the first moment without a marker finds the session never changed, handed over completely, or without a principal, with some state of one left exactly when the last teardown failed to remove it |
| PrincipalLaws.CleanTransitionHandsOver | src/agnostic_market/agents/engine.py:870-993 | without faults the change goes through |
| PrincipalLaws.FailedCleanupLeavesRemains | src/agnostic_market/session.py:241-258 | for every context that has them, state, marker and proofs do survive when the commit fails, the discard is cancelled before it writes, and the provider's cleanup raises |
| PrincipalAnswers.AllowlistedIff | src/agnostic_market/dtos/orchestration.py:780-830 | the requests that may ask for a change of principal, kind by kind |
| PrincipalAnswers.TransitionAnswers | src/agnostic_market/session.py:171-203 | a transition succeeds exactly for another customer, on an unexpired identity proof of that customer held here, for an allowlisted request, with none pending and nothing failing; each refusal is told apart |
| PrincipalAnswers.TransitionLeaves | src/agnostic_market/session.py:188-203 | the whole context each outcome of a transition leaves |
| PrincipalAnswers.InspectionIff | src/agnostic_market/session.py:208-228 | an inspection says coherent exactly when the transition's own identity and fresh proof, and nothing else, are in place |
| PrincipalAnswers.AllocationAnswers | src/agnostic_market/durability/session_registry.py:753-801 | an allocation is refused exactly for a changed revision or a second open change, and otherwise names one destination however often it is asked |
| PrincipalAnswers.SwitchAnswers | src/agnostic_market/durability/session_registry.py:803-834 | a switch happens once, to the allocated destination |
| PrincipalAnswers.RotationAnswers | src/agnostic_market/agents/engine.py:870-993 | the answer and the context of every branch of a rotation, stated on its faults in order |
| PrincipalAnswers.StandingIff | src/agnostic_market/agents/engine.py:884-983 | a rotation leaves the transition standing exactly in the named cases, completes it exactly when nothing goes wrong before, and otherwise tears it down |
| PrincipalAnswers.CompletesIff | src/agnostic_market/agents/engine.py:918-967 | the transition is completed exactly when nothing went wrong before |
| PrincipalAnswers.CompletionAnswers | src/agnostic_market/session.py:260-266 | a completion clears the marker exactly when it is this transition's and its retirement can be finished |
| PrincipalAnswers.InvalidationAnswers | src/agnostic_market/session.py:230-258 | the exception that comes out of an invalidation is the last one raised in its nested cleanups |
| PrincipalAnswers.TurnOverEngine | src/agnostic_market/agents/engine.py:918-961 | where the engine stands and which threads live, however far the guarded part got |
| Recovery.NodePolicyRegistry.Register | src/agnostic_market/agents/recovery.py:467-535 | a registration succeeds exactly under its stated conditions and extends the five tables accordingly, else changes nothing |
| RecoveryLaws.CancelledMarkerAgrees | src/agnostic_market/agents/engine.py:478-534 | every marker seeded from a cancelled stream passes the engine's check and the recovery node's own |
| RecoveryLaws.RestoredMarkerAgrees | src/agnostic_market/agents/engine.py:708-772 | markers of a restored or detoured confirmation pass both checks and re-enter the very gate they paused at |
| RecoveryLaws.SessionAheadMarkerAgrees | src/agnostic_market/agents/engine.py:774-834 | a session-ahead marker is the node's own failure marker and passes both checks |
| RecoveryLaws.HandlerMarkerAgreesIff | src/agnostic_market/agents/recovery.py:640-666 | a node handler's marker passes the recovery node's check exactly when the failure was its own node's; it passes the engine's check exactly when, besides, the checkpoint re-enters at the entry, which the one the handler itself leaves does not |
| RecoveryLaws.EngineAcceptsThenRecoverAccepts | src/agnostic_market/agents/engine.py:1115-1155 | whatever the engine accepts the recovery node accepts, also after further turns were consumed |
| RecoveryLaws.DisagreeingMarkerEndsTerminal | src/agnostic_market/agents/recovery.py:879-912 | a marker whose action is not the registered one ends terminal |
| RecoveryLaws.RecoveryVerdictAgrees | src/agnostic_market/agents/recovery.py:731-836 | for every crash around a placement, refund or return, recovery finishes with the committed record if there is one and reports nothing happened otherwise |
| RecoveryLaws.BatchVerdictAgrees | src/agnostic_market/agents/recovery.py:731-836 | in a cancellation batch the crash settles exactly the target it hit, as voided or not |
| RecoveryLaws.CartVerdictAgrees | src/agnostic_market/agents/recovery.py:936-962 | for every crash around a confirmed cart mutation, recovery finishes with the committed record if the cart still holds it and otherwise asks for a review |
| Cart.CrashReceiptAgrees | src/agnostic_market/commerce/cart.py:238-266 | whatever else changes the cart between a crash and recovery, the receipt says committed exactly when the mutation went through and the cart was not cleared, and a retry then changes nothing |
| RecoveryLaws.ConflictEndsTerminal | src/agnostic_market/agents/recovery.py:721-729 | a key held by another request is never taken for this one |
| RecoveryAnswers.RecoverAcceptsIff | src/agnostic_market/agents/recovery.py:879-903 | the recovery node believes a marker exactly when its action is registered and its trigger is one its origin can have |
| RecoveryAnswers.EngineAcceptsIff | src/agnostic_market/agents/engine.py:1115-1155 | the engine believes it exactly when, besides, the abandoned turn is the last and the graph is about to start over |
| RecoveryAnswers.UnbelievedEndsTerminal | src/agnostic_market/agents/recovery.py:902-908 | a missing or disbelieved marker ends automation, and exactly the restored and detoured ones go back to their gate |
| RecoveryAnswers.PrincipalAnswer | src/agnostic_market/agents/recovery.py:838-877 | a pending change is completed exactly when its own principal alone is in place and this flow asked for that principal with that request; any other is torn down, and none is just reported |
| RecoveryAnswers.PrincipalAfterRecovery | src/agnostic_market/agents/recovery.py:838-877 | after recovery the session has the principal that was asked for, or none, or had no change pending |
| RecoveryAnswers.EffectAnswer | src/agnostic_market/agents/recovery.py:731-812 | the ledger row of a pending placement, refund or return decides: finished, given up, or reported |
| RecoveryAnswers.BatchAnswer | src/agnostic_market/agents/recovery.py:767-793 | the next open target of a cancellation batch is settled by its own row, and a batch out of step ends automation |
| RecoveryAnswers.ProfileAnswer | src/agnostic_market/agents/recovery.py:814-834 | the profile ledger's verdict decides in the same way |
| RecoveryAnswers.SafeAbortAnswer | src/agnostic_market/agents/recovery.py:919-935 | an abandoned safe abort goes on with the caller's turn exactly when another turn was admitted since and is the last thing said |
| RecoveryAnswers.CartAnswer | src/agnostic_market/agents/recovery.py:936-967 | a cart review finishes the mutation its receipt shows, gives up on another's, and otherwise shows the cart |
| RecoveryAnswers.FixedAnswers | src/agnostic_market/agents/recovery.py:909-917 | terminal actions end automation and plain aborts are reported |
| RecoveryAnswers.CancelledAnswers | src/agnostic_market/agents/engine.py:478-534 | when a cancelled stream is complete, at its question, seeded for recovery, or invalid |
| RecoveryAnswers.RestoreMarkerIff | src/agnostic_market/agents/engine.py:708-772 | a restored session is marked exactly when it is paused at one restorable node |
| RecoveryAnswers.SessionAheadMarkerIff | src/agnostic_market/agents/engine.py:774-834 | a revision gap is marked exactly when an unmarked live session is stuck at one handled node that the evidence names |
| RecoveryAnswers.DetourMarkerIff | src/agnostic_market/agents/engine.py:1304-1338 | a detoured confirmation is marked exactly when its node is restorable |
| RecoveryAnswers.HandlerMarkerIs | src/agnostic_market/agents/recovery.py:648-665 | a handler marks its node's action, and a foreign failure with one that cannot agree |
| RecoveryAnswers.MergeKeepsOrder | src/agnostic_market/dtos/state.py:60-74 | consumed ids keep their place, new ones go last, and none is there twice |
| RecoveryAnswers.SeededSays | src/agnostic_market/agents/engine.py:1416-1448 | what seeding a marker writes: the marker, the arriving turn last among the consumed, the entry node next, and nothing else |
| RecoveryAnswers.RegisteredSays | src/agnostic_market/agents/recovery.py:488-535 | what a registration adds to each of the five tables, and that it leaves every other node alone |
| Verification.OtpProvider.VerifyCode | src/agnostic_market/commerce/verification.py:496-549 | the method computes the specified outcome, attempts and verification time |
| Verification.VerificationStore.Verify | src/agnostic_market/commerce/verification.py:304-356 | the store's subjects, proofs and the shared provider end in the specified state, with the specified outcome or error |
| VerificationLaws.RunKeepsInv | src/agnostic_market/commerce/verification.py:199-425 | every run, with other sessions interleaved, keeps dispatch keys and challenges mutually inverse and proofs among dispatched subjects with matching scope |
| VerificationLaws.DispatchContractHolds | src/agnostic_market/commerce/verification.py:468-494 | the lookup in dispatch never misses and no dispatch comes back for another scope |
| VerificationLaws.VerifyContractHolds | src/agnostic_market/commerce/verification.py:304-356 | no verification comes back for another scope and no retention misses its subject |
| VerificationLaws.DispatchIdempotent | src/agnostic_market/commerce/verification.py:468-494 | a dispatch repeated under its key names the same challenge and changes nothing |
| VerificationLaws.CleanupStaysInSession | src/agnostic_market/commerce/verification.py:551-584 | cleaning a session removes exactly its own unkept challenges; all others keep their state and key |
| VerificationLaws.AuthorizationWasEarned | src/agnostic_market/commerce/verification.py:364-383 | an authorisation implies an unexpired proof whose challenge, for the same tenant, session, customer and factor, was answered with the exact code, in time, with attempts left |
| VerificationLaws.ExactCodeAuthorizes | src/agnostic_market/commerce/verification.py:304-403 | the exact code, in time and with attempts left, does authorise, and stops doing so when its proof expires |
| VerificationLaws.AttemptsAddUp | src/agnostic_market/commerce/verification.py:496-549 | over a whole run, whoever tries, codes compared and attempts left add up to the attempts a challenge was dispatched with |
| VerificationLaws.ExhaustedForGood | src/agnostic_market/commerce/verification.py:496-549 | a challenge exhausted unverified is never verified by any later run |
| VerificationLaws.ExpiredForGood | src/agnostic_market/commerce/verification.py:496-549 | with clocks that do not run backwards, neither is one that expired unanswered |
| VerificationAnswers.DispatchAnswers | src/agnostic_market/commerce/verification.py:468-494 | each answer of a dispatch under its own condition, with the challenge it opens |
| VerificationAnswers.VerifyAnswers | src/agnostic_market/commerce/verification.py:496-549 | every answer to a code exactly; only the exact code is ever confirmed, a verified challenge included |
| VerificationAnswers.VerifyCosts | src/agnostic_market/commerce/verification.py:515-549 | a comparison takes one attempt and verifies on the exact code, and nothing else changes anything |
| VerificationAnswers.RetainAnswers | src/agnostic_market/commerce/verification.py:551-584 | a retention is refused exactly for a blank session, an unknown challenge or another session's |
| VerificationAnswers.StoreDispatchAnswers | src/agnostic_market/commerce/verification.py:234-255 | a session dispatches for its own tenant and session only, with at least one attempt |
| VerificationAnswers.StoreVerifyAnswers | src/agnostic_market/commerce/verification.py:304-356 | the store passes the answer on, keeps a proof for every verification, and calls a stale one expired |
| VerificationAnswers.RetainProofAnswers | src/agnostic_market/commerce/verification.py:405-417 | only an unexpired proof this store holds can be the one that stays |
| VerificationAnswers.ClearAnswers | src/agnostic_market/commerce/verification.py:419-425 | clearing forgets everything of the session, here and at the provider |
| VerificationAnswers.AuthorizationIff | src/agnostic_market/commerce/verification.py:364-403 | what an authorisation and a challenge check require, field by field |
| VerificationAnswers.ProofTakesExactCode | src/agnostic_market/commerce/verification.py:304-356 | a step that adds a proof was itself given the exact code |
| VerificationAnswers.EveryProofWasAnsweredHere | src/agnostic_market/commerce/verification.py:304-356 | over a run, each proof held was added by this session giving its exact code |
| Quiescence.NodeExecutionTracker.LeaveNode | src/agnostic_market/agents/recovery.py:207-229 | the critical section does what the specified step does, drain included |
| Quiescence.NodeExecutionTracker.DeferUntilFullyIdle | src/agnostic_market/agents/recovery.py:329-341 | a callback runs now exactly at full rest and is queued last otherwise |
| Quiescence.TurnToldIffOpen | src/agnostic_market/agents/recovery.py:283-290 | a turn is told it is admitted exactly while admission is open, and counted exactly if told so |
| Quiescence.AdmittedTurnIsCounted | src/agnostic_market/agents/recovery.py:283-295 | every admitted turn stays counted until it ends, and can end |
| Quiescence.RunKeepsInv | src/agnostic_market/agents/recovery.py:161-341 | in any interleaving node counts equal the spans and workers holding them, and each registered callback is deferred or handed out exactly once |
| Quiescence.RunningEffectIsCounted | src/agnostic_market/agents/recovery.py:231-281 | a running worker keeps its node counted, detached by cancellation or not |
| Quiescence.HandedOnlyAtRest | src/agnostic_market/agents/recovery.py:207-214 | callbacks are drained only when no turn, span or worker is left, and all at once |
| Quiescence.HandedAtMostOnce | src/agnostic_market/agents/recovery.py:207-214 | no callback is handed out twice |
| Quiescence.NothingStranded | src/agnostic_market/agents/recovery.py:329-341 | at rest every registered callback has been handed out |
| Closing.CallerContext.EndLease | src/agnostic_market/session.py:136-153 | ending a takeover lease serves the waiting closers exactly when it was the last |
| Closing.RunKeepsInv | src/agnostic_market/session.py:286-421 | every interleaving of turns, nodes, takeovers and closers keeps the closing invariant |
| Closing.NothingAdmittedAfterStop | src/agnostic_market/session.py:286-317 | once a stop has returned, no later step of the run tells a turn it is admitted or a takeover that it holds a lease, and those told so before only become fewer |
| Closing.TakeoverToldIffNotStarted | src/agnostic_market/session.py:136-144 | a takeover is told it holds a lease exactly before the close has started, and counted exactly if told so |
| Closing.EverythingAdmittedBeforeClose | src/agnostic_market/session.py:136-144 | until a close starts, every turn and every takeover is told it may go on |
| Closing.QuietAtCompletion | src/agnostic_market/session.py:319-421 | when a closer begins to complete, no turn, span, worker, lease or other lock holder is active |
| Closing.QuietFromCompletionOn | src/agnostic_market/session.py:319-421 | and none becomes active for the rest of the run: no turn was told it may run, no takeover holds a lease |
| Closing.CompletesAtMostOnce | src/agnostic_market/session.py:373-421 | repeated and concurrent closes complete at most once |
| Closing.WaitingCloserCanGoOn | src/agnostic_market/session.py:268-298 | a closer whose wait is over can always proceed |
| Admission.OnlyFreshIdsSpeak | src/agnostic_market/agents/engine.py:1616-1806 | a turn speaks or answers only under an unconsumed id, and answers only a question its arrival had seen |
| Admission.CrossThreadNeverSpeaks | src/agnostic_market/agents/engine.py:1616-1720 | a delivery that arrived on another thread never answers here, and its words are admitted exactly when automation has already ended and its id is new; one that brought a turnover about never speaks into the new thread |
| Admission.RunKeepsInv | src/agnostic_market/agents/engine.py:1586-1806 | over any interleaving no message id is used twice, as a turn or as an answer |
| Admission.ConsumedForGood | src/agnostic_market/dtos/state.py:60-74 | an id once consumed is never used again |
| Admission.FreshTurnAtRestIsAdmitted | src/agnostic_market/agents/engine.py:1616-1806 | a new message at a session at rest is admitted: the guards lose nothing |
| Admission.FreshAnswerIsHeard | src/agnostic_market/agents/engine.py:1720-1790 | a fresh reply to the paused question its delivery had seen is taken as its answer |
| Admission.GateAnswers | src/agnostic_market/agents/engine.py:1586-1640 | the gates in front of the dispatch tree, in their order |
| Admission.DecisionIff | src/agnostic_market/agents/engine.py:1640-1806 | each decision of the dispatch tree, with the one condition under which it is taken |
| Consent.IsBoundedAffirmative | src/agnostic_market/agents/_consent.py:94-117 | the search ends and says yes exactly when the non-empty reply can be cut into listed phrases with at least one signal, for all phrase tables |
| Consent.OnlyListedWords | src/agnostic_market/agents/_consent.py:94-117 | every word of an affirmed reply belongs to a listed phrase |
| Cart.CartStore.ApplyConfirmedMutation | src/agnostic_market/commerce/cart.py:165-236 | the method turns lines and ledger into the specified next cart |
| Cart.CartStore.Restored | src/agnostic_market/commerce/cart.py:117-124 | restoring writes lines and receipts back in order |
| Cart.RunKeepsInv | src/agnostic_market/commerce/cart.py:165-236 | from an empty cart, every record built is coherent, receipts chain, and the lines are what the ledger's last receipts say |
| Cart.AcceptedIffSomeReceiptIsValid | src/agnostic_market/commerce/cart.py:41-56 | with a fresh key a mutation is accepted exactly when some receipt for it passes the coherence validator |
| Cart.QuantityIsLastFinal | src/agnostic_market/commerce/cart.py:165-236 | each line's quantity is the final quantity of the last receipt for its SKU |
| Cart.DeltasAddUp | src/agnostic_market/commerce/cart.py:41-56 | the changes of a SKU's receipts add up to its final quantity |
| Cart.ReplayAndRefusalAreInert | src/agnostic_market/commerce/cart.py:179-190 | replaying a mutation returns its record, and neither a replay nor a refusal changes the cart |
| Cart.ConfirmSays | src/agnostic_market/commerce/cart.py:198-236 | a confirmed mutation adds, removes or sets exactly as asked, on its own item only |
| Cart.ConfirmRefuses | src/agnostic_market/commerce/cart.py:178-196 | the other refusals, and what a used key answers |
| Cart.SetLineKeepsPlaces | src/agnostic_market/commerce/cart.py:226-234 | writing a line keeps every line in its place and puts a new item last |
| Cart.DropLineKeepsOthers | src/agnostic_market/commerce/cart.py:226-234 | dropping an item leaves the others in their order |
| Cart.ReceiptAnswers | src/agnostic_market/commerce/cart.py:238-266 | the receipt read, by the row under its key |
| Cart.ExportRestoreIdentity | src/agnostic_market/commerce/cart.py:117-138 | every reachable cart exports to a valid state, and restoring it is the identity, order included |
| Cart.RestoredCartContinues | src/agnostic_market/commerce/cart.py:117-138 | a restored cart goes on exactly as the exported one would have |
| Routing.ResolveIdempotent | src/agnostic_market/agents/routing.py:607-645 | resolving a resolved route changes nothing |
| Routing.SessionResolveIsIdentity | src/agnostic_market/agents/routing.py:837-842 | the session's second resolve never changes a materialised route |
| Routing.SurvivorsAreExecutable | src/agnostic_market/agents/routing.py:607-645 | a surviving route names an available capability and no focus or recent set that is not there; out of a confirmation it can only ask for a person |
| Routing.KeptIffExecutable | src/agnostic_market/agents/routing.py:619-645 | an ordinary route is kept exactly when the context can execute it |
| Routing.ResolveOnlyWeakens | src/agnostic_market/agents/routing.py:607-645 | resolution keeps a route, drops its order target, asks back or rejects; it never changes the capability |
| Routing.DirectAnswers | src/agnostic_market/agents/routing.py:623-645 | an ordinary direct request becomes a question back, itself without its dead target, or itself, each under its own condition |
| Routing.OtherAnswers | src/agnostic_market/agents/routing.py:610-622 | what a continuation, a clarification and a route out of a confirmation become |
| Routing.ProposedAnswers | src/agnostic_market/agents/routing.py:662-686 | what an accepted proposal says before the context may adjust it |
| Routing.PayloadsMean | src/agnostic_market/agents/routing.py:91-128 | what each payload means in the request it becomes |
| Routing.SelectorsMean | src/agnostic_market/agents/routing.py:103-142 | what each order selector means in the request it becomes |
| Routing.ProposalAcceptedIff | src/agnostic_market/agents/routing.py:648-686 | a proposal is accepted exactly when its fields fit its decision; direct ones are exactly the signatures of coarse requests |
| Routing.SignatureRoundTrip | scripts/frontline_eval.py:2137-2188 | rebuilding a proposal from a request's signature gives the request back exactly when it carries no fine slot |
| Routing.CheckIsExact | scripts/frontline_eval.py:2191-2214 | the ground-truth check accepts a direct expectation exactly when some proposal materialises to it in that context |
| Routing.PassesIff | scripts/frontline_eval.py:2191-2214 | the same check in terms of the expectation itself: coarse, and a fixed point of resolution |
| Routing.SignatureInjective | scripts/frontline_eval.py:2137-2188 | producible expectations are told apart by their signatures |
| Routing.RecentTotalIsNeverProducible | src/agnostic_market/agents/routing.py:137-142 | a total read over the recent orders is a valid decision that no proposal produces |
| Spoken.RedactTokens | src/agnostic_market/commerce/spoken.py:344-368 | one sweep computes: each maximal digit-bearing run of seven digits or more becomes one mark, all else stays |
| Spoken.RedactedHasNoPhone | src/agnostic_market/commerce/spoken.py:344-368 | afterwards no stretch of digit-bearing tokens carries seven digits |
| Spoken.RedactsIffPhone | src/agnostic_market/commerce/spoken.py:334-342 | a text changes exactly when it holds such a stretch |
| Spoken.PlainTokensSurvive | src/agnostic_market/commerce/spoken.py:344-368 | every token without digits survives, in order |
| Spoken.RedactionTraces | src/agnostic_market/commerce/spoken.py:344-368 | the output cuts the text into consecutive stretches: each mark stands for one whole phone run and every token outside those runs, short digit runs included, stands for itself |
| Spoken.SecondPassChangesNothing | src/agnostic_market/commerce/spoken.py:357-360 | running the redactor on its own output, read afresh, changes nothing |
| Spoken.CallerStatedPhone | src/agnostic_market/commerce/spoken.py:78-94 | a proposed number is accepted exactly when it is long enough and is one whole maximal run of the caller's digits |
| Spoken.TokenStandsFor | src/agnostic_market/commerce/spoken.py:357-360 | a token stands for one digit if it is a digit word, and otherwise for the digits it shows |
| Catalog.SubphraseIsStrictOrder | src/agnostic_market/commerce/catalog.py:130-140 | sub-phrase is a strict partial order |
| Catalog.LongerNameSpeaksShorter | src/agnostic_market/commerce/catalog.py:124-140 | saying the longer of two nested names says the shorter |
| Catalog.RankNamedItems | src/agnostic_market/commerce/catalog.py:143-161 | the ranked list holds exactly the qualifying items, each once, by falling score and then catalog position |
| Catalog.RankingUnique | src/agnostic_market/commerce/catalog.py:143-161 | that description determines the ranking, so any sort by the key gives it |
| Catalog.MatchesAreTheBest | src/agnostic_market/commerce/catalog.py:164-170 | the matches are exactly the best-scoring qualifying items, in catalog order |
| Catalog.SearchKeepsTheTop | src/agnostic_market/commerce/catalog.py:189-193 | search keeps qualifying items in order and omits one only when full of items that come before it |
| Catalog.SpokenNameQualifiesIff | src/agnostic_market/commerce/catalog.py:150-160 | saying a whole name makes its product a candidate exactly when the name is one word or has two distinct ones |
| Catalog.RepeatedWordIsMissed | src/agnostic_market/commerce/catalog.py:150-156 | a name of one word said twice is missed even by a caller who says exactly it |
| Catalog.ExactNameIsAMatch | src/agnostic_market/commerce/catalog.py:143-170 | saying exactly a qualifying product's name always puts it among the best matches |
| Catalog.QualifiesIff | src/agnostic_market/commerce/catalog.py:150-155 | an item qualifies by one common word where either side has only one, and otherwise by two different ones |
| Catalog.OneWordFindsAll | src/agnostic_market/commerce/catalog.py:143-161 | a one-word query finds every item whose name holds that word, and no other |
| Catalog.EntrySays | src/agnostic_market/commerce/catalog.py:156-161 | a ranked entry names its own item and scores its common words, and one more for a phrase said whole |
| Partitions.AuditPartitions | scripts/frontline_eval.py:2854-2888 | a leak blocker is raised for a key exactly when two audited cases disagree on its value, and a duplicate blocker exactly for a repeated partition |
| Partitions.AuditCases | scripts/frontline_eval.py:2873-2888 | the inner loop keeps first-seen dictionaries and blockers exact |
| Partitions.CleanIffIsolated | scripts/frontline_eval.py:2854-2888 | no blocker is raised exactly when partitions are distinct and share no example, source or cluster, and no source is split over clusters |
| Capacity.AcceptPlan | scripts/frontline_eval.py:1125-1219 | a plan is accepted exactly when its parts and dimensions are well formed, no two cells oblige the same, its cells fit, and every named source, reviewer and stop limit holds |
| Capacity.TallyCells | scripts/frontline_eval.py:1171-1204 | the running dictionaries hold each source's planned examples and each reviewer's load |
| Capacity.PlannedWithinCeilings | scripts/frontline_eval.py:1208-1212 | an accepted plan's examples, summed over cells, fit within the ceilings summed over sources |
| Capacity.ReviewsWithinCapacity | scripts/frontline_eval.py:1192-1207 | an accepted plan has primary capacity for every example and secondary capacity for every protected one |
| Capacity.AcceptedCellIsCovered | scripts/frontline_eval.py:1171-1204 | what an accepted cell may rely on: declared sources covering its locale, and declared reviewers in role |
| Capacity.AcceptedWithinStop | scripts/frontline_eval.py:1214-1219 | total cost and total examples stay within the stop budget |
| Capacity.AcceptedIsWellFormed | scripts/frontline_eval.py:1024-1163 | an accepted plan's parts are well formed and told apart throughout |
| Budgets.DomainBudgetsImplyOverall | scripts/frontline_eval.py:3217-3233 | when every risk domain meets its rounded-up budget, so does the whole set |
| Budgets.OverallDoesNotImplyDomains | scripts/frontline_eval.py:3217-3233 | the converse fails: whatever the other results, one miss alone in its domain fails that domain, while the whole set passes exactly from twenty results on |
| Budgets.RequiredIsCeiling | scripts/frontline_eval.py:3268-3279 | the required count is the least whole number of exact results at or above the rate |
| Budgets.SmallSetsMustBeExact | scripts/frontline_eval.py:3268-3279 | fewer than twenty results leave no room for a miss |

## Left out

- Order summaries, ETAs, dates and every other spoken text: copy without a property of its own.
- Text is ASCII: `strip`, `upper` and letter tests on other characters, regular expressions, transcript normalisation and email redaction stay outside; the scanners work on tokens.
- Money is whole cents, so amounts with fractions of a cent, which `validate_usd` refuses, do not arise; negative amounts do.
- The order fixture's ids are taken as canonical, non-blank and outside the placed-order sequence, as the comment at src/agnostic_market/commerce/orders.py:803 states; the blank-id case is proved separately.
- The order store's lock makes each operation one atomic step; threads inside an operation are not modelled. Random ids and challenge ids are parameters or counters that are fresh.
- `order_owner` and order listings are modelled only as far as the cancellable listing needs them; `identical_cart_order`, `delivered_at_epoch` and the guest scope's own methods would only add easy members.
- The profile ledger enters recovery only through its receipt verdict, and the session-ahead evidence match (src/agnostic_market/agents/engine.py:416-475) as a yes or no.
- The graph runtime and the checkpointer: a seeded update is one atomic write that makes the entry node next, a graph run ends uncommitted, committed or broken, and the consumed-id reducer keeps every id.
- Principal changes: a commit of the session-state coordinator empties cart, recent orders and guest scope in one step, while discarding its projection may stop between its writes; `adiscard_local_authority` and abandoning after authority loss are not modelled.
- `_TurnSpeech` and streaming: which tokens are yielded is not modelled, and nothing is claimed about repeats in its flush.
- Consent replies: the word search is modelled in full; the negation patterns and classifiers around it are regular expressions.
- `scan_contact_candidates`, `spoken_email`, `standalone_quantity` and `caller_stated_order_ids`: driven by regular expressions; nothing is claimed about whether every contact found there is redacted.
- Catalog names are given as their words; casefolding and the split into alphanumeric runs are outside.
- Routing: projecting the context, provider calls, prompts and fingerprints. The order-read evidence fields, which a route decision must leave empty, are not represented.
- The data audit's fingerprint, path and authorisation blockers are single comparisons; the plan's schema version, its timestamp, the survival of a cell's expected route and the coverage of partitions, domains, decisions and locales are not modelled.
- The acceptance rate is the rational 19/20; rounding of the binary constant 0.95 is not modelled.
- The risk provider, capability registry, telemetry, clarification counters and identity predicates would only add easy members.
