# Verified model of the demo bank's stateful services

This project models the parts of the banking demo that keep state under retries,
failures and concurrency, and proves what they keep true of it. `dafny verify dfyconfig.toml`
checks everything.

| files | what they model |
|---|---|
| `CardState`, `CardInvariants`, `CardPreservation`, `CardTheorems`, `CardLifecycle`, `CardReconciliation`, `CardLedger` | card authorisation, settlement, reversal, bill payment and deposit opening as committed steps on holds, card accounts, statement lines, an append-only journal and ledger accounts; `CardLedger` is the same as a class whose rows change in place and are rolled back on failure |
| `BillPaymentProtocol`, `BillPaymentTheorems` | bill payment as interleaved database sessions, one step a statement |
| `DepositStatement` | the running balances of a deposit listing |
| `OutboxRelay` | the audit outbox relay |
| `VoiceSessions` | the voice session registry and its capacity |
| `PulseAdmission` | pulse admission over two expiring Redis keys |
| `JsonText`, `KnowledgeCorpus`, `KnowledgeImport`, `KnowledgeSearch` | the knowledge snapshot: printed and loaded, imported and pruned, searched |
| `DatabasePrivileges` | reconciling and verifying owners and privileges |
| `TrafficSchedule` | timeline compression and top-off apportionment of the traffic generator |
| `Doubles` | rounding to double precision, which the schedule uses |
| `Sums` | options, white space, sums over sequences and maps |

Each operation of the card ledger is a function from a state to the next one and an answer;
a run is any sequence of operations, and a state is reachable when some run leads to it.
`CardInvariants.Valid` says how all copies of a balance agree, `CardPreservation` that every
operation keeps it, and the theorems speak of all runs from card accounts as they are issued.
The methods of the classes are proved equal to those functions, so the theorems hold of them.
Whether the fraud model flags a charge, the fresh number of a deposit, clocks, failures of remote
calls, page splits and digests are parameters.

## What the code does beside its documentation

These came out of the proofs; the code is modelled as it is.

- Holds are recorded in USD whatever the card account's currency (`models/credit_card.py:215`),
  so an account in another currency is never granted one and never owes anything
  (`ApprovalDecision`, `ForeignAccountsStayIdle`).
- All transaction keys share one unique column with the keys callers choose for deposit openings.
  A deposit opened under `card-settlement:<rrn>` makes that hold impossible to settle, and one
  opened under `bill-payment:<digest>` makes that payment impossible to make, both for ever
  (`DepositKeyBlocksSettlement`, `DepositKeyBlocksPayment`, `StuckHoldExists`,
  `StuckPaymentExists`);
  `SettlementDecision`, `PaymentDecision` and `OpenDecision` are the exact conditions. An opening
  without a key text gets a fresh key and so is not idempotent.
- A flagged authorisation is answered "00" and its replay "51" (`ReplayAnswer`).
- `reconcile_money` reports every system account that was ever posted to as a difference,
  because funding counts with the wrong sign and merchant clearing keeps no cached balance
  (`BooksReconcile`).
- A pulse whose event key was set but whose reply was lost is refused by its own key on the
  second attempt; the event is then lost for the rest of the TTL (`LostReplyOrphans`). So is the
  event of a pulse that finds another one active (`BusyLockBurnsEvent`), and a lost reply to the
  lock command stops all pulses until the lock expires (`LostReplyOrphansLock`). The reconnect
  helps only when the first command had no effect at all.
- The release reads the lock and then deletes it; a pulse that outlives its lock can delete the
  one of its successor (`LateDeleteAdmitsAnother`), which can then do the same to the next within
  its own TTL (`DisplacedDeletesInTurn`). A caller that takes a dedup TTL between its two commands
  can be admitted beside another one for the same event (`SlowCallerAdmitsTwice`).
- Blank short titles or texts are built and printed but refused by the loader, and a high
  surrogate stored directly in front of a low one is read back as one character; nothing else
  is lost (`RenderThenLoad`, `BlankTextIsRefused`, `SurrogatesAreMerged`).
- Reconciling privileges needs an actor that acts as the schema owner by its own memberships:
  those taken on for the transfer are revoked before the default privileges are altered
  (`TransferIsNotEnough`, `Reconcilable`). CONNECT is granted only by an actor that owns the
  database; for any other one the statements end in warnings (`ConnectGranted`).
- Reconciling does not by itself make verification pass: a listed role that belongs to the schema
  owner, the reset role or an outside role with older grants is still reported
  (`ReconciledVerifies` says exactly when).
- The window of a schedule is measured in floating point. Schedules end in time exactly when the
  minutes so measured fit (`ScheduleEndsInTime`). The first span that does not is 286331154 minutes
  less a microsecond, 544 years, where an event is a microsecond late (`FirstLate`); further on it
  can be up to 30 (`LatestLate`).
- A row that becomes visible at or below the relay's cursor is never published
  (`LateRowIsSkipped`).

## Model

| member | source | states |
|---|---|---|
| CardPreservation.RunKeepsValid | banking-service/services/card_network.py:170-648 | over every run of authorise, settle, reverse, pay and open all copies of a balance agree: debt, statement sum, journal mirror, cached credit recomputed from all holds, unique keys and RRNs |
| CardPreservation.StepKeepsValid | banking-service/services/card_network.py:170-648 | each single operation keeps that agreement |
| CardPreservation.AuthorizeKeepsValid | banking-service/services/card_network.py:170-483 | an authorisation, whatever it answers, keeps it |
| CardPreservation.SettleKeepsValid | banking-service/services/card_network.py:485-600 | a settlement keeps it: hold, posting, statement line, debt, mirror and credit move together |
| CardPreservation.ReverseKeepsValid | banking-service/services/card_network.py:602-648 | a reversal keeps it |
| CardPreservation.PayKeepsValid | banking-service/services/accounts.py:93-155 | a bill payment keeps it |
| CardPreservation.OpenKeepsValid | banking-service/services/accounts.py:199-257 | a deposit opening keeps it |
| CardPreservation.BookPostsAfresh | banking-service/services/financial_journal.py:154-186 | handing back an existing posting never books a card twice: its statement line already exists |
| CardPreservation.SettleIsCharge | banking-service/services/card_network.py:499-562 | a settlement that goes through charges the active hold of its RRN and no other |
| CardPreservation.RebalancedKeepsCredit | banking-service/repositories/credit_card.py:268-278 | recomputing one account's credit keeps every account's cached credit right |
| CardPreservation.GenesisValid | banking-service/models/credit_card.py:144-146 | card accounts as issued, with no debt and all of the limit, start valid |
| CardTheorems.LimitIsKept | banking-service/services/card_network.py:276-562 | over every run debt plus active holds exceeds the limit by at most what settlements took beyond their holds |
| CardTheorems.StepExposure | banking-service/services/card_network.py:276-562 | no single operation raises an account's exposure past the limit by more than such an excess |
| CardTheorems.ApprovalFits | banking-service/services/card_network.py:346-429 | a granted hold raises the exposure of its account alone, by its amount, and fits under the limit |
| CardTheorems.ApprovalDecision | banking-service/services/card_network.py:188-429 | exactly when an authorisation is granted, in terms of debt, holds and limit rather than the cached credit |
| CardTheorems.AuthorizationAnswers | banking-service/services/card_network.py:188-429 | for every valid state which answer an authorisation gets: replayed exactly for a recorded RRN, each decline exactly for its own reason, insufficient funds exactly beyond max(0, min(limit, limit - debt - holds)) |
| CardTheorems.AuthorizationEffect | banking-service/services/card_network.py:276-429 | its whole effect: a decline for want of funds appends exactly one declined hold of that RRN, amount and account; a grant one active hold and the recomputed credit; nothing else changes, whatever the answer |
| CardTheorems.SettlementDecision | banking-service/services/card_network.py:492-540 | exactly when a settlement goes through; otherwise it fails and changes nothing |
| CardTheorems.SettlementEffect | banking-service/services/card_network.py:499-562 | what it then changes: hold, debt, exposure, one transfer, one line, nothing else |
| CardTheorems.SettlementLedger | banking-service/services/card_network.py:509-562 | of the ledger it changes the mirror of the card alone, which follows the account, and adds the clearing account if there is none |
| CardTheorems.ReversalDecision | banking-service/services/card_network.py:608-645 | exactly when a reversal goes through, that it only releases the hold, and that otherwise it fails and changes nothing |
| CardTheorems.PaymentDecision | banking-service/services/accounts.py:67-148 | exactly when a payment goes through and when its stored answer is given again, from conditions a caller can check: nothing may stand under the digest text, whatever posted it; any other attempt fails and changes nothing |
| CardTheorems.PaymentEffect | banking-service/services/accounts.py:110-155 | the whole state after a payment that goes through: deposit, debt, credit and mirror, one transaction with the stored answer and one line; nothing else |
| CardTheorems.OpenDecision | banking-service/services/accounts.py:199-257 | exactly when a deposit opens: new number, amount in range, and an effective key (the given text, or a fresh one without text) that fits its column and is unused by any transaction; otherwise it fails and changes nothing |
| CardTheorems.OpeningEffect | banking-service/services/accounts.py:199-255 | an opened deposit holds what it was opened with, backed by one funding posting, and of all other rows only the funding account moves |
| CardTheorems.PostingDecision | banking-service/services/financial_journal.py:117-217 | exactly when entries are appended or found posted in a valid journal, that only a permutation of them is found, and that either way they are balanced |
| CardLifecycle.HoldLifecycle | banking-service/services/card_network.py:190-202 | over every run: one hold per RRN, holds only progress, journal and statement only grow, settled holds have exactly one charge line and one posting, others none |
| CardLifecycle.SettledExactlyOnce | banking-service/services/card_network.py:523-551 | in every valid state a hold is settled if and only if it has its one line and its one posting |
| CardLifecycle.TerminalForever | banking-service/services/card_network.py:499-505 | a settled, reversed or declined hold never changes again |
| CardLifecycle.ReplayChangesNothing | banking-service/services/card_network.py:191-202 | authorising a recorded RRN again, at any later time, changes nothing and answers with the hold's status |
| CardLifecycle.ReplayAnswer | banking-service/services/card_network.py:194-202 | first and replayed action code agree unless the hold was granted but flagged |
| CardLifecycle.AnswerStands | banking-service/services/card_network.py:191-308 | after a decline for want of funds every later request under that RRN is answered as that decline, and after a grant as the hold has become, for ever and without a change |
| CardLifecycle.NetworkAnswer | banking-service/services/card_network.py:190-429 | exactly when the network is told 00, 51, 75 or 83, from the state alone |
| CardLifecycle.KeysAreApart | banking-service/services/accounts.py:77-81 | settlements, payments and openings without a key text never share a key, nor do two of one kind for different RRNs, digests or fresh texts |
| CardLifecycle.DepositKeyBlocksSettlement | banking-service/services/accounts.py:242-244 | after a deposit was opened under the key text of a settlement no settlement of that RRN ever goes through, whatever happens in between |
| CardLifecycle.DepositKeyBlocksPayment | banking-service/services/accounts.py:77-91 | after a deposit was opened under the digest text of a payment that payment is never made; every attempt fails and changes nothing |
| CardLifecycle.StuckForever | banking-service/services/card_network.py:523-540 | an active hold whose key is taken is never settled, and what took its key is always the funding of a deposit |
| CardLifecycle.StuckHoldExists | banking-service/routers/accounts.py:36-54 | with one card account of any positive limit the opening and the authorisation both go through and the hold is stuck; without the opening it is settled |
| CardLifecycle.StuckPaymentForever | banking-service/services/accounts.py:77-91 | a payment key without a stored answer always stands for the funding of a deposit, and no payment is ever made under its digest |
| CardLifecycle.OpeningStopsPayment | banking-service/services/accounts.py:77-91 | any payment that would go through fails once a deposit is opened under its digest text, and that opening goes through |
| CardLifecycle.StuckPaymentExists | banking-service/services/accounts.py:77-91 | from one newly issued card account: a deposit, a charge, its settlement, and then a payment that goes through unless such an opening comes first |
| CardLifecycle.PaidOnce | banking-service/services/accounts.py:83-98 | after a payment, at any later time, the same request under its digest is answered with the stored result and another one with an error, and nothing moves |
| CardReconciliation.BooksReconcile | banking-service/services/money_reconciliation.py:23-98 | in every reachable state the report blocks nothing, infers the currency each header has, and the differing balances are exactly the system accounts ever posted to |
| CardReconciliation.ReconcileMoney | banking-service/services/money_reconciliation.py:66-98 | the loops of the report fill every section with exactly what it is for |
| CardReconciliation.BlocksUnlessSquare | banking-service/services/money_reconciliation.py:60-105 | the report of any books, reachable or not, blocks nothing if and only if every transaction has entries, all on known accounts of its own currency, with debits equal to credits, and every mirror has its card account in its currency |
| CardReconciliation.QuietReportConserves | banking-service/services/money_reconciliation.py:60-105 | a report that blocks nothing shows that what was posted nets to zero per currency, for transactions of any number of entries; one without differences, that so do the balances |
| CardReconciliation.AccumulateBalances | banking-service/services/money_reconciliation.py:38-51 | the report's loop computes each account's signed journal sum and exactly the orphan entries |
| CardReconciliation.AddEntries | banking-service/services/money_reconciliation.py:40-51 | the same for the entries of one transaction |
| CardReconciliation.SystemNet | banking-service/services/financial_journal.py:53-80 | a system account nets to zero exactly when it was never posted to |
| CardReconciliation.MoneyIsConserved | banking-service/services/financial_journal.py:147-152 | over every run, per currency: deposits plus what merchants are owed equal card debt plus outside funding |
| CardReconciliation.NetsCancel | banking-service/services/financial_journal.py:147-152 | square transactions, of any number of entries, net to zero over the accounts of a currency |
| CardReconciliation.PaymentPreservesDifference | banking-service/services/accounts.py:120-133 | a payment takes the same amount off one deposit and one card, so deposits less debt stay the same |
| CardReconciliation.ForeignAccountsStayIdle | banking-service/models/credit_card.py:215 | over every run only USD accounts have active holds or debt |
| CardLedger.Session.PendingAuthTotal | banking-service/repositories/credit_card.py:247-266 | the loop over active holds computes their sum, or fails on one that cannot be added |
| CardLedger.Session.RecalculateAvailableCredit | banking-service/repositories/credit_card.py:274-278 | the cached credit becomes the recomputed one, or the call fails and changes nothing |
| CardLedger.Session.ProcessAuthorization | banking-service/services/card_network.py:188-483 | in-place authorisation with commit and rollback equals the authorisation step |
| CardLedger.Session.ProcessSettlement | banking-service/services/card_network.py:491-600 | in-place settlement, in the order of the code, equals the settlement step |
| CardLedger.Session.ProcessReversal | banking-service/services/card_network.py:608-648 | in-place reversal equals the reversal step |
| CardLedger.Session.ExecuteBillPayment | banking-service/services/accounts.py:93-167 | in-place payment equals the payment step |
| CardLedger.Session.CreateDepositAccount | banking-service/services/accounts.py:199-257 | in-place opening equals the opening step |
| CardLedger.Session.PostFinancialTransaction | banking-service/services/financial_journal.py:117-217 | the loops over entries, totals, signatures and accounts decide as the posting step does: append under a fresh key, find the same entries, or refuse |
| CardLedger.Session.BookOnCard | banking-service/services/card_network.py:523-562 | posting, line, debt, mirror and credit changed row by row equal one booking |
| CardLedger.Perform | banking-service/services/card_network.py:170-648 | any sequence of calls on a session leaves what the run of steps computes |
| BillPaymentTheorems.MovesAtMostOnce | banking-service/services/accounts.py:77-155 | in every interleaving a durable key moves money once if it has a stored answer, and never otherwise |
| BillPaymentTheorems.SuccessesAgree | banking-service/services/accounts.py:83-91 | all successes under a key, at any two times, are for one request and one stored result, and the move was made |
| BillPaymentTheorems.NoUpdateIsLost | banking-service/services/accounts.py:99-133 | a balance is what other transactions made of it less what the moves took |
| BillPaymentTheorems.CommitsAreCovered | banking-service/services/accounts.py:99-133 | a commit moves the amount between the payer's own active rows of the right currency as they are then, and neither goes below zero |
| BillPaymentTheorems.NeverReposts | banking-service/services/accounts.py:105-127 | no session reaches the posting with its own request already posted |
| BillPaymentTheorems.NothingIsTakenBack | banking-service/services/accounts.py:145-155 | stored answers, moves and given answers stay |
| BillPaymentTheorems.RetryAnswers | banking-service/services/accounts.py:83-98 | in every later world a retry under a key with a stored answer gets the stored result for the same request and a conflict for any other, and moves nothing |
| BillPaymentTheorems.AloneSucceeds | banking-service/services/accounts.py:93-155 | a payment that can be made and is left to itself moves the money in nine statements |
| BillPaymentTheorems.AloneIsAnswered | banking-service/services/accounts.py:93-167 | how a payment that nobody disturbs ends, for every state: not found, conflict, unprocessable, a wait for a key in flight, a replay or success, each exactly under its condition, with nothing changed unless it succeeds |
| BillPaymentTheorems.OnlyKeysAreWaitedFor | banking-service/services/accounts.py:93-104 | a taken row lock is answered with a conflict and never waited for; the one thing waited for is a key that another transaction is inserting |
| BillPaymentProtocol.RunKeepsInv | banking-service/services/accounts.py:93-164 | locks, in-flight keys, rows read under lock, stored answers and balances fit together over every run |
| DepositStatement.ListBalances | banking-service/services/accounts.py:433-453 | the newest-first loop lists, line by line, the balances forward posting had left: each is the closing balance less the cleared amounts after it |
| DepositStatement.ListedAt | banking-service/services/accounts.py:433-453 | a listed balance is the present one less the cleared credits above its line plus the cleared debits above it; pending lines count nowhere |
| DepositStatement.UndoingInvertsPosting | banking-service/services/accounts.py:449-451 | undoing newest first is the inverse of posting oldest first |
| DepositStatement.PostingIsUndone | banking-service/services/accounts.py:436-451 | for any opening balance and any entries, undoing from the closing balance returns the opening one |
| DepositStatement.DepositsOpenEmpty | banking-service/services/accounts.py:417-453 | for every reachable deposit, undoing all its journal entries leads to zero and to nothing else |
| OutboxRelay.AuditOutboxRelay.Run | banking-service/scripts/audit_outbox_relay.py:129-188 | the publishing loop with its failures, dry run, lock and commit does what one attempt does; a dry run, a taken lock or an invalid batch size leaves everything as it was |
| OutboxRelay.RelayDecision | banking-service/scripts/audit_outbox_relay.py:129-188 | exactly which answer a run gives, with the number of rows published or to be published and the last of them as its cursor |
| OutboxRelay.RelayEffect | banking-service/scripts/audit_outbox_relay.py:129-178 | rows are delivered only by a run that is not dry and holds the lock: a prefix of the pending ones; the cursor moves only when all of the batch went out |
| OutboxRelay.DeliveredAtLeastOnce | banking-service/scripts/audit_outbox_relay.py:97-178 | over every run each row at or below the cursor was delivered, and `published_count` counts exactly those rows |
| OutboxRelay.RunKeepsInv | banking-service/scripts/audit_outbox_relay.py:149-178 | the cursor always stands behind the rows it counts |
| OutboxRelay.PendingIsTail | banking-service/scripts/audit_outbox_relay.py:97-115 | the pending rows are exactly those after the first `published_count` |
| OutboxRelay.CursorNeverMovesBack | banking-service/scripts/audit_outbox_relay.py:162-168 | what is beyond a later cursor was beyond every earlier one |
| OutboxRelay.LateRowIsSkipped | banking-service/scripts/audit_outbox_relay.py:100-110 | a row at or below the cursor is never delivered from then on |
| OutboxRelay.DrainingTakesCeiling | banking-service/scripts/audit_outbox_relay.py:129-168 | n pending rows are drained after ceil(n / batch) successful runs and not before |
| VoiceSessions.RegistryIsSound | adk-agent/credit-support-agent/voice_agent.py:1557-1605 | at every await point rooms with a session are those holding capacity, each with its newest task, within the maximum |
| VoiceSessions.OneTaskGoesOn | adk-agent/credit-support-agent/voice_agent.py:1561-1600 | at every state of every interleaving the tasks neither ended nor cancelled are exactly the sessions, so a room has at most one |
| VoiceSessions.OtherRoomsStay | adk-agent/credit-support-agent/voice_agent.py:1557-1605 | a step changes session and reservation of the one room it is about and of no other |
| VoiceSessions.TasksMove | adk-agent/credit-support-agent/voice_agent.py:1557-1605 | what each step does to each task: which is cancelled, which ends, and that no other moves |
| VoiceSessions.LateCleanupChangesNothing | adk-agent/credit-support-agent/voice_agent.py:1588-1596 | a superseded task is never a session again and its late cleanup touches neither registry nor capacity |
| VoiceSessions.ReservationsAreLive | adk-agent/credit-support-agent/voice_agent.py:1588-1599 | every reservation belongs to a task that has not ended |
| VoiceSessions.ReconnectIsLaunched | adk-agent/credit-support-agent/voice_agent.py:1558-1584 | a room that reconnects needing no more than it had is launched, whatever runs while it waits |
| VoiceSessions.AdmissionDecision | adk-agent/credit-support-agent/agent/session_capacity.py:50-64 | a new room is launched exactly when its units fit |
| VoiceSessions.LaunchOrReject | adk-agent/credit-support-agent/voice_agent.py:1576-1605 | once its room is free a start holds exactly its units and a new task, or nothing at all when they do not fit; the lock is free again |
| VoiceSessions.ReplacementWaits | adk-agent/credit-support-agent/voice_agent.py:1557-1566 | a start for a room with a session gives its units back, cancels its task and waits with the lock |
| VoiceSessions.EndReleasesOwn | adk-agent/credit-support-agent/voice_agent.py:1588-1596 | the end of a running task takes its room and its units back exactly when it is still the session there |
| VoiceSessions.VoiceService.StartSession | adk-agent/credit-support-agent/voice_agent.py:1557-1566 | the start up to its wait keeps the registry sound, cancels the task it replaces and never finds its room reserved |
| VoiceSessions.VoiceService.ResumeStart | adk-agent/credit-support-agent/voice_agent.py:1576-1605 | the rest of the start likewise |
| VoiceSessions.VoiceService.EndTask | adk-agent/credit-support-agent/voice_agent.py:1588-1596 | the end of a task with its guarded cleanup |
| VoiceSessions.VoiceService.UsedUnits | adk-agent/credit-support-agent/agent/session_capacity.py:39-41 | the loop adds up the reserved units |
| PulseAdmission.EventAdmittedOncePerTtl | data-generator/main.py:412-445 | under any faults and interleaving the keys of two admissions of one event were set a dedup TTL apart; the later admission comes a TTL after the earlier one less the time that one took between its commands, or took a whole TTL between its own |
| PulseAdmission.SlowCallerAdmitsTwice | data-generator/main.py:412-445 | the second case happens: an event is admitted twice at the same time |
| PulseAdmission.OnePulseAtATime | data-generator/main.py:431-482 | when a pulse is admitted every earlier one released the lock, held it for its TTL, or lost it while live to a delete of a pulse whose own lock had expired by then or had been lost in the same manner before |
| PulseAdmission.LateDeleteAdmitsAnother | data-generator/main.py:473-482 | the last case happens: reading and then deleting the lock lets a late pulse delete its successor's lock and a third be admitted |
| PulseAdmission.FirstDisplacementIsLate | data-generator/main.py:473-482 | the first lock of a run that is deleted by another pulse is deleted after that pulse's own lock expired |
| PulseAdmission.DisplacedDeletesInTurn | data-generator/main.py:473-482 | the other kind happens too: a displaced pulse deletes the next lock within its own TTL |
| PulseAdmission.ReleaseInTime | data-generator/main.py:473-482 | a pulse that has not lost its lock to another deletes, within the TTL, exactly its own |
| PulseAdmission.RunKeepsInv | data-generator/main.py:412-482 | keys guard their holders until they expire, over every run |
| PulseAdmission.LostReplyOrphans | data-generator/main.py:447-453 | after a lost reply to the event command nobody is admitted for the event until its key expires |
| PulseAdmission.OrphanedEventIsLost | data-generator/main.py:416-429 | such an event is admitted by nobody for the rest of the TTL |
| PulseAdmission.BusyLockBurnsEvent | data-generator/main.py:438-445 | a pulse refused by the active lock burns its event: nobody is admitted for it for the rest of the TTL |
| PulseAdmission.LostReplyOrphansLock | data-generator/main.py:432-453 | after a lost reply to the active-lock command no pulse at all is admitted until the lock expires |
| PulseAdmission.OrphanedLockRefusesAll | data-generator/main.py:431-445 | under a lock that no running pulse holds every pulse is refused, whatever anybody does, until it expires |
| PulseAdmission.AdmissionDecision | data-generator/main.py:412-470 | exactly when one caller by itself is admitted, and otherwise which reason it is given, for every fault of its commands, with the keys it leaves |
| PulseAdmission.LiveKeysStay | data-generator/main.py:412-445 | no step of anybody touches a live event key, and none but a delete a live lock; what is written is the own token of who issued the command, for the whole TTL |
| PulseAdmission.OthersStay | data-generator/main.py:412-470 | a step moves its own caller alone, and only a delete releases or displaces |
| PulseAdmission.AdmittedByLock | data-generator/main.py:431-445 | a pulse is admitted only by its own command for the lock, where none was live, and then holds it |
| PulseAdmission.ReleaseFrees | data-generator/main.py:473-482 | a release that nothing interrupts frees the lock exactly when it is the pulse's own and live and neither command fails; another's lock stays |
| PulseAdmission.Redis.AdmitPulse | data-generator/main.py:393-470 | the two-attempt loop does what the commands of the interleaved model do, with the reason given exactly for its keys and faults; a live lock or event key of others is never touched |
| KnowledgeCorpus.RenderThenLoad | banking-service/services/credit_knowledge_corpus.py:287-339 | rendering and loading return the same snapshot exactly when every record survives: no blank title or text, no adjacent surrogates |
| KnowledgeCorpus.BlankTextIsRefused | banking-service/services/credit_knowledge_corpus.py:287-339 | a document with a blank text is built and printed, read back the same, and refused |
| KnowledgeCorpus.SurrogatesAreMerged | banking-service/services/credit_knowledge_corpus.py:287-339 | a document with two adjacent surrogates is built, printed and loaded, but with one character in their place |
| KnowledgeCorpus.UnstampedRecords | banking-service/services/credit_knowledge_corpus.py:213-245 | the builder's loops accept exactly the documents with valid, distinct ids and short sections, return their records in order, and otherwise refuse for the first document that is wrong |
| KnowledgeCorpus.DocumentRecords | banking-service/services/credit_knowledge_corpus.py:215-241 | the same for one document; a refusal names what is wrong with its first bad section |
| KnowledgeCorpus.BuiltRecords | banking-service/services/credit_knowledge_corpus.py:223-245 | built records have distinct valid ids and spans of at most 200 characters |
| KnowledgeCorpus.RecordAt | banking-service/services/credit_knowledge_corpus.py:213-245 | every section of every document has its record, under its id and in the order of the documents |
| KnowledgeCorpus.RecordCount | banking-service/services/credit_knowledge_corpus.py:213-245 | and there are no other records |
| KnowledgeCorpus.RecordsAreSections | banking-service/services/credit_knowledge_corpus.py:219-241 | every record is a checked section of one of the documents |
| KnowledgeCorpus.RenderedIsParsed | banking-service/services/credit_knowledge_corpus.py:289-292 | the documents file is one printable ASCII line a record and is parsed record by record |
| KnowledgeCorpus.FieldTexts | banking-service/services/credit_knowledge_corpus.py:230-267 | a stamped record says of its section exactly what its document says |
| KnowledgeCorpus.LoadCorpus | banking-service/services/credit_knowledge_corpus.py:318-339 | the loader's loops accept exactly the loadable files |
| KnowledgeCorpus.ParsedLines | banking-service/services/credit_knowledge_corpus.py:324-325 | a file is read exactly when every line that is not blank parses, one record a line in order |
| KnowledgeCorpus.LoadedRecords | banking-service/services/credit_knowledge_corpus.py:318-339 | every record of a loaded snapshot carries the manifest's snapshot id, nothing grounded blank and at most 200 characters, and there are as many as the manifest says |
| KnowledgeCorpus.StampedGrounded | banking-service/services/credit_knowledge_corpus.py:328-338 | a stamped record passes the loader's checks exactly when title and text are not blank |
| KnowledgeCorpus.StampedPairFree | banking-service/services/credit_knowledge_corpus.py:112-113 | stamping, citation included, adds no adjacent surrogates of its own |
| JsonText.RoundTrip | banking-service/services/credit_knowledge_corpus.py:289-292 | printing and reading a value is the identity exactly without adjacent surrogates, and joins them otherwise |
| JsonText.StringIsRead | banking-service/services/credit_knowledge_corpus.py:290 | an escaped text is read back with its surrogate pairs joined (RFC 8259, section 7) |
| JsonText.AdjacentSurrogatesMerge | banking-service/services/credit_knowledge_corpus.py:290 | a text that does not come back as it was |
| JsonText.PrintIsPrintable | banking-service/services/credit_knowledge_corpus.py:290 | a printed value is printable ASCII |
| JsonText.LinesRoundTrip | banking-service/services/credit_knowledge_corpus.py:324 | printable lines are split where they were joined |
| KnowledgeImport.Converge | banking-service/scripts/import_credit_knowledge.py:124-240 | import and prune end in exactly the snapshot if and only if the import succeeds, nothing foreign is stored and no delete fails; whichever records landed and however the run ends, no other document becomes foreign or stale |
| KnowledgeImport.Store.ImportSnapshot | banking-service/scripts/import_credit_knowledge.py:124-161 | whichever records the service wrote, exactly those are stored; a successful import holds the snapshot under its ids and leaves all else |
| KnowledgeImport.Store.PruneDocuments | banking-service/scripts/import_credit_knowledge.py:192-240 | what a prune deletes, counts and answers; a foreign document means zero deletes; the snapshot's part is intact after every delete, with the exact number of failed deletes |
| KnowledgeImport.Store.Survey | banking-service/scripts/import_credit_knowledge.py:205-215 | every stored document is kept, stale or foreign, and counted once |
| KnowledgeImport.Store.StoredDocuments | banking-service/scripts/import_credit_knowledge.py:164-177 | following page tokens yields all pages in order |
| KnowledgeImport.UpsertedHoldsSnapshot | banking-service/scripts/import_credit_knowledge.py:137-147 | whatever the store held, its part under the snapshot's ids is the snapshot |
| KnowledgeImport.SnapshotHoldsRecords | banking-service/scripts/import_credit_knowledge.py:137-147 | a snapshot with distinct ids is stored record by record, fields and all |
| KnowledgeImport.SameOutsiders | banking-service/scripts/import_credit_knowledge.py:180-215 | importing all or some of the records makes nothing stale or foreign that was not so before |
| KnowledgeImport.RerunChangesNothing | banking-service/scripts/import_credit_knowledge.py:192-240 | a second run writes nothing new, deletes nothing and finds nothing foreign |
| KnowledgeImport.OlderSnapshotIsStale | banking-service/scripts/import_credit_knowledge.py:180-215 | a store that holds an older snapshot as the builder stamps it has nothing foreign to a newer one, and stale is exactly what the newer one dropped: an upgrade is never refused |
| KnowledgeImport.OthersAreForeign | banking-service/scripts/import_credit_knowledge.py:180-220 | exactly which documents stop all deletes: without fields, without a snapshot id, of another kind or with another name |
| KnowledgeSearch.Knowledge.Search | banking-service/services/credit_knowledge_search.py:232-258 | exactly when a search answers; answers are distinct shipped sections within the page size; a hit is the service's last answer under that key, less than the TTL ago |
| KnowledgeSearch.Serve | banking-service/services/credit_knowledge_search.py:232-258 | over any interleaving of the lookups and fetches of overlapping searches the cache stays sound, answers are shipped sections, and a hit is what the service last answered to anybody under that key less than the TTL before |
| KnowledgeSearch.Knowledge.Fetch | banking-service/services/credit_knowledge_search.py:238-258 | what a search does after a miss: answered exactly when every result is acceptable, and then stored |
| KnowledgeSearch.Knowledge.Cached | banking-service/services/credit_knowledge_search.py:200-208 | a hit exactly when a young enough entry exists; an old one is dropped |
| KnowledgeSearch.Knowledge.Store | banking-service/services/credit_knowledge_search.py:210-215 | the newest goes to the end, the oldest goes when there are more than 256, and the cache stays sound |
| KnowledgeSearch.Knowledge.Collect | banking-service/services/credit_knowledge_search.py:238-256 | a page is answered exactly when the first result of every id is a shipped section, with exactly those ids in the order of the service's results |
| KnowledgeSearch.GroundedSnippet | banking-service/services/credit_knowledge_search.py:131-154 | a snippet equals the shipped record, recomputed citation included |
| KnowledgeSearch.GroundedExactly | banking-service/services/credit_knowledge_search.py:131-154 | a result is taken exactly when the shipped snapshot has its id and says the same in all five grounded fields; one of another snapshot or changed anywhere is refused |
| KnowledgeSearch.SharedKey | banking-service/services/credit_knowledge_search.py:233-234 | two searches share a cache key exactly when their queries agree up to outer white space and their clamped page sizes are the same |
| KnowledgeSearch.StoreKeeps | banking-service/services/credit_knowledge_search.py:210-215 | storing keeps the cache bounded, ordered by store time, grounded and true to the service's last answers; the newest is last and only the oldest can go, and only from a full cache |
| KnowledgeSearch.Clamp | banking-service/services/credit_knowledge_search.py:116-117 | a page size between 1 and 5, unchanged if it was |
| DatabasePrivileges.Session.Reconcile | banking-service/scripts/database_lifecycle.py:576-586 | one transaction succeeds exactly for the actors and databases `Reconcilable` names and then leaves ownership, grants and replication as they should be, else changes nothing; memberships end as they were |
| DatabasePrivileges.Session.ReconcileCommand | banking-service/scripts/database_lifecycle.py:576-590 | the whole command, slot and verification included, succeeds exactly when `Succeeds` holds of the rows before it |
| DatabasePrivileges.Session.ReconcileOwnership | banking-service/scripts/database_lifecycle.py:294-392 | exactly when ownership can be transferred; all managed objects and the old owners' grants on them end with the schema owner, and the actor's memberships are restored |
| DatabasePrivileges.Session.AssumeOwners | banking-service/scripts/database_lifecycle.py:304-346 | the actor becomes a member of every foreign owner, recording exactly the new memberships, or the run fails |
| DatabasePrivileges.Session.AlterOwners | banking-service/scripts/database_lifecycle.py:348-384 | every managed object changes hands, its grants with it, exactly when each statement is allowed |
| DatabasePrivileges.TransferableMeansEachMay | banking-service/scripts/database_lifecycle.py:297-303 | with the temporary memberships in place, transferability is what every single statement needs |
| DatabasePrivileges.Session.GrantOn | banking-service/scripts/database_lifecycle.py:395-404 | a grant on objects of the schema owner adds exactly what it names for who acts as the owner, and nothing, with a warning or an error, for anybody else |
| DatabasePrivileges.Session.GrantRwSchema | banking-service/scripts/database_lifecycle.py:395-420 | what the five statements add, and that they go through exactly for who acts as the schema owner |
| DatabasePrivileges.Session.ReconcileGrants | banking-service/scripts/database_lifecycle.py:423-536 | all loops together: they go through exactly when everything named is there, the actor acts as the schema owner and has some privilege on the database; everything granted that should be, everything revoked that should be, other grants kept |
| DatabasePrivileges.Session.RevokeAll | banking-service/scripts/database_lifecycle.py:504-536 | exactly the listed privileges on immutable tables are taken away |
| DatabasePrivileges.SecondRunChangesNothing | banking-service/scripts/database_lifecycle.py:576-586 | the same actor can always reconcile again, and the second time changes nothing |
| DatabasePrivileges.WhoMayReconcileAgain | banking-service/scripts/database_lifecycle.py:576-586 | after a reconciliation exactly the actors that act as the schema owner, have some privilege on the database and may set up replication can do it again |
| DatabasePrivileges.StrangersCannotReconcile | banking-service/scripts/database_lifecycle.py:408-420 | an actor that is no member of anything cannot reconcile even when nothing is left to transfer |
| DatabasePrivileges.TransferIsNotEnough | banking-service/scripts/database_lifecycle.py:386-420 | a case where ownership can be transferred under temporary memberships but the default privileges are refused once these are revoked; membership in the schema owner mends it |
| DatabasePrivileges.ConnectGranted | banking-service/scripts/database_lifecycle.py:283-291 | CONNECT reaches the group roles exactly when the actor owns the database or it was granted before |
| DatabasePrivileges.ReconciledVerifies | banking-service/scripts/database_lifecycle.py:634-774 | after reconciling, verify reports exactly the principals, memberships, revision, epoch and slot that were not as expected all along and the listed roles that belong to a harmful group; no usage, owner, replication or publication finding |
| DatabasePrivileges.IsolatedRolesVerify | banking-service/scripts/database_lifecycle.py:634-774 | it reports nothing when what is configured is there and the listed roles belong to no group |
| DatabasePrivileges.NothingFoundMeansSound | banking-service/scripts/database_lifecycle.py:634-774 | of any database, verification reports nothing if and only if roles, memberships and revision are as configured, every application role can use its schemas, all schemas, tables and sequences belong to the schema owner, no listed role can change an immutable table by any path, and replication asked for is set up |
| DatabasePrivileges.FoundIsMended | banking-service/scripts/database_lifecycle.py:576-774 | the owners and the replication that reconciling changes are, one by one, those verification reports before it, and every missing usage it reports is granted |
| DatabasePrivileges.ChangingGrants | banking-service/scripts/database_lifecycle.py:515-534 | who may still change an immutable table afterwards |
| DatabasePrivileges.RolesCanWork | banking-service/scripts/database_lifecycle.py:395-426 | after a reconciliation every application role can use its schemas, read and insert in all their tables and use their sequences, and update and delete wherever nothing is immutable |
| DatabasePrivileges.RolesCanWorkLater | banking-service/scripts/database_lifecycle.py:408-420 | so it goes for tables and sequences created later |
| DatabasePrivileges.ResetCanTruncate | banking-service/scripts/database_lifecycle.py:429-441 | the reset role can empty every table but the outbox and the checkpoint of the relay |
| DatabasePrivileges.ReadersCanRead | banking-service/scripts/database_lifecycle.py:460-487 | the readers can read the tables of their schemas, present and future |
| DatabasePrivileges.RelayCanWork | banking-service/scripts/database_lifecycle.py:494-503 | the audit relay can read the outbox and keep its checkpoint |
| DatabasePrivileges.ServicesCanWork | banking-service/scripts/database_lifecycle.py:443-492 | the scheduler can work on its table and the voice service create in its schema |
| DatabasePrivileges.CanUseIt | banking-service/scripts/database_lifecycle.py:395-503 | whatever is granted and not revoked can be used, as verification asks it |
| DatabasePrivileges.NewGrantsAreModest | banking-service/scripts/database_lifecycle.py:423-536 | every grant that is new is one of few kinds: readers only read, only the reset role truncates, only the voice role creates, and nobody but the reset role may change an immutable table |
| DatabasePrivileges.Session.Verify | banking-service/scripts/database_lifecycle.py:634-774 | reports exactly the missing roles, memberships and usages, wrong owners, revision and epoch, too broad permissions and missing replication |
| DatabasePrivileges.Session.GroupsOf | banking-service/scripts/database_lifecycle.py:617-631 | following memberships finds exactly the groups a role belongs to |
| TrafficSchedule.ScheduleEndsInTime | data-generator/main.py:1127-1160 | in double precision, everything on every schedule ends in time if and only if the window as the code measures it fits before the end; so it does for every span before the first that fails, and nothing is ever more than 30 microseconds late |
| TrafficSchedule.LateByRounding | data-generator/main.py:1157 | a span `d` microseconds short of `k` minutes, less than half of the last place of its seconds, makes an event `d` late |
| TrafficSchedule.FirstLate | data-generator/main.py:1157 | the first span that fails, 286331154 minutes less a microsecond, with its timeline |
| TrafficSchedule.LatestLate | data-generator/main.py:1157 | a span that is 30 microseconds late, the most there is |
| TrafficSchedule.WindowFits | data-generator/main.py:1157 | rounding the seconds of a span adds at most 30 microseconds to its whole minutes, and nothing for all spans before the first that fails |
| TrafficSchedule.FarthestFillsWindow | data-generator/main.py:1134-1160 | some event needs the farthest offset, and a compressed timeline puts it at the last whole minute of the window, all three roundings included |
| TrafficSchedule.CondensedWhenShort | data-generator/main.py:1192-1195 | the scale is below one, and the warning given, exactly when the window is too short |
| TrafficSchedule.OrderIsKept | data-generator/main.py:1134 | scaling and rounding, to doubles and half to even, keep the order of offsets |
| TrafficSchedule.ResolutionFollows | data-generator/main.py:1241-1246 | no resolution precedes its authorisation when the delay is not negative |
| TrafficSchedule.TimelineScheduleScale | data-generator/main.py:1137-1160 | the loop computes the scale of the farthest offset any event needs |
| TrafficSchedule.EnqueueSchedule | data-generator/main.py:1163-1266 | the loop schedules every event and resolution once, cards taken in turn, and refuses an end before the start |
| TrafficSchedule.ScheduleHolds | data-generator/main.py:1204-1266 | what is on the schedule, for every timeline: each authorisation and customer action has its one entry at its time, the k-th authorisation with card k modulo their number, each resolution its one entry at the delayed time, in the order of the timeline, and there is nothing else |
| TrafficSchedule.UncompressedIsExact | data-generator/main.py:1127-1160 | without an end, or with a window that is long enough, every event is at its own minute (of the first 2^33) |
| TrafficSchedule.CompressedIsNear | data-generator/main.py:1127-1160 | a compressed offset is put at the minute nearest to its share of the window, but for less than four millionths by the three roundings |
| TrafficSchedule.TopOffSplit | data-generator/main.py:2494-2501 | parts of at least one cent, exact shares, summing to the target, with a remainder below the number of parts |
| TrafficSchedule.RemainderIsSmall | data-generator/main.py:2496-2501 | what rounding leaves over is less than a cent a part |
| Doubles.InOrder | data-generator/main.py:1134-1160 | rounding to double precision keeps order (IEEE 754, section 4.3.1) |
| Doubles.NearestIsNear | data-generator/main.py:1134-1160 | it moves by at most half of the last place |
| Doubles.WholeIsKept | data-generator/main.py:1134-1160 | it keeps whole numbers of 53 bits |
| Doubles.RoundTie | data-generator/main.py:1134 | halfway between two whole numbers rounding takes the even one |
| Doubles.NearestTie | data-generator/main.py:1134-1160 | so does rounding to doubles with multiples of the last place (IEEE 754, section 4.3.1) |

## Left out

- LimitIsKept: amounts are unbounded integers apart from the range checks of `Money`; an overflow of a BIGINT column is not modelled.
- RunKeepsValid: `process_*` calls are single atomic steps; the code reads a hold before it locks the account, and RRN has no unique constraint, so interleavings of card-network calls are not covered.
- BooksReconcile: accounts without a currency, amounts of legacy schemas, counts and entry lists of the report are not modelled; the type of an account is its kind of identifier.
- MovesAtMostOnce: the insertion of a mirror row by another transaction while a payment holds the card's lock is not modelled.
- NothingIsTakenBack: `archive_stale_transactions` (`banking-service/utils/idempotency.py:67`), which clears stored answers after 30 days and is called by no service, is not one of the actions.
- PaidOnce: nor is it one of the operations; after it the same request conflicts.
- AloneSucceeds: no lock waits other than the one on a key being inserted are modelled, since all row locks are taken without waiting.
- ListBalances: entries with equal posting times come in no particular order from the database; the model takes the order as given.
- DeliveredAtLeastOnce: rows are assumed to become visible beyond the cursor; `LateRowIsSkipped` shows the assumption is needed. Rows without a time are kept apart and never pending.
- EventAdmittedOncePerTtl: time is one clock for all; a failover of Redis that loses keys is not modelled.
- OpenDecision: account and application numbers other than the account's own, which are drawn at random, do not collide; blanks at the end of a key beyond its column are not cut off as PostgreSQL would.
- AdmitPulse: admission without Redis and the reading of event ids from requests are not modelled.
- ReconnectIsLaunched: the lock is granted in any order and the wait for the old task may end at any time, which includes its timeout.
- RenderThenLoad: the digest is a parameter, the manifest is passed as values, and the reader knows texts and objects without white space, which is all the printer writes.
- LoadCorpus: a structured field that is itself an object is taken as blank.
- Converge: which records the service wrote and what becomes of a delete are parameters; documents others add meanwhile are not modelled.
- Serve: the clock does not go back; the lexical search for offline use is not modelled.
- ReconcileCommand: superusers, roles without inheritance, grant options and other grantors than the owner, the rights a statement needs to name or to read a relation, sequences linked to a table, changes of what the actor may grant during the run, and the refresh of reference catalogs after verification are not modelled; the rights are those PostgreSQL's documentation gives each statement.
- ScheduleEndsInTime: the bounds of the exponent of doubles (offsets of more than 2^1022 minutes) and dates past the year 9999 without an end are not modelled.
- UncompressedIsExact: offsets of 2^33 minutes or more, which lie past the year 9999 from any start, are not covered.
- EnqueueSchedule: payloads, Cloud Tasks and the choice of a resolution by policy are parameters or absent.
- Fraud scoring and alerts, merchant enrichment, audit payloads, Redis event publishing and logging: no effect on the modelled state.
- Action proposals and playbook administration, HTTP routing, authentication, media, BigQuery, seeding and reset jobs.
