# Verified model of the wallet's money engine

This project models the transactional core of a closed-ecosystem wallet: accounts, transfers, the append-only
ledger, idempotency records, undo holds, SafePay escrows, Spot-Me pools with their loans and repayments, money
requests and the durable task queue, and proves what that core promises.

Every movement of money goes through one operation, `execute`: reserve a key, lock, re-check, write two balances,
record the transfer, post two ledger lines, and then let the Spot-Me lien re-enter `execute` for each loan of the
receiver. Everything else nests calls to it. The project has three layers.

* **Specification.** Pure functions over one `State` value (`Tables`, `Transfers`, `Holds`, `SpotMe`, `SafePay`,
  `MoneyRequests`, `Scheduling`, `Worker`), composed in `Bank` into a command, its transaction (commit, or discard
  every write) and runs of commands from the migrated, empty database. The mutual recursion of `execute` and the
  lien terminates because a repayment is a kind the lien ignores.
* **Proof.** `Invariants` states one global invariant. `Legs`, `Sweeps`, `Executions` and `Effects` characterise one
  execution exactly; `Settling` and `Conservation` lift that to holds and draws; `Keeping`, `Payments`, `Sending`,
  `Closings`, `Escrows` and `Batches` show that each command keeps the invariant; `Runs` concludes for every run and
  `Consequences` spells out what that means. `Growth` shows that history is append-only, that fees are the only drift
  and that only owners spend; `ExactlyOnce` follows retries over runs and `EscrowRuns` the escrow machine; `Liens` and
  `Positions` give the order of repayment and every user's net position. `Shortfalls`, `EscrowOutcomes` and `Outcomes`
  say exactly when each command goes through and what it leaves and answers, over plain rows, and `Refusals` with which
  error it is refused otherwise; `Backing` ties each loan and repayment to its grant and its leg; `HoldRuns` follows the
  undo window and the dispute window over runs.
* **Programs.** `Store.Session` holds the tables as fields; its methods and those of `Operations`,
  `EscrowOperations` and `Processes` update them step by step as the services do, with their loops, savepoints and
  retries, and are proved equal to the specification, results and errors included.

Beside them stand `Concurrency` (interleaved transactions with row locks) and `LockedTransfers` (`execute` as one of
them), `Reconciliation` (the independent report), `Lockout` (the attempt counter of PINs and delivery codes) and
`CodeRuns` (that counter over runs of the whole system), `Pagination`, `MoneyText` and `Ulids`. `Witnesses` holds
concrete runs from the empty database.

The invariant is proved for the wired configuration (no fee, a lien between 1 and 10 000 basis points, a positive code
lock period), as the container builds it. `FeesAreTheOnlyDrift` and the append-only results hold for every
configuration.

The model follows the code also where it does not do what one would expect of it. Each such case is stated with its
exact condition and an input that shows it:

* `undo` does not test the ten-second deadline; the window ends when the worker latches the hold
  (`Closings.UndoKeeps`, `Witnesses.UndoOverstates`).
* The sender balance that `undo` reports is the one before the lien on the refund (`Positions.UndoReportsBeforeLien`,
  `Witnesses.UndoOverstates`).
* Retrying an accepted money request under its key is refused, not replayed (`ExactlyOnce.AcceptNeverReplays`,
  `Witnesses.AcceptanceNotRetryable`).
* A replayed pool top-up reports the current balance (`ExactlyOnce.FundReplayAgrees`,
  `Witnesses.TopUpAnswersDiffer`).
* A draw's key is scoped to the sponsor and derived from the client key alone, so two borrowers of one sponsor cannot
  both draw under one client key (`Shortfalls.SendSucceeds`, `Shortfalls.SharedKeyIsRefused`,
  `Witnesses.TwoBorrowersOneKey`).
* The decimal grammar also accepts one trailing newline, and nothing else (`MoneyText.OnlyNewlineDeparts`,
  `MoneyText.NewlineAccepted`).

Accepting an expired request writes EXPIRED and then raises, so the write is rolled back with the transaction.

`dafny verify dfyconfig.toml` checks the whole project.

## Model

| member | source | states |
|---|---|---|
| `Runs.StepKeeps` | backend/modules/financial_core/application/transfer.py:188-392 | every command of the system, in every state satisfying the invariant, leaves a state satisfying it |
| `Runs.EveryRunKeeps` | backend/modules/financial_core/application/transfer.py:188-392 | after any sequence of accepted and refused commands, at any clock readings, the whole invariant holds |
| `Consequences.BalancesAreEntries` | backend/modules/financial_core/application/transfer.py:257-305 | in every reachable state each balance is the sum of its entries, and only issuance is ever negative |
| `Consequences.EntriesRun` | backend/modules/financial_core/adapters/persistence/repositories.py:341-377 | in every reachable state each entry stores its account's running balance in posting order, nested lien legs included |
| `Consequences.HoldingEqualsOpenHolds` | backend/modules/financial_core/application/holding.py:67-174 | in every reachable state PENDING_SETTLEMENT holds exactly the PENDING_UNDO holds and ESCROW exactly the HELD ones |
| `Consequences.OneLegPerHold` | backend/modules/financial_core/application/holding.py:111-174 | an open hold has no settlement leg, a closed one exactly one, of exactly its amount, to the party its outcome names |
| `Consequences.PoolsStayWhole` | backend/modules/overdraft/application/service.py:119-135 | in every reachable state pool balance plus what is owed to it is everything ever funded |
| `Consequences.LoansAddUp` | backend/modules/overdraft/adapters/persistence/repositories.py:165-200 | in every reachable state a loan's principal is its outstanding plus its repayments, and it is REPAID iff nothing is outstanding |
| `Consequences.EscrowAgreesWithHold` | backend/modules/safepay/application/service.py:602-702 | escrow unsettled or disputed iff its hold is HELD, RELEASED iff SUCCEEDED with a leg to the seller, REFUNDED iff REFUNDED with a leg to the buyer |
| `Consequences.NoStrandedMoney` | backend/apps/scheduler_worker/main.py:48-95 | every open undo window and every delivered escrow has a task that is pending or failed; no task ever has more than eight attempts |
| `Consequences.DailyCapHolds` | backend/modules/financial_core/application/transfer.py:245-251 | for every account and UTC day, capped and unrefunded outflow stays within the daily total, with no assumption on the clock |
| `Consequences.SingleLimitHolds` | backend/modules/financial_core/domain/policies.py:94-103 | in every reachable state every undo hold, escrow hold, request settlement and pool funding is within the single limit |
| `Consequences.LoansAreBacked` | backend/modules/overdraft/adapters/persistence/repositories.py:114-139 | in every reachable state each loan was made by its own draw of exactly its principal, out of its pool and to its borrower, under a grant of that pool to that borrower whose maximum covers it |
| `Consequences.RepaymentsAreBacked` | backend/modules/overdraft/adapters/persistence/repositories.py:165-200 | in every reachable state each repayment was paid by its own leg of exactly its amount, from its borrower to its pool, triggered by an earlier credit to that same account |
| `Consequences.RequestsAreSettledOnce` | backend/modules/money_request/application/money_request_service.py:195-226 | in every reachable state a request is accepted iff it names a settlement, which paid exactly it from payer to requester and settles no other request |
| `Executions.ExecuteEffect` | backend/modules/financial_core/application/transfer.py:188-392 | `execute` on a new key succeeds exactly when its guards hold, and then does exactly one leg plus the lien sweep it triggers |
| `Executions.DebtlessExecute` | backend/modules/financial_core/application/transfer.py:188-392 | a permitted execution to a receiver without loans is exactly one leg |
| `Executions.SentTodayIsSummed` | backend/modules/financial_core/adapters/persistence/repositories.py:305-315 | the windowed sum is what the account sent since the last UTC midnight, refunded transfers left out |
| `Refusals.ExecuteRefusals` | backend/modules/financial_core/application/transfer.py:188-262 | under any fee strategy, which error a first execution answers, in the order the guards are tested |
| `Refusals.SenderPaysFee` | backend/modules/financial_core/application/transfer.py:242-262 | under any fee strategy the sender pays amount and fee, the receiver gets the amount, and the result says so |
| `Legs.LegKeepsBooks` | backend/modules/financial_core/application/transfer.py:257-305 | one leg keeps every balance equal to its entries and every stored running balance right |
| `Ledger.TransferLinesValid` | backend/modules/financial_core/domain/ledger.py:53-95 | a two-line posting is accepted by the constructor iff its amount is non-zero and its accounts differ |
| `Ledger.TransferLinesEffect` | backend/modules/financial_core/domain/ledger.py:81-95 | what a two-line posting adds to any one account |
| `Policies.PercentageFeeIsCeiling` | backend/modules/financial_core/domain/policies.py:54-69 | the percentage fee is the least whole fee not below the exact rate |
| `Policies.FeeIsLeast` | backend/modules/financial_core/domain/policies.py:30-69 | the fee of each strategy; the percentage one is the least that reaches both the minimum and the exact rate |
| `Effects.PostedDaily` | backend/modules/financial_core/domain/policies.py:94-114 | the limit check keeps the daily cap whatever unenforced lien rows come in between |
| `Effects.CappedIsSent` | backend/modules/financial_core/adapters/persistence/repositories.py:305-315 | whatever counts against a day's cap is counted by `sum_sent_since` from that midnight |
| `Effects.PostedNet` | backend/modules/overdraft/application/service.py:463-503 | an execution changes a user's balance minus debt by exactly its amount, whatever the lien takes |
| `Growth.FeesAreTheOnlyDrift` | backend/modules/financial_core/application/transfer.py:242-259 | under any fee strategy and over any run, all balances together are short by exactly the fees charged, and sum to zero without fees |
| `Growth.OnlyOwnersSpend` | backend/modules/financial_core/application/transfer.py:431-444 | in every run, every transfer out of an owned account was initiated by its owner, and one out of an unowned account is of a system-initiated kind |
| `Growth.StepGrows` | backend/modules/financial_core/adapters/persistence/repositories.py:341-377 | no command rewrites a stored response, a posting, a repayment, a closed transfer, a settled escrow or a decided request, changes a loan's terms, raises a debt, reopens a repaid loan, or removes a row or a task |
| `Growth.RunGrows` | backend/modules/financial_core/adapters/persistence/repositories.py:341-377 | the same over any run |
| `Sweeps.TurnSucceeds` | backend/modules/overdraft/application/service.py:469-503 | a repayment leg of the lien cannot be refused by any guard of `execute` |
| `Sweeps.RepaymentKeepsLoans` | backend/modules/overdraft/adapters/persistence/repositories.py:165-200 | `apply_repayment` keeps every loan's books and its `max(0, ...)` never clips |
| `Sweeps.SweepSucceeds` | backend/modules/overdraft/application/service.py:449-503 | the lien loop never fails and repays exactly the smaller of its budget and the outstanding total |
| `Executions.OutstandingTotal` | backend/modules/overdraft/adapters/persistence/repositories.py:141-163 | the rows the lien reads add up to everything the user owes |
| `Transfers.OwingIds` | backend/modules/overdraft/adapters/persistence/repositories.py:141-163 | exactly the user's unpaid loans, ordered by creation time then id |
| `Liens.CreditRepaysInOrder` | backend/modules/overdraft/application/service.py:466-503 | a credit pays the loans out in that order by a closed form, and leaves every other loan untouched |
| `Liens.CreditSweepsFloor` | backend/modules/overdraft/application/service.py:449-503 | over the loan tables before and after: the debt drops by at most the share of the credit, by its whole floor if any debt is left, and the receiver keeps exactly the rest |
| `Liens.OldestFirst` | backend/modules/overdraft/adapters/persistence/repositories.py:159-163 | loans are older by creation time, then id; if a loan receives anything, every older one is paid off |
| `Liens.SweepLocksCovered` | backend/modules/overdraft/application/service.py:432-447 | every repayment leg locks only rows already locked by the credit that triggered it |
| `Store.Session.Execute` | backend/modules/financial_core/application/transfer.py:188-392 | the in-place `execute` computes exactly the specified result, error and tables |
| `Store.Session.AfterCredit` | backend/modules/overdraft/application/service.py:449-503 | the in-place lien loop, re-entering `execute`, computes exactly the specified sweep |
| `Store.Session.ApplyRepayment` | backend/modules/overdraft/adapters/persistence/repositories.py:165-200 | the in-place repayment update is the specified one |
| `Settling.HoldingCoversHold` | backend/modules/financial_core/application/holding.py:111-174 | a holding account always covers any one of its open holds |
| `Settling.SettleEffect` | backend/modules/financial_core/application/holding.py:111-174 | closing a hold succeeds iff its beneficiary is active, never fails for lack of funds, and keeps every conservation law |
| `Settling.LatchFreesHold` | backend/modules/financial_core/adapters/persistence/repositories.py:222-246 | the status latch alone unbalances the holding account by exactly the hold, which the leg then pays |
| `Closings.ClosingKeeps` | backend/modules/financial_core/application/holding.py:133-174 | closing a hold keeps money, links and keys; its settlement key was never used before |
| `Closings.UndoKeeps` | backend/modules/financial_core/application/undo.py:119-194 | an undo under a new key succeeds iff its hold is open, owned by the caller and its sender active, and keeps the invariant |
| `Refusals.UndoRefusals` | backend/modules/financial_core/application/undo.py:135-165 | which error an undo answers for an unknown, a closed and a stranger's hold |
| `Closings.SettleUndoKeeps` | backend/modules/financial_core/application/undo.py:199-235 | the settlement handler fails iff an open hold's receiver cannot be paid, and otherwise leaves no open window |
| `HoldRuns.UndoLeg` | backend/modules/financial_core/application/undo.py:149-194 | an undo latches its hold REFUNDED and pays it back by one leg of that kind, amount and initiator |
| `HoldRuns.SettleLeg` | backend/modules/financial_core/application/undo.py:199-235 | the handler latches the hold SUCCEEDED and pays the intended receiver by one leg in the sender's name |
| `HoldRuns.UndoCancels` | backend/modules/financial_core/application/undo.py:166-172 | an undo cancels the settlement task if it is pending, and touches no other task |
| `Sending.UndoableSendKeeps` | backend/modules/financial_core/application/undo.py:71-117 | a hold and its settlement task are created together, and keep the invariant |
| `HoldRuns.HoldIsScheduled` | backend/modules/financial_core/application/undo.py:103-109 | the settlement of a new hold is scheduled for exactly ten seconds after it, with no attempts, and no other task changes |
| `HoldRuns.SendOpensWindow` | backend/modules/financial_core/application/undo.py:71-117 | a completed send answers with a deadline of now plus ten, and its settlement is pending and due exactly then |
| `HoldRuns.UndoWindow` | backend/modules/financial_core/application/undo.py:119-194 | over any run of commands with clock readings before that deadline the hold stays open, and then an undo by its sender succeeds iff the account is active |
| `HoldRuns.WindowCloses` | backend/apps/scheduler_worker/main.py:48-95 | from the deadline on a worker may claim the task, and one pass settles the hold, or counts one attempt if the receiver cannot be paid |
| `HoldRuns.StepSpares` | backend/platform_/scheduling/repository.py:68-98 | whatever command runs, a hold and a task it does not concern stay exactly as they are |
| `Operations.Settle` | backend/modules/financial_core/application/holding.py:111-174 | the in-place latch-then-pay is the specified settlement |
| `Operations.UndoableSend` | backend/modules/financial_core/application/undo.py:71-117 | the in-place hold and its scheduling are the specified ones |
| `Operations.Undo` | backend/modules/financial_core/application/undo.py:119-194 | the in-place undo is the specified one, error cases included |
| `Operations.SettleUndo` | backend/modules/financial_core/application/undo.py:199-235 | the in-place settlement handler is the specified one |
| `Payments.OpenAccountKeeps` | backend/modules/financial_core/application/open_account.py:45-95 | opening an account and issuing its grant keeps the invariant |
| `Outcomes.OpenAccountOutcome` | backend/modules/financial_core/application/open_account.py:45-95 | an account opens iff the user has none, and issuance then gives it exactly the opening balance and nobody else anything |
| `Refusals.AccountRefusals` | backend/modules/financial_core/application/open_account.py:45-60 | which error opening an account, creating or funding a pool, sending and opening an escrow answer when a party is missing, present twice or the same |
| `Payments.CreatePoolKeeps` | backend/modules/overdraft/application/service.py:70-162 | creating and funding a pool keeps the invariant |
| `Outcomes.CreatePoolOutcome` | backend/modules/overdraft/application/service.py:70-162 | a pool is created iff the sponsor has none and may pay the amount; then exactly that amount moves to the new account, and the answer names pool, account, balance and funding |
| `Payments.FundPoolKeeps` | backend/modules/overdraft/application/service.py:164-204 | topping a pool up keeps the invariant |
| `Outcomes.FundPoolOutcome` | backend/modules/overdraft/application/service.py:164-204 | a top-up goes through iff the sponsor has a pool and may pay; then exactly the amount moves and the answer gives the new balance |
| `Payments.GrantAccessKeeps` | backend/modules/overdraft/application/service.py:206-286 | granting access keeps the invariant |
| `Outcomes.GrantAccessOutcome` | backend/modules/overdraft/application/service.py:206-286 | access is granted iff there is a pool, an active other beneficiary without access and a maximum within bounds; then exactly one row is added |
| `Refusals.GrantRefusals` | backend/modules/overdraft/application/service.py:222-262 | which error a refused grant answers |
| `SpotMe.ActiveGrants` | backend/modules/overdraft/adapters/persistence/repositories.py:90-112 | exactly the borrower's grants on pools whose account is active, oldest first |
| `SpotMe.FirstCovering` | backend/modules/overdraft/application/service.py:342-350 | a grant of the list that covers the shortfall, or none if none does |
| `SpotMe.FirstCoveringIsFirst` | backend/modules/overdraft/application/service.py:342-350 | no earlier grant of the list covers the shortfall |
| `Shortfalls.SelectedIsChosen` | backend/modules/overdraft/application/service.py:342-350 | the grant drawn on is, in plain rows, the oldest of the borrower's whose pool account is active, whose maximum and whose pool balance both reach the shortfall |
| `Conservation.DrawConserves` | backend/modules/overdraft/application/service.py:360-384 | a draw and its loan together keep the pool whole |
| `Sending.DrawKeeps` | backend/modules/overdraft/application/service.py:360-384 | a draw under a new send is never a replay, repays nothing, and keeps money, links and keys |
| `Sending.SendKeeps` | backend/modules/overdraft/application/service.py:293-428 | `send`, with or without a draw, keeps the invariant |
| `Shortfalls.SendSucceeds` | backend/modules/overdraft/application/service.py:293-428 | a send under a new key succeeds iff the sender is the caller's and active, the amount positive and within limits, and any shortfall is within the maximum, within the limit and the pool of some grant, and under a draw key not taken: inequalities over the rows |
| `Shortfalls.SendCommandSucceeds` | backend/apps/api/routes/transfers.py:50-69 | the same for the command: both parties exist and differ besides |
| `Refusals.SendRefusals` | backend/modules/overdraft/application/service.py:320-350 | a stranger's send is unauthorised; a shortfall above the maximum or that no grant reaches is refused for lack of funds |
| `Outcomes.SendAnswers` | backend/modules/overdraft/application/service.py:360-428 | a send answers with its hold as it stands and the balance it leaves, and with the loan it made from the oldest eligible grant, or none |
| `Shortfalls.SharedKeyIsRefused` | backend/modules/overdraft/application/service.py:340-367 | when the draw key is taken it was taken for another borrower, and the send is refused as a key reuse |
| `Shortfalls.DrawnSend` | backend/modules/overdraft/application/service.py:360-410 | what a send with a draw leaves behind: the pool short by exactly the shortfall, three keys, nobody else's outflow |
| `Witnesses.TwoBorrowersOneKey` | backend/modules/overdraft/application/service.py:340-367 | a run in which two borrowers of one sponsor use one client key: the second is refused, and goes through under another key |
| `Positions.DrawIsShortfall` | backend/modules/overdraft/application/service.py:336-390 | the draw brings in exactly the shortfall and the debt for it, and happens iff there is one |
| `Positions.SendLowersNet` | backend/modules/overdraft/application/service.py:293-428 | a send lowers the sender's balance minus debt by exactly the amount, drawing exactly the shortfall, and leaves every other user's as it was |
| `Positions.ClosingRaisesNet` | backend/modules/financial_core/application/holding.py:152-174 | settling a hold raises the beneficiary's balance minus debt by exactly the amount, whatever the lien takes |
| `Positions.UndoRaisesNet` | backend/modules/financial_core/application/undo.py:152-165 | an undo gives its sender exactly the amount back |
| `Positions.UndoReportsBeforeLien` | backend/modules/financial_core/application/undo.py:173-183 | the balance an undo reports exceeds the final one by exactly what the lien swept, so it is the final balance iff nothing was swept |
| `Witnesses.UndoOverstates` | backend/modules/financial_core/application/undo.py:119-194 | a run in which an undo a thousand seconds later still goes through, reports 10 and leaves 5 |
| `Positions.SendThenUndo` | backend/modules/financial_core/application/undo.py:119-194 | the undo of a send, under any key, cannot fail and restores every user's balance minus debt, for any existing loans |
| `Positions.SendLocksCovered` | backend/modules/overdraft/application/service.py:327-331 | every transfer nested in `send` locks only rows of its one batch |
| `Operations.OpenAccount` | backend/modules/financial_core/application/open_account.py:45-95 | the in-place opening is the specified one |
| `Operations.CreatePool` | backend/modules/overdraft/application/service.py:70-162 | the in-place pool creation is the specified one |
| `Operations.FundPool` | backend/modules/overdraft/application/service.py:164-204 | the in-place top-up is the specified one |
| `Operations.GrantAccess` | backend/modules/overdraft/application/service.py:206-286 | the in-place grant is the specified one |
| `Operations.FirstGrant` | backend/modules/overdraft/application/service.py:342-350 | the loop stops at the first grant whose limit and pool both cover the shortfall |
| `Operations.DrawShortfall` | backend/modules/overdraft/application/service.py:336-390 | the in-place draw and loan are the specified ones |
| `Operations.SendFrom` | backend/modules/overdraft/application/service.py:293-428 | the in-place `send` is the specified one |
| `Operations.Send` | backend/apps/api/routes/transfers.py:50-69 | resolving both parties and sending is the specified command |
| `Escrows.CreateKeeps` | backend/modules/safepay/application/service.py:65-159 | opening an escrow keeps the invariant |
| `Outcomes.CreateEscrowOutcome` | backend/modules/safepay/application/service.py:65-159 | an escrow opens iff the seller exists, is another user and the buyer may pay; then exactly the amount moves to ESCROW and one row awaits shipment |
| `Escrows.ReleaseKeeps` | backend/modules/safepay/application/service.py:602-656 | a release of an unsettled escrow succeeds iff the seller can be paid, and settles only that escrow |
| `Escrows.RefundKeeps` | backend/modules/safepay/application/service.py:658-700 | a refund out of a dispute succeeds iff the buyer can be paid, and settles only that escrow |
| `Escrows.BanKeeps` | backend/modules/safepay/application/service.py:583-592 | closing a banned buyer's account moves no money and breaks no link |
| `Escrows.OrderKeeps` | backend/modules/safepay/application/service.py:486-600 | every order comes from the party it belongs to, follows one edge of the status machine and moves money only where that edge settles |
| `Escrows.PerformKeeps` | backend/modules/safepay/application/service.py:704-736 | an order keeps the invariant; a replay changes nothing, a first run is given by the right party, follows one edge and touches one escrow |
| `EscrowOutcomes.OrderSucceeds` | backend/modules/safepay/application/service.py:174-600 | an order under a new key succeeds iff its giver is the party it belongs to, the status allows it and the beneficiary, if any, can be paid |
| `EscrowOutcomes.OrderAnswers` | backend/modules/safepay/application/service.py:174-449 | an order answers with the status and leg it leaves, closes only a banned buyer's account, and schedules, cancels or keeps exactly its own task |
| `EscrowOutcomes.OrderSigned` | backend/modules/safepay/application/service.py:602-700 | the leg that settles an escrow is initiated by the party the order belongs to |
| `Refusals.OrderRefusals` | backend/modules/safepay/application/service.py:174-600 | which error an order answers to a stranger, for a missing escrow and in each status that does not allow it |
| `HoldRuns.DeliveryOpensWindow` | backend/modules/safepay/application/service.py:357-435 | a delivery answers with the release time, and its auto-release is pending and due exactly a full delay later |
| `HoldRuns.DisputeWindow` | backend/modules/safepay/application/service.py:357-435 | over any run before that time, nothing but an order of its own moves the escrow, and its buyer can dispute |
| `Escrows.AutoReleaseKeeps` | backend/modules/safepay/application/service.py:437-449 | the auto-release handler fails iff a delivered escrow's seller cannot be paid, and otherwise leaves it released |
| `EscrowRuns.StepFollows` | backend/modules/safepay/application/service.py:174-478 | whatever command runs, an escrow moves only along an edge of the machine, only by the command that edge belongs to, and only by order of the party of that row |
| `EscrowRuns.OnlyResolutionEndsDispute` | backend/modules/safepay/application/service.py:560-600 | in every run, only an administrator's resolution takes an escrow out of DISPUTED, and a refund comes from nowhere else |
| `EscrowOperations.Create` | backend/modules/safepay/application/service.py:65-159 | the in-place escrow creation is the specified one |
| `EscrowOperations.Release` | backend/modules/safepay/application/service.py:602-656 | the in-place release is the specified one |
| `EscrowOperations.Refund` | backend/modules/safepay/application/service.py:658-700 | the in-place refund is the specified one |
| `EscrowOperations.ShipOnce` | backend/modules/safepay/adapters/persistence/repositories.py:191-216 | the guarded shipping update is the specified one |
| `EscrowOperations.ConfirmOnce` | backend/modules/safepay/application/service.py:508-527 | the in-place receipt confirmation is the specified one |
| `EscrowOperations.DisputeOnce` | backend/modules/safepay/adapters/persistence/repositories.py:241-266 | the guarded dispute update and task cancellation are the specified ones |
| `EscrowOperations.ResolveOnce` | backend/modules/safepay/application/service.py:560-600 | the in-place resolution is the specified one |
| `EscrowOperations.CodeOnce` | backend/modules/safepay/application/service.py:226-298 | the in-place delivery-code check is the specified one |
| `EscrowOperations.DeliverOnce` | backend/modules/safepay/application/service.py:389-425 | the in-place delivery event is the specified one |
| `EscrowOperations.Perform` | backend/modules/safepay/application/service.py:704-736 | reserve, run once and store the response, as specified |
| `EscrowOperations.AutoRelease` | backend/modules/safepay/application/service.py:437-449 | the in-place auto-release is the specified one |
| `Payments.RequestKeeps` | backend/modules/money_request/application/money_request_service.py:82-154 | creating a money request keeps the invariant |
| `Outcomes.RequestOutcome` | backend/modules/money_request/application/money_request_service.py:82-154 | a request is made iff both parties are active and differ and the amount is positive; it is one pending row with its expiry |
| `Payments.AcceptKeeps` | backend/modules/money_request/application/money_request_service.py:158-257 | accepting a request pays exactly it, once, and keeps the invariant |
| `Outcomes.AcceptOutcome` | backend/modules/money_request/application/money_request_service.py:158-257 | an acceptance succeeds iff the request is pending and unexpired, the caller its payer and able to pay, the requester active and the key new; then it is settled by the new transfer and every net position moves by exactly its amount |
| `Refusals.RequestRefusals` | backend/modules/money_request/application/money_request_service.py:176-196 | which error a refused acceptance, rejection or cancellation answers |
| `Payments.TerminateKeeps` | backend/modules/money_request/application/money_request_service.py:295-354 | rejecting or cancelling keeps the invariant |
| `Outcomes.TerminateOutcome` | backend/modules/money_request/application/money_request_service.py:295-354 | a request is rejected or cancelled iff it is pending and the caller is its payer or requester; only its status changes |
| `Payments.ExpireDueKeeps` | backend/modules/money_request/adapters/persistence/repositories.py:99-109 | the expiry sweep keeps the invariant |
| `EscrowOperations.Accept` | backend/modules/money_request/application/money_request_service.py:158-257 | the in-place acceptance is the specified one, the rolled-back expiry write included |
| `EscrowOperations.ExpireDue` | backend/modules/money_request/adapters/persistence/repositories.py:99-109 | a row becomes EXPIRED iff it was PENDING and due, every other row and table is unchanged, and the count is of those rows |
| `Batches.RunTaskKeeps` | backend/apps/scheduler_worker/main.py:61-92 | a task is done together with its work, or nothing changes but its own row: one more attempt, due again after 2, 4, 8, ... 128 seconds, parked at the eighth |
| `Batches.RunBatchKeeps` | backend/apps/scheduler_worker/main.py:48-95 | a batch keeps the invariant whichever tasks fail, touches only claimed rows, and counts exactly the completed ones |
| `Outcomes.RunTasksOutcome` | backend/platform_/scheduling/repository.py:68-79 | a claim is served iff it is at most fifty distinct pending due rows in order of due time |
| `Closings.CancelKeepsTasks` | backend/platform_/scheduling/repository.py:81-98 | cancelling a task whose work is decided strands nothing |
| `Sending.HoldScheduled` | backend/platform_/scheduling/repository.py:30-66 | scheduling a new hold's settlement always inserts its row |
| `Processes.Handle` | backend/apps/scheduler_worker/main.py:63-73 | dispatch by task type, as specified |
| `Processes.RunDueTasks` | backend/apps/scheduler_worker/main.py:48-95 | the savepoint-per-task loop computes the specified batch and count, and keeps the invariant whichever tasks fail |
| `Processes.Perform` | backend/platform_/database/unit_of_work.py:76-89 | any command over a session computes the specified step and, when accepted, keeps the invariant |
| `Processes.RunUnit` | backend/platform_/database/unit_of_work.py:91-138 | the retry loop ends exactly as specified for every pattern of database faults, and keeps the invariant |
| `Processes.AtMostOneCommit` | backend/platform_/database/unit_of_work.py:91-138 | whatever faults occur, the store is untouched or holds one commit of the command, by the first attempt that met no transient fault |
| `Processes.UnitEndsExactly` | backend/platform_/database/unit_of_work.py:91-138 | the first attempt without a transient fault decides: its commit and answer, its refusal, or the database error; with none, unavailability and an untouched store |
| `ExactlyOnce.StepStores` | backend/modules/financial_core/adapters/persistence/repositories.py:445-471 | a completed command leaves exactly the response it gave, under its own key |
| `ExactlyOnce.StepReplays` | backend/modules/financial_core/adapters/persistence/repositories.py:383-443 | under a known key the same payload answers the stored response and changes nothing, another payload is refused |
| `ExactlyOnce.RetriesReplay` | backend/modules/financial_core/application/transfer.py:396-429 | retried at any later time, after any other commands, a completed command gives its first response and changes nothing |
| `ExactlyOnce.NeverProcessing` | backend/modules/financial_core/adapters/persistence/repositories.py:383-471 | no committed record is ever left in PROCESSING |
| `ExactlyOnce.ReplayReserialises` | backend/modules/financial_core/application/transfer.py:408-429 | a stored transfer response read back and serialised again is the same response |
| `ExactlyOnce.AcceptNeverReplays` | backend/modules/money_request/application/money_request_service.py:183-187 | a retried acceptance is always refused as a state conflict, because the status is tested before the key |
| `ExactlyOnce.FundReplays` | backend/modules/overdraft/application/service.py:179-204 | a retried top-up moves nothing and names the first funding, but reports the balance of the moment |
| `ExactlyOnce.FundReplayAgrees` | backend/modules/overdraft/application/service.py:196-204 | so it repeats the first answer iff the pool's balance is again what it was then |
| `ExactlyOnce.FundReplayDrifts` | backend/modules/overdraft/application/service.py:196-204 | after one further top-up it differs by exactly that top-up |
| `Witnesses.TopUpAnswersDiffer` | backend/modules/overdraft/application/service.py:164-204 | a run from the empty database in which one request is answered 45 and its replay 52 |
| `Witnesses.AcceptanceNotRetryable` | backend/modules/money_request/application/money_request_service.py:183-187 | a run in which an acceptance goes through and its retry under the same key is refused |
| `Concurrency.LockBatch` | backend/modules/financial_core/adapters/persistence/repositories.py:74-95 | ascending, duplicate-free, and exactly the requested rows |
| `Concurrency.SerialRefinement` | backend/modules/financial_core/adapters/persistence/repositories.py:74-95 | any interleaving at lock, write, commit and abort granularity leaves the balances of the committed transactions run one at a time in commit order |
| `Concurrency.CommitIsAlone` | backend/modules/financial_core/adapters/persistence/repositories.py:164-172 | a transaction's absolute writes are what it would have written alone at its commit |
| `LockedTransfers.ExecuteIsProgram` | backend/modules/financial_core/application/transfer.py:225-262 | `execute`, liens and issuance included, does to the balances exactly what a program over its one ascending lock batch does when it runs alone |
| `LockedTransfers.ExecuteIsLocal` | backend/modules/financial_core/application/transfer.py:212-262 | a new execution changes only balances in its lock set, and its outcome depends only on the two account rows, the sender's outflow of the day, the receiver's loans and the key |
| `LockedTransfers.ExecuteBalances` | backend/modules/overdraft/application/service.py:463-503 | the effect of an execution on every balance in closed form, pool by pool |
| `LockedTransfers.BatchIsLockSet` | backend/modules/financial_core/application/transfer.py:218-228 | the batch is the sender, the receiver and the pools the receiver owes, and its rows exist |
| `LockedTransfers.InterleavingConserves` | backend/modules/financial_core/application/transfer.py:225-262 | no interleaving of executions, liens and issuance included, creates or loses money |
| `Concurrency.NoWaitCycle` | backend/modules/financial_core/adapters/persistence/repositories.py:77-87 | transactions that each take one ascending batch never wait in a circle |
| `Concurrency.SomeoneAdvances` | backend/modules/financial_core/adapters/persistence/repositories.py:77-87 | from any running transaction, following waits reaches one that can go on |
| `Concurrency.DeadlockFree` | backend/modules/financial_core/adapters/persistence/repositories.py:77-95 | both facts in every interleaving of such transactions |
| `Concurrency.UnorderedBatchesDeadlock` | backend/modules/financial_core/adapters/persistence/repositories.py:77-87 | with opposite lock orders a wait cycle is reachable, so the ordering is needed |
| `Reconciliation.Report.Run` | backend/modules/reconciliation/service.py:91-240 | the report is balanced iff the tables are clean, stated without counting; each total is what the accounts of its own types hold, and together they locate all the money |
| `Reconciliation.ReportIsClean` | backend/modules/reconciliation/service.py:53-78 | all counters and sums are zero iff every posting, balance, transfer and request is as it should be |
| `Reconciliation.TypesPartition` | backend/modules/reconciliation/service.py:80-82 | the sum over the per-type groups is the sum over all accounts |
| `Reconciliation.EntriesByAccount` | backend/modules/reconciliation/service.py:109-119 | the ledger adds up to the same by account as by transaction |
| `Reconciliation.ChecksImplyTotals` | backend/modules/reconciliation/service.py:92-119 | on any tables, no mismatch makes the balance total the ledger total, and no unbalanced posting makes both zero |
| `Reconciliation.EveryRunReconciles` | backend/modules/reconciliation/service.py:53-78 | reconciliation passes in every reachable state |
| `Lockout.PinRow.VerifyPin` | backend/modules/identity/application/auth_service.py:249-286 | the in-place PIN check gives the specified verdict and counter |
| `Lockout.CounterCounts` | backend/modules/identity/application/auth_service.py:249-286 | the counter counts exactly the wrong tries since the last committed match, the lock ends one period after the last of them, and from the last permitted one on they are at least a period apart |
| `Lockout.VerdictCounts` | backend/modules/identity/application/auth_service.py:249-286 | a try is refused iff those wrong tries are at the maximum and the last is within a period; else it matches iff correct, and a wrong one reports the tries left |
| `Lockout.WrongTriesBounded` | backend/apps/api/dependencies.py:160-186 | wrong tries since the last match up to time t are at most max + (t - T) / period, whatever clock readings occur |
| `Lockout.CodeIsLockout` | backend/modules/safepay/application/service.py:226-288 | one delivery-code check is one attempt of the same machine: compared exactly when a PIN would be, counted alike |
| `CodeRuns.StepCounts` | backend/modules/safepay/application/service.py:226-288 | whatever command runs, the attempt counter of an unsettled escrow changes only by a code check that reaches it, as that machine says |
| `CodeRuns.RunIsPlay` | backend/modules/safepay/application/service.py:202-306 | every run of the system plays that machine at every escrow, and resets it only by settling the escrow |
| `CodeRuns.WrongCodesBounded` | backend/modules/safepay/application/service.py:249-262 | in every run, from the fifth on wrong codes at an escrow are at least a lock period apart, and by time t they number at most 5 + (t - T) / period |
| `Pagination.Listing` | backend/modules/financial_core/adapters/persistence/repositories.py:577-592 | exactly the ids below the cursor, newest first |
| `Pagination.PageOfListing` | backend/apps/api/routes/accounts.py:91-106 | a page is the first limit entries of what it lists, or all of them, and says truthfully whether more follows |
| `Pagination.ListingContinues` | backend/apps/api/routes/accounts.py:91-106 | continuing after an entry gives the rest of the first listing, however much was appended since |
| `Pagination.WalkIsPrefix` | backend/apps/api/routes/accounts.py:91-106 | the pages so far are an initial part of the first listing, with more to come iff it is not complete |
| `Pagination.WalkIsListing` | backend/apps/api/routes/accounts.py:91-106 | followed to the end, with any page sizes, the pages are the listing of the first moment: every entry once, newest first |
| `MoneyText.RoundTrip` | backend/platform_/kernel/money.py:98-120 | reading a printed amount back gives it iff the exponent is at most 2, the amount non-negative and its major part at most 12 digits; otherwise it is refused |
| `MoneyText.ParseThenPrint` | backend/platform_/kernel/money.py:167-174 | any accepted text denotes an amount that prints and reads back unchanged |
| `MoneyText.PlaceValue` | backend/platform_/kernel/money.py:98-120 | an accepted text denotes its place value: whole part and fraction, each read as a number, scaled by the exponent |
| `MoneyText.TrailingZero` | backend/platform_/kernel/money.py:117-119 | a zero appended to a fraction shorter than both limits leaves the value unchanged |
| `MoneyText.HalfExample` | backend/platform_/kernel/money.py:98-120 | "1.5" reads as 150 and prints as "1.50" |
| `MoneyText.SevenExample` | backend/platform_/kernel/money.py:98-120 | "0.07" reads as 7 and prints as itself |
| `MoneyText.OnlyNewlineDeparts` | backend/platform_/kernel/money.py:58-58 | the pattern accepts a text outside its grammar iff that is a grammatical amount, within the exponent, followed by one newline, and then reads past it |
| `MoneyText.NewlineAccepted` | backend/platform_/kernel/money.py:58-58 | an instance: "1\n" is accepted as 1.00 |
| `Ulids.Encode` | backend/platform_/kernel/ids.py:28-34 | the divide-and-reverse loop yields the base-32 digits, most significant first |
| `Ulids.EncodedAscends` | backend/platform_/kernel/ids.py:28-34 | fixed-width encoding is injective and strictly monotone, in both directions, into string order |
| `Ulids.EarlierIsSmaller` | backend/platform_/kernel/ids.py:37-50 | an earlier millisecond gives a smaller 26-character id, whatever the random parts |
| `Ulids.UlidShape` | backend/platform_/kernel/ids.py:37-50 | a ULID exists iff the millisecond fits 48 bits, and has 26 characters |
| `Ulids.AlphabetIsCrockford` | backend/platform_/kernel/ids.py:23-23 | the alphabet is the 32 digits and capitals without I, L, O and U |

## Left out

- Currencies other than the single supported one; every amount is an integer of minor units.
- Reconciliation.Report.Run: has no counter of duplicate references, row counts or mismatch details, because
  references are not modelled.
- References, notes, audit rows, outbox events and log lines: they add fields, not movements.
- Identifiers are positions in their tables. Their order as ULIDs is the subject of `Ulids` alone; ids made in the
  same millisecond are unordered there.
- Each command takes one clock reading. The task queue's due times use the database clock in the source; since no
  invariant assumes a monotone clock, one reading per command is enough.
- Hashes and fingerprints are their payloads (treated as injective), and the delivery code and PIN comparison is a
  Boolean input.
- A parcel is found by its escrow id instead of courier and tracking number; which rows a worker claims is an input
  constrained to what the claiming query may return.
- Users are represented by their primary account; a user's closed status is that account's. Freezing accounts and
  closing pools or grants have no command in the core and none here.
- Registration, login, sessions, rate limits, group wallets, payment links and notifications.
- Liveness: a hold whose beneficiary is closed is retried eight times and then parked; what is proved is that its money
  stays accounted for.
- The lock machine treats a transaction as one lock batch and a function of the balances in it; what `execute` reads
  besides them (the two parties' status, the day's outflow, the loans, the key) is fixed when the transaction begins. A
  worker batch that settles several tasks in one transaction takes several batches, and a loan committed between reading
  the extra lock ids and the lien is outside that model.
- Table updates are whole-field assignments of sequences and maps; physical row storage is not modelled.
