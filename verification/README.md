# A verified model of the transaction ledger

The ledger moves money between accounts for clients that retry, on any number of stateless
instances that share one PostgreSQL database. Its promises are about whatever happens when many
requests run at once: each key acts at most once, money is neither created nor lost, and no request
is left stuck. This project models the service as a state machine in which any number of requests
interleave one database statement at a time, and proves those promises over every run.

`dafny verify dfyconfig.toml` checks everything.

## How the pieces fit

| file | content |
|---|---|
| `models.dfy` | the three tables, their constraints, sums over entries and accounts |
| `money.dfy`, `requests.dfy` | decimals as clients write them, their canonical rendering, the JSON fingerprint |
| `ledger.dfy` | the sequential ledger: what one request does alone. The reference for everything below |
| `history.dfy` | sequences of requests served one at a time, and what they guarantee |
| `movements.dfy` | what a history moves: bounds on balances, withdrawals from one account, why order does not matter |
| `protocol.dfy` | the real protocol: key claims, row locks, buffered writes, commits, timeouts, crashes |
| `invariants.dfy` | what every reachable world satisfies; each decision agrees with the sequential ledger |
| `guarantees.dfy` | serial refinement, exactly once, conservation, dead branches |
| `outcomes.dfy` | results that do not depend on the schedule |
| `liveness.dfy` | deadlock freedom, progress, bounded runs, every request can be answered |
| `fastpath.dfy` | the fast path is only an optimisation; a request alone behaves sequentially |
| `alwaysreading.dfy` | and skipping it gains nothing either |
| `endtoend.dfy` | from the body a client sent to the rows in the tables and the answer, with nothing ruled out |
| `failures.dfy` | what a 500 means, and what a client learns by sending a request again after any failure |
| `trigger.dfy` | the conservation trigger by itself, against arbitrary concurrent insert-only writers |
| `listing.dfy` | the self-join, its order and its cap |
| `session.dfy` | the services as imperative code over a session's objects, shown to take protocol steps only |

A `World` holds the committed database, the keys claimed by open transactions, the row locks, the
uuids generated so far, one program counter per request, and a log of outcomes in the order in which
they were decided. `Leads(w, acts, w')` says that a schedule leads from one world to another. The
main result, `Guarantees.EveryRunIsSerial`, says that for every schedule the log is a serial history:
serving the same requests one at a time gives the same answers and the same database. The promises
about keys, money and counts are then proved of serial histories and carried over.

## What is taken from PostgreSQL

`SELECT ... FOR UPDATE` excludes others until the transaction ends and reads the row as last
committed. Inserting a key that an open transaction has inserted waits for that transaction; it then
fails if the transaction committed and succeeds if it rolled back. Each statement sees what is
committed and its own writes. A transaction's writes become visible at its commit, together.
Deferred constraint triggers run at commit. Uuids do not repeat. A waiting statement may time out at
any moment, and any request may fail or die at any moment.

## Where the code and its own description differ

* Opening balances of `"0"` and `"-0"` are equal, both are accepted, and they fingerprint
  differently, so a retry that changes one into the other is answered 409 although
  app/schemas.py:28-32 promises that equal amounts are one request. `Money` and `Requests` state
  exactly when equal requests fingerprint alike.
* app/errors.py:156 says a 500 was not applied. An exception that surfaces after the commit (a lost
  acknowledgement, a failing log line inside the `try`) is also answered 500.
  `Failures.A500MayHideAnEffect` gives such a run for every request that could be answered 201;
  `Failures.InternalErrorMayFollowACommit` says when each case holds, and the two `Resend` lemmas
  that sending the same request again is safe and tells which case it was.
* app/models.py:115 describes the stored hash as covering the operation and the body. The code hashes
  the body only and compares the operation separately; the model follows the code.

## Model

| member | source | states |
|---|---|---|
| Money.RenderingIsLossless | app/schemas.py:12-37 | reading a rendered accepted amount back gives the same value |
| Money.PositiveMoneyIsCanonical | app/schemas.py:20-24 | two encodings of a transfer amount render alike exactly when they are one value |
| Money.NonNegativeMoneyIsCanonicalUnlessSignedZero | app/schemas.py:26-37 | opening balances that render alike are equal; equal ones render alike exactly when their signs agree |
| Money.NegativeZeroRendersDifferently | app/schemas.py:33-37 | the inputs on which canonical rendering fails: "0" and "-0" |
| Money.AcceptedByValue | app/schemas.py:20-37 | a field accepts exactly the multiples of 0.0001 below 10^16, in any encoding: from 0.0001 for transfers, from zero for opening balances |
| Money.MaxMoneyIsTwentyNines | app/models.py:21 | the largest amount of NUMERIC(20, 4) is 10^20 - 1 units |
| Money.RoundsToNearest | app/schemas.py:12-15 | a decimal with more places is rendered rounded to the nearest unit, to the even one from halfway |
| Money.RenderingHasFourPlaces | app/schemas.py:12-15 | a rendering has a point before its last four places and a minus sign exactly for a negative sign bit |
| Requests.FingerprintIsMeaning | app/services/idempotency.py:73-91 | two accepted bodies have the same fingerprint exactly when they ask for the same thing with the same sign |
| Requests.BodiesAreAcceptedByTheirAmount | app/schemas.py:20-37 | a body is accepted exactly if its amount or balance is in range |
| Requests.BodiesMeanWhatTheySay | app/services/transfers.py:107-130 | an accepted transfer is between the accounts named, in the direction named, of the value written; an account has the balance written |
| Requests.UuidTextReadsBack | app/services/idempotency.py:90-91 | the text of a UUID is its 32 hex digits with dashes after 8, 12, 16 and 20 |
| Requests.SameHashSameBody | app/services/idempotency.py:73-91 | equal fingerprints come only from requests for the same thing, whichever endpoint they were sent to |
| Requests.AdmittedIsValid | app/schemas.py:17-37 | validation leaves amounts in 1..10^20-1 units and opening balances in 0..10^20-1 |
| Models.MoneyIsConserved | app/models.py:33-42 | from the stated table invariants: entries net to zero, per transfer and overall, and total balance is total opening balance |
| Ledger.ApplyKeepsLedgerOk | app/models.py:33-74 | every request keeps all invariants of the three tables |
| Ledger.ApplyConservesMoney | app/services/accounts.py:19-31 | total value changes only when an account is opened, by its opening balance |
| Ledger.ApplyExtends | app/models.py:59-60 | no account, entry or key row is ever removed, and key rows never change |
| Ledger.PartwayTheLedgerIsBroken | app/services/transfers.py:126-150 | after n of a transfer's five writes: caches are honest exactly for n = 0 and n >= 4, the entries fail to cancel exactly for n = 3, the total balance is short exactly for n = 1, and n = 5 is the transfer |
| Protocol.LockOrder | app/services/transfers.py:59 | both accounts of a transfer, in ascending order of id |
| Protocol.Step | app/services/idempotency.py:130-234 | one step of one request: touches no other request, only extends the log, and changes the database only by a successful commit |
| Invariants.MissIsSequential | app/services/transfers.py:66-67 | a missing row is reported exactly as the sequential ledger would: the lowest missing account id |
| Invariants.ShortfallIsSequential | app/services/transfers.py:111-121 | insufficient funds, decided on the locked snapshot, is the sequential ledger's answer on the committed state |
| Invariants.OverflowIsSequential | app/services/idempotency.py:204-214 | the CHECKs pass, and out-of-range is raised exactly when the credit exceeds NUMERIC(20, 4) |
| Invariants.TransferPassesTrigger | migrations/versions/c4b8f2e07a13_conservation_as_a_schema_constraint.py:47-79 | the deferred trigger accepts the two legs of a transfer |
| Invariants.CommitIsApply | app/services/transfers.py:123-152 | publishing values computed from the locked snapshot is what the sequential ledger does to the current state |
| Invariants.RefusalsAreSequential | app/services/idempotency.py:149-202 | every refusal and replay, wherever it is decided, is the sequential ledger's answer at that moment |
| Invariants.StepKeepsInv | app/services/idempotency.py:130-234 | every step keeps the invariant of locks, claims, phases and log |
| Invariants.RunKeepsInv | app/services/idempotency.py:130-234 | so does every run |
| History.AfterSuccess | app/services/idempotency.py:94-127 | once a key was used, its later requests are replayed, refused as different, or malformed, and change nothing |
| History.BeforeSuccess | app/services/idempotency.py:161-171 | before that, they are judged on their own merits |
| History.OneSuccess | app/services/idempotency.py:130-141 | at most one request per key is carried out |
| History.AuthorOf | app/services/idempotency.py:111-127 | behind every replay and every conflict there is an earlier success that explains it |
| History.EntriesAreTheEffects | app/services/transfers.py:129-133 | the entries are the two legs of each transfer answered 201, in order, and nothing else |
| History.TotalIsMinted | app/services/accounts.py:19-31 | over a history total value grows by exactly the opening balances answered 201 |
| History.MintedIsByKeys | app/services/accounts.py:22-30 | and those are the amounts recorded under the keys used, one per key |
| History.CarriedSuffices | app/services/idempotency.py:186-234 | the requests that were carried out, served alone in their order, give the same database: the others leave nothing behind |
| Movements.BalanceWithin | app/services/transfers.py:123-133 | while a key is unused, a balance stays within what requests under other keys asked to move in and out |
| Movements.FirstUse | app/services/transfers.py:107-130 | a key's first transfer between existing accounts can only lack funds if the destination has room, and succeeds if the source covers it whatever goes first |
| Movements.WithdrawalsNeverOverdraw | app/services/transfers.py:107-130 | an account that is only debited, by one amount, loses exactly that per success and pays at most floor(balance / amount) times, whatever the keys, destinations and other balances |
| Movements.WithdrawalsPayOutExactly | tests/test_concurrency.py:34-56 | where only funds decide, successes are the smaller of the attempts and floor(balance / amount), in any order |
| Movements.SameDeedsSameBalances | app/services/transfers.py:126-133 | two histories that did the same things, in any order and under any ids for opened accounts, leave the same balances |
| Guarantees.EveryRunIsSerial | README.md:64-67 | every interleaving has the answers and the database of a serial history, with one place in it per request |
| Guarantees.SerialOrderRespectsRealTime | README.md:64-67 | a request that arrives after another's outcome was decided is later in the serial order, and the earlier outcome stands |
| Guarantees.AtMostOneCreated | tests/test_concurrency.py:97-102 | two requests with one key are never both answered 201 |
| Guarantees.OneEffectPerKey | app/services/idempotency.py:130-141 | two requests with one key are never both carried out, whatever was answered and whoever crashed; none is if the key was used before |
| Guarantees.AnswersTellTheTruth | app/services/transfers.py:144-152 | a 201's effect and record are in the tables for good; a 200 carries the response of the one earlier success, for the same request |
| Guarantees.ConflictsAreDeserved | app/services/idempotency.py:111-115 | a 409 names the operation the key was used for, which differs from the request's, or the fingerprint does |
| Guarantees.OldKeysAnswerFromTheirRecord | app/services/idempotency.py:145-152 | a request under a key used before the run gets that record's body if it has its operation and fingerprint, a 409 naming the record's operation if not, unless it is malformed |
| Guarantees.MoneyIsAccountedFor | tests/conftest.py:135-174 | in every reachable state: honest cache, balances in range, zero sums, and total value explained by the keys used |
| Guarantees.FailuresLeaveNoTrace | app/services/idempotency.py:186-234 | in every reachable world the database is what the carried-out requests alone make of it; a request turned down, or given up before its commit, is not among them and holds no claim and no lock |
| Guarantees.BackstopsNeverFire | app/services/idempotency.py:186-214 | in every reachable world, CHECKs, trigger and "record vanished" never fail a request; 500 only from outside exceptions, 503 only while waiting |
| Guarantees.RaceLosersFindACompleteRecord | app/services/idempotency.py:191-202 | after a unique violation the winner's row is committed and complete, and no replay has an empty body |
| Guarantees.LockedRowsAreStable | app/services/transfers.py:54-69 | from locking and reading a row until its transaction is over, whatever others do, the committed row is the one the request read, and its key stays uncommitted |
| Guarantees.WaitersHoldLittle | app/services/idempotency.py:162-171 | a request waiting for a key holds nothing; one waiting for a row holds its key and rows with smaller ids |
| Outcomes.OneKeyOneWinner | app/services/idempotency.py:161-171 | of requests racing under one key and all answered, either each is refused on its own merits, or one is carried out and each other is replayed, refused as different, or refused on its merits |
| Outcomes.OneKeyExactCounts | app/services/idempotency.py:94-127 | if none is refused on its merits: one 201, a 200 with the winner's response for each other request like it, a 409 for all others |
| Outcomes.OneKeyManyBodies | tests/test_concurrency.py:119-166 | that is the outcome in every schedule when nothing can refuse any of them: accounts to open, or transfers covered and in range whatever else is served first |
| Outcomes.CopiesActOnce | tests/test_concurrency.py:82-116 | N copies of one such request: one 201 and N - 1 times 200, all with one response |
| Outcomes.ExecutableRequestsSucceed | tests/test_concurrency.py:59-79 | such requests under keys of their own are all answered 201, whichever way they go |
| Outcomes.ConcurrentWithdrawalsNeverOverdraw | tests/test_concurrency.py:34-56 | in every run, timeouts and crashes included, an account only debited by one amount loses exactly that per effect, at most floor(B/a) times |
| Outcomes.WithdrawalsPayOut | tests/test_concurrency.py:34-56 | if all were answered 201 or insufficient funds, exactly min(N, floor(B/a)) succeeded |
| Outcomes.WithdrawalsAreScheduleIndependent | tests/test_concurrency.py:34-56 | with keys of their own and room at each destination, once settled, exactly min(N, floor(B/a)) succeed in every schedule |
| Outcomes.OrderDoesNotMatter | tests/test_concurrency.py:59-79 | two runs that carried out the same things leave the same balance in every account |
| Liveness.WaitingClimbs | app/services/transfers.py:37-52 | whoever is waited for waits only for something later in the global order |
| Liveness.NoDeadlock | app/services/transfers.py:37-52 | no wait-for cycle of any length is reachable |
| Liveness.DeadlockBranchIsDead | app/services/idempotency.py:224-229 | the 40P01 branch is never enabled |
| Liveness.SomebodyCanMove | app/services/transfers.py:59-68 | while a request is unfinished, some request can take a step of its own without a timeout |
| Liveness.StuckMeansDone | app/services/transfers.py:59-68 | when no such step is left, every request has ended |
| Liveness.RequestsAreShort | app/services/idempotency.py:130-234 | no request takes more than eleven steps under any schedule |
| Liveness.EveryRunIsShort | app/services/idempotency.py:130-234 | every run is at most eleven steps per request long, less the work still open |
| Liveness.EveryRequestCanBeAnswered | app/services/transfers.py:59-68 | every reachable world can be run on by the requests' own steps until all are answered, with no new timeout, crash or 500 |
| Failures.A500MayHideAnEffect | app/services/idempotency.py:178-186 | the run on which a 500 was applied: any request that could get a 201 can get a 500 with its effect committed |
| Failures.InternalErrorMayFollowACommit | app/services/idempotency.py:232-234 | a 500 hides a committed effect exactly when the failure came after the commit |
| Failures.ResendReplaysWhatWasApplied | app/services/transfers.py:144-150 | however a request that was applied ended (500, crash, lost answer), the same request sent again gets 200 with the original response |
| Failures.ResendOfUnappliedIsAFirstAttempt | app/services/idempotency.py:168-171 | however one that was not applied ended (404, 422, 503, 500, crash), sent again it gets 201 or a refusal on its own merits, if its key was used for nothing else |
| FastPath.FastPathIsOnlyAnOptimisation | app/services/idempotency.py:145-159 | every run is matched, to the same world, by one that never takes the fast path |
| AlwaysReading.SkippingGainsNothing | app/services/idempotency.py:145-159 | and conversely: every run that skips the fast path at will is matched, to the same world, by one that never skips it, once nobody who skipped is still to be told |
| FastPath.SoloRunsAreSequential | app/services/transfers.py:72-152 | any run in which only one request moves ends in the sequential answer and effect, on the state it started from |
| FastPath.AloneMeansSequential | app/services/idempotency.py:166-171 | a request that meets no other can be run to the sequential answer and effect on either path, so a resend after a failure is a first attempt |
| EndToEnd.CreatedTransferIsAsSent | app/services/transfers.py:126-150 | a 201 to a transfer: a debit of the written value on the written source, a credit on the written destination, and a response saying so |
| EndToEnd.CreatedAccountIsAsSent | app/services/accounts.py:41-56 | a 201 to a new account: it is there, opened with the written balance |
| EndToEnd.RecordsNameTheirOperation | app/models.py:113-127 | each key row committed names its operation, the fingerprint of its request, its resource and its response |
| EndToEnd.AnybodyMayAsk | app/schemas.py:20-37 | any accepted body may arrive at any time, under any key |
| EndToEnd.AnySoundLedgerMayBeTheStart | app/models.py:33-42 | runs start from any database with the stated invariants |
| EndToEnd.AnythingMayHappen | app/services/idempotency.py:186-234 | a live request may fail, crash, or time out while waiting, and its transaction's timestamp is arbitrary |
| EndToEnd.AnyNewUuidsMayBeDrawn | app/services/transfers.py:126 | and so are the uuids it draws, as long as they are new |
| EndToEnd.TransferFromSendingToAnswer | app/services/transfers.py:72-152 | an accepted transfer that meets no other, from its JSON fields to its answer and the rows, each refusal included, spelled out in terms of the tables |
| EndToEnd.AccountFromSendingToAnswer | app/services/accounts.py:19-56 | likewise for a new account |
| Trigger.TriggerJudgesOwnRows | migrations/versions/c4b8f2e07a13_conservation_as_a_schema_constraint.py:48-69 | the check counts committed and own rows; in a balanced table it depends on the transaction's own rows only, whatever is committed meanwhile |
| Trigger.PublishKeepsBalance | migrations/versions/c4b8f2e07a13_conservation_as_a_schema_constraint.py:71-79 | a transaction whose row checks all passed, in any order and deferred or not, keeps every transfer at zero |
| Trigger.RefusedExactlyIfUnbalanced | migrations/versions/c4b8f2e07a13_conservation_as_a_schema_constraint.py:59-66 | a row is refused exactly when its transfer does not net to zero in its transaction |
| Trigger.BalancedRowsCanBePublished | migrations/versions/c4b8f2e07a13_conservation_as_a_schema_constraint.py:48-69 | an open transaction whose rows balance can commit, adding exactly its rows, whoever else is at work |
| Trigger.BalancedRowsAreAccepted | migrations/versions/c4b8f2e07a13_conservation_as_a_schema_constraint.py:48-69 | any non-zero rows that balance can be inserted and committed |
| Trigger.EventsAreLocal | migrations/versions/c4b8f2e07a13_conservation_as_a_schema_constraint.py:71-79 | an event concerns its own writer, and only a commit adds rows, exactly the writer's |
| Trigger.BalancedHasBothLegs | migrations/versions/c4b8f2e07a13_conservation_as_a_schema_constraint.py:56-58 | with non-zero amounts, summing to zero implies a debit and a credit |
| Trigger.TheSchemaConservesMoney | migrations/versions/c4b8f2e07a13_conservation_as_a_schema_constraint.py:3-22 | any concurrent insert-only writers leave every transfer and the whole table at zero, each with both legs |
| Listing.JoinRecoversTransfers | app/services/accounts.py:66-86 | the self-join gives exactly one row per transfer of the account, naming the other leg's account |
| Listing.HistoryExplainsBalance | app/services/accounts.py:67-73 | opening balance plus the uncapped rows is the cached balance |
| Listing.JoinHasOneRowPerEntry | tests/test_transactions.py:73-103 | the join has exactly one row for each entry of the account, with that entry's id, transfer, amount and time |
| Listing.BothSidesAgree | app/services/accounts.py:66-98 | for each row of the join the counterparty's join has the mirror row: same transfer, negated amount, naming this account |
| Listing.ListingIsCanonical | app/services/accounts.py:79-98 | the list is the first hundred of the one descending order, in whatever order rows are stored |
| Listing.ListingExists | app/services/accounts.py:79-87 | and such an order exists for every account |
| Listing.ListShowsTheNewest | app/services/accounts.py:76-98 | the list has the account's entries newest first, ties by greater id; a hundred at most, and no entry left out precedes a listed one; each item has its entry's transfer, amount, time and direction and the account of the other leg |
| Listing.UnknownAccountsAreNotFound | app/services/accounts.py:59-63 | a 404 exactly for an account that does not exist |
| Sessions.Session.SelectForUpdate | app/services/transfers.py:60-65 | one row lock: the row as committed when the lock is granted, no row, or a timeout |
| Sessions.Session.LockAccounts | app/services/transfers.py:36-69 | locks in ascending order; the returned objects carry the locked rows' balances |
| Sessions.Session.MoveMoney | app/services/transfers.py:101-152 | the objects it changes in place and the record it fills are exactly what the protocol commits |
| Sessions.Session.OpenAccount | app/services/accounts.py:41-56 | likewise for a new account |
| Sessions.Session.ExecuteOnce | app/services/idempotency.py:130-234 | whatever others do in between and whatever exception is raised, the code takes its own protocol steps only and returns the protocol's answer; a 500 exactly if something unforeseen happened, no timeout if nobody else holds anything |
| Sessions.Session.Serve | app/services/transfers.py:72-98 | the answer is the sequential ledger's at the request's place in the log; or a timeout, with no place there; or a 500, with none or a carried-out one; by itself and undisturbed, answer and database are exactly the sequential ledger's |

## Left out

- HTTP, validation of headers, OpenAPI, error rendering, logging, health probes, settings, pooling and containers: no ledger logic.
- SHA-256: the fingerprint is the canonical JSON text it is taken over, so collisions are not modelled.
- The digit checks of the validation library: they are taken by value, so trailing zeros do not count.
- How long a wait may last: a waiting statement may time out at any moment.
- The time between a failed statement and its rollback: a failing statement releases claims and locks in the same step.
- Query plans, row versions, and the ORM's identity map, beyond "the read after the lock is fresh".
- UPDATE and DELETE on entries in `Trigger`: the trigger fires after INSERT only.
- The order of created_at against commit order: a transaction's timestamp is taken when it begins, and may be any integer.
- Fairness among waiters: progress says that some request can move, not which.
- The 40P01 and CHECK-violation branches in `Sessions`: they are never taken (`Liveness.DeadlockBranchIsDead`, `Guarantees.BackstopsNeverFire`), so no statement there comes back with them.
- A crash of the instance in `Sessions`: the code just stops; the protocol's Crash step covers it.
- The two earlier migrations: they only create the columns the model starts from.
