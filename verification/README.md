# Double-entry ledger: a verified model

The banking service keeps accounts, transaction headers and entry legs in Postgres. `Transfer`,
`Deposit` and `Reverse` each run a validation, an idempotency lookup, one READ COMMITTED database
transaction (lock two account rows in id order, check the funds, write two balances, insert a
header and two legs) and an audit write on the pool. Any number of calls are in flight at once and
any store call may fail. This project models that machinery and proves what it guarantees over
every run.

## How the model is built

| file | what it holds |
|---|---|
| `Base`, `Serial` | ledger values; what one call does when it runs alone (`Atomic`) |
| `LedgerInvariant` | the invariant of the committed tables, and that posting keeps it |
| `Protocol` | the concurrent state machine: calls, stages, row locks, unique-index entries, pooled connections, store failures |
| `Invariant`, `Steps` | the inductive invariant, by rely and guarantee |
| `Serializability`, `Linearization`, `TotalOrder`, `Erasure`, `Guarantees`, `Attribution`, `Audit`, `Progress` | what every run guarantees |
| `Alone` | the converse of serializability: calls that run one after the other are the atomic calls |
| `Requests`, `Reasons` | what each request does in its own fields, alone and in every run; why a call returned the error it returned |
| `Races` | what a call past its replay lookup returns, guard by guard |
| `RaceWitness`, `SerialWitness` | concrete runs for the documented promises the code does not keep |
| `Trigger` | the deferred double-entry trigger against arbitrary SQL on `entries` |
| `Store`, `Service` | the store and service code as imperative classes, proved against `Atomic` |
| `Uuid` | the lock order: canonical UUID text, its sort, and the numeric order |
| `Decimals`, `Numerals`, `Money` | the decimal library under the money package: rounding, and which texts it reads as what; the package |
| `Paging`, `Listings` | the listing endpoint and the web page's "load more" walk; the same over the states of a run |

Amounts are whole numbers of 0.0001 units and `NUMERIC(20,4)` is the range below 10^20 of them;
`Money` justifies this by proving that every operation of the package is integer arithmetic on
such units. An id is the 128-bit number of its UUID; `Uuid` proves that ordering the canonical
texts is ordering those numbers. In `Protocol` an event is the arrival of a call or one step of one
call; a step with `ok == false` is a store call that failed, and it may happen at any point. A run
is any sequence of events from the seeded database, so the statements below quantify over all
interleavings, all failures and all numbers of calls.

### Assumptions about the surroundings

- A row obtained by `SELECT ... FOR UPDATE` has its latest committed value; the set of rows is fixed by the snapshot taken when the statement starts.
- An insert that meets an uncommitted equal unique value waits for its owner, and fails only if the owner commits. The key's index is checked before the index on the reversed transaction.
- The database's collation orders canonical UUID texts as their bytes, so `ORDER BY id::text` is the order `Uuid` describes.
- New UUIDs have never been used before.
- COMMIT either takes effect and reports success, or does neither.
- Foreign-key share locks conflict with nothing the service does.
- Each transaction's legs are appended to `entries` when it commits; this fixes only how legs of different transactions interleave.

### Where the code and its documentation differ

The model follows the code.

- `docs/ARCHITECTURE.md` section 4.4 says the loser of a race with one idempotency key replays the winner's transaction. The code meets its other guards before the key, so the loser can be told, for example, `insufficient funds`. `RaceWitness.LoserCanFail` is such a run; `Races.LoserReplaysExactly` gives the exact condition.
- Section 4.1 says a failing idempotency lookup is audited and returned. The code ignores the error and carries on. `RaceWitness.FailedLookupMovesMoney` is a run in which the lookup fails and the money moves; `Races.FailedLookupIsIgnored` says exactly what such a call returns.
- `internal/ledger/errors.go` describes the idempotency conflict as a key used by a different transaction, and the comments on `Transfer` and `Deposit` promise the stored transaction unchanged. The code does the latter for any request, without comparing it. `SerialWitness.ForeignReplay` is a run in which a transfer returns another request's transfer; `Attribution.RepliesMatchExactly` gives the exact condition under which a call is given what it asked for.
- The examples at `NewFromString` in `vendor/github.com/shopspring/decimal/decimal.go` have their sign in front. The code cuts the point out before it looks for a sign, so a sign behind a leading point is read too, and counted as a place: `.-5` is -0.05. `Numerals.SignBehindPointIsRead` is that text; `Numerals.PointReads` says for every text with a point what is read, and `Numerals.UsualExactly` that no other unusual form is.
- The comment on the listing handler caps `limit` at 200 and lets bad values fall back to the default. A number of 2^63 or more is a bad value, not one above the cap (`Paging.LimitsExactly`). A client that asks for more than 200 rows and takes a shorter answer for the last page stops too early (`Paging.FetchTooMany`); the web page asks for 50.
- Section 8 says a second reversal of a transfer is refused as already reversed. The code checks the payee's funds first. `SerialWitness.SecondReversalShort` is a run in which it is refused for insufficient funds; `Races.SecondReversal` gives the exact condition.
- Section 6 says the double-entry trigger cannot be bypassed. It looks only at the transaction an inserted or updated row ends up in. `Trigger.DeleteSlipsThrough` and `Trigger.MoveSlipsThrough` are two commits it accepts; `Trigger.AcceptedExactly` gives the exact condition. The service itself only inserts, so it is not affected.

## Model

| member | source | states |
|---|---|---|
| Steps.InvRun | internal/ledger/service.go:52-313 | the inductive invariant holds in every state of every run, whatever interleaves and whatever fails: each call's knowledge at its point of the code, the lock and index tables, and the committed ledger |
| Steps.InvStep | internal/ledger/service.go:80-119 | every enabled step of any call, failing ones included, keeps the invariant |
| Steps.Guarantee | internal/store/accounts.go:55-76 | a step of one call leaves the balances another call read under lock, the key it inserted and the original it is reversing as they were |
| Steps.UpdateStep | internal/ledger/service.go:97-105 | with funds checked under lock, both balance updates satisfy the CHECK, and fit their column unless a deposit overflows EXTERNAL |
| Steps.FetchedSettled | internal/ledger/service.go:145-165 | scanning the legs of any committed transfer yields the two distinct user accounts and the positive amount of that transfer, mirrored |
| Steps.LegsBalanced | migrations/0001_init.up.sql:63-89 | the deferred trigger accepts the legs of every movement posted under a new id |
| Invariant.CallStable | internal/store/postgres.go:42-61 | what a call knows survives every step it does not take itself |
| LedgerInvariant.PostedLedger | internal/ledger/service.go:100-115 | committing a movement keeps cached balances, conservation, signs, column bounds, pairing, unique keys and unique reversals |
| LedgerInvariant.OnlyDepositsOverflow | migrations/0001_init.up.sql:5-12 | on a sound ledger a funded movement passes the CHECK and fits every column, unless it is a deposit that overflows EXTERNAL |
| LedgerInvariant.UsersBounded | migrations/0001_init.up.sql:12-12 | no one or two user balances together exceed EXTERNAL's debt |
| LedgerInvariant.SeedOk | migrations/0003_seed_demo_accounts.up.sql:17-101 | the seeded database satisfies the ledger invariant |
| LedgerInvariant.ReadBack | internal/store/transactions.go:197-220 | a committed header's entries, fetched later, are its debit leg and its credit leg in that order |
| LedgerInvariant.MirrorIsCurrent | internal/ledger/service.go:155-165 | re-reading a reversal's original at commit time gives the movement computed when it was first read |
| Serializability.Serializable | internal/store/postgres.go:42-61 | in every state of every run the committed tables equal those of running the committed calls one at a time in commit order, each call returns what it returns there, and no call commits twice |
| Serializability.RealTimeOrder | internal/store/postgres.go:42-61 | a call committed before another arrived precedes it in that serial order in every continuation |
| Serializability.CommitIsAtomic | internal/ledger/service.go:80-119 | the tables a COMMIT produces, and the result returned, are those of the whole call run alone on the ledger committed at that moment |
| Linearization.Linearizes | internal/ledger/service.go:52-313 | every call without a store failure of its own, replays and refusals included, returns what it returns when run alone on the ledger committed at some moment between its arrival and its return; the one exception is a call whose key was free when it looked and committed when a guard stopped it, and it returns that guard's error |
| Linearization.DecidingMoment | internal/ledger/service.go:81-108 | the step at which a call's outcome became certain, and the ledger it was taken on, accounts for that outcome |
| TotalOrder.OneOrder | internal/ledger/service.go:52-313 | for every run there is one order of calls, each once, in which running the atomic calls in turn leaves the committed ledger and gives each its outcome; it holds every committed call and every call without a store failure unless it was overtaken on its key, and a call that returned before another arrived stands before it |
| Alone.AloneIsAtomic | internal/ledger/service.go:52-313 | after any run that ends quietly, a call that arrives then can run to its end without another arrival or a store failure, continuing that run, and tables and result are the atomic call's |
| Alone.EveryRunAlone | internal/ledger/service.go:52-313 | every failure-free run of a call alone, however it is scheduled, ends quietly with the tables and the result of the atomic call; opening an account included |
| Alone.SerialRunsAreAtomic | internal/ledger/service.go:52-313 | in every run in which calls arrive only when everything is quiet and no store call fails, ledger and results are those of the atomic calls in turn |
| Alone.EverySerialHistory | internal/ledger/service.go:52-313 | every sequence of requests has such a run: at its cut points everything is quiet and the next request arrives, with the ledger and the results of the atomic calls in turn |
| Erasure.EraseRun | internal/store/postgres.go:48-55 | deleting the events of a call that has not committed leaves a valid run of the others that ends in the same state without that call |
| Erasure.FailedCallsLeaveNoTrace | internal/ledger/service.go:121-130 | a call that returned an error did not commit; the run without it ends in the same tables, the same commit log, the same other calls and the same audit rows but its own |
| Guarantees.BooksBalance | internal/ledger/service.go:97-115 | in every reachable state each balance equals its credits minus debits, all balances sum to zero, no user balance is negative, and EXTERNAL is minus the deposits committed |
| Guarantees.ExternalNeverIncreases | internal/ledger/service.go:280-282 | EXTERNAL's balance never increases along any run |
| Guarantees.ColumnsFit | migrations/0001_init.up.sql:5-33 | every committed balance and entry amount fits its column and every amount is positive |
| Guarantees.ErrorsAreExpected | internal/ledger/errors.go:7-40 | no call in any run ever carries a CHECK, foreign-key or trigger failure; each other error arises only for the requests it is meant for |
| Guarantees.OverflowExactly | migrations/0001_init.up.sql:5-5 | a step that does not fail by itself overflows if and only if it is a deposit's update of EXTERNAL and all deposits together with this one reach 10^16 |
| Guarantees.ExactlyOncePerKey | internal/ledger/service.go:66-69 | over a whole run all calls with one key that succeed return one and the same transaction and legs, the only one ever committed under that key |
| Guarantees.KeysNeverRepeat | migrations/0001_init.up.sql:19-22 | in every reachable state no two committed transactions share a key, an id or a reversed original |
| Requests.DepositDoes | internal/ledger/service.go:240-313 | for every sound ledger and every deposit, in the order of the checks: what it returns when it stops and that nothing changed; what it replays; otherwise success with the legs EXTERNAL and dst of that amount, dst up by it, EXTERNAL down by it, every other account unchanged, one header and two entries added |
| Requests.TransferDoes | internal/ledger/service.go:52-134 | the same for every transfer: source down, destination up by the amount, everything else unchanged |
| Requests.ReversalDoes | internal/ledger/service.go:139-235 | the same for every reversal: the committed original's payee pays its payer the original's amount |
| Requests.CommittedAsAsked | internal/ledger/service.go:100-115 | in every run every call in the commit log has a committed transaction of its own kind and key, with exactly its own two accounts and its amount, for a reversal those of its original the other way; no other transaction has that id or key |
| Requests.NothingUnasked | internal/ledger/service.go:75-75 | every committed transaction is a seed deposit or belongs to a call in the commit log with that key |
| Requests.RepliesAreCommitted | internal/ledger/service.go:66-69 | a call that returns success is given a seed deposit or the transaction of a logged call with its key, with exactly the legs that call's own fields ask for |
| Reasons.EveryErrorHasAReason | internal/ledger/service.go:52-313 | in every run, failures included, a returned error is a refusal of the request's own fields, or the end of a failed store call, or was found by a step that succeeded, at the point of the code where it is found, on a committed ledger that gives the reason: an account missing, the payer short of the amount, the original missing, no transfer or reversed already, EXTERNAL out of room |
| Reasons.FailuresExactly | internal/ledger/service.go:82-84 | a call returns a store failure if and only if one of its store calls failed while it fetched its original, opened its transaction or was inside it; a key conflict, if and only if the lookup after a lost key race failed |
| Reasons.FailedInTransaction | internal/ledger/service.go:82-119 | a call with a failed step inside its transaction returns a store failure |
| Reasons.RefusalsExactly | internal/ledger/service.go:53-64 | a call returns invalid amount, self transfer or system account if and only if its amount, source and destination call for it, checked in that order |
| Attribution.RepliesMatchExactly | internal/ledger/errors.go:29-31 | a call that returns success is given the movement asked for by whoever committed its key, so the legs are those of its own request if and only if the committer asked for the same movement; the seed and reversals included |
| Guarantees.ReversalSafety | internal/ledger/service.go:139-235 | every committed reversal undoes exactly one committed transfer between two user accounts, and no transfer is reversed twice |
| Guarantees.UndoOverHistory | internal/ledger/service.go:202-214 | striking a transfer and its reversal from the committed history, whatever happened in between, changes no balance |
| Guarantees.ReadsAreNeverTorn | internal/store/transactions.go:108-127 | from the commit on, in every continuation, the header and the entries read by separate queries are exactly those committed |
| Guarantees.FoundIsWhole | internal/store/transactions.go:131-150 | a call between its two queries will read one debit and one credit of the same positive amount on two accounts |
| Guarantees.LedgerGrows | internal/store/transactions.go:21-104 | committed headers and entries are never changed or removed along a run and accounts never disappear |
| Audit.SuccessRowsAreCommits | internal/ledger/service.go:317-332 | every SUCCESS row names a committed transaction with its kind, accounts and amount, and no two rows name the same one |
| Audit.RowsMatchReturns | internal/ledger/service.go:335-351 | a call writes at most one audit row and only one that matches what it returned; a replay writes none; a FAILURE row has the operation, payer, payee and amount of the request's own fields, and a reversal's has those of the committed original backwards, or none of them if and only if the call was never given a transaction id, which it gets just before it opens its transaction |
| Audit.EveryVerdictIsAudited | docs/ARCHITECTURE.md:436-470 | a service call that committed or returned an error, and whose audit write did not fail, has exactly one row |
| Progress.NoWaitCycle | internal/store/accounts.go:50-62 | in every reachable state the wait-for graph over rows, keys, reversed originals and connections has no cycle |
| Progress.WaitsUpward | internal/store/accounts.go:55-76 | whoever a call waits for is strictly further along one resource order |
| Progress.SomeoneMoves | internal/store/postgres.go:42-61 | while any call is unfinished some call can take a successful step, with a pool of any positive size |
| Progress.RunsAreBounded | internal/ledger/service.go:52-134 | without new arrivals no run is longer than the work left, failing steps included |
| Progress.StuckIsFinished | internal/store/postgres.go:48-60 | when no call can take a successful step, all calls have returned and every lock, index entry and connection is free |
| Progress.CanComplete | internal/ledger/service.go:52-313 | from every reachable state some failure-free schedule brings every call to its return and frees everything |
| Races.LoserReplaysExactly | internal/ledger/service.go:80-126 | a call past its replay lookup, whoever commits h under its key and whenever, returns h if and only if none of its guards stops it (original found and a transfer, both rows there, funds or room, not reversed before); otherwise it returns that guard's error |
| Races.OutcomeExactly | internal/ledger/service.go:145-218 | a call past its replay lookup returns success, with the transaction under its key, if and only if no guard stops it, and otherwise the error of the guard that did |
| Races.FailedLookupIsIgnored | internal/ledger/service.go:67-69 | a call whose only failing store call is the replay lookup never returns a store failure; it succeeds if and only if no guard stops it, with the transaction already committed under its key if there is one |
| Races.SecondReversal | docs/ARCHITECTURE.md:495-500 | reversing a transfer again under a free key is refused for insufficient funds if the payee is short at the check, and as already reversed otherwise |
| RaceWitness.LoserCanFail | docs/ARCHITECTURE.md:306-338 | a concrete run from the seeded database, without any store failure, of two identical transfers with one key: call 0 is the one in the commit log, call 1 returns insufficient funds |
| RaceWitness.FailedLookupMovesMoney | docs/ARCHITECTURE.md:193-197 | a concrete run in which the replay lookup is the only store call that fails, the transfer commits and returns success, and the one audit row says so |
| SerialWitness.ForeignReplay | docs/ARCHITECTURE.md:478-480 | a concrete run of two calls one after the other, without a store failure, in which a transfer of 0.0007 to account 4 returns as its success the transfer of 6000.0000 to account 3 |
| SerialWitness.SecondReversalShort | docs/ARCHITECTURE.md:495-500 | a concrete run without a store failure: the transfer is reversed already when a call to reverse it again arrives, alone and under a free key, and it returns insufficient funds and changes nothing |
| Trigger.BalancedSum | migrations/0001_init.up.sql:59-80 | if every transaction's entries sum to zero so does the whole table |
| Trigger.AcceptedExactly | docs/ARCHITECTURE.md:425-433 | after an accepted commit all transactions balance if and only if every transaction no inserted or updated row belongs to lost only rows that balance among themselves |
| Trigger.AdditiveCommitsStayBalanced | migrations/0001_init.up.sql:82-89 | over any sequence of accepted commits that neither delete rows nor move them between transactions, every transaction stays balanced |
| Trigger.DeleteSlipsThrough | migrations/0001_init.up.sql:86-89 | deleting one leg is accepted and leaves its transaction unbalanced |
| Trigger.MoveSlipsThrough | migrations/0001_init.up.sql:68-71 | moving a leg to another transaction that balances it is accepted and leaves the old one unbalanced |
| Trigger.TriggerIsThisOne | migrations/0001_init.up.sql:86-89 | the commit check used by the state machine accepts a batch of inserts if and only if the trigger on the table does |
| Uuid.TextIsBytes | vendor/github.com/google/uuid/uuid.go:261-271 | comparing two canonical texts, dashes included, is comparing the sixteen bytes |
| Uuid.BytesAreValue | internal/store/accounts.go:59-61 | comparing equally long byte strings is comparing the numbers they spell |
| Uuid.LockOrder | internal/store/accounts.go:56-67 | the lock order is a strict total order on UUIDs and equals their numeric order |
| Uuid.SortedCopy | internal/store/accounts.go:57-61 | the sorted copy is ascending and a permutation of the ids |
| Uuid.SortIsUnique | internal/store/accounts.go:51-53 | two ascending arrangements of the same ids are equal, so every caller locks in the same order |
| Uuid.TargetsAreSorted | internal/store/accounts.go:63-70 | the order in which the state machine locks a pair is the order of the sorted pair of UUIDs |
| Store.ContainsSubstr | internal/store/transactions.go:72-82 | true exactly when the second string occurs in the first, the empty one always |
| Store.ReversalConflict | internal/store/transactions.go:51-65 | a unique violation means already reversed exactly when its constraint name says so or, under any other name than the key's, its detail text does |
| Store.LockedPair | internal/ledger/service.go:85-96 | two rows come back exactly when the ids differ and both exist, and they are those rows |
| Store.Database.LockAccountsForUpdate | internal/store/accounts.go:55-76 | the rows are the existing accounts among the ids, each once, ascending, with their committed balances |
| Store.Database.UpdateBalance | internal/store/accounts.go:79-86 | the pending balance is set, or the error says exactly whether the column or the CHECK refused it |
| Store.Database.InsertHeader | internal/store/transactions.go:44-69 | the header is pending, or a key conflict or an earlier reversal is reported exactly when there is one, the key first |
| Store.Database.InsertEntries | internal/store/transactions.go:87-104 | all legs are pending and valid; on an error only a prefix of them is, the next one being what failed, and none for an amount that is not positive, which is reported exactly when there is one |
| Store.Database.ListEntries | internal/store/transactions.go:197-220 | the rows of that transaction, all of them, in table order |
| Store.Database.ByKey | internal/store/transactions.go:108-127 | the header holding the key with its entries; nothing only when there is none or a query of this very lookup failed |
| Store.Database.ById | internal/store/transactions.go:131-150 | the header with that id and its entries, or the reason why not |
| Store.Database.Commit | internal/store/postgres.go:57-60 | everything pending becomes committed exactly when the trigger accepts and nothing fails; otherwise nothing changes |
| Store.Database.Rollback | internal/store/postgres.go:48-51 | the committed tables stay as they were and nothing is pending |
| Store.Database.WriteAudit | internal/store/audit.go:61-84 | one row is appended, or none and a query failed |
| Service.Service.Transfer | internal/ledger/service.go:52-134 | run alone, its effect and result are the atomic call's unless a query of this very call failed; even then the ledger is unchanged or changed exactly as by the atomic call, an error means unchanged; told in the transfer's own fields as well; and the audit row matches the result and, for a failure, names the request's accounts and amount |
| Service.Service.Deposit | internal/ledger/service.go:240-313 | the same for a deposit |
| Service.Service.Reverse | internal/ledger/service.go:139-235 | the same for a reversal, whose failure row names the original's payee, payer and amount if and only if a transaction was asked for |
| Service.Service.ScanOriginal | internal/ledger/service.go:155-165 | the last debit leg's account and amount and the last other leg's account |
| Service.Service.PickRows | internal/ledger/service.go:88-96 | each account variable is the locked row with its id |
| Service.Service.PostMove | internal/store/postgres.go:42-61 | the movement is posted whole when nothing obstructs it; otherwise nothing changes and, unless a query of this call failed, the first obstacle is reported |
| Service.Service.CreateAccount | internal/store/accounts.go:90-106 | a new empty user account, keeping the ledger invariant, or no change |
| Service.PostedReadsBack | internal/store/transactions.go:108-127 | a posted transaction is found again by its key with its legs |
| Decimals.RoundIsNearest | vendor/github.com/shopspring/decimal/decimal.go:1523-1545 | rounding to four places yields the nearest whole number of 0.0001 units, halves away from zero, for every value and exponent |
| Decimals.RoundLaws | vendor/github.com/shopspring/decimal/decimal.go:485-510 | rounding is within half a unit, monotone, sign-symmetric and idempotent |
| Money.AddIsInteger | internal/money/money.go:39-41 | the sum has the sum of the unit counts: rounding loses nothing |
| Money.SubIsInteger | internal/money/money.go:44-46 | the difference has the difference of the unit counts |
| Money.NegIsInteger | internal/money/money.go:49-51 | the negation has the negated unit count |
| Money.MoneyIsOrdered | internal/money/money.go:54-71 | comparison, equality, zero and positive tests are those of the unit counts, and positive means at least one unit |
| Money.Constructors | internal/money/money.go:20-107 | every constructor yields a four-place value: zero is zero, an integer is taken exactly, a decimal or a text becomes the nearest amount, and a text is refused exactly when it is no decimal |
| Decimals.UnitsExactly | vendor/github.com/shopspring/decimal/decimal.go:99-105 | a decimal denotes its value times its power of ten, in units of 0.0001 |
| Numerals.WholeReads | vendor/github.com/shopspring/decimal/decimal.go:180-249 | every text without a point or an exponent is read if and only if it is an optional sign and digits, as the sum of its digits in their places with that sign |
| Numerals.PointReads | vendor/github.com/shopspring/decimal/decimal.go:199-222 | every text with one point is read if and only if it is that once the point is left out, scaled down by as many places as characters follow the point, when that fits 32 bits |
| Numerals.WholeExponentReads | vendor/github.com/shopspring/decimal/decimal.go:185-197 | with an exponent: the letter must be followed by an optional sign and digits that fit 32 bits, and scales the number up |
| Numerals.PointExponentReads | vendor/github.com/shopspring/decimal/decimal.go:185-222 | the same for a text with one point |
| Numerals.TwoPointsRefused | vendor/github.com/shopspring/decimal/decimal.go:201-208 | two points are refused, with or without an exponent |
| Numerals.EveryText | vendor/github.com/shopspring/decimal/decimal.go:180-222 | every text is of one of these forms |
| Numerals.DecimalReads | vendor/github.com/shopspring/decimal/decimal.go:180-249 | a sign, digits, a point and digits, of any length, are the signed sum of the digits in their places, scaled down by the digits behind the point |
| Numerals.SignBehindPointIsRead | vendor/github.com/shopspring/decimal/decimal.go:215-217 | `.-5` is read as -0.05 |
| Numerals.UsualExactly | vendor/github.com/shopspring/decimal/decimal.go:215-217 | a text with a point that is read has digits alone behind it if and only if it does not begin with a point and a sign |
| Money.TextExactly | internal/money/money.go:20-25 | a text with at most four digits behind its point is exactly the units it spells |
| Money.TextNearest | internal/money/money.go:20-25 | with more it is the nearest amount |
| Money.FitsExactly | migrations/0001_init.up.sql:5-5 | an amount fits its column if and only if its four-place text has at most sixteen digits before the point |
| Money.PrintParse | internal/money/money.go:20-76 | every amount prints as text that parses to the same amount, negative ones and those below one included |
| Money.JsonRoundTrip | internal/money/money.go:84-101 | unmarshalling undoes marshalling |
| Money.Field.UnmarshalJSON | internal/money/money.go:89-101 | the field becomes the parsed amount, or keeps its value when the text does not parse |
| Paging.ParseLimit | internal/httpapi/handlers.go:336-349 | between one and the cap whatever the query says; a valid limit is taken as given |
| Paging.LimitsExactly | internal/httpapi/handlers.go:336-349 | a printed number is taken as the limit up to the cap, the cap above it, the default for zero, for a negative number, from 2^63 on and for any text with another character |
| Paging.AtoiPrinted | internal/httpapi/handlers.go:226-227 | a printed offset is read back, below 2^63 |
| Paging.KindsExactly | internal/httpapi/handlers.go:211-216 | each kind has one name, and only that name selects it |
| Paging.FetchAny | internal/httpapi/handlers.go:221-254 | asked with limit and offset printed and no kind, the handler returns rows offset to offset + limit of the listing |
| Paging.FetchTooMany | internal/httpapi/handlers.go:345-347 | asked for more than 200 rows of a longer listing it returns the first 200 |
| Paging.ListAll | internal/httpapi/handlers.go:221-254 | the requested page of the matching rows, or a refusal exactly for an unknown kind |
| Paging.Walk | web/app.js:279-300 | the walk, whose pages come from the handler with the offset printed, shows the pages in turn and stops exactly at the first short one |
| Paging.MovesDown | internal/store/transactions.go:292-298 | adding rows, wherever they sort, never moves a row towards the front |
| Paging.NothingMissed | internal/store/transactions.go:292-334 | a finished walk has shown every matching row that existed when it began, whatever is committed between its pages |
| Paging.WalkAll | web/app.js:279-300 | a walk that ends with a short page has shown every matching row that existed when it began |
| Paging.EachOnceInOrder | web/app.js:297-300 | over an unchanging table a finished walk shows the matching rows, each once and in order |
| Listings.LaterFirst | internal/store/transactions.go:292-298 | a transaction with a later created_at is listed first; of two with the same, the one with the higher id |
| Listings.ListingsGrow | internal/store/transactions.go:292-298 | the listings read at any moments of any run, whatever the timestamps, list every transaction once, newest first, and only grow |
| Listings.CommittedAreShown | web/app.js:279-300 | a walk over the pages of a run that ends with a short page has shown every matching transaction committed when its first page was read, and only committed ones |

## Left out

- HTTP routing, JSON bodies, header checks and status codes; the rest of the web page; `cmd/`.
- Postgres and pgx internals beyond the assumptions above; panics inside a transaction callback.
- A COMMIT whose outcome the client does not learn.
- Names, timestamps, request ids, the logger and the audit deadline; the listing's order takes timestamps as given.
- Failure of UUID generation, which returns before anything is written.
- The reserved `WITHDRAWAL` kind, which no code creates, and the down migrations.
- `GetAccount`, `ListAccounts` and the per-account listings: single queries without logic.
- An audit row whose amount does not fit its column is treated like any failed audit write.
- Service.Service.PostMove: the three transaction callbacks share one method over a movement (who pays, who is paid, how much); they differ only in those values and in the funds check a deposit lacks.
- Service.Service.Transfer: the class runs one call at a time; concurrency is in `Protocol`, whose steps follow the same code.
- Store.Database.InsertHeader: stands for `InsertTransaction` and `InsertReversalTransaction`, which run the same statement; `Store.ReversalConflict` models how the latter reads a violation.
- Uuid.SortedCopy: the library's sort algorithm is replaced by insertion; the result is unique.
- Paging.NothingMissed: a row may be shown twice when others are committed between pages, so exactly-once is stated for an unchanging table only.
