# Points ledger: a Dafny model

This project models the core of a small points API in Go. The core has two parts.

- `InMemoryDB` keeps one slice of signed transactions `{Payer, Points, Timestamp}`. It can append a transaction, return the log in time order, and aggregate per-payer balances.
- `PointService` builds on it:
  - `AddPoints` accepts a transaction under a rule meant to keep payer balances non-negative (with unbounded integers it does; Go's 64-bit negation lets one debit through, see "## Left out");
  - `SpendPoints` redeems points oldest first and writes one settlement transaction per payer it charged.

Modules:

- `Model` holds the records `Transaction` and `Account` and the outcome `NotEnoughPoints`. It also defines the two orders the code sorts by: `Before` on timestamps, and Go's byte-wise `<` on payer names (`StringLess`).
- `Sorting` is a generic insertion sort that stands in for Go's `sort.Slice`. Because `sort.Slice` is unstable and its algorithm is unspecified, a sorted result is in general stated as "ordered, and a permutation of the input". Where the sort keys are distinct, the contracts state the exact list: payer names in `GetAccounts` (by `Ledger.BalancesUnique`) and the clock readings of the settlements in `SpendPoints` (by `Sorting.SortedUnique`).
- `Ledger` holds the specification functions:
  - the sums `Total` and `PayerTotal`;
  - `Payers`;
  - the first-touch order `TouchOrder`;
  - the balance list `Balances`.

  It also holds the lemmas relating them (append, permutation, sum over payers).
- `Db` is the class `InMemoryDB`. Its slice is a `seq` field that the methods reassign. `GetTransactions` sorts the stored log and returns it, so a read reorders the log, as the aliasing slice does in Go.
- `PointRules` holds the rules of the service, stated on the time-ordered log:
  - `MayAdd` is the add rule;
  - `ScanEnd` is where the spend's walk stops;
  - `Feasible` says when a spend succeeds;
  - `Share` is what it charges each payer;
  - `Settlements` is what it returns.

  It also proves conservation and the other properties of the spend.
- `Services` is the class `PointService`:
  - `SpendPoints` is split into its two loops: `Walk`, the time-ordered pass with the `pointsRemaining` counter, and `AppendSettlements`, the append loop over the map.
  - Each loop is proved against the `PointRules` functions.
  - The pass's map and clock are tied to a recursive reference definition (`Walked`).
- `Fixture` holds the repository's five-transaction data set and models of the runs its tests make:
  - the balances;
  - the spend of 5000;
  - the whole add-then-spend run on a fresh database;
  - two small logs that show where the code departs from what a caller of a points ledger would expect.

Modelling choices:

- Timestamps are integers (Unix seconds in the fixture), and `Before` is `<`.
- `time.Now()` in `SpendPoints` is a clock passed in as `now`. It is read once per newly touched payer and advances by one per reading, so settlements are stamped in first-touch order.
- Go's map iteration order is modelled by an arbitrary choice (`:|`) of the next key. The results that depend on it are stated up to permutation.

Where the code departs from what a caller of a points ledger would expect, the model follows the code:

- **Zero settlements.** A payer whose charges cancel out still gets a settlement of 0 points (`Fixture.SpendSettlesZero`). The code has no zero-delta filter.
- **Non-positive spends.** A spend of 0 or fewer points succeeds and settles nothing (`PointRules.NonPositiveSpend`). There is no argument check.
- **Feasibility.** Success means that some prefix of the time-ordered log reaches the amount (`PointRules.Feasible`), not that the total does. A spend can therefore succeed while the total is below the amount, and it can drive a payer below zero (`Fixture.SpendCanOverdraw`). The non-negative-balance invariant holds only for `AddPoints` (`PointRules.AddKeepsBalancesNonNegative`), and there only for unbounded integers.
- **Failed operations still reorder the log.**
  - A failed spend appends nothing, but the stored log has already been time-ordered by the read (`Services.PointService.SpendPoints`).
  - `AddPoints` with zero or negative points also re-sorts the log before deciding.
  - Either way the multiset of transactions is unchanged; the order of the log is not.
- **Zero-point adds.** A zero-point transaction is not always accepted. It takes the debit path, so it is refused when its payer's sum is negative, which a spend can cause.
- **Ties.** Ties in timestamp come out in no promised order, because `sort.Slice` is not stable. That order can decide a spend: with A +100 and B -100 at the same timestamp, a spend of 100 succeeds when A comes first and fails when B does (`Fixture.TieDecidesSpend`). `SpendPoints`' contract allows both, because it states feasibility on the stored, sorted log.
- **Settlement order in the log.** The settlements are appended to the log in map order. The model promises only their multiset (`Fixture.SpendFixture`). The assertion at internal/web/server_test.go:99-100, which expects MILLER COORS at index 7, depends on that order.

## Model

| member | source | states |
|---|---|---|
| Model.Before | internal/db/db.go:29-31 | Defines the time order: one transaction is before another iff its timestamp is smaller, as `Time.Before`; internal/services/pointService.go:85-87 sorts by it too. |
| Model.StringLess | internal/db/db.go:53 | Defines Go's `<` on strings: lexicographic, a proper prefix first. Characters compare by code point, which for valid UTF-8 is the same order as Go's byte-wise comparison. |
| Model.PayerLess | internal/db/db.go:52-54 | Defines the account order: by payer name under `StringLess`. |
| Model.BeforeIsStrictOrder | internal/db/db.go:29-31 | Ordering transactions by timestamp is a strict order, so the time sort is well defined. |
| Model.StringLessIrreflexive | internal/db/db.go:52-54 | No payer name sorts before itself. |
| Model.StringLessTransitive | internal/db/db.go:52-54 | Go's byte-wise name order is transitive. |
| Model.StringLessTotal | internal/db/db.go:52-54 | Of two different names, one sorts before the other. |
| Model.PayerLessIsStrictOrder | internal/db/db.go:52-54 | Ordering accounts by payer name is a strict order. |
| Sorting.Insert | internal/db/db.go:29-31 | Inserting into a list adds exactly that element to its multiset. |
| Sorting.SortBy | internal/db/db.go:29-31 | The sort returns a permutation of its input. |
| Sorting.InsertSorted | internal/db/db.go:29-31 | Inserting into a sorted list keeps it sorted. |
| Sorting.SortBySorted | internal/db/db.go:29-31 | The sort returns a list ordered by the comparison. |
| Sorting.HeadsAgree | internal/services/pointService.go:85-87 | A strictly sorted list and any sorted permutation of it start with the same element. |
| Sorting.SortedUnique | internal/services/pointService.go:85-87 | A strictly sorted list is the only sorted arrangement of its elements, whatever the sort's tie handling. |
| Sorting.DistinctCount | internal/db/db.go:48-51 | Each element of a duplicate-free list occurs in it exactly once. |
| Sorting.SameElementsPermutation | internal/db/db.go:48-54 | Two duplicate-free lists with the same elements are permutations of each other. |
| Sorting.PermutationOfDistinct | internal/db/db.go:52-54 | A permutation of a duplicate-free list is duplicate-free and has the same elements. |
| Ledger.PayerTotal | internal/services/pointService.go:102-106 | Defines a payer's balance: the sum of the points of its transactions, which both the add rule's loop and `getAccountMap`'s loop (internal/db/db.go:70-79) compute. |
| Ledger.PayersSnoc | internal/db/db.go:70-79 | Appending a transaction adds exactly its payer to the set of payers. |
| Ledger.TouchOrder | internal/services/pointService.go:63-71 | The payers in first-occurrence order: each payer of the log exactly once, and nothing else. |
| Ledger.TouchOrderSnoc | internal/services/pointService.go:63-71 | A new payer is added at the end of the touch order, and a known payer leaves it unchanged. |
| Ledger.PrefixStep | internal/services/pointService.go:54-62 | Extending a prefix by the next transaction adds its points to the total and updates the touch order. |
| Ledger.PayerStep | internal/services/pointService.go:102-105 | Extending a prefix changes only the sum of the new transaction's payer, by that transaction's points. |
| Ledger.TotalAppend | internal/db/db.go:36-38 | The total of two logs joined is the sum of their totals. |
| Ledger.PayerTotalAppend | internal/db/db.go:36-38 | A payer's sum over two logs joined is the sum of its sums over each. |
| Ledger.PayerTotalAbsent | internal/db/db.go:74-78 | A payer that does not occur in the log has sum 0. |
| Ledger.PayerTotalRemove | internal/db/db.go:70-80 | Removing one transaction from a log subtracts its points from its payer's sum. |
| Ledger.MultisetRemove | internal/db/db.go:29-31 | Removing the same element from two equal multisets leaves equal multisets. |
| Ledger.PayerTotalPermutation | internal/db/db.go:68-82 | A payer's sum does not depend on the order of the log. |
| Ledger.TotalRemove | internal/db/db.go:36-38 | Removing one transaction from a log subtracts its points from the total. |
| Ledger.TotalPermutation | internal/services/pointService.go:79-83 | The log's total does not depend on the order of the log. |
| Ledger.AppendedTotal | internal/services/pointService.go:79-83 | A log holding any order of one list followed by any order of another totals the sum of their totals. |
| Ledger.PayersPermutation | internal/db/db.go:68-82 | The set of payers does not depend on the order of the log. |
| Ledger.SumOverPayersEmpty | internal/services/pointService.go:79-83 | Summing the payer sums of an empty log gives 0. |
| Ledger.SumOverPayersSnoc | internal/services/pointService.go:79-83 | Appending a transaction adds its points to the sum of the payer sums, for any list of payers that contains its payer. |
| Ledger.TotalIsSumOfPayerTotals | internal/services/pointService.go:79-83 | The log's total is the sum of its payers' sums over any duplicate-free list that contains them all. |
| Ledger.Balances | internal/db/db.go:42-56 | Defines the balance list: one account per payer with its sum, sorted by payer name. |
| Ledger.BalancesSpec | internal/db/db.go:42-56 | The balance list is strictly ascending by payer name, and an account is in it iff its payer occurs in the log with exactly that sum. Zero sums are included. |
| Ledger.BalancesUnique | internal/db/db.go:48-54 | Any duplicate-free list of exactly the log's accounts, sorted by name, is the balance list. |
| Ledger.SortedAccountsAreBalances | internal/db/db.go:48-55 | Sorting by name the accounts collected from the map, in any order, gives the balance list. |
| Ledger.BalancesPermutation | internal/db/db.go:42-82 | The balances depend only on which transactions the log holds, not on their order. |
| Db.InMemoryDB.constructor | internal/db/db.go:18-24 | A new database has an empty log. |
| Db.InMemoryDB.GetTransactions | internal/db/db.go:27-33 | Returns the log in ascending time order, as a permutation of the stored log. The stored log becomes that same sequence. |
| Db.InMemoryDB.AddTransaction | internal/db/db.go:36-39 | The log grows by exactly the given transaction, placed last; earlier entries are untouched. |
| Db.InMemoryDB.AccountMap | internal/db/db.go:68-82 | The map's keys are exactly the log's payers, and each maps to its payer's account with that payer's sum. |
| Db.InMemoryDB.GetAccounts | internal/db/db.go:42-56 | Returns the balance list: one account per payer, ascending by name. |
| Db.InMemoryDB.GetAccount | internal/db/db.go:59-66 | Found iff the payer occurs in the log, with its sum. Otherwise it returns the zero account. |
| PointRules.MayAdd | internal/services/pointService.go:30-38 | Defines the add rule: a transaction with positive points is always taken; any other only if the payer's sum is at least its negation. |
| PointRules.AddKeepsBalancesNonNegative | internal/services/pointService.go:29-44 | Adding a transaction the add rule accepts keeps every payer's sum non-negative. |
| PointRules.Feasible | internal/services/pointService.go:54-77 | Defines when a spend succeeds: some prefix of the time-ordered log holds at least the amount, so the loop's counter falls to zero or below. |
| PointRules.ScanFrom | internal/services/pointService.go:54 | The first index from `i` whose prefix total reaches the amount, or the end of the log. |
| PointRules.ScanEnd | internal/services/pointService.go:54 | Where the walk stops: every earlier prefix falls short of the amount, and the prefix there reaches it unless the log ran out. |
| PointRules.ScanEndUnique | internal/services/pointService.go:54 | That stopping index is the only one with this property. |
| PointRules.FeasibleIffScanReaches | internal/services/pointService.go:75-77 | Some prefix reaches the amount iff the prefix where the walk stops does. |
| PointRules.Share | internal/services/pointService.go:57-72 | Defines what a payer is charged over the first i transactions walked: minus its points among them, plus, for the payer of the last one, what the prefix holds beyond the amount. |
| PointRules.ShareStep | internal/services/pointService.go:56-65 | One step of the walk charges the payer of the transaction its points, clamped to the counter, and nobody else. |
| PointRules.SettlementsFor | internal/services/pointService.go:67-71 | One settlement per listed payer, holding its share and stamped in list order. |
| PointRules.Settlements | internal/services/pointService.go:53-89 | One settlement per payer walked, in first-touch order: distinct payers, increasing stamps, each holding its share. |
| PointRules.SettlementsForTotal | internal/services/pointService.go:56-65 | The settlements sum to minus the walked payers' sums, plus the amount clamped off the last transaction. |
| PointRules.SettlementsConserve | internal/services/pointService.go:52-89 | The settlements of a successful positive spend sum to exactly minus the amount. |
| PointRules.SpendLowersTotal | internal/services/pointService.go:79-83 | Appending the settlements of a successful positive spend lowers the log's total by exactly the amount spent. |
| PointRules.OnlyLastClamped | internal/services/pointService.go:54-62 | Every transaction before the last one walked is charged in full. |
| PointRules.NonPositiveSpend | internal/services/pointService.go:52-77 | A spend of zero or fewer points succeeds and settles nothing. |
| PointRules.SpendIgnoresLaterTransactions | internal/services/pointService.go:54 | Once a prefix reaches the amount, appending transactions changes neither the outcome nor the settlements. |
| Services.PointService.constructor | internal/services/pointService.go:23-27 | The service works on the database it is given. |
| Services.PointService.TotalPointsForPayer | internal/services/pointService.go:96-108 | Returns the payer's sum, 0 for an unknown payer, and leaves the stored log time-ordered with the same transactions. |
| Services.PointService.AddPoints | internal/services/pointService.go:29-44 | Succeeds iff the add rule allows it, otherwise fails with NotEnoughPoints. A credit is appended as is; a debit re-sorts the log and is then appended or not, with the multiset changed by exactly it or not at all. |
| Services.PointService.SpendPoints | internal/services/pointService.go:46-90 | The stored log is time-ordered with the same transactions. Succeeds iff some prefix reaches the amount; then it returns exactly the settlements and appends exactly them, and a positive spend lowers the stored total by exactly the amount. On failure it returns NotEnoughPoints and an empty list and appends nothing. |
| Services.PointService.AppendSettlements | internal/services/pointService.go:79-83 | Appends every value of the map exactly once, in some order, and nothing else. |
| Services.PointService.GetAccounts | internal/services/pointService.go:92-94 | Returns the database's balance list. |
| Services.Walk | internal/services/pointService.go:52-73 | Stops exactly at the scan's end, with the counter equal to the amount minus the points walked. Each payer walked is mapped to a settlement holding its share, stamped by its first-touch position. |
| Services.SpendLowersStoredTotal | internal/services/pointService.go:79-83 | After a successful positive spend, the stored log's total has dropped by exactly the amount, whatever order the settlements were appended in. |
| Services.WalkDone | internal/services/pointService.go:54-77 | Where the walk's loop exits, it is at the scan's end, with the counter and the map as the walk's result states. |
| Services.Walked | internal/services/pointService.go:54-73 | Defines the walk's map and clock after i steps: each step adds the charge to the payer's entry, or creates the entry stamped with the clock, which then advances by one. |
| Services.WalkedClock | internal/services/pointService.go:63-71 | The walk's map has one key per payer walked, and the clock has advanced once per payer. |
| Services.WalkedIsShares | internal/services/pointService.go:54-73 | Up to the scan's end, the walk's map holds each touched payer's share, stamped in first-touch order. |
| Services.WalkedNext | internal/services/pointService.go:63-71 | One step of the walk from a known state either adds the charge to the payer's entry or creates it stamped with the clock, which then advances by one. |
| Services.WalkStep | internal/services/pointService.go:54-62 | While the counter is positive, walking one more transaction stays within the scan. |
| Services.Charge | internal/services/pointService.go:57-60 | Defines `balanceDiff`: minus the transaction's points, or minus the counter when the transaction holds more than the counter. |
| Services.WalkTouched | internal/services/pointService.go:63-65 | Charging a payer already in the map keeps the map holding the shares. |
| Services.WalkNew | internal/services/pointService.go:66-71 | A new payer's entry, stamped with the clock, keeps the map holding the shares. |
| Services.AccumulateTouched | internal/services/pointService.go:63-65 | Adding the charge to a touched payer's entry gives its share after one more step. |
| Services.AccumulateNew | internal/services/pointService.go:66-71 | A new entry for an untouched payer holds its share after one more step, stamped `now` plus the number of payers before it. |
| Services.AppendedAreSettlements | internal/services/pointService.go:79-83 | The map values the loop appends, one each in any order, are a permutation of the settlements. |
| Services.SettledInTimeOrder | internal/services/pointService.go:79-89 | The map's values, appended in any order and then sorted by time, are exactly the settlements. |
| Fixture.ThreePayersTouchOrder | internal/test/dataset.go:10-36 | The data set touches DANNON, UNILEVER and MILLER COORS, in that order, in either ordering. |
| Fixture.ThreePayersTotals | internal/test/dataset.go:10-36 | The payer sums of the data set and of its prefixes. |
| Fixture.IncreasingStamps | internal/test/dataset.go:10-36 | Five transactions with increasing stamps are strictly time-ordered. |
| Fixture.SwapEnds | internal/test/dataset.go:10-36 | The time-ordered data set is a permutation of the listed one. |
| Fixture.FixtureTimeOrder | internal/db/db.go:27-33 | Any time-ordered arrangement of the data set is DANNON 300, UNILEVER 200, DANNON -200, MILLER COORS 10000, DANNON 1000. |
| Fixture.AscendingNames | internal/db/db.go:52-54 | Three accounts whose payer names ascend are sorted by name and distinct. |
| Fixture.ThreePayersBalances | internal/db/db.go:42-56 | A log of that shape, in any order, has its three accounts ascending by name. |
| Fixture.FixtureAccounts | internal/web/server_test.go:39-41 | The data set's balances are DANNON 1100, MILLER COORS 10000, UNILEVER 200, in that order. |
| Fixture.PrefixTotals | internal/test/dataset.go:10-36 | The totals of the first four prefixes of a log of at least four transactions, such as the data set, written out from their points. |
| Fixture.TimeOrderedShares | internal/services/pointService_test.go:22-37 | The spend of 5000 stops after MILLER COORS and charges DANNON 100, UNILEVER 200 and MILLER COORS 4700. |
| Fixture.FixtureSpend | internal/services/pointService_test.go:22-37 | The spend of 5000 on the data set succeeds with settlements DANNON -100, UNILEVER -200, MILLER COORS -4700, in that order. |
| Fixture.AddTwoToFreshDb | internal/db/db_test.go:12-26 | Two appends to a fresh database leave two transactions, DANNON 1000 first. |
| Fixture.DataAddable | internal/services/pointService_test.go:18-21 | Every transaction of the data set passes the add rule when added in the listed order. |
| Fixture.SpendFixture | internal/services/pointService_test.go:13-38 | In the model of the service's test run, every add passes, the balances are as above, the spend returns the three settlements, and the log has eight transactions with DANNON 300 first. |
| Fixture.ReadFixture | internal/web/server_test.go:18-42 | A log holding the data set, in any order, reads back DANNON 1100 first among three accounts. |
| Fixture.SpendOnFixture | internal/web/server_test.go:72-98 | Spending 5000 on that log succeeds with the three settlements, and the log has eight transactions, DANNON 300 first. |
| Fixture.TieDecidesSpend | internal/db/db.go:29-31 | Two transactions with equal timestamps are time-ordered either way, and a spend of 100 succeeds in one order and fails in the other. |
| Fixture.SpendCanOverdraw | internal/services/pointService.go:54-77 | A log of total 0 that AddPoints accepts still allows a spend of 50, which leaves A at -50. |
| Fixture.TwoPayersTotals | internal/services/pointService.go:102-105 | The payer sums and touch order of a two-payer log. |
| Fixture.SpendSettlesZero | internal/services/pointService.go:79-83 | A payer whose charges cancel out still gets a settlement of 0 points. |

## Left out

- `context.Context` parameters and the database's error returns are not modelled. The in-memory database never fails, so the only error is NotEnoughPoints.
- The HTTP layer (internal/web/server.go, internal/web/middleware.go) and startup (cmd/api/main.go) are not part of this model.
- `ParseTime` and RFC 3339 parsing are left out. The fixture's timestamps are written as Unix seconds.
- `time.Now()` is replaced by the `now` parameter of `SpendPoints` and a clock that goes up by one per reading. A real clock can return equal readings; the model assumes distinct ones.
- Go's `int` is 64-bit. The model uses unbounded integers, so overflow of sums, of the counter and of negation is not modelled. In particular `-transaction.Points` (internal/services/pointService.go:38, and `-tran.Points` at :57) wraps for math.MinInt64, so a debit of math.MinInt64 passes the add check whatever the payer's sum and drives that sum negative. `PointRules.MayAdd` and `PointRules.AddKeepsBalancesNonNegative` describe the rule on unbounded integers only.
- `sort.Slice`'s actual algorithm is left out. Insertion sort stands in for it. Where keys can tie (the time order of the log in `GetTransactions`), contracts state only ordered-and-permutation, so tie order is unspecified.
- The map in `getAccountMap` is not a Go hash map. It is a Dafny `map` that the loop reassigns, and iteration over it is an arbitrary choice of the next key.
- When the log is empty, `GetAccounts` returns a nil slice in Go. The model returns the empty sequence, which is the same as far as length and contents go.
- A successful spend that settles nothing returns a nil slice in Go (internal/services/pointService.go:79, 89). The model returns the empty sequence, which is the same as far as length and contents go.
- The `log.Println` in `NewInMemoryDB` (internal/db/db.go:19) is left out, because logging is I/O.
- The service holds its database as `pointsDB`, an interface. Here it holds the concrete `InMemoryDB`, the only implementation.
- Concurrency is left out. The code has no locking, and the model is sequential.
- Services.PointService.AppendSettlements: requires each map entry to be keyed by its own payer. `Walk` establishes this.
- Services.PointService.SpendPoints: does not state the order in which the settlements are appended to the log, only their multiset, because Go's map iteration order is unspecified.
