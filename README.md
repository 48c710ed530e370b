# ProfitFolio position and valuation model

ProfitFolio is a personal-finance tracker. A FastAPI/SQLModel backend keeps
accounts, assets, transactions and the positions they imply. A React frontend
reads them through one API module and shows a dashboard. This project models
the parts of both that compute something:

- **TransactionService** (`backend/app/services/transaction.py`): two ways to
  get a position from transactions.
  - The recompute fold `_recalculate_position` turns the time-ordered
    transactions of one (account, asset) pair into a quantity and an average
    cost.
  - The incremental update in `create_transaction` adjusts the stored position
    in place.
  - `update_transaction` and `delete_transaction` choose which pairs to
    recompute.
  - The store is the class `Ledger`: a `seq` of transactions and a `map` from
    (account, asset) to position.
- **AccountService** (`backend/app/services/account.py`): an account's balance
  is the sum of quantity × price over its positions. Also modelled: the paged
  account list, the lookup by id and the partial update (class
  `AccountStore`).
- **DashboardService** (`backend/app/services/dashboard.py`): `get_stats`.
  It computes net worth, the allocation by asset type, total profit, the top
  performer chosen by a strict `>` (so the first maximum wins) and the
  allocation percentages.
- **PortfolioService** (`backend/app/services/portfolio.py`): creating and
  updating a portfolio. This covers the partial field update and the
  replacement of the linked accounts by the existing accounts among the
  listed ids (class `PortfolioStore`).
- **InitDb** (`backend/app/core/init_db.py`): idempotent seeding of the fiat
  assets, keyed by the unique ticker (class `AssetTable`).
- **Api** (`frontend/services/api.ts`):
  - the enum maps between wire tags and display tags;
  - the normaliser of each entity, including the transaction amount rule;
  - palette cycling;
  - the query string and the partial-update payloads;
  - the read-failure fallback policy.
- **DashboardView** (`frontend/components/Dashboard.tsx`): the trend sign, the
  defaults for missing stats, the implied change amounts, the allocation total
  and each slice's share.

`Wrappers` holds `Option`/`Result`. `Models` holds the rows the backend files
share (`backend/app/models/*.py`) and the SQL `OFFSET`/`LIMIT` page.

## How the source is represented

- Python `Decimal` values are modelled as exact `real`s, and JavaScript numbers
  read from the wire are taken as `real` too. The source itself rounds: it
  divides in the 28-digit `Decimal` context and stores every amount in a
  SQLite `NUMERIC(20, 10)` column, which reads back rounded to 10 places. The
  equalities of the average-cost lemmas hold over `real`; "## Left out" says
  which ones.
- Truthiness is written out where the source relies on it:
  - an `asset_id` of 0 is falsy, and so is an empty string;
  - an empty Python list is falsy;
  - a JavaScript array is truthy even when empty.
- The SQL query in `_recalculate_position` is a parameter `ordered` of the
  recompute. It must be a time-sorted permutation of the pair's transactions.
  SQL leaves the order of equal timestamps open, so the model does not fix a
  tie order.
- A row the endpoint has already loaded is addressed by its index in the
  store's sequence.
- Every network call of the frontend is an outcome value `Fetched`: thrown, or
  a reply with a status and a body. The mock tables of the fallbacks are
  parameters.
- The transaction normaliser (frontend/services/api.ts:533-536) turns a price
  of 0 into 1 when there is no asset and the quantity is non-zero, so the
  amount is then the quantity. `Api.NormalizeTransaction` states this rule.
- `top_performer_change` tests the truthiness of the top performer's NAME
  (dashboard.py:103). An asset with an empty name can therefore be the top
  performer with a `None` change. `DashboardService.TopPerformerMeaning`
  states this case as written.
- Both recompute paths are modelled as written. They agree on histories of
  buys and non-overselling sells (`TransactionService.PathsAgreeOnTrades`)
  in exact arithmetic; the source's rounding can make them differ in the last
  places. The lemmas that follow it exhibit where they part.

## Model

| member | source | states |
|---|---|---|
| Models.WireTagInjective | backend/app/models/assets.py:7-11 | distinct asset types have distinct wire tags |
| Models.AccountIds | backend/app/models/accounts.py:5-11 | the ids of a list of accounts, position by position |
| Models.PageStart | backend/app/services/account.py:73 | the OFFSET start never passes the end of the table |
| Models.Page | backend/app/services/account.py:73 | OFFSET/LIMIT: a prefix of the rows from the offset on, at most `limit` long, or the whole rest when there is no limit |
| TransactionService.AverageCost | backend/app/services/transaction.py:65-68 | a positive quantity gives average × quantity == total cost; otherwise the average is exactly 0 |
| TransactionService.Fold | backend/app/services/transaction.py:38-63 | the loop from (0, 0); `FoldQuantityIsNet` proves its quantity is the signed net of the transactions |
| TransactionService.FoldQuantityIsNet | backend/app/services/transaction.py:38-63 | the recomputed quantity is buys + deposits + positive dividends − sells − withdrawals |
| TransactionService.MissingAmountsReadAsZero | backend/app/services/transaction.py:39-41 | a missing quantity or price folds exactly as 0 |
| TransactionService.NonPositiveDividendIsIgnored | backend/app/services/transaction.py:59-63 | a dividend with quantity ≤ 0 leaves the totals unchanged |
| TransactionService.Step | backend/app/services/transaction.py:43-63 | one loop iteration over the totals; its branches are stated by `StepMeaning` |
| TransactionService.StepMeaning | backend/app/services/transaction.py:43-63 | buys, deposits and positive dividends add quantity and qty×price+fee; sells and withdrawals subtract the quantity with no clamp; a sale from a non-positive holding keeps the cost |
| TransactionService.SellKeepsAverageCost | backend/app/services/transaction.py:49-57 | a sale that leaves a positive quantity keeps the average cost |
| TransactionService.FullSellClearsCost | backend/app/services/transaction.py:49-57 | selling exactly the held quantity leaves quantity 0 and cost 0 |
| TransactionService.ApplyCreate | backend/app/services/transaction.py:121-143 | the position update of one create; `IncrementalCreateMeaning` states its buy, sell and other branches |
| TransactionService.IncrementalCreateMeaning | backend/app/services/transaction.py:121-143 | a buy adds quantity and sets the weighted average (new quantity × average == old cost + qty×price+fee); a sell never leaves a negative quantity and resets to (0, 0) when nothing is left; other kinds leave the position unchanged |
| TransactionService.StepBuy | backend/app/services/transaction.py:43-47 | one recompute step of a buy adds its quantity and its cost basis |
| TransactionService.ApplyBuy | backend/app/services/transaction.py:125-135 | an incremental buy gives the weighted average of old and new cost |
| TransactionService.PositiveAverage | backend/app/services/transaction.py:66-68 | with a positive quantity the average is cost / quantity and multiplies back to the cost |
| TransactionService.BuyStepAgrees | backend/app/services/transaction.py:43-47 | a buy keeps the recomputed and the incremental position equal |
| TransactionService.SellStepAgrees | backend/app/services/transaction.py:49-57 | a sale of at most the held quantity keeps the two positions equal |
| TransactionService.TradesPrefix | backend/app/services/transaction.py:38-63 | a prefix of a trade history is a trade history |
| TransactionService.TradeStepAgrees | backend/app/services/transaction.py:38-63 | one more trade keeps the recompute and the incremental replay equal |
| TransactionService.Replay | backend/app/services/transaction.py:99-149 | successive creates from no position; `PathsAgreeOnTrades` proves it equals the recompute on trade histories |
| TransactionService.PathsAgreeOnTrades | backend/app/services/transaction.py:35-68 | on buys and non-overselling sells, the incremental replay from (0, 0) equals (recomputed quantity, recomputed average), and that quantity is ≥ 0 |
| TransactionService.DepositMovesOnlyRecomputedQuantity | backend/app/services/transaction.py:43-47 | a deposit of 5 moves the recomputed quantity to 5 but leaves the incremental position at (0, 0) |
| TransactionService.OversellClampedOnlyIncrementally | backend/app/services/transaction.py:137-143 | buying 1 and selling 3 gives −2 in the recompute but (0, 0) incrementally |
| TransactionService.Matching | backend/app/services/transaction.py:28-33 | only transactions of the given (account, asset) pair are selected |
| TransactionService.Recalculated | backend/app/services/transaction.py:18-94 | other pairs are untouched; a falsy asset id changes nothing; an existing position is overwritten with (fold quantity, average) even at quantity 0; a missing one is created exactly when the quantity is non-zero |
| TransactionService.AfterCreate | backend/app/services/transaction.py:101-146 | without an asset nothing changes; otherwise only the pair's position changes, to the incremental update of the stored one (or of (0, 0)) |
| TransactionService.Patched | backend/app/services/transaction.py:205-206 | every field that was set takes its new value and every other field keeps its old one; an empty update changes nothing |
| TransactionService.UpdateRecomputes | backend/app/services/transaction.py:211-217 | at most two pairs; the new pair whenever it has an asset; the old pair only when it had an asset and the pair changed |
| TransactionService.AfterUpdate | backend/app/services/transaction.py:200-219 | positions outside the recomputed pairs are unchanged |
| TransactionService.DeleteRecomputes | backend/app/services/transaction.py:228-230 | exactly the deleted transaction's pair, and only when it had an asset |
| TransactionService.MatchingUnchangedByUpdate | backend/app/services/transaction.py:205-217 | replacing a transaction outside a pair by another outside it leaves that pair's transactions as they were |
| TransactionService.MatchingUnchangedByRemoval | backend/app/services/transaction.py:221-230 | removing a transaction outside a pair leaves that pair's transactions as they were |
| TransactionService.UpdateRecomputesEveryChangedPair | backend/app/services/transaction.py:211-217 | every pair whose transactions an update changes is recomputed |
| TransactionService.DeleteRecomputesEveryChangedPair | backend/app/services/transaction.py:228-230 | every pair whose transactions a delete changes is recomputed |
| TransactionService.Ledger.constructor | backend/app/models/transacions.py:14-42 | an empty store |
| TransactionService.ApplyToTotals | backend/app/services/transaction.py:38-63 | one pass of the loop body updates the totals as one fold step |
| TransactionService.Ledger.RecalculatePosition | backend/app/services/transaction.py:18-94 | the loop and the position write leave the positions `Recalculated` describes; the transactions are unchanged |
| TransactionService.Ledger.CreateTransaction | backend/app/services/transaction.py:96-151 | the transaction is appended and the positions become `AfterCreate` |
| TransactionService.Ledger.UpdateTransaction | backend/app/services/transaction.py:200-219 | the row is patched and the positions become `AfterUpdate` |
| TransactionService.Ledger.DeleteTransaction | backend/app/services/transaction.py:221-232 | the row is removed; its pair is recomputed over the remaining rows when it had an asset; otherwise the positions are unchanged |
| AccountService.OwnRows | backend/app/services/account.py:29-33 | exactly the given account's joined rows |
| AccountService.SumMarketValue | backend/app/services/account.py:39-49 | the loop's running total; `SumMarketValueSnoc` and `FilteredSumIsBalance` state it |
| AccountService.SumMarketValueSnoc | backend/app/services/account.py:39-49 | one more row adds its quantity × price |
| AccountService.Balance | backend/app/services/account.py:39-49 | the row-by-row balance; `FilteredSumIsBalance`, `BalanceOfConcat` and `OtherAccountsNeverContribute` state it |
| AccountService.FilteredSumIsBalance | backend/app/services/account.py:28-49 | the sum over the account's own rows is its balance |
| AccountService.BalanceOfConcat | backend/app/services/account.py:39-49 | the balance over two row lists is the sum of their balances |
| AccountService.OtherAccountsNeverContribute | backend/app/services/account.py:33 | inserting another account's row does not change a balance |
| AccountService.NoPositionsZeroBalance | backend/app/services/account.py:37-51 | an account without positions has balance 0 |
| AccountService.FindAccount | backend/app/services/account.py:60-63 | None exactly when no account has the id; otherwise an account with that id |
| AccountService.PatchedAccount | backend/app/services/account.py:88-91 | only the fields that were set change; the id never does |
| AccountService.PatchedAccountIdempotent | backend/app/services/account.py:88-91 | repeating an update changes nothing more, and an empty update is the identity |
| AccountService.AccountStore.constructor | backend/app/models/accounts.py:5-11 | a store with the given accounts and positions |
| AccountService.AccountStore.CalculateTotalBalance | backend/app/services/account.py:17-51 | the loop's total is the account's balance |
| AccountService.AccountStore.GetAccountById | backend/app/services/account.py:60-70 | None exactly for an unknown id; otherwise that account with its balance |
| AccountService.AccountStore.GetAccounts | backend/app/services/account.py:72-82 | at most `limit` results, one per account of the page, each with its balance |
| AccountService.AccountStore.UpdateAccount | backend/app/services/account.py:88-94 | the row becomes its patched self; nothing else changes |
| DashboardService.CountedAbsent | backend/app/services/dashboard.py:23-25 | an account that is not listed contributes nothing to net worth |
| DashboardService.CountedOnce | backend/app/services/dashboard.py:23-25 | a listed account of distinct ids contributes its value once |
| DashboardService.SumBalances | backend/app/services/dashboard.py:23-25 | the sum over listed ids; `CountedAbsent`, `CountedOnce` and `SumBalancesSnoc` state it |
| DashboardService.SumBalancesOfNoRows | backend/app/services/dashboard.py:23-25 | with no positions net worth is 0 |
| DashboardService.SumBalancesSnoc | backend/app/services/dashboard.py:23-25 | one more position adds its market value once for each time its account is listed |
| DashboardService.NetWorth | backend/app/services/dashboard.py:20-25 | the net worth loop; `NetWorthIsTotalValue` states it equals the total market value under distinct owning accounts |
| DashboardService.NetWorthIsTotalValue | backend/app/services/dashboard.py:20-25 | with distinct accounts that own all positions, net worth equals the total market value |
| DashboardService.AddToBucket | backend/app/services/dashboard.py:52-53 | adds the value to exactly one type's bucket, appending a new bucket for a new type, and raises the bucket total by the value |
| DashboardService.HasKindSnoc | backend/app/services/dashboard.py:44-53 | a type occurs in rows plus one row iff it occurs before or is that row's type |
| DashboardService.DistinctAfterAdd | backend/app/services/dashboard.py:53 | adding to the buckets keeps one bucket per type |
| DashboardService.Allocation | backend/app/services/dashboard.py:44-53 | the allocation map after the loop; `AllocationMeaning` states each bucket's value and the total |
| DashboardService.AllocationMeaning | backend/app/services/dashboard.py:44-53 | one bucket per occurring type, holding that type's market value; the buckets sum to the total asset value |
| DashboardService.ValueOfDistinct | backend/app/services/dashboard.py:53 | a bucket's value is what lookup by its type returns |
| DashboardService.BestIndex | backend/app/services/dashboard.py:55-61 | None iff no position has positive cost basis; otherwise a ranked position with the largest profit percentage and no equal one before it |
| DashboardService.Items | backend/app/services/dashboard.py:89-93 | one allocation item per bucket |
| DashboardService.SumAccountBalances | backend/app/services/dashboard.py:20-25 | the loop's total is the net worth |
| DashboardService.ScanRow | backend/app/services/dashboard.py:44-61 | one scan iteration; `ScanRowTracksBest` states the best-performer invariant it keeps |
| DashboardService.ScanRowTracksBest | backend/app/services/dashboard.py:56-61 | one more row keeps the best-performer variables tracking the best row |
| DashboardService.ScanAll | backend/app/services/dashboard.py:44-61 | the whole scan; `ScanMeaning` states its buckets, totals and best row |
| DashboardService.ScanMeaning | backend/app/services/dashboard.py:34-61 | the loop builds the allocation map, the total asset value and the total cost basis, and tracks the best performer |
| DashboardService.ScanPositions | backend/app/services/dashboard.py:34-61 | the loop's variables end as the scan specifies |
| DashboardService.BuildAllocationList | backend/app/services/dashboard.py:88-93 | empty when net worth ≤ 0; otherwise one item per bucket |
| DashboardService.Stats | backend/app/services/dashboard.py:18-113 | the response; `GetStats`, `ProfitAndChanges`, `TopPerformerMeaning` and `AllocationListMeaning` state it |
| DashboardService.GetStats | backend/app/services/dashboard.py:18-113 | the response is the stats of the store; its total profit is the sum of the positions' unrealised profits, and both 24h changes are 0 |
| DashboardService.TopPerformerMeaning | backend/app/services/dashboard.py:55-61 | (with the change rule of line 103) a top performer is named iff some position has positive cost basis; it is the first maximum of the profit percentage; the change is that percentage unless the name is empty |
| DashboardService.SumProfit | backend/app/services/dashboard.py:98 | each row's market value minus cost basis, summed; `SumProfitSplits` ties it to the source's two totals |
| DashboardService.SumProfitSplits | backend/app/services/dashboard.py:98 | total market value − total cost basis equals the sum of each row's market value − cost basis |
| DashboardService.ProfitAndChanges | backend/app/services/dashboard.py:98-102 | total profit is the sum of every position's unrealised profit; both 24h changes are 0 |
| DashboardService.AllocationListMeaning | backend/app/services/dashboard.py:88-93 | empty when net worth ≤ 0; otherwise one item per occurring type, labelled by its tag, holding its value and value/net worth × 100 |
| DashboardService.SumPercentagesOfItems | backend/app/services/dashboard.py:89-93 | the percentages sum to bucket total / net worth × 100 |
| DashboardService.SharesOfTotalSumTo100 | backend/app/services/dashboard.py:89-93 | when the buckets sum to the divisor, the percentages sum to 100 |
| DashboardService.PercentagesSumTo100 | backend/app/services/dashboard.py:20-93 | with distinct accounts owning all positions and a positive net worth, the percentages sum to 100 |
| PortfolioService.Linked | backend/app/services/portfolio.py:23 | exactly the listed ids that name existing accounts |
| PortfolioService.Created | backend/app/services/portfolio.py:14-29 | name and description are copied; the links are the existing accounts among the listed ids |
| PortfolioService.PatchedFields | backend/app/services/portfolio.py:40-41 | name and description change only when set; the links never change this way |
| PortfolioService.Updated | backend/app/services/portfolio.py:38-51 | the fields as patched; no list keeps the links; a list replaces them by the existing accounts among its ids |
| PortfolioService.CreateWithoutIdsLinksNothing | backend/app/services/portfolio.py:22 | an absent, null or empty list links nothing |
| PortfolioService.CreateDropsUnknownIds | backend/app/services/portfolio.py:23-24 | an id with no account is never linked |
| PortfolioService.EmptyListClearsLinks | backend/app/services/portfolio.py:44-46 | an update with an empty list clears the links |
| PortfolioService.FieldsIgnoreAccountIds | backend/app/services/portfolio.py:40-41 | the updated name and description do not depend on the id list |
| PortfolioService.UpdateIdempotent | backend/app/services/portfolio.py:38-51 | repeating an update gives what the first one gave |
| PortfolioService.LinksDependOnIdSetOnly | backend/app/services/portfolio.py:23 | the links depend on which ids are listed, not on their order or repeats |
| PortfolioService.PortfolioStore.constructor | backend/app/schemas/portfolio.py:8-10 | a store with the given accounts and portfolios |
| PortfolioService.PortfolioStore.CreatePortfolio | backend/app/services/portfolio.py:14-29 | appends the portfolio `Created` describes; the accounts are unchanged |
| PortfolioService.PortfolioStore.GetPortfolios | backend/app/services/portfolio.py:34-36 | one page of portfolios: at most `limit`, all stored |
| PortfolioService.PortfolioStore.UpdatePortfolio | backend/app/services/portfolio.py:38-51 | the row becomes the portfolio `Updated` describes |
| InitDb.FirstWithTicker | backend/app/core/init_db.py:15 | None iff no asset has the ticker; otherwise a stored asset with it |
| InitDb.Seeded | backend/app/core/init_db.py:12-20 | the table after the seeding loop; the `Seeded…` lemmas state that it only appends, adds only listed entries, has every ticker, keeps tickers unique and is idempotent |
| InitDb.SeededExtends | backend/app/core/init_db.py:15-20 | seeding only appends, so an asset that already has a ticker is left as it was |
| InitDb.SeededAddsOnlyListed | backend/app/core/init_db.py:13-20 | every added asset is a listed entry |
| InitDb.SeededHasEveryTicker | backend/app/core/init_db.py:12-20 | afterwards an asset exists for every listed ticker |
| InitDb.SeededKeepsUnique | backend/app/models/assets.py:17 | seeding keeps the tickers unique |
| InitDb.SeededNoop | backend/app/core/init_db.py:15-18 | seeding a table that has every listed ticker changes nothing |
| InitDb.SeededIdempotent | backend/app/core/init_db.py:15-20 | seeding twice gives the table seeding once gives |
| InitDb.AssetTable.constructor | backend/app/models/assets.py:13-23 | a table with the given assets |
| InitDb.AssetTable.InitFiatAssets | backend/app/core/init_db.py:12-24 | the loop leaves the table seeded with `INITIAL_ASSETS` |
| InitDb.InitialSeedingMeaning | backend/app/core/init_db.py:5-20 | after seeding the US dollar is present and the tickers stay unique |
| Api.ApiTypeToFrontend | frontend/services/api.ts:116-124 | never Cash; Stock exactly for a tag other than crypto, etf and fiat |
| Api.FrontendTypeToApi | frontend/services/api.ts:126-134 | always a backend tag; "stock" exactly for Stock and Cash |
| Api.CurrencyToFrontend | frontend/services/api.ts:136-139 | TWD exactly for the string "TWD", USD otherwise |
| Api.TransactionTypeToFrontend | frontend/services/api.ts:141-150 | Buy exactly for a tag other than sell, deposit, withdraw and dividend |
| Api.FrontendTransactionTypeToApi | frontend/services/api.ts:152-161 | always one of the five backend tags |
| Api.AssetTagsRoundTrip | frontend/services/api.ts:116-134 | a backend tag comes back unchanged through display and back |
| Api.DisplayTypesRoundTrip | frontend/services/api.ts:116-134 | display → wire → display is the identity except that Cash becomes Stock |
| Api.BackendTypesRoundTrip | frontend/services/api.ts:116-134 | the tag of every backend asset type round-trips |
| Api.CurrencyRoundTrip | frontend/services/api.ts:136-139 | a currency's string maps back to that currency |
| Api.TransactionTypesInverse | frontend/services/api.ts:141-161 | the two transaction-type maps are mutual inverses on the five tags |
| Api.ReadOrFallback | frontend/services/api.ts:188-191 | a 2xx reply is normalised; a failure or a thrown fetch gives the fallback |
| Api.ReadOrFail | frontend/services/api.ts:398-404 | Ok exactly on a 2xx reply, holding the normalised body; otherwise the error of the outcome |
| Api.NormalizeAsset | frontend/services/api.ts:178-186 | id, ticker, name and price copied; the type and currency are those of the two mappers, so a backend tag maps back to itself, an unknown tag gives Stock, a known currency is kept and any other gives USD |
| Api.NormalizeAssets | frontend/services/api.ts:178-186 | each item normalised, in order |
| Api.FetchAssets | frontend/services/api.ts:165-192 | the normalised list on success, the mock assets otherwise |
| Api.NormalizeAccount | frontend/services/api.ts:301-307 | a missing balance reads as 0; otherwise it is kept; the currency is TWD iff the wire says "TWD" |
| Api.NormalizeAccounts | frontend/services/api.ts:301-307 | each item normalised, in order |
| Api.FetchAccounts | frontend/services/api.ts:288-313 | the normalised list on success, the mock accounts otherwise |
| Api.ShownBalanceIsBackendBalance | frontend/services/api.ts:301-307 | an account the backend reads out is shown with that balance and currency |
| Api.FetchPortfolios | frontend/services/api.ts:375-396 | the body on success, the mock list otherwise |
| Api.NormalizePortfolio | frontend/services/api.ts:407-413 | the fields are copied and the linked accounts become their ids, in order |
| Api.FetchPortfolio | frontend/services/api.ts:398-414 | no fallback: Ok exactly on success |
| Api.HoldingViews | frontend/services/api.ts:438-450 | holding i gets palette colour i mod 7 |
| Api.PaletteCycles | frontend/services/api.ts:428-450 | two holdings share a colour iff their positions agree mod 7 |
| Api.NormalizeSummary | frontend/services/api.ts:430-457 | the id, name, total value, total profit and its percent, daily change and its percent and the accounts are copied; holding `i` gets palette colour `i mod 7` |
| Api.FetchPortfolioSummary | frontend/services/api.ts:416-463 | an error exactly when the fetch fails for an id other than "1"; portfolio "1" falls back to the mock |
| Api.NormalizeTransaction | frontend/services/api.ts:527-552 | id, account id, account name, fee and notes copied; the amount is shown quantity × shown price; a wire price of 0 is shown as 1 exactly when there is no asset and the quantity is non-zero, else as 0; a missing price or quantity stays null; a zero price without an asset becomes 1; the symbol defaults to "-"; the type is mapped; the currency is USD |
| Api.NormalizeTransactionItem | frontend/services/api.ts:528-551 | the normaliser with `let price` reassigned computes what `NormalizeTransaction` specifies |
| Api.ZeroAmountMeaning | frontend/services/api.ts:529-547 | the amount is 0 iff the quantity is 0 or an asset transaction is priced at 0 |
| Api.NormalizeTransactions | frontend/services/api.ts:527-552 | each item normalised, in order |
| Api.FetchTransactions | frontend/services/api.ts:507-559 | the normalised list on success, the mock transactions otherwise |
| Api.NatText | frontend/services/api.ts:510 | the decimal text of a number is never empty |
| Api.ParseNatText | frontend/services/api.ts:510 | reading back the decimal text of a natural number gives the number |
| Api.IntText | frontend/services/api.ts:510 | `toString` of an integer; `ParseIntText` proves reading it back gives the integer |
| Api.ParseIntText | frontend/services/api.ts:510-513 | reading back `toString` of an integer gives the integer |
| Api.NatTextHead | frontend/services/api.ts:510 | the text starts with a digit |
| Api.DefaultLimitText | frontend/services/api.ts:511 | the default "100" is the text of 100 and reads back as 100 |
| Api.Lookup | frontend/services/api.ts:509-514 | the value of the first parameter with the key, None exactly when no parameter has it |
| Api.LookupSnoc | frontend/services/api.ts:509-514 | appending a parameter changes only the lookup of a key that was missing |
| Api.DistinctSnoc | frontend/services/api.ts:509-514 | appending a missing key keeps the keys distinct |
| Api.BuildTransactionQuery | frontend/services/api.ts:509-514 | limit first, no key twice; the limit is the text of the truthy limit or of 100; offset present iff truthy, as its text; account_id present iff non-empty, as given |
| Api.BuildTransactionUpdate | frontend/services/api.ts:585-594 | each supplied field is sent; the type is the API tag of the display type, which translates back to it; the time only when the date is non-empty |
| Api.SendsAssetEdits | frontend/services/api.ts:251-256 | the exact payload of `updateAsset`; `BuildAssetUpdate` ensures it and `AssetEditRoundTrip` composes it with `NormalizeAsset` |
| Api.BuildAssetUpdate | frontend/services/api.ts:250-256 | ticker and name only when non-empty; the type is the API tag of the display type; the currency is the API code of the display currency, which translates back to it; the price as given (all of it as `SendsAssetEdits`) |
| Api.AssetEditRoundTrip | frontend/services/api.ts:178-186 | with `updateAsset` (api.ts:250-256), a fetched asset with a backend tag, a "USD" or "TWD" currency and a non-empty ticker and name is sent back with every field unchanged |
| Api.SendsAccountEdits | frontend/services/api.ts:343-345 | the exact payload of `updateAccount`; `BuildAccountUpdate` ensures it and `AccountEditMeaning` composes it with `PatchedAccount` |
| Api.BuildAccountUpdate | frontend/services/api.ts:342-345 | the name only when non-empty, the currency when given |
| Api.AccountEditMeaning | frontend/services/api.ts:342-345 | applied by `update_account` (account.py:88-91), only a non-empty name and a given currency change the account |
| Api.BuildPortfolioUpdate | frontend/services/api.ts:481-485 | the name only when non-empty; the description and the id list as given, an empty list included |
| Api.PortfolioEditMeaning | frontend/services/api.ts:481-485 | applied by `update_portfolio` (portfolio.py:38-51), an empty selection clears the links and no list keeps them |
| Api.Lower | frontend/services/api.ts:638 | lower-cases character by character |
| Api.LabelType | frontend/services/api.ts:637-642 | Stock exactly for a label other than crypto, etf, cash and fiat |
| Api.FixedColor | frontend/services/api.ts:626-632 | the fixed colour map; `AllocationViews` and `BackendLabelsGetFixedColours` state how it colours the slices |
| Api.AllocationViews | frontend/services/api.ts:635-649 | value kept; the type is read from the lower-cased label; the fixed colour when there is one, else default colour i mod 6 |
| Api.BackendLabelsGetFixedColours | frontend/services/api.ts:626-642 | every backend allocation label is already lower case, has a fixed colour and gets the type the asset map gives it |
| Api.NormalizeStats | frontend/services/api.ts:651-659 | the numbers and name are copied and the allocation is mapped |
| Api.FetchDashboardStats | frontend/services/api.ts:615-673 | the normalised stats on success, the mock stats otherwise |
| DashboardView.PercentOrZero | frontend/components/Dashboard.tsx:41 | a null percent reads as 0 |
| DashboardView.TrendSignMeaning | frontend/components/Dashboard.tsx:40-42 | a trend is positive iff the percent is missing or ≥ 0, so zero counts as positive |
| DashboardView.ChangeAmount | frontend/components/Dashboard.tsx:73-75 | for a positive base the amount has the sign of the percent |
| DashboardView.ChangeAmountRecoversPercent | frontend/components/Dashboard.tsx:73-75 | the amount is that percent of the base |
| DashboardView.Displayed | frontend/components/Dashboard.tsx:56-62 | missing stats show 0, "-" and no allocation; the name is "-" iff it is missing, empty or "-", and a non-empty name is shown as given |
| DashboardView.Share | frontend/components/Dashboard.tsx:196 | 0 when the total is not positive; otherwise share × total == value × 100 |
| DashboardView.ShareOfSum | frontend/components/Dashboard.tsx:196 | shares add like their values |
| DashboardView.SumSharesIsScaledTotal | frontend/components/Dashboard.tsx:196 | over the `totalAssets` of line 87, the shares sum to total assets / divisor × 100 |
| DashboardView.SharesSumTo100 | frontend/components/Dashboard.tsx:196 | with a positive `totalAssets` (line 87) the shares sum to 100 |
| DashboardView.NoTotalNoShares | frontend/components/Dashboard.tsx:196 | with a total that is not positive every share is 0 |

## Left out

- HTTP, JSON and timers: `fetch`, `response.json()`, `JSON.stringify`, `setTimeout`, `console.warn` and the `print` in backend/app/core/init_db.py:21 are I/O. Each call is an abstract outcome, and only its status decides anything.
- SQLModel and FastAPI: the session calls, the joins, the routers and the database setup become an in-memory store. Each store is a class over `seq`/`map`.
- The SQL tie order: the recompute takes any time-sorted order of the pair's transactions.
- Timestamps: the `datetime.now` in `last_updated`, `transaction_time` and `created_at` is wall-clock time and is not modelled.
- `create_transaction` makes one commit (backend/app/services/transaction.py:149). Its position query at line 109 relies on autoflush to see the row added at line 99. The model adds the row and updates the position in one step, so no flush is modelled.
- TransactionService.AverageCost: `avg × qty == cost` holds over `real`. The division at backend/app/services/transaction.py:68 rounds to 28 digits, and the stored `average_cost` (backend/app/models/transacions.py:41) reads back rounded to 10 places.
- TransactionService.ApplyBuy: the weighted average holds over `real`. The source divides at backend/app/services/transaction.py:134 with rounding, and the next create reads back the position committed at line 149 rounded to 10 places.
- TransactionService.PositiveAverage: the average multiplies back to the cost exactly only over `real`, for the same rounding at backend/app/services/transaction.py:68.
- TransactionService.PathsAgreeOnTrades: the incremental replay and the recompute agree exactly only over `real`. The source rounds at every division (backend/app/services/transaction.py:53, 68, 134) and on every commit to a `NUMERIC(20, 10)` column (backend/app/models/transacions.py:23-25, 40-41; backend/app/models/assets.py:22) of its SQLite database (backend/app/core/database.py:4). The replay reads back rounded values and the recompute folds in memory, so the stored values may differ in the last places.
- AccountService.PatchedAccount: an explicit null `name` or `currency` (backend/app/schemas/account.py:27-28) passes `model_dump(exclude_unset=True)` and `sqlmodel_update` (backend/app/services/account.py:89-90). The commit at line 92 then fails on the NOT NULL columns (backend/app/models/accounts.py:9-10). `AccountUpdate`'s `Option<string>` cannot express such a request, so this error path is not modelled.
- TransactionService.Patched: an explicit null for the NOT NULL fields `account_id`, `type`, `fee` or `transaction_time` (backend/app/schemas/transaction.py:38-44, backend/app/models/transacions.py:18-26) makes the commit at backend/app/services/transaction.py:208 raise an integrity error before any recompute. `TxnUpdate` cannot express such a request, so this error path is not modelled.
- Float parsing and formatting: `parseFloat` and its `NaN`, `toFixed`, `toLocaleString`, `toISOString` and `Intl` are float and locale code. Wire numbers are taken as exact `real`s.
- Dates: the model has no dates, so `new Date(...).toISOString()` throwing on an unparseable date is not modelled. At frontend/services/api.ts:540 the throw is inside the `try` of `fetchTransactions`, so the whole list falls back to the mock. At api.ts:593 `updateTransaction` throws before any request is sent.
- The `float(...)` and `-float('inf')` conversions in dashboard.py are not modelled. The profit percentage is an exact `real`, and "no best yet" is `None`.
- The `or Decimal(0)` guards in account.py:41-42 and transaction.py:41 act on `NOT NULL` columns. The model gives those columns a `real` value, so there is no null to guard against.
- Ids are integers on both sides. The frontend's `toString`/`parseInt` of ids is not modelled; only the query string's number text is.
- Api.BuildTransactionQuery: a non-integer `limit` or `offset` is not modelled, because only integers are passed.
- Plain CRUD is not modelled:
  - `create_account`, `delete_account`, `delete_portfolio`, `delete_asset`;
  - `get_portfolio_by_id`, which is a single lookup;
  - the list queries of transactions with their joins;
  - backend/app/services/asset.py.
- The frontend create and delete calls and `validateAsset`/`updateAllAssetPrices` are not modelled, because they send fixed payloads and do no computation. These are `createAsset`, `createAccount`, `createPortfolio`, `createTransaction` and the `delete*` calls.
- `portfolio.py` imports `Portfolio` from backend/app/models/accounts.py, where that model is commented out (lines 13-25). The portfolio fields are therefore taken from the schemas.
- Seeding relies on the session autoflushing: the lookup sees the rows added earlier in the same run. The model takes this behaviour as given.
- Api.Lower works on ASCII letters only. The JavaScript lower-casing of other letters is not modelled.
- Api.FixedColor: the `colors[lowerLabel]` lookup does not model JavaScript prototype keys such as `constructor`.
- The mock tables of frontend/constants.ts are parameters of the fallbacks.
- The dashboard's `Promise.all` fetch is concurrent. Its fetch limit of 5 recent transactions, the React state and all rendering are UI and are not modelled.
- The frontend recomputes allocation shares from the values. It ignores the backend's `percentage`; the model keeps that field and proves both sums separately.
