/**
 * The frontend API layer (frontend/services/api.ts): the maps between the
 * backend's wire tags and the display enums, the normalisers that turn wire
 * records into view records, the colour assignment, the partial-update
 * payloads and the policy for failed requests.
 *
 * Wire decimals (sent as strings and read with `parseFloat`) are `real`; a
 * wire field that is absent, null or the empty string (all falsy) is `None`.
 * Ids are integers; their text form is left to `toString`/`parseInt`.
 */
module Api {
  import opened Wrappers
  import Models
  import AccountService
  import PortfolioService

  // ---------------------------------------------------------------------------
  // Display enums (frontend/types.ts)
  // ---------------------------------------------------------------------------

  /** `Currency` (types.ts:3-6). */
  datatype Currency = USD | TWD

  /** `AssetType` (types.ts:8-14). */
  datatype AssetType = Stock | ETF | Crypto | Cash | Fiat

  /** `TransactionType` (types.ts:16-22). */
  datatype TransactionType = Buy | Sell | Dividend | Deposit | Withdrawal

  /** The enum value of a currency, which is also what the payloads send. */
  function CurrencyValue(c: Currency): string {
    match c
    case USD => "USD"
    case TWD => "TWD"
  }

  // ---------------------------------------------------------------------------
  // Enum maps (api.ts:116-161)
  // ---------------------------------------------------------------------------

  /** The backend's asset tags. */
  const ASSET_TAGS: seq<string> := ["crypto", "stock", "etf", "fiat"]

  /** The backend's transaction tags. */
  const TRANSACTION_TAGS: seq<string> := ["buy", "sell", "deposit", "withdraw", "dividend"]

  /** `mapApiTypeToFrontend` (api.ts:116-124). */
  function ApiTypeToFrontend(apiType: string): (r: AssetType)
    ensures r != Cash
    ensures r == Stock <==> apiType !in ["crypto", "etf", "fiat"]
  {
    if apiType == "crypto" then Crypto
    else if apiType == "stock" then Stock
    else if apiType == "etf" then ETF
    else if apiType == "fiat" then Fiat
    else Stock
  }

  /** `mapFrontendTypeToApi` (api.ts:126-134); `Cash` has no backend tag and takes the default. */
  function FrontendTypeToApi(t: AssetType): (r: string)
    ensures r in ASSET_TAGS
    ensures r == "stock" <==> t == Stock || t == Cash
  {
    match t
    case Crypto => "crypto"
    case Stock => "stock"
    case ETF => "etf"
    case Fiat => "fiat"
    case Cash => "stock"
  }

  /** `mapCurrencyToFrontend` (api.ts:136-139). */
  function CurrencyToFrontend(curr: string): (r: Currency)
    ensures r == TWD <==> curr == "TWD"
  {
    if curr == "TWD" then TWD else USD
  }

  /** `mapTransactionTypeToFrontend` (api.ts:141-150). */
  function TransactionTypeToFrontend(tag: string): (r: TransactionType)
    ensures r == Buy <==> tag !in ["sell", "deposit", "withdraw", "dividend"]
  {
    if tag == "buy" then Buy
    else if tag == "sell" then Sell
    else if tag == "deposit" then Deposit
    else if tag == "withdraw" then Withdrawal
    else if tag == "dividend" then Dividend
    else Buy
  }

  /** `mapFrontendTransactionTypeToApi` (api.ts:152-161). */
  function FrontendTransactionTypeToApi(t: TransactionType): (r: string)
    ensures r in TRANSACTION_TAGS
  {
    match t
    case Buy => "buy"
    case Sell => "sell"
    case Deposit => "deposit"
    case Withdrawal => "withdraw"
    case Dividend => "dividend"
  }

  /** Every backend asset tag survives display and back. */
  lemma AssetTagsRoundTrip(tag: string)
    requires tag in ASSET_TAGS
    ensures FrontendTypeToApi(ApiTypeToFrontend(tag)) == tag
  {
  }

  /** Display, wire, display is the identity except for `Cash`, which comes back as `Stock`. */
  lemma DisplayTypesRoundTrip(t: AssetType)
    ensures ApiTypeToFrontend(FrontendTypeToApi(t)) == (if t == Cash then Stock else t)
  {
  }

  /** Every type the backend stores is read back as itself when it is written again. */
  lemma BackendTypesRoundTrip(k: Models.AssetType)
    ensures FrontendTypeToApi(ApiTypeToFrontend(Models.WireTag(k))) == Models.WireTag(k)
  {
    AssetTagsRoundTrip(Models.WireTag(k));
  }

  /** The currency read back from a currency's own value is that currency. */
  lemma CurrencyRoundTrip(c: Currency)
    ensures CurrencyToFrontend(CurrencyValue(c)) == c
  {
  }

  /** The two transaction-type maps are inverse on the five tags. */
  lemma TransactionTypesInverse(t: TransactionType, tag: string)
    ensures TransactionTypeToFrontend(FrontendTransactionTypeToApi(t)) == t
    ensures tag in TRANSACTION_TAGS ==> FrontendTransactionTypeToApi(TransactionTypeToFrontend(tag)) == tag
  {
  }

  // ---------------------------------------------------------------------------
  // Request outcomes and the fallback policy
  // ---------------------------------------------------------------------------

  /**
   * One `fetch` followed by `response.json()`: either something threw (the
   * network, or a body that does not parse) or a response arrived.
   */
  datatype Fetched<+T> = Thrown | Replied(status: int, body: T)

  /** `response.ok`: a status in 200-299. */
  predicate Succeeded<T>(f: Fetched<T>) {
    f.Replied? && 200 <= f.status <= 299
  }

  /** The error a failed request raises (`API Error: <status>` or the network error). */
  datatype ApiError = NetworkError | StatusError(status: int)

  function ErrorOf<T>(f: Fetched<T>): ApiError {
    if f.Replied? then StatusError(f.status) else NetworkError
  }

  /**
   * The list reads (`fetchAssets`, `fetchAccounts`, `fetchPortfolios`,
   * `fetchTransactions`, `fetchDashboardStats`): any failure resolves to the
   * static mock data instead of an error.
   */
  function ReadOrFallback<W, V>(outcome: Fetched<W>, normalise: W -> V, fallback: V): (r: V)
    ensures Succeeded(outcome) ==> r == normalise(outcome.body)
    ensures !Succeeded(outcome) ==> r == fallback
  {
    if Succeeded(outcome) then normalise(outcome.body) else fallback
  }

  /** `fetchPortfolio` and every write: a failure reaches the caller as an error. */
  function ReadOrFail<W, V>(outcome: Fetched<W>, normalise: W -> V): (r: Result<V, ApiError>)
    ensures r.Ok? <==> Succeeded(outcome)
    ensures r.Ok? ==> r.value == normalise(outcome.body)
    ensures r.Err? ==> r.error == ErrorOf(outcome)
  {
    if Succeeded(outcome) then Ok(normalise(outcome.body)) else Err(ErrorOf(outcome))
  }

  // ---------------------------------------------------------------------------
  // Assets and accounts (api.ts:165-192, 288-313)
  // ---------------------------------------------------------------------------

  /** `AssetResponse` (api.ts:10-18) without `last_updated`. */
  datatype AssetResponse = AssetResponse(id: int, ticker: string, name: string, kind: string, currency: string, currentPrice: real)

  /** The view `Asset` (types.ts:78-86) without `lastUpdated`. */
  datatype AssetView = AssetView(id: int, ticker: string, name: string, kind: AssetType, currency: Currency, currentPrice: real)

  /** The asset normaliser (api.ts:178-186). */
  function NormalizeAsset(item: AssetResponse): (r: AssetView)
    ensures r.id == item.id && r.ticker == item.ticker && r.name == item.name && r.currentPrice == item.currentPrice
    ensures item.kind in ASSET_TAGS ==> FrontendTypeToApi(r.kind) == item.kind
    ensures item.currency in ["USD", "TWD"] <==> CurrencyValue(r.currency) == item.currency
    ensures r.kind == ApiTypeToFrontend(item.kind) && r.currency == CurrencyToFrontend(item.currency)
    ensures item.kind !in ASSET_TAGS ==> r.kind == Stock
    ensures item.currency != "TWD" ==> r.currency == USD
  {
    AssetView(item.id, item.ticker, item.name, ApiTypeToFrontend(item.kind), CurrencyToFrontend(item.currency), item.currentPrice)
  }

  function NormalizeAssets(data: seq<AssetResponse>): (r: seq<AssetView>)
    ensures |r| == |data| && forall i :: 0 <= i < |r| ==> r[i] == NormalizeAsset(data[i])
  {
    seq(|data|, i requires 0 <= i < |data| => NormalizeAsset(data[i]))
  }

  /** `fetchAssets` (api.ts:165-192). */
  function FetchAssets(outcome: Fetched<seq<AssetResponse>>, mock: seq<AssetView>): (r: seq<AssetView>)
    ensures Succeeded(outcome) ==> |r| == |outcome.body| && forall i :: 0 <= i < |r| ==> r[i] == NormalizeAsset(outcome.body[i])
    ensures !Succeeded(outcome) ==> r == mock
  {
    ReadOrFallback(outcome, NormalizeAssets, mock)
  }

  /** `AccountResponse` (api.ts:20-26) without `created_at`; `total_balance` is optional. */
  datatype AccountResponse = AccountResponse(id: int, name: string, currency: string, totalBalance: Option<real>)

  /** The view `Account` (types.ts:70-76) without `lastUpdated`. */
  datatype AccountView = AccountView(id: int, name: string, currency: Currency, balance: real)

  /** The account normaliser (api.ts:301-307): a missing balance reads as `'0'`. */
  function NormalizeAccount(item: AccountResponse): (r: AccountView)
    ensures r.id == item.id && r.name == item.name
    ensures r.currency == TWD <==> item.currency == "TWD"
    ensures item.totalBalance.None? ==> r.balance == 0.0
    ensures item.totalBalance.Some? ==> r.balance == item.totalBalance.value
  {
    AccountView(item.id, item.name, CurrencyToFrontend(item.currency), item.totalBalance.GetOr(0.0))
  }

  function NormalizeAccounts(data: seq<AccountResponse>): (r: seq<AccountView>)
    ensures |r| == |data| && forall i :: 0 <= i < |r| ==> r[i] == NormalizeAccount(data[i])
  {
    seq(|data|, i requires 0 <= i < |data| => NormalizeAccount(data[i]))
  }

  /** `fetchAccounts` (api.ts:288-313). */
  function FetchAccounts(outcome: Fetched<seq<AccountResponse>>, mock: seq<AccountView>): (r: seq<AccountView>)
    ensures Succeeded(outcome) ==> |r| == |outcome.body| && forall i :: 0 <= i < |r| ==> r[i] == NormalizeAccount(outcome.body[i])
    ensures !Succeeded(outcome) ==> r == mock
  {
    ReadOrFallback(outcome, NormalizeAccounts, mock)
  }

  /** An account the backend serves is shown with the balance the backend computed for it. */
  lemma ShownBalanceIsBackendBalance(a: AccountService.AccountRead)
    requires a.currency in ["USD", "TWD"]
    ensures NormalizeAccount(AccountResponse(a.id, a.name, a.currency, Some(a.totalBalance))).balance == a.totalBalance
    ensures CurrencyValue(NormalizeAccount(AccountResponse(a.id, a.name, a.currency, Some(a.totalBalance))).currency) == a.currency
  {
  }

  // ---------------------------------------------------------------------------
  // Portfolios (api.ts:375-463)
  // ---------------------------------------------------------------------------

  /** `PortfolioListItemResponse` (api.ts:42-48); the view `PortfolioListItem` has the same fields. */
  datatype PortfolioListItem = PortfolioListItem(id: int, name: string, totalValue: real, dailyChange: real, dailyChangePercent: real)

  /** `fetchPortfolios` (api.ts:375-396): the list passes through field by field. */
  function FetchPortfolios(outcome: Fetched<seq<PortfolioListItem>>, mock: seq<PortfolioListItem>): (r: seq<PortfolioListItem>)
    ensures Succeeded(outcome) ==> r == outcome.body
    ensures !Succeeded(outcome) ==> r == mock
  {
    ReadOrFallback(outcome, (data: seq<PortfolioListItem>) => data, mock)
  }

  /** `PortfolioResponse` (api.ts:50-56) without `created_at`. */
  datatype PortfolioResponse = PortfolioResponse(id: int, name: string, description: Option<string>, accounts: seq<AccountResponse>)

  /** The view `Portfolio` (types.ts:62-68) without `createdAt`. */
  datatype PortfolioView = PortfolioView(id: int, name: string, description: Option<string>, accountIds: seq<int>)

  /** The portfolio normaliser (api.ts:407-413): the linked accounts become their ids, in order. */
  function NormalizePortfolio(data: PortfolioResponse): (r: PortfolioView)
    ensures r.id == data.id && r.name == data.name && r.description == data.description
    ensures |r.accountIds| == |data.accounts| && forall i :: 0 <= i < |r.accountIds| ==> r.accountIds[i] == data.accounts[i].id
  {
    PortfolioView(data.id, data.name, data.description,
      seq(|data.accounts|, i requires 0 <= i < |data.accounts| => data.accounts[i].id))
  }

  /** `fetchPortfolio` (api.ts:398-414): no fallback, a failure propagates. */
  function FetchPortfolio(outcome: Fetched<PortfolioResponse>): (r: Result<PortfolioView, ApiError>)
    ensures r.Ok? <==> Succeeded(outcome)
    ensures r.Ok? ==> r.value == NormalizePortfolio(outcome.body)
  {
    ReadOrFail(outcome, NormalizePortfolio)
  }

  /** The holdings palette (api.ts:428). */
  const HOLDING_COLORS: seq<string> := ["#3b82f6", "#ec4899", "#eab308", "#14b8a6", "#a855f7", "#f97316", "#6366f1"]

  /** `HoldingItemResponse` (api.ts:58-69); the view `Holding` (types.ts:89-101) adds `color`. */
  datatype HoldingItem = HoldingItem(
    id: string, ticker: string, name: string, currentPrice: real, quantity: real, averageCost: real,
    marketValue: real, profit: real, profitPercent: real, allocation: real)

  datatype HoldingView = HoldingView(item: HoldingItem, color: string)

  /** `AccountSummaryItemResponse` (api.ts:71-76); the view `ConnectedAccount` has the same fields. */
  datatype ConnectedAccount = ConnectedAccount(id: int, name: string, kind: string, balance: real)

  /** `PortfolioSummaryResponse` (api.ts:78-88). */
  datatype SummaryResponse = SummaryResponse(
    id: int, name: string, totalValue: real, totalProfit: real, totalProfitPercent: real,
    dailyChange: real, dailyChangePercent: real, holdings: seq<HoldingItem>, accounts: seq<ConnectedAccount>)

  /** The view `PortfolioSummary` (types.ts:110-120). */
  datatype PortfolioSummary = PortfolioSummary(
    id: int, name: string, totalValue: real, totalProfit: real, totalProfitPercent: real,
    dailyChange: real, dailyChangePercent: real, holdings: seq<HoldingView>, accounts: seq<ConnectedAccount>)

  /** The holdings map (api.ts:438-450): holding `i` gets the palette entry `i mod 7`. */
  function HoldingViews(holdings: seq<HoldingItem>): (r: seq<HoldingView>)
    ensures |r| == |holdings|
    ensures forall i :: 0 <= i < |r| ==> r[i].item == holdings[i] && r[i].color == HOLDING_COLORS[i % |HOLDING_COLORS|]
  {
    seq(|holdings|, i requires 0 <= i < |holdings| => HoldingView(holdings[i], HOLDING_COLORS[i % |HOLDING_COLORS|]))
  }

  /** Two holdings share a colour exactly when their positions are congruent modulo 7. */
  lemma PaletteCycles(holdings: seq<HoldingItem>, i: nat, j: nat)
    requires i < |holdings| && j < |holdings|
    ensures HoldingViews(holdings)[i].color == HoldingViews(holdings)[j].color <==> i % 7 == j % 7
  {
    var r := HoldingViews(holdings);
    assert r[i].color == HOLDING_COLORS[i % 7] && r[j].color == HOLDING_COLORS[j % 7];
    assert forall a, b :: 0 <= a < b < 7 ==> HOLDING_COLORS[a] != HOLDING_COLORS[b];
  }

  /** The summary normaliser (api.ts:430-457). */
  function NormalizeSummary(data: SummaryResponse): (r: PortfolioSummary)
    ensures r.id == data.id && r.name == data.name && r.totalValue == data.totalValue
    ensures r.totalProfit == data.totalProfit && r.totalProfitPercent == data.totalProfitPercent
    ensures r.dailyChange == data.dailyChange && r.dailyChangePercent == data.dailyChangePercent
    ensures r.holdings == HoldingViews(data.holdings) && r.accounts == data.accounts
  {
    PortfolioSummary(data.id, data.name, data.totalValue, data.totalProfit, data.totalProfitPercent,
      data.dailyChange, data.dailyChangePercent, HoldingViews(data.holdings), data.accounts)
  }

  /** `fetchPortfolioSummary` (api.ts:416-463): only portfolio `'1'` falls back to the mock details. */
  function FetchPortfolioSummary(id: string, outcome: Fetched<SummaryResponse>, mock: PortfolioSummary): (r: Result<PortfolioSummary, ApiError>)
    ensures r.Err? <==> !Succeeded(outcome) && id != "1"
    ensures Succeeded(outcome) ==> r == Ok(NormalizeSummary(outcome.body))
    ensures !Succeeded(outcome) && id == "1" ==> r == Ok(mock)
    ensures r.Err? ==> r.error == ErrorOf(outcome)
  {
    var read := ReadOrFail(outcome, NormalizeSummary);
    if read.Err? && id == "1" then Ok(mock) else read
  }

  // ---------------------------------------------------------------------------
  // Transactions (api.ts:507-603)
  // ---------------------------------------------------------------------------

  /** `TransactionResponse` (api.ts:28-40) without `transaction_time`. */
  datatype TransactionResponse = TransactionResponse(
    id: int, accountId: int, accountName: string, assetId: Option<int>, assetName: Option<string>,
    kind: string, quantity: Option<real>, pricePerUnit: Option<real>, fee: real, notes: Option<string>)

  /** The view `Transaction` (types.ts:24-38) without `date`. */
  datatype TransactionView = TransactionView(
    id: int, accountId: int, accountName: string, kind: TransactionType, assetId: Option<int>,
    assetSymbol: string, quantity: Option<real>, pricePerUnit: Option<real>, amount: real, fee: real,
    currency: Currency, notes: Option<string>)

  /** `item.asset_id` is truthy: present and not 0. */
  predicate HasAsset(item: TransactionResponse) {
    item.assetId.Some? && item.assetId.value != 0
  }

  /**
   * The transaction normaliser (api.ts:527-552): quantity and price default
   * to 0, a missing or zero price of a non-zero quantity without an asset
   * is taken as 1 (face value), and the amount is their product.
   */
  function NormalizeTransaction(item: TransactionResponse): (r: TransactionView)
    ensures r.id == item.id && r.accountId == item.accountId && r.accountName == item.accountName
    ensures r.fee == item.fee && r.notes == item.notes
    ensures r.quantity == item.quantity
    ensures r.pricePerUnit.None? <==> item.pricePerUnit.None?
    ensures item.pricePerUnit == Some(0.0) ==>
      r.pricePerUnit == Some(if !HasAsset(item) && item.quantity.GetOr(0.0) != 0.0 then 1.0 else 0.0)
    ensures r.quantity.Some? && r.pricePerUnit.Some? ==> r.amount == r.quantity.value * r.pricePerUnit.value
    ensures HasAsset(item) ==> r.amount == item.quantity.GetOr(0.0) * item.pricePerUnit.GetOr(0.0)
    ensures !HasAsset(item) && item.pricePerUnit.GetOr(0.0) == 0.0 ==> r.amount == item.quantity.GetOr(0.0)
    ensures item.pricePerUnit.Some? && item.pricePerUnit.value != 0.0 ==> r.pricePerUnit == item.pricePerUnit
    ensures r.assetId.Some? <==> HasAsset(item)
    ensures r.assetId.Some? ==> r.assetId == item.assetId
    ensures item.assetName.Some? && item.assetName.value != "" ==> r.assetSymbol == item.assetName.value
    ensures item.assetName.None? || item.assetName.value == "" ==> r.assetSymbol == "-"
    ensures r.kind == TransactionTypeToFrontend(item.kind) && r.currency == USD
  {
    var quantity := item.quantity.GetOr(0.0);
    var wirePrice := item.pricePerUnit.GetOr(0.0);
    var price := if wirePrice == 0.0 && !HasAsset(item) && quantity != 0.0 then 1.0 else wirePrice;
    TransactionView(
      item.id, item.accountId, item.accountName, TransactionTypeToFrontend(item.kind),
      if HasAsset(item) then item.assetId else None,
      if item.assetName.Some? && item.assetName.value != "" then item.assetName.value else "-",
      if item.quantity.Some? then Some(quantity) else None,
      if item.pricePerUnit.Some? then Some(price) else None,
      quantity * price, item.fee, USD, item.notes)
  }

  /** The normaliser as written, with `let price` reassigned (api.ts:528-551). */
  method NormalizeTransactionItem(item: TransactionResponse) returns (r: TransactionView)
    ensures r == NormalizeTransaction(item)
  {
    var quantity := if item.quantity.Some? then item.quantity.value else 0.0;
    var price := if item.pricePerUnit.Some? then item.pricePerUnit.value else 0.0;
    if price == 0.0 && !(item.assetId.Some? && item.assetId.value != 0) && quantity != 0.0 {
      price := 1.0;
    }
    var amount := quantity * price;
    r := TransactionView(
      item.id, item.accountId, item.accountName, TransactionTypeToFrontend(item.kind),
      if HasAsset(item) then item.assetId else None,
      if item.assetName.Some? && item.assetName.value != "" then item.assetName.value else "-",
      if item.quantity.Some? then Some(quantity) else None,
      if item.pricePerUnit.Some? then Some(price) else None,
      amount, item.fee, USD, item.notes);
  }

  /** A transaction the frontend lists shows a zero amount exactly when it moves nothing or is priced at 0. */
  lemma ZeroAmountMeaning(item: TransactionResponse)
    ensures NormalizeTransaction(item).amount == 0.0 <==>
      item.quantity.GetOr(0.0) == 0.0 || (HasAsset(item) && item.pricePerUnit.GetOr(0.0) == 0.0)
  {
    var q, p := item.quantity.GetOr(0.0), item.pricePerUnit.GetOr(0.0);
    var r := NormalizeTransaction(item);
    if HasAsset(item) {
      assert r.amount == q * p;
    } else if p == 0.0 {
      assert r.amount == q;
    } else {
      assert r.amount == q * p;
    }
  }

  function NormalizeTransactions(data: seq<TransactionResponse>): (r: seq<TransactionView>)
    ensures |r| == |data| && forall i :: 0 <= i < |r| ==> r[i] == NormalizeTransaction(data[i])
  {
    seq(|data|, i requires 0 <= i < |data| => NormalizeTransaction(data[i]))
  }

  /** `fetchTransactions` (api.ts:507-559) once the request is made. */
  function FetchTransactions(outcome: Fetched<seq<TransactionResponse>>, mock: seq<TransactionView>): (r: seq<TransactionView>)
    ensures Succeeded(outcome) ==> |r| == |outcome.body| && forall i :: 0 <= i < |r| ==> r[i] == NormalizeTransaction(outcome.body[i])
    ensures !Succeeded(outcome) ==> r == mock
  {
    ReadOrFallback(outcome, NormalizeTransactions, mock)
  }

  /** A decimal digit. */
  function DigitChar(d: nat): char
    requires d < 10
  {
    (48 + d) as char
  }

  /** `Number.prototype.toString()` of a natural number. */
  function NatText(n: nat): (r: string)
    ensures |r| >= 1
    decreases n
  {
    if n < 10 then [DigitChar(n)] else NatText(n / 10) + [DigitChar(n % 10)]
  }

  /** `Number.prototype.toString()` of an integer. */
  function IntText(n: int): string {
    if n < 0 then "-" + NatText(-n) else NatText(n)
  }

  /** A decimal reader for the texts `NatText` and `IntText` produce; a character that is not a digit reads as 0. */
  function ParseNat(s: string): nat
    decreases |s|
  {
    if s == [] then 0
    else
      var c := s[|s| - 1];
      ParseNat(s[..|s| - 1]) * 10 + (if '0' <= c <= '9' then c as int - 48 else 0)
  }

  function ParseInt(s: string): int {
    if |s| > 0 && s[0] == '-' then -(ParseNat(s[1..]) as int) else ParseNat(s)
  }

  lemma {:induction false} ParseNatText(n: nat)
    ensures ParseNat(NatText(n)) == n
    decreases n
  {
    if n >= 10 {
      ParseNatText(n / 10);
      var s := NatText(n);
      assert s[..|s| - 1] == NatText(n / 10);
      assert s[|s| - 1] == DigitChar(n % 10);
    }
  }

  /** The number sent as text is the number the backend reads. */
  lemma ParseIntText(n: int)
    ensures ParseInt(IntText(n)) == n
  {
    if n < 0 {
      ParseNatText(-n);
      assert ("-" + NatText(-n))[1..] == NatText(-n);
    } else {
      ParseNatText(n);
      assert NatText(n)[0] != '-' by {
        if n >= 10 {
          NatTextHead(n);
        }
      }
    }
  }

  lemma {:induction false} NatTextHead(n: nat)
    ensures '0' <= NatText(n)[0] <= '9'
    decreases n
  {
    if n >= 10 {
      NatTextHead(n / 10);
    }
  }

  /** The keys `fetchTransactions` appends. */
  datatype QueryKey = LimitKey | OffsetKey | AccountIdKey

  /** The text of a key in the query string. */
  function KeyName(k: QueryKey): string {
    match k
    case LimitKey => "limit"
    case OffsetKey => "offset"
    case AccountIdKey => "account_id"
  }

  /** The default `'100'` is the text of the number 100, and reads back as 100. */
  lemma DefaultLimitText()
    ensures IntText(100) == "100"
    ensures ParseInt("100") == 100
  {
    assert NatText(10) == "10";
    ParseIntText(100);
  }

  /** One query parameter in `URLSearchParams` order. */
  datatype QueryParam = QueryParam(key: QueryKey, value: string)

  /** The list-query options (`params`, api.ts:507): absent, or a falsy 0 / empty id. */
  predicate Given(n: Option<int>) {
    n.Some? && n.value != 0
  }

  /** `URLSearchParams.get`: the value of the first parameter with key `k`, if any. */
  function Lookup(query: seq<QueryParam>, k: QueryKey): (r: Option<string>)
    ensures r.None? <==> forall i :: 0 <= i < |query| ==> query[i].key != k
    ensures r.Some? ==> exists i :: 0 <= i < |query| && query[i] == QueryParam(k, r.value)
    decreases |query|
  {
    if query == [] then None
    else if query[0].key == k then Some(query[0].value)
    else
      var r := Lookup(query[1..], k);
      assert forall i :: 1 <= i < |query| ==> query[i] == query[1..][i - 1];
      r
  }

  /** Appending a parameter changes the lookup only of a key that was not there yet. */
  lemma {:induction false} LookupSnoc(query: seq<QueryParam>, p: QueryParam, k: QueryKey)
    ensures Lookup(query + [p], k) ==
      if Lookup(query, k).Some? then Lookup(query, k) else if p.key == k then Some(p.value) else None
    decreases |query|
  {
    if query != [] {
      assert (query + [p])[1..] == query[1..] + [p];
      LookupSnoc(query[1..], p, k);
    } else {
      assert ([] + [p])[1..] == [];
    }
  }

  /** No key occurs twice. */
  predicate DistinctKeys(query: seq<QueryParam>) {
    forall i, j :: 0 <= i < j < |query| ==> query[i].key != query[j].key
  }

  /** Appending a key that is not there yet keeps the keys distinct. */
  lemma DistinctSnoc(query: seq<QueryParam>, p: QueryParam)
    requires DistinctKeys(query) && Lookup(query, p.key).None?
    ensures DistinctKeys(query + [p])
  {
  }

  /**
   * The query string of `fetchTransactions` (api.ts:509-514): the limit comes
   * first, no key is repeated, and each number is sent as its `toString()`
   * text, which `ParseIntText` reads back.
   */
  method BuildTransactionQuery(limit: Option<int>, offset: Option<int>, accountId: Option<string>) returns (query: seq<QueryParam>)
    ensures 1 <= |query| <= 3 && query[0].key == LimitKey
    ensures DistinctKeys(query)
    ensures Lookup(query, LimitKey) == Some(IntText(if Given(limit) then limit.value else 100))
    ensures Lookup(query, OffsetKey) == (if Given(offset) then Some(IntText(offset.value)) else None)
    ensures Lookup(query, AccountIdKey) == (if Filled(accountId) then Some(accountId.value) else None)
  {
    if limit.Some? && limit.value != 0 {
      query := [QueryParam(LimitKey, IntText(limit.value))];
    } else {
      DefaultLimitText();
      query := [QueryParam(LimitKey, "100")];
    }
    assert Lookup(query, OffsetKey) == None && Lookup(query, AccountIdKey) == None;
    if offset.Some? && offset.value != 0 {
      var p := QueryParam(OffsetKey, IntText(offset.value));
      DistinctSnoc(query, p);
      forall k {
        LookupSnoc(query, p, k);
      }
      query := query + [p];
    }
    if accountId.Some? && accountId.value != "" {
      var p := QueryParam(AccountIdKey, accountId.value);
      DistinctSnoc(query, p);
      forall k {
        LookupSnoc(query, p, k);
      }
      query := query + [p];
    }
  }

  /**
   * The fields of `Partial<Transaction>` that `updateTransaction` reads: ids
   * are `None` when absent or empty; `quantity`/`pricePerUnit` distinguish
   * absent (`None`) from null (`Some(None)`); `date` is opaque text.
   */
  datatype TransactionEdits = TransactionEdits(
    accountId: Option<int>, assetId: Option<int>, kind: Option<TransactionType>,
    quantity: Option<Option<real>>, pricePerUnit: Option<Option<real>>, fee: Option<real>,
    date: Option<string>, notes: Option<string>)

  /** `TransactionUpdateRequest` (types.ts:172-181); `None` is a key left out of the JSON. */
  datatype TransactionUpdateRequest = TransactionUpdateRequest(
    accountId: Option<int>, assetId: Option<Option<int>>, kind: Option<string>,
    quantity: Option<Option<real>>, pricePerUnit: Option<Option<real>>, fee: Option<real>,
    transactionTime: Option<string>, notes: Option<string>)

  /** The payload of `updateTransaction` (api.ts:585-594), built field by field. */
  method BuildTransactionUpdate(tx: TransactionEdits) returns (payload: TransactionUpdateRequest)
    ensures payload.accountId == tx.accountId
    ensures payload.assetId.Some? <==> tx.assetId.Some?
    ensures payload.assetId.Some? ==> payload.assetId.value == tx.assetId
    ensures payload.kind.Some? <==> tx.kind.Some?
    ensures payload.kind.Some? ==> TransactionTypeToFrontend(payload.kind.value) == tx.kind.value
    ensures payload.kind.Some? ==> payload.kind.value == FrontendTransactionTypeToApi(tx.kind.value)
    ensures payload.quantity == tx.quantity && payload.pricePerUnit == tx.pricePerUnit && payload.fee == tx.fee
    ensures payload.transactionTime.Some? <==> tx.date.Some? && tx.date.value != ""
    ensures payload.transactionTime.Some? ==> payload.transactionTime == tx.date
    ensures payload.notes == tx.notes
  {
    var accountId, assetId, kind := None, None, None;
    var quantity, pricePerUnit, fee, transactionTime, notes := None, None, None, None, None;
    if tx.accountId.Some? {
      accountId := tx.accountId;
    }
    if tx.assetId.Some? {
      assetId := Some(tx.assetId);
    }
    if tx.kind.Some? {
      TransactionTypesInverse(tx.kind.value, "");
      kind := Some(FrontendTransactionTypeToApi(tx.kind.value));
    }
    if tx.quantity.Some? {
      quantity := tx.quantity;
    }
    if tx.pricePerUnit.Some? {
      pricePerUnit := tx.pricePerUnit;
    }
    if tx.fee.Some? {
      fee := tx.fee;
    }
    if tx.date.Some? && tx.date.value != "" {
      transactionTime := tx.date;
    }
    if tx.notes.Some? {
      notes := tx.notes;
    }
    payload := TransactionUpdateRequest(accountId, assetId, kind, quantity, pricePerUnit, fee, transactionTime, notes);
  }

  /** The fields of `updateAsset`'s `updates` argument (api.ts:250). */
  datatype AssetEdits = AssetEdits(
    ticker: Option<string>, name: Option<string>, kind: Option<AssetType>, currency: Option<Currency>, currentPrice: Option<real>)

  /** `AssetUpdateRequest` (types.ts:131-137). */
  datatype AssetUpdateRequest = AssetUpdateRequest(
    ticker: Option<string>, name: Option<string>, kind: Option<string>, currency: Option<string>, currentPrice: Option<real>)

  /** A string field that `if (field)` lets through: present and non-empty. */
  predicate Filled(s: Option<string>) {
    s.Some? && s.value != ""
  }

  /** What `updateAsset` sends (api.ts:250-256): the backend's `AssetUpdate` with unset fields left out. */
  predicate SendsAssetEdits(u: AssetEdits, payload: AssetUpdateRequest) {
    payload.ticker == (if Filled(u.ticker) then u.ticker else None) &&
    payload.name == (if Filled(u.name) then u.name else None) &&
    payload.kind == (if u.kind.Some? then Some(FrontendTypeToApi(u.kind.value)) else None) &&
    payload.currency == (if u.currency.Some? then Some(CurrencyValue(u.currency.value)) else None) &&
    payload.currentPrice == u.currentPrice
  }

  /** The payload of `updateAsset` (api.ts:251-256), built field by field. */
  method BuildAssetUpdate(updates: AssetEdits) returns (payload: AssetUpdateRequest)
    ensures SendsAssetEdits(updates, payload)
    ensures payload.ticker.Some? <==> Filled(updates.ticker)
    ensures payload.ticker.Some? ==> payload.ticker == updates.ticker
    ensures payload.name.Some? <==> Filled(updates.name)
    ensures payload.name.Some? ==> payload.name == updates.name
    ensures payload.kind.Some? <==> updates.kind.Some?
    ensures payload.kind.Some? ==> payload.kind.value in ASSET_TAGS
    ensures payload.kind.Some? ==> ApiTypeToFrontend(payload.kind.value) == (if updates.kind.value == Cash then Stock else updates.kind.value)
    ensures payload.currency.Some? <==> updates.currency.Some?
    ensures payload.kind.Some? ==> payload.kind.value == FrontendTypeToApi(updates.kind.value)
    ensures payload.currency.Some? ==> CurrencyToFrontend(payload.currency.value) == updates.currency.value
    ensures payload.currency.Some? ==> payload.currency.value == CurrencyValue(updates.currency.value)
    ensures payload.currentPrice == updates.currentPrice
  {
    payload := AssetUpdateRequest(None, None, None, None, None);
    if updates.ticker.Some? && updates.ticker.value != "" {
      payload := payload.(ticker := updates.ticker);
    }
    if updates.name.Some? && updates.name.value != "" {
      payload := payload.(name := updates.name);
    }
    if updates.kind.Some? {
      DisplayTypesRoundTrip(updates.kind.value);
      payload := payload.(kind := Some(FrontendTypeToApi(updates.kind.value)));
    }
    if updates.currency.Some? {
      CurrencyRoundTrip(updates.currency.value);
      payload := payload.(currency := Some(CurrencyValue(updates.currency.value)));
    }
    if updates.currentPrice.Some? {
      payload := payload.(currentPrice := updates.currentPrice);
    }
  }

  /**
   * Writing back a fetched asset unedited: for a backend type tag, a currency of
   * "USD" or "TWD" and a non-empty ticker and name, `normalizeAsset` followed by
   * `updateAsset` sends every field as the backend sent it.
   */
  lemma AssetEditRoundTrip(item: AssetResponse, payload: AssetUpdateRequest)
    requires item.kind in ASSET_TAGS && item.currency in ["USD", "TWD"] && item.ticker != "" && item.name != ""
    requires var v := NormalizeAsset(item);
      SendsAssetEdits(AssetEdits(Some(v.ticker), Some(v.name), Some(v.kind), Some(v.currency), Some(v.currentPrice)), payload)
    ensures payload == AssetUpdateRequest(Some(item.ticker), Some(item.name), Some(item.kind), Some(item.currency), Some(item.currentPrice))
  {
    AssetTagsRoundTrip(item.kind);
  }

  /** The fields of `updateAccount`'s `updates` argument (api.ts:342). */
  datatype AccountEdits = AccountEdits(name: Option<string>, currency: Option<Currency>)

  /** What `updateAccount` sends (api.ts:343-345): the backend's `AccountUpdate` with unset fields left out. */
  predicate SendsAccountEdits(u: AccountEdits, payload: AccountService.AccountUpdate) {
    payload.name == (if Filled(u.name) then u.name else None) &&
    payload.currency == (if u.currency.Some? then Some(CurrencyValue(u.currency.value)) else None)
  }

  /** The payload of `updateAccount` (api.ts:343-345), built field by field. */
  method BuildAccountUpdate(updates: AccountEdits) returns (payload: AccountService.AccountUpdate)
    ensures SendsAccountEdits(updates, payload)
  {
    payload := AccountService.AccountUpdate(None, None);
    if updates.name.Some? && updates.name.value != "" {
      payload := payload.(name := updates.name);
    }
    if updates.currency.Some? {
      payload := payload.(currency := Some(CurrencyValue(updates.currency.value)));
    }
  }

  /**
   * An account edit as the backend applies it: a cleared name never reaches
   * the backend, so the stored name is kept; a chosen currency is stored as its value.
   */
  lemma AccountEditMeaning(a: Models.Account, u: AccountEdits, payload: AccountService.AccountUpdate)
    requires SendsAccountEdits(u, payload)
    ensures AccountService.PatchedAccount(a, payload).name == (if Filled(u.name) then u.name.value else a.name)
    ensures u.currency.Some? ==> CurrencyToFrontend(AccountService.PatchedAccount(a, payload).currency) == u.currency.value
    ensures u.currency.None? ==> AccountService.PatchedAccount(a, payload).currency == a.currency
  {
    if u.currency.Some? {
      CurrencyRoundTrip(u.currency.value);
    }
  }

  /** The fields of `updatePortfolio`'s `data` argument (api.ts:481). */
  datatype PortfolioEdits = PortfolioEdits(name: Option<string>, description: Option<string>, accountIds: Option<seq<int>>)

  /** `PortfolioUpdateRequest` (types.ts:155-159). */
  datatype PortfolioUpdateRequest = PortfolioUpdateRequest(name: Option<string>, description: Option<string>, accountIds: Option<seq<int>>)

  /** The payload of `updatePortfolio` (api.ts:482-485); an array, even an empty one, is truthy. */
  method BuildPortfolioUpdate(data: PortfolioEdits) returns (payload: PortfolioUpdateRequest)
    ensures payload.name.Some? <==> Filled(data.name)
    ensures payload.name.Some? ==> payload.name == data.name
    ensures payload.description == data.description
    ensures payload.accountIds == data.accountIds
  {
    payload := PortfolioUpdateRequest(None, None, None);
    if data.name.Some? && data.name.value != "" {
      payload := payload.(name := data.name);
    }
    if data.description.Some? {
      payload := payload.(description := data.description);
    }
    if data.accountIds.Some? {
      payload := payload.(accountIds := data.accountIds);
    }
  }

  /** The request as `update_portfolio` reads it: a sent description is set, possibly to "". */
  function AsPortfolioUpdate(p: PortfolioUpdateRequest): PortfolioService.PortfolioUpdate {
    PortfolioService.PortfolioUpdate(p.name, if p.description.Some? then Some(p.description) else None, p.accountIds)
  }

  /**
   * A portfolio edit as the backend applies it: the link set is replaced
   * whenever a selection is sent, so an empty selection unlinks every account.
   */
  lemma PortfolioEditMeaning(existing: seq<int>, q: PortfolioService.Portfolio, data: PortfolioEdits, p: PortfolioUpdateRequest)
    requires (p.name.Some? <==> Filled(data.name)) && (p.name.Some? ==> p.name == data.name)
    requires p.description == data.description && p.accountIds == data.accountIds
    ensures data.accountIds == Some([]) ==> PortfolioService.Updated(existing, q, AsPortfolioUpdate(p)).links == {}
    ensures data.accountIds.None? ==> PortfolioService.Updated(existing, q, AsPortfolioUpdate(p)).links == q.links
    ensures PortfolioService.Updated(existing, q, AsPortfolioUpdate(p)).name == (if Filled(data.name) then data.name.value else q.name)
    ensures data.description.Some? ==> PortfolioService.Updated(existing, q, AsPortfolioUpdate(p)).description == data.description
  {
    if data.accountIds == Some([]) {
      PortfolioService.EmptyListClearsLinks(existing, q, AsPortfolioUpdate(p));
    }
  }

  // ---------------------------------------------------------------------------
  // Dashboard stats (api.ts:615-673)
  // ---------------------------------------------------------------------------

  /** One allocation entry of `DashboardStatsResponse` (api.ts:97-101). */
  datatype AllocationEntry = AllocationEntry(labelText: string, value: real, percentage: real)

  /** `DashboardStatsResponse` (api.ts:90-102). */
  datatype StatsResponse = StatsResponse(
    netWorth: real, netWorthChange24h: real, totalProfit: real, totalProfitChange24h: real,
    topPerformerName: Option<string>, topPerformerChange: Option<real>, allocation: seq<AllocationEntry>)

  /** `AssetAllocation` (types.ts:40-44). */
  datatype AssetAllocation = AssetAllocation(kind: AssetType, value: real, color: string)

  /** `DashboardStats` as `fetchDashboardStats` builds it (api.ts:651-659). */
  datatype DashboardStats = DashboardStats(
    netWorth: real, netWorthChange: real, totalProfit: real, totalProfitChange: real,
    topPerformerName: Option<string>, topPerformerChange: Option<real>, allocation: seq<AssetAllocation>)

  /** `toLowerCase` on ASCII letters. */
  function LowerChar(c: char): char {
    if 'A' <= c <= 'Z' then (c as int + 32) as char else c
  }

  function Lower(s: string): (r: string)
    ensures |r| == |s| && forall i :: 0 <= i < |s| ==> r[i] == LowerChar(s[i])
  {
    seq(|s|, i requires 0 <= i < |s| => LowerChar(s[i]))
  }

  /** The fixed colour map `colors` (api.ts:626-632). */
  function FixedColor(lowerLabel: string): Option<string> {
    if lowerLabel == "stock" then Some("#3b82f6")
    else if lowerLabel == "etf" then Some("#10b981")
    else if lowerLabel == "crypto" then Some("#f97316")
    else if lowerLabel == "cash" then Some("#9ca3af")
    else if lowerLabel == "fiat" then Some("#6b7280")
    else None
  }

  /** `defaultColors` (api.ts:633). */
  const DEFAULT_COLORS: seq<string> := ["#3b82f6", "#10b981", "#f97316", "#9ca3af", "#eab308", "#ec4899"]

  /** The type of an allocation label (api.ts:637-642). */
  function LabelType(lowerLabel: string): (r: AssetType)
    ensures r == Stock <==> lowerLabel !in ["crypto", "etf", "cash", "fiat"]
  {
    if lowerLabel == "crypto" then Crypto
    else if lowerLabel == "etf" then ETF
    else if lowerLabel == "cash" then Cash
    else if lowerLabel == "fiat" then Fiat
    else Stock
  }

  /** The allocation map (api.ts:635-649). */
  function AllocationViews(items: seq<AllocationEntry>): (r: seq<AssetAllocation>)
    ensures |r| == |items|
    ensures forall i :: 0 <= i < |r| ==> r[i].value == items[i].value && r[i].kind == LabelType(Lower(items[i].labelText))
    ensures forall i :: 0 <= i < |r| && FixedColor(Lower(items[i].labelText)).Some? ==> r[i].color == FixedColor(Lower(items[i].labelText)).value
    ensures forall i :: 0 <= i < |r| && FixedColor(Lower(items[i].labelText)).None? ==> r[i].color == DEFAULT_COLORS[i % |DEFAULT_COLORS|]
  {
    seq(|items|, i requires 0 <= i < |items| =>
      var lowerLabel := Lower(items[i].labelText);
      AssetAllocation(LabelType(lowerLabel), items[i].value, FixedColor(lowerLabel).GetOr(DEFAULT_COLORS[i % |DEFAULT_COLORS|])))
  }

  /**
   * The labels the backend sends are its asset tags: each gets its own fixed
   * colour, never a positional one, and the same type the asset maps give it.
   */
  lemma BackendLabelsGetFixedColours(k: Models.AssetType)
    ensures Lower(Models.WireTag(k)) == Models.WireTag(k)
    ensures FixedColor(Models.WireTag(k)).Some?
    ensures LabelType(Models.WireTag(k)) == ApiTypeToFrontend(Models.WireTag(k))
  {
    var tag := Models.WireTag(k);
    assert forall i :: 0 <= i < |tag| ==> !('A' <= tag[i] <= 'Z');
  }

  /** The stats normaliser (api.ts:651-659). */
  function NormalizeStats(data: StatsResponse): (r: DashboardStats)
    ensures r.netWorth == data.netWorth && r.totalProfit == data.totalProfit
    ensures r.netWorthChange == data.netWorthChange24h && r.totalProfitChange == data.totalProfitChange24h
    ensures r.topPerformerName == data.topPerformerName && r.topPerformerChange == data.topPerformerChange
    ensures r.allocation == AllocationViews(data.allocation)
  {
    DashboardStats(data.netWorth, data.netWorthChange24h, data.totalProfit, data.totalProfitChange24h,
      data.topPerformerName, data.topPerformerChange, AllocationViews(data.allocation))
  }

  /** `fetchDashboardStats` (api.ts:615-673): a failure shows the mock KPIs and allocation. */
  function FetchDashboardStats(outcome: Fetched<StatsResponse>, mock: DashboardStats): (r: DashboardStats)
    ensures Succeeded(outcome) ==> r == NormalizeStats(outcome.body)
    ensures !Succeeded(outcome) ==> r == mock
  {
    ReadOrFallback(outcome, NormalizeStats, mock)
  }
}
