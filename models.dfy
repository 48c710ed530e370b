/**
 * Declarations shared by the backend services: the table rows of
 * the backend model files and the request schemas.
 * Columns typed `Decimal` are modelled as exact `real`s. The source rounds in
 * the 28-digit `Decimal` context and on storage in `NUMERIC(20, 10)` columns;
 * README's "## Left out" names the lemmas this affects.
 * nullable columns are `Option`.
 */
module Models {
  import opened Wrappers

  /** `TransactionType` (models/transacions.py:7-12). */
  datatype TxnType = Buy | Sell | Deposit | Withdraw | Dividend

  /** `AssetType` (models/assets.py:7-11). */
  datatype AssetType = Crypto | Stock | Etf | Fiat

  /** The enum's string value, `asset.type.value`. */
  function WireTag(t: AssetType): string {
    match t
    case Crypto => "crypto"
    case Stock => "stock"
    case Etf => "etf"
    case Fiat => "fiat"
  }

  lemma WireTagInjective(a: AssetType, b: AssetType)
    ensures WireTag(a) == WireTag(b) ==> a == b
  {
    if a != b {
      // the four tags already differ in their first letter
      assert WireTag(a)[0] != WireTag(b)[0];
    }
  }

  /**
   * A `transactions` row (models/transacions.py:14-27). `quantity` and
   * `price_per_unit` are nullable, `fee` is NOT NULL with default 0, and the
   * timestamp is an ordinal `time` (only its order is used).
   */
  datatype Txn = Txn(
    accountId: int,
    assetId: Option<int>,
    kind: TxnType,
    quantity: Option<real>,
    pricePerUnit: Option<real>,
    fee: real,
    time: int,
    notes: Option<string>)

  /** A `positions` row (models/transacions.py:29-42) without its keys, which index the store. */
  datatype Position = Position(totalQuantity: real, averageCost: real)

  /** An `assets` row (models/assets.py:13-23); the row id is the asset's place in its table. */
  datatype Asset = Asset(ticker: string, name: string, kind: AssetType, currency: string, currentPrice: real)

  /** An `accounts` row (models/accounts.py:5-11) without its creation timestamp. */
  datatype Account = Account(id: int, name: string, currency: string)

  /** The primary keys of the `accounts` table, in table order. */
  function AccountIds(accounts: seq<Account>): (r: seq<int>)
    ensures |r| == |accounts| && forall i :: 0 <= i < |r| ==> r[i] == accounts[i].id
  {
    seq(|accounts|, i requires 0 <= i < |accounts| => accounts[i].id)
  }

  /**
   * One row of the join `Position JOIN Asset ON position.asset_id = asset.id`
   * (account.py:29-33 filters it by account, dashboard.py:31-32 takes all of it).
   */
  datatype Holding = Holding(accountId: int, position: Position, asset: Asset)

  /** `total_quantity * current_price` (account.py:47, dashboard.py:45). */
  function MarketValue(h: Holding): real {
    h.position.totalQuantity * h.asset.currentPrice
  }

  /** `total_quantity * average_cost` (dashboard.py:46). */
  function CostBasis(h: Holding): real {
    h.position.totalQuantity * h.position.averageCost
  }

  /** Where SQLite's `OFFSET` starts: a negative offset counts as 0. */
  function PageStart(n: nat, offset: int): (start: nat)
    ensures start <= n
  {
    if offset <= 0 then 0 else if offset >= n then n else offset
  }

  /**
   * `.offset(offset).limit(limit)` over a table in its stored order, with
   * SQLite's reading of the clauses: a negative LIMIT means no limit.
   */
  function Page<T>(s: seq<T>, offset: int, limit: int): (r: seq<T>)
    ensures limit >= 0 ==> |r| <= limit
    ensures limit < 0 ==> r == s[PageStart(|s|, offset)..]
    ensures r <= s[PageStart(|s|, offset)..]
    ensures |r| == |s| - PageStart(|s|, offset) || |r| == limit
  {
    var rest := s[PageStart(|s|, offset)..];
    if limit < 0 || limit >= |rest| then rest else rest[..limit]
  }
}
