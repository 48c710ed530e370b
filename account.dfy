/**
 * Account valuation and the account queries of backend/app/services/account.py.
 * An account's balance is the market value of its positions; the store holds
 * the `accounts` table and the `Position JOIN Asset` rows the queries read.
 */
module AccountService {
  import opened Wrappers
  import opened Models

  /** The rows the query at account.py:29-33 keeps: one account's, in join order. */
  function OwnRows(joined: seq<Holding>, accountId: int): (r: seq<Holding>)
    ensures forall h :: h in r ==> h in joined && h.accountId == accountId
    ensures forall h :: h in joined && h.accountId == accountId ==> h in r
    decreases |joined|
  {
    if joined == [] then []
    else
      var init := OwnRows(joined[..|joined| - 1], accountId);
      var last := joined[|joined| - 1];
      assert joined == joined[..|joined| - 1] + [last];
      if last.accountId == accountId then init + [last] else init
  }

  /** The sum the loop at account.py:39-49 accumulates. */
  function SumMarketValue(rows: seq<Holding>): real
    decreases |rows|
  {
    if rows == [] then 0.0 else SumMarketValue(rows[..|rows| - 1]) + MarketValue(rows[|rows| - 1])
  }

  /**
   * The balance of an account, defined row by row over the whole join: every
   * row adds its market value to its own account's balance and to no other.
   */
  function Balance(joined: seq<Holding>, accountId: int): real
    decreases |joined|
  {
    if joined == [] then 0.0
    else
      var last := joined[|joined| - 1];
      Balance(joined[..|joined| - 1], accountId) + (if last.accountId == accountId then MarketValue(last) else 0.0)
  }

  lemma SumMarketValueSnoc(rows: seq<Holding>, h: Holding)
    ensures SumMarketValue(rows + [h]) == SumMarketValue(rows) + MarketValue(h)
  {
    assert (rows + [h])[..|rows|] == rows;
  }

  /** Summing the filtered query result is the row-by-row balance. */
  lemma {:induction false} FilteredSumIsBalance(joined: seq<Holding>, accountId: int)
    ensures SumMarketValue(OwnRows(joined, accountId)) == Balance(joined, accountId)
    decreases |joined|
  {
    if joined != [] {
      var init, last := joined[..|joined| - 1], joined[|joined| - 1];
      FilteredSumIsBalance(init, accountId);
      if last.accountId == accountId {
        SumMarketValueSnoc(OwnRows(init, accountId), last);
      }
    }
  }

  /** The balance of a concatenation of row lists is the sum of their balances. */
  lemma {:induction false} BalanceOfConcat(a: seq<Holding>, b: seq<Holding>, accountId: int)
    ensures Balance(a + b, accountId) == Balance(a, accountId) + Balance(b, accountId)
    decreases |b|
  {
    if b == [] {
      assert a + b == a;
    } else {
      var init, last := b[..|b| - 1], b[|b| - 1];
      assert (a + b)[..|a + b| - 1] == a + init;
      assert (a + b)[|a + b| - 1] == last;
      BalanceOfConcat(a, init, accountId);
    }
  }

  /** A position of another account, wherever it sits in the join, never changes the balance. */
  lemma OtherAccountsNeverContribute(a: seq<Holding>, h: Holding, b: seq<Holding>, accountId: int)
    requires h.accountId != accountId
    ensures Balance(a + [h] + b, accountId) == Balance(a + b, accountId)
  {
    BalanceOfConcat(a + [h], b, accountId);
    BalanceOfConcat(a, [h], accountId);
    BalanceOfConcat(a, b, accountId);
    assert [h][..0] == [];
  }

  /** An account without positions has balance 0 (the initial `Decimal(0)`, account.py:37). */
  lemma {:induction false} NoPositionsZeroBalance(joined: seq<Holding>, accountId: int)
    requires forall i :: 0 <= i < |joined| ==> joined[i].accountId != accountId
    ensures Balance(joined, accountId) == 0.0
    decreases |joined|
  {
    if joined != [] {
      NoPositionsZeroBalance(joined[..|joined| - 1], accountId);
    }
  }

  /** `AccountRead`: the row plus its computed `total_balance`. */
  datatype AccountRead = AccountRead(id: int, name: string, currency: string, totalBalance: real)

  /** The row with that primary key, if any (`session.get(Account, id)`). */
  function FindAccount(accounts: seq<Account>, id: int): (r: Option<Account>)
    ensures r.None? <==> forall i :: 0 <= i < |accounts| ==> accounts[i].id != id
    ensures r.Some? ==> r.value in accounts && r.value.id == id
    decreases |accounts|
  {
    if accounts == [] then None
    else if accounts[0].id == id then Some(accounts[0])
    else
      var r := FindAccount(accounts[1..], id);
      assert forall i :: 1 <= i < |accounts| ==> accounts[i] == accounts[1..][i - 1];
      r
  }

  /** `AccountUpdate` after `model_dump(exclude_unset=True)`: `None` means "not set". */
  datatype AccountUpdate = AccountUpdate(name: Option<string>, currency: Option<string>)

  /** `db_account.sqlmodel_update(account_data)`. */
  function PatchedAccount(a: Account, u: AccountUpdate): (r: Account)
    ensures r.id == a.id
    ensures u.name.Some? ==> r.name == u.name.value
    ensures u.name.None? ==> r.name == a.name
    ensures u.currency.Some? ==> r.currency == u.currency.value
    ensures u.currency.None? ==> r.currency == a.currency
  {
    Account(a.id, u.name.GetOr(a.name), u.currency.GetOr(a.currency))
  }

  /** Applying the same partial update twice is applying it once; an empty one changes nothing. */
  lemma PatchedAccountIdempotent(a: Account, u: AccountUpdate)
    ensures PatchedAccount(PatchedAccount(a, u), u) == PatchedAccount(a, u)
    ensures PatchedAccount(a, AccountUpdate(None, None)) == a
  {
  }

  /** The `accounts` table and the position/asset join the balance query reads. */
  class AccountStore {
    var accounts: seq<Account>
    var holdings: seq<Holding>

    constructor (accounts: seq<Account>, holdings: seq<Holding>)
      ensures this.accounts == accounts && this.holdings == holdings
    {
      this.accounts := accounts;
      this.holdings := holdings;
    }

    /** `_calculate_total_balance` (account.py:17-51). */
    method CalculateTotalBalance(accountId: int) returns (total: real)
      ensures total == Balance(holdings, accountId)
    {
      var results := OwnRows(holdings, accountId);
      total := 0.0;
      for i := 0 to |results|
        invariant total == SumMarketValue(results[..i])
      {
        var h := results[i];
        var qty := h.position.totalQuantity;
        var currentPrice := h.asset.currentPrice;
        var marketValue := qty * currentPrice;
        SumMarketValueSnoc(results[..i], h);
        assert results[..i + 1] == results[..i] + [h];
        total := total + marketValue;
      }
      assert results[..|results|] == results;
      FilteredSumIsBalance(holdings, accountId);
    }

    function ReadOf(a: Account): AccountRead
      reads this
    {
      AccountRead(a.id, a.name, a.currency, Balance(holdings, a.id))
    }

    /** `get_account_by_id` (account.py:60-70): None for an unknown id. */
    method GetAccountById(accountId: int) returns (r: Option<AccountRead>)
      ensures r.None? <==> forall i :: 0 <= i < |accounts| ==> accounts[i].id != accountId
      ensures r.Some? ==> exists i :: 0 <= i < |accounts| && accounts[i].id == accountId && r.value == ReadOf(accounts[i])
      ensures r.Some? ==> r.value.id == accountId && r.value.totalBalance == Balance(holdings, accountId)
    {
      var account := FindAccount(accounts, accountId);
      if account.None? {
        return None;
      }
      var totalBalance := CalculateTotalBalance(account.value.id);
      var a := account.value;
      r := Some(AccountRead(a.id, a.name, a.currency, totalBalance));
    }

    /** `get_accounts` (account.py:72-82): one page of accounts, each with its balance. */
    method GetAccounts(offset: int, limit: int) returns (results: seq<AccountRead>)
      ensures limit >= 0 ==> |results| <= limit
      ensures |results| == |Page(accounts, offset, limit)|
      ensures forall i :: 0 <= i < |results| ==> results[i] == ReadOf(Page(accounts, offset, limit)[i])
    {
      var page := Page(accounts, offset, limit);
      results := [];
      for i := 0 to |page|
        invariant |results| == i
        invariant forall j :: 0 <= j < i ==> results[j] == ReadOf(page[j])
      {
        var account := page[i];
        var totalBalance := CalculateTotalBalance(account.id);
        results := results + [AccountRead(account.id, account.name, account.currency, totalBalance)];
      }
    }

    /** `update_account` (account.py:88-94) on the row at index `i`. */
    method UpdateAccount(i: nat, u: AccountUpdate) returns (r: Account)
      requires i < |accounts|
      modifies this
      ensures accounts == old(accounts)[i := PatchedAccount(old(accounts)[i], u)]
      ensures holdings == old(holdings)
      ensures r == accounts[i]
    {
      r := PatchedAccount(accounts[i], u);
      accounts := accounts[i := r];
    }
  }
}
