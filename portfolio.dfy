/**
 * Portfolio creation and update (backend/app/services/portfolio.py): the
 * partial update of a portfolio's own fields and the replacement of its set
 * of linked accounts by the existing accounts among a list of ids.
 */
module PortfolioService {
  import opened Wrappers
  import opened Models

  /**
   * A portfolio row with its links: `name`, the nullable `description`
   * (schemas/portfolio.py:8-10) and the ids of the linked accounts (the
   * `portfolio.accounts` relationship, a set of association rows).
   */
  datatype Portfolio = Portfolio(name: string, description: Option<string>, links: set<int>)

  /** `PortfolioCreate` (schemas/portfolio.py:14-15): `account_ids` may be null, omitted (`[]`) or a list. */
  datatype PortfolioCreate = PortfolioCreate(name: string, description: Option<string>, accountIds: Option<seq<int>>)

  /**
   * `PortfolioUpdate` (schemas/portfolio.py:26-29) as the service reads it:
   * `name`/`description` are `None` when unset (`exclude_unset=True`), and a
   * set description may itself be null; `account_ids` is `None` when unset or null.
   */
  datatype PortfolioUpdate = PortfolioUpdate(name: Option<string>, description: Option<Option<string>>, accountIds: Option<seq<int>>)

  /**
   * The ids of `select(Account).where(Account.id.in_(ids))`: the existing
   * accounts among the listed ids (unknown ids find no row, repeats one row).
   */
  function Linked(existing: seq<int>, ids: seq<int>): (r: set<int>)
    ensures forall k :: k in r <==> k in ids && k in existing
  {
    set k | k in ids && k in existing
  }

  /** The truthiness test `if account_ids:` (portfolio.py:22): a non-empty list. */
  predicate Truthy(ids: Option<seq<int>>) {
    ids.Some? && ids.value != []
  }

  /** The portfolio `create_portfolio` stores (portfolio.py:14-29). */
  function Created(existing: seq<int>, p: PortfolioCreate): (r: Portfolio)
    ensures r.name == p.name && r.description == p.description
    ensures forall k :: k in r.links <==> p.accountIds.Some? && k in p.accountIds.value && k in existing
  {
    Portfolio(p.name, p.description, if Truthy(p.accountIds) then Linked(existing, p.accountIds.value) else {})
  }

  /** `portfolio.sqlmodel_update(portfolio_data)` with `account_ids` excluded (portfolio.py:40-41). */
  function PatchedFields(p: Portfolio, u: PortfolioUpdate): (r: Portfolio)
    ensures u.name.Some? ==> r.name == u.name.value
    ensures u.name.None? ==> r.name == p.name
    ensures u.description.Some? ==> r.description == u.description.value
    ensures u.description.None? ==> r.description == p.description
    ensures r.links == p.links
  {
    Portfolio(u.name.GetOr(p.name), u.description.GetOr(p.description), p.links)
  }

  /** The portfolio `update_portfolio` leaves behind (portfolio.py:38-51). */
  function Updated(existing: seq<int>, p: Portfolio, u: PortfolioUpdate): (r: Portfolio)
    ensures r.name == PatchedFields(p, u).name && r.description == PatchedFields(p, u).description
    ensures u.accountIds.None? ==> r.links == p.links
    ensures u.accountIds.Some? ==> forall k :: k in r.links <==> k in u.accountIds.value && k in existing
  {
    var q := PatchedFields(p, u);
    if u.accountIds.Some? then q.(links := Linked(existing, u.accountIds.value)) else q
  }

  /** Creating without ids, with an empty list or with a null list links no account. */
  lemma CreateWithoutIdsLinksNothing(existing: seq<int>, p: PortfolioCreate)
    requires !Truthy(p.accountIds)
    ensures Created(existing, p).links == {}
  {
    if p.accountIds.Some? {
      assert forall k :: k !in p.accountIds.value;
    }
  }

  /** The link set after creation lies within the existing accounts: unknown ids are dropped. */
  lemma CreateDropsUnknownIds(existing: seq<int>, p: PortfolioCreate, k: int)
    requires k !in existing
    ensures k !in Created(existing, p).links
  {
  }

  /** An update with an empty list clears the links, even though the list is falsy. */
  lemma EmptyListClearsLinks(existing: seq<int>, p: Portfolio, u: PortfolioUpdate)
    requires u.accountIds == Some([])
    ensures Updated(existing, p, u).links == {}
  {
    assert forall k :: k !in Updated(existing, p, u).links;
  }

  /** The portfolio's own fields after an update do not depend on `account_ids`. */
  lemma FieldsIgnoreAccountIds(existing: seq<int>, p: Portfolio, u: PortfolioUpdate, ids: Option<seq<int>>)
    ensures Updated(existing, p, u).name == Updated(existing, p, u.(accountIds := ids)).name
    ensures Updated(existing, p, u).description == Updated(existing, p, u.(accountIds := ids)).description
  {
  }

  /** Repeating an update gives the portfolio the first one produced. */
  lemma UpdateIdempotent(existing: seq<int>, p: Portfolio, u: PortfolioUpdate)
    ensures Updated(existing, Updated(existing, p, u), u) == Updated(existing, p, u)
  {
  }

  /** The link set depends only on which ids are listed, not on their order or repeats. */
  lemma LinksDependOnIdSetOnly(existing: seq<int>, a: seq<int>, b: seq<int>)
    requires forall k :: k in a <==> k in b
    ensures Linked(existing, a) == Linked(existing, b)
  {
    assert forall k :: k in Linked(existing, a) <==> k in Linked(existing, b);
  }

  /** The `accounts` and `portfolios` tables. */
  class PortfolioStore {
    var accounts: seq<Account>
    var portfolios: seq<Portfolio>

    constructor (accounts: seq<Account>, portfolios: seq<Portfolio>)
      ensures this.accounts == accounts && this.portfolios == portfolios
    {
      this.accounts := accounts;
      this.portfolios := portfolios;
    }

    /** `create_portfolio` (portfolio.py:14-29): the new row is appended. */
    method CreatePortfolio(p: PortfolioCreate) returns (created: Portfolio)
      modifies this
      ensures created == Created(AccountIds(old(accounts)), p)
      ensures portfolios == old(portfolios) + [created]
      ensures accounts == old(accounts)
    {
      var accountIds := p.accountIds;
      created := Portfolio(p.name, p.description, {});
      if accountIds.Some? && accountIds.value != [] {
        var found := Linked(AccountIds(accounts), accountIds.value);
        created := created.(links := found);
      }
      portfolios := portfolios + [created];
    }

    /** `get_portfolios` (portfolio.py:34-36). */
    method GetPortfolios(offset: int, limit: int) returns (r: seq<Portfolio>)
      ensures r == Page(portfolios, offset, limit)
      ensures limit >= 0 ==> |r| <= limit
      ensures forall q :: q in r ==> q in portfolios
    {
      r := Page(portfolios, offset, limit);
      var start := PageStart(|portfolios|, offset);
      assert forall q :: q in r ==> q in portfolios[start..];
    }

    /** `update_portfolio` (portfolio.py:38-51) on the row at index `i`. */
    method UpdatePortfolio(i: nat, u: PortfolioUpdate) returns (r: Portfolio)
      requires i < |portfolios|
      modifies this
      ensures portfolios == old(portfolios)[i := Updated(AccountIds(old(accounts)), old(portfolios)[i], u)]
      ensures accounts == old(accounts)
      ensures r == portfolios[i]
    {
      r := PatchedFields(portfolios[i], u);
      if u.accountIds.Some? {
        var found := Linked(AccountIds(accounts), u.accountIds.value);
        r := r.(links := found);
      }
      portfolios := portfolios[i := r];
    }
  }
}
