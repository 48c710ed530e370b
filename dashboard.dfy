/**
 * `DashboardService.get_stats` (backend/app/services/dashboard.py): net worth,
 * allocation by asset type, total profit and the top performer, computed from
 * the accounts and the `Position JOIN Asset` rows.
 */
module DashboardService {
  import opened Wrappers
  import opened Models
  import opened AccountService

  // ---------------------------------------------------------------------------
  // Net worth (dashboard.py:20-25)
  // ---------------------------------------------------------------------------

  /** The sum of the balances of the accounts with these ids. */
  function SumBalances(ids: seq<int>, joined: seq<Holding>): real
    decreases |ids|
  {
    if ids == [] then 0.0 else SumBalances(ids[..|ids| - 1], joined) + Balance(joined, ids[|ids| - 1])
  }

  /** Net worth: the sum of every listed account's balance. */
  function NetWorth(accounts: seq<Account>, joined: seq<Holding>): real {
    SumBalances(AccountIds(accounts), joined)
  }

  /** How many times `v` is counted for a row of account `id`: once per listed id equal to it. */
  function Counted(ids: seq<int>, id: int, v: real): real
    decreases |ids|
  {
    if ids == [] then 0.0 else Counted(ids[..|ids| - 1], id, v) + (if ids[|ids| - 1] == id then v else 0.0)
  }

  predicate Distinct(ids: seq<int>) {
    forall i, j :: 0 <= i < j < |ids| ==> ids[i] != ids[j]
  }

  lemma {:induction false} CountedAbsent(ids: seq<int>, id: int, v: real)
    requires id !in ids
    ensures Counted(ids, id, v) == 0.0
    decreases |ids|
  {
    if ids != [] {
      var init := ids[..|ids| - 1];
      assert id !in init by {
        forall i | 0 <= i < |init| ensures init[i] != id {
          assert init[i] == ids[i];
        }
      }
      CountedAbsent(init, id, v);
    }
  }

  lemma {:induction false} CountedOnce(ids: seq<int>, id: int, v: real)
    requires Distinct(ids) && id in ids
    ensures Counted(ids, id, v) == v
    decreases |ids|
  {
    var init, last := ids[..|ids| - 1], ids[|ids| - 1];
    assert ids == init + [last];
    assert Distinct(init) by {
      forall i, j | 0 <= i < j < |init| ensures init[i] != init[j] {
        assert init[i] == ids[i] && init[j] == ids[j];
      }
    }
    if last == id {
      assert id !in init by {
        forall i | 0 <= i < |init| ensures init[i] != id {
          assert init[i] == ids[i];
        }
      }
      CountedAbsent(init, id, v);
    } else {
      CountedOnce(init, id, v);
    }
  }

  lemma {:induction false} SumBalancesOfNoRows(ids: seq<int>)
    ensures SumBalances(ids, []) == 0.0
    decreases |ids|
  {
    if ids != [] {
      SumBalancesOfNoRows(ids[..|ids| - 1]);
    }
  }

  lemma {:induction false} SumBalancesSnoc(ids: seq<int>, joined: seq<Holding>, h: Holding)
    ensures SumBalances(ids, joined + [h]) == SumBalances(ids, joined) + Counted(ids, h.accountId, MarketValue(h))
    decreases |ids|
  {
    if ids != [] {
      assert (joined + [h])[..|joined|] == joined;
      SumBalancesSnoc(ids[..|ids| - 1], joined, h);
    }
  }

  /**
   * When account ids are distinct and every position belongs to a listed
   * account, the sum of the balances is the total market value of all positions.
   */
  lemma {:induction false} NetWorthIsTotalValue(ids: seq<int>, joined: seq<Holding>)
    requires Distinct(ids)
    requires forall i :: 0 <= i < |joined| ==> joined[i].accountId in ids
    ensures SumBalances(ids, joined) == SumMarketValue(joined)
    decreases |joined|
  {
    if joined == [] {
      SumBalancesOfNoRows(ids);
    } else {
      var init, last := joined[..|joined| - 1], joined[|joined| - 1];
      assert joined == init + [last];
      NetWorthIsTotalValue(ids, init);
      SumBalancesSnoc(ids, init, last);
      CountedOnce(ids, last.accountId, MarketValue(last));
    }
  }

  // ---------------------------------------------------------------------------
  // Allocation by asset type (dashboard.py:34, 44-53)
  // ---------------------------------------------------------------------------

  /** One entry of `allocation_map`; the map is kept in insertion order, as a Python dict is. */
  datatype Bucket = Bucket(kind: AssetType, value: real)

  predicate Has(alloc: seq<Bucket>, k: AssetType) {
    exists i :: 0 <= i < |alloc| && alloc[i].kind == k
  }

  predicate DistinctKinds(alloc: seq<Bucket>) {
    forall i, j :: 0 <= i < j < |alloc| ==> alloc[i].kind != alloc[j].kind
  }

  /** `allocation_map.get(k, Decimal(0))`. */
  function ValueOf(alloc: seq<Bucket>, k: AssetType): real
    decreases |alloc|
  {
    if alloc == [] then 0.0 else if alloc[0].kind == k then alloc[0].value else ValueOf(alloc[1..], k)
  }

  function SumBuckets(alloc: seq<Bucket>): real
    decreases |alloc|
  {
    if alloc == [] then 0.0 else alloc[0].value + SumBuckets(alloc[1..])
  }

  /**
   * `allocation_map[k] = allocation_map.get(k, Decimal(0)) + v`: an existing key
   * keeps its place and grows by `v`, a new key goes last with value `v`.
   */
  function AddToBucket(alloc: seq<Bucket>, k: AssetType, v: real): (r: seq<Bucket>)
    ensures Has(alloc, k) ==> |r| == |alloc| && forall i :: 0 <= i < |r| ==> r[i].kind == alloc[i].kind
    ensures !Has(alloc, k) ==> r == alloc + [Bucket(k, v)]
    ensures forall k' :: ValueOf(r, k') == ValueOf(alloc, k') + (if k' == k then v else 0.0)
    ensures SumBuckets(r) == SumBuckets(alloc) + v
    decreases |alloc|
  {
    if alloc == [] then [Bucket(k, v)]
    else if alloc[0].kind == k then [alloc[0].(value := alloc[0].value + v)] + alloc[1..]
    else
      var rest := AddToBucket(alloc[1..], k, v);
      assert Has(alloc, k) ==> Has(alloc[1..], k) by {
        if Has(alloc, k) {
          var i :| 0 <= i < |alloc| && alloc[i].kind == k;
          assert alloc[1..][i - 1] == alloc[i];
        }
      }
      assert Has(alloc[1..], k) ==> Has(alloc, k) by {
        if Has(alloc[1..], k) {
          var i :| 0 <= i < |alloc[1..]| && alloc[1..][i].kind == k;
          assert alloc[i + 1] == alloc[1..][i];
        }
      }
      var r := [alloc[0]] + rest;
      assert r[1..] == rest;
      assert !Has(alloc, k) ==> r == alloc + [Bucket(k, v)] by {
        if !Has(alloc, k) {
          assert alloc == [alloc[0]] + alloc[1..];
        }
      }
      r
  }

  /** The allocation map after the loop over `rows`. */
  function Allocation(rows: seq<Holding>): seq<Bucket>
    decreases |rows|
  {
    if rows == [] then []
    else AddToBucket(Allocation(rows[..|rows| - 1]), rows[|rows| - 1].asset.kind, MarketValue(rows[|rows| - 1]))
  }

  /** The market value of the rows of one asset type. */
  function KindValue(rows: seq<Holding>, k: AssetType): real
    decreases |rows|
  {
    if rows == [] then 0.0
    else
      var last := rows[|rows| - 1];
      KindValue(rows[..|rows| - 1], k) + (if last.asset.kind == k then MarketValue(last) else 0.0)
  }

  predicate HasKind(rows: seq<Holding>, k: AssetType) {
    exists j :: 0 <= j < |rows| && rows[j].asset.kind == k
  }

  lemma HasKindSnoc(rows: seq<Holding>, k: AssetType)
    requires rows != []
    ensures HasKind(rows, k) <==> HasKind(rows[..|rows| - 1], k) || rows[|rows| - 1].asset.kind == k
  {
    var init := rows[..|rows| - 1];
    if HasKind(rows, k) && rows[|rows| - 1].asset.kind != k {
      var j :| 0 <= j < |rows| && rows[j].asset.kind == k;
      assert init[j] == rows[j];
    }
    if HasKind(init, k) {
      var j :| 0 <= j < |init| && init[j].asset.kind == k;
      assert rows[j] == init[j];
    }
  }

  lemma DistinctAfterAdd(alloc: seq<Bucket>, k: AssetType, v: real)
    requires DistinctKinds(alloc)
    ensures DistinctKinds(AddToBucket(alloc, k, v))
    ensures forall k' :: Has(AddToBucket(alloc, k, v), k') <==> Has(alloc, k') || k' == k
  {
    var r := AddToBucket(alloc, k, v);
    forall k' ensures Has(r, k') <==> Has(alloc, k') || k' == k {
      if Has(alloc, k) {
        if Has(r, k') {
          var i :| 0 <= i < |r| && r[i].kind == k';
          assert alloc[i].kind == k';
        }
        if Has(alloc, k') {
          var i :| 0 <= i < |alloc| && alloc[i].kind == k';
          assert r[i].kind == k';
        }
      } else {
        if Has(r, k') && k' != k {
          var i :| 0 <= i < |r| && r[i].kind == k';
          assert i < |alloc| && alloc[i] == r[i];
        }
        if Has(alloc, k') {
          var i :| 0 <= i < |alloc| && alloc[i].kind == k';
          assert r[i] == alloc[i];
        }
        assert r[|alloc|].kind == k;
      }
    }
  }

  /**
   * The allocation map has one bucket per asset type that occurs, no type
   * twice, each bucket holding that type's market value, and the buckets
   * together hold the total market value.
   */
  lemma {:induction false} AllocationMeaning(rows: seq<Holding>)
    ensures DistinctKinds(Allocation(rows))
    ensures forall k :: Has(Allocation(rows), k) <==> HasKind(rows, k)
    ensures forall k :: ValueOf(Allocation(rows), k) == KindValue(rows, k)
    ensures SumBuckets(Allocation(rows)) == SumMarketValue(rows)
    decreases |rows|
  {
    if rows != [] {
      var init, last := rows[..|rows| - 1], rows[|rows| - 1];
      AllocationMeaning(init);
      DistinctAfterAdd(Allocation(init), last.asset.kind, MarketValue(last));
      forall k ensures HasKind(rows, k) <==> HasKind(init, k) || last.asset.kind == k {
        HasKindSnoc(rows, k);
      }
    }
  }

  /** In a map without repeated keys, every entry holds `get` of its key. */
  lemma {:induction false} ValueOfDistinct(alloc: seq<Bucket>, i: nat)
    requires DistinctKinds(alloc) && i < |alloc|
    ensures ValueOf(alloc, alloc[i].kind) == alloc[i].value
    decreases |alloc|
  {
    if i > 0 {
      assert alloc[0].kind != alloc[i].kind;
      assert alloc[1..][i - 1] == alloc[i];
      assert DistinctKinds(alloc[1..]) by {
        forall a, b | 0 <= a < b < |alloc[1..]| ensures alloc[1..][a].kind != alloc[1..][b].kind {
          assert alloc[1..][a] == alloc[a + 1] && alloc[1..][b] == alloc[b + 1];
        }
      }
      ValueOfDistinct(alloc[1..], i - 1);
    }
  }

  // ---------------------------------------------------------------------------
  // Top performer (dashboard.py:38-39, 55-61)
  // ---------------------------------------------------------------------------

  /** Only positions with a positive cost basis are ranked. */
  predicate Ranked(h: Holding) {
    CostBasis(h) > 0.0
  }

  /** `profit / cost_basis * 100` on a ranked position. */
  function ProfitPct(h: Holding): real {
    if Ranked(h) then (MarketValue(h) - CostBasis(h)) / CostBasis(h) * 100.0 else 0.0
  }

  /**
   * The index of the best performer the strict `>` scan ends on: the first
   * ranked position with the largest profit percentage.
   */
  function BestIndex(rows: seq<Holding>): (r: Option<nat>)
    ensures r.None? <==> forall j :: 0 <= j < |rows| ==> !Ranked(rows[j])
    ensures r.Some? ==> r.value < |rows| && Ranked(rows[r.value])
    ensures r.Some? ==> forall j :: 0 <= j < |rows| && Ranked(rows[j]) ==> ProfitPct(rows[j]) <= ProfitPct(rows[r.value])
    ensures r.Some? ==> forall j :: 0 <= j < r.value && Ranked(rows[j]) ==> ProfitPct(rows[j]) < ProfitPct(rows[r.value])
    decreases |rows|
  {
    if rows == [] then None
    else
      var init, last := rows[..|rows| - 1], rows[|rows| - 1];
      var b := BestIndex(init);
      assert forall j :: 0 <= j < |init| ==> init[j] == rows[j];
      if Ranked(last) && (b.None? || ProfitPct(last) > ProfitPct(init[b.value])) then Some(|rows| - 1) else b
  }

  // ---------------------------------------------------------------------------
  // The response (dashboard.py:88-113, schemas/dashboard.py)
  // ---------------------------------------------------------------------------

  datatype AllocationItem = AllocationItem(labelText: string, value: real, percentage: real)

  datatype DashboardStats = DashboardStats(
    netWorth: real,
    netWorthChange24h: real,
    totalProfit: real,
    totalProfitChange24h: real,
    topPerformerName: Option<string>,
    topPerformerChange: Option<real>,
    allocation: seq<AllocationItem>)

  /** The response item for one bucket. */
  function ItemOf(b: Bucket, netWorth: real): AllocationItem
    requires netWorth > 0.0
  {
    AllocationItem(WireTag(b.kind), b.value, b.value / netWorth * 100.0)
  }

  function Items(alloc: seq<Bucket>, netWorth: real): (r: seq<AllocationItem>)
    requires netWorth > 0.0
    ensures |r| == |alloc|
  {
    seq(|alloc|, i requires 0 <= i < |alloc| => ItemOf(alloc[i], netWorth))
  }

  /** The total market value minus the total cost basis. */
  function TotalCost(rows: seq<Holding>): real
    decreases |rows|
  {
    if rows == [] then 0.0 else TotalCost(rows[..|rows| - 1]) + CostBasis(rows[|rows| - 1])
  }

  /** What `get_stats` returns for these accounts and rows. */
  function Stats(accounts: seq<Account>, joined: seq<Holding>): DashboardStats {
    var netWorth := NetWorth(accounts, joined);
    var best := BestIndex(joined);
    var name := if best.Some? then Some(joined[best.value].asset.name) else None;
    var change := if best.Some? && joined[best.value].asset.name != "" then Some(ProfitPct(joined[best.value])) else None;
    DashboardStats(netWorth, 0.0, SumMarketValue(joined) - TotalCost(joined), 0.0, name, change,
                   if netWorth > 0.0 then Items(Allocation(joined), netWorth) else [])
  }

  /** The net worth loop (dashboard.py:23-25). */
  method SumAccountBalances(store: AccountStore) returns (totalNetWorth: real)
    ensures totalNetWorth == NetWorth(store.accounts, store.holdings)
  {
    var accounts := store.accounts;
    ghost var ids := AccountIds(accounts);
    totalNetWorth := 0.0;
    for i := 0 to |accounts|
      invariant totalNetWorth == SumBalances(ids[..i], store.holdings)
    {
      var balance := store.CalculateTotalBalance(accounts[i].id);
      assert ids[..i + 1][..i] == ids[..i] && ids[..i + 1][i] == accounts[i].id;
      totalNetWorth := totalNetWorth + balance;
    }
    assert ids[..|accounts|] == ids;
  }

  /** The variables the loop at dashboard.py:44-61 carries; a `None` percentage stands for `-inf`. */
  datatype ScanState = ScanState(
    allocationMap: seq<Bucket>,
    totalAssetsValue: real,
    totalCostBasis: real,
    bestName: Option<string>,
    bestPct: Option<real>)

  /** One iteration of that loop. */
  function ScanRow(s: ScanState, h: Holding): ScanState {
    var marketValue := MarketValue(h);
    var costBasis := CostBasis(h);
    var s' := s.(allocationMap := AddToBucket(s.allocationMap, h.asset.kind, marketValue),
                 totalAssetsValue := s.totalAssetsValue + marketValue,
                 totalCostBasis := s.totalCostBasis + costBasis);
    if costBasis > 0.0 && (s.bestPct.None? || ProfitPct(h) > s.bestPct.value)
    then s'.(bestName := Some(h.asset.name), bestPct := Some(ProfitPct(h)))
    else s'
  }

  function ScanAll(rows: seq<Holding>): ScanState
    decreases |rows|
  {
    if rows == [] then ScanState([], 0.0, 0.0, None, None)
    else ScanRow(ScanAll(rows[..|rows| - 1]), rows[|rows| - 1])
  }

  predicate TracksBest(s: ScanState, rows: seq<Holding>) {
    var b := BestIndex(rows);
    && (b.None? ==> s.bestName.None? && s.bestPct.None?)
    && (b.Some? ==> s.bestName == Some(rows[b.value].asset.name) && s.bestPct == Some(ProfitPct(rows[b.value])))
  }

  /** One more row keeps the best-performer variables in step with `BestIndex`. */
  lemma ScanRowTracksBest(s: ScanState, rows: seq<Holding>)
    requires rows != []
    requires TracksBest(s, rows[..|rows| - 1])
    ensures TracksBest(ScanRow(s, rows[|rows| - 1]), rows)
  {
    var init := rows[..|rows| - 1];
    var b := BestIndex(init);
    if b.Some? {
      assert init[b.value] == rows[b.value];
    }
  }

  /**
   * The scan computes the allocation map, the total market value, the total
   * cost basis and the name and percentage of the first best performer.
   */
  lemma {:induction false} ScanMeaning(rows: seq<Holding>)
    ensures ScanAll(rows).allocationMap == Allocation(rows)
    ensures ScanAll(rows).totalAssetsValue == SumMarketValue(rows)
    ensures ScanAll(rows).totalCostBasis == TotalCost(rows)
    ensures TracksBest(ScanAll(rows), rows)
    decreases |rows|
  {
    if rows != [] {
      ScanMeaning(rows[..|rows| - 1]);
      ScanRowTracksBest(ScanAll(rows[..|rows| - 1]), rows);
    }
  }

  /** The loop over the position/asset rows (dashboard.py:34-61). */
  method ScanPositions(rows: seq<Holding>)
    returns (allocationMap: seq<Bucket>, totalAssetsValue: real, totalCostBasis: real,
             bestName: Option<string>, bestPct: Option<real>)
    ensures ScanState(allocationMap, totalAssetsValue, totalCostBasis, bestName, bestPct) == ScanAll(rows)
  {
    allocationMap := [];
    totalAssetsValue, totalCostBasis := 0.0, 0.0;
    bestName := None;
    bestPct := None;
    for i := 0 to |rows|
      invariant ScanState(allocationMap, totalAssetsValue, totalCostBasis, bestName, bestPct) == ScanAll(rows[..i])
    {
      var h := rows[i];
      ghost var before := ScanState(allocationMap, totalAssetsValue, totalCostBasis, bestName, bestPct);
      var marketValue := h.position.totalQuantity * h.asset.currentPrice;
      var costBasis := h.position.totalQuantity * h.position.averageCost;
      assert marketValue == MarketValue(h) && costBasis == CostBasis(h);
      totalAssetsValue := totalAssetsValue + marketValue;
      totalCostBasis := totalCostBasis + costBasis;
      allocationMap := AddToBucket(allocationMap, h.asset.kind, marketValue);
      if costBasis > 0.0 {
        var profit := marketValue - costBasis;
        var profitPct := profit / costBasis * 100.0;
        assert profitPct == ProfitPct(h);
        if bestPct.None? || profitPct > bestPct.value {
          bestPct := Some(profitPct);
          bestName := Some(h.asset.name);
        }
      }
      assert ScanState(allocationMap, totalAssetsValue, totalCostBasis, bestName, bestPct) == ScanRow(before, h);
      assert rows[..i + 1][..i] == rows[..i];
    }
    assert rows[..|rows|] == rows;
  }

  /** The allocation list (dashboard.py:89-93). */
  method BuildAllocationList(allocationMap: seq<Bucket>, totalNetWorth: real) returns (allocationList: seq<AllocationItem>)
    ensures totalNetWorth <= 0.0 ==> allocationList == []
    ensures totalNetWorth > 0.0 ==> allocationList == Items(allocationMap, totalNetWorth)
  {
    allocationList := [];
    if totalNetWorth > 0.0 {
      for i := 0 to |allocationMap|
        invariant |allocationList| == i
        invariant forall j :: 0 <= j < i ==> allocationList[j] == ItemOf(allocationMap[j], totalNetWorth)
      {
        var b := allocationMap[i];
        var pct := b.value / totalNetWorth * 100.0;
        allocationList := allocationList + [AllocationItem(WireTag(b.kind), b.value, pct)];
      }
    }
  }

  /** `get_stats` over the store's accounts and position/asset rows. */
  method GetStats(store: AccountStore) returns (stats: DashboardStats)
    ensures stats == Stats(store.accounts, store.holdings)
    ensures stats.totalProfit == SumProfit(store.holdings)
    ensures stats.netWorthChange24h == 0.0 && stats.totalProfitChange24h == 0.0
  {
    ProfitAndChanges(store.accounts, store.holdings);
    var totalNetWorth := SumAccountBalances(store);
    var allocationMap, totalAssetsValue, totalCostBasis, bestName, bestPct := ScanPositions(store.holdings);
    ScanMeaning(store.holdings);
    var allocationList := BuildAllocationList(allocationMap, totalNetWorth);
    var totalProfit := totalAssetsValue - totalCostBasis;
    var topPerformerChange := if bestName.Some? && bestName.value != "" then bestPct else None;
    stats := DashboardStats(totalNetWorth, 0.0, totalProfit, 0.0, bestName, topPerformerChange, allocationList);
  }

  // ---------------------------------------------------------------------------
  // What the response means
  // ---------------------------------------------------------------------------

  /**
   * The top performer is named exactly when some position has a positive cost
   * basis; it is the first position with the largest profit percentage, and its
   * change is that percentage unless the asset's name is empty (the `if
   * best_performer_name` test reads the name's truthiness).
   */
  lemma TopPerformerMeaning(accounts: seq<Account>, joined: seq<Holding>)
    ensures var s := Stats(accounts, joined);
      && (s.topPerformerName.None? <==> forall j :: 0 <= j < |joined| ==> !Ranked(joined[j]))
      && (s.topPerformerChange.Some? <==> s.topPerformerName.Some? && s.topPerformerName.value != "")
      && (s.topPerformerName.Some? ==>
            exists i :: (0 <= i < |joined| && Ranked(joined[i]) &&
              s.topPerformerName.value == joined[i].asset.name &&
              (s.topPerformerChange.Some? ==> s.topPerformerChange.value == ProfitPct(joined[i])) &&
              (forall j :: 0 <= j < |joined| && Ranked(joined[j]) ==> ProfitPct(joined[j]) <= ProfitPct(joined[i])) &&
              (forall j :: 0 <= j < i && Ranked(joined[j]) ==> ProfitPct(joined[j]) < ProfitPct(joined[i]))))
  {
    var b := BestIndex(joined);
    if b.Some? {
      assert 0 <= b.value < |joined| && Ranked(joined[b.value]);
    }
  }

  /** The unrealised profits of the rows one by one: each adds its market value minus its cost basis. */
  function SumProfit(rows: seq<Holding>): real
    decreases |rows|
  {
    if rows == [] then 0.0 else SumProfit(rows[..|rows| - 1]) + (MarketValue(rows[|rows| - 1]) - CostBasis(rows[|rows| - 1]))
  }

  /** Subtracting the two totals once equals adding each row's own profit. */
  lemma {:induction false} SumProfitSplits(rows: seq<Holding>)
    ensures SumProfit(rows) == SumMarketValue(rows) - TotalCost(rows)
    decreases |rows|
  {
    if rows != [] {
      SumProfitSplits(rows[..|rows| - 1]);
    }
  }

  /**
   * The total profit is the sum of every position's unrealised profit, and
   * both 24h changes are always 0.
   */
  lemma ProfitAndChanges(accounts: seq<Account>, joined: seq<Holding>)
    ensures var s := Stats(accounts, joined);
      && s.netWorthChange24h == 0.0 && s.totalProfitChange24h == 0.0
      && s.totalProfit == SumProfit(joined)
      && s.netWorth == NetWorth(accounts, joined)
  {
    SumProfitSplits(joined);
  }

  /**
   * The allocation list is empty unless net worth is positive; otherwise it has
   * one item per asset type that occurs, labelled with the type's tag, holding
   * that type's market value and its share of net worth in percent.
   */
  lemma AllocationListMeaning(accounts: seq<Account>, joined: seq<Holding>)
    ensures var s := Stats(accounts, joined);
      && (s.netWorth <= 0.0 ==> s.allocation == [])
      && (s.netWorth > 0.0 ==>
            && (forall i, j :: 0 <= i < j < |s.allocation| ==> s.allocation[i].labelText != s.allocation[j].labelText)
            && (forall k :: HasKind(joined, k) <==> exists i :: 0 <= i < |s.allocation| && s.allocation[i].labelText == WireTag(k))
            && (forall i, k :: 0 <= i < |s.allocation| && s.allocation[i].labelText == WireTag(k) ==>
                  s.allocation[i].value == KindValue(joined, k) &&
                  s.allocation[i].percentage == KindValue(joined, k) / s.netWorth * 100.0))
  {
    var s := Stats(accounts, joined);
    if s.netWorth > 0.0 {
      var alloc := Allocation(joined);
      AllocationMeaning(joined);
      assert forall i :: 0 <= i < |alloc| ==> s.allocation[i] == ItemOf(alloc[i], s.netWorth);
      forall i, j | 0 <= i < j < |s.allocation| ensures s.allocation[i].labelText != s.allocation[j].labelText {
        WireTagInjective(alloc[i].kind, alloc[j].kind);
      }
      forall k ensures HasKind(joined, k) <==> exists i :: 0 <= i < |s.allocation| && s.allocation[i].labelText == WireTag(k) {
        if HasKind(joined, k) {
          var i :| 0 <= i < |alloc| && alloc[i].kind == k;
          assert s.allocation[i].labelText == WireTag(k);
        }
        if exists i :: 0 <= i < |s.allocation| && s.allocation[i].labelText == WireTag(k) {
          var i :| 0 <= i < |s.allocation| && s.allocation[i].labelText == WireTag(k);
          WireTagInjective(alloc[i].kind, k);
          assert Has(alloc, k);
        }
      }
      forall i, k | 0 <= i < |s.allocation| && s.allocation[i].labelText == WireTag(k)
        ensures s.allocation[i].value == KindValue(joined, k)
      {
        WireTagInjective(alloc[i].kind, k);
        ValueOfDistinct(alloc, i);
      }
    }
  }

  function SumPercentages(items: seq<AllocationItem>): real
    decreases |items|
  {
    if items == [] then 0.0 else items[0].percentage + SumPercentages(items[1..])
  }

  lemma {:induction false} SumPercentagesOfItems(alloc: seq<Bucket>, netWorth: real)
    requires netWorth > 0.0
    ensures SumPercentages(Items(alloc, netWorth)) == SumBuckets(alloc) / netWorth * 100.0
    decreases |alloc|
  {
    if alloc != [] {
      assert Items(alloc, netWorth)[1..] == Items(alloc[1..], netWorth);
      SumPercentagesOfItems(alloc[1..], netWorth);
      var a, s := alloc[0].value, SumBuckets(alloc[1..]);
      assert a / netWorth * 100.0 + s / netWorth * 100.0 == (a + s) / netWorth * 100.0;
    }
  }

  /** Shares of a positive total that the buckets add up to sum to 100. */
  lemma SharesOfTotalSumTo100(alloc: seq<Bucket>, total: real)
    requires total > 0.0 && SumBuckets(alloc) == total
    ensures SumPercentages(Items(alloc, total)) == 100.0
  {
    SumPercentagesOfItems(alloc, total);
    assert total / total * 100.0 == 100.0;
  }

  /**
   * When every position belongs to exactly one listed account and net worth is
   * positive, the allocation percentages add up to 100.
   */
  lemma PercentagesSumTo100(accounts: seq<Account>, joined: seq<Holding>)
    requires Distinct(AccountIds(accounts))
    requires forall i :: 0 <= i < |joined| ==> joined[i].accountId in AccountIds(accounts)
    requires NetWorth(accounts, joined) > 0.0
    ensures SumPercentages(Stats(accounts, joined).allocation) == 100.0
  {
    var nw := NetWorth(accounts, joined);
    NetWorthIsTotalValue(AccountIds(accounts), joined);
    AllocationMeaning(joined);
    SharesOfTotalSumTo100(Allocation(joined), nw);
  }
}
