/**
 * The arithmetic of the dashboard page (frontend/components/Dashboard.tsx):
 * the defaults for missing stats, the sign of a trend, the implied change
 * amounts, the total of the allocation and each slice's share of it.
 */
module DashboardView {
  import opened Wrappers
  import opened Api

  /** `percent || 0`: null (and 0) read as 0. */
  function PercentOrZero(percent: Option<real>): (r: real)
    ensures percent.None? ==> r == 0.0
    ensures percent.Some? ==> r == percent.value
  {
    percent.GetOr(0.0)
  }

  /** `isPositive` of `renderTrend` (Dashboard.tsx:40-42): zero and a missing percent count as positive. */
  predicate TrendPositive(percent: Option<real>) {
    PercentOrZero(percent) >= 0.0
  }

  lemma TrendSignMeaning(percent: Option<real>)
    ensures TrendPositive(percent) <==> percent.None? || percent.value >= 0.0
    ensures TrendPositive(Some(0.0))
  {
  }

  /** The change amount implied by a percentage change of `base` (Dashboard.tsx:73, 75). */
  function ChangeAmount(base: real, percent: real): (r: real)
    ensures base > 0.0 ==> (r >= 0.0 <==> percent >= 0.0)
  {
    base * (percent / 100.0)
  }

  /** The implied amount is `percent` percent of `base`: dividing it back out recovers the percentage. */
  lemma ChangeAmountRecoversPercent(base: real, percent: real)
    requires base != 0.0
    ensures ChangeAmount(base, percent) / base * 100.0 == percent
  {
    var a := ChangeAmount(base, percent);
    assert a / base == percent / 100.0;
  }

  /** `topPerformerChangeAmount` (Dashboard.tsx:85). */
  const TOP_PERFORMER_CHANGE_AMOUNT: real := 0.0

  /** The values the page shows, with the defaults of Dashboard.tsx:56-62. */
  datatype Shown = Shown(
    netWorth: real, netWorthChange: real, totalProfit: real, totalProfitChange: real,
    topPerformerName: string, topPerformerChange: real, allocation: seq<AssetAllocation>)

  /** The stats as shown; `None` is the state before (or without) a successful load. */
  function Displayed(stats: Option<DashboardStats>): (r: Shown)
    ensures stats.None? ==> r == Shown(0.0, 0.0, 0.0, 0.0, "-", 0.0, [])
    ensures stats.Some? ==> r.netWorth == stats.value.netWorth && r.totalProfit == stats.value.totalProfit
    ensures stats.Some? ==> r.netWorthChange == stats.value.netWorthChange && r.totalProfitChange == stats.value.totalProfitChange
    ensures stats.Some? ==> r.allocation == stats.value.allocation
    ensures r.topPerformerName == "-" <==>
      stats.None? || stats.value.topPerformerName.None? || stats.value.topPerformerName.value in ["", "-"]
    ensures stats.Some? && stats.value.topPerformerName.Some? && stats.value.topPerformerName.value != "" ==>
      r.topPerformerName == stats.value.topPerformerName.value
    ensures stats.Some? ==> r.topPerformerChange == PercentOrZero(stats.value.topPerformerChange)
  {
    match stats
    case None => Shown(0.0, 0.0, 0.0, 0.0, "-", 0.0, [])
    case Some(s) =>
      var name := if s.topPerformerName.Some? && s.topPerformerName.value != "" then s.topPerformerName.value else "-";
      Shown(s.netWorth, s.netWorthChange, s.totalProfit, s.totalProfitChange, name,
        PercentOrZero(s.topPerformerChange), s.allocation)
  }

  /** `totalAssets` (Dashboard.tsx:87): the `reduce` from the left, starting at 0. */
  function TotalAssets(items: seq<AssetAllocation>): real
    decreases |items|
  {
    if items == [] then 0.0 else TotalAssets(items[..|items| - 1]) + items[|items| - 1].value
  }

  /** The percentage shown beside a slice (Dashboard.tsx:196): 0 when the total is not positive. */
  function Share(value: real, total: real): (r: real)
    ensures total <= 0.0 ==> r == 0.0
    ensures total > 0.0 ==> r * total == value * 100.0
  {
    if total > 0.0 then value / total * 100.0 else 0.0
  }

  /** The sum of the shares shown for a list of slices. */
  function SumShares(items: seq<AssetAllocation>, total: real): real
    decreases |items|
  {
    if items == [] then 0.0 else SumShares(items[..|items| - 1], total) + Share(items[|items| - 1].value, total)
  }

  lemma ShareOfSum(a: real, b: real, total: real)
    requires total > 0.0
    ensures Share(a, total) + Share(b, total) == (a + b) / total * 100.0
  {
  }

  lemma {:induction false} SumSharesIsScaledTotal(items: seq<AssetAllocation>, total: real)
    requires total > 0.0
    ensures SumShares(items, total) == TotalAssets(items) / total * 100.0
    decreases |items|
  {
    if items != [] {
      var init := items[..|items| - 1];
      SumSharesIsScaledTotal(init, total);
      ShareOfSum(TotalAssets(init), items[|items| - 1].value, total);
    }
  }

  /** When the allocation total is positive the shown shares add up to 100. */
  lemma SharesSumTo100(items: seq<AssetAllocation>)
    requires TotalAssets(items) > 0.0
    ensures SumShares(items, TotalAssets(items)) == 100.0
  {
    var t := TotalAssets(items);
    SumSharesIsScaledTotal(items, t);
    assert t / t == 1.0;
  }

  /** When it is not, every share reads 0. */
  lemma {:induction false} NoTotalNoShares(items: seq<AssetAllocation>, total: real)
    requires total <= 0.0
    ensures SumShares(items, total) == 0.0
    decreases |items|
  {
    if items != [] {
      NoTotalNoShares(items[..|items| - 1], total);
    }
  }
}
