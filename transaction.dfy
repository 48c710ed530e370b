/**
 * The position engine of backend/app/services/transaction.py.
 *
 * Two paths keep an (account, asset) position:
 *  - the RECOMPUTE path (`_recalculate_position`) folds every transaction of the
 *    pair, in time order, into a total quantity and a total cost and derives the
 *    average cost from them;
 *  - the INCREMENTAL path (`create_transaction`) updates the stored position by
 *    one transaction: weighted average on buy, clamp to zero on sell.
 * The two paths are modelled separately (`Fold`/`Recalculated` and
 * `ApplyCreate`/`AfterCreate`); `PathsAgreeOnTrades` proves where they agree and
 * `DepositMovesOnlyRecomputedQuantity`/`OversellClampedOnlyIncrementally`
 * exhibit where they do not.
 */
module TransactionService {
  import opened Wrappers
  import opened Models

  /** A position key: (account id, asset id). */
  type Pair = (int, int)

  /** Python truthiness of a nullable asset id: both None and 0 are false. */
  predicate HasAsset(assetId: Option<int>) {
    assetId.Some? && assetId.value != 0
  }

  /** `x or Decimal(0)`: a missing (or zero) amount reads as 0. */
  function OrZero(x: Option<real>): real {
    match x
    case Some(v) => v
    case None => 0.0
  }

  // ---------------------------------------------------------------------------
  // The recompute fold (transaction.py:35-68)
  // ---------------------------------------------------------------------------

  /** The fold's running state: `total_qty` and `total_cost`. */
  datatype Totals = Totals(qty: real, cost: real)

  /** One iteration of the loop at transaction.py:38-63. */
  function Step(acc: Totals, t: Txn): Totals {
    var qty := OrZero(t.quantity);
    var price := OrZero(t.pricePerUnit);
    match t.kind
    case Buy | Deposit => Totals(acc.qty + qty, acc.cost + (qty * price + t.fee))
    case Sell | Withdraw =>
      var cost := if acc.qty > 0.0 then acc.cost - (acc.cost / acc.qty) * qty else acc.cost;
      Totals(acc.qty - qty, cost)
    case Dividend =>
      if qty > 0.0 then Totals(acc.qty + qty, acc.cost + (qty * price + t.fee)) else acc
  }

  /** The fold over a time-ordered list of transactions, from `(0, 0)`. */
  function Fold(ts: seq<Txn>): Totals
    decreases |ts|
  {
    if ts == [] then Totals(0.0, 0.0) else Step(Fold(ts[..|ts| - 1]), ts[|ts| - 1])
  }

  /** The final average cost (transaction.py:66-68). */
  function AverageCost(acc: Totals): (avg: real)
    ensures acc.qty > 0.0 ==> avg * acc.qty == acc.cost
    ensures acc.qty <= 0.0 ==> avg == 0.0
  {
    if acc.qty > 0.0 then acc.cost / acc.qty else 0.0
  }

  /** How much one transaction moves the recomputed quantity. */
  function SignedQuantity(t: Txn): real {
    var qty := OrZero(t.quantity);
    match t.kind
    case Buy | Deposit => qty
    case Sell | Withdraw => -qty
    case Dividend => if qty > 0.0 then qty else 0.0
  }

  /** The net quantity of a list of transactions, summed independently of the cost. */
  function NetQuantity(ts: seq<Txn>): real
    decreases |ts|
  {
    if ts == [] then 0.0 else NetQuantity(ts[..|ts| - 1]) + SignedQuantity(ts[|ts| - 1])
  }

  /**
   * The recomputed quantity is the plain net quantity: buys, deposits and positive
   * dividends add, sells and withdrawals subtract, with no clamp, so it can be negative.
   */
  lemma {:induction false} FoldQuantityIsNet(ts: seq<Txn>)
    ensures Fold(ts).qty == NetQuantity(ts)
    decreases |ts|
  {
    if ts != [] {
      FoldQuantityIsNet(ts[..|ts| - 1]);
    }
  }

  /** A missing quantity or price counts as 0: the step only sees `OrZero` of them. */
  lemma MissingAmountsReadAsZero(acc: Totals, t: Txn)
    ensures Step(acc, t) == Step(acc, t.(quantity := Some(OrZero(t.quantity)), pricePerUnit := Some(OrZero(t.pricePerUnit))))
  {
  }

  /** A dividend without a positive quantity leaves the fold's state as it was. */
  lemma NonPositiveDividendIsIgnored(acc: Totals, t: Txn)
    requires t.kind == Dividend && OrZero(t.quantity) <= 0.0
    ensures Step(acc, t) == acc
  {
  }

  /**
   * One step of the fold: a buy, a deposit or a dividend of a positive
   * quantity adds its quantity and its cost basis; a sell or a withdrawal
   * subtracts its quantity with no clamp, and removes no cost from a holding
   * that is not positive.
   */
  lemma StepMeaning(acc: Totals, t: Txn)
    ensures t.kind == Buy || t.kind == Deposit || (t.kind == Dividend && OrZero(t.quantity) > 0.0) ==>
      Step(acc, t) == Totals(acc.qty + OrZero(t.quantity), acc.cost + Basis(t))
    ensures t.kind == Sell || t.kind == Withdraw ==> Step(acc, t).qty == acc.qty - OrZero(t.quantity)
    ensures (t.kind == Sell || t.kind == Withdraw) && acc.qty <= 0.0 ==> Step(acc, t).cost == acc.cost
  {
  }

  /**
   * Selling (or withdrawing) part of a positive holding removes cost in
   * proportion, so the average cost is unchanged while quantity stays positive.
   */
  lemma SellKeepsAverageCost(acc: Totals, t: Txn)
    requires t.kind == Sell || t.kind == Withdraw
    requires acc.qty > 0.0 && acc.qty - OrZero(t.quantity) > 0.0
    ensures Step(acc, t).qty == acc.qty - OrZero(t.quantity)
    ensures AverageCost(Step(acc, t)) == AverageCost(acc)
  {
    var a := acc.cost / acc.qty;
    var q := OrZero(t.quantity);
    var after := Step(acc, t);
    assert acc.cost == a * acc.qty;
    assert after.cost == a * acc.qty - a * q;
    assert after.cost == a * (acc.qty - q);
    assert after.cost / (acc.qty - q) == a;
  }

  /** Selling exactly the whole holding leaves no quantity and no cost. */
  lemma FullSellClearsCost(acc: Totals, t: Txn)
    requires t.kind == Sell || t.kind == Withdraw
    requires acc.qty > 0.0 && OrZero(t.quantity) == acc.qty
    ensures Step(acc, t) == Totals(0.0, 0.0)
  {
    var a := acc.cost / acc.qty;
    assert a * acc.qty == acc.cost;
  }

  // ---------------------------------------------------------------------------
  // The incremental path (transaction.py:103-143)
  // ---------------------------------------------------------------------------

  /** The position update `create_transaction` applies to the stored position. */
  function ApplyCreate(p: Position, t: Txn): Position {
    var qty := OrZero(t.quantity);
    var price := OrZero(t.pricePerUnit);
    match t.kind
    case Buy =>
      var oldTotalCost := p.totalQuantity * p.averageCost;
      var newCostBasis := qty * price + t.fee;
      var newTotalQty := p.totalQuantity + qty;
      Position(newTotalQty,
               if newTotalQty > 0.0 then (oldTotalCost + newCostBasis) / newTotalQty else p.averageCost)
    case Sell =>
      var left := p.totalQuantity - qty;
      if left <= 0.0 then Position(0.0, 0.0) else Position(left, p.averageCost)
    case _ => p
  }

  /**
   * What one incremental create does: a buy adds its quantity and keeps
   * quantity times average equal to the old cost plus the new cost basis (the
   * weighted average); a sell never leaves a negative quantity, keeps the
   * average while something is left and resets both to 0 otherwise; every other
   * kind leaves the position as it was.
   */
  lemma IncrementalCreateMeaning(p: Position, t: Txn)
    ensures var r := ApplyCreate(p, t);
      && (t.kind == Buy ==> r.totalQuantity == p.totalQuantity + OrZero(t.quantity))
      && (t.kind == Buy && r.totalQuantity > 0.0 ==>
            r.totalQuantity * r.averageCost ==
              p.totalQuantity * p.averageCost + (OrZero(t.quantity) * OrZero(t.pricePerUnit) + t.fee))
      && (t.kind == Buy && r.totalQuantity <= 0.0 ==> r.averageCost == p.averageCost)
      && (t.kind == Sell ==> r.totalQuantity >= 0.0)
      && (t.kind == Sell && r.totalQuantity > 0.0 ==>
            r == Position(p.totalQuantity - OrZero(t.quantity), p.averageCost))
      && (t.kind == Sell && p.totalQuantity - OrZero(t.quantity) <= 0.0 ==> r == Position(0.0, 0.0))
      && (t.kind != Buy && t.kind != Sell ==> r == p)
  {
    var r := ApplyCreate(p, t);
    if t.kind == Buy && r.totalQuantity > 0.0 {
      var k := OrZero(t.quantity) * OrZero(t.pricePerUnit) + t.fee;
      var x := p.totalQuantity * p.averageCost + k;
      assert r.averageCost == x / r.totalQuantity;
      assert r.totalQuantity * (x / r.totalQuantity) == x;
    }
  }

  /** Successive creates on one pair, starting from no position (read as `(0, 0)`). */
  function Replay(ts: seq<Txn>): Position
    decreases |ts|
  {
    if ts == [] then Position(0.0, 0.0) else ApplyCreate(Replay(ts[..|ts| - 1]), ts[|ts| - 1])
  }

  /** A buy of a positive quantity, or a sell of at most what is held. */
  predicate IsTrade(t: Txn, held: real) {
    || (t.kind == Buy && OrZero(t.quantity) > 0.0)
    || (t.kind == Sell && 0.0 <= OrZero(t.quantity) <= held)
  }

  /** A history made only of trades, each sell covered by the quantity held before it. */
  predicate Trades(ts: seq<Txn>) {
    forall i :: 0 <= i < |ts| ==> IsTrade(ts[i], Fold(ts[..i]).qty)
  }

  /** The invariant both paths keep on a history of trades. */
  predicate Agree(f: Totals, p: Position) {
    f.qty >= 0.0 && f.cost == f.qty * AverageCost(f) && p == Position(f.qty, AverageCost(f))
  }

  /** The cost a buy adds: `quantity * price_per_unit + fee`. */
  function Basis(t: Txn): real {
    OrZero(t.quantity) * OrZero(t.pricePerUnit) + t.fee
  }

  lemma StepBuy(f: Totals, t: Txn)
    requires t.kind == Buy
    ensures Step(f, t) == Totals(f.qty + OrZero(t.quantity), f.cost + Basis(t))
  {
  }

  lemma ApplyBuy(p: Position, t: Txn)
    requires t.kind == Buy && p.totalQuantity + OrZero(t.quantity) > 0.0
    ensures ApplyCreate(p, t) ==
      Position(p.totalQuantity + OrZero(t.quantity),
               (p.totalQuantity * p.averageCost + Basis(t)) / (p.totalQuantity + OrZero(t.quantity)))
  {
  }

  lemma PositiveAverage(g: Totals)
    requires g.qty > 0.0
    ensures AverageCost(g) == g.cost / g.qty && g.cost == g.qty * AverageCost(g)
  {
  }

  /** A buy of a positive quantity keeps the two paths in agreement. */
  lemma BuyStepAgrees(f: Totals, p: Position, t: Txn)
    requires Agree(f, p) && t.kind == Buy && OrZero(t.quantity) > 0.0
    ensures Agree(Step(f, t), ApplyCreate(p, t))
  {
    var g := Totals(f.qty + OrZero(t.quantity), f.cost + Basis(t));
    StepBuy(f, t);
    ApplyBuy(p, t);
    PositiveAverage(g);
  }

  /** A covered sell keeps the two paths in agreement. */
  lemma SellStepAgrees(f: Totals, p: Position, t: Txn)
    requires Agree(f, p) && t.kind == Sell && 0.0 <= OrZero(t.quantity) <= f.qty
    ensures Agree(Step(f, t), ApplyCreate(p, t))
  {
    var q := OrZero(t.quantity);
    if f.qty - q > 0.0 {
      SellKeepsAverageCost(f, t);
      PositiveAverage(Step(f, t));
    } else if f.qty > 0.0 {
      FullSellClearsCost(f, t);
    } else {
      assert f.cost == 0.0;
    }
  }

  /** A history of trades stays one after dropping its last element, which is itself a trade. */
  lemma TradesPrefix(ts: seq<Txn>)
    requires Trades(ts) && ts != []
    ensures Trades(ts[..|ts| - 1])
    ensures IsTrade(ts[|ts| - 1], Fold(ts[..|ts| - 1]).qty)
  {
    var init := ts[..|ts| - 1];
    forall i | 0 <= i < |init|
      ensures IsTrade(init[i], Fold(init[..i]).qty)
    {
      assert init[i] == ts[i] && init[..i] == ts[..i];
    }
    assert IsTrade(ts[|init|], Fold(ts[..|init|]).qty);
  }

  /** Extending an agreeing history by one trade keeps the agreement. */
  lemma TradeStepAgrees(ts: seq<Txn>)
    requires ts != []
    requires Agree(Fold(ts[..|ts| - 1]), Replay(ts[..|ts| - 1]))
    requires IsTrade(ts[|ts| - 1], Fold(ts[..|ts| - 1]).qty)
    ensures Agree(Fold(ts), Replay(ts))
  {
    var init, t := ts[..|ts| - 1], ts[|ts| - 1];
    if t.kind == Buy {
      BuyStepAgrees(Fold(init), Replay(init), t);
    } else {
      SellStepAgrees(Fold(init), Replay(init), t);
    }
  }

  /**
   * On histories of trades the two paths agree: replaying the creates gives the
   * recomputed quantity and average cost, and the recomputed cost is
   * quantity times average cost.
   */
  lemma {:induction false} PathsAgreeOnTrades(ts: seq<Txn>)
    requires Trades(ts)
    ensures Fold(ts).qty >= 0.0
    ensures Fold(ts).cost == Fold(ts).qty * AverageCost(Fold(ts))
    ensures Replay(ts) == Position(Fold(ts).qty, AverageCost(Fold(ts)))
    decreases |ts|
  {
    if ts != [] {
      TradesPrefix(ts);
      PathsAgreeOnTrades(ts[..|ts| - 1]);
      TradeStepAgrees(ts);
    }
  }

  /** A deposit moves quantity in the recompute path but not in the incremental one. */
  lemma DepositMovesOnlyRecomputedQuantity()
    ensures var d := Txn(1, Some(1), Deposit, Some(5.0), None, 0.0, 0, None);
      Fold([d]).qty == 5.0 && Replay([d]).totalQuantity == 0.0
  {
    var d := Txn(1, Some(1), Deposit, Some(5.0), None, 0.0, 0, None);
    assert [d][..0] == [];
  }

  /** Selling more than is held goes negative when recomputed and clamps to zero incrementally. */
  lemma OversellClampedOnlyIncrementally()
    ensures var b := Txn(1, Some(1), Buy, Some(1.0), Some(10.0), 0.0, 0, None);
            var s := Txn(1, Some(1), Sell, Some(3.0), None, 0.0, 1, None);
      Fold([b, s]) == Totals(-2.0, -20.0) && AverageCost(Fold([b, s])) == 0.0 &&
      Replay([b, s]) == Position(0.0, 0.0)
  {
    var b := Txn(1, Some(1), Buy, Some(1.0), Some(10.0), 0.0, 0, None);
    var s := Txn(1, Some(1), Sell, Some(3.0), None, 0.0, 1, None);
    assert [b, s][..1] == [b];
    assert [b][..0] == [];
    assert Fold([b]) == Totals(1.0, 10.0);
    assert Replay([b]) == Position(1.0, 10.0);
  }

  // ---------------------------------------------------------------------------
  // The store: selecting, recomputing, creating, updating, deleting
  // ---------------------------------------------------------------------------

  /** `account_id == a AND asset_id == s` (transaction.py:28-31). */
  predicate MatchesPair(t: Txn, accountId: int, assetId: int) {
    t.accountId == accountId && t.assetId == Some(assetId)
  }

  /** The transactions of one pair, in stored order. */
  function Matching(ts: seq<Txn>, accountId: int, assetId: int): (r: seq<Txn>)
    ensures forall t :: t in r ==> t in ts && MatchesPair(t, accountId, assetId)
    decreases |ts|
  {
    if ts == [] then []
    else
      var init := Matching(ts[..|ts| - 1], accountId, assetId);
      if MatchesPair(ts[|ts| - 1], accountId, assetId) then init + [ts[|ts| - 1]] else init
  }

  predicate TimeSorted(ts: seq<Txn>) {
    forall i, j :: 0 <= i < j < |ts| ==> ts[i].time <= ts[j].time
  }

  /**
   * What the query at transaction.py:28-33 may return: the pair's transactions
   * sorted by time, ties in any order.
   */
  predicate IsQueryResult(ordered: seq<Txn>, ts: seq<Txn>, accountId: int, assetId: int) {
    TimeSorted(ordered) && multiset(ordered) == multiset(Matching(ts, accountId, assetId))
  }

  /**
   * The positions after `_recalculate_position(accountId, assetId)` over the query
   * result `ordered` (transaction.py:18-94).
   */
  function Recalculated(positions: map<Pair, Position>, accountId: int, assetId: int, ordered: seq<Txn>)
    : (r: map<Pair, Position>)
    ensures forall k :: k != (accountId, assetId) ==> (k in r <==> k in positions)
    ensures forall k :: k in r && k != (accountId, assetId) ==> r[k] == positions[k]
    ensures assetId == 0 ==> r == positions
    ensures assetId != 0 && (accountId, assetId) in positions ==>
      (accountId, assetId) in r && r[(accountId, assetId)] == Position(Fold(ordered).qty, AverageCost(Fold(ordered)))
    ensures assetId != 0 && (accountId, assetId) !in positions ==>
      ((accountId, assetId) in r <==> Fold(ordered).qty != 0.0)
    ensures (accountId, assetId) in r ==>
      r[(accountId, assetId)] == Position(Fold(ordered).qty, AverageCost(Fold(ordered))) ||
      r == positions
  {
    if assetId == 0 then positions
    else
      var totals := Fold(ordered);
      var avg := AverageCost(totals);
      var key := (accountId, assetId);
      if key !in positions && totals.qty == 0.0 && avg == 0.0 then positions
      else positions[key := Position(totals.qty, avg)]
  }

  /** The positions after `create_transaction(t)` (transaction.py:101-146). */
  function AfterCreate(positions: map<Pair, Position>, t: Txn): (r: map<Pair, Position>)
    ensures !HasAsset(t.assetId) ==> r == positions
    ensures HasAsset(t.assetId) ==>
      var key := (t.accountId, t.assetId.value);
      key in r &&
      r[key] == ApplyCreate(if key in positions then positions[key] else Position(0.0, 0.0), t) &&
      forall k :: k != key ==> (k in r <==> k in positions) && (k in r ==> r[k] == positions[k])
  {
    if !HasAsset(t.assetId) then positions
    else
      var key := (t.accountId, t.assetId.value);
      var held := if key in positions then positions[key] else Position(0.0, 0.0);
      positions[key := ApplyCreate(held, t)]
  }

  /**
   * `TransactionUpdate` after `model_dump(exclude_unset=True)`: `None` means
   * "not set"; for a nullable column `Some(None)` sets it to NULL.
   */
  datatype TxnUpdate = TxnUpdate(
    accountId: Option<int>,
    assetId: Option<Option<int>>,
    kind: Option<TxnType>,
    quantity: Option<Option<real>>,
    pricePerUnit: Option<Option<real>>,
    fee: Option<real>,
    time: Option<int>,
    notes: Option<Option<string>>)

  /** `transaction.sqlmodel_update(data)`: only the fields that were set change. */
  function Patched(t: Txn, u: TxnUpdate): (r: Txn)
    ensures r.accountId == u.accountId.GetOr(t.accountId)
    ensures r.assetId == u.assetId.GetOr(t.assetId)
    ensures r.kind == u.kind.GetOr(t.kind)
    ensures r.quantity == u.quantity.GetOr(t.quantity)
    ensures r.pricePerUnit == u.pricePerUnit.GetOr(t.pricePerUnit)
    ensures r.fee == u.fee.GetOr(t.fee)
    ensures r.time == u.time.GetOr(t.time)
    ensures r.notes == u.notes.GetOr(t.notes)
    ensures u == TxnUpdate(None, None, None, None, None, None, None, None) ==> r == t
  {
    Txn(u.accountId.GetOr(t.accountId), u.assetId.GetOr(t.assetId), u.kind.GetOr(t.kind),
        u.quantity.GetOr(t.quantity), u.pricePerUnit.GetOr(t.pricePerUnit), u.fee.GetOr(t.fee),
        u.time.GetOr(t.time), u.notes.GetOr(t.notes))
  }

  /** The old pair is recomputed iff it had an asset and the pair changed (transaction.py:212). */
  predicate RecomputesOld(before: Txn, after: Txn) {
    HasAsset(before.assetId) && (before.accountId != after.accountId || before.assetId != after.assetId)
  }

  /** The pairs `update_transaction` recomputes (transaction.py:211-217). */
  function UpdateRecomputes(before: Txn, after: Txn): (r: set<Pair>)
    ensures |r| <= 2
    ensures HasAsset(after.assetId) ==> (after.accountId, after.assetId.value) in r
    ensures forall k :: k in r ==>
      (HasAsset(before.assetId) && k == (before.accountId, before.assetId.value)) ||
      (HasAsset(after.assetId) && k == (after.accountId, after.assetId.value))
  {
    (if RecomputesOld(before, after) then {(before.accountId, before.assetId.value)} else {}) +
    (if HasAsset(after.assetId) then {(after.accountId, after.assetId.value)} else {})
  }

  /** The positions after the recomputes of `update_transaction`, old pair first. */
  function AfterUpdate(positions: map<Pair, Position>, before: Txn, after: Txn,
                       orderedOld: seq<Txn>, orderedNew: seq<Txn>): (r: map<Pair, Position>)
    ensures forall k :: k !in UpdateRecomputes(before, after) ==>
      (k in r <==> k in positions) && (k in r ==> r[k] == positions[k])
  {
    var p := if RecomputesOld(before, after)
             then Recalculated(positions, before.accountId, before.assetId.value, orderedOld)
             else positions;
    if HasAsset(after.assetId) then Recalculated(p, after.accountId, after.assetId.value, orderedNew) else p
  }

  /** The query results `update_transaction` needs, read after the row is updated. */
  predicate UpdateQueries(ts: seq<Txn>, before: Txn, after: Txn, orderedOld: seq<Txn>, orderedNew: seq<Txn>) {
    && (RecomputesOld(before, after) ==>
          IsQueryResult(orderedOld, ts, before.accountId, before.assetId.value))
    && (HasAsset(after.assetId) ==> IsQueryResult(orderedNew, ts, after.accountId, after.assetId.value))
  }

  /** The pairs `delete_transaction` recomputes (transaction.py:228-230). */
  function DeleteRecomputes(t: Txn): (r: set<Pair>)
    ensures forall k :: k in r <==> HasAsset(t.assetId) && k == (t.accountId, t.assetId.value)
  {
    if HasAsset(t.assetId) then {(t.accountId, t.assetId.value)} else {}
  }

  function Removed(ts: seq<Txn>, i: nat): seq<Txn>
    requires i < |ts|
  {
    ts[..i] + ts[i + 1..]
  }

  lemma {:induction false} MatchingUnchangedByUpdate(ts: seq<Txn>, i: nat, x: Txn, accountId: int, assetId: int)
    requires i < |ts|
    requires !MatchesPair(ts[i], accountId, assetId) && !MatchesPair(x, accountId, assetId)
    ensures Matching(ts[i := x], accountId, assetId) == Matching(ts, accountId, assetId)
    decreases |ts|
  {
    var u := ts[i := x];
    if i < |ts| - 1 {
      assert u[..|u| - 1] == ts[..|ts| - 1][i := x];
      MatchingUnchangedByUpdate(ts[..|ts| - 1], i, x, accountId, assetId);
    } else {
      assert u[..|u| - 1] == ts[..|ts| - 1];
    }
  }

  lemma {:induction false} MatchingUnchangedByRemoval(ts: seq<Txn>, i: nat, accountId: int, assetId: int)
    requires i < |ts|
    requires !MatchesPair(ts[i], accountId, assetId)
    ensures Matching(Removed(ts, i), accountId, assetId) == Matching(ts, accountId, assetId)
    decreases |ts|
  {
    var rest := Removed(ts, i);
    if i == |ts| - 1 {
      assert rest == ts[..|ts| - 1];
    } else {
      assert rest[..|rest| - 1] == Removed(ts[..|ts| - 1], i);
      assert rest[|rest| - 1] == ts[|ts| - 1];
      MatchingUnchangedByRemoval(ts[..|ts| - 1], i, accountId, assetId);
    }
  }

  /**
   * Update misses no stale position: every pair (with an asset) whose set of
   * transactions the update changed is among the pairs it recomputes.
   */
  lemma UpdateRecomputesEveryChangedPair(ts: seq<Txn>, i: nat, u: TxnUpdate, accountId: int, assetId: int)
    requires i < |ts| && assetId != 0
    requires Matching(ts[i := Patched(ts[i], u)], accountId, assetId) != Matching(ts, accountId, assetId)
    ensures (accountId, assetId) in UpdateRecomputes(ts[i], Patched(ts[i], u))
  {
    var before, after := ts[i], Patched(ts[i], u);
    if !MatchesPair(before, accountId, assetId) && !MatchesPair(after, accountId, assetId) {
      MatchingUnchangedByUpdate(ts, i, after, accountId, assetId);
    }
  }

  /** Delete misses no stale position: a pair whose transactions changed is recomputed. */
  lemma DeleteRecomputesEveryChangedPair(ts: seq<Txn>, i: nat, accountId: int, assetId: int)
    requires i < |ts| && assetId != 0
    requires Matching(Removed(ts, i), accountId, assetId) != Matching(ts, accountId, assetId)
    ensures (accountId, assetId) in DeleteRecomputes(ts[i])
  {
    if !MatchesPair(ts[i], accountId, assetId) {
      MatchingUnchangedByRemoval(ts, i, accountId, assetId);
    }
  }

  /** The body of the loop at transaction.py:38-63, updating `total_qty` and `total_cost`. */
  method ApplyToTotals(totalQty0: real, totalCost0: real, txn: Txn) returns (totalQty: real, totalCost: real)
    ensures Totals(totalQty, totalCost) == Step(Totals(totalQty0, totalCost0), txn)
  {
    totalQty, totalCost := totalQty0, totalCost0;
    var qty := OrZero(txn.quantity);
    var price := OrZero(txn.pricePerUnit);
    var fee := txn.fee;
    if txn.kind == Buy || txn.kind == Deposit {
      totalCost := totalCost + (qty * price + fee);
      totalQty := totalQty + qty;
    } else if txn.kind == Sell || txn.kind == Withdraw {
      if totalQty > 0.0 {
        var avgCost := totalCost / totalQty;
        totalCost := totalCost - avgCost * qty;
      }
      totalQty := totalQty - qty;
    } else if txn.kind == Dividend {
      if qty > 0.0 {
        totalCost := totalCost + (qty * price + fee);
        totalQty := totalQty + qty;
      }
    }
  }

  /** The `transactions` and `positions` tables behind `TransactionService`. */
  class Ledger {
    var txns: seq<Txn>
    var positions: map<Pair, Position>

    constructor ()
      ensures txns == [] && positions == map[]
    {
      txns := [];
      positions := map[];
    }

    /** `_recalculate_position`, given what its query returned. */
    method RecalculatePosition(accountId: int, assetId: int, ordered: seq<Txn>)
      requires assetId != 0 ==> IsQueryResult(ordered, txns, accountId, assetId)
      modifies this
      ensures txns == old(txns)
      ensures positions == Recalculated(old(positions), accountId, assetId, ordered)
    {
      if assetId == 0 {
        return;
      }
      var totalQty, totalCost := 0.0, 0.0;
      for i := 0 to |ordered|
        invariant Totals(totalQty, totalCost) == Fold(ordered[..i])
        invariant txns == old(txns) && positions == old(positions)
      {
        totalQty, totalCost := ApplyToTotals(totalQty, totalCost, ordered[i]);
        assert ordered[..i + 1][..i] == ordered[..i];
      }
      assert ordered[..|ordered|] == ordered;
      var averageCost := 0.0;
      if totalQty > 0.0 {
        averageCost := totalCost / totalQty;
      }
      var key := (accountId, assetId);
      if key !in positions && totalQty == 0.0 && averageCost == 0.0 {
        return;
      }
      positions := positions[key := Position(totalQty, averageCost)];
    }

    /** `create_transaction`: store the row and update the position incrementally. */
    method CreateTransaction(t: Txn)
      modifies this
      ensures txns == old(txns) + [t]
      ensures positions == AfterCreate(old(positions), t)
    {
      txns := txns + [t];
      if HasAsset(t.assetId) {
        var key := (t.accountId, t.assetId.value);
        var position := if key in positions then positions[key] else Position(0.0, 0.0);
        ghost var held := position;
        var qty := OrZero(t.quantity);
        var price := OrZero(t.pricePerUnit);
        var fee := t.fee;
        if t.kind == Buy {
          var oldTotalCost := position.totalQuantity * position.averageCost;
          var newCostBasis := qty * price + fee;
          var newTotalQty := position.totalQuantity + qty;
          if newTotalQty > 0.0 {
            position := position.(averageCost := (oldTotalCost + newCostBasis) / newTotalQty);
          }
          position := position.(totalQuantity := newTotalQty);
        } else if t.kind == Sell {
          position := position.(totalQuantity := position.totalQuantity - qty);
          if position.totalQuantity <= 0.0 {
            position := Position(0.0, 0.0);
          }
        }
        assert position == ApplyCreate(held, t);
        positions := positions[key := position];
      }
    }

    /** `update_transaction` on the row at index `i`, then its recomputes. */
    method UpdateTransaction(i: nat, u: TxnUpdate, orderedOld: seq<Txn>, orderedNew: seq<Txn>)
      requires i < |txns|
      requires UpdateQueries(txns[i := Patched(txns[i], u)], txns[i], Patched(txns[i], u), orderedOld, orderedNew)
      modifies this
      ensures txns == old(txns)[i := Patched(old(txns)[i], u)]
      ensures positions == AfterUpdate(old(positions), old(txns)[i], txns[i], orderedOld, orderedNew)
    {
      var before := txns[i];
      txns := txns[i := Patched(before, u)];
      var after := txns[i];
      if HasAsset(before.assetId) && (before.accountId != after.accountId || before.assetId != after.assetId) {
        RecalculatePosition(before.accountId, before.assetId.value, orderedOld);
      }
      if HasAsset(after.assetId) {
        RecalculatePosition(after.accountId, after.assetId.value, orderedNew);
      }
    }

    /** `delete_transaction` on the row at index `i`, then its recompute. */
    method DeleteTransaction(i: nat, ordered: seq<Txn>)
      requires i < |txns|
      requires HasAsset(txns[i].assetId) ==>
        IsQueryResult(ordered, Removed(txns, i), txns[i].accountId, txns[i].assetId.value)
      modifies this
      ensures txns == Removed(old(txns), i)
      ensures HasAsset(old(txns)[i].assetId) ==>
        positions == Recalculated(old(positions), old(txns)[i].accountId, old(txns)[i].assetId.value, ordered)
      ensures !HasAsset(old(txns)[i].assetId) ==> positions == old(positions)
    {
      var t := txns[i];
      txns := Removed(txns, i);
      if HasAsset(t.assetId) {
        RecalculatePosition(t.accountId, t.assetId.value, ordered);
      }
    }
  }
}
