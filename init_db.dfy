/**
 * Seeding of the fiat assets (backend/app/core/init_db.py): every entry of
 * `INITIAL_ASSETS` is inserted unless an asset with its ticker exists.
 */
module InitDb {
  import opened Wrappers
  import opened Models

  /** `INITIAL_ASSETS` (init_db.py:5-10): the US dollar is the one active entry. */
  const INITIAL_ASSETS: seq<Asset> := [Asset("USD", "US Dollar", Fiat, "USD", 1.0)]

  predicate HasTicker(assets: seq<Asset>, ticker: string) {
    exists i :: 0 <= i < |assets| && assets[i].ticker == ticker
  }

  /** The `unique=True` constraint on `ticker` (models/assets.py:17). */
  predicate UniqueTickers(assets: seq<Asset>) {
    forall i, j :: 0 <= i < j < |assets| ==> assets[i].ticker != assets[j].ticker
  }

  /**
   * The `assets` table after seeding `entries` in order: an entry is appended
   * when no row, including one added earlier in the run, has its ticker.
   */
  function Seeded(assets: seq<Asset>, entries: seq<Asset>): seq<Asset>
    decreases |entries|
  {
    if entries == [] then assets
    else
      var before := Seeded(assets, entries[..|entries| - 1]);
      var e := entries[|entries| - 1];
      if HasTicker(before, e.ticker) then before else before + [e]
  }

  /** `select(Asset).where(Asset.ticker == ticker).first()` (init_db.py:15). */
  function FirstWithTicker(assets: seq<Asset>, ticker: string): (r: Option<Asset>)
    ensures r.None? <==> !HasTicker(assets, ticker)
    ensures r.Some? ==> r.value in assets && r.value.ticker == ticker
    decreases |assets|
  {
    if assets == [] then None
    else if assets[0].ticker == ticker then Some(assets[0])
    else
      var r := FirstWithTicker(assets[1..], ticker);
      assert forall i :: 1 <= i < |assets| ==> assets[i] == assets[1..][i - 1];
      r
  }

  /** Seeding only appends: the rows that were there, those with a listed ticker included, are unchanged. */
  lemma {:induction false} SeededExtends(assets: seq<Asset>, entries: seq<Asset>)
    ensures assets <= Seeded(assets, entries)
    decreases |entries|
  {
    if entries != [] {
      SeededExtends(assets, entries[..|entries| - 1]);
    }
  }

  /** Every row seeding adds is one of the listed entries. */
  lemma {:induction false} SeededAddsOnlyListed(assets: seq<Asset>, entries: seq<Asset>)
    ensures forall j :: |assets| <= j < |Seeded(assets, entries)| ==> Seeded(assets, entries)[j] in entries
    decreases |entries|
  {
    if entries != [] {
      var init := entries[..|entries| - 1];
      SeededAddsOnlyListed(assets, init);
      SeededExtends(assets, init);
      assert forall e :: e in init ==> e in entries;
    }
  }

  /** After seeding, an asset exists for every listed ticker. */
  lemma {:induction false} SeededHasEveryTicker(assets: seq<Asset>, entries: seq<Asset>)
    ensures forall e :: e in entries ==> HasTicker(Seeded(assets, entries), e.ticker)
    decreases |entries|
  {
    if entries != [] {
      var init, last := entries[..|entries| - 1], entries[|entries| - 1];
      SeededHasEveryTicker(assets, init);
      var before := Seeded(assets, init);
      var after := Seeded(assets, entries);
      assert before <= after;
      forall e | e in entries
        ensures HasTicker(after, e.ticker)
      {
        if e == last {
          if !HasTicker(before, e.ticker) {
            assert after[|after| - 1] == e;
          }
        } else {
          assert e in init;
          var i :| 0 <= i < |before| && before[i].ticker == e.ticker;
          assert after[i] == before[i];
        }
      }
    }
  }

  /** Seeding keeps the tickers unique. */
  lemma {:induction false} SeededKeepsUnique(assets: seq<Asset>, entries: seq<Asset>)
    requires UniqueTickers(assets)
    ensures UniqueTickers(Seeded(assets, entries))
    decreases |entries|
  {
    if entries != [] {
      SeededKeepsUnique(assets, entries[..|entries| - 1]);
    }
  }

  /** Seeding a table that already has every listed ticker changes nothing. */
  lemma {:induction false} SeededNoop(assets: seq<Asset>, entries: seq<Asset>)
    requires forall e :: e in entries ==> HasTicker(assets, e.ticker)
    ensures Seeded(assets, entries) == assets
    decreases |entries|
  {
    if entries != [] {
      var init, last := entries[..|entries| - 1], entries[|entries| - 1];
      assert forall e :: e in init ==> e in entries;
      SeededNoop(assets, init);
      assert last in entries;
    }
  }

  /** Running the seeding twice leaves the table as running it once does. */
  lemma SeededIdempotent(assets: seq<Asset>, entries: seq<Asset>)
    ensures Seeded(Seeded(assets, entries), entries) == Seeded(assets, entries)
  {
    SeededHasEveryTicker(assets, entries);
    SeededNoop(Seeded(assets, entries), entries);
  }

  /** The `assets` table. */
  class AssetTable {
    var assets: seq<Asset>

    constructor (assets: seq<Asset>)
      ensures this.assets == assets
    {
      this.assets := assets;
    }

    /** `init_fiat_assets` (init_db.py:12-24). */
    method InitFiatAssets()
      modifies this
      ensures assets == Seeded(old(assets), INITIAL_ASSETS)
    {
      for i := 0 to |INITIAL_ASSETS|
        invariant assets == Seeded(old(assets), INITIAL_ASSETS[..i])
      {
        var assetData := INITIAL_ASSETS[i];
        var asset := FirstWithTicker(assets, assetData.ticker);
        assert INITIAL_ASSETS[..i + 1][..i] == INITIAL_ASSETS[..i];
        if asset.None? {
          assets := assets + [assetData];
        }
      }
      assert INITIAL_ASSETS[..|INITIAL_ASSETS|] == INITIAL_ASSETS;
    }
  }

  /** After `init_fiat_assets` the US dollar is in the table, and the tickers stay unique. */
  lemma InitialSeedingMeaning(assets: seq<Asset>)
    ensures HasTicker(Seeded(assets, INITIAL_ASSETS), "USD")
    ensures UniqueTickers(assets) ==> UniqueTickers(Seeded(assets, INITIAL_ASSETS))
  {
    SeededHasEveryTicker(assets, INITIAL_ASSETS);
    assert INITIAL_ASSETS[0] in INITIAL_ASSETS;
    if UniqueTickers(assets) {
      SeededKeepsUnique(assets, INITIAL_ASSETS);
    }
  }
}
