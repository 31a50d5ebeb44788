/**
 * The asset screen of AssetView.swift: which assets are shown, the summary
 * card's total, the row badges, the asset form (load, enable rule, save)
 * and the portfolio sheet (toggle, enable rule, create), plus deleting the
 * selected portfolio.  `now` stands for `Date()`.
 */
module AssetView {
  import opened Common
  import opened Models
  import Valuation

  // ---------------------------------------------------------------------------
  // What the screen shows

  /** `currentAssets`: the selected portfolio's assets (none when it has no list), or every asset. */
  function CurrentAssets(selected: Option<AssetPortfolio>, allAssets: seq<AssetItem>): seq<AssetItem>
    reads if selected.Some? then {selected.value} else {}
  {
    match selected
    case None => allAssets
    case Some(p) => p.assets.GetOr([])
  }

  /** `AssetSummaryCard.total`: the sum of the current values, 0 for no assets. */
  function Total(assets: seq<AssetItem>, now: Date): real
    reads assets
  {
    if assets == [] then 0.0
    else Total(assets[..|assets| - 1], now) + assets[|assets| - 1].CurrentValue(now)
  }

  /** The total of two lists shown one after the other is the sum of their totals. */
  lemma {:induction false} TotalConcat(a: seq<AssetItem>, b: seq<AssetItem>, now: Date)
    ensures Total(a + b, now) == Total(a, now) + Total(b, now)
    decreases |b|
  {
    if b != [] {
      var b' := b[..|b| - 1];
      assert (a + b)[..|a + b| - 1] == a + b';
      assert (a + b)[|a + b| - 1] == b[|b| - 1];
      TotalConcat(a, b', now);
    } else {
      assert a + b == a;
    }
  }

  /** With non-negative principals the total never decreases as time passes. */
  lemma {:induction false} TotalMonotoneInTime(assets: seq<AssetItem>, now1: Date, now2: Date)
    requires forall i :: 0 <= i < |assets| ==> assets[i].amount >= 0.0
    requires now1 <= now2
    ensures Total(assets, now1) <= Total(assets, now2)
    decreases |assets|
  {
    if assets != [] {
      var a := assets[|assets| - 1];
      TotalMonotoneInTime(assets[..|assets| - 1], now1, now2);
      Valuation.CurrentValueMonotoneInTime(a.amount, a.producedIncome, a.annualizedRate, a.updateDate, now1, now2);
    }
  }

  /** The total at the moment of the last update, when nothing has accrued, is principal plus recorded income. */
  function Booked(assets: seq<AssetItem>): real
    reads assets
  {
    if assets == [] then 0.0
    else Booked(assets[..|assets| - 1]) + assets[|assets| - 1].amount + assets[|assets| - 1].producedIncome
  }

  /** Without a positive rate, the shown total is just principal plus recorded income, at any time. */
  lemma {:induction false} TotalWithoutRates(assets: seq<AssetItem>, now: Date)
    requires forall i :: 0 <= i < |assets| ==> assets[i].annualizedRate <= 0.0
    ensures Total(assets, now) == Booked(assets)
    decreases |assets|
  {
    if assets != [] {
      var a := assets[|assets| - 1];
      TotalWithoutRates(assets[..|assets| - 1], now);
      Valuation.CurrentValueWithoutAccrual(a.amount, a.producedIncome, a.annualizedRate, a.updateDate, now);
    }
  }

  /** `AssetRow`'s daily-income badge is shown for a positive rate only. */
  predicate ShowsDailyIncome(a: AssetItem)
    reads a
  {
    a.annualizedRate > 0.0
  }

  /** `AssetRow`'s "含收益" line is shown for a positive total gain only. */
  predicate ShowsGain(a: AssetItem, now: Date)
    reads a
  {
    a.TotalGain(now) > 0.0
  }

  /**
   * A hidden badge never hides a daily income, and a positive principal at a
   * positive rate always shows one; an asset with recorded income that is not
   * negative shows its gain as soon as anything has accrued.
   */
  lemma RowBadges(a: AssetItem, now: Date)
    ensures !ShowsDailyIncome(a) ==> a.DailyIncome() == 0.0
    ensures ShowsDailyIncome(a) && a.amount > 0.0 ==> a.DailyIncome() > 0.0
    ensures a.producedIncome >= 0.0 && a.DynamicInterest(now) > 0.0 ==> ShowsGain(a, now)
    ensures a.annualizedRate <= 0.0 ==> (ShowsGain(a, now) <==> a.producedIncome > 0.0)
  {
    if ShowsDailyIncome(a) && a.amount > 0.0 {
      PositiveProduct(a.amount, a.annualizedRate / 100.0);
    }
  }

  lemma PositiveProduct(x: real, y: real)
    requires x > 0.0 && y > 0.0
    ensures x * y > 0.0
  {
  }

  // ---------------------------------------------------------------------------
  // The asset form

  const CommonTypes: seq<string> := ["银行存款", "现金", "公积金", "理财产品", "外币", "其他"]

  /** How the form shows a stored rate or income: 0 as an empty field. */
  function Shown(v: real): (r: Option<real>)
    ensures r.None? <==> v == 0.0
  {
    if v == 0.0 then None else Some(v)
  }

  /** What `save()` stores for a field: an empty field as 0. */
  function Stored(v: Option<real>): (r: real)
    ensures v.Some? ==> r == v.value
    ensures v.None? ==> r == 0.0
  {
    v.GetOr(0.0)
  }

  /** Showing a stored value and storing it again gives the value back. */
  lemma ShownStoredRoundTrip(v: real)
    ensures Stored(Shown(v)) == v
  {
  }

  /** `AssetFormSheet`: the form's fields, and the asset it edits (none for a new asset). */
  class AssetForm {
    const assetToEdit: Option<AssetItem>
    var name: string
    var kind: string
    var amount: Option<real>
    var producedIncome: Option<real>
    var annualizedRate: Option<real>

    /** A fresh sheet: empty name, "银行存款", every number field empty. */
    constructor (assetToEdit: Option<AssetItem>)
      ensures this.assetToEdit == assetToEdit
      ensures name == "" && kind == "银行存款"
      ensures amount.None? && producedIncome.None? && annualizedRate.None?
    {
      this.assetToEdit := assetToEdit;
      name := "";
      kind := "银行存款";
      amount := None;
      producedIncome := None;
      annualizedRate := None;
    }

    /** The save button is disabled without a name or an amount. */
    predicate SaveDisabled()
      reads this
    {
      name == "" || amount.None?
    }

    /** `onAppear`: an edited asset's fields are loaded, a zero rate or income as an empty field; the note is not shown. */
    method OnAppear()
      modifies this
      ensures assetToEdit.None? ==>
        && name == old(name) && kind == old(kind) && amount == old(amount)
        && producedIncome == old(producedIncome) && annualizedRate == old(annualizedRate)
      ensures assetToEdit.Some? ==>
        var a := assetToEdit.value;
        && name == a.name && kind == a.kind && amount == Some(a.amount)
        && annualizedRate == Shown(a.annualizedRate) && producedIncome == Shown(a.producedIncome)
      ensures assetToEdit.Some? ==> (!SaveDisabled() <==> assetToEdit.value.name != "")
    {
      if assetToEdit.Some? {
        var a := assetToEdit.value;
        name := a.name;
        amount := Some(a.amount);
        kind := a.kind;
        annualizedRate := if a.annualizedRate == 0.0 then None else Some(a.annualizedRate);
        producedIncome := if a.producedIncome == 0.0 then None else Some(a.producedIncome);
      }
    }

    /**
     * `save()`: empty number fields count as 0.  Editing overwrites name,
     * amount, type, rate and income of the edited asset and restarts its
     * accrual now; a new asset is created and stored with the note "".
     */
    method Save(store: Store, now: Date) returns (saved: AssetItem)
      requires store.Valid()
      modifies store`assets, store`nextId, if assetToEdit.Some? then {assetToEdit.value} else {}
      ensures store.Valid()
      ensures saved.name == name && saved.kind == kind && saved.amount == Stored(amount)
      ensures saved.annualizedRate == Stored(annualizedRate) && saved.producedIncome == Stored(producedIncome)
      ensures saved.updateDate == now
      ensures assetToEdit.Some? ==> saved == assetToEdit.value && saved.note == old(saved.note) && store.assets == old(store.assets)
      ensures assetToEdit.None? ==> fresh(saved) && saved.note == "" && store.assets == old(store.assets) + [saved]
    {
      var finalAmount := amount.GetOr(0.0);
      var finalRate := annualizedRate.GetOr(0.0);
      var finalProduced := producedIncome.GetOr(0.0);
      if assetToEdit.Some? {
        saved := assetToEdit.value;
        saved.name := name;
        saved.amount := finalAmount;
        saved.kind := kind;
        saved.annualizedRate := finalRate;
        saved.producedIncome := finalProduced;
        saved.updateDate := now;
      } else {
        var id := store.NewId();
        saved := new AssetItem(id, now, name, kind, finalAmount, finalProduced, finalRate);
        store.InsertAsset(saved);
      }
    }
  }

  /**
   * Opening an asset and saving without edits keeps every stored field and
   * only restarts the accrual: the asset is then worth its principal plus its
   * recorded income.
   */
  method LoadThenSave(store: Store, a: AssetItem, now: Date)
    requires store.Valid()
    modifies store`assets, store`nextId, a
    ensures store.Valid() && store.assets == old(store.assets)
    ensures a.name == old(a.name) && a.kind == old(a.kind) && a.amount == old(a.amount)
    ensures a.producedIncome == old(a.producedIncome) && a.annualizedRate == old(a.annualizedRate)
    ensures a.note == old(a.note) && a.updateDate == now
    ensures a.CurrentValue(now) == a.amount + a.producedIncome
  {
    var form := new AssetForm(Some(a));
    form.OnAppear();
    ShownStoredRoundTrip(a.annualizedRate);
    ShownStoredRoundTrip(a.producedIncome);
    var saved := form.Save(store, now);
  }

  // ---------------------------------------------------------------------------
  // Portfolios

  /** Adds an id that is not in the set and removes one that is (the row's tap). */
  function ToggleId(ids: set<Id>, id: Id): (r: set<Id>)
    ensures id in r <==> id !in ids
    ensures forall x :: x != id ==> (x in r <==> x in ids)
  {
    if id in ids then ids - {id} else ids + {id}
  }

  /** Tapping the same row twice restores the selection. */
  lemma ToggleTwice(ids: set<Id>, id: Id)
    ensures ToggleId(ToggleId(ids, id), id) == ids
  {
  }

  /** `allAssets.filter { selectedAssetIDs.contains($0.id) }`. */
  function SelectedAssets(all: seq<AssetItem>, ids: set<Id>): (r: seq<AssetItem>)
    ensures IsSubsequence(r, all)
    ensures forall i :: 0 <= i < |r| ==> r[i].id in ids
    ensures forall i :: 0 <= i < |all| && all[i].id in ids ==> all[i] in r
  {
    if all == [] then []
    else
      var p, x := all[..|all| - 1], all[|all| - 1];
      var rest := SelectedAssets(p, ids);
      assert forall i :: 0 <= i < |p| ==> p[i] == all[i];
      if x.id in ids then
        assert (rest + [x])[..|rest|] == rest;
        rest + [x]
      else rest
  }

  /** `CreatePortfolioSheet`: a name and the set of ticked asset ids over the given assets. */
  class PortfolioForm {
    const allAssets: seq<AssetItem>
    var name: string
    var selectedAssetIds: set<Id>

    constructor (allAssets: seq<AssetItem>)
      ensures this.allAssets == allAssets && name == "" && selectedAssetIds == {}
    {
      this.allAssets := allAssets;
      name := "";
      selectedAssetIds := {};
    }

    /** The create button is disabled without a name or without a ticked asset. */
    predicate CreateDisabled()
      reads this
    {
      name == "" || selectedAssetIds == {}
    }

    /** Tapping a row ticks or unticks that asset. */
    method Toggle(asset: AssetItem)
      modifies this`selectedAssetIds
      ensures selectedAssetIds == ToggleId(old(selectedAssetIds), asset.id)
    {
      if asset.id in selectedAssetIds {
        selectedAssetIds := selectedAssetIds - {asset.id};
      } else {
        selectedAssetIds := selectedAssetIds + {asset.id};
      }
    }

    /** "创建": a new portfolio holding exactly the ticked assets, in list order, added to the store. */
    method Create(store: Store, now: Date) returns (portfolio: AssetPortfolio)
      requires store.Valid()
      modifies store`portfolios, store`nextId
      ensures store.Valid()
      ensures fresh(portfolio) && store.portfolios == old(store.portfolios) + [portfolio]
      ensures portfolio.name == name && portfolio.createDate == now
      ensures portfolio.assets == Some(SelectedAssets(allAssets, selectedAssetIds))
      ensures store.assets == old(store.assets)
    {
      var selected := SelectedAssets(allAssets, selectedAssetIds);
      var id := store.NewId();
      portfolio := new AssetPortfolio(id, now, name, selected);
      store.InsertPortfolio(portfolio);
    }
  }

  /** Once a new portfolio is selected, the screen shows exactly its ticked assets. */
  lemma ShowsCreatedPortfolio(p: AssetPortfolio, all: seq<AssetItem>, ids: set<Id>)
    requires p.assets == Some(SelectedAssets(all, ids))
    ensures var shown := CurrentAssets(Some(p), all);
      && IsSubsequence(shown, all)
      && (forall i :: 0 <= i < |shown| ==> shown[i].id in ids)
      && (forall i :: 0 <= i < |all| && all[i].id in ids ==> all[i] in shown)
  {
  }

  /** The screen's portfolio selection (`nil` is the all-assets card). */
  class AssetScreen {
    var selectedPortfolio: Option<AssetPortfolio>

    constructor ()
      ensures selectedPortfolio.None?
    {
      selectedPortfolio := None;
    }

    /** "删除该汇总": deletes the selected portfolio, none of its assets, and returns to the all-assets card. */
    method DeleteSelectedPortfolio(store: Store)
      requires store.Valid()
      requires selectedPortfolio.Some?
      modifies store`portfolios, this
      ensures store.Valid()
      ensures var p := old(selectedPortfolio).value; store.portfolios == Filter(old(store.portfolios), (q: AssetPortfolio) => q != p)
      ensures selectedPortfolio.None? && store.assets == old(store.assets)
    {
      store.DeletePortfolio(selectedPortfolio.value);
      selectedPortfolio := None;
    }
  }
}
