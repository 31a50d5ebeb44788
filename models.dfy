/**
 * The persisted entities of Models.swift (`BillItem`, `AssetItem`,
 * `AssetPortfolio`) as classes whose fields other screens update in place,
 * the local calendar as an explicit value, and the object store (SwiftData's
 * `ModelContext`) as a class holding one sequence per entity kind.
 *
 * The Swift field `type` is called `kind` here (`type` is a Dafny keyword).
 * `UUID()` is modelled by the store's counter `nextId`.
 */
module Models {
  import opened Common
  import Valuation

  type Id = nat

  /** The fields `Calendar.dateComponents([.year, .month, .day, .hour, .minute], from:)` yields. */
  datatype DateComponents = DateComponents(year: int, month: int, day: int, hour: int, minute: int)

  /**
   * `Calendar.current` with its time zone fixed: `components` splits a date into
   * local calendar fields, `date` rebuilds a date from fields (`date(from:)`,
   * which may fail).
   */
  datatype Calendar = Calendar(components: Date -> DateComponents, date: DateComponents -> Option<Date>) {
    function Year(d: Date): int {
      components(d).year
    }

    function Month(d: Date): int {
      components(d).month
    }

    /** A Gregorian-like calendar: every month number lies in 1..12. */
    ghost predicate Valid() {
      forall d :: 1 <= components(d).month <= 12
    }
  }

  /** The six stored fields of a bill, as a value. */
  datatype BillRecord = BillRecord(date: Date, kind: string, category: string, channel: string, amount: real, note: string)

  /** `BillItem`: one income or expense transaction. */
  class BillItem {
    const id: Id
    var date: Date
    var kind: string
    var category: string
    var channel: string
    var amount: real
    var note: string

    /** `init(date:type:category:channel:amount:note:)` stores its six arguments verbatim. */
    constructor (id: Id, date: Date, kind: string, category: string, channel: string, amount: real, note: string)
      ensures this.id == id
      ensures Record() == BillRecord(date, kind, category, channel, amount, note)
    {
      this.id := id;
      this.date := date;
      this.kind := kind;
      this.category := category;
      this.channel := channel;
      this.amount := amount;
      this.note := note;
    }

    function Record(): BillRecord
      reads this
    {
      BillRecord(date, kind, category, channel, amount, note)
    }

    /** The derived `year`, read through the calendar on every access. */
    function Year(cal: Calendar): int
      reads this
    {
      cal.Year(date)
    }

    /** The derived `month`, read through the calendar on every access. */
    function Month(cal: Calendar): (r: int)
      reads this
      ensures cal.Valid() ==> 1 <= r <= 12
    {
      cal.Month(date)
    }
  }

  /** `AssetItem`: a holding whose value grows with simple interest on its principal. */
  class AssetItem {
    const id: Id
    var name: string
    var kind: string
    var amount: real
    var producedIncome: real
    var annualizedRate: real
    var note: string
    var updateDate: Date

    /**
     * `init(name:type:amount:producedIncome:annualizedRate:note:)`: income and rate
     * default to 0, the note to "", and the principal is dated now.
     */
    constructor (id: Id, now: Date, name: string, kind: string, amount: real,
                 producedIncome: real := 0.0, annualizedRate: real := 0.0, note: string := "")
      ensures this.id == id && this.name == name && this.kind == kind
      ensures this.amount == amount && this.producedIncome == producedIncome
      ensures this.annualizedRate == annualizedRate && this.note == note
      ensures updateDate == now
    {
      this.id := id;
      this.name := name;
      this.kind := kind;
      this.amount := amount;
      this.producedIncome := producedIncome;
      this.annualizedRate := annualizedRate;
      this.note := note;
      this.updateDate := now;
    }

    /** `dynamicInterest`: accrued on the principal only, and only once the principal's date has passed. */
    function DynamicInterest(now: Date): (r: real)
      reads this
      ensures annualizedRate <= 0.0 || now <= updateDate ==> r == 0.0
      ensures amount >= 0.0 ==> r >= 0.0
      ensures now > updateDate ==> r == DailyIncome() * Valuation.ElapsedDays(updateDate, now)
    {
      if now > updateDate then
        Valuation.InterestIsDailyIncomeTimesDays(amount, annualizedRate, updateDate, now);
        Valuation.Interest(amount, annualizedRate, updateDate, now)
      else
        Valuation.Interest(amount, annualizedRate, updateDate, now)
    }

    /** `totalGain`: the recorded income plus what has accrued. */
    function TotalGain(now: Date): (r: real)
      reads this
      ensures r == producedIncome + DynamicInterest(now)
      ensures amount >= 0.0 ==> r >= producedIncome
    {
      Valuation.TotalGain(amount, producedIncome, annualizedRate, updateDate, now)
    }

    /** `currentValue`: the principal plus the total gain, with no floor. */
    function CurrentValue(now: Date): (r: real)
      reads this
      ensures r == amount + TotalGain(now)
      ensures amount >= 0.0 ==> r >= amount + producedIncome
    {
      Valuation.CurrentValue(amount, producedIncome, annualizedRate, updateDate, now)
    }

    /** `dailyIncome`: one day's projected yield on the principal. */
    function DailyIncome(): (r: real)
      reads this
      ensures annualizedRate <= 0.0 ==> r == 0.0
      ensures amount >= 0.0 ==> r >= 0.0
    {
      Valuation.DailyIncome(amount, annualizedRate)
    }
  }

  /** `AssetPortfolio`: a named view over some assets; it owns none of them. */
  class AssetPortfolio {
    const id: Id
    var name: string
    var createDate: Date
    var assets: Option<seq<AssetItem>>

    /** `init(name:assets:)`: stores the given asset list and dates the portfolio now. */
    constructor (id: Id, now: Date, name: string, assets: seq<AssetItem> := [])
      ensures this.id == id && this.name == name && createDate == now
      ensures this.assets == Some(assets)
    {
      this.id := id;
      this.name := name;
      this.createDate := now;
      this.assets := Some(assets);
    }
  }

  /** A bill's derived month is a month number whenever the calendar's are. */
  lemma BillMonthInRange(b: BillItem, cal: Calendar)
    requires cal.Valid()
    ensures 1 <= b.Month(cal) <= 12
  {
  }

  /** With the initializer's defaults, an asset is worth its principal at the moment it is created. */
  lemma FreshAssetWorthPrincipal(a: AssetItem, now: Date)
    requires a.producedIncome == 0.0 && a.updateDate == now
    ensures a.DynamicInterest(now) == 0.0 && a.TotalGain(now) == 0.0 && a.CurrentValue(now) == a.amount
  {
  }

  /** Removes one object from a list of bills (SwiftData's `delete` by identity), keeping the order of the rest. */
  function WithoutBill(items: seq<BillItem>, x: BillItem): (r: seq<BillItem>)
    ensures |r| <= |items|
    ensures forall i :: 0 <= i < |r| ==> r[i] in items && r[i] != x
    ensures forall i :: 0 <= i < |items| && items[i] != x ==> items[i] in r
  {
    if items == [] then []
    else WithoutBill(items[..|items| - 1], x) + (if items[|items| - 1] == x then [] else [items[|items| - 1]])
  }

  /** The persistent store: the fetch result of every entity kind, in fetch order. */
  class Store {
    var assets: seq<AssetItem>
    var bills: seq<BillItem>
    var portfolios: seq<AssetPortfolio>
    var nextId: Id

    /** Every stored id was handed out by `NewId`, and an id names one object of its kind. */
    ghost predicate Valid()
      reads this
    {
      && (forall a :: a in assets ==> a.id < nextId)
      && (forall b :: b in bills ==> b.id < nextId)
      && (forall p :: p in portfolios ==> p.id < nextId)
      && (forall a, a' :: a in assets && a' in assets && a.id == a'.id ==> a == a')
      && (forall b, b' :: b in bills && b' in bills && b.id == b'.id ==> b == b')
      && (forall p, p' :: p in portfolios && p' in portfolios && p.id == p'.id ==> p == p')
    }

    constructor ()
      ensures Valid()
      ensures assets == [] && bills == [] && portfolios == []
    {
      assets, bills, portfolios, nextId := [], [], [], 0;
    }

    /** `UUID()`: an identifier no stored object has. */
    method NewId() returns (id: Id)
      requires Valid()
      modifies this`nextId
      ensures Valid()
      ensures id == old(nextId) && nextId == id + 1
    {
      id := nextId;
      nextId := nextId + 1;
    }

    /** `context.insert(item)` for a bill with a fresh id. */
    method InsertBill(item: BillItem)
      requires Valid()
      requires item.id < nextId && forall b :: b in bills ==> b.id != item.id
      modifies this`bills
      ensures Valid()
      ensures bills == old(bills) + [item]
    {
      bills := bills + [item];
    }

    /** `context.insert(item)` for an asset with a fresh id. */
    method InsertAsset(item: AssetItem)
      requires Valid()
      requires item.id < nextId && forall a :: a in assets ==> a.id != item.id
      modifies this`assets
      ensures Valid()
      ensures assets == old(assets) + [item]
    {
      assets := assets + [item];
    }

    /** `context.insert(portfolio)` for a portfolio with a fresh id. */
    method InsertPortfolio(p: AssetPortfolio)
      requires Valid()
      requires p.id < nextId && forall q :: q in portfolios ==> q.id != p.id
      modifies this`portfolios
      ensures Valid()
      ensures portfolios == old(portfolios) + [p]
    {
      portfolios := portfolios + [p];
    }

    /** `context.delete(item)` for a bill. */
    method DeleteBill(item: BillItem)
      requires Valid()
      modifies this`bills
      ensures Valid()
      ensures bills == WithoutBill(old(bills), item)
    {
      bills := WithoutBill(bills, item);
    }

    /** `context.delete(portfolio)`: the member assets stay in the store. */
    method DeletePortfolio(p: AssetPortfolio)
      requires Valid()
      modifies this`portfolios
      ensures Valid()
      ensures portfolios == Filter(old(portfolios), (q: AssetPortfolio) => q != p)
    {
      portfolios := Filter(portfolios, (q: AssetPortfolio) => q != p);
    }

    /** `context.delete(model: AssetItem.self)`. */
    method DeleteAllAssets()
      requires Valid()
      modifies this`assets
      ensures Valid() && assets == []
    {
      assets := [];
    }

    /** `context.delete(model: BillItem.self)`. */
    method DeleteAllBills()
      requires Valid()
      modifies this`bills
      ensures Valid() && bills == []
    {
      bills := [];
    }
  }

  /** `after` is `before` followed by one bill per record, holding that record. */
  ghost predicate Appended(before: seq<BillItem>, after: seq<BillItem>, records: seq<BillRecord>)
    reads after
  {
    && |after| == |before| + |records|
    && after[..|before|] == before
    && forall k :: 0 <= k < |records| ==> after[|before| + k].Record() == records[k]
  }

  lemma AppendedSnoc(before: seq<BillItem>, prev: seq<BillItem>, item: BillItem, records: seq<BillRecord>, i: nat)
    requires i < |records|
    requires Appended(before, prev, records[..i])
    requires item.Record() == records[i]
    ensures Appended(before, prev + [item], records[..i + 1])
  {
    var after := prev + [item];
    assert after[..|prev|] == prev;
    assert after[..|before|] == prev[..|before|];
    forall k | 0 <= k < i + 1
      ensures after[|before| + k].Record() == records[k]
    {
      if k < i {
        assert after[|before| + k] == prev[|before| + k];
      }
    }
  }

  /** Inserts a new bill with a new id per record, in record order (the insertion loops of `importCSV` and `restoreBackup`). */
  method InsertRecords(store: Store, records: seq<BillRecord>)
    requires store.Valid()
    modifies store`bills, store`nextId
    ensures store.Valid()
    ensures Appended(old(store.bills), store.bills, records)
    ensures forall k :: |old(store.bills)| <= k < |store.bills| ==> fresh(store.bills[k])
  {
    ghost var before := store.bills;
    var i := 0;
    while i < |records|
      invariant 0 <= i <= |records|
      invariant store.Valid()
      invariant Appended(before, store.bills, records[..i])
      invariant forall k :: |before| <= k < |store.bills| ==> fresh(store.bills[k])
    {
      var r := records[i];
      var id := store.NewId();
      var item := new BillItem(id, r.date, r.kind, r.category, r.channel, r.amount, r.note);
      ghost var prev := store.bills;
      store.InsertBill(item);
      AppendedSnoc(before, prev, item, records, i);
      i := i + 1;
    }
    assert records[..i] == records;
  }
}
