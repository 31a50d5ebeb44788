/**
 * The JSON backup of BackupModels.swift and BackupService.swift: the
 * id-free transfer objects, the export that maps every stored asset and bill
 * to one of them, and the restore that rebuilds objects from them, either
 * next to the existing ones or in their place.
 *
 * Reading the file, the ISO 8601 JSON encoding and decoding, the temporary
 * file name and `context.save()` are not modelled: the export yields the
 * container itself, and the restore receives the decoder's verdict, `None`
 * when the file could not be read or decoded.
 */
module Backup {
  import opened Common
  import opened Models
  import Valuation

  /** `AssetDTO`: an asset's stored fields, without id and without portfolio links. */
  datatype AssetDTO = AssetDTO(
    name: string, kind: string, amount: real, producedIncome: real,
    annualizedRate: real, note: string, updateDate: Date)

  /** `BillDTO`: a bill's six fields, without id. */
  datatype BillDTO = BillDTO(date: Date, kind: string, category: string, channel: string, amount: real, note: string) {
    /** The record a restored bill is built from. */
    function Record(): BillRecord {
      BillRecord(date, kind, category, channel, amount, note)
    }
  }

  /** `BackupContainer`. */
  datatype BackupContainer = BackupContainer(version: string, exportedAt: Date, assets: seq<AssetDTO>, bills: seq<BillDTO>)

  const Version: string := "1.0"

  /** `AssetDTO.init(from:)`. */
  function AssetDTOFrom(item: AssetItem): AssetDTO
    reads item
  {
    AssetDTO(item.name, item.kind, item.amount, item.producedIncome, item.annualizedRate, item.note, item.updateDate)
  }

  /** `BillDTO.init(from:)`. */
  function BillDTOFrom(item: BillItem): BillDTO
    reads item
  {
    BillDTO(item.date, item.kind, item.category, item.channel, item.amount, item.note)
  }

  /** A bill and a transfer object agree exactly when the bill holds the object's record. */
  lemma BillDTOAgreement(item: BillItem, dto: BillDTO)
    ensures BillDTOFrom(item) == dto <==> item.Record() == dto.Record()
  {
  }

  /** The valuation a transfer object's fields give at a moment. */
  function CurrentValueOf(dto: AssetDTO, now: Date): real {
    Valuation.CurrentValue(dto.amount, dto.producedIncome, dto.annualizedRate, dto.updateDate, now)
  }

  /** The transfer object keeps everything the valuation reads: it values the asset as the asset itself does. */
  lemma AssetDTOValuation(item: AssetItem, now: Date)
    ensures CurrentValueOf(AssetDTOFrom(item), now) == item.CurrentValue(now)
    ensures Valuation.TotalGain(item.amount, item.producedIncome, item.annualizedRate, item.updateDate, now) == item.TotalGain(now)
  {
  }

  /** `assets.map { AssetDTO(from: $0) }`. */
  function AssetDTOs(items: seq<AssetItem>): (r: seq<AssetDTO>)
    reads items
    ensures |r| == |items|
    ensures forall i :: 0 <= i < |items| ==> r[i] == AssetDTOFrom(items[i])
  {
    if items == [] then [] else AssetDTOs(items[..|items| - 1]) + [AssetDTOFrom(items[|items| - 1])]
  }

  /** `bills.map { BillDTO(from: $0) }`. */
  function BillDTOs(items: seq<BillItem>): (r: seq<BillDTO>)
    reads items
    ensures |r| == |items|
    ensures forall i :: 0 <= i < |items| ==> r[i] == BillDTOFrom(items[i])
  {
    if items == [] then [] else BillDTOs(items[..|items| - 1]) + [BillDTOFrom(items[|items| - 1])]
  }

  /** The records the bills of a backup are restored from. */
  function Records(dtos: seq<BillDTO>): (r: seq<BillRecord>)
    ensures |r| == |dtos|
    ensures forall i :: 0 <= i < |dtos| ==> r[i] == dtos[i].Record()
  {
    if dtos == [] then [] else Records(dtos[..|dtos| - 1]) + [dtos[|dtos| - 1].Record()]
  }

  /** `createBackupFile(context:)` up to the encoder: version "1.0", the moment, and every stored asset and bill in fetch order. */
  function Export(store: Store, now: Date): (b: BackupContainer)
    reads store, store.assets, store.bills
    ensures b.version == Version && b.exportedAt == now
    ensures |b.assets| == |store.assets| && |b.bills| == |store.bills|
    ensures forall i :: 0 <= i < |store.assets| ==> b.assets[i] == AssetDTOFrom(store.assets[i])
    ensures forall i :: 0 <= i < |store.bills| ==> b.bills[i] == BillDTOFrom(store.bills[i])
  {
    BackupContainer(Version, now, AssetDTOs(store.assets), BillDTOs(store.bills))
  }

  /** `after` is `before` followed by one new asset per transfer object, holding that object's fields. */
  ghost predicate AssetsRestored(before: seq<AssetItem>, after: seq<AssetItem>, dtos: seq<AssetDTO>)
    reads after
  {
    && |after| == |before| + |dtos|
    && after[..|before|] == before
    && forall k :: 0 <= k < |dtos| ==> AssetDTOFrom(after[|before| + k]) == dtos[k]
  }

  lemma AssetsRestoredSnoc(before: seq<AssetItem>, prev: seq<AssetItem>, item: AssetItem, dtos: seq<AssetDTO>, i: nat)
    requires i < |dtos|
    requires AssetsRestored(before, prev, dtos[..i])
    requires AssetDTOFrom(item) == dtos[i]
    ensures AssetsRestored(before, prev + [item], dtos[..i + 1])
  {
    var after := prev + [item];
    assert after[..|prev|] == prev;
    assert after[..|before|] == prev[..|before|];
    forall k | 0 <= k < i + 1
      ensures AssetDTOFrom(after[|before| + k]) == dtos[k]
    {
      if k < i {
        assert after[|before| + k] == prev[|before| + k];
      }
    }
  }

  /**
   * The asset loop of `restoreBackup`: a new asset per transfer object, built
   * with the initializer (dated now) and then given the object's `updateDate`.
   */
  method InsertAssets(store: Store, dtos: seq<AssetDTO>, now: Date)
    requires store.Valid()
    modifies store`assets, store`nextId
    ensures store.Valid()
    ensures AssetsRestored(old(store.assets), store.assets, dtos)
    ensures forall k :: |old(store.assets)| <= k < |store.assets| ==> fresh(store.assets[k])
  {
    ghost var before := store.assets;
    var i := 0;
    while i < |dtos|
      invariant 0 <= i <= |dtos|
      invariant store.Valid()
      invariant AssetsRestored(before, store.assets, dtos[..i])
      invariant forall k :: |before| <= k < |store.assets| ==> fresh(store.assets[k])
    {
      var dto := dtos[i];
      var id := store.NewId();
      var item := new AssetItem(id, now, dto.name, dto.kind, dto.amount, dto.producedIncome, dto.annualizedRate, dto.note);
      item.updateDate := dto.updateDate;
      ghost var prev := store.assets;
      store.InsertAsset(item);
      AssetsRestoredSnoc(before, prev, item, dtos, i);
      i := i + 1;
    }
    assert dtos[..i] == dtos;
  }

  /**
   * `restoreBackup(from:context:clearExisting:)`.  Decoding comes first: when
   * it fails nothing is deleted.  Otherwise, with `clearExisting` every asset
   * and bill is deleted, and then one new asset and one new bill per transfer
   * object are appended, in file order.  Portfolios are never touched.
   */
  method Restore(store: Store, decoded: Option<BackupContainer>, clearExisting: bool, now: Date) returns (ok: bool)
    requires store.Valid()
    modifies store`assets, store`bills, store`nextId
    ensures store.Valid()
    ensures ok <==> decoded.Some?
    ensures !ok ==> store.assets == old(store.assets) && store.bills == old(store.bills)
    ensures ok ==>
      && AssetsRestored(if clearExisting then [] else old(store.assets), store.assets, decoded.value.assets)
      && Appended(if clearExisting then [] else old(store.bills), store.bills, Records(decoded.value.bills))
    ensures forall k :: |store.assets| - (if ok then |decoded.value.assets| else 0) <= k < |store.assets| ==> fresh(store.assets[k])
    ensures forall k :: |store.bills| - (if ok then |decoded.value.bills| else 0) <= k < |store.bills| ==> fresh(store.bills[k])
  {
    if decoded.None? {
      return false;
    }
    var backup := decoded.value;
    if clearExisting {
      store.DeleteAllAssets();
      store.DeleteAllBills();
    }
    InsertAssets(store, backup.assets, now);
    InsertRecords(store, Records(backup.bills));
    return true;
  }

  /** After a clearing restore, exporting gives back exactly the restored transfer objects. */
  lemma {:induction false} RestoredExport(assets: seq<AssetItem>, dtos: seq<AssetDTO>, bills: seq<BillItem>, billDtos: seq<BillDTO>)
    requires AssetsRestored([], assets, dtos)
    requires Appended([], bills, Records(billDtos))
    ensures AssetDTOs(assets) == dtos
    ensures BillDTOs(bills) == billDtos
  {
    forall k | 0 <= k < |assets|
      ensures AssetDTOs(assets)[k] == dtos[k]
    {
      assert assets[0 + k] == assets[k];
    }
    forall k | 0 <= k < |bills|
      ensures BillDTOs(bills)[k] == billDtos[k]
    {
      assert bills[0 + k] == bills[k];
      BillDTOAgreement(bills[k], billDtos[k]);
    }
  }

  /** Assets with the same transfer objects have the same valuation at every moment. */
  lemma SameDTOsSameValue(xs: seq<AssetItem>, ys: seq<AssetItem>, now: Date)
    requires AssetDTOs(xs) == AssetDTOs(ys)
    ensures forall i :: 0 <= i < |xs| ==> xs[i].CurrentValue(now) == ys[i].CurrentValue(now)
  {
    forall i | 0 <= i < |xs|
      ensures xs[i].CurrentValue(now) == ys[i].CurrentValue(now)
    {
      assert AssetDTOFrom(xs[i]) == AssetDTOs(xs)[i] == AssetDTOs(ys)[i] == AssetDTOFrom(ys[i]);
      AssetDTOValuation(xs[i], now);
      AssetDTOValuation(ys[i], now);
    }
  }

  /**
   * Export then clearing restore is a field-level round trip: a second store
   * restored from the first one's backup exports the same transfer objects,
   * so every asset keeps its valuation at any moment.
   */
  method ExportRestoreRoundTrip(source: Store, target: Store, now: Date)
    requires source.Valid() && target.Valid() && source != target
    modifies target`assets, target`bills, target`nextId
    ensures target.Valid()
    ensures Export(target, now) == Export(source, now)
    ensures forall i :: 0 <= i < |source.assets| ==> target.assets[i].CurrentValue(now) == source.assets[i].CurrentValue(now)
  {
    var backup := Export(source, now);
    ghost var assetDtos, billDtos := AssetDTOs(source.assets), BillDTOs(source.bills);
    var ok := Restore(target, Some(backup), true, now);
    assert AssetDTOs(source.assets) == assetDtos && BillDTOs(source.bills) == billDtos;
    RestoredExport(target.assets, backup.assets, target.bills, backup.bills);
    SameDTOsSameValue(target.assets, source.assets, now);
  }

  /** Two merges of the same objects in a row: the second copy holds the same fields as the first. */
  lemma TwiceAssets(a0: seq<AssetItem>, a1: seq<AssetItem>, a2: seq<AssetItem>, dtos: seq<AssetDTO>)
    requires AssetsRestored(a0, a1, dtos) && AssetsRestored(a1, a2, dtos)
    ensures |a2| == |a0| + 2 * |dtos| && a2[..|a0|] == a0
    ensures forall k :: |a0| <= k < |a0| + |dtos| ==> a2[k] == a1[k] && AssetDTOFrom(a2[k]) == AssetDTOFrom(a2[k + |dtos|])
  {
    forall k | |a0| <= k < |a0| + |dtos|
      ensures a2[k] == a1[k] && AssetDTOFrom(a2[k]) == AssetDTOFrom(a2[k + |dtos|])
    {
      assert a2[k] == a2[..|a1|][k] == a1[k];
      assert a1[k] == a1[|a0| + (k - |a0|)];
      assert a2[k + |dtos|] == a2[|a1| + (k - |a0|)];
      assert AssetDTOFrom(a1[|a0| + (k - |a0|)]) == dtos[k - |a0|] == AssetDTOFrom(a2[|a1| + (k - |a0|)]);
    }
  }

  /** The same for bills. */
  lemma TwiceBills(b0: seq<BillItem>, b1: seq<BillItem>, b2: seq<BillItem>, records: seq<BillRecord>)
    requires Appended(b0, b1, records) && Appended(b1, b2, records)
    ensures |b2| == |b0| + 2 * |records| && b2[..|b0|] == b0
    ensures forall k :: |b0| <= k < |b0| + |records| ==> b2[k] == b1[k] && b2[k].Record() == b2[k + |records|].Record()
  {
    forall k | |b0| <= k < |b0| + |records|
      ensures b2[k] == b1[k] && b2[k].Record() == b2[k + |records|].Record()
    {
      assert b2[k] == b2[..|b1|][k] == b1[k];
      assert b1[k] == b1[|b0| + (k - |b0|)];
      assert b2[k + |records|] == b2[|b1| + (k - |b0|)];
      assert b1[|b0| + (k - |b0|)].Record() == records[k - |b0|] == b2[|b1| + (k - |b0|)].Record();
    }
  }

  /**
   * Nothing is deduplicated: merging the same backup twice appends its
   * assets and bills twice, each second copy a different object holding the
   * same fields as its first copy.
   */
  method RestoreTwice(store: Store, backup: BackupContainer, now: Date)
    requires store.Valid()
    modifies store`assets, store`bills, store`nextId
    ensures store.Valid()
    ensures |store.assets| == |old(store.assets)| + 2 * |backup.assets|
    ensures |store.bills| == |old(store.bills)| + 2 * |backup.bills|
    ensures forall k :: |old(store.assets)| <= k < |old(store.assets)| + |backup.assets| ==>
      store.assets[k] != store.assets[k + |backup.assets|] && AssetDTOFrom(store.assets[k]) == AssetDTOFrom(store.assets[k + |backup.assets|])
    ensures forall k :: |old(store.bills)| <= k < |old(store.bills)| + |backup.bills| ==>
      store.bills[k] != store.bills[k + |backup.bills|] && store.bills[k].Record() == store.bills[k + |backup.bills|].Record()
  {
    ghost var assets0, bills0 := store.assets, store.bills;
    var ok := Restore(store, Some(backup), false, now);
    ghost var assets1, bills1 := store.assets, store.bills;
    ok := Restore(store, Some(backup), false, now);
    assert AssetsRestored(assets0, assets1, backup.assets) && Appended(bills0, bills1, Records(backup.bills));
    TwiceAssets(assets0, assets1, store.assets, backup.assets);
    TwiceBills(bills0, bills1, store.bills, Records(backup.bills));
  }
}
