/**
 * The inventory ledger (src/utils/csvManager.ts): one flat sequence of
 * records kept under a single storage key, with append, update by uid,
 * the available-products projection and the purchase transaction.
 */
module CsvManager {
  import opened Wrappers
  import opened SeqUtil
  import opened AudilogTypes

  /** The character that joins and splits a product id. */
  const Separator: char := '-'

  /** How a template literal renders a uid: an absent uid becomes the text "undefined". */
  function UidText(uid: Option<string>): string {
    uid.GetOr("undefined")
  }

  /** The product id of a vendor listing: uid and product name joined by the separator. */
  function ProductIdOf(uid: Option<string>, name: string): string {
    UidText(uid) + [Separator] + name
  }

  // ---------------------------------------------------------------------------
  // The available-products projection
  // ---------------------------------------------------------------------------

  /** A record the projection keeps: a vendor record with stock left. */
  predicate IsListed(r: AudilogRecord) {
    r.kind == Vendor && r.productCount > 0
  }

  /** The product a vendor record is shown as. */
  function ToProduct(r: AudilogRecord): (p: Product)
    ensures p.id == ProductIdOf(p.vendorUid, p.name)
    ensures p.vendorUid == r.uid && p.name == r.productName && p.count == r.productCount
    ensures p.manufactureDate == r.manufactureDate && p.expiryDate == r.expiryDate
    ensures p.vendorPhone == r.phoneNumber
  {
    Product(ProductIdOf(r.uid, r.productName), r.uid, r.productName, r.productCount,
            r.manufactureDate, r.expiryDate, r.phoneNumber)
  }

  /** The products on offer in a ledger state: listed records, in ledger order, as products. */
  function Available(records: seq<AudilogRecord>): (products: seq<Product>)
    ensures |products| <= |records|
    ensures forall k :: 0 <= k < |products| ==>
              products[k].count > 0 &&
              products[k].id == ProductIdOf(products[k].vendorUid, products[k].name)
    ensures forall k :: 0 <= k < |products| ==>
              exists j :: 0 <= j < |records| && IsListed(records[j]) && products[k] == ToProduct(records[j])
  {
    Map(Filter(records, IsListed), ToProduct)
  }

  /** The projection of a concatenation is the concatenation of the projections. */
  lemma AvailableAppend(a: seq<AudilogRecord>, b: seq<AudilogRecord>)
    ensures Available(a + b) == Available(a) + Available(b)
  {
    FilterAppend(a, b, IsListed);
    MapAppend(Filter(a, IsListed), Filter(b, IsListed), ToProduct);
  }

  /** A single record is shown as one product exactly when it is listed. */
  lemma AvailableSingle(r: AudilogRecord)
    ensures Available([r]) == if IsListed(r) then [ToProduct(r)] else []
  {
    assert [r][1..] == [];
  }

  /** Appending a record adds its product at the end when it is listed, and nothing otherwise. */
  lemma AvailableAppendOne(records: seq<AudilogRecord>, r: AudilogRecord)
    ensures Available(records + [r]) ==
            Available(records) + (if IsListed(r) then [ToProduct(r)] else [])
  {
    AvailableAppend(records, [r]);
    AvailableSingle(r);
  }

  /** Every listed record of the ledger appears as a product. */
  lemma {:induction false} ListedRecordIsAvailable(records: seq<AudilogRecord>, i: nat)
    requires i < |records| && IsListed(records[i])
    ensures ToProduct(records[i]) in Available(records)
  {
    assert records == records[..i] + [records[i]] + records[i + 1..];
    AvailableAppend(records[..i] + [records[i]], records[i + 1..]);
    AvailableAppendOne(records[..i], records[i]);
  }

  // ---------------------------------------------------------------------------
  // Parsing a product id back into (vendor uid, product name)
  // ---------------------------------------------------------------------------

  /** `String.prototype.split` on one character: the maximal separator-free pieces, always at least one. */
  function Split(s: string, sep: char): (parts: seq<string>)
    ensures |parts| >= 1
    ensures forall k :: 0 <= k < |parts| ==> sep !in parts[k]
    ensures Join(parts, sep) == s
  {
    if |s| == 0 then [""]
    else
      var rest := Split(s[1..], sep);
      if s[0] == sep then
        assert ([""] + rest)[1..] == rest;
        [""] + rest
      else
        var parts := [[s[0]] + rest[0]] + rest[1..];
        assert parts[1..] == rest[1..];
        assert s == [s[0]] + s[1..];
        parts
  }

  /** `Array.prototype.join` with one separator character. */
  function Join(parts: seq<string>, sep: char): string
    requires |parts| >= 1
  {
    if |parts| == 1 then parts[0] else parts[0] + [sep] + Join(parts[1..], sep)
  }

  /** A separator-free prefix is split off as the first piece. */
  lemma {:induction false} SplitAfterPiece(u: string, sep: char, rest: string)
    requires sep !in u
    ensures Split(u + [sep] + rest, sep) == [u] + Split(rest, sep)
  {
    if |u| == 0 {
      assert u + [sep] + rest == [sep] + rest;
      assert ([sep] + rest)[1..] == rest;
    } else {
      assert (u + [sep] + rest)[1..] == u[1..] + [sep] + rest;
      SplitAfterPiece(u[1..], sep, rest);
      assert [u[0]] + u[1..] == u;
    }
  }

  /** A separator-free text splits into itself alone. */
  lemma {:induction false} SplitPiece(n: string, sep: char)
    requires sep !in n
    ensures Split(n, sep) == [n]
  {
    if |n| > 0 {
      SplitPiece(n[1..], sep);
      assert [n[0]] + n[1..] == n;
    }
  }

  /** The destructuring `[vendorUid, productName] = id.split('-')`; a missing second piece is undefined. */
  datatype ParsedId = ParsedId(vendorUid: string, productName: Option<string>)

  function ParseProductId(productId: string): (key: ParsedId)
    ensures Separator !in key.vendorUid
    ensures key.productName.Some? ==> Separator !in key.productName.value
    ensures key.productName.None? <==> Separator !in productId
  {
    var parts := Split(productId, Separator);
    ParsedId(parts[0], if |parts| >= 2 then Some(parts[1]) else None)
  }

  /**
   * A product id parses back into the uid and name it was built from exactly
   * when neither of them contains the separator.
   */
  lemma ParseProductIdRoundTrip(uid: string, name: string)
    ensures ParseProductId(ProductIdOf(Some(uid), name)) == ParsedId(uid, Some(name))
            <==> Separator !in uid && Separator !in name
  {
    if Separator !in uid && Separator !in name {
      SplitAfterPiece(uid, Separator, name);
      SplitPiece(name, Separator);
    }
  }

  // ---------------------------------------------------------------------------
  // The purchase transaction
  // ---------------------------------------------------------------------------

  /** The vendor record a parsed id designates: same uid, same product name, type vendor. */
  predicate IsListingOf(r: AudilogRecord, key: ParsedId) {
    r.uid == Some(key.vendorUid) && key.productName == Some(r.productName) && r.kind == Vendor
  }

  /** The position of the first vendor record the product id designates. */
  function VendorIndex(records: seq<AudilogRecord>, productId: string): Option<nat> {
    FindIndex(records, r => IsListingOf(r, ParseProductId(productId)))
  }

  /** The customer row a purchase appends: a snapshot of the vendor row's dates, no phone. */
  function CustomerRecord(customerUid: string, quantity: int, productName: string, vendor: AudilogRecord)
    : (c: AudilogRecord)
    ensures c.kind == Customer && c.uid == Some(customerUid) && c.phoneNumber == ""
    ensures c.productCount == quantity && c.productName == productName
    ensures c.manufactureDate == vendor.manufactureDate && c.expiryDate == vendor.expiryDate
  {
    AudilogRecord(Some(customerUid), Customer, "", quantity, productName,
                  vendor.manufactureDate, vendor.expiryDate)
  }

  /**
   * The ledger after a purchase, or None when the purchase is refused: no
   * vendor record matches the id, or the first match has less stock than
   * `quantity`. There is no check that `quantity` is positive.
   */
  function Purchase(records: seq<AudilogRecord>, customerUid: string, productId: string, quantity: int)
    : (after: Option<seq<AudilogRecord>>)
    ensures after.None? <==>
              (VendorIndex(records, productId).None? ||
               records[VendorIndex(records, productId).value].productCount < quantity)
    ensures after.Some? ==>
              var i := VendorIndex(records, productId).value;
              var v := records[i];
              && i < |records|
              && v.kind == Vendor
              && ParseProductId(productId) == ParsedId(v.uid.value, Some(v.productName))
              && |after.value| == |records| + 1
              && after.value[i] == v.(productCount := v.productCount - quantity)
              && after.value[i].productCount >= 0
              && (forall j :: 0 <= j < |records| && j != i ==> after.value[j] == records[j])
              && after.value[|records|] == CustomerRecord(customerUid, quantity, v.productName, v)
  {
    var key := ParseProductId(productId);
    match FindIndex(records, r => IsListingOf(r, key))
    case None => None
    case Some(i) =>
      if records[i].productCount < quantity then None
      else
        var vendor := records[i].(productCount := records[i].productCount - quantity);
        Some(records[i := vendor] + [CustomerRecord(customerUid, quantity, key.productName.value, vendor)])
  }

  /**
   * A listed product whose uid and name are separator-free, and whose record
   * is the first vendor record with that uid and name, can be bought by its
   * own id for any quantity up to its stock, and the purchase hits that record.
   */
  lemma ListedProductPurchasable(records: seq<AudilogRecord>, i: nat, customerUid: string, quantity: int)
    requires i < |records| && IsListed(records[i]) && records[i].uid.Some?
    requires Separator !in records[i].uid.value && Separator !in records[i].productName
    requires forall j :: 0 <= j < i ==>
               !(records[j].kind == Vendor && records[j].uid == records[i].uid &&
                 records[j].productName == records[i].productName)
    requires quantity <= records[i].productCount
    ensures VendorIndex(records, ToProduct(records[i]).id) == Some(i)
    ensures Purchase(records, customerUid, ToProduct(records[i]).id, quantity).Some?
  {
    ParseProductIdRoundTrip(records[i].uid.value, records[i].productName);
  }

  /**
   * Conversely, when the uid or the name contains the separator, the product's
   * own id never designates its own record.
   */
  lemma SeparatorIdMissesOwnRecord(records: seq<AudilogRecord>, i: nat)
    requires i < |records| && records[i].uid.Some?
    requires Separator in records[i].uid.value || Separator in records[i].productName
    ensures VendorIndex(records, ToProduct(records[i]).id) != Some(i)
  {
    ParseProductIdRoundTrip(records[i].uid.value, records[i].productName);
  }

  /**
   * Nothing makes (uid, name) unique: a listing shadowed by an earlier vendor
   * record with the same uid and name is never designated by its own id. The
   * purchase goes to the first such record, and is refused when that one is
   * short of stock, whatever the listing itself holds.
   */
  lemma ShadowedListingNotDesignated(records: seq<AudilogRecord>, i: nat, j: nat, customerUid: string, quantity: int)
    requires j < i < |records| && IsListed(records[i]) && records[i].uid.Some?
    requires Separator !in records[i].uid.value && Separator !in records[i].productName
    requires records[j].kind == Vendor && records[j].uid == records[i].uid
    requires records[j].productName == records[i].productName
    requires forall k :: 0 <= k < j ==>
               !(records[k].kind == Vendor && records[k].uid == records[i].uid &&
                 records[k].productName == records[i].productName)
    ensures VendorIndex(records, ToProduct(records[i]).id) == Some(j)
    ensures Purchase(records, customerUid, ToProduct(records[i]).id, quantity).None? <==>
              records[j].productCount < quantity
  {
    ParseProductIdRoundTrip(records[i].uid.value, records[i].productName);
  }

  /**
   * A name with the separator in it can make a purchase hit another record:
   * the product named n1-n2 of vendor u has the id u-n1-n2, which parses as
   * (u, n1), so buying it decrements the vendor's listing of n1 instead.
   */
  lemma HyphenatedNameHitsOtherRecord(first: AudilogRecord, second: AudilogRecord, n2: string,
                                      customerUid: string, quantity: int)
    requires first.kind == Vendor && first.uid.Some? && Separator !in first.uid.value
    requires Separator !in first.productName && quantity <= first.productCount
    requires IsListed(second) && second.uid == first.uid
    requires second.productName == first.productName + [Separator] + n2
    ensures VendorIndex([first, second], ToProduct(second).id) == Some(0)
    ensures var hit := first.(productCount := first.productCount - quantity);
            Purchase([first, second], customerUid, ToProduct(second).id, quantity) ==
            Some([hit, second, CustomerRecord(customerUid, quantity, first.productName, hit)])
  {
    var u, n1 := first.uid.value, first.productName;
    assert ToProduct(second).id == u + [Separator] + (n1 + [Separator] + n2);
    SplitAfterPiece(u, Separator, n1 + [Separator] + n2);
    SplitAfterPiece(n1, Separator, n2);
    assert ParseProductId(ToProduct(second).id) == ParsedId(u, Some(n1));
    var hit := first.(productCount := first.productCount - quantity);
    var after := Purchase([first, second], customerUid, ToProduct(second).id, quantity);
    assert after.Some?;
    assert CustomerRecord(customerUid, quantity, n1, first) == CustomerRecord(customerUid, quantity, n1, hit);
    assert after.value == [hit, second, CustomerRecord(customerUid, quantity, n1, hit)];
  }

  /**
   * A product derived from a record without uid has the id "undefined-<name>";
   * unless some record has the uid "undefined", no purchase by that id succeeds.
   */
  lemma UidlessListingNotPurchasable(records: seq<AudilogRecord>, i: nat, customerUid: string, quantity: int)
    requires i < |records| && records[i].uid.None?
    requires forall j :: 0 <= j < |records| ==> records[j].uid != Some("undefined")
    ensures ToProduct(records[i]).id == "undefined-" + records[i].productName
    ensures Purchase(records, customerUid, ToProduct(records[i]).id, quantity).None?
  {
    SplitAfterPiece("undefined", Separator, records[i].productName);
    assert ParseProductId(ToProduct(records[i]).id).vendorUid == "undefined";
  }

  /**
   * With no positivity check, a negative quantity is accepted whenever the id
   * designates a vendor record with non-negative stock, and it raises that stock.
   */
  lemma NegativeQuantityRaisesStock(records: seq<AudilogRecord>, customerUid: string, productId: string, quantity: int)
    requires VendorIndex(records, productId).Some?
    requires records[VendorIndex(records, productId).value].productCount >= 0
    requires quantity < 0
    ensures Purchase(records, customerUid, productId, quantity).Some?
    ensures var i := VendorIndex(records, productId).value;
            Purchase(records, customerUid, productId, quantity).value[i].productCount > records[i].productCount
  {
  }

  // ---------------------------------------------------------------------------
  // Update by uid
  // ---------------------------------------------------------------------------

  /** The shallow merge `{ ...r, ...updates }`. */
  function Merge(r: AudilogRecord, updates: RecordPatch): (merged: AudilogRecord)
    ensures merged.uid == if updates.uid.Some? then updates.uid else r.uid
    ensures merged.kind == if updates.kind.Some? then updates.kind.value else r.kind
    ensures merged.productCount == if updates.productCount.Some? then updates.productCount.value else r.productCount
    ensures merged.productName == if updates.productName.Some? then updates.productName.value else r.productName
    ensures merged.phoneNumber == if updates.phoneNumber.Some? then updates.phoneNumber.value else r.phoneNumber
    ensures merged.manufactureDate == if updates.manufactureDate.Some? then updates.manufactureDate.value else r.manufactureDate
    ensures merged.expiryDate == if updates.expiryDate.Some? then updates.expiryDate.value else r.expiryDate
    ensures updates == RecordPatch(None, None, None, None, None, None, None) ==> merged == r
  {
    AudilogRecord(
      if updates.uid.Some? then updates.uid else r.uid,
      updates.kind.GetOr(r.kind),
      updates.phoneNumber.GetOr(r.phoneNumber),
      updates.productCount.GetOr(r.productCount),
      updates.productName.GetOr(r.productName),
      updates.manufactureDate.GetOr(r.manufactureDate),
      updates.expiryDate.GetOr(r.expiryDate))
  }

  /** The position of the first record carrying `uid`. */
  function UidIndex(records: seq<AudilogRecord>, uid: string): Option<nat> {
    FindIndex(records, (r: AudilogRecord) => r.uid == Some(uid))
  }

  /**
   * The ledger after `updateRecord`, or None when no record carries `uid`
   * (then nothing is written).
   */
  function Update(records: seq<AudilogRecord>, uid: string, updates: RecordPatch): (after: Option<seq<AudilogRecord>>)
    ensures after.None? <==> forall j :: 0 <= j < |records| ==> records[j].uid != Some(uid)
    ensures after.Some? ==>
              var i := UidIndex(records, uid).value;
              && i < |records| && records[i].uid == Some(uid)
              && (forall j :: 0 <= j < i ==> records[j].uid != Some(uid))
              && |after.value| == |records|
              && after.value[i] == Merge(records[i], updates)
              && (forall j :: 0 <= j < |records| && j != i ==> after.value[j] == records[j])
  {
    match UidIndex(records, uid)
    case None => None
    case Some(i) => Some(records[i := Merge(records[i], updates)])
  }

  // ---------------------------------------------------------------------------
  // The store
  // ---------------------------------------------------------------------------

  /**
   * The `csvManager` object over its storage key. `stored` is the value under
   * the key: None until the first write.
   */
  class Ledger {
    var stored: Option<seq<AudilogRecord>>

    /** A ledger whose storage key has never been written. */
    constructor ()
      ensures stored == None
    {
      stored := None;
    }

    /** The sequence a read returns in the current state. */
    function Records(): seq<AudilogRecord>
      reads this
    {
      stored.GetOr([])
    }

    /** `readRecords`: the last written sequence, or empty when nothing was ever written. */
    method ReadRecords() returns (records: seq<AudilogRecord>)
      ensures stored.None? ==> records == []
      ensures stored.Some? ==> records == stored.value
      ensures records == Records()
    {
      if stored.Some? {
        records := stored.value;
      } else {
        records := [];
      }
    }

    /** `writeRecords`: replaces the whole store; a later read gives back exactly `records`. */
    method WriteRecords(records: seq<AudilogRecord>)
      modifies this
      ensures stored == Some(records)
      ensures Records() == records
    {
      stored := Some(records);
    }

    /** `addRecord`: read, push one record, write back. */
    method AddRecord(record: AudilogRecord)
      modifies this
      ensures stored == Some(old(Records()) + [record])
      ensures |Records()| == |old(Records())| + 1
      ensures Records()[..|old(Records())|] == old(Records()) && Records()[|old(Records())|] == record
    {
      var records := ReadRecords();
      records := records + [record];
      WriteRecords(records);
      assert Records()[..|old(Records())|] == old(Records());
    }

    /** `updateRecord`: merge `updates` into the first record with `uid`; without one, nothing is written. */
    method UpdateRecord(uid: string, updates: RecordPatch)
      modifies this
      ensures Update(old(Records()), uid, updates).None? ==> stored == old(stored)
      ensures Update(old(Records()), uid, updates).Some? ==>
                stored == Some(Update(old(Records()), uid, updates).value)
    {
      var records := ReadRecords();
      var index := UidIndex(records, uid);
      if index.Some? {
        var i := index.value;
        records := records[i := Merge(records[i], updates)];
        WriteRecords(records);
      }
    }

    /** `getAvailableProducts`: reads the store and changes nothing, so repeated calls agree. */
    method GetAvailableProducts() returns (products: seq<Product>)
      ensures products == Available(Records())
    {
      var records := ReadRecords();
      products := Available(records);
    }

    /**
     * `processPurchase`: one read, the decrement and the append computed on
     * that snapshot, one write; a refused purchase writes nothing.
     */
    method ProcessPurchase(customerUid: string, productId: string, quantity: int) returns (ok: bool)
      modifies this
      ensures ok == Purchase(old(Records()), customerUid, productId, quantity).Some?
      ensures ok ==> stored == Some(Purchase(old(Records()), customerUid, productId, quantity).value)
      ensures !ok ==> unchanged(this)
    {
      var records := ReadRecords();
      var key := ParseProductId(productId);
      var vendorIndex := FindIndex(records, r => IsListingOf(r, key));
      if vendorIndex.None? || records[vendorIndex.value].productCount < quantity {
        return false;
      }
      var i := vendorIndex.value;
      records := records[i := records[i].(productCount := records[i].productCount - quantity)];
      var customerRecord := CustomerRecord(customerUid, quantity, key.productName.value, records[i]);
      records := records + [customerRecord];
      WriteRecords(records);
      ok := true;
    }
  }
}
