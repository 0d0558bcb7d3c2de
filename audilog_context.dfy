/**
 * The Audilog provider (src/contexts/AudilogContext.tsx): a cache of the
 * ledger's records and available products, refreshed after each operation
 * that changes the ledger.
 */
module AudilogContext {
  import opened Wrappers
  import opened AudilogTypes
  import opened CsvManager

  /** The record `addVendorProduct` stores: the vendor's fields, type vendor, and no uid. */
  function VendorRecord(data: VendorData): (r: AudilogRecord)
    ensures r.kind == Vendor && r.uid.None?
    ensures r.phoneNumber == data.phoneNumber && r.productCount == data.productCount
    ensures r.productName == data.productName
    ensures r.manufactureDate == data.manufactureDate && r.expiryDate == data.expiryDate
  {
    AudilogRecord(None, Vendor, data.phoneNumber, data.productCount, data.productName,
                  data.manufactureDate, data.expiryDate)
  }

  class AudilogProvider {
    /** The shared ledger the provider reads and writes. */
    const ledger: Ledger
    /** The `records` state. */
    var records: seq<AudilogRecord>
    /** The `products` state. */
    var products: seq<Product>

    /** The cache agrees with the ledger: the records it holds and the projection of them. */
    ghost predicate Synced()
      reads this, ledger
    {
      records == ledger.Records() && products == Available(ledger.Records())
    }

    /** Mounting the provider: both caches start empty, then the mount effect refreshes them. */
    constructor (ledger: Ledger)
      ensures this.ledger == ledger && Synced()
      ensures unchanged(ledger)
    {
      this.ledger := ledger;
      records := [];
      products := [];
      new;
      RefreshData();
    }

    /** `refreshData`: reload both caches from the ledger, which it does not change. */
    method RefreshData()
      modifies this
      ensures Synced()
      ensures unchanged(ledger)
    {
      var newRecords := ledger.ReadRecords();
      var newProducts := ledger.GetAvailableProducts();
      records := newRecords;
      products := newProducts;
    }

    /**
     * `addVendorProduct`: append one vendor record built from `data`, then
     * refresh. The result is what `addRecord` returns, which is nothing:
     * no uid is ever produced.
     */
    method AddVendorProduct(data: VendorData) returns (uid: Option<string>)
      modifies this, ledger
      ensures ledger.stored == Some(old(ledger.Records()) + [VendorRecord(data)])
      ensures Synced()
      ensures products == old(Available(ledger.Records())) +
                          (if data.productCount > 0 then [ToProduct(VendorRecord(data))] else [])
      ensures uid == None
    {
      ledger.AddRecord(VendorRecord(data));
      RefreshData();
      AvailableAppendOne(old(ledger.Records()), VendorRecord(data));
      uid := None;
    }

    /**
     * `purchaseProduct`: the result of `processPurchase`; the caches are
     * refreshed only when it succeeded, and a refused purchase changes nothing.
     */
    method PurchaseProduct(customerUid: string, productId: string, quantity: int) returns (success: bool)
      modifies this, ledger
      ensures success == Purchase(old(ledger.Records()), customerUid, productId, quantity).Some?
      ensures success ==>
                ledger.stored == Some(Purchase(old(ledger.Records()), customerUid, productId, quantity).value) &&
                Synced()
      ensures !success ==> unchanged(this) && unchanged(ledger)
      ensures old(Synced()) ==> Synced()
    {
      success := ledger.ProcessPurchase(customerUid, productId, quantity);
      if success {
        RefreshData();
      }
    }
  }
}
