/** The record shapes of the Audilog inventory ledger (src/types/audilog.ts). */
module AudilogTypes {
  import opened Wrappers

  /** The `type` field of a ledger record. */
  datatype RecordType = Vendor | Customer

  /**
   * One ledger row. A vendor row is the current stock of one product of one
   * vendor; a customer row is one completed purchase. `uid` is optional:
   * the vendor listing path stores rows without it.
   */
  datatype AudilogRecord = AudilogRecord(
    uid: Option<string>,
    kind: RecordType,
    phoneNumber: string,
    productCount: int,
    productName: string,
    manufactureDate: string,
    expiryDate: string)

  /** The vendor-supplied part of a listing: a record without `type` and `uid`. */
  datatype VendorData = VendorData(
    phoneNumber: string,
    productCount: int,
    productName: string,
    manufactureDate: string,
    expiryDate: string)

  /** A purchasable product, derived from a vendor record; `vendorUid` copies the record's optional uid. */
  datatype Product = Product(
    id: string,
    vendorUid: Option<string>,
    name: string,
    count: int,
    manufactureDate: string,
    expiryDate: string,
    vendorPhone: string)

  /** `Partial<AudilogRecord>`: each field that is present overrides the record's field. */
  datatype RecordPatch = RecordPatch(
    uid: Option<string>,
    kind: Option<RecordType>,
    phoneNumber: Option<string>,
    productCount: Option<int>,
    productName: Option<string>,
    manufactureDate: Option<string>,
    expiryDate: Option<string>)
}
