/** The supplier directory hook: normalisation of fetched supplier records
    and the state the fetch leaves behind (frontend/src/hooks/useSuppliers.js). */
module SupplierDirectory {
  import opened Wrappers
  import opened Text
  import opened SupplierResolver

  /** A distributor as the API may send it, under either spelling of the
      pickup address; an absent field is the empty string. */
  datatype RawDistributor = RawDistributor(code: string, name: string, pickup_address: string, pickupAddress: string)

  /** A supplier record as the API may send it, under either spelling of the
      mall name; `distributor` is `None` when the field is falsy. */
  datatype RawSupplier = RawSupplier(
    code: string,
    suffix: Option<string>,
    mall_name: string,
    mallName: string,
    distributor: Option<RawDistributor>)

  /** The mall name shown when a record has none. */
  const DefaultMallName := "烟花商城"

  /** The error shown when a failed fetch carries no message. */
  const DefaultLoadError := "加载供应商失败"

  /** `normalizeSupplier(supplier)` */
  function NormalizeSupplier(raw: RawSupplier): (s: Supplier)
    ensures s.code == raw.code && s.suffix == raw.suffix
    ensures s.mallName != ""
    ensures s.distributor.None? <==> raw.distributor.None?
  {
    Supplier(
      raw.code,
      raw.suffix,
      Or(raw.mall_name, Or(raw.mallName, DefaultMallName)),
      match raw.distributor
      case None => None
      case Some(d) => Some(SupplierDistributor(d.code, d.name, Or(d.pickup_address, Or(d.pickupAddress, "")))))
  }

  /** The name fallbacks: `mall_name` first, then `mallName`, then the default
      name, with empty strings falling through; and for a distributor, the
      code and name copied and `pickup_address`, then `pickupAddress`, then "". */
  lemma NormalizeFallbacks(raw: RawSupplier)
    ensures raw.mall_name != "" ==> NormalizeSupplier(raw).mallName == raw.mall_name
    ensures raw.mall_name == "" && raw.mallName != "" ==> NormalizeSupplier(raw).mallName == raw.mallName
    ensures raw.mall_name == "" && raw.mallName == "" ==> NormalizeSupplier(raw).mallName == DefaultMallName
    ensures raw.distributor.Some? ==>
      var d := raw.distributor.value;
      var n := NormalizeSupplier(raw).distributor.value;
      n.code == d.code && n.name == d.name
      && (d.pickup_address != "" ==> n.pickupAddress == d.pickup_address)
      && (d.pickup_address == "" ==> n.pickupAddress == d.pickupAddress)
  {
  }

  /** `data.map(normalizeSupplier)` */
  function NormalizeAll(data: seq<RawSupplier>): (r: seq<Supplier>)
    ensures |r| == |data|
    ensures forall i :: 0 <= i < |data| ==> r[i] == NormalizeSupplier(data[i])
  {
    if data == [] then [] else [NormalizeSupplier(data[0])] + NormalizeAll(data[1..])
  }

  /** What the fetch of `/suppliers` produced: a JSON array, some other JSON
      value, or a failure with its message ("" when it has none). */
  datatype FetchOutcome = ArrayData(items: seq<RawSupplier>) | OtherData | Failed(message: string)

  /** The state of `useSuppliers`. */
  class SupplierList {
    var suppliers: seq<Supplier>
    var loading: bool
    var error: string

    /** The initial state: no suppliers, loading, no error. */
    constructor()
      ensures suppliers == [] && loading && error == ""
    {
      suppliers := [];
      loading := true;
      error := "";
    }

    /** The effect's completion: an array is normalised element-wise, any
        other value or a failure leaves the list empty, a failure records its
        message or the default one, and loading ends in every case. */
    method Complete(outcome: FetchOutcome)
      modifies this
      ensures !loading
      ensures outcome.ArrayData? ==> suppliers == NormalizeAll(outcome.items) && error == old(error)
      ensures outcome.OtherData? ==> suppliers == [] && error == old(error)
      ensures outcome.Failed? ==> suppliers == [] && error == Or(outcome.message, DefaultLoadError)
    {
      match outcome {
        case ArrayData(items) =>
          suppliers := NormalizeAll(items);
        case OtherData =>
          suppliers := [];
        case Failed(message) =>
          error := Or(message, DefaultLoadError);
          suppliers := [];
      }
      loading := false;
    }
  }
}
