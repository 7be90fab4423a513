/** The distributor the storefront provider exposes
    (frontend/src/store/distributor.jsx). */
module DistributorStore {
  import opened Wrappers
  import opened Locations
  import opened DistributorData
  import opened DistributorResolver
  import opened SupplierResolver
  import opened Text

  /** `supplier?.distributor?.code` is truthy. */
  predicate HasEmbeddedDistributor(supplier: Supplier) {
    supplier.distributor.Some? && supplier.distributor.value.code != ""
  }

  /** The memoised selection of `DistributorProvider`: a distributor embedded
      in the supplier record, completed from the default distributor, or
      else the distributor the location resolves to. */
  function SelectDistributor(loc: Location, supplier: Supplier): (d: Distributor)
    ensures d.code != ""
  {
    if HasEmbeddedDistributor(supplier) then
      var embedded := supplier.distributor.value;
      Distributor(
        embedded.code,
        if embedded.name != "" then embedded.name else DefaultDistributor.name,
        if embedded.pickupAddress != "" then embedded.pickupAddress else DefaultDistributor.pickupAddress,
        DefaultDistributor.theme)
    else
      ByLocationHasResolvedCode(loc);
      GetDistributorByLocation(loc)
  }

  /** With an embedded distributor, its code is taken verbatim, empty name and
      pickup address fall back to the default distributor's, the theme is
      always the default theme, and the location plays no part. */
  lemma EmbeddedDistributor(loc: Location, other: Location, supplier: Supplier)
    requires HasEmbeddedDistributor(supplier)
    ensures SelectDistributor(loc, supplier).code == supplier.distributor.value.code
    ensures supplier.distributor.value.name != "" ==> SelectDistributor(loc, supplier).name == supplier.distributor.value.name
    ensures supplier.distributor.value.name == "" ==> SelectDistributor(loc, supplier).name == DefaultDistributor.name
    ensures supplier.distributor.value.pickupAddress != "" ==>
      SelectDistributor(loc, supplier).pickupAddress == supplier.distributor.value.pickupAddress
    ensures supplier.distributor.value.pickupAddress == "" ==>
      SelectDistributor(loc, supplier).pickupAddress == DefaultDistributor.pickupAddress
    ensures SelectDistributor(loc, supplier).theme == DefaultDistributor.theme
    ensures SelectDistributor(loc, supplier) == SelectDistributor(other, supplier)
  {
  }

  /** Without one, the provider exposes the distributor of the location, which
      is a listed distributor or the default one. */
  lemma LocationDistributor(loc: Location, supplier: Supplier)
    requires !HasEmbeddedDistributor(supplier)
    ensures SelectDistributor(loc, supplier) == GetDistributorByLocation(loc)
    ensures SelectDistributor(loc, supplier) in DistributorList || SelectDistributor(loc, supplier) == DefaultDistributor
  {
    ByLocationHasResolvedCode(loc);
  }

  /** The provider as written, over the lookup that also answers inherited
      names: with an embedded distributor it is the selection above;
      otherwise whatever `getDistributorByLocation` reaches. */
  function SelectDistributorAsWritten(loc: Location, supplier: Supplier): (r: Lookup)
    ensures HasEmbeddedDistributor(supplier) ==> r == Record(SelectDistributor(loc, supplier))
    ensures !HasEmbeddedDistributor(supplier) ==> r == GetDistributorByLocationAsWritten(loc)
  {
    if HasEmbeddedDistributor(supplier) then Record(SelectDistributor(loc, supplier))
    else GetDistributorByLocationAsWritten(loc)
  }

  /** As written, `/?dist=constructor` without an embedded distributor makes
      the provider expose the inherited `Object` function, which has no
      code; the corrected selection exposes a distributor whose code is not
      empty. */
  lemma CodelessDistributorAsWritten(supplier: Supplier)
    requires !HasEmbeddedDistributor(supplier)
    ensures SelectDistributorAsWritten(Location("/", map["dist" := "constructor"]), supplier) == Inherited("constructor")
    ensures SelectDistributor(Location("/", map["dist" := "constructor"]), supplier).code != ""
  {
    var loc := Location("/", map["dist" := "constructor"]);
    ConstructorQuery();
    InheritedNameAccepted(loc);
  }

  /** Where the two resolvers agree, so do the two providers. */
  lemma AsWrittenSelectionAgrees(loc: Location, supplier: Supplier)
    requires QueryCode(loc) !in InheritedNames
    requires Segments(loc.pathname) == [] || Normalize(Segments(loc.pathname)[|Segments(loc.pathname)| - 1]) !in InheritedNames
    ensures SelectDistributorAsWritten(loc, supplier) == Record(SelectDistributor(loc, supplier))
  {
    ByLocationAsWrittenAgrees(loc);
  }
}
