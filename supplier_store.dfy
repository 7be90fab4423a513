/** The supplier the storefront provider exposes (frontend/src/store/supplier.jsx). */
module SupplierStore {
  import opened Locations
  import opened SupplierResolver

  /** The memoised selection of `SupplierProvider`: the default supplier for
      an empty directory, otherwise resolution by the location's path. */
  function SelectSupplier(loc: Location, suppliers: seq<Supplier>): (s: Supplier)
    ensures s == DefaultSupplier || s in suppliers
  {
    if |suppliers| == 0 then DefaultSupplier else ResolveSupplier(loc.pathname, suppliers)
  }

  /** The empty-directory guard changes nothing: resolution against an empty
      list already gives the default supplier. Hence the value is always the
      default supplier or a member of the directory. */
  lemma SelectIsResolve(loc: Location, suppliers: seq<Supplier>)
    ensures SelectSupplier(loc, suppliers) == ResolveSupplier(loc.pathname, suppliers)
    ensures SelectSupplier(loc, suppliers) == DefaultSupplier || SelectSupplier(loc, suppliers) in suppliers
  {
  }

  /** An empty directory yields the default supplier whatever the location. */
  lemma EmptyDirectory(loc: Location)
    ensures SelectSupplier(loc, []) == DefaultSupplier
  {
  }
}
