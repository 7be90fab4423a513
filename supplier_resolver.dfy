/** Tenant (supplier) selection by the first path segment, and the building
    of tenant-prefixed paths (frontend/src/utils/supplier.js). */
module SupplierResolver {
  import opened Wrappers
  import opened Text

  /** The distributor a supplier record may carry; an absent `name` or
      `pickupAddress` is the empty string, since every reader treats both as falsy. */
  datatype SupplierDistributor = SupplierDistributor(code: string, name: string, pickupAddress: string)

  /** A supplier record as the storefront holds it. `suffix` is `None` when
      the record has no suffix (`null` or `undefined`). */
  datatype Supplier = Supplier(
    code: string,
    suffix: Option<string>,
    mallName: string,
    distributor: Option<SupplierDistributor>)

  /** `defaultSupplier` */
  const DefaultSupplier := Supplier("default", Some(""), "烟花商城", None)

  /** `normalizeSegment(supplier.suffix)`: an absent suffix stays absent. */
  function SuffixKey(s: Supplier): Option<string> {
    match s.suffix
    case None => None
    case Some(x) => Some(Normalize(x))
  }

  /** `normalizeSegment(segments[0])`: absent when the path has no segment. */
  function FirstSegment(pathname: string): Option<string> {
    var segments := Segments(pathname);
    if segments == [] then None else Some(Normalize(segments[0]))
  }

  /** The strict equality `find` tests; two absent values are equal. */
  predicate Matches(s: Supplier, pathname: string) {
    SuffixKey(s) == FirstSegment(pathname)
  }

  /** Supplier `i` matches the path and no supplier before it does. */
  predicate IsFirstMatch(pathname: string, suppliers: seq<Supplier>, i: int) {
    0 <= i < |suppliers| && Matches(suppliers[i], pathname)
    && forall j :: 0 <= j < i ==> !Matches(suppliers[j], pathname)
  }

  /** `resolveSupplierByLocation(location, suppliers)`: the first supplier in
      list order that matches the path, or the default supplier. */
  function ResolveSupplier(pathname: string, suppliers: seq<Supplier>): (r: Supplier)
    ensures r == DefaultSupplier || r in suppliers
  {
    if suppliers == [] then DefaultSupplier
    else if Matches(suppliers[0], pathname) then suppliers[0]
    else ResolveSupplier(pathname, suppliers[1..])
  }

  /** The first matching supplier is the one chosen. */
  lemma {:induction false} ResolveFirstMatch(pathname: string, suppliers: seq<Supplier>, i: nat)
    requires IsFirstMatch(pathname, suppliers, i)
    ensures ResolveSupplier(pathname, suppliers) == suppliers[i]
  {
    if i > 0 {
      assert !Matches(suppliers[0], pathname);
      assert forall j :: 0 <= j < i - 1 ==> suppliers[1..][j] == suppliers[j + 1];
      ResolveFirstMatch(pathname, suppliers[1..], i - 1);
    }
  }

  /** Without any matching supplier, in particular with an empty list, the
      default supplier is chosen. */
  lemma {:induction false} ResolveNoMatch(pathname: string, suppliers: seq<Supplier>)
    requires forall j :: 0 <= j < |suppliers| ==> !Matches(suppliers[j], pathname)
    ensures ResolveSupplier(pathname, suppliers) == DefaultSupplier
  {
    if suppliers != [] {
      assert !Matches(suppliers[0], pathname);
      ResolveNoMatch(pathname, suppliers[1..]);
    }
  }

  /** A chosen supplier other than the default matches the path and every
      supplier before its first occurrence does not. */
  lemma {:induction false} ResolvedMatches(pathname: string, suppliers: seq<Supplier>)
    requires ResolveSupplier(pathname, suppliers) != DefaultSupplier
    ensures exists i :: IsFirstMatch(pathname, suppliers, i) && suppliers[i] == ResolveSupplier(pathname, suppliers)
  {
    if Matches(suppliers[0], pathname) {
      assert suppliers[0] == ResolveSupplier(pathname, suppliers);
    } else {
      ResolvedMatches(pathname, suppliers[1..]);
      var i :| IsFirstMatch(pathname, suppliers[1..], i) && suppliers[1..][i] == ResolveSupplier(pathname, suppliers[1..]);
      assert forall j :: 1 <= j < i + 1 ==> suppliers[j] == suppliers[1..][j - 1];
      assert IsFirstMatch(pathname, suppliers, i + 1);
    }
  }

  /** A path without segments matches no supplier whose suffix is a string,
      the empty string included. */
  lemma RootMatchesNoStringSuffix(pathname: string, s: Supplier)
    requires Segments(pathname) == []
    requires s.suffix.Some?
    ensures !Matches(s, pathname)
  {
  }

  /** Only the first path segment counts: two paths that begin with the same
      segment resolve to the same supplier, whatever follows. */
  lemma LaterSegmentsIgnored(x: string, rest1: string, rest2: string, suppliers: seq<Supplier>)
    requires x != [] && '/' !in x
    requires rest1 == [] || rest1[0] == '/'
    requires rest2 == [] || rest2[0] == '/'
    ensures ResolveSupplier("/" + x + rest1, suppliers) == ResolveSupplier("/" + x + rest2, suppliers)
  {
    FirstSegmentOf(x, rest1);
    FirstSegmentOf(x, rest2);
    SameFirstSegment("/" + x + rest1, "/" + x + rest2, suppliers);
  }

  lemma {:induction false} SameFirstSegment(p1: string, p2: string, suppliers: seq<Supplier>)
    requires FirstSegment(p1) == FirstSegment(p2)
    ensures ResolveSupplier(p1, suppliers) == ResolveSupplier(p2, suppliers)
  {
    if suppliers != [] {
      SameFirstSegment(p1, p2, suppliers[1..]);
    }
  }

  /** `buildSupplierPath(supplier, path)`. */
  function BuildSupplierPath(s: Supplier, path: string): (r: string)
    ensures r != [] && r[0] == '/'
  {
    var normalizedPath := LeadingSlash(path);
    if s.suffix.None? || s.suffix.value == "" then normalizedPath
    else if normalizedPath == "/" then "/" + s.suffix.value
    else "/" + s.suffix.value + normalizedPath
  }

  /** Without a suffix the path only gains a leading slash when it lacks one. */
  lemma BuildWithoutSuffix(s: Supplier, path: string)
    requires s.suffix.None? || s.suffix == Some("")
    ensures StartsWith(path, "/") ==> BuildSupplierPath(s, path) == path
    ensures !StartsWith(path, "/") ==> BuildSupplierPath(s, path) == "/" + path
  {
  }

  /** With a suffix, the result is `/`, the suffix verbatim, then the path with
      its leading slash, except that the root path adds nothing after the suffix. */
  lemma BuildWithSuffix(s: Supplier, path: string)
    requires s.suffix.Some? && s.suffix.value != ""
    ensures BuildSupplierPath(s, path) == "/" + s.suffix.value + (if LeadingSlash(path) == "/" then "" else LeadingSlash(path))
    ensures StartsWith(BuildSupplierPath(s, path), "/" + s.suffix.value)
  {
    var r := BuildSupplierPath(s, path);
    assert r[..|"/" + s.suffix.value|] == "/" + s.suffix.value;
  }

  /** Round trip: a path built for a supplier whose suffix is a single segment
      resolves back to that supplier, provided no earlier supplier in the
      list has the same normalised suffix. */
  lemma BuildThenResolve(suppliers: seq<Supplier>, i: nat, path: string)
    requires i < |suppliers|
    requires suppliers[i].suffix.Some? && suppliers[i].suffix.value != "" && '/' !in suppliers[i].suffix.value
    requires forall j :: 0 <= j < i ==> SuffixKey(suppliers[j]) != SuffixKey(suppliers[i])
    ensures ResolveSupplier(BuildSupplierPath(suppliers[i], path), suppliers) == suppliers[i]
  {
    BuiltPathFirstSegment(suppliers[i], path);
    ResolveFirstMatch(BuildSupplierPath(suppliers[i], path), suppliers, i);
  }

  /** The first segment of a built path is the supplier's normalised suffix. */
  lemma BuiltPathFirstSegment(s: Supplier, path: string)
    requires s.suffix.Some? && s.suffix.value != "" && '/' !in s.suffix.value
    ensures FirstSegment(BuildSupplierPath(s, path)) == SuffixKey(s)
  {
    var x := s.suffix.value;
    var n := LeadingSlash(path);
    var rest := if n == "/" then "" else n;
    assert BuildSupplierPath(s, path) == "/" + x + rest;
    FirstSegmentOf(x, rest);
  }
}
