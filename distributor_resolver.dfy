/** Resolution of the current location to a distributor code, and the
    deterministic demonstration stock formula (frontend/src/utils/distributor.js). */
module DistributorResolver {
  import opened Text
  import opened DistributorData
  import opened Locations

  /** `normalizeCode(searchParams.get("dist") || searchParams.get("d"))` */
  function QueryCode(loc: Location): (code: string)
    ensures QueryParam(loc, "dist") != "" ==> code == Normalize(QueryParam(loc, "dist"))
    ensures QueryParam(loc, "dist") == "" ==> code == Normalize(QueryParam(loc, "d"))
  {
    Normalize(if QueryParam(loc, "dist") != "" then QueryParam(loc, "dist") else QueryParam(loc, "d"))
  }

  /** The query code is already in normal form: normalising it again changes nothing. */
  lemma QueryCodeIsNormal(loc: Location)
    ensures Normalize(QueryCode(loc)) == QueryCode(loc)
  {
    NormalizeIdempotent(if QueryParam(loc, "dist") != "" then QueryParam(loc, "dist") else QueryParam(loc, "d"));
  }

  /** Own keys of `distributorMap`. */
  predicate IsKnown(code: string) {
    code in DistributorMap
  }

  /** Property names every plain JavaScript object answers through its
      prototype that are already in normal form (lower case, no surrounding
      white space): looking one of them up in `distributorMap` gives a
      truthy value although it is no distributor code. */
  const InheritedNames: set<string> := {"constructor", "__proto__"}

  /** Whether `distributorMap[code]` is truthy, when the lookup also sees the
      names in `inherited`. */
  predicate Truthy(code: string, inherited: set<string>) {
    IsKnown(code) || code in inherited
  }

  /** The three rules of `resolveDistributorCode` in order, for a map lookup
      that also answers the names in `inherited`: the query code, then a
      trailing `/d/<code>`, then the last path segment, each used only when
      the lookup is truthy; otherwise the default code. */
  function ResolveWith(loc: Location, inherited: set<string>): (r: string)
    ensures Truthy(r, inherited) || r == DefaultDistributor.code
  {
    var queryCode := QueryCode(loc);
    if queryCode != "" && Truthy(queryCode, inherited) then queryCode
    else
      var segments := Segments(loc.pathname);
      if |segments| >= 2 && segments[|segments| - 2] == "d" && Truthy(Normalize(segments[|segments| - 1]), inherited) then
        Normalize(segments[|segments| - 1])
      else if |segments| >= 1 && Normalize(segments[|segments| - 1]) != "" && Truthy(Normalize(segments[|segments| - 1]), inherited) then
        Normalize(segments[|segments| - 1])
      else DefaultDistributor.code
  }

  /** `resolveDistributorCode` as written: the lookup answers inherited names too. */
  function ResolveCodeAsWritten(loc: Location): (r: string)
    ensures IsKnown(r) || r in InheritedNames || r == DefaultDistributor.code
  {
    ResolveWith(loc, InheritedNames)
  }

  /** `resolveDistributorCode` with the lookup restricted to own keys: the
      result is always a listed code or the default one. */
  function ResolveCode(loc: Location): (r: string)
    ensures IsKnown(r) || r == DefaultDistributor.code
  {
    ResolveWith(loc, {})
  }

  /** A query code that normalises to an inherited name, such as
      `?dist=constructor`, makes the code as written return that name, which
      is neither a distributor code nor the default one; the corrected
      resolver ignores it and falls back to the path. */
  lemma InheritedNameAccepted(loc: Location)
    requires QueryCode(loc) in InheritedNames
    ensures ResolveCodeAsWritten(loc) == QueryCode(loc)
    ensures !IsKnown(ResolveCodeAsWritten(loc)) && ResolveCodeAsWritten(loc) != DefaultDistributor.code
    ensures ResolveCode(loc) == PathCode(loc.pathname)
  {
    var q := QueryCode(loc);
    assert q == "constructor" || q == "__proto__";
    MapKeys();
    assert !IsKnown(q) by {
      assert q != "gz" && q != "sz" && q != "hz";
    }
    assert ResolveWith(loc, InheritedNames) == q;
    PathDecidesOtherwise(loc);
  }

  /** `?dist=constructor` is such a query. */
  lemma ConstructorQuery()
    ensures QueryCode(Location("/", map["dist" := "constructor"])) == "constructor"
  {
    var loc := Location("/", map["dist" := "constructor"]);
    assert QueryParam(loc, "dist") == "constructor";
    NormalizeLowerWord("constructor");
  }

  /** The two resolvers differ only on locations whose query code or last
      path segment normalises to an inherited name. */
  lemma AsWrittenAgrees(loc: Location)
    requires QueryCode(loc) !in InheritedNames
    requires Segments(loc.pathname) == [] || Normalize(Segments(loc.pathname)[|Segments(loc.pathname)| - 1]) !in InheritedNames
    ensures ResolveCodeAsWritten(loc) == ResolveCode(loc)
  {
  }

  /** The path rules alone: what resolution falls back to when the query names no known code. */
  function PathCode(pathname: string): (r: string)
    ensures IsKnown(r) || r == DefaultDistributor.code
  {
    var segments := Segments(pathname);
    if |segments| >= 1 && IsKnown(Normalize(segments[|segments| - 1])) then Normalize(segments[|segments| - 1])
    else DefaultDistributor.code
  }

  /** A known query code wins over anything in the path. */
  lemma QueryCodeWins(loc: Location)
    requires IsKnown(QueryCode(loc))
    ensures ResolveCode(loc) == QueryCode(loc)
  {
    MapKeys();
  }

  /** Without a known query code the result is decided by the last path segment
      alone: the `/d/<code>` rule compares `d` literally but can only ever
      return what the last-segment rule returns anyway. */
  lemma PathDecidesOtherwise(loc: Location)
    requires !IsKnown(QueryCode(loc))
    ensures ResolveCode(loc) == PathCode(loc.pathname)
  {
    MapKeys();
  }

  /** `dist` is read before `d`: a non-empty `dist`, even an unknown one, hides `d` entirely. */
  lemma DistHidesD(loc: Location, v: string)
    requires QueryParam(loc, "dist") != ""
    ensures ResolveCode(Location(loc.pathname, loc.query["d" := v])) == ResolveCode(loc)
  {
    var loc' := Location(loc.pathname, loc.query["d" := v]);
    assert QueryParam(loc', "dist") == QueryParam(loc, "dist");
  }

  /** An empty path with no usable query gives the default code. */
  lemma EmptyPathIsDefault(loc: Location)
    requires !IsKnown(QueryCode(loc))
    requires Segments(loc.pathname) == []
    ensures ResolveCode(loc) == "default"
  {
    PathDecidesOtherwise(loc);
  }

  lemma SegmentsOfDGz()
    ensures Segments("/d/gz") == ["d", "gz"]
  {
    SegmentsStep("gz", "");
    assert "/gz" == "/" + "gz" + "";
    SegmentsStep("d", "/gz");
    assert "/d/gz" == "/" + "d" + "/gz";
  }

  /** `?d=sz` wins over a path ending in `/d/gz`. */
  lemma QueryOverPathExample()
    ensures ResolveCode(Location("/d/gz", map["d" := "sz"])) == "sz"
  {
    MapKeys();
    NormalizeLowerWord("sz");
  }

  /** An unknown `?d` falls through to the path. */
  lemma UnknownQueryExample()
    ensures ResolveCode(Location("/d/gz", map["d" := "xx"])) == "gz"
  {
    var loc := Location("/d/gz", map["d" := "xx"]);
    MapKeys();
    NormalizeLowerWord("xx");
    assert QueryCode(loc) == "xx";
    assert !IsKnown("xx");
    PathDecidesOtherwise(loc);
    PathCodeOfDGz();
  }

  /** The path `/d/gz` alone names `gz`. */
  lemma PathCodeOfDGz()
    ensures PathCode("/d/gz") == "gz"
  {
    MapKeys();
    SegmentsOfDGz();
    NormalizeLowerWord("gz");
    var segments := Segments("/d/gz");
    assert segments[|segments| - 1] == "gz";
    assert IsKnown(Normalize(segments[|segments| - 1]));
  }

  /** `getDistributor`: the record of a known code, the default for any other value. */
  function GetDistributor(code: string): (d: Distributor)
    ensures IsKnown(code) ==> d == DistributorMap[code]
    ensures !IsKnown(code) ==> d == DefaultDistributor
  {
    if code in DistributorMap then DistributorMap[code] else DefaultDistributor
  }

  /** `getDistributorByLocation`, over the corrected resolver: the record of
      a listed distributor or the default one. */
  function GetDistributorByLocation(loc: Location): (d: Distributor)
    ensures d in DistributorList || d == DefaultDistributor
  {
    MapEntriesKeyedByCode();
    GetDistributor(ResolveCode(loc))
  }

  /** The distributor found for a location carries exactly the resolved code,
      and is a listed distributor or the default one. */
  lemma ByLocationHasResolvedCode(loc: Location)
    ensures GetDistributorByLocation(loc).code == ResolveCode(loc)
    ensures GetDistributorByLocation(loc) in DistributorList || GetDistributorByLocation(loc) == DefaultDistributor
  {
    MapEntriesKeyedByCode();
  }

  /** What `distributorMap[code] || defaultDistributor` yields when the
      lookup also answers inherited names: a distributor record, or the
      built-in object an inherited name reaches (the `Object` function for
      `constructor`, `Object.prototype` for `__proto__`), which has no `code`,
      `name` or `pickupAddress`. */
  datatype Lookup = Record(distributor: Distributor) | Inherited(name: string)

  /** `getDistributor` as written. */
  function GetDistributorAsWritten(code: string): (r: Lookup)
    ensures IsKnown(code) ==> r == Record(DistributorMap[code])
    ensures code in InheritedNames ==> r == Inherited(code)
    ensures !IsKnown(code) && code !in InheritedNames ==> r == Record(DefaultDistributor)
  {
    MapKeys();
    if code in DistributorMap then Record(DistributorMap[code])
    else if code in InheritedNames then Inherited(code)
    else Record(DefaultDistributor)
  }

  /** `getDistributorByLocation` as written. */
  function GetDistributorByLocationAsWritten(loc: Location): (r: Lookup)
    ensures r.Inherited? <==> ResolveCodeAsWritten(loc) in InheritedNames
    ensures r.Record? ==> r.distributor.code == ResolveCodeAsWritten(loc)
    ensures r.Record? ==> r.distributor in DistributorList || r.distributor == DefaultDistributor
  {
    MapKeys();
    MapEntriesKeyedByCode();
    GetDistributorAsWritten(ResolveCodeAsWritten(loc))
  }

  /** As written, `getDistributor("constructor")` reaches the inherited
      `Object` function, which has no code; the corrected lookup gives the
      default distributor. */
  lemma InheritedLookupAsWritten()
    ensures GetDistributorAsWritten("constructor") == Inherited("constructor")
    ensures GetDistributor("constructor") == DefaultDistributor
  {
    MapKeys();
    assert "constructor" !in DistributorMap by {
      assert "constructor" != "gz" && "constructor" != "sz" && "constructor" != "hz";
    }
  }

  /** Where the two resolvers agree, the as-written lookup finds the record
      of the corrected one. */
  lemma ByLocationAsWrittenAgrees(loc: Location)
    requires QueryCode(loc) !in InheritedNames
    requires Segments(loc.pathname) == [] || Normalize(Segments(loc.pathname)[|Segments(loc.pathname)| - 1]) !in InheritedNames
    ensures GetDistributorByLocationAsWritten(loc) == Record(GetDistributorByLocation(loc))
  {
    AsWrittenAgrees(loc);
    MapKeys();
  }

  /** The quotient of JavaScript's division truncated toward zero. */
  function JsQuotient(a: int, b: int): int
    requires b > 0
  {
    if a >= 0 then a / b else -((-a) / b)
  }

  /** JavaScript's `%`: what is left of `a` after the truncated quotient;
      the remainder takes the sign of the dividend. */
  function JsRemainder(a: int, b: int): (r: int)
    requires b > 0
    ensures a == JsQuotient(a, b) * b + r
    ensures -b < r < b
    ensures a >= 0 ==> 0 <= r
    ensures a <= 0 ==> r <= 0
  {
    if a >= 0 then a % b
    else
      var q, m := (-a) / b, (-a) % b;
      assert -a == q * b + m;
      assert (-q) * b == -(q * b);
      -m
  }

  /** The UTF-16 code units of one character: the character itself inside
      the Basic Multilingual Plane, else its surrogate pair. */
  function CodeUnits(c: char): (units: seq<int>)
    ensures c as int < 0x1_0000 ==> units == [c as int]
    ensures c as int >= 0x1_0000 ==>
      |units| == 2 && 0xD800 <= units[0] < 0xDC00 && 0xDC00 <= units[1] < 0xE000
      && (units[0] - 0xD800) * 0x400 + (units[1] - 0xDC00) + 0x1_0000 == c as int
  {
    var v := c as int;
    if v < 0x1_0000 then [v]
    else [0xD800 + (v - 0x1_0000) / 0x400, 0xDC00 + (v - 0x1_0000) % 0x400]
  }

  /** `s.split("").reduce((total, char) => total + char.charCodeAt(0), 0)`:
      `split("")` yields one string per UTF-16 code unit, so a character
      outside the Basic Multilingual Plane adds both of its surrogates. */
  function CharCodeSum(s: string): (n: nat)
    ensures n <= 0xFFFF * 2 * |s|
  {
    if s == [] then 0
    else
      var units := CodeUnits(s[|s| - 1]);
      CharCodeSum(s[..|s| - 1]) + (if |units| == 1 then units[0] else units[0] + units[1])
  }

  /** The seed of a concatenation is the sum of the seeds. */
  lemma {:induction false} CharCodeSumConcat(a: string, b: string)
    ensures CharCodeSum(a + b) == CharCodeSum(a) + CharCodeSum(b)
    decreases |b|
  {
    if b == [] {
      assert a + b == a;
    } else {
      assert (a + b)[..|a + b| - 1] == a + b[..|b| - 1];
      CharCodeSumConcat(a, b[..|b| - 1]);
    }
  }

  /** `getStockForDistributor`: `18 + ((id || 1) * 7 + seed) % 30`, where the seed
      is the character-code sum of the normalised code (`"default"` for an empty code). */
  function StockFor(productId: int, distributorCode: string): (stock: int)
    ensures -11 <= stock <= 47
    ensures productId >= 0 ==> 18 <= stock
  {
    var normalized := Normalize(if distributorCode == "" then DefaultDistributor.code else distributorCode);
    var seed := CharCodeSum(normalized);
    18 + JsRemainder((if productId == 0 then 1 else productId) * 7 + seed, 30)
  }

  /** Stock depends on a code only through its normal form. */
  lemma StockThroughNormalForm(productId: int, code: string)
    requires Normalize(code) != ""
    ensures StockFor(productId, code) == StockFor(productId, Normalize(code))
  {
    NormalizeIdempotent(code);
  }

  /** An empty code behaves like `"default"`, and product id 0 like 1. */
  lemma StockFallbacks(productId: int, code: string)
    ensures StockFor(productId, "") == StockFor(productId, "default")
    ensures StockFor(0, code) == StockFor(1, code)
  {
    EmptyCodeIsDefault(productId, "");
  }

  lemma EmptyCodeIsDefault(productId: int, code: string)
    requires code == ""
    ensures StockFor(productId, code) == StockFor(productId, DefaultDistributor.code)
  {
    assert DefaultDistributor.code != "";
  }

  /** A negative product id can push the stock below 18, even to zero or below. */
  lemma NegativeIdStock()
    ensures StockFor(-40, "gz") == -7
  {
    assert Normalize("gz") == "gz";
    assert CharCodeSum("gz") == 'g' as int + 'z' as int by {
      assert "gz"[..1] == "g";
      assert "g"[..0] == "";
    }
  }
}
