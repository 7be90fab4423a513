/** The category listing page (frontend/src/pages/CategoryList.jsx): the
    products of one category matching a search keyword. */
module CategoryList {
  import opened Wrappers
  import opened Text
  import opened Seqs
  import opened Products
  import opened CategoryMenu

  /** `decodeURIComponent(categoryName || "全部类别")`, with the route parameter
      already decoded and an absent parameter given as "". */
  function DisplayCategory(categoryName: string): (r: string)
    ensures categoryName == "" ==> r == AllCategories
    ensures categoryName != "" ==> r == categoryName
  {
    if categoryName != "" then categoryName else AllCategories
  }

  /** The keyword test: an empty keyword passes everything; otherwise the name
      or the tags, when present, must contain the trimmed keyword. */
  function MatchesKeyword(keyword: string): Product -> bool {
    (p: Product) => keyword == ""
      || Contains(p.name, Trim(keyword))
      || (p.tags.Some? && Contains(p.tags.value, Trim(keyword)))
  }

  function Matches(display: string, keyword: string): Product -> bool {
    (p: Product) => MatchesCategory(display)(p) && MatchesKeyword(keyword)(p)
  }

  /** `filteredProducts`: the products that pass both tests, in their order. */
  function ListedProducts(products: seq<Product>, display: string, keyword: string): (r: seq<Product>)
    ensures IsSubsequence(r, products)
    ensures forall i :: 0 <= i < |r| ==> MatchesCategory(display)(r[i]) && MatchesKeyword(keyword)(r[i])
    ensures forall i :: 0 <= i < |products| && MatchesCategory(display)(products[i]) && MatchesKeyword(keyword)(products[i]) ==>
      products[i] in r
    ensures forall p :: multiset(r)[p] == if Matches(display, keyword)(p) then multiset(products)[p] else 0
  {
    FilterIsSubsequence(products, Matches(display, keyword));
    FilterMultiset(products, Matches(display, keyword));
    Filter(products, Matches(display, keyword))
  }

  /** Without a keyword the page lists what the category menu shows for the
      same category. */
  lemma EmptyKeywordIsCategoryFilter(products: seq<Product>, display: string)
    ensures ListedProducts(products, display, "") == FilteredProducts(products, display)
  {
    FilterAgree(products, Matches(display, ""), MatchesCategory(display));
  }

  /** A keyword of white space only trims to "", which every name contains,
      so it filters nothing out. */
  lemma BlankKeywordMatchesAll(products: seq<Product>, display: string, keyword: string)
    requires forall i :: 0 <= i < |keyword| ==> IsSpace(keyword[i])
    ensures ListedProducts(products, display, keyword) == FilteredProducts(products, display)
  {
    TrimEmptyIff(keyword);
    forall i | 0 <= i < |products|
      ensures Matches(display, keyword)(products[i]) == MatchesCategory(display)(products[i])
    {
      ContainsEmpty(products[i].name);
    }
    FilterAgree(products, Matches(display, keyword), MatchesCategory(display));
  }

  /** A non-blank keyword keeps only products whose name or tags contain it. */
  lemma KeywordRequiresOccurrence(products: seq<Product>, display: string, keyword: string, i: int)
    requires keyword != "" && 0 <= i < |ListedProducts(products, display, keyword)|
    ensures var p := ListedProducts(products, display, keyword)[i];
      (exists k :: OccursAt(p.name, Trim(keyword), k))
      || (p.tags.Some? && exists k :: OccursAt(p.tags.value, Trim(keyword), k))
  {
    var p := ListedProducts(products, display, keyword)[i];
    ContainsIff(p.name, Trim(keyword));
    if p.tags.Some? {
      ContainsIff(p.tags.value, Trim(keyword));
    }
  }
}
