/** The category menu page (frontend/src/pages/CategoryMenu.jsx): the
    category sidebar, the products of the active category, and the +/-
    buttons that drive the cart. */
module CategoryMenu {
  import opened Text
  import opened Seqs
  import opened Products
  import opened DistributorResolver
  import opened CartStore

  /** The sidebar entry that stands for every category. */
  const AllCategories := "全部类别"

  /** The entry the page would show for an empty category list. */
  const OtherCategories := "其他类别"

  /** `product.category?.trim()` */
  function CategoryOf(p: Product): string {
    Trim(p.category)
  }

  /** The trimmed, non-empty categories of `products`, each once, in the
      order of their first appearance. */
  function FirstAppearances(products: seq<Product>): (r: seq<string>)
    ensures forall k :: 0 <= k < |r| ==> r[k] != ""
  {
    if products == [] then []
    else
      var prev := FirstAppearances(products[..|products| - 1]);
      var c := CategoryOf(products[|products| - 1]);
      if c != "" && c !in prev then prev + [c] else prev
  }

  /** The `categories` memo: a `forEach` over the products that records each
      new trimmed, non-empty category in `seen` and pushes it onto `list`,
      which starts with the all-categories entry. */
  method Categories(products: seq<Product>) returns (categories: seq<string>)
    ensures categories == [AllCategories] + FirstAppearances(products)
  {
    var seen: set<string> := {};
    var list := [AllCategories];
    for i := 0 to |products|
      invariant list == [AllCategories] + FirstAppearances(products[..i])
      invariant forall x :: x in seen <==> x in FirstAppearances(products[..i])
    {
      assert products[..i + 1][..i] == products[..i];
      var category := CategoryOf(products[i]);
      if category != "" && category !in seen {
        seen := seen + {category};
        list := list + [category];
      }
    }
    assert products[..|products|] == products;
    assert list == [AllCategories] + FirstAppearances(products);
    categories := if |list| > 0 then list else [OtherCategories];
  }

  /** The list is never empty and begins with the all-categories entry, so
      the fallback entry is never shown. */
  lemma CategoriesHead(products: seq<Product>)
    ensures var c := [AllCategories] + FirstAppearances(products);
      |c| >= 1 && c[0] == AllCategories && OtherCategories !in c[..1]
  {
  }

  /** Every later entry is a trimmed, non-empty category of some product, and
      every product's trimmed, non-empty category is an entry. */
  lemma {:induction false} CategoriesComplete(products: seq<Product>)
    ensures forall k :: 0 <= k < |FirstAppearances(products)| ==>
      IsTrimmed(FirstAppearances(products)[k])
      && exists i :: 0 <= i < |products| && CategoryOf(products[i]) == FirstAppearances(products)[k]
    ensures forall i :: 0 <= i < |products| && CategoryOf(products[i]) != "" ==>
      CategoryOf(products[i]) in FirstAppearances(products)
  {
    if products != [] {
      var init := products[..|products| - 1];
      var prev, all := FirstAppearances(init), FirstAppearances(products);
      CategoriesComplete(init);
      TrimIsTrimmed(products[|products| - 1].category);
      assert forall i :: 0 <= i < |init| ==> init[i] == products[i];
      forall k | 0 <= k < |all|
        ensures IsTrimmed(all[k]) && exists i :: 0 <= i < |products| && CategoryOf(products[i]) == all[k]
      {
        if k < |prev| {
          assert all[k] == prev[k];
          var i :| 0 <= i < |init| && CategoryOf(init[i]) == prev[k];
          assert CategoryOf(products[i]) == all[k];
        } else {
          assert CategoryOf(products[|products| - 1]) == all[k];
        }
      }
    }
  }

  /** Later entries are pairwise distinct. */
  lemma {:induction false} CategoriesDistinct(products: seq<Product>)
    ensures forall k1, k2 :: 0 <= k1 < k2 < |FirstAppearances(products)| ==>
      FirstAppearances(products)[k1] != FirstAppearances(products)[k2]
  {
    if products != [] {
      CategoriesDistinct(products[..|products| - 1]);
    }
  }

  /** The index of the first product whose trimmed category is `x`, or `|products|`. */
  function FirstIndex(products: seq<Product>, x: string): (k: nat)
    ensures k <= |products|
    ensures k < |products| ==> CategoryOf(products[k]) == x
    ensures forall j :: 0 <= j < k ==> CategoryOf(products[j]) != x
  {
    if products == [] then 0
    else if CategoryOf(products[0]) == x then 0
    else 1 + FirstIndex(products[1..], x)
  }

  lemma {:induction false} FirstIndexOfPrefix(products: seq<Product>, n: nat, x: string)
    requires n <= |products| && FirstIndex(products[..n], x) < n
    ensures FirstIndex(products, x) == FirstIndex(products[..n], x)
  {
    if products != [] && CategoryOf(products[0]) != x {
      assert products[..n][1..] == products[1..][..n - 1];
      FirstIndexOfPrefix(products[1..], n - 1, x);
    }
  }

  /** Entries follow the order in which their categories first appear. */
  lemma {:induction false} CategoriesInFirstAppearanceOrder(products: seq<Product>)
    ensures forall k :: 0 <= k < |FirstAppearances(products)| ==>
      FirstIndex(products, FirstAppearances(products)[k]) < |products|
    ensures forall k1, k2 :: 0 <= k1 < k2 < |FirstAppearances(products)| ==>
      FirstIndex(products, FirstAppearances(products)[k1]) < FirstIndex(products, FirstAppearances(products)[k2])
  {
    if products != [] {
      var n := |products| - 1;
      var init := products[..n];
      CategoriesInFirstAppearanceOrder(init);
      var prev := FirstAppearances(init);
      forall k | 0 <= k < |prev|
        ensures FirstIndex(products, prev[k]) == FirstIndex(init, prev[k])
      {
        FirstIndexOfPrefix(products, n, prev[k]);
      }
      var c := CategoryOf(products[n]);
      if c != "" && c !in prev {
        CategoriesComplete(init);
        assert FirstIndex(products, c) == n by {
          assert forall j :: 0 <= j < n ==> CategoryOf(products[j]) != c by {
            assert forall j :: 0 <= j < n ==> init[j] == products[j];
          }
        }
      }
    }
  }

  /** A product whose category is literally the all-categories entry adds it
      a second time, since `seen` starts empty. */
  lemma AllCategoriesMayRepeat(products: seq<Product>, i: int)
    requires 0 <= i < |products| && CategoryOf(products[i]) == AllCategories
    ensures AllCategories in FirstAppearances(products)
  {
    CategoriesComplete(products);
  }

  /** The category test of `filteredProducts`: the raw, untrimmed category
      must equal the active one unless every category is shown. */
  function MatchesCategory(active: string): Product -> bool {
    (p: Product) => active == AllCategories || p.category == active
  }

  /** `filteredProducts` */
  function FilteredProducts(products: seq<Product>, active: string): (r: seq<Product>)
    ensures IsSubsequence(r, products)
    ensures forall i :: 0 <= i < |r| ==> active == AllCategories || r[i].category == active
    ensures forall i :: 0 <= i < |products| && (active == AllCategories || products[i].category == active) ==>
      products[i] in r
    ensures forall p :: multiset(r)[p] == if active == AllCategories || p.category == active then multiset(products)[p] else 0
  {
    FilterIsSubsequence(products, MatchesCategory(active));
    FilterMultiset(products, MatchesCategory(active));
    Filter(products, MatchesCategory(active))
  }

  /** The all-categories entry shows every product. */
  lemma AllShowsEverything(products: seq<Product>)
    ensures FilteredProducts(products, AllCategories) == products
  {
    FilterAll(products, MatchesCategory(AllCategories));
  }

  function InStock(code: string): Product -> bool {
    (p: Product) => StockFor(p.id, code) > 0
  }

  /** `availableProducts` */
  function AvailableProducts(filtered: seq<Product>, code: string): (r: seq<Product>)
    ensures IsSubsequence(r, filtered)
    ensures forall i :: 0 <= i < |r| ==> StockFor(r[i].id, code) > 0
    ensures forall i :: 0 <= i < |filtered| && StockFor(filtered[i].id, code) > 0 ==> filtered[i] in r
  {
    FilterIsSubsequence(filtered, InStock(code));
    Filter(filtered, InStock(code))
  }

  /** No product with a non-negative id is out of stock, so the stock filter
      removes nothing from such products. */
  lemma AvailableIsFiltered(filtered: seq<Product>, code: string)
    requires forall i :: 0 <= i < |filtered| ==> filtered[i].id >= 0
    ensures AvailableProducts(filtered, code) == filtered
  {
    FilterAll(filtered, InStock(code));
  }

  /** A product with a negative id can be hidden by the stock filter. */
  lemma NegativeIdHidden(p: Product)
    requires p.id == -40
    ensures AvailableProducts([p], "gz") == []
  {
    NegativeIdStock();
    assert !InStock("gz")(p);
    assert Filter([p], InStock("gz")) == [] + Filter([p][1..], InStock("gz"));
  }

  /** The `quantities` reduce: product id to quantity, later items winning. */
  function Quantities(items: seq<Item>): (m: map<int, int>)
    ensures forall i :: 0 <= i < |items| ==> items[i].product.id in m
    ensures forall k :: k in m ==> exists i :: 0 <= i < |items| && items[i].product.id == k && m[k] == items[i].quantity
  {
    IndexBy(items, (it: Item) => it.product.id, (it: Item) => it.quantity)
  }

  /** `quantities[id] ?? 0` */
  function QuantityShown(items: seq<Item>, id: int): (q: int)
    ensures q == 0 || exists i :: 0 <= i < |items| && items[i].product.id == id && q == items[i].quantity
    ensures (forall i :: 0 <= i < |items| ==> items[i].product.id != id) ==> q == 0
  {
    var m := Quantities(items);
    if id in m then m[id] else 0
  }

  /** The shown quantity is the cart quantity for a product in a cart with
      unique ids, and 0 for a product not in the cart. */
  lemma QuantityShownSpec(items: seq<Item>, id: int)
    requires UniqueIds(items)
    ensures forall i :: 0 <= i < |items| && items[i].product.id == id ==> QuantityShown(items, id) == items[i].quantity
    ensures !HasId(items, id) ==> QuantityShown(items, id) == 0
  {
    var key := (it: Item) => it.product.id;
    var val := (it: Item) => it.quantity;
    assert DistinctKeys(items, key);
    forall i | 0 <= i < |items| && items[i].product.id == id
      ensures QuantityShown(items, id) == items[i].quantity
    {
      IndexByDistinct(items, key, val, i);
    }
  }

  /** "-" sends `max(quantity - 1, 0)` to `updateQuantity`. */
  function MinusTarget(quantity: int): (r: int)
    ensures r >= 0
    ensures quantity >= 1 ==> r == quantity - 1
    ensures quantity < 1 ==> r == 0
  {
    Max(quantity - 1, 0)
  }

  /** "-" is enabled unless the shown quantity is 0. */
  predicate MinusEnabled(quantity: int)
    ensures quantity >= 0 ==> (MinusEnabled(quantity) <==> MinusTarget(quantity) < quantity)
  {
    quantity != 0
  }

  /** "+" is enabled while the shown quantity is below the stock. */
  predicate PlusEnabled(quantity: int, stock: int)
    ensures PlusEnabled(quantity, stock) <==> quantity + 1 <= stock
  {
    quantity < stock
  }

  /** On an item of a valid cart, "-" lowers the quantity by one, and removes
      the item when its quantity was 1. */
  lemma MinusLowersByOne(items: seq<Item>, code: string, i: int)
    requires UniqueIds(items) && AllPositive(items) && WithinStock(items, code)
    requires 0 <= i < |items|
    ensures var id := items[i].product.id;
      var q := QuantityShown(items, id);
      MinusEnabled(q)
      && Filter(UpdatedItems(items, id, MinusTarget(q), code), IsId(id))
         == (if q > 1 then [Item(items[i].product, q - 1)] else [])
  {
    var id := items[i].product.id;
    QuantityShownSpec(items, id);
    UpdateTarget(items, id, MinusTarget(items[i].quantity), code, i);
  }

  /** On an item of a valid cart, an enabled "+" raises the quantity by one;
      on a product not in the cart it adds the product with quantity 1. */
  lemma PlusRaisesByOne(items: seq<Item>, product: Product, code: string)
    requires UniqueIds(items)
    requires PlusEnabled(QuantityShown(items, product.id), StockFor(product.id, code))
    ensures HasId(items, product.id) ==>
      var i := FindIndex(items, product.id);
      AddedItems(items, product, 1, StockFor(product.id, code))[i].quantity == items[i].quantity + 1
    ensures !HasId(items, product.id) ==>
      AddedItems(items, product, 1, StockFor(product.id, code)) == items + [Item(product, 1)]
  {
    if HasId(items, product.id) {
      QuantityShownSpec(items, product.id);
      PlusOnItem(items, product, StockFor(product.id, code));
    } else {
      AddNew(items, product, 1, StockFor(product.id, code));
    }
  }

  /** The "+" step on a product in the cart, with the stock as a parameter. */
  lemma PlusOnItem(items: seq<Item>, product: Product, stock: int)
    requires UniqueIds(items) && HasId(items, product.id)
    requires items[FindIndex(items, product.id)].quantity < stock
    ensures var i := FindIndex(items, product.id);
      AddedItems(items, product, 1, stock)[i].quantity == items[i].quantity + 1
  {
    AddExisting(items, product, 1, stock, FindIndex(items, product.id));
  }

  /** The active category of the page. */
  class MenuState {
    var active: string

    /** `useState(categories[0])` */
    constructor(categories: seq<string>)
      requires |categories| > 0
      ensures active == categories[0]
    {
      active := categories[0];
    }

    /** A click on a sidebar entry. */
    method Choose(category: string)
      modifies this
      ensures active == category
    {
      active := category;
    }

    /** The effect: an active category missing from the list is reset to the
        first entry; one present in the list is kept. */
    method Sync(categories: seq<string>)
      modifies this
      requires |categories| > 0
      ensures active in categories
      ensures old(active) in categories ==> active == old(active)
      ensures old(active) !in categories ==> active == categories[0]
    {
      if active !in categories {
        active := categories[0];
      }
    }
  }
}
