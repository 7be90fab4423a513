/** The storefront cart (frontend/src/store/cart.jsx): an ordered sequence of
    line items keyed by product id, every quantity clamped to the stock the
    current distributor shows for that product. */
module CartStore {
  import opened Seqs
  import opened Products
  import opened DistributorResolver

  /** A line item: the product record as it was added, and a quantity. */
  datatype Item = Item(product: Product, quantity: int)

  function Min(a: int, b: int): int { if a <= b then a else b }
  function Max(a: int, b: int): int { if a >= b then a else b }

  /** Some item of `items` has product id `id`. */
  predicate HasId(items: seq<Item>, id: int) {
    exists i :: 0 <= i < |items| && items[i].product.id == id
  }

  /** No product id occurs twice. */
  predicate UniqueIds(items: seq<Item>) {
    forall i, j :: 0 <= i < j < |items| ==> items[i].product.id != items[j].product.id
  }

  /** Every quantity is at least 1. */
  predicate AllPositive(items: seq<Item>) {
    forall i :: 0 <= i < |items| ==> items[i].quantity >= 1
  }

  /** Every quantity is at most the stock its product has at distributor `code`. */
  predicate WithinStock(items: seq<Item>, code: string) {
    forall i :: 0 <= i < |items| ==> items[i].quantity <= StockFor(items[i].product.id, code)
  }

  function IsId(id: int): Item -> bool {
    (it: Item) => it.product.id == id
  }

  function NotId(id: int): Item -> bool {
    (it: Item) => it.product.id != id
  }

  function Positive(it: Item): bool {
    it.quantity > 0
  }

  /** `prev.find((item) => item.id === id)`, as an index: the first item with
      that id, or `|items|` when there is none. */
  function FindIndex(items: seq<Item>, id: int): (k: nat)
    ensures k <= |items|
    ensures k < |items| ==> items[k].product.id == id
    ensures forall j :: 0 <= j < k ==> items[j].product.id != id
    ensures k == |items| <==> !HasId(items, id)
  {
    if items == [] then 0
    else if items[0].product.id == id then 0
    else 1 + FindIndex(items[1..], id)
  }

  /** `prev.map((item) => item.id === id ? { ...item, quantity: q } : item)` */
  function WithQuantity(items: seq<Item>, id: int, q: int): (r: seq<Item>)
    ensures |r| == |items|
    ensures forall j :: 0 <= j < |items| ==>
      r[j] == if items[j].product.id == id then Item(items[j].product, q) else items[j]
  {
    if items == [] then [] else
      [if items[0].product.id == id then Item(items[0].product, q) else items[0]] + WithQuantity(items[1..], id, q)
  }

  /** The new item sequence of `addItem(product, quantity)` when the product's
      stock is `stock`. */
  function AddedItems(items: seq<Item>, product: Product, quantity: int, stock: int): (r: seq<Item>)
    ensures |r| == if HasId(items, product.id) then |items| else |items| + 1
    ensures forall j :: 0 <= j < |items| ==> r[j].product == items[j].product
    ensures HasId(r, product.id)
  {
    var k := FindIndex(items, product.id);
    if k < |items| then WithQuantity(items, product.id, Min(items[k].quantity + quantity, stock))
    else
      var r := items + [Item(product, Min(quantity, stock))];
      assert r[|items|].product.id == product.id;
      r
  }

  /** The `map` step of `updateQuantity`: every item with the id gets the
      requested quantity clamped to `[0, stock]`. */
  function Reclamp(items: seq<Item>, id: int, quantity: int, code: string): (r: seq<Item>)
    ensures |r| == |items|
    ensures forall j :: 0 <= j < |items| ==> r[j].product == items[j].product
    ensures forall j :: 0 <= j < |items| && items[j].product.id != id ==> r[j] == items[j]
    ensures forall j :: 0 <= j < |items| && items[j].product.id == id ==>
      r[j].quantity == Min(Max(quantity, 0), StockFor(id, code))
  {
    if items == [] then []
    else
      var head := if items[0].product.id == id
        then Item(items[0].product, Min(Max(quantity, 0), StockFor(items[0].product.id, code)))
        else items[0];
      [head] + Reclamp(items[1..], id, quantity, code)
  }

  /** The new item sequence of `updateQuantity(id, quantity)`. */
  function UpdatedItems(items: seq<Item>, id: int, quantity: int, code: string): (r: seq<Item>)
    ensures |r| <= |items|
    ensures AllPositive(r)
    ensures forall j :: 0 <= j < |items| && items[j].product.id != id && items[j].quantity > 0 ==> items[j] in r
  {
    Filter(Reclamp(items, id, quantity, code), Positive)
  }

  /** The new item sequence of `removeItem(id)`. */
  function RemovedItems(items: seq<Item>, id: int): (r: seq<Item>)
    ensures |r| <= |items|
    ensures !HasId(r, id)
    ensures forall j :: 0 <= j < |items| && items[j].product.id != id ==> items[j] in r
  {
    Filter(items, NotId(id))
  }

  /** `items.reduce((sum, item) => sum + item.price * item.quantity, 0)` */
  function Sum(items: seq<Item>): (r: int)
    ensures (forall i :: 0 <= i < |items| ==> items[i].product.priceCents >= 0 && items[i].quantity >= 0) ==> r >= 0
  {
    if items == [] then 0
    else Sum(items[..|items| - 1]) + items[|items| - 1].product.priceCents * items[|items| - 1].quantity
  }

  // ---------------------------------------------------------------- addItem

  /** Adding a product already in a cart with unique ids sets that item's
      quantity to the old quantity plus the added one, capped at the stock;
      the item keeps its record, and every other item and the order stay. */
  lemma AddExisting(items: seq<Item>, product: Product, quantity: int, stock: int, i: int)
    requires UniqueIds(items)
    requires 0 <= i < |items| && items[i].product.id == product.id
    ensures |AddedItems(items, product, quantity, stock)| == |items|
    ensures AddedItems(items, product, quantity, stock)[i]
      == Item(items[i].product, Min(items[i].quantity + quantity, stock))
    ensures forall j :: 0 <= j < |items| && j != i ==> AddedItems(items, product, quantity, stock)[j] == items[j]
  {
    var k := FindIndex(items, product.id);
    assert k == i;
  }

  /** Adding a product not in the cart appends exactly one item, with the
      added quantity capped at the stock. */
  lemma AddNew(items: seq<Item>, product: Product, quantity: int, stock: int)
    requires !HasId(items, product.id)
    ensures AddedItems(items, product, quantity, stock) == items + [Item(product, Min(quantity, stock))]
  {
    assert FindIndex(items, product.id) == |items|;
  }

  /** `addItem` never creates a second item for an id. */
  lemma AddKeepsUniqueIds(items: seq<Item>, product: Product, quantity: int, stock: int)
    requires UniqueIds(items)
    ensures UniqueIds(AddedItems(items, product, quantity, stock))
  {
    var r := AddedItems(items, product, quantity, stock);
    if FindIndex(items, product.id) < |items| {
      assert forall j :: 0 <= j < |items| ==> r[j].product == items[j].product;
    } else {
      assert forall j :: 0 <= j < |items| ==> items[j].product.id != product.id;
      assert forall j :: 0 <= j < |items| ==> r[j] == items[j];
    }
  }

  /** Quantities never exceed the stock after `addItem`. */
  lemma AddKeepsWithinStock(items: seq<Item>, product: Product, quantity: int, code: string)
    requires WithinStock(items, code)
    ensures WithinStock(AddedItems(items, product, quantity, StockFor(product.id, code)), code)
  {
    var r := AddedItems(items, product, quantity, StockFor(product.id, code));
    if FindIndex(items, product.id) == |items| {
      assert forall j :: 0 <= j < |items| ==> r[j] == items[j];
    }
  }

  /** With a positive added quantity and a positive stock, every quantity
      stays at least 1. */
  lemma AddKeepsPositive(items: seq<Item>, product: Product, quantity: int, stock: int)
    requires AllPositive(items)
    requires quantity >= 1 && stock >= 1
    ensures AllPositive(AddedItems(items, product, quantity, stock))
  {
    var r := AddedItems(items, product, quantity, stock);
    if FindIndex(items, product.id) == |items| {
      assert forall j :: 0 <= j < |items| ==> r[j] == items[j];
    }
  }

  /** `addItem` has no guard against non-positive quantities: a new product
      added with quantity 0 or less is inserted with that quantity, and a
      negative quantity lowers an existing item without removing it. */
  lemma AddNonPositiveGap(items: seq<Item>, product: Product, quantity: int, stock: int)
    requires quantity <= 0
    ensures !HasId(items, product.id) ==>
      |AddedItems(items, product, quantity, stock)| == |items| + 1
      && AddedItems(items, product, quantity, stock)[|items|].quantity <= 0
    ensures HasId(items, product.id) ==>
      |AddedItems(items, product, quantity, stock)| == |items|
  {
    if !HasId(items, product.id) {
      AddNew(items, product, quantity, stock);
    }
  }

  // --------------------------------------------------------- updateQuantity

  lemma {:induction false} FilterKeepsUniqueIds(s: seq<Item>, p: Item -> bool)
    requires UniqueIds(s)
    ensures UniqueIds(Filter(s, p))
  {
    if s != [] {
      FilterKeepsUniqueIds(s[1..], p);
      var t := Filter(s[1..], p);
      assert forall j :: 0 <= j < |t| ==> t[j] in s[1..];
      assert forall j :: 0 <= j < |t| ==> t[j].product.id != s[0].product.id;
      assert Filter(s, p) == (if p(s[0]) then [s[0]] else []) + t;
    }
  }

  lemma {:induction false} ReclampOthers(items: seq<Item>, id: int, quantity: int, code: string, p: Item -> bool)
    requires forall it :: p(it) ==> it.product.id != id
    ensures Filter(Reclamp(items, id, quantity, code), p) == Filter(items, p)
  {
    if items != [] {
      var r := Reclamp(items, id, quantity, code);
      assert r[1..] == Reclamp(items[1..], id, quantity, code);
      ReclampOthers(items[1..], id, quantity, code, p);
      if items[0].product.id == id {
        assert !p(r[0]) && !p(items[0]);
      } else {
        assert r[0] == items[0];
      }
    }
  }

  /** The items `updateQuantity` leaves behind for `id` itself: each item with
      that id, with the clamped quantity, provided that quantity is positive. */
  lemma {:induction false} ReclampTarget(items: seq<Item>, id: int, quantity: int, code: string, pq: Item -> bool)
    requires forall it :: pq(it) == (it.quantity > 0 && it.product.id == id)
    ensures Filter(Reclamp(items, id, quantity, code), pq)
      == if Min(Max(quantity, 0), StockFor(id, code)) > 0
         then WithQuantity(Filter(items, IsId(id)), id, Min(Max(quantity, 0), StockFor(id, code)))
         else []
  {
    if items != [] {
      var r := Reclamp(items, id, quantity, code);
      assert r[1..] == Reclamp(items[1..], id, quantity, code);
      ReclampTarget(items[1..], id, quantity, code, pq);
      var c := Min(Max(quantity, 0), StockFor(id, code));
      if items[0].product.id == id {
        assert Filter(items, IsId(id)) == [items[0]] + Filter(items[1..], IsId(id));
        if c > 0 {
          assert WithQuantity(Filter(items, IsId(id)), id, c)
            == [Item(items[0].product, c)] + WithQuantity(Filter(items[1..], IsId(id)), id, c);
        }
      } else {
        assert r[0] == items[0];
        assert Filter(items, IsId(id)) == Filter(items[1..], IsId(id));
      }
    }
  }

  lemma {:induction false} FilterSingleId(items: seq<Item>, i: int)
    requires UniqueIds(items) && 0 <= i < |items|
    ensures Filter(items, IsId(items[i].product.id)) == [items[i]]
  {
    var id := items[i].product.id;
    if i == 0 {
      assert forall j :: 0 <= j < |items[1..]| ==> !IsId(id)(items[1..][j]);
      FilterNone(items[1..], IsId(id));
    } else {
      assert UniqueIds(items[1..]);
      assert items[1..][i - 1] == items[i];
      FilterSingleId(items[1..], i - 1);
    }
  }

  lemma {:induction false} FilterNone(s: seq<Item>, p: Item -> bool)
    requires forall j :: 0 <= j < |s| ==> !p(s[j])
    ensures Filter(s, p) == []
  {
    if s != [] {
      FilterNone(s[1..], p);
    }
  }

  function OtherPositive(id: int): Item -> bool {
    (it: Item) => it.product.id != id && it.quantity > 0
  }

  function TargetPositive(id: int): Item -> bool {
    (it: Item) => it.quantity > 0 && it.product.id == id
  }

  /** `updateQuantity(id, quantity)` in a cart with unique ids: the target
      item survives exactly when its clamped quantity `Min(Max(quantity, 0), stock)`
      is positive, and then carries that quantity. */
  lemma UpdateTarget(items: seq<Item>, id: int, quantity: int, code: string, i: int)
    requires UniqueIds(items)
    requires 0 <= i < |items| && items[i].product.id == id
    ensures var c := Min(Max(quantity, 0), StockFor(id, code));
      Filter(UpdatedItems(items, id, quantity, code), IsId(id)) == (if c > 0 then [Item(items[i].product, c)] else [])
  {
    var r := Reclamp(items, id, quantity, code);
    FilterFilter(r, Positive, IsId(id), TargetPositive(id));
    ReclampTarget(items, id, quantity, code, TargetPositive(id));
    FilterSingleId(items, i);
  }

  /** Every other item survives `updateQuantity`, unchanged and in order,
      exactly when its quantity is positive. */
  lemma UpdateOthers(items: seq<Item>, id: int, quantity: int, code: string)
    ensures Filter(UpdatedItems(items, id, quantity, code), NotId(id)) == Filter(items, OtherPositive(id))
  {
    var r := Reclamp(items, id, quantity, code);
    FilterFilter(r, Positive, NotId(id), OtherPositive(id));
    ReclampOthers(items, id, quantity, code, OtherPositive(id));
  }

  /** After `updateQuantity` every quantity is positive and ids stay unique. */
  lemma UpdateKeepsInvariants(items: seq<Item>, id: int, quantity: int, code: string)
    requires UniqueIds(items)
    ensures AllPositive(UpdatedItems(items, id, quantity, code))
    ensures UniqueIds(UpdatedItems(items, id, quantity, code))
  {
    var r := Reclamp(items, id, quantity, code);
    assert UniqueIds(r) by {
      assert forall j :: 0 <= j < |items| ==> r[j].product == items[j].product;
    }
    FilterKeepsUniqueIds(r, Positive);
  }

  /** `updateQuantity` drops every item whose quantity is not positive, not
      only the target: an id that is not in the cart still removes such items. */
  lemma UpdateDropsNonPositive(items: seq<Item>, id: int, quantity: int, code: string)
    requires !HasId(items, id)
    ensures UpdatedItems(items, id, quantity, code) == Filter(items, Positive)
  {
    ReclampOthers(items, id, quantity, code, (it: Item) => false);
    assert forall j :: 0 <= j < |items| ==> Reclamp(items, id, quantity, code)[j] == items[j];
    assert Reclamp(items, id, quantity, code) == items;
  }

  /** Quantities never exceed the stock after `updateQuantity`. */
  lemma UpdateKeepsWithinStock(items: seq<Item>, id: int, quantity: int, code: string)
    requires WithinStock(items, code)
    ensures WithinStock(UpdatedItems(items, id, quantity, code), code)
  {
    var r := Reclamp(items, id, quantity, code);
    assert WithinStock(r, code);
    var u := UpdatedItems(items, id, quantity, code);
    assert forall j :: 0 <= j < |u| ==> u[j] in r;
  }

  // ------------------------------------------------------------- removeItem

  /** `removeItem(id)` removes every item with that id, keeps every other item
      in its order, and removing twice is removing once. */
  lemma RemoveSpec(items: seq<Item>, id: int)
    ensures !HasId(RemovedItems(items, id), id)
    ensures IsSubsequence(RemovedItems(items, id), items)
    ensures forall j :: 0 <= j < |items| && items[j].product.id != id ==> items[j] in RemovedItems(items, id)
    ensures RemovedItems(RemovedItems(items, id), id) == RemovedItems(items, id)
  {
    var r := RemovedItems(items, id);
    assert forall j :: 0 <= j < |r| ==> NotId(id)(r[j]);
    FilterIsSubsequence(items, NotId(id));
    FilterFilter(items, NotId(id), NotId(id), NotId(id));
  }

  /** Removing an id that is not in the cart changes nothing. */
  lemma RemoveAbsent(items: seq<Item>, id: int)
    requires !HasId(items, id)
    ensures RemovedItems(items, id) == items
  {
    FilterAll(items, NotId(id));
  }

  lemma RemoveKeepsInvariants(items: seq<Item>, id: int, code: string)
    ensures UniqueIds(items) ==> UniqueIds(RemovedItems(items, id))
    ensures AllPositive(items) ==> AllPositive(RemovedItems(items, id))
    ensures WithinStock(items, code) ==> WithinStock(RemovedItems(items, id), code)
  {
    if UniqueIds(items) {
      FilterKeepsUniqueIds(items, NotId(id));
    }
    var r := RemovedItems(items, id);
    assert forall j :: 0 <= j < |r| ==> r[j] in items;
  }

  // ------------------------------------------------------------------ total

  /** The total of a concatenation is the sum of the totals. */
  lemma {:induction false} SumConcat(a: seq<Item>, b: seq<Item>)
    ensures Sum(a + b) == Sum(a) + Sum(b)
  {
    if b != [] {
      assert (a + b)[..|a + b| - 1] == a + b[..|b| - 1];
      SumConcat(a, b[..|b| - 1]);
    } else {
      assert a + b == a;
    }
  }

  /** Removing an id takes exactly that id's items off the total. */
  lemma {:induction false} SumPartition(items: seq<Item>, id: int)
    ensures Sum(items) == Sum(Filter(items, NotId(id))) + Sum(Filter(items, IsId(id)))
  {
    if items != [] {
      var init := items[..|items| - 1];
      var x := items[|items| - 1];
      assert items == init + [x];
      SumPartition(init, id);
      FilterSnoc(init, x, NotId(id));
      FilterSnoc(init, x, IsId(id));
      SumConcat(Filter(init, NotId(id)), if NotId(id)(x) then [x] else []);
      SumConcat(Filter(init, IsId(id)), if IsId(id)(x) then [x] else []);
      assert Sum([x]) == x.product.priceCents * x.quantity;
    }
  }

  /** Adding a new product adds its price times the capped quantity to the total. */
  lemma AddNewTotal(items: seq<Item>, product: Product, quantity: int, stock: int)
    requires !HasId(items, product.id)
    ensures Sum(AddedItems(items, product, quantity, stock)) == Sum(items) + product.priceCents * Min(quantity, stock)
  {
    AddNew(items, product, quantity, stock);
    var r := items + [Item(product, Min(quantity, stock))];
    assert r[..|r| - 1] == items;
  }

  /** The cart held by `CartProvider` for one distributor code. */
  class Cart {
    const distributorCode: string
    var items: seq<Item>

    /** The invariant every operation keeps: ids are unique and no quantity
        exceeds its product's stock. */
    predicate Valid()
      reads this
    {
      UniqueIds(items) && WithinStock(items, distributorCode)
    }

    /** An empty cart for `code`. */
    constructor(code: string)
      ensures distributorCode == code && items == []
      ensures Valid()
    {
      distributorCode := code;
      items := [];
    }

    /** `total` */
    function Total(): (t: int)
      reads this
      ensures items == [] ==> t == 0
    {
      Sum(items)
    }

    /** `addItem(product, quantity)`, with the stock taken at the cart's distributor. */
    method AddItem(product: Product, quantity: int)
      modifies this
      requires Valid()
      ensures items == AddedItems(old(items), product, quantity, StockFor(product.id, distributorCode))
      ensures Valid()
      ensures AllPositive(old(items)) && quantity >= 1 && StockFor(product.id, distributorCode) >= 1 ==> AllPositive(items)
    {
      var stock := StockFor(product.id, distributorCode);
      AddKeepsUniqueIds(items, product, quantity, stock);
      AddKeepsWithinStock(items, product, quantity, distributorCode);
      if AllPositive(items) && quantity >= 1 && stock >= 1 {
        AddKeepsPositive(items, product, quantity, stock);
      }
      items := AddedItems(items, product, quantity, stock);
    }

    /** `updateQuantity(productId, quantity)` */
    method UpdateQuantity(productId: int, quantity: int)
      modifies this
      requires Valid()
      ensures items == UpdatedItems(old(items), productId, quantity, distributorCode)
      ensures Valid() && AllPositive(items)
    {
      UpdateKeepsWithinStock(items, productId, quantity, distributorCode);
      UpdateKeepsInvariants(items, productId, quantity, distributorCode);
      items := UpdatedItems(items, productId, quantity, distributorCode);
    }

    /** `removeItem(productId)` */
    method RemoveItem(productId: int)
      modifies this
      requires Valid()
      ensures items == RemovedItems(old(items), productId)
      ensures Valid()
      ensures AllPositive(old(items)) ==> AllPositive(items)
    {
      RemoveKeepsInvariants(items, productId, distributorCode);
      items := RemovedItems(items, productId);
    }

    /** `clearCart()` */
    method ClearCart()
      modifies this
      ensures items == [] && Total() == 0
      ensures Valid()
    {
      items := [];
    }
  }
}
