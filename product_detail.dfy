/** The product detail page (frontend/src/pages/ProductDetail.jsx): product
    lookup by route parameter, the stock shown, the quantity stepper and the
    add-to-cart action. */
module ProductDetail {
  import opened Wrappers
  import opened Text
  import opened Products
  import opened DistributorResolver
  import opened CartStore

  /** `products.find((item) => String(item.id) === String(productId))` */
  function FindProduct(products: seq<Product>, productId: string): (r: Option<Product>)
    ensures r.Some? ==> r.value in products && IntToString(r.value.id) == productId
    ensures r.None? <==> forall i :: 0 <= i < |products| ==> IntToString(products[i].id) != productId
  {
    if products == [] then None
    else if IntToString(products[0].id) == productId then Some(products[0])
    else FindProduct(products[1..], productId)
  }

  /** The decimal rendering of an id finds the first product with that id. */
  lemma {:induction false} FindByRenderedId(products: seq<Product>, i: int)
    requires 0 <= i < |products|
    requires forall j :: 0 <= j < i ==> products[j].id != products[i].id
    ensures FindProduct(products, IntToString(products[i].id)) == Some(products[i])
  {
    var key := IntToString(products[i].id);
    if i > 0 {
      if IntToString(products[0].id) == key {
        IntToStringInjective(products[0].id, products[i].id);
      }
      var rest := products[1..];
      assert rest[i - 1] == products[i];
      assert forall j :: 0 <= j < i - 1 ==> rest[j] == products[j + 1];
      FindByRenderedId(rest, i - 1);
      assert FindProduct(products, key) == FindProduct(rest, key);
    }
  }

  /** `product ? getStockForDistributor(product.id, distributor.code) : 0` */
  function StockShown(product: Option<Product>, code: string): (stock: int)
    ensures product.None? ==> stock == 0
    ensures product.Some? && product.value.id >= 0 ==> 18 <= stock <= 47
  {
    match product
    case None => 0
    case Some(p) => StockFor(p.id, code)
  }

  /** The three quantity handlers: "-", "+" and a typed value (`None` when
      `Number(event.target.value)` is not a number). */
  datatype Event = Minus | Plus | Typed(value: Option<int>)

  /** `Number(value) || 1`: 0 and NaN are falsy. */
  function TypedOrOne(value: Option<int>): (r: int)
    ensures r != 0
    ensures value.Some? && value.value != 0 ==> r == value.value
    ensures value.None? ==> r == 1
  {
    if value.Some? && value.value != 0 then value.value else 1
  }

  /** The quantity after one handler, with the stock of the current render. */
  function Next(quantity: int, e: Event, stock: int): (r: int)
    ensures 1 <= quantity <= stock ==> 1 <= r <= stock
  {
    match e
    case Minus => Max(1, quantity - 1)
    case Plus => Min(quantity + 1, stock)
    case Typed(v) => Min(Max(TypedOrOne(v), 1), stock)
  }

  /** The quantity after a sequence of handlers. */
  function Run(quantity: int, events: seq<Event>, stock: int): int
    decreases |events|
  {
    if events == [] then quantity else Run(Next(quantity, events[0], stock), events[1..], stock)
  }

  /** Starting from 1 with a positive stock, every sequence of handlers keeps
      the quantity between 1 and the stock. */
  lemma {:induction false} RunInRange(quantity: int, events: seq<Event>, stock: int)
    requires 1 <= quantity <= stock
    ensures 1 <= Run(quantity, events, stock) <= stock
    decreases |events|
  {
    if events != [] {
      RunInRange(Next(quantity, events[0], stock), events[1..], stock);
    }
  }

  /** A found product with a non-negative id has at least 18 in stock, so the
      stepper stays in range from its initial value 1. */
  lemma FoundProductStepper(product: Product, code: string, events: seq<Event>)
    requires product.id >= 0
    ensures 1 <= Run(1, events, StockShown(Some(product), code)) <= StockShown(Some(product), code)
  {
    RunInRange(1, events, StockShown(Some(product), code));
  }

  /** The `quantity` state of the page. */
  class Stepper {
    var quantity: int

    /** `useState(1)` */
    constructor()
      ensures quantity == 1
    {
      quantity := 1;
    }

    /** One handler call. */
    method Handle(e: Event, stock: int)
      modifies this
      ensures quantity == Next(old(quantity), e, stock)
    {
      match e {
        case Minus =>
          quantity := Max(1, quantity - 1);
        case Plus =>
          quantity := Min(quantity + 1, stock);
        case Typed(v) =>
          quantity := Min(Max(TypedOrOne(v), 1), stock);
      }
    }
  }

  /** `handleAddToCart`: the cart changes only when a product was found. */
  method AddToCart(product: Option<Product>, quantity: int, cart: Cart)
    modifies cart
    requires cart.Valid()
    ensures product.None? ==> cart.items == old(cart.items)
    ensures product.Some? ==>
      cart.items == AddedItems(old(cart.items), product.value, quantity, StockFor(product.value.id, cart.distributorCode))
    ensures cart.Valid()
  {
    if product.Some? {
      cart.AddItem(product.value, quantity);
    }
  }
}
