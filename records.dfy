/** The records the backend stores and the admin pages receive as JSON:
    users, orders and their statuses (backend/app/models.py). Money is
    integer cents. */
module Records {
  import opened Wrappers

  /** A calendar date, compared field by field. */
  datatype Date = Date(year: int, month: int, day: int)

  /** A user: an administrator, a distributor or a customer. `pickupAddress`
      is `None` for users without one. */
  datatype User = User(id: int, name: string, phone: string, role: string, pickupAddress: Option<string>)

  /** One line of an order, copied from the request as it came. */
  datatype OrderLine = OrderLine(productId: int, name: string, priceCents: int, quantity: int)

  /** An order; `createdAt` is the calendar date of its creation. */
  datatype Order = Order(
    id: int,
    userId: int,
    orderNumber: string,
    status: string,
    totalCents: int,
    items: seq<OrderLine>,
    createdAt: Date)

  /** Stock per product id. JavaScript keeps the ids as string keys of an
      object; every key is the id of a product, so it is kept as the number. */
  type Inventory = map<int, int>

  const PendingPayment := "待付款"
  const PendingShipment := "待发货"
  const PendingPickup := "待提货"
  const PendingReceipt := "待收货"
  const Completed := "已完成"

  const AdminRole := "admin"
  const DistributorRole := "distributor"

  /** The five statuses are pairwise different strings. */
  lemma StatusesDistinct()
    ensures PendingPayment != PendingShipment && PendingPayment != PendingPickup
    ensures PendingPayment != PendingReceipt && PendingPayment != Completed
    ensures PendingShipment != PendingPickup && PendingShipment != PendingReceipt
    ensures PendingShipment != Completed && PendingPickup != PendingReceipt
    ensures PendingPickup != Completed && PendingReceipt != Completed
  {
    assert PendingPayment[1] != PendingShipment[1];
    assert PendingPayment[1] != PendingPickup[1];
    assert PendingPayment[1] != PendingReceipt[1];
    assert PendingPayment[0] != Completed[0];
    assert PendingShipment[1] != PendingPickup[1];
    assert PendingShipment[1] != PendingReceipt[1];
    assert PendingShipment[0] != Completed[0];
    assert PendingPickup[1] != PendingReceipt[1];
    assert PendingPickup[0] != Completed[0];
    assert PendingReceipt[0] != Completed[0];
  }
}
