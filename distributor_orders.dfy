/** The distributor's order list (admin-frontend/src/pages/DistributorOrders.jsx):
    phone lookup, status and phone filters, and the detail toggle that
    marks an order awaiting pickup as completed. */
module DistributorOrders {
  import opened Wrappers
  import opened Text
  import opened Seqs
  import opened Records

  /** `users.reduce((acc, user) => { acc[user.id] = user.phone; return acc; }, {})` */
  function PhoneLookup(users: seq<User>): (m: map<int, string>)
    ensures forall i :: 0 <= i < |users| ==> users[i].id in m
    ensures forall k :: k in m ==> exists i :: 0 <= i < |users| && users[i].id == k && m[k] == users[i].phone
  {
    IndexBy(users, (u: User) => u.id, (u: User) => u.phone)
  }

  /** Every user's id is a key, and the phone stored for it is that of the
      last user in the list with that id. */
  lemma PhoneLookupSpec(users: seq<User>, i: int)
    requires 0 <= i < |users|
    requires forall j :: i < j < |users| ==> users[j].id != users[i].id
    ensures users[i].id in PhoneLookup(users)
    ensures PhoneLookup(users)[users[i].id] == users[i].phone
  {
    IndexByLastWins(users, (u: User) => u.id, (u: User) => u.phone, i);
  }

  /** `phoneLookup[order.user_id] || ""` */
  function PhoneOf(lookup: map<int, string>, userId: int): (r: string)
    ensures userId !in lookup ==> r == ""
    ensures userId in lookup ==> r == lookup[userId]
    ensures r != "" ==> userId in lookup && lookup[userId] == r
  {
    if userId in lookup then lookup[userId] else ""
  }

  /** The status tab: every order, or only those awaiting pickup. */
  datatype StatusFilter = All | Pending

  function MatchesStatus(filter: StatusFilter, o: Order): bool {
    filter.All? || o.status == PendingPickup
  }

  function MatchesPhone(lookup: map<int, string>, trimmed: string, o: Order): bool {
    trimmed == "" || Contains(PhoneOf(lookup, o.userId), trimmed)
  }

  function Shown(lookup: map<int, string>, phoneQuery: string, filter: StatusFilter): Order -> bool {
    (o: Order) => MatchesStatus(filter, o) && MatchesPhone(lookup, Trim(phoneQuery), o)
  }

  /** `filteredOrders`: the orders that pass the status tab and whose user's
      phone contains the trimmed query, in their order. */
  function FilteredOrders(orders: seq<Order>, lookup: map<int, string>, phoneQuery: string, filter: StatusFilter)
    : (r: seq<Order>)
    ensures IsSubsequence(r, orders)
    ensures forall i :: 0 <= i < |r| ==> filter.Pending? ==> r[i].status == PendingPickup
    ensures forall i :: 0 <= i < |r| ==> Trim(phoneQuery) != "" ==> Contains(PhoneOf(lookup, r[i].userId), Trim(phoneQuery))
    ensures forall i :: 0 <= i < |orders| && Shown(lookup, phoneQuery, filter)(orders[i]) ==> orders[i] in r
    ensures forall o :: multiset(r)[o] == if Shown(lookup, phoneQuery, filter)(o) then multiset(orders)[o] else 0
  {
    FilterIsSubsequence(orders, Shown(lookup, phoneQuery, filter));
    FilterMultiset(orders, Shown(lookup, phoneQuery, filter));
    Filter(orders, Shown(lookup, phoneQuery, filter))
  }

  /** The "all" tab with a blank query shows every order. */
  lemma AllWithBlankQuery(orders: seq<Order>, lookup: map<int, string>, phoneQuery: string)
    requires Trim(phoneQuery) == ""
    ensures FilteredOrders(orders, lookup, phoneQuery, All) == orders
  {
    FilterAll(orders, Shown(lookup, phoneQuery, All));
  }

  /** With a non-blank query, an order of a user missing from the lookup is never shown. */
  lemma UnknownUserHidden(orders: seq<Order>, lookup: map<int, string>, phoneQuery: string, filter: StatusFilter)
    requires Trim(phoneQuery) != ""
    ensures forall i :: 0 <= i < |FilteredOrders(orders, lookup, phoneQuery, filter)| ==>
      FilteredOrders(orders, lookup, phoneQuery, filter)[i].userId in lookup
  {
    ContainedInEmpty(Trim(phoneQuery));
  }

  /** `prev.map((item) => (item.id === id ? updated : item))` */
  function ReplaceById(orders: seq<Order>, id: int, updated: Order): (r: seq<Order>)
    ensures |r| == |orders|
    ensures forall i :: 0 <= i < |orders| ==> r[i] == if orders[i].id == id then updated else orders[i]
  {
    if orders == [] then [] else [if orders[0].id == id then updated else orders[0]] + ReplaceById(orders[1..], id, updated)
  }

  /** Replacing a second time by the same id and order changes nothing more. */
  lemma ReplaceIdempotent(orders: seq<Order>, id: int, updated: Order)
    ensures ReplaceById(ReplaceById(orders, id, updated), id, updated) == ReplaceById(orders, id, updated)
  {
  }

  const MarkedCompleted := "查看详情后订单已自动标记为已完成"
  const UpdateFailed := "更新订单状态失败"

  /** The state of the order list. */
  class OrdersPage {
    var orders: seq<Order>
    var expandedOrderId: Option<int>
    var orderMessage: string
    var orderError: string

    /** The state once the order list has been fetched. */
    constructor(fetched: seq<Order>)
      ensures orders == fetched && expandedOrderId == None && orderMessage == "" && orderError == ""
    {
      orders := fetched;
      expandedOrderId := None;
      orderMessage := "";
      orderError := "";
    }

    /** `handleToggleOrderDetail(order)`, with the answer to the PATCH given
        (`None` when it failed). Clicking the expanded order collapses it and
        any other order is expanded; a PATCH is sent only when an order
        awaiting pickup is expanded, and on success only the orders with
        that id are replaced by the answer. */
    method ToggleOrderDetail(order: Order, answer: Option<Order>) returns (patched: bool)
      modifies this
      ensures expandedOrderId == if old(expandedOrderId) == Some(order.id) then None else Some(order.id)
      ensures patched <==> old(expandedOrderId) != Some(order.id) && order.status == PendingPickup
      ensures !patched ==>
        orders == old(orders) && orderMessage == old(orderMessage) && orderError == old(orderError)
      ensures patched && answer.Some? ==>
        orders == ReplaceById(old(orders), order.id, answer.value) && orderMessage == MarkedCompleted && orderError == ""
      ensures patched && answer.None? ==> orders == old(orders) && orderMessage == "" && orderError == UpdateFailed
    {
      var isExpanded := expandedOrderId == Some(order.id);
      expandedOrderId := if isExpanded then None else Some(order.id);
      if isExpanded || order.status != PendingPickup {
        return false;
      }
      orderMessage := "";
      orderError := "";
      match answer {
        case Some(updated) =>
          orders := ReplaceById(orders, order.id, updated);
          orderMessage := MarkedCompleted;
        case None =>
          orderError := UpdateFailed;
      }
      return true;
    }
  }
}
