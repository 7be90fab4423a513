/** The backend endpoints whose logic is more than a database read
    (backend/app/main.py): the user lookup of order creation and the counts
    of the two summary endpoints. The database tables are given as
    sequences in table order; the clock and the order-number generator are
    parameters. */
module BackendApi {
  import opened Wrappers
  import opened Seqs
  import opened Records

  /** A product row as far as the admin summary reads it. */
  datatype StoredProduct = StoredProduct(id: int, name: string, isFeatured: bool)

  /** A login account; `userId` is `None` when the account has no user. */
  datatype AuthAccount = AuthAccount(username: string, password: string, role: string, userId: Option<int>)

  /** The body of `POST /orders`: an absent phone is "", an absent user id `None`. */
  datatype OrderCreate = OrderCreate(phone: string, userId: Option<int>, totalCents: int, items: seq<OrderLine>)

  /** `.first()` of a filtered query: the first element in table order that
      satisfies `p`, `None` when none does. */
  function FirstWhere<T>(s: seq<T>, p: T -> bool): (r: Option<T>)
    ensures r.None? <==> forall i :: 0 <= i < |s| ==> !p(s[i])
    ensures r.Some? ==> exists i :: 0 <= i < |s| && s[i] == r.value && p(s[i]) && forall j :: 0 <= j < i ==> !p(s[j])
  {
    if s == [] then None
    else if p(s[0]) then Some(s[0])
    else
      var r := FirstWhere(s[1..], p);
      assert r.Some? ==> exists i :: 1 <= i < |s| && s[i] == r.value && p(s[i]) && forall j :: 0 <= j < i ==> !p(s[j]) by {
        if r.Some? {
          var i :| 0 <= i < |s[1..]| && s[1..][i] == r.value && p(s[1..][i]) && forall j :: 0 <= j < i ==> !p(s[1..][j]);
          assert forall j :: 1 <= j < i + 1 ==> s[j] == s[1..][j - 1];
        }
      }
      assert r.None? ==> forall i :: 0 <= i < |s| ==> !p(s[i]) by {
        if r.None? {
          assert forall i :: 1 <= i < |s| ==> s[i] == s[1..][i - 1];
        }
      }
      r
  }

  /** `session.get(User, user_id)`: the user with that primary key. */
  function GetUser(users: seq<User>, id: int): (r: Option<User>)
    ensures r.Some? ==> r.value in users && r.value.id == id
    ensures r.None? <==> forall i :: 0 <= i < |users| ==> users[i].id != id
  {
    FirstWhere(users, (u: User) => u.id == id)
  }

  /** `select(User).where(User.phone == phone).first()`: the first user in
      table order with that phone. */
  function FirstWithPhone(users: seq<User>, phone: string): (r: Option<User>)
    ensures r.Some? ==> r.value in users && r.value.phone == phone
    ensures r.None? <==> forall i :: 0 <= i < |users| ==> users[i].phone != phone
    ensures r.Some? ==> exists i :: 0 <= i < |users| && users[i] == r.value && forall j :: 0 <= j < i ==> users[j].phone != phone
  {
    FirstWhere(users, (u: User) => u.phone == phone)
  }

  /** Python truthiness of an optional integer: absent and 0 are falsy. */
  predicate TruthyId(id: Option<int>) {
    id.Some? && id.value != 0
  }

  /** The user `create_order` attaches the order to: looked up by phone when
      a phone is given, else by user id when one is given, else nobody. */
  function OrderUser(users: seq<User>, payload: OrderCreate): (r: Option<User>)
    ensures payload.phone != "" ==> r == FirstWithPhone(users, payload.phone)
    ensures payload.phone == "" && TruthyId(payload.userId) ==> r == GetUser(users, payload.userId.value)
    ensures payload.phone == "" && !TruthyId(payload.userId) ==> r == None
  {
    if payload.phone != "" then FirstWithPhone(users, payload.phone)
    else if TruthyId(payload.userId) then GetUser(users, payload.userId.value)
    else None
  }

  /** `create_order`, with the new row's id, the generated order number and
      the creation date given: 404 without a user, otherwise a new order of
      that user awaiting pickup, carrying the requested total and items. */
  function CreateOrder(users: seq<User>, payload: OrderCreate, id: int, orderNumber: string, today: Date): (r: Result<Order>)
    ensures r.Err? <==> OrderUser(users, payload).None?
    ensures r.Err? ==> r.status == 404 && r.detail == "User not found"
    ensures r.Ok? ==>
      r.value.userId == OrderUser(users, payload).value.id
      && r.value.status == PendingPickup
      && r.value.totalCents == payload.totalCents && r.value.items == payload.items
      && r.value.orderNumber == orderNumber && r.value.createdAt == today
  {
    match OrderUser(users, payload)
    case None => Err(404, "User not found")
    case Some(user) => Ok(Order(id, user.id, orderNumber, PendingPickup, payload.totalCents, payload.items, today))
  }

  /** A phone in the request decides alone: the user id is then never read. */
  lemma PhoneTakesPrecedence(users: seq<User>, payload: OrderCreate, otherId: Option<int>)
    requires payload.phone != ""
    ensures OrderUser(users, payload) == OrderUser(users, payload.(userId := otherId))
  {
  }

  /** A phone that no user has gives 404, even when the user id names a user. */
  lemma UnknownPhoneIsNotFound(users: seq<User>, payload: OrderCreate, id: int, orderNumber: string, today: Date)
    requires payload.phone != ""
    requires forall i :: 0 <= i < |users| ==> users[i].phone != payload.phone
    ensures CreateOrder(users, payload, id, orderNumber, today).Err?
  {
  }

  // ---------------------------------------------------------- admin summary

  /** `admin_summary`; the sales total is in cents. */
  datatype DashboardSummary = DashboardSummary(
    totalSalesCents: int,
    pendingOrders: nat,
    activeDistributors: nat,
    featuredProducts: nat)

  function IsCompleted(o: Order): bool { o.status == Completed }
  function IsNotCompleted(o: Order): bool { o.status != Completed }
  function IsDistributor(u: User): bool { u.role == DistributorRole }
  function IsFeatured(p: StoredProduct): bool { p.isFeatured }

  /** `sum(order.total for order in orders)` */
  function TotalCents(orders: seq<Order>): (r: int)
    ensures (forall i :: 0 <= i < |orders| ==> orders[i].totalCents >= 0) ==> r >= 0
    ensures orders == [] ==> r == 0
  {
    if orders == [] then 0 else TotalCents(orders[..|orders| - 1]) + orders[|orders| - 1].totalCents
  }

  /** One order adds its own total. */
  lemma TotalCentsSingle(o: Order)
    ensures TotalCents([o]) == o.totalCents
  {
    assert [o][..0] == [];
  }

  /** The total of two lists of orders is the sum of their totals. */
  lemma {:induction false} TotalCentsConcat(a: seq<Order>, b: seq<Order>)
    ensures TotalCents(a + b) == TotalCents(a) + TotalCents(b)
    decreases |b|
  {
    if b != [] {
      var init := b[..|b| - 1];
      TotalCentsConcat(a, init);
      assert (a + b)[..|a + b| - 1] == a + init;
    } else {
      assert a + b == a;
    }
  }

  /** The sales total is the sum over all orders, and each count is the
      length of the list of orders not completed, of distributor users and
      of featured products. */
  function AdminSummary(orders: seq<Order>, users: seq<User>, products: seq<StoredProduct>): (s: DashboardSummary)
    ensures s.totalSalesCents == TotalCents(orders)
    ensures s.pendingOrders == |Filter(orders, IsNotCompleted)|
    ensures s.activeDistributors == |Filter(users, IsDistributor)|
    ensures s.featuredProducts == |Filter(products, IsFeatured)|
    ensures s.pendingOrders <= |orders| && s.activeDistributors <= |users| && s.featuredProducts <= |products|
  {
    DashboardSummary(
      TotalCents(orders),
      Count(orders, IsNotCompleted),
      Count(users, IsDistributor),
      Count(products, IsFeatured))
  }

  /** Every order is either pending or completed, so the pending count and
      the number of completed orders add up to all orders. */
  lemma PendingPlusCompleted(orders: seq<Order>, users: seq<User>, products: seq<StoredProduct>)
    ensures AdminSummary(orders, users, products).pendingOrders + Count(orders, IsCompleted) == |orders|
  {
    CountComplement(orders, IsCompleted, IsNotCompleted);
  }

  // ---------------------------------------------------- distributor summary

  /** `distributor_summary`, without the commission (a float). `code` is the
      username of the distributor's account, `None` without an account. The
      number of completed orders is computed but not part of the answer. */
  datatype DistributorSummary = DistributorSummary(
    distributorId: int,
    code: Option<string>,
    name: string,
    pickupAddress: Option<string>,
    totalOrders: nat,
    dailyCompletedOrders: nat,
    monthlyCompletedOrders: nat,
    walletBalanceCents: int,
    coupons: int,
    points: int)

  /** `select(AuthAccount).where(AuthAccount.user_id == user_id).first()`:
      the first account in table order that belongs to the user. */
  function AccountOf(accounts: seq<AuthAccount>, userId: int): (r: Option<AuthAccount>)
    ensures r.Some? ==> r.value in accounts && r.value.userId == Some(userId)
    ensures r.None? <==> forall i :: 0 <= i < |accounts| ==> accounts[i].userId != Some(userId)
    ensures r.Some? ==> exists i :: 0 <= i < |accounts| && accounts[i] == r.value
                          && forall j :: 0 <= j < i ==> accounts[j].userId != Some(userId)
  {
    FirstWhere(accounts, (a: AuthAccount) => a.userId == Some(userId))
  }

  function OfUser(userId: int): Order -> bool {
    (o: Order) => o.userId == userId
  }

  function OnDay(today: Date): Order -> bool {
    (o: Order) => o.createdAt == today
  }

  function InMonth(today: Date): Order -> bool {
    (o: Order) => o.createdAt.year == today.year && o.createdAt.month == today.month
  }

  /** A completed order of `userId` created on `today`. */
  function CompletedOnDay(userId: int, today: Date): Order -> bool {
    (o: Order) => o.userId == userId && o.status == Completed && o.createdAt == today
  }

  /** A completed order of `userId` created in the year and month of `today`. */
  function CompletedInMonth(userId: int, today: Date): Order -> bool {
    (o: Order) => o.userId == userId && o.status == Completed
      && o.createdAt.year == today.year && o.createdAt.month == today.month
  }

  function OwnCompleted(userId: int): Order -> bool {
    (o: Order) => o.userId == userId && o.status == Completed
  }

  /** `completed_orders`: the orders of `userId` whose status is completed. */
  function CompletedOrders(orders: seq<Order>, userId: int): (r: seq<Order>)
    ensures |r| <= |orders|
    ensures forall i :: 0 <= i < |r| ==> r[i] in orders && r[i].userId == userId && r[i].status == Completed
    ensures forall i :: 0 <= i < |orders| && orders[i].userId == userId && orders[i].status == Completed ==> orders[i] in r
  {
    Filter(Filter(orders, OfUser(userId)), IsCompleted)
  }

  /** The summary of distributor `userId` on date `today`: 404 unless the
      user exists and is a distributor; otherwise the number of its orders,
      of those completed, and of those completed today and this month. */
  function DistributorSummaryOf(users: seq<User>, accounts: seq<AuthAccount>, orders: seq<Order>, userId: int, today: Date)
    : (r: Result<DistributorSummary>)
    ensures r.Err? <==> GetUser(users, userId).None? || GetUser(users, userId).value.role != DistributorRole
    ensures r.Err? ==> r.status == 404 && r.detail == "Distributor not found"
    ensures r.Ok? ==> r.value.distributorId == userId
    ensures r.Ok? ==> r.value.name == GetUser(users, userId).value.name
    ensures r.Ok? ==> r.value.pickupAddress == GetUser(users, userId).value.pickupAddress
    ensures r.Ok? ==> (r.value.code.Some? <==> AccountOf(accounts, userId).Some?)
    ensures r.Ok? && r.value.code.Some? ==> r.value.code.value == AccountOf(accounts, userId).value.username
    ensures r.Ok? ==> r.value.totalOrders == Count(orders, OfUser(userId))
    ensures r.Ok? ==> r.value.dailyCompletedOrders == Count(orders, CompletedOnDay(userId, today))
    ensures r.Ok? ==> r.value.monthlyCompletedOrders == Count(orders, CompletedInMonth(userId, today))
    ensures r.Ok? ==> r.value.walletBalanceCents == 120000 && r.value.coupons == 3 && r.value.points == 180
  {
    match GetUser(users, userId)
    case None => Err(404, "Distributor not found")
    case Some(user) =>
      if user.role != DistributorRole then Err(404, "Distributor not found")
      else
        var own := Filter(orders, OfUser(userId));
        var completed := CompletedOrders(orders, userId);
        FilterFilter(orders, OfUser(userId), IsCompleted, OwnCompleted(userId));
        FilterFilter(orders, OwnCompleted(userId), OnDay(today), CompletedOnDay(userId, today));
        FilterFilter(orders, OwnCompleted(userId), InMonth(today), CompletedInMonth(userId, today));
        Ok(DistributorSummary(
          user.id,
          match AccountOf(accounts, userId) case None => None case Some(a) => Some(a.username),
          user.name,
          user.pickupAddress,
          |own|,
          Count(completed, OnDay(today)),
          Count(completed, InMonth(today)),
          120000,
          3,
          180))
  }

  /** The counts are nested: completed today, then this month, then at all,
      then all of the distributor's orders. */
  lemma SummaryCountsNested(users: seq<User>, accounts: seq<AuthAccount>, orders: seq<Order>, userId: int, today: Date)
    requires DistributorSummaryOf(users, accounts, orders, userId, today).Ok?
    ensures var s := DistributorSummaryOf(users, accounts, orders, userId, today).value;
      s.dailyCompletedOrders <= s.monthlyCompletedOrders <= |CompletedOrders(orders, userId)| <= s.totalOrders
  {
    CountMonotonic(CompletedOrders(orders, userId), OnDay(today), InMonth(today));
  }

  /** The completed orders are exactly the distributor's orders whose
      status is completed, and the total counts all of its orders. */
  lemma SummaryCountsOwnOrders(users: seq<User>, accounts: seq<AuthAccount>, orders: seq<Order>, userId: int, today: Date,
                               both: Order -> bool)
    requires DistributorSummaryOf(users, accounts, orders, userId, today).Ok?
    requires forall o :: both(o) == (o.userId == userId && o.status == Completed)
    ensures |CompletedOrders(orders, userId)| == Count(orders, both)
    ensures DistributorSummaryOf(users, accounts, orders, userId, today).value.totalOrders == Count(orders, OfUser(userId))
  {
    FilterFilter(orders, OfUser(userId), IsCompleted, both);
  }
}
