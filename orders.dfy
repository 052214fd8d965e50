/** Orders and their product lines (src/app/api/orders/route.ts): the request
    body of POST, the totals it derives, the defaults it gives each line, the
    stored order it builds, and the role-dependent filter and ordering of GET. */
module Orders {
  import opened Common
  import opened Text
  import opened Sequences

  /** One product of a POST body. An absent or null field is None; the zero
      the handler treats like an absent number is Some(0). */
  datatype ProductInput = ProductInput(
    productId: Option<string>,
    productDescription: Option<string>,
    warranty: Option<string>,
    price: Option<int>,
    quantity: Option<int>,
    totalPrice: Option<int>,
    daikinCoins: Option<int>)

  /** A stored product line. Only the warranty column may be null. It has no
      coin field: coins exist only as the order's total. */
  datatype OrderLine = OrderLine(
    productId: string,
    productDescription: string,
    warranty: Option<string>,
    price: int,
    quantity: int,
    totalPrice: int)

  /** The POST body. Dates arrive already read as timestamps; None stands for
      an absent, null or empty field. */
  datatype OrderRequest = OrderRequest(
    orderId: Option<string>,
    customerEmail: Option<string>,
    dateOfPurchase: Option<int>,
    nextDateOfService: Option<int>,
    products: Option<seq<ProductInput>>)

  /** A stored order; `createdAt` is assigned by the database. */
  datatype Order = Order(
    orderId: string,
    customerEmail: string,
    dateOfPurchase: int,
    nextDateOfService: Option<int>,
    totalPrice: int,
    daikinCoins: int,
    products: seq<OrderLine>,
    createdAt: int)

  const MissingRequiredFields := HttpError(400, "Missing required fields")
  const OrderIdExists := HttpError(400, "Order ID already exists")
  const CreateOrderFailed := HttpError(500, "Failed to create order")

  /** `x || 0` on an optional number. */
  function OrZero(x: Option<int>): (r: int)
    ensures x.Some? ==> r == x.value
    ensures x.None? ==> r == 0
  {
    match x
    case Some(v) => v
    case None => 0
  }

  function ProductTotal(p: ProductInput): int {
    OrZero(p.totalPrice)
  }

  function ProductCoins(p: ProductInput): int {
    OrZero(p.daikinCoins)
  }

  function LineTotal(l: OrderLine): int {
    l.totalPrice
  }

  /** The order's `totalPrice`: the products' totals, a missing one counting as 0. */
  function TotalPrice(products: seq<ProductInput>): int {
    SumBy(products, ProductTotal)
  }

  /** The order's `daikinCoins`: the products' coins, a missing one counting as 0. */
  function TotalCoins(products: seq<ProductInput>): int {
    SumBy(products, ProductCoins)
  }

  /** Listing the same products in another order gives the same totals. */
  lemma TotalsIgnoreOrder(ps: seq<ProductInput>, qs: seq<ProductInput>)
    requires multiset(ps) == multiset(qs)
    ensures TotalPrice(ps) == TotalPrice(qs) && TotalCoins(ps) == TotalCoins(qs)
  {
    SumByPermutation(ps, qs, ProductTotal);
    SumByPermutation(ps, qs, ProductCoins);
  }

  /** Splitting the products into two groups splits the totals the same way. */
  lemma TotalsSplit(ps: seq<ProductInput>, qs: seq<ProductInput>)
    ensures TotalPrice(ps + qs) == TotalPrice(ps) + TotalPrice(qs)
    ensures TotalCoins(ps + qs) == TotalCoins(ps) + TotalCoins(qs)
  {
    SumByAppend(ps, qs, ProductTotal);
    SumByAppend(ps, qs, ProductCoins);
  }

  /** A product the line table accepts: every non-null column has a value. */
  predicate LineStorable(p: ProductInput) {
    p.productId.Some? && p.productDescription.Some? && p.price.Some? && p.totalPrice.Some?
  }

  predicate AllLinesStorable(products: seq<ProductInput>) {
    forall k :: 0 <= k < |products| ==> LineStorable(products[k])
  }

  /** The stored form of one product: the identifying fields, price and total
      are copied; the quantity defaults to 1 and the warranty to null. */
  function NormaliseLine(p: ProductInput): (l: OrderLine)
    requires LineStorable(p)
    ensures l.productId == p.productId.value && l.productDescription == p.productDescription.value
    ensures l.price == p.price.value && l.totalPrice == p.totalPrice.value
    ensures l.quantity != 0
    ensures p.quantity.Some? && p.quantity.value != 0 ==> l.quantity == p.quantity.value
    ensures p.quantity.None? || p.quantity.value == 0 ==> l.quantity == 1
    ensures l.warranty.Some? <==> Truthy(p.warranty)
    ensures l.warranty.Some? ==> l.warranty == p.warranty
  {
    OrderLine(
      p.productId.value,
      p.productDescription.value,
      OrNull(p.warranty),
      p.price.value,
      if OrZero(p.quantity) != 0 then p.quantity.value else 1,
      p.totalPrice.value)
  }

  /** A line as the edit form sends it back: every field present. */
  function LineAsInput(l: OrderLine, coins: Option<int>): ProductInput {
    ProductInput(Some(l.productId), Some(l.productDescription), l.warranty, Some(l.price),
      Some(l.quantity), Some(l.totalPrice), coins)
  }

  /** Stored lines carry no default left to apply: sending one back yields it
      unchanged. */
  lemma NormaliseLineStable(l: OrderLine, coins: Option<int>)
    requires l.quantity != 0 && l.warranty != Some("")
    ensures NormaliseLine(LineAsInput(l, coins)) == l
  {
  }

  /** `!orderId || !customerEmail || !products || products.length === 0`. */
  predicate MissingFields(req: OrderRequest) {
    !Truthy(req.orderId) || !Truthy(req.customerEmail) ||
    req.products.None? || |req.products.value| == 0
  }

  /** The order POST stores for a complete request whose products the line
      table accepts; `now` is the clock's reading and `createdAt` the
      database's timestamp. */
  function BuildOrder(req: OrderRequest, now: int, createdAt: int): (o: Order)
    requires !MissingFields(req) && AllLinesStorable(req.products.value)
    ensures o.orderId == req.orderId.value && o.customerEmail == req.customerEmail.value
    ensures o.dateOfPurchase == (if req.dateOfPurchase.Some? then req.dateOfPurchase.value else now)
    ensures o.nextDateOfService == req.nextDateOfService
    ensures o.totalPrice == TotalPrice(req.products.value)
    ensures o.daikinCoins == TotalCoins(req.products.value)
    ensures |o.products| == |req.products.value|
    ensures forall k :: 0 <= k < |o.products| ==> o.products[k] == NormaliseLine(req.products.value[k])
    ensures o.createdAt == createdAt
  {
    var ps := req.products.value;
    Order(
      req.orderId.value,
      req.customerEmail.value,
      req.dateOfPurchase.GetOr(now),
      req.nextDateOfService,
      TotalPrice(ps),
      TotalCoins(ps),
      seq(|ps|, k requires 0 <= k < |ps| => NormaliseLine(ps[k])),
      createdAt)
  }

  /** A new order's total price is the sum of its stored lines' totals. */
  lemma BuiltOrderTotalIsLineSum(req: OrderRequest, now: int, createdAt: int)
    requires !MissingFields(req) && AllLinesStorable(req.products.value)
    ensures BuildOrder(req, now, createdAt).totalPrice == SumBy(BuildOrder(req, now, createdAt).products, LineTotal)
  {
    var o := BuildOrder(req, now, createdAt);
    SumByPointwise(req.products.value, ProductTotal, o.products, LineTotal);
  }

  /** The text condition of a GET: none, on the order id alone, or on the
      order id or the customer's email. */
  datatype SearchScope = AnyText | OrderIdOnly(text: string) | OrderIdOrEmail(text: string)

  /** The `where` clause GET builds: an optional owner and a text condition. */
  datatype OrderFilter = OrderFilter(owner: Option<string>, search: SearchScope)

  /** GET's decision: a USER is limited to their own orders and searches the
      order id; ADMIN and EMPLOYEE see every order and search the order id or
      the email; any other role is refused. */
  function OrdersWhere(session: Option<Session>, searchParam: Option<string>): (r: Result<OrderFilter>)
    ensures session.None? <==> r == Failure(Unauthorized)
    ensures session.Some? && session.value.role == RoleName(User) ==>
      r.Success? && r.value.owner == Some(session.value.email) &&
      r.value.search == (if Truthy(searchParam) then OrderIdOnly(searchParam.value) else AnyText)
    ensures session.Some? && IsStaff(session.value.role) ==>
      r.Success? && r.value.owner.None? &&
      r.value.search == (if Truthy(searchParam) then OrderIdOrEmail(searchParam.value) else AnyText)
    ensures session.Some? && session.value.role != RoleName(User) && !IsStaff(session.value.role) ==>
      r == Failure(Forbidden)
  {
    if session.None? then Failure(Unauthorized)
    else
      var search := searchParam.GetOr("");
      if session.value.role == RoleName(User) then
        Success(OrderFilter(Some(session.value.email), if search != "" then OrderIdOnly(search) else AnyText))
      else if IsStaff(session.value.role) then
        Success(OrderFilter(None, if search != "" then OrderIdOrEmail(search) else AnyText))
      else
        Failure(Forbidden)
  }

  predicate Matches(f: OrderFilter, o: Order) {
    (f.owner.None? || o.customerEmail == f.owner.value) &&
    match f.search
    case AnyText => true
    case OrderIdOnly(text) => ContainsInsensitive(o.orderId, text)
    case OrderIdOrEmail(text) =>
      ContainsInsensitive(o.orderId, text) || ContainsInsensitive(o.customerEmail, text)
  }

  /** `orderBy: { createdAt: 'desc' }` as an ascending order on the negated time. */
  function NewestFirst(o: Order): int {
    -o.createdAt
  }

  /** GET /api/orders over the stored rows: the matching orders, newest first. */
  function ListOrders(session: Option<Session>, searchParam: Option<string>, rows: seq<Order>): (r: Result<seq<Order>>)
    ensures r.Failure? <==> OrdersWhere(session, searchParam).Failure?
    ensures r.Failure? ==> r.error == OrdersWhere(session, searchParam).error
    ensures r.Success? ==> forall i, j :: 0 <= i < j < |r.value| ==> r.value[i].createdAt >= r.value[j].createdAt
    ensures r.Success? ==> forall o :: o in r.value ==> o in rows
  {
    match OrdersWhere(session, searchParam)
    case Failure(e) => Failure(e)
    case Success(f) =>
      var kept := SortBy(Filter(rows, (o: Order) => Matches(f, o)), NewestFirst);
      assert forall o :: o in kept ==> multiset(kept)[o] > 0;
      Success(kept)
  }

  /** What a USER gets back: exactly their own orders, narrowed by the search
      on the order id when one is given. */
  lemma UserSeesOwnOrders(s: Session, searchParam: Option<string>, rows: seq<Order>, o: Order)
    requires s.role == RoleName(User)
    ensures ListOrders(Some(s), searchParam, rows).Success?
    ensures o in ListOrders(Some(s), searchParam, rows).value <==>
      o in rows && o.customerEmail == s.email &&
      (!Truthy(searchParam) || ContainsInsensitive(o.orderId, searchParam.value))
  {
    var f := OrdersWhere(Some(s), searchParam).value;
    SortedFilterMembers(rows, (x: Order) => Matches(f, x), NewestFirst, o);
  }

  /** What ADMIN and EMPLOYEE get back: every order, narrowed by the search on
      the order id or the email when one is given. */
  lemma StaffSeesAllOrders(s: Session, searchParam: Option<string>, rows: seq<Order>, o: Order)
    requires IsStaff(s.role)
    ensures ListOrders(Some(s), searchParam, rows).Success?
    ensures o in ListOrders(Some(s), searchParam, rows).value <==>
      o in rows &&
      (!Truthy(searchParam) || ContainsInsensitive(o.orderId, searchParam.value) ||
       ContainsInsensitive(o.customerEmail, searchParam.value))
  {
    var f := OrdersWhere(Some(s), searchParam).value;
    SortedFilterMembers(rows, (x: Order) => Matches(f, x), NewestFirst, o);
  }

  /** Nothing is lost or duplicated: each row that passes the filter appears
      as often as it is stored. */
  lemma ListOrdersCounts(session: Option<Session>, searchParam: Option<string>, rows: seq<Order>, o: Order)
    requires OrdersWhere(session, searchParam).Success?
    ensures multiset(ListOrders(session, searchParam, rows).value)[o] ==
      if Matches(OrdersWhere(session, searchParam).value, o) then multiset(rows)[o] else 0
  {
  }
}
