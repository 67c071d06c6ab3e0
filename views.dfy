/** The logic inside the REST views: the query-parameter filters of the
    Order, Service and Message listings, and the owner-only access to
    Executor updates. Query parameters arrive already split into their raw
    text and their typed value; the views test the raw text for
    truthiness, so an empty parameter is ignored while "0" is applied. */
module Views {
  import opened Models
  import opened Query

  datatype Result<T, E> = Success(value: T) | Failure(error: E)

  /** A query parameter: absent, or given with its raw text and the value
      the text stands for. */
  datatype Param<T> = Absent | Given(raw: string, value: T)
  {
    /** The parameter is present and its raw text is non-empty. */
    predicate Active() {
      Given? && raw != ""
    }
  }

  /** A text parameter, such as `service`, is used as it is. */
  predicate TextActive(p: Option<string>) {
    p.Some? && p.value != ""
  }

  // ---------------------------------------------------------------------
  // The Order and Service listings
  // ---------------------------------------------------------------------

  /** The columns a listing filters on: the category, the price and the key
      of the owning Customer (for Orders) or Executor (for Services). */
  datatype Columns<!T> = Columns(category: T -> Category, price: T -> int, owner: T -> int)

  const OrderColumns: Columns<Order> :=
    Columns((o: Order) => o.serviceType, (o: Order) => o.price, (o: Order) => o.customer)

  const ServiceColumns: Columns<Service> :=
    Columns((s: Service) => s.serviceType, (s: Service) => s.price, (s: Service) => s.executor)

  /** `service`, `price` and the owner parameter of a listing. */
  datatype ListParams = ListParams(service: Option<string>, price: Param<int>, owner: Param<int>)

  /** `filter(service_type=code)` */
  function CategoryIs<T>(cols: Columns<T>, code: string): T -> bool {
    x => cols.category(x).Code() == code
  }

  /** `filter(price__lte=limit)` */
  function PriceAtMost<T>(cols: Columns<T>, limit: int): T -> bool {
    x => cols.price(x) <= limit
  }

  /** `filter(customer__id=id)` or `filter(executor__id=id)` */
  function OwnerIs<T>(cols: Columns<T>, id: int): T -> bool {
    x => cols.owner(x) == id
  }

  /** The chain both list views run: start from the whole table and narrow
      it once for each parameter that is active, in the order service,
      price, owner. */
  function Listing<T(!new)>(xs: seq<T>, cols: Columns<T>, p: ListParams): seq<T> {
    var byService := if TextActive(p.service) then Narrow(xs, CategoryIs(cols, p.service.value)) else xs;
    var byPrice := if p.price.Active() then Narrow(byService, PriceAtMost(cols, p.price.value)) else byService;
    if p.owner.Active() then Narrow(byPrice, OwnerIs(cols, p.owner.value)) else byPrice
  }

  /** The constraint each step of the chain imposes, nothing when its
      parameter is not active. */
  function ServiceStep<T>(cols: Columns<T>, p: ListParams): T -> bool {
    x => TextActive(p.service) ==> cols.category(x).Code() == p.service.value
  }

  function PriceStep<T>(cols: Columns<T>, p: ListParams): T -> bool {
    x => p.price.Active() ==> cols.price(x) <= p.price.value
  }

  function OwnerStep<T>(cols: Columns<T>, p: ListParams): T -> bool {
    x => p.owner.Active() ==> cols.owner(x) == p.owner.value
  }

  /** The conjunction of the constraints of the active parameters. */
  predicate Matches<T>(cols: Columns<T>, p: ListParams, x: T) {
    ServiceStep(cols, p)(x) && PriceStep(cols, p)(x) && OwnerStep(cols, p)(x)
  }

  function Selector<T>(cols: Columns<T>, p: ListParams): T -> bool {
    x => Matches(cols, p, x)
  }

  /** The chain of filters selects, in their original order, exactly the
      rows that satisfy the conjunction of the active constraints. */
  lemma {:induction false} ListingIsSelection<T(!new)>(xs: seq<T>, cols: Columns<T>, p: ListParams)
    ensures Listing(xs, cols, p) == Narrow(xs, Selector(cols, p))
  {
    var byService := if TextActive(p.service) then Narrow(xs, CategoryIs(cols, p.service.value)) else xs;
    if TextActive(p.service) {
      NarrowSameKeep(xs, CategoryIs(cols, p.service.value), ServiceStep(cols, p));
    } else {
      NarrowKeepsAll(xs, ServiceStep(cols, p));
    }
    var byPrice := if p.price.Active() then Narrow(byService, PriceAtMost(cols, p.price.value)) else byService;
    if p.price.Active() {
      NarrowSameKeep(byService, PriceAtMost(cols, p.price.value), PriceStep(cols, p));
    } else {
      NarrowKeepsAll(byService, PriceStep(cols, p));
    }
    if p.owner.Active() {
      NarrowSameKeep(byPrice, OwnerIs(cols, p.owner.value), OwnerStep(cols, p));
    } else {
      NarrowKeepsAll(byPrice, OwnerStep(cols, p));
    }
    var serviceAndPrice := (x: T) => ServiceStep(cols, p)(x) && PriceStep(cols, p)(x);
    NarrowTwice(xs, ServiceStep(cols, p), PriceStep(cols, p), serviceAndPrice);
    NarrowTwice(xs, serviceAndPrice, OwnerStep(cols, p), Selector(cols, p));
  }

  /** Running a listing on its own result with the same parameters
      changes nothing. */
  lemma {:induction false} ListingIdempotent<T(!new)>(xs: seq<T>, cols: Columns<T>, p: ListParams)
    ensures Listing(Listing(xs, cols, p), cols, p) == Listing(xs, cols, p)
  {
    ListingIsSelection(xs, cols, p);
    ListingIsSelection(Listing(xs, cols, p), cols, p);
    NarrowIdempotent(xs, Selector(cols, p));
  }

  // The Order listing

  /** The query parameters of the Order listing. */
  datatype OrderParams = OrderParams(service: Option<string>, price: Param<int>, customer: Param<int>)

  /** `OrderListView.get_queryset`. */
  function OrderList(orders: seq<Order>, p: OrderParams): seq<Order> {
    Listing(orders, OrderColumns, ListParams(p.service, p.price, p.customer))
  }

  /** The Order listing is the order-preserving selection of the Orders
      that meet every active parameter: the category code equals `service`,
      the price is at most `price`, the customer's key equals `customer`. */
  lemma {:induction false} OrderListSelects(orders: seq<Order>, p: OrderParams)
    ensures var r := OrderList(orders, p);
      && r == Narrow(orders, Selector(OrderColumns, ListParams(p.service, p.price, p.customer)))
      && forall o :: o in r <==>
           && o in orders
           && (TextActive(p.service) ==> o.serviceType.Code() == p.service.value)
           && (p.price.Active() ==> o.price <= p.price.value)
           && (p.customer.Active() ==> o.customer == p.customer.value)
  {
    ListingIsSelection(orders, OrderColumns, ListParams(p.service, p.price, p.customer));
  }

  /** With every parameter absent or empty the listing is the whole table. */
  lemma OrderListUnfiltered(orders: seq<Order>, p: OrderParams)
    requires !TextActive(p.service) && !p.price.Active() && !p.customer.Active()
    ensures OrderList(orders, p) == orders
  {
  }

  lemma {:induction false} OrderListIdempotent(orders: seq<Order>, p: OrderParams)
    ensures OrderList(OrderList(orders, p), p) == OrderList(orders, p)
  {
    ListingIdempotent(orders, OrderColumns, ListParams(p.service, p.price, p.customer));
  }

  /** A web-development Order priced 500 is listed under `price=600` and not
      under `price=400`; `price=0` is applied, not ignored, and `price=""`
      is ignored. */
  lemma OrderListPriceExample(o: Order)
    requires o.serviceType == WebDevelopment && o.price == 500
    ensures OrderList([o], OrderParams(None, Given("600", 600), Absent)) == [o]
    ensures OrderList([o], OrderParams(None, Given("400", 400), Absent)) == []
    ensures OrderList([o], OrderParams(None, Given("0", 0), Absent)) == []
    ensures OrderList([o], OrderParams(Some("1"), Given("", 0), Absent)) == [o]
  {
    OrderListSelects([o], OrderParams(None, Given("600", 600), Absent));
    OrderListSelects([o], OrderParams(None, Given("400", 400), Absent));
    OrderListSelects([o], OrderParams(None, Given("0", 0), Absent));
    OrderListSelects([o], OrderParams(Some("1"), Given("", 0), Absent));
    assert OrderList([o], OrderParams(None, Given("600", 600), Absent))[0] == o;
    assert OrderList([o], OrderParams(Some("1"), Given("", 0), Absent))[0] == o;
  }

  // The Service listing

  /** The query parameters of the Service listing. */
  datatype ServiceParams = ServiceParams(service: Option<string>, price: Param<int>, executor: Param<int>)

  /** `ServiceListView.get_queryset`. */
  function ServiceList(services: seq<Service>, p: ServiceParams): seq<Service> {
    Listing(services, ServiceColumns, ListParams(p.service, p.price, p.executor))
  }

  /** The Service listing is the order-preserving selection of the Services
      that meet every active parameter: the category code equals `service`,
      the price is at most `price`, the executor's key equals `executor`. */
  lemma {:induction false} ServiceListSelects(services: seq<Service>, p: ServiceParams)
    ensures var r := ServiceList(services, p);
      && r == Narrow(services, Selector(ServiceColumns, ListParams(p.service, p.price, p.executor)))
      && forall s :: s in r <==>
           && s in services
           && (TextActive(p.service) ==> s.serviceType.Code() == p.service.value)
           && (p.price.Active() ==> s.price <= p.price.value)
           && (p.executor.Active() ==> s.executor == p.executor.value)
  {
    ListingIsSelection(services, ServiceColumns, ListParams(p.service, p.price, p.executor));
  }

  lemma ServiceListUnfiltered(services: seq<Service>, p: ServiceParams)
    requires !TextActive(p.service) && !p.price.Active() && !p.executor.Active()
    ensures ServiceList(services, p) == services
  {
  }

  lemma {:induction false} ServiceListIdempotent(services: seq<Service>, p: ServiceParams)
    ensures ServiceList(ServiceList(services, p), p) == ServiceList(services, p)
  {
    ListingIdempotent(services, ServiceColumns, ListParams(p.service, p.price, p.executor));
  }

  // ---------------------------------------------------------------------
  // The Message listing
  // ---------------------------------------------------------------------

  /** The query parameters of the Message listing; dates are timestamps. */
  datatype MessageParams = MessageParams(executor: Param<int>, customer: Param<int>,
                                         fromDate: Param<int>, toDate: Param<int>)

  /** A lookup on a field the queried model does not have. */
  datatype QueryError = FieldError(keyword: string)

  /** `MessageListView.get_queryset` as it is written. It starts from the
      Orders, not from the Messages. An Order has a customer but neither an
      executor nor a `msg_date`, so each of those three filters names a field
      the Order lacks and the query is rejected as soon as it is built; only
      the customer filter can narrow anything, and what it narrows is the
      Orders. The evidently intended behaviour, a Message filter with an
      inclusive date range, is `MessageListIntended`; it is not what the
      code does. */
  function MessageList(orders: seq<Order>, p: MessageParams): Result<seq<Order>, QueryError> {
    if p.executor.Active() then Failure(FieldError("executor"))
    else
      var byCustomer := if p.customer.Active() then Narrow(orders, OwnerIs(OrderColumns, p.customer.value)) else orders;
      if p.fromDate.Active() then Failure(FieldError("msg_date"))
      else if p.toDate.Active() then Failure(FieldError("msg_date"))
      else Success(byCustomer)
  }

  /** The Message listing fails exactly when `executor`, `from_date` or
      `to_date` is given, naming the first unknown field; otherwise it is
      the Order listing filtered by the customer alone. */
  lemma MessageListOutcome(orders: seq<Order>, p: MessageParams)
    ensures var r := MessageList(orders, p);
      && (r.Success? <==> !p.executor.Active() && !p.fromDate.Active() && !p.toDate.Active())
      && (r.Failure? ==> r.error == FieldError(if p.executor.Active() then "executor" else "msg_date"))
      && (r.Success? ==> r.value == OrderList(orders, OrderParams(None, Absent, p.customer)))
  {
  }

  /** The Message listing the view evidently means: Messages narrowed by
      executor, by customer, and to the inclusive range from `from_date`
      to `to_date`. */
  function MessageListIntended(messages: seq<Message>, p: MessageParams): seq<Message> {
    var byExecutor := if p.executor.Active() then Narrow(messages, (m: Message) => m.executor == p.executor.value) else messages;
    var byCustomer := if p.customer.Active() then Narrow(byExecutor, (m: Message) => m.customer == p.customer.value) else byExecutor;
    var sinceFrom := if p.fromDate.Active() then Narrow(byCustomer, (m: Message) => p.fromDate.value <= m.msgDate) else byCustomer;
    if p.toDate.Active() then Narrow(sinceFrom, (m: Message) => m.msgDate <= p.toDate.value) else sinceFrom
  }

  /** The intended listing keeps exactly the Messages that meet every active
      parameter, the date bounds being inclusive. */
  lemma MessageListIntendedMembers(messages: seq<Message>, p: MessageParams)
    ensures forall m :: m in MessageListIntended(messages, p) <==>
      && m in messages
      && (p.executor.Active() ==> m.executor == p.executor.value)
      && (p.customer.Active() ==> m.customer == p.customer.value)
      && (p.fromDate.Active() ==> p.fromDate.value <= m.msgDate)
      && (p.toDate.Active() ==> m.msgDate <= p.toDate.value)
  {
  }

  /** A Message of executor 7 sent at time 10: asking for executor 7's
      Messages fails as written, and so does any date range, while the
      intended listing returns the Message. */
  lemma MessageListDefect(m: Message, orders: seq<Order>)
    requires m.executor == 7 && m.msgDate == 10
    ensures MessageList(orders, MessageParams(Given("7", 7), Absent, Absent, Absent)) == Failure(FieldError("executor"))
    ensures MessageListIntended([m], MessageParams(Given("7", 7), Absent, Absent, Absent)) == [m]
    ensures MessageList(orders, MessageParams(Absent, Absent, Given("10", 10), Given("10", 10))) == Failure(FieldError("msg_date"))
    ensures MessageListIntended([m], MessageParams(Absent, Absent, Given("10", 10), Given("10", 10))) == [m]
  {
    MessageListIntendedMembers([m], MessageParams(Given("7", 7), Absent, Absent, Absent));
    MessageListIntendedMembers([m], MessageParams(Absent, Absent, Given("10", 10), Given("10", 10)));
    assert MessageListIntended([m], MessageParams(Given("7", 7), Absent, Absent, Absent))[0] == m;
    assert MessageListIntended([m], MessageParams(Absent, Absent, Given("10", 10), Given("10", 10)))[0] == m;
  }

  // ---------------------------------------------------------------------
  // Owner-only access to Executor updates
  // ---------------------------------------------------------------------

  /** Who is making the request. */
  datatype Caller = Anonymous | Authenticated(user: UserId)

  datatype AccessError = PermissionDenied | NotFound

  /** `IsExecutor.has_object_permission`: the Executor's user is the
      requesting user. An anonymous requester equals no stored user. */
  function HasObjectPermission(caller: Caller, obj: Executor): (allowed: bool)
    ensures allowed <==> caller == Authenticated(obj.user)
  {
    match caller
    case Anonymous => false
    case Authenticated(u) => obj.user == u
  }

  function OwnedBy(u: UserId): Executor -> bool {
    (e: Executor) => e.user == u
  }

  /** `ExecutorUpdateView.get_queryset`: an anonymous caller is refused;
      an authenticated one sees only the Executors whose user is the
      caller. Every candidate passes the object permission check, and every
      Executor that passes it is a candidate. */
  function ExecutorUpdateQueryset(caller: Caller, executors: seq<Executor>): (r: Result<seq<Executor>, AccessError>)
    ensures r.Failure? <==> caller.Anonymous?
    ensures r.Failure? ==> r.error == PermissionDenied
    ensures r.Success? ==> forall e :: e in r.value <==> e in executors && HasObjectPermission(caller, e)
  {
    match caller
    case Anonymous => Failure(PermissionDenied)
    case Authenticated(u) => Success(Narrow(executors, OwnedBy(u)))
  }

  /** The first Executor with primary key `pk`. */
  function FindExecutor(xs: seq<Executor>, pk: int): (r: Option<Executor>)
    ensures r.Some? ==> r.value in xs && r.value.id == pk
    ensures r.None? ==> forall e :: e in xs ==> e.id != pk
  {
    if xs == [] then None
    else if xs[0].id == pk then Some(xs[0])
    else FindExecutor(xs[1..], pk)
  }

  /** Every row with key `pk` takes the new field values. */
  function Rewrite(xs: seq<Executor>, pk: int, user: UserId, phone: string): seq<Executor> {
    seq(|xs|, i requires 0 <= i < |xs| => if xs[i].id == pk then Executor(pk, user, phone) else xs[i])
  }

  /** An update of Executor `pk` through `ExecutorUpdateView`: the object is
      looked up among the candidates of `get_queryset` (not found there is
      NotFound), then the object permission is checked, then the new values
      are stored. */
  function UpdateExecutor(caller: Caller, executors: seq<Executor>, pk: int, user: UserId, phone: string)
    : Result<seq<Executor>, AccessError>
  {
    match ExecutorUpdateQueryset(caller, executors)
    case Failure(err) => Failure(err)
    case Success(candidates) =>
      match FindExecutor(candidates, pk)
      case None => Failure(NotFound)
      case Some(obj) =>
        if HasObjectPermission(caller, obj) then Success(Rewrite(executors, pk, user, phone))
        else Failure(PermissionDenied)
  }

  /** An anonymous update is always refused with PermissionDenied; an update
      of an Executor the caller does not own is refused with NotFound, since
      the candidates hide it; an update succeeds exactly when the caller owns
      an Executor with key `pk`, and then that row takes the new values and
      every other row stays as it was. */
  lemma UpdateExecutorAccess(caller: Caller, executors: seq<Executor>, pk: int, user: UserId, phone: string)
    ensures var r := UpdateExecutor(caller, executors, pk, user, phone);
      && (caller.Anonymous? ==> r == Failure(PermissionDenied))
      && (caller.Authenticated? && (forall e :: e in executors && e.id == pk ==> e.user != caller.user) ==>
            r == Failure(NotFound))
      && (r.Success? <==> exists e :: e in executors && e.id == pk && HasObjectPermission(caller, e))
      && (r.Success? ==>
            && |r.value| == |executors|
            && forall i :: 0 <= i < |executors| ==>
                 r.value[i] == (if executors[i].id == pk then Executor(pk, user, phone) else executors[i]))
  {
    var r := UpdateExecutor(caller, executors, pk, user, phone);
    if caller.Authenticated? {
      var candidates := Narrow(executors, OwnedBy(caller.user));
      if exists e :: e in executors && e.id == pk && HasObjectPermission(caller, e) {
        var e :| e in executors && e.id == pk && HasObjectPermission(caller, e);
        assert e in candidates;
      }
    }
  }
}
