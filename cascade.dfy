/** What deleting a row removes. Every foreign key of the schema is declared
    `on_delete=CASCADE`, so deleting a row also deletes each row that refers
    to it, and so on transitively. The tables are held in their natural
    order as sequences; a delete keeps the surviving rows in that order. */
module Cascade {
  import opened Models
  import opened Query

  datatype Store = Store(
    executors: seq<Executor>,
    services: seq<Service>,
    customers: seq<Customer>,
    orders: seq<Order>,
    tags: seq<Tag>,
    orderings: seq<Ordering>,
    messages: seq<Message>,
    tickets: seq<Ticket>,
    reviews: seq<Review>,
    authorings: seq<Authoring>)

  // ---------------------------------------------------------------------
  // The keys present in each table, and the store's invariants
  // ---------------------------------------------------------------------

  function ExecutorIds(st: Store): set<int> { set e | e in st.executors :: e.id }
  function ServiceIds(st: Store): set<int> { set s | s in st.services :: s.id }
  function CustomerIds(st: Store): set<int> { set c | c in st.customers :: c.id }
  function OrderIds(st: Store): set<int> { set o | o in st.orders :: o.id }
  function ReviewIds(st: Store): set<int> { set v | v in st.reviews :: v.id }

  /** A nullable foreign key is either null or one of `ids`. */
  predicate NullOrIn(ref: Option<int>, ids: set<int>) {
    ref.Some? ==> ref.value in ids
  }

  /** A nullable foreign key that is set and points into `ids`. */
  predicate PointsInto(ref: Option<int>, ids: set<int>) {
    ref.Some? && ref.value in ids
  }

  /** Referential integrity: every non-null foreign key refers to an existing
      row. (The keys referring to users are not checked: users are kept by
      the authentication framework, outside this store.) */
  predicate Integrity(st: Store) {
    && (forall s :: s in st.services ==> s.executor in ExecutorIds(st))
    && (forall o :: o in st.orders ==> o.customer in CustomerIds(st))
    && (forall t :: t in st.tags ==>
          NullOrIn(t.service, ServiceIds(st)) && NullOrIn(t.order, OrderIds(st)))
    && (forall g :: g in st.orderings ==>
          && g.customer in CustomerIds(st) && g.executor in ExecutorIds(st)
          && NullOrIn(g.service, ServiceIds(st)) && NullOrIn(g.order, OrderIds(st)))
    && (forall m :: m in st.messages ==> m.customer in CustomerIds(st) && m.executor in ExecutorIds(st))
    && (forall k :: k in st.tickets ==>
          NullOrIn(k.customer, CustomerIds(st)) && NullOrIn(k.executor, ExecutorIds(st)))
    && (forall a :: a in st.authorings ==>
          && a.review in ReviewIds(st)
          && NullOrIn(a.customer, CustomerIds(st)) && NullOrIn(a.executor, ExecutorIds(st)))
  }

  /** Primary keys are unique within each table that other rows refer to. */
  predicate UniqueKeys(st: Store) {
    && (forall x, y :: x in st.executors && y in st.executors && x.id == y.id ==> x == y)
    && (forall x, y :: x in st.services && y in st.services && x.id == y.id ==> x == y)
    && (forall x, y :: x in st.customers && y in st.customers && x.id == y.id ==> x == y)
    && (forall x, y :: x in st.orders && y in st.orders && x.id == y.id ==> x == y)
    && (forall x, y :: x in st.reviews && y in st.reviews && x.id == y.id ==> x == y)
  }

  // ---------------------------------------------------------------------
  // Cascading deletes
  // ---------------------------------------------------------------------

  /** Deletes the Orders whose keys are in `doomed`, with the Tags and the
      Orderings that refer to them. */
  function DeleteOrders(st: Store, doomed: set<int>): Store {
    st.(orders := Narrow(st.orders, (o: Order) => o.id !in doomed),
        tags := Narrow(st.tags, (t: Tag) => !PointsInto(t.order, doomed)),
        orderings := Narrow(st.orderings, (g: Ordering) => !PointsInto(g.order, doomed)))
  }

  /** Deletes the Services whose keys are in `doomed`, with the Tags and the
      Orderings that refer to them. */
  function DeleteServices(st: Store, doomed: set<int>): Store {
    st.(services := Narrow(st.services, (s: Service) => s.id !in doomed),
        tags := Narrow(st.tags, (t: Tag) => !PointsInto(t.service, doomed)),
        orderings := Narrow(st.orderings, (g: Ordering) => !PointsInto(g.service, doomed)))
  }

  /** Some Order of customer `c` has key `k`. */
  predicate IsOrderOf(st: Store, k: int, c: int) {
    exists o :: o in st.orders && o.id == k && o.customer == c
  }

  /** Some Service of executor `e` has key `k`. */
  predicate IsServiceOf(st: Store, k: int, e: int) {
    exists s :: s in st.services && s.id == k && s.executor == e
  }

  /** The keys of the Orders placed by customer `c`: exactly the keys some
      Order of `c` has. */
  function OrdersOf(st: Store, c: int): (ids: set<int>)
    ensures forall k :: k in ids <==> IsOrderOf(st, k, c)
    ensures ids <= OrderIds(st)
  {
    set o | o in st.orders && o.customer == c :: o.id
  }

  /** The keys of the Services offered by executor `e`: exactly the keys
      some Service of `e` has. */
  function ServicesOf(st: Store, e: int): (ids: set<int>)
    ensures forall k :: k in ids <==> IsServiceOf(st, k, e)
    ensures ids <= ServiceIds(st)
  {
    set s | s in st.services && s.executor == e :: s.id
  }

  /** Deletes customer `c`: its Orders (and through them their Tags and
      Orderings), and its Orderings, Messages, Tickets and Authorings. */
  function DeleteCustomer(st: Store, c: int): Store {
    var st1 := DeleteOrders(st, OrdersOf(st, c));
    st1.(customers := Narrow(st1.customers, (x: Customer) => x.id != c),
         orderings := Narrow(st1.orderings, (g: Ordering) => g.customer != c),
         messages := Narrow(st1.messages, (m: Message) => m.customer != c),
         tickets := Narrow(st1.tickets, (k: Ticket) => k.customer != Some(c)),
         authorings := Narrow(st1.authorings, (a: Authoring) => a.customer != Some(c)))
  }

  /** Deletes executor `e`: its Services (and through them their Tags and
      Orderings), and its Orderings, Messages, Tickets and Authorings. */
  function DeleteExecutor(st: Store, e: int): Store {
    var st1 := DeleteServices(st, ServicesOf(st, e));
    st1.(executors := Narrow(st1.executors, (x: Executor) => x.id != e),
         orderings := Narrow(st1.orderings, (g: Ordering) => g.executor != e),
         messages := Narrow(st1.messages, (m: Message) => m.executor != e),
         tickets := Narrow(st1.tickets, (k: Ticket) => k.executor != Some(e)),
         authorings := Narrow(st1.authorings, (a: Authoring) => a.executor != Some(e)))
  }

  /** Deletes review `v` with the Authorings that attribute it. */
  function DeleteReview(st: Store, v: int): Store {
    st.(reviews := Narrow(st.reviews, (x: Review) => x.id != v),
        authorings := Narrow(st.authorings, (a: Authoring) => a.review != v))
  }

  // ---------------------------------------------------------------------
  // Referential integrity survives every cascading delete
  // ---------------------------------------------------------------------

  lemma DeleteOrdersIntegrity(st: Store, doomed: set<int>)
    requires Integrity(st)
    ensures Integrity(DeleteOrders(st, doomed))
    ensures OrderIds(DeleteOrders(st, doomed)) == OrderIds(st) - doomed
  {
    var r := DeleteOrders(st, doomed);
    assert OrderIds(r) == OrderIds(st) - doomed by {
      forall k | k in OrderIds(st) - doomed ensures k in OrderIds(r) {
        var o :| o in st.orders && o.id == k;
        assert o in r.orders;
      }
    }
  }

  lemma DeleteServicesIntegrity(st: Store, doomed: set<int>)
    requires Integrity(st)
    ensures Integrity(DeleteServices(st, doomed))
    ensures ServiceIds(DeleteServices(st, doomed)) == ServiceIds(st) - doomed
  {
    var r := DeleteServices(st, doomed);
    assert ServiceIds(r) == ServiceIds(st) - doomed by {
      forall k | k in ServiceIds(st) - doomed ensures k in ServiceIds(r) {
        var s :| s in st.services && s.id == k;
        assert s in r.services;
      }
    }
  }

  /** After deleting a customer every remaining foreign key still refers
      to an existing row, and the customer's key is gone. */
  lemma DeleteCustomerIntegrity(st: Store, c: int)
    requires Integrity(st)
    ensures Integrity(DeleteCustomer(st, c))
    ensures CustomerIds(DeleteCustomer(st, c)) == CustomerIds(st) - {c}
  {
    var doomed := OrdersOf(st, c);
    DeleteOrdersIntegrity(st, doomed);
    var r := DeleteCustomer(st, c);
    assert CustomerIds(r) == CustomerIds(st) - {c} by {
      forall k | k in CustomerIds(st) - {c} ensures k in CustomerIds(r) {
        var x :| x in st.customers && x.id == k;
        assert x in r.customers;
      }
    }
    forall o | o in r.orders ensures o.customer in CustomerIds(r) {
      assert o.id !in doomed;
    }
  }

  /** After deleting an executor every remaining foreign key still refers
      to an existing row, and the executor's key is gone. */
  lemma DeleteExecutorIntegrity(st: Store, e: int)
    requires Integrity(st)
    ensures Integrity(DeleteExecutor(st, e))
    ensures ExecutorIds(DeleteExecutor(st, e)) == ExecutorIds(st) - {e}
  {
    var doomed := ServicesOf(st, e);
    DeleteServicesIntegrity(st, doomed);
    var r := DeleteExecutor(st, e);
    assert ExecutorIds(r) == ExecutorIds(st) - {e} by {
      forall k | k in ExecutorIds(st) - {e} ensures k in ExecutorIds(r) {
        var x :| x in st.executors && x.id == k;
        assert x in r.executors;
      }
    }
    forall s | s in r.services ensures s.executor in ExecutorIds(r) {
      assert s.id !in doomed;
    }
  }

  lemma DeleteReviewIntegrity(st: Store, v: int)
    requires Integrity(st)
    ensures Integrity(DeleteReview(st, v))
    ensures ReviewIds(DeleteReview(st, v)) == ReviewIds(st) - {v}
  {
    var r := DeleteReview(st, v);
    assert ReviewIds(r) == ReviewIds(st) - {v} by {
      forall k | k in ReviewIds(st) - {v} ensures k in ReviewIds(r) {
        var x :| x in st.reviews && x.id == k;
        assert x in r.reviews;
      }
    }
  }

  // ---------------------------------------------------------------------
  // Exactly what a delete removes
  // ---------------------------------------------------------------------

  /** Deleting customer `c` removes the customer, its Orders, the Tags of
      those Orders, the Orderings that name the customer or one of those
      Orders, and the customer's Messages, Tickets and Authorings; every
      other row stays. */
  lemma DeleteCustomerRemoves(st: Store, c: int)
    requires UniqueKeys(st)
    ensures var r := DeleteCustomer(st, c);
      && r.executors == st.executors && r.services == st.services && r.reviews == st.reviews
      && (forall x :: x in r.customers <==> x in st.customers && x.id != c)
      && (forall o :: o in r.orders <==> o in st.orders && o.customer != c)
      && (forall t :: t in r.tags <==>
            t in st.tags && !(t.order.Some? && IsOrderOf(st, t.order.value, c)))
      && (forall g :: g in r.orderings <==>
            g in st.orderings && g.customer != c && !(g.order.Some? && IsOrderOf(st, g.order.value, c)))
      && (forall m :: m in r.messages <==> m in st.messages && m.customer != c)
      && (forall k :: k in r.tickets <==> k in st.tickets && k.customer != Some(c))
      && (forall a :: a in r.authorings <==> a in st.authorings && a.customer != Some(c))
  {
    var doomed := OrdersOf(st, c);
    forall o | o in st.orders ensures o.id in doomed <==> o.customer == c {
      if o.id in doomed {
        assert IsOrderOf(st, o.id, c);
      }
    }
  }

  /** Deleting executor `e` removes the executor, its Services, the Tags of
      those Services, the Orderings that name the executor or one of those
      Services, and the executor's Messages, Tickets and Authorings; every
      other row stays. */
  lemma DeleteExecutorRemoves(st: Store, e: int)
    requires UniqueKeys(st)
    ensures var r := DeleteExecutor(st, e);
      && r.customers == st.customers && r.orders == st.orders && r.reviews == st.reviews
      && (forall x :: x in r.executors <==> x in st.executors && x.id != e)
      && (forall s :: s in r.services <==> s in st.services && s.executor != e)
      && (forall t :: t in r.tags <==>
            t in st.tags && !(t.service.Some? && IsServiceOf(st, t.service.value, e)))
      && (forall g :: g in r.orderings <==>
            g in st.orderings && g.executor != e && !(g.service.Some? && IsServiceOf(st, g.service.value, e)))
      && (forall m :: m in r.messages <==> m in st.messages && m.executor != e)
      && (forall k :: k in r.tickets <==> k in st.tickets && k.executor != Some(e))
      && (forall a :: a in r.authorings <==> a in st.authorings && a.executor != Some(e))
  {
    var doomed := ServicesOf(st, e);
    forall s | s in st.services ensures s.id in doomed <==> s.executor == e {
      if s.id in doomed {
        assert IsServiceOf(st, s.id, e);
      }
    }
  }

  /** Deleting Orders removes exactly those Orders, the Tags of those
      Orders and the Orderings that name one of them; every other row
      stays. */
  lemma DeleteOrdersRemoves(st: Store, doomed: set<int>)
    ensures var r := DeleteOrders(st, doomed);
      && r.executors == st.executors && r.services == st.services && r.customers == st.customers
      && r.messages == st.messages && r.tickets == st.tickets && r.reviews == st.reviews
      && r.authorings == st.authorings
      && (forall o :: o in r.orders <==> o in st.orders && o.id !in doomed)
      && (forall t :: t in r.tags <==> t in st.tags && !PointsInto(t.order, doomed))
      && (forall g :: g in r.orderings <==> g in st.orderings && !PointsInto(g.order, doomed))
  {
  }

  /** Deleting Services removes exactly those Services, the Tags of those
      Services and the Orderings that name one of them; every other row
      stays. */
  lemma DeleteServicesRemoves(st: Store, doomed: set<int>)
    ensures var r := DeleteServices(st, doomed);
      && r.executors == st.executors && r.customers == st.customers && r.orders == st.orders
      && r.messages == st.messages && r.tickets == st.tickets && r.reviews == st.reviews
      && r.authorings == st.authorings
      && (forall s :: s in r.services <==> s in st.services && s.id !in doomed)
      && (forall t :: t in r.tags <==> t in st.tags && !PointsInto(t.service, doomed))
      && (forall g :: g in r.orderings <==> g in st.orderings && !PointsInto(g.service, doomed))
  {
  }

  /** Deleting review `v` removes exactly it and the Authorings that
      attribute it; every other row stays. */
  lemma DeleteReviewRemoves(st: Store, v: int)
    ensures var r := DeleteReview(st, v);
      && r.executors == st.executors && r.services == st.services && r.customers == st.customers
      && r.orders == st.orders && r.tags == st.tags && r.orderings == st.orderings
      && r.messages == st.messages && r.tickets == st.tickets
      && (forall x :: x in r.reviews <==> x in st.reviews && x.id != v)
      && (forall a :: a in r.authorings <==> a in st.authorings && a.review != v)
  {
  }

  /** Primary keys stay unique: a delete only removes rows. */
  lemma DeleteKeepsUniqueKeys(st: Store, orders: set<int>, services: set<int>, c: int, e: int, v: int)
    requires UniqueKeys(st)
    ensures UniqueKeys(DeleteOrders(st, orders))
    ensures UniqueKeys(DeleteServices(st, services))
    ensures UniqueKeys(DeleteCustomer(st, c))
    ensures UniqueKeys(DeleteExecutor(st, e))
    ensures UniqueKeys(DeleteReview(st, v))
  {
  }
}
