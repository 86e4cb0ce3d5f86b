/**
  The order-creation use case: check the customer, sort the requested lines
  into buckets, report the first non-empty error bucket in a fixed order, and
  only when every line passes issue the two writes — create the order, then
  update the stock quantities.
 */
module CreateOrder {
  import opened OrderTypes
  import opened ProductLookup
  import opened Reconcile

  /** Some requested line names an id no fetched product carries. */
  ghost predicate AnyNotFound(found: seq<Product>, products: seq<ProductQuantity>) {
    exists i :: 0 <= i < |products| && !HasProduct(found, products[i].id)
  }

  /** Some requested line names a fetched product but asks for more than its
      stock. */
  ghost predicate AnyInsufficient(found: seq<Product>, products: seq<ProductQuantity>) {
    exists i :: 0 <= i < |products| && HasProduct(found, products[i].id)
      && products[i].quantity > Find(found, products[i].id).value.quantity
  }

  /** `lines` and `updates` are what a fully satisfiable request yields:
      line i carries the id and quantity of requested line i and the price of
      the product it matched, and update i sets that product's stock to what
      is left after line i, which is never negative. */
  ghost predicate Fulfils(found: seq<Product>, products: seq<ProductQuantity>,
                          lines: seq<OrderProduct>, updates: seq<ProductQuantity>) {
    && |lines| == |products|
    && |updates| == |products|
    && forall i :: 0 <= i < |products| ==>
         && HasProduct(found, products[i].id)
         && lines[i].productId == products[i].id
         && lines[i].quantity == products[i].quantity
         && lines[i].price == Find(found, products[i].id).value.price
         && updates[i].id == products[i].id
         && updates[i].quantity == Find(found, products[i].id).value.quantity - products[i].quantity
         && updates[i].quantity >= 0
  }

  /** One call of the use case, given the outcome of the customer lookup, the
      products the batched lookup returned and the requested lines. */
  function Execute(customer: Option<Customer>, found: seq<Product>, products: seq<ProductQuantity>): (e: Execution)
    ensures customer.None? ==> e == Execution(Err(CustomerNotFound), [])
    ensures customer.Some? && AnyNotFound(found, products) ==>
      e == Execution(Err(ProductsNotFound), [])
    ensures customer.Some? && !AnyNotFound(found, products) && AnyInsufficient(found, products) ==>
      e == Execution(Err(InsufficientQuantity), [])
    ensures e.result.Ok? <==>
      customer.Some? && !AnyNotFound(found, products) && !AnyInsufficient(found, products)
    ensures e.result.Ok? ==>
      && e.result.value.customer == customer.value
      && |e.writes| == 2
      && e.writes[0] == CreateOrder(e.result.value)
      && e.writes[1].UpdateQuantity?
      && Fulfils(found, products, e.result.value.products, e.writes[1].updates)
    ensures e.result.Err? <==> e.writes == []
  {
    match customer
    case None => Execution(Err(CustomerNotFound), [])
    case Some(c) =>
      var b := Partition(found, products);
      PartitionSound(found, products);
      if |b.notFound| > 0 then
        assert b.notFound[0] in products;
        Execution(Err(ProductsNotFound), [])
      else if |b.insufficient| > 0 then
        assert b.insufficient[0] in products;
        assert !AnyNotFound(found, products) by {
          forall i | 0 <= i < |products| ensures HasProduct(found, products[i].id) {
            assert products[i] !in b.notFound;
          }
        }
        Execution(Err(InsufficientQuantity), [])
      else
        assert !AnyNotFound(found, products) && !AnyInsufficient(found, products) by {
          forall i | 0 <= i < |products|
            ensures HasProduct(found, products[i].id)
            ensures products[i].quantity <= Find(found, products[i].id).value.quantity
          {
            assert products[i] !in b.notFound;
            assert products[i] !in b.insufficient;
          }
        }
        var order := OrderRequest(c, b.orderProducts);
        Execution(Ok(order), [CreateOrder(order), UpdateQuantity(b.updates)])
  }

  /** The outcome does not depend on the order of the requested lines: two
      requests that are rearrangements of each other both succeed, or both
      fail with the same error. */
  lemma OutcomeIgnoresLineOrder(customer: Option<Customer>, found: seq<Product>,
                                p: seq<ProductQuantity>, q: seq<ProductQuantity>)
    requires multiset(p) == multiset(q)
    ensures Execute(customer, found, p).result.Ok? == Execute(customer, found, q).result.Ok?
    ensures Execute(customer, found, p).result.Err? ==>
      Execute(customer, found, p).result.error == Execute(customer, found, q).result.error
  {
    SameLinesSameErrors(found, p, q);
    SameLinesSameErrors(found, q, p);
  }

  /** Every error condition a request meets is met by any request holding the
      same lines. */
  lemma SameLinesSameErrors(found: seq<Product>, p: seq<ProductQuantity>, q: seq<ProductQuantity>)
    requires multiset(p) == multiset(q)
    ensures AnyNotFound(found, p) ==> AnyNotFound(found, q)
    ensures AnyInsufficient(found, p) ==> AnyInsufficient(found, q)
  {
    if AnyNotFound(found, p) {
      var i :| 0 <= i < |p| && !HasProduct(found, p[i].id);
      assert p[i] in multiset(q);
      var j :| 0 <= j < |q| && q[j] == p[i];
    }
    if AnyInsufficient(found, p) {
      var i :| 0 <= i < |p| && HasProduct(found, p[i].id)
        && p[i].quantity > Find(found, p[i].id).value.quantity;
      assert p[i] in multiset(q);
      var j :| 0 <= j < |q| && q[j] == p[i];
    }
  }

  /** A request made of two blocks succeeds exactly when each block would
      succeed alone, and then its order lines are those of the first block
      followed by those of the second. */
  lemma {:induction false} ConcatenatedRequest(customer: Option<Customer>, found: seq<Product>,
                                               a: seq<ProductQuantity>, c: seq<ProductQuantity>)
    ensures Execute(customer, found, a + c).result.Ok? <==>
      Execute(customer, found, a).result.Ok? && Execute(customer, found, c).result.Ok?
    ensures Execute(customer, found, a + c).result.Ok? ==>
      Execute(customer, found, a + c).result.value.products ==
        Execute(customer, found, a).result.value.products + Execute(customer, found, c).result.value.products
  {
    if customer.Some? {
      PartitionAppend(found, a, c);
    }
  }

  /** A line that asks for exactly the available stock passes the stock
      test, and in a successful call its update sets the product's stock to
      zero. */
  lemma ExactStockEmptiesProduct(customer: Option<Customer>, found: seq<Product>,
                                 products: seq<ProductQuantity>, i: int, p: Product)
    requires 0 <= i < |products|
    requires Find(found, products[i].id) == Some(p)
    requires products[i].quantity == p.quantity
    ensures Classify(found, products[i]) ==
      Fits(OrderProduct(products[i].id, p.price, p.quantity), ProductQuantity(products[i].id, 0))
    ensures Execute(customer, found, products).result.Ok? ==>
      Execute(customer, found, products).writes[1].updates[i] == ProductQuantity(products[i].id, 0)
  {
  }

  /** Lines that repeat a product id are each checked against the product's
      stock as fetched, not against what earlier lines left: in a successful
      call every such line's update is computed from the same original
      stock. */
  lemma RepeatedIdsUseFetchedStock(customer: Option<Customer>, found: seq<Product>,
                                   products: seq<ProductQuantity>, i: int, j: int)
    requires 0 <= i < |products| && 0 <= j < |products|
    requires products[i].id == products[j].id
    ensures Execute(customer, found, products).result.Ok? ==>
      var updates := Execute(customer, found, products).writes[1].updates;
      updates[i].quantity + products[i].quantity == updates[j].quantity + products[j].quantity
  {
  }
}
