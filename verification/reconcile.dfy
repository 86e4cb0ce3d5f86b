/**
  The single pass over the requested lines that sorts each line into one of
  three buckets — satisfiable, insufficient stock, not found — and builds the
  order line and the stock update for every satisfiable line.
 */
module Reconcile {
  import opened OrderTypes
  import opened ProductLookup

  /** Where one requested line lands. A satisfiable line carries the order
      line and the absolute-quantity update it contributes. */
  datatype Verdict =
    | Fits(line: OrderProduct, update: ProductQuantity)
    | Short
    | Missing

  /** The four lists the pass accumulates, each in request order. */
  datatype Buckets = Buckets(
    orderProducts: seq<OrderProduct>,
    updates: seq<ProductQuantity>,
    notFound: seq<ProductQuantity>,
    insufficient: seq<ProductQuantity>)

  const NoBuckets := Buckets([], [], [], [])

  /** The request line an order line was built from. */
  function Requested(lines: seq<OrderProduct>): seq<ProductQuantity> {
    seq(|lines|, k requires 0 <= k < |lines| => ProductQuantity(lines[k].productId, lines[k].quantity))
  }

  /** The verdict for one requested line, judged against the first fetched
      product with its id. The stock test is `requested <= stock`, so asking
      for exactly the available stock is satisfiable. */
  function Classify(found: seq<Product>, element: ProductQuantity): (v: Verdict)
    ensures v.Missing? <==> !HasProduct(found, element.id)
    ensures v.Short? <==>
      HasProduct(found, element.id) && element.quantity > Find(found, element.id).value.quantity
    ensures v.Fits? ==>
      && HasProduct(found, element.id)
      && element.quantity <= Find(found, element.id).value.quantity
      && v.line.productId == element.id
      && v.line.quantity == element.quantity
      && v.line.price == Find(found, element.id).value.price
      && v.update.id == element.id
      && v.update.quantity + element.quantity == Find(found, element.id).value.quantity
      && v.update.quantity >= 0
  {
    match Find(found, element.id)
    case None => Missing
    case Some(p) =>
      if element.quantity <= p.quantity then
        Fits(OrderProduct(element.id, p.price, element.quantity),
             ProductQuantity(element.id, p.quantity - element.quantity))
      else
        Short
  }

  /** Appends one classified line to the bucket it belongs to. */
  function Push(b: Buckets, element: ProductQuantity, v: Verdict): Buckets {
    match v
    case Fits(line, update) =>
      b.(orderProducts := b.orderProducts + [line], updates := b.updates + [update])
    case Short => b.(insufficient := b.insufficient + [element])
    case Missing => b.(notFound := b.notFound + [element])
  }

  /** Component-wise concatenation of two bucket sets. */
  function Concat(b: Buckets, c: Buckets): Buckets {
    Buckets(b.orderProducts + c.orderProducts, b.updates + c.updates,
            b.notFound + c.notFound, b.insufficient + c.insufficient)
  }

  /** Order line k and update k describe the same product, and no update
      drives a stock below zero. */
  ghost predicate Paired(b: Buckets) {
    && |b.orderProducts| == |b.updates|
    && forall k :: 0 <= k < |b.updates| ==>
         b.updates[k].id == b.orderProducts[k].productId && b.updates[k].quantity >= 0
  }

  /** A line is in the not-found bucket exactly when it was requested and no
      fetched product has its id; it is in the insufficient bucket exactly
      when it was requested, a product has its id, and the request exceeds
      that product's stock; and it reached the order lines exactly when it
      was requested, a product has its id, and the request fits its stock. */
  ghost predicate Sorted(found: seq<Product>, products: seq<ProductQuantity>, b: Buckets) {
    && (forall e :: e in b.notFound <==> e in products && !HasProduct(found, e.id))
    && (forall e :: e in b.insufficient <==>
          e in products && HasProduct(found, e.id) && e.quantity > Find(found, e.id).value.quantity)
    && (forall e :: e in Requested(b.orderProducts) <==>
          e in products && HasProduct(found, e.id) && e.quantity <= Find(found, e.id).value.quantity)
  }

  /** Every requested line, counted with repetition, lands in exactly one of
      the three buckets. */
  ghost predicate Exhaustive(products: seq<ProductQuantity>, b: Buckets) {
    multiset(b.notFound) + multiset(b.insufficient) + multiset(Requested(b.orderProducts))
      == multiset(products)
  }

  /** With both error buckets empty, order line i and update i are the ones
      requested line i yields. */
  ghost predicate Aligned(found: seq<Product>, products: seq<ProductQuantity>, b: Buckets) {
    b.notFound == [] && b.insufficient == [] ==>
      && |b.orderProducts| == |products|
      && |b.updates| == |products|
      && forall i :: 0 <= i < |products| ==>
           Classify(found, products[i]) == Fits(b.orderProducts[i], b.updates[i])
  }

  lemma PushPaired(found: seq<Product>, prev: Buckets, element: ProductQuantity)
    requires Paired(prev)
    ensures Paired(Push(prev, element, Classify(found, element)))
  {
  }

  lemma PushSorted(found: seq<Product>, init: seq<ProductQuantity>, prev: Buckets, element: ProductQuantity)
    requires Sorted(found, init, prev)
    ensures Sorted(found, init + [element], Push(prev, element, Classify(found, element)))
  {
    var v := Classify(found, element);
    var b := Push(prev, element, v);
    forall e ensures e in init + [element] <==> e in init || e == element {
    }
    if v.Fits? {
      assert Requested(b.orderProducts) == Requested(prev.orderProducts) + [element];
    } else {
      assert b.orderProducts == prev.orderProducts;
    }
  }

  lemma PushExhaustive(found: seq<Product>, init: seq<ProductQuantity>, prev: Buckets, element: ProductQuantity)
    requires Exhaustive(init, prev)
    ensures Exhaustive(init + [element], Push(prev, element, Classify(found, element)))
  {
    var v := Classify(found, element);
    var b := Push(prev, element, v);
    if v.Fits? {
      assert Requested(b.orderProducts) == Requested(prev.orderProducts) + [element];
    } else {
      assert b.orderProducts == prev.orderProducts;
    }
  }

  lemma PushAligned(found: seq<Product>, init: seq<ProductQuantity>, prev: Buckets, element: ProductQuantity)
    requires Aligned(found, init, prev)
    requires Paired(prev)
    requires Sorted(found, init, prev)
    ensures Aligned(found, init + [element], Push(prev, element, Classify(found, element)))
  {
    var v := Classify(found, element);
    var b := Push(prev, element, v);
    if b.notFound == [] && b.insufficient == [] {
      assert v.Fits?;
      assert prev.notFound == [] && prev.insufficient == [];
      var products := init + [element];
      forall i | 0 <= i < |products|
        ensures Classify(found, products[i]) == Fits(b.orderProducts[i], b.updates[i])
      {
        if i < |init| {
          assert products[i] == init[i];
        }
      }
    }
  }

  /** The pass over the request, front to back, pushing each line into its
      bucket. Its contract only counts lines; what each bucket holds is
      stated by `PartitionSound` and `PartitionAppend`. */
  function Partition(found: seq<Product>, products: seq<ProductQuantity>): (b: Buckets)
    ensures |b.orderProducts| == |b.updates|
    ensures |b.orderProducts| + |b.insufficient| + |b.notFound| == |products|
  {
    if |products| == 0 then NoBuckets
    else
      var element := products[|products| - 1];
      Push(Partition(found, products[..|products| - 1]), element, Classify(found, element))
  }

  /** What the pass computes: every line lands in exactly one bucket; a line
      is not found exactly when no fetched product has its id, and
      insufficient exactly when one does and the request exceeds its stock;
      order lines and updates stay paired; and with no error the order
      lines and updates follow the request line by line. */
  lemma {:induction false} PartitionSound(found: seq<Product>, products: seq<ProductQuantity>)
    ensures Paired(Partition(found, products))
    ensures Sorted(found, products, Partition(found, products))
    ensures Exhaustive(products, Partition(found, products))
    ensures Aligned(found, products, Partition(found, products))
  {
    if |products| > 0 {
      var init := products[..|products| - 1];
      var element := products[|products| - 1];
      assert products == init + [element];
      var prev := Partition(found, init);
      PartitionSound(found, init);
      PushPaired(found, prev, element);
      PushSorted(found, init, prev, element);
      PushExhaustive(found, init, prev, element);
      PushAligned(found, init, prev, element);
    }
  }

  /** One unfolding of the pass: the last line is pushed onto the buckets of
      the lines before it. */
  lemma PartitionLast(found: seq<Product>, products: seq<ProductQuantity>)
    requires |products| > 0
    ensures Partition(found, products) ==
      Push(Partition(found, products[..|products| - 1]), products[|products| - 1],
           Classify(found, products[|products| - 1]))
  {
  }

  /** Pushing onto the right part of a concatenation pushes onto the whole. */
  lemma PushConcat(pa: Buckets, pi: Buckets, element: ProductQuantity, v: Verdict)
    ensures Push(Concat(pa, pi), element, v) == Concat(pa, Push(pi, element, v))
  {
    match v
    case Fits(line, update) =>
      assert pa.orderProducts + pi.orderProducts + [line] == pa.orderProducts + (pi.orderProducts + [line]);
      assert pa.updates + pi.updates + [update] == pa.updates + (pi.updates + [update]);
    case Short =>
      assert pa.insufficient + pi.insufficient + [element] == pa.insufficient + (pi.insufficient + [element]);
    case Missing =>
      assert pa.notFound + pi.notFound + [element] == pa.notFound + (pi.notFound + [element]);
  }

  /** The pass is a left fold: partitioning a concatenated request gives the
      concatenation of the partitions of its parts, so each line's bucket and
      contribution depend on that line alone. */
  lemma {:induction false} PartitionAppend(found: seq<Product>, a: seq<ProductQuantity>, c: seq<ProductQuantity>)
    ensures Partition(found, a + c) == Concat(Partition(found, a), Partition(found, c))
    decreases |c|
  {
    if |c| == 0 {
      assert a + c == a;
    } else {
      var init := c[..|c| - 1];
      var element := c[|c| - 1];
      var ac := a + c;
      assert ac[..|ac| - 1] == a + init;
      assert ac[|ac| - 1] == element;
      PartitionLast(found, ac);
      PartitionLast(found, c);
      PartitionAppend(found, a, init);
      PushConcat(Partition(found, a), Partition(found, init), element, Classify(found, element));
    }
  }

  /** The service does not validate the requested quantity: a zero or
      negative request for a product with non-negative stock always passes
      the stock test. */
  lemma NonPositiveRequestFits(found: seq<Product>, element: ProductQuantity, p: Product)
    requires Find(found, element.id) == Some(p)
    requires p.quantity >= 0
    requires element.quantity <= 0
    ensures Classify(found, element).Fits?
    ensures Classify(found, element).update.quantity >= p.quantity
  {
  }
}
