/**
  Concrete calls of the use case: worked examples, the
  precedence of the not-found error, and a request that repeats a product.
 */
module Scenarios {
  import opened OrderTypes
  import opened ProductLookup
  import opened CreateOrder

  const P1 := Product("P1", 10, 5)
  const P2 := Product("P2", 20, 2)
  const Stock := [P1, P2]

  /** What the lookup finds in the example stock. */
  lemma StockLookups()
    ensures Find(Stock, "P1") == Some(P1)
    ensures Find(Stock, "P2") == Some(P2)
    ensures Find(Stock, "P3") == None
  {
    assert Find(Stock[1..], "P2") == Some(P2);
    assert Find(Stock[1..], "P3") == None;
  }

  const TwoLines := [ProductQuantity("P1", 3), ProductQuantity("P2", 2)]

  /** Every line of `TwoLines` names a stocked product and fits its stock. */
  lemma TwoLinesFit()
    ensures !AnyNotFound(Stock, TwoLines) && !AnyInsufficient(Stock, TwoLines)
  {
    StockLookups();
    forall i | 0 <= i < |TwoLines|
      ensures HasProduct(Stock, TwoLines[i].id)
      ensures TwoLines[i].quantity <= Find(Stock, TwoLines[i].id).value.quantity
    {
    }
  }

  /** The only order lines and updates that fulfil `TwoLines`. */
  lemma TwoLinesFulfilment(lines: seq<OrderProduct>, updates: seq<ProductQuantity>)
    requires Fulfils(Stock, TwoLines, lines, updates)
    ensures lines == [OrderProduct("P1", 10, 3), OrderProduct("P2", 20, 2)]
    ensures updates == [ProductQuantity("P1", 2), ProductQuantity("P2", 0)]
  {
    StockLookups();
    assert lines[0] == OrderProduct("P1", 10, 3) && updates[0] == ProductQuantity("P1", 2);
    assert lines[1] == OrderProduct("P2", 20, 2) && updates[1] == ProductQuantity("P2", 0);
  }

  /** Both lines fit; the second asks for exactly the stock left, which
      drops to zero. */
  lemma TwoLinesPlaced(c: Customer)
    ensures
      var order := OrderRequest(c, [OrderProduct("P1", 10, 3), OrderProduct("P2", 20, 2)]);
      Execute(Some(c), Stock, TwoLines)
        == Execution(Ok(order),
                     [CreateOrder(order),
                      UpdateQuantity([ProductQuantity("P1", 2), ProductQuantity("P2", 0)])])
  {
    var e := Execute(Some(c), Stock, TwoLines);
    TwoLinesFit();
    TwoLinesFulfilment(e.result.value.products, e.writes[1].updates);
  }

  /** An unknown id rejects the whole request and nothing is written. */
  lemma UnknownProductRejected(c: Customer)
    ensures Execute(Some(c), Stock, [ProductQuantity("P1", 3), ProductQuantity("P3", 1)])
      == Execution(Err(ProductsNotFound), [])
  {
    StockLookups();
  }

  /** Asking for more than the stock rejects the request. */
  lemma ExcessQuantityRejected(c: Customer)
    ensures Execute(Some(c), Stock, [ProductQuantity("P2", 5)])
      == Execution(Err(InsufficientQuantity), [])
  {
    StockLookups();
  }

  /** A not-found line wins over an insufficient one, even when the
      insufficient line comes first. */
  lemma NotFoundBeatsInsufficient(c: Customer)
    ensures Execute(Some(c), Stock, [ProductQuantity("P2", 5), ProductQuantity("P3", 1)])
      == Execution(Err(ProductsNotFound), [])
  {
    StockLookups();
  }

  const RepeatedLines := [ProductQuantity("P1", 3), ProductQuantity("P1", 3)]

  /** Each repeated line fits the stock of 5 on its own. */
  lemma RepeatedLinesFit()
    ensures !AnyNotFound([P1], RepeatedLines) && !AnyInsufficient([P1], RepeatedLines)
  {
    assert Find([P1], "P1") == Some(P1);
    forall i | 0 <= i < |RepeatedLines|
      ensures HasProduct([P1], RepeatedLines[i].id)
      ensures RepeatedLines[i].quantity <= Find([P1], RepeatedLines[i].id).value.quantity
    {
    }
  }

  /** The only order lines and updates that fulfil `RepeatedLines`. */
  lemma RepeatedLinesFulfilment(lines: seq<OrderProduct>, updates: seq<ProductQuantity>)
    requires Fulfils([P1], RepeatedLines, lines, updates)
    ensures lines == [OrderProduct("P1", 10, 3), OrderProduct("P1", 10, 3)]
    ensures updates == [ProductQuantity("P1", 2), ProductQuantity("P1", 2)]
  {
    assert Find([P1], "P1") == Some(P1);
    assert lines[0] == OrderProduct("P1", 10, 3) && updates[0] == ProductQuantity("P1", 2);
    assert lines[1] == OrderProduct("P1", 10, 3) && updates[1] == ProductQuantity("P1", 2);
  }

  /** Two lines for the same product are not added up: each of 3 units
      passes against a stock of 5, the request for 6 units in all succeeds,
      and both updates set the stock to 2. */
  lemma RepeatedLinesOvercommit(c: Customer)
    ensures
      var order := OrderRequest(c, [OrderProduct("P1", 10, 3), OrderProduct("P1", 10, 3)]);
      Execute(Some(c), [P1], RepeatedLines)
        == Execution(Ok(order),
                     [CreateOrder(order),
                      UpdateQuantity([ProductQuantity("P1", 2), ProductQuantity("P1", 2)])])
  {
    var e := Execute(Some(c), [P1], RepeatedLines);
    RepeatedLinesFit();
    RepeatedLinesFulfilment(e.result.value.products, e.writes[1].updates);
  }
}
