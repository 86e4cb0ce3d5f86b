/**
  The records the order-creation use case reads and produces.

  The repositories of the service (customers, products, orders) are
  replaced by plain values: the customer lookup becomes an `Option<Customer>`,
  the batched product lookup becomes the sequence of products it returned, and
  the two writes the service issues become entries of a write log.
 */
module OrderTypes {

  /** The result of a lookup that may find nothing. */
  datatype Option<+T> = None | Some(value: T)

  /** A customer record; only its existence matters to the use case. */
  datatype Customer = Customer(id: string)

  /** A stored product as returned by the product lookup. The price is only
      copied into order lines, never computed on. */
  datatype Product = Product(id: string, price: int, quantity: int)

  /** An id with a quantity. The service uses this one shape for three things:
      a requested line, a line rejected into an error bucket, and an
      absolute-quantity update sent back to the product store. */
  datatype ProductQuantity = ProductQuantity(id: string, quantity: int)

  /** One line of the order: the product, its price at order time and the
      requested quantity. */
  datatype OrderProduct = OrderProduct(productId: string, price: int, quantity: int)

  /** What the service hands to the order store: the customer and all lines. */
  datatype OrderRequest = OrderRequest(customer: Customer, products: seq<OrderProduct>)

  /** The three ways the use case can fail. */
  datatype OrderError = CustomerNotFound | ProductsNotFound | InsufficientQuantity

  /** Either the order that was created or the reason it was not. */
  datatype Result<+T> = Ok(value: T) | Err(error: OrderError)

  /** A write the use case issues to a collaborator. */
  datatype Write =
    | CreateOrder(order: OrderRequest)
    | UpdateQuantity(updates: seq<ProductQuantity>)

  /** The observable behaviour of one call: its result and the writes it
      issued, in the order it issued them. */
  datatype Execution = Execution(result: Result<OrderRequest>, writes: seq<Write>)
}
