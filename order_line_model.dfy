/**
 * Entities, transfer objects and errors of the order-line service, with the
 * two mappings its constructor configures: request to entity (resolving the
 * product and order ids against their repositories) and entity to response.
 */
module OrderLineModel {
  import opened Wrappers
  import Decimal

  /**
   * Identifiers as callers pass them (`Long`, possibly negative).  The ids the
   * store issues are never negative; a negative id is simply never found.
   */
  type Id = int

  datatype Product = Product(productId: Id, name: string)

  datatype Order = Order(orderId: Id)

  /** The persisted order line; `orderLineId` is null until the store assigns one. */
  datatype OrderLine = OrderLine(orderLineId: Option<Id>, order: Option<Order>, product: Product, quantity: int)

  /** The request body: the order reference is optional, the product reference is not. */
  datatype OrderLineRequest = OrderLineRequest(orderId: Option<Id>, productId: Id, quantity: int)

  datatype OrderLineResponse = OrderLineResponse(
    orderLineId: Option<Id>,
    orderId: Option<Id>,
    productId: Id,
    productName: Option<string>,
    quantity: int)

  datatype Entity = ProductEntity | OrderEntity | OrderLineEntity

  /** The not-found exception; it names the kind of entity and the missing id. */
  datatype NotFound = NotFound(entity: Entity, id: Id) {
    function Message(): string
    {
      Label(entity) + " not found with ID: " + Decimal.Show(id)
    }
  }

  function Label(e: Entity): string
  {
    match e
    case ProductEntity => "Product"
    case OrderEntity => "Order"
    case OrderLineEntity => "OrderLine"
  }

  /** Every product is stored under its own id. */
  ghost predicate ProductsKeyed(products: map<Id, Product>)
  {
    forall k :: k in products ==> products[k].productId == k
  }

  /** Every order is stored under its own id. */
  ghost predicate OrdersKeyed(orders: map<Id, Order>)
  {
    forall k :: k in orders ==> orders[k].orderId == k
  }

  /** The message of a not-found error reads back as the id it was raised for. */
  lemma MessageNamesId(e: NotFound)
    ensures |e.Message()| > |Label(e.entity) + " not found with ID: "|
    ensures Decimal.Read(e.Message()[|Label(e.entity) + " not found with ID: "|..]) == e.id
  {
    var prefix := Label(e.entity) + " not found with ID: ";
    assert e.Message()[|prefix|..] == Decimal.Show(e.id);
    Decimal.ReadShow(e.id);
  }

  /** Two not-found messages for the same kind of entity are equal only for the same id. */
  lemma MessageInjective(e: Entity, m: Id, n: Id)
    requires NotFound(e, m).Message() == NotFound(e, n).Message()
    ensures m == n
  {
    MessageNamesId(NotFound(e, m));
    MessageNamesId(NotFound(e, n));
  }

  /** The converter from a product id to the stored product. */
  function ProductById(products: map<Id, Product>, id: Id): (r: Result<Product, NotFound>)
    ensures r.Success? <==> id in products
    ensures r.Success? ==> r.value == products[id]
    ensures r.Failure? ==> r.error == NotFound(ProductEntity, id)
  {
    if id in products then Success(products[id]) else Failure(NotFound(ProductEntity, id))
  }

  /** The converter from an order id to the stored order. */
  function OrderById(orders: map<Id, Order>, id: Id): (r: Result<Order, NotFound>)
    ensures r.Success? <==> id in orders
    ensures r.Success? ==> r.value == orders[id]
    ensures r.Failure? ==> r.error == NotFound(OrderEntity, id)
  {
    if id in orders then Success(orders[id]) else Failure(NotFound(OrderEntity, id))
  }

  /**
   * Maps a request onto an entity whose id is `id` and whose order is
   * `currentOrder`: a present order id replaces the order, an absent one
   * leaves it as it was; the product id is always resolved; the quantity is
   * copied.  The order mapping is declared first and is resolved first.
   */
  function ToEntity(products: map<Id, Product>, orders: map<Id, Order>, req: OrderLineRequest,
                    id: Option<Id>, currentOrder: Option<Order>): (r: Result<OrderLine, NotFound>)
    ensures r.Success? <==> req.productId in products && (req.orderId.Some? ==> req.orderId.value in orders)
    ensures req.orderId.Some? && req.orderId.value !in orders ==>
              r == Failure(NotFound(OrderEntity, req.orderId.value))
    ensures (req.orderId.Some? ==> req.orderId.value in orders) && req.productId !in products ==>
              r == Failure(NotFound(ProductEntity, req.productId))
    ensures r.Success? ==>
              && r.value.orderLineId == id
              && r.value.product == products[req.productId]
              && r.value.order == (if req.orderId.Some? then Some(orders[req.orderId.value]) else currentOrder)
              && r.value.quantity == req.quantity
  {
    var order :=
      if req.orderId.Some? then
        match OrderById(orders, req.orderId.value)
        case Success(o) => Success(Some(o))
        case Failure(e) => Failure(e)
      else Success(currentOrder);
    match order
    case Failure(e) => Failure(e)
    case Success(o) =>
      match ProductById(products, req.productId)
      case Failure(e) => Failure(e)
      case Success(p) => Success(OrderLine(id, o, p, req.quantity))
  }

  /** Maps an entity to its response: product id and order id are read through the references. */
  function ToResponse(line: OrderLine): (r: OrderLineResponse)
  {
    OrderLineResponse(
      line.orderLineId,
      if line.order.Some? then Some(line.order.value.orderId) else None,
      line.product.productId,
      None,
      line.quantity)
  }

  /**
   * Mapping a request to an entity and the entity to a response gives back
   * the request's product id, order id and quantity, and the entity's id.
   */
  lemma ResponseEchoesRequest(products: map<Id, Product>, orders: map<Id, Order>, req: OrderLineRequest,
                              id: Option<Id>)
    requires ProductsKeyed(products) && OrdersKeyed(orders)
    requires ToEntity(products, orders, req, id, None).Success?
    ensures var resp := ToResponse(ToEntity(products, orders, req, id, None).value);
            resp.productId == req.productId && resp.orderId == req.orderId
            && resp.quantity == req.quantity && resp.orderLineId == id
  {
  }
}
