/**
 * The order-line service: create, update and delete change the order-line
 * table in place; the product and order tables are only read.  The table's
 * identity generator is `nextId`, the id the next saved line receives.
 */
module OrderLineService {
  import opened Wrappers
  import opened OrderLineModel
  import opened OrderLineQueries

  class OrderLineService {
    const products: map<Id, Product>
    const orders: map<Id, Order>
    var lines: map<Id, OrderLine>
    var nextId: nat

    /**
     * Products and orders are stored under their own ids; every stored line
     * carries its key as its id, lies below the identity generator, and
     * refers to a product and (if any) an order of those tables.
     */
    ghost predicate Valid()
      reads this
    {
      && ProductsKeyed(products)
      && OrdersKeyed(orders)
      && IdsWithin(lines, nextId)
      && (forall k :: k in lines ==> lines[k].orderLineId == Some(k))
      && (forall k :: k in lines ==> References(lines[k]))
    }

    ghost predicate References(line: OrderLine)
      reads this
    {
      && line.product.productId in products
      && products[line.product.productId] == line.product
      && (line.order.Some? ==> line.order.value.orderId in orders && orders[line.order.value.orderId] == line.order.value)
    }

    /**
     * Wires the service to the repositories as they stand: `lines` is the
     * order-line table's current content and `nextId` its identity generator.
     */
    constructor (products: map<Id, Product>, orders: map<Id, Order>, lines: map<Id, OrderLine>, nextId: nat)
      requires ProductsKeyed(products) && OrdersKeyed(orders) && IdsWithin(lines, nextId)
      requires forall k :: k in lines ==> lines[k].orderLineId == Some(k)
      requires forall k :: k in lines ==>
                 && lines[k].product.productId in products
                 && products[lines[k].product.productId] == lines[k].product
                 && (lines[k].order.Some? ==>
                       lines[k].order.value.orderId in orders && orders[lines[k].order.value.orderId] == lines[k].order.value)
      ensures Valid()
      ensures this.products == products && this.orders == orders
      ensures this.lines == lines && this.nextId == nextId
    {
      this.products := products;
      this.orders := orders;
      this.lines := lines;
      this.nextId := nextId;
    }

    /**
     * createOrderLine: the product must exist, and so must the order when
     * one is named; otherwise nothing is saved.  The response is built
     * before the save, so it carries no line id.
     */
    method CreateOrderLine(req: OrderLineRequest) returns (r: Result<OrderLineResponse, NotFound>)
      requires Valid()
      modifies this
      ensures Valid()
      ensures r.Success? <==> req.productId in products && (req.orderId.Some? ==> req.orderId.value in orders)
      ensures req.productId !in products ==> r == Failure(NotFound(ProductEntity, req.productId))
      ensures req.productId in products && req.orderId.Some? && req.orderId.value !in orders ==>
                r == Failure(NotFound(OrderEntity, req.orderId.value))
      ensures r.Failure? ==> lines == old(lines) && nextId == old(nextId)
      ensures r.Success? ==>
                && old(nextId) !in old(lines)
                && lines == old(lines)[old(nextId) := ToEntity(products, orders, req, Some(old(nextId)), None).value]
                && |lines| == |old(lines)| + 1
                && nextId > old(nextId)
      ensures r.Success? ==>
                ToResponse(lines[old(nextId)]) == r.value.(orderLineId := Some(old(nextId)), productName := None)
      ensures r.Success? ==>
                r.value == OrderLineResponse(None, req.orderId, req.productId, Some(products[req.productId].name), req.quantity)
    {
      var found := ProductById(products, req.productId);
      if found.Failure? {
        return Failure(found.error);
      }
      var product := found.value;
      var mapped := ToEntity(products, orders, req, None, None);
      if mapped.Failure? {
        return Failure(mapped.error);
      }
      var line := mapped.value;
      var response := ToResponse(line).(productName := Some(product.name));
      var id := nextId;
      lines := lines[id := line.(orderLineId := Some(id))];
      nextId := nextId + 1;
      r := Success(response);
    }

    /**
     * updateOrderLine: the line must exist; the request is mapped onto it
     * (resolving its references) and the result saved under the same id.
     */
    method UpdateOrderLine(id: Id, req: OrderLineRequest) returns (r: Result<OrderLineResponse, NotFound>)
      requires Valid()
      modifies this
      ensures Valid() && nextId == old(nextId)
      ensures id !in old(lines) ==> r == Failure(NotFound(OrderLineEntity, id))
      ensures id in old(lines) ==>
                (r.Success? <==> req.productId in products && (req.orderId.Some? ==> req.orderId.value in orders))
      ensures id in old(lines) ==>
                var mapped := ToEntity(products, orders, req, Some(id), old(lines)[id].order);
                && (mapped.Failure? ==> r == Failure(mapped.error))
                && (mapped.Success? ==> lines == old(lines)[id := mapped.value] && r == Success(ToResponse(mapped.value)))
      ensures r.Failure? ==> lines == old(lines)
      ensures r.Success? ==>
                && lines.Keys == old(lines).Keys
                && r.value.orderLineId == Some(id)
                && r.value.productId == req.productId
                && r.value.quantity == req.quantity
                && (req.orderId.Some? ==> r.value.orderId == req.orderId)
                && (req.orderId.None? ==> lines[id].order == old(lines)[id].order)
    {
      if id !in lines {
        return Failure(NotFound(OrderLineEntity, id));
      }
      var line := lines[id];
      var mapped := ToEntity(products, orders, req, line.orderLineId, line.order);
      if mapped.Failure? {
        return Failure(mapped.error);
      }
      lines := lines[id := mapped.value];
      r := Success(ToResponse(mapped.value));
    }

    /** deleteOrderLine: not-found when absent, else exactly that line is removed. */
    method DeleteOrderLine(id: Id) returns (r: Outcome<NotFound>)
      requires Valid()
      modifies this
      ensures Valid() && nextId == old(nextId)
      ensures r.Fail? <==> id !in old(lines)
      ensures r.Fail? ==> r.error == NotFound(OrderLineEntity, id) && lines == old(lines)
      ensures r.Pass? ==> lines == old(lines) - {id} && |lines| == |old(lines)| - 1
      ensures FindOrderLine(lines, id) == Failure(NotFound(OrderLineEntity, id))
      ensures forall k :: k != id ==> FindOrderLine(lines, k) == FindOrderLine(old(lines), k)
    {
      if id !in lines {
        return Fail(NotFound(OrderLineEntity, id));
      }
      lines := lines - {id};
      r := Pass;
    }
  }
}
