/**
 * The read-only operations of the order-line service, as functions of the
 * order-line table.  The table is a map from id to stored line; every id it
 * holds lies in [0, bound), `bound` being the next id the store would issue.
 * Listings come in ascending id order.
 */
module OrderLineQueries {
  import opened Wrappers
  import opened OrderLineModel

  /** getOrderLineById: the mapped stored line, or not-found naming the id. */
  function FindOrderLine(lines: map<Id, OrderLine>, id: Id): (r: Result<OrderLineResponse, NotFound>)
    ensures r.Failure? <==> id !in lines
    ensures r.Failure? ==> r.error == NotFound(OrderLineEntity, id)
    ensures r.Success? ==> r.value == ToResponse(lines[id])
  {
    if id in lines then Success(ToResponse(lines[id])) else Failure(NotFound(OrderLineEntity, id))
  }

  /** Every stored id lies in [0, bound): the store issued it. */
  predicate IdsWithin(lines: map<Id, OrderLine>, bound: nat)
  {
    forall k :: k in lines ==> 0 <= k < bound
  }

  /** The ids of the table in [0, n), in ascending order. */
  function IdsBelow(lines: map<Id, OrderLine>, n: nat): (r: seq<Id>)
    ensures forall i :: 0 <= i < |r| ==> r[i] in lines && 0 <= r[i] < n
    ensures forall k :: k in lines && 0 <= k < n ==> k in r
    ensures forall i, j :: 0 <= i < j < |r| ==> r[i] < r[j]
    decreases n
  {
    if n == 0 then []
    else
      var prev := IdsBelow(lines, n - 1);
      if n - 1 in lines then
        assert forall i :: 0 <= i < |prev| ==> prev[i] < n - 1;
        prev + [n - 1]
      else prev
  }

  /** The ids among `ids` whose line belongs to `order`, in the same order. */
  function IdsOfOrder(lines: map<Id, OrderLine>, ids: seq<Id>, order: Order): (r: seq<Id>)
    requires forall i :: 0 <= i < |ids| ==> ids[i] in lines
    requires forall i, j :: 0 <= i < j < |ids| ==> ids[i] < ids[j]
    ensures forall i :: 0 <= i < |r| ==> r[i] in lines
    ensures forall k :: k in r <==> k in ids && lines[k].order == Some(order)
    ensures forall i, j :: 0 <= i < j < |r| ==> r[i] < r[j]
    decreases |ids|
  {
    if ids == [] then []
    else
      var rest := IdsOfOrder(lines, ids[1..], order);
      assert forall k :: k in ids[1..] ==> k in ids && ids[0] < k;
      if lines[ids[0]].order == Some(order) then [ids[0]] + rest else rest
  }

  /** The ids of the table below `bound` whose line belongs to `order`, ascending. */
  function LineIdsOfOrder(lines: map<Id, OrderLine>, bound: nat, order: Order): (r: seq<Id>)
    ensures forall i :: 0 <= i < |r| ==> r[i] in lines
    ensures forall k :: k in r <==> k in lines && 0 <= k < bound && lines[k].order == Some(order)
    ensures forall i, j :: 0 <= i < j < |r| ==> r[i] < r[j]
  {
    IdsOfOrder(lines, IdsBelow(lines, bound), order)
  }

  /** One response per id, in the order of `ids`. */
  function Responses(lines: map<Id, OrderLine>, ids: seq<Id>): (r: seq<OrderLineResponse>)
    requires forall i :: 0 <= i < |ids| ==> ids[i] in lines
    ensures |r| == |ids|
    ensures forall i :: 0 <= i < |ids| ==> r[i] == ToResponse(lines[ids[i]])
  {
    seq(|ids|, i requires 0 <= i < |ids| => ToResponse(lines[ids[i]]))
  }

  /** getAllOrderLines: one response per stored line, in ascending id order. */
  function AllOrderLines(lines: map<Id, OrderLine>, bound: nat): (r: seq<OrderLineResponse>)
    requires IdsWithin(lines, bound)
  {
    Responses(lines, IdsBelow(lines, bound))
  }

  /** getOrderLinesByOrderId: not-found when the order does not exist, else the order's lines. */
  function OrderLinesByOrderId(orders: map<Id, Order>, lines: map<Id, OrderLine>, bound: nat, orderId: Id)
    : (r: Result<seq<OrderLineResponse>, NotFound>)
    requires IdsWithin(lines, bound)
    ensures r.Failure? <==> orderId !in orders
    ensures r.Failure? ==> r.error == NotFound(OrderEntity, orderId)
    ensures r.Success? ==> r.value == Responses(lines, LineIdsOfOrder(lines, bound, orders[orderId]))
  {
    if orderId !in orders then Failure(NotFound(OrderEntity, orderId))
    else Success(Responses(lines, LineIdsOfOrder(lines, bound, orders[orderId])))
  }

  /** The ids of the table below `n`, as a set. */
  ghost function KeysBelow(lines: map<Id, OrderLine>, n: nat): set<Id>
  {
    set k | k in lines && 0 <= k < n
  }

  /** Raising the bound by one adds that one id to the stored ids below it exactly when it is stored. */
  lemma KeysBelowStep(lines: map<Id, OrderLine>, n: nat)
    requires n > 0
    ensures |KeysBelow(lines, n)| == |KeysBelow(lines, n - 1)| + (if n - 1 in lines then 1 else 0)
  {
    var prev := KeysBelow(lines, n - 1);
    if n - 1 in lines {
      assert KeysBelow(lines, n) == prev + {n - 1};
      assert n - 1 !in prev;
    } else {
      assert KeysBelow(lines, n) == prev;
    }
  }

  /** Raising the bound by one adds one entry to the listing exactly when that id is stored. */
  lemma IdsBelowStep(lines: map<Id, OrderLine>, n: nat)
    requires n > 0
    ensures |IdsBelow(lines, n)| == |IdsBelow(lines, n - 1)| + (if n - 1 in lines then 1 else 0)
  {
  }

  /** How many ids in [0, n) are stored. */
  function CountBelow(lines: map<Id, OrderLine>, n: nat): nat
  {
    if n == 0 then 0 else CountBelow(lines, n - 1) + (if n - 1 in lines then 1 else 0)
  }

  lemma {:induction false} IdsBelowLength(lines: map<Id, OrderLine>, n: nat)
    ensures |IdsBelow(lines, n)| == CountBelow(lines, n)
  {
    if n > 0 {
      IdsBelowLength(lines, n - 1);
      IdsBelowStep(lines, n);
    }
  }

  lemma {:induction false} KeysBelowSize(lines: map<Id, OrderLine>, n: nat)
    ensures |KeysBelow(lines, n)| == CountBelow(lines, n)
  {
    if n == 0 {
      assert KeysBelow(lines, n) == {};
    } else {
      KeysBelowSize(lines, n - 1);
      KeysBelowStep(lines, n);
    }
  }

  /** The listing has as many entries as there are stored ids below the bound. */
  lemma IdsBelowCount(lines: map<Id, OrderLine>, n: nat)
    ensures |IdsBelow(lines, n)| == |KeysBelow(lines, n)|
  {
    IdsBelowLength(lines, n);
    KeysBelowSize(lines, n);
  }

  /**
   * When every stored id is below the bound, the full listing has exactly
   * one response per stored line, and each stored line appears in it.
   */
  lemma AllOrderLinesComplete(lines: map<Id, OrderLine>, bound: nat)
    requires IdsWithin(lines, bound)
    ensures |AllOrderLines(lines, bound)| == |lines|
    ensures forall k :: k in lines ==> ToResponse(lines[k]) in AllOrderLines(lines, bound)
  {
    IdsBelowCount(lines, bound);
    assert KeysBelow(lines, bound) == lines.Keys;
    var ids := IdsBelow(lines, bound);
    var r := AllOrderLines(lines, bound);
    forall k | k in lines
      ensures ToResponse(lines[k]) in r
    {
      var i :| 0 <= i < |ids| && ids[i] == k;
      assert r[i] == ToResponse(lines[k]);
    }
  }

  /**
   * Listing an existing order's lines yields one response for each stored
   * line that belongs to that order and nothing else, in ascending id order.
   */
  lemma OrderLinesByOrderIdExact(orders: map<Id, Order>, lines: map<Id, OrderLine>, bound: nat, orderId: Id)
    requires IdsWithin(lines, bound)
    requires orderId in orders
    ensures var r := OrderLinesByOrderId(orders, lines, bound, orderId);
            var ids := LineIdsOfOrder(lines, bound, orders[orderId]);
            && r.Success?
            && |r.value| == |ids|
            && (forall k :: k in ids <==> k in lines && lines[k].order == Some(orders[orderId]))
            && (forall i :: 0 <= i < |ids| ==> r.value[i] == ToResponse(lines[ids[i]]))
  {
  }
}
