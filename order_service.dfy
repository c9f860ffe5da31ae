/**
 * Order placement, lookup and cancellation (src/modules/order/order.service.ts). The
 * repositories become fields of the service: a map per store, keyed by id. The products
 * the product store returns for the requested ids are an input, and whether a repository
 * `save` succeeds is an input too.
 */
module OrderModule {
  import opened Wrappers
  import opened Exceptions
  import opened OrderItemLifecycle
  import opened Entities

  /** One line of CreateOrderDto: a product id and a count. */
  datatype CreateOrderItemRequest = CreateOrderItemRequest(productId: int, count: int)

  function ProductIds(request: seq<CreateOrderItemRequest>): (ids: seq<int>)
    ensures |ids| == |request|
    ensures forall i | 0 <= i < |request| :: ids[i] == request[i].productId
  {
    if request == [] then [] else ProductIds(request[..|request| - 1]) + [request[|request| - 1].productId]
  }

  /**
   * `new Map(request.map(({productId, count}) => [productId, count]))`: entries are set in
   * order, so a later line for the same product overwrites an earlier one.
   */
  function CountMap(request: seq<CreateOrderItemRequest>): (m: map<int, int>)
    ensures m.Keys == set i | 0 <= i < |request| :: request[i].productId
    decreases |request|
  {
    if request == [] then map[]
    else
      var last := request[|request| - 1];
      CountMap(request[..|request| - 1])[last.productId := last.count]
  }

  /** A product id's count is that of the last line naming it. */
  lemma {:induction false} LastCountWins(request: seq<CreateOrderItemRequest>, i: int)
    requires 0 <= i < |request|
    requires forall j | i < j < |request| :: request[j].productId != request[i].productId
    ensures request[i].productId in CountMap(request)
    ensures CountMap(request)[request[i].productId] == request[i].count
    decreases |request|
  {
    if i < |request| - 1 {
      var prefix := request[..|request| - 1];
      assert prefix[i] == request[i];
      LastCountWins(prefix, i);
    }
  }

  /**
   * An illustration of CountMap and LastCountWins on the smallest duplicate: two lines for one
   * product give one map entry, holding the second count.
   */
  lemma DuplicateLinesCollapse(id: int, first: int, second: int)
    ensures CountMap([CreateOrderItemRequest(id, first), CreateOrderItemRequest(id, second)]) == map[id := second]
  {
    var request := [CreateOrderItemRequest(id, first), CreateOrderItemRequest(id, second)];
    assert request[..1] == [CreateOrderItemRequest(id, first)];
    assert request[..1][..0] == [];
  }

  predicate Distinct(ids: seq<int>)
  {
    forall i, j | 0 <= i < j < |ids| :: ids[i] != ids[j]
  }

  function IdSet(ids: seq<int>): set<int>
  {
    set x | x in ids
  }

  lemma {:induction false} DistinctCardinality(ids: seq<int>)
    requires Distinct(ids)
    ensures |IdSet(ids)| == |ids|
    decreases |ids|
  {
    if ids != [] {
      var prefix := ids[..|ids| - 1];
      DistinctCardinality(prefix);
      var last := ids[|ids| - 1];
      assert ids == prefix + [last];
      assert IdSet(ids) == IdSet(prefix) + {last};
      assert last !in IdSet(prefix);
    }
  }

  /** The count the map yields for a product, `None` where `Map.get` gives `undefined`. */
  function CountFor(p: Product, counts: map<int, int>): Option<int>
    reads p
  {
    if p.id.Some? && p.id.value in counts then Some(counts[p.id.value]) else None
  }

  /**
   * Whether OrderItem.of accepts the product with its count. An `undefined` count is refused as
   * well: both `undefined <= 0` and `quantity > undefined` are false, so `of` throws.
   */
  predicate LineAccepted(p: Product, counts: map<int, int>)
    reads p
  {
    var c := CountFor(p, counts);
    c.Some? && 0 < c.value && p.IsQuantityOrderable(c.value)
  }

  predicate AllLinesAccepted(found: seq<Product>, counts: map<int, int>)
    reads found
  {
    forall i | 0 <= i < |found| :: LineAccepted(found[i], counts)
  }

  /**
   * The items createOrder builds: one PENDING item per found product, in the store's order,
   * holding that product's count; no item points back at an order.
   */
  ghost predicate ItemsBuiltFrom(items: seq<OrderItem>, found: seq<Product>, counts: map<int, int>)
    reads items, found
  {
    && |items| == |found|
    && forall k | 0 <= k < |found| ::
         && items[k].product == found[k]
         && CountFor(found[k], counts) == Some(items[k].count)
         && items[k].status == Pending
         && items[k].order.None?
  }

  /** The order createOrder saves: the looked-up customer and the items built from `found`. */
  ghost predicate BuiltFrom(o: Order, customer: Customer, found: seq<Product>, counts: map<int, int>)
    reads o.orderItems, found
  {
    o.customer == customer && ItemsBuiltFrom(o.orderItems, found, counts)
  }

  /**
   * The `products.map(product => OrderItem.of(...))` step of createOrder: the first refused
   * product's exception propagates; otherwise one fresh item per product.
   */
  method MakeOrderItems(found: seq<Product>, counts: map<int, int>) returns (r: Result<seq<OrderItem>, Exception>)
    ensures r.Success? <==> AllLinesAccepted(found, counts)
    ensures r.Failure? ==> r.error == BadRequest
    ensures r.Success? ==> ItemsBuiltFrom(r.value, found, counts)
    ensures r.Success? ==> forall k | 0 <= k < |r.value| :: fresh(r.value[k])
    ensures r.Success? ==> forall i, j | 0 <= i < j < |r.value| :: r.value[i] != r.value[j]
  {
    var items: seq<OrderItem> := [];
    var i := 0;
    while i < |found|
      invariant 0 <= i <= |found| && |items| == i
      invariant forall k | 0 <= k < i :: LineAccepted(found[k], counts)
      invariant forall k | 0 <= k < i :: fresh(items[k])
      invariant forall k, l | 0 <= k < l < i :: items[k] != items[l]
      invariant forall k | 0 <= k < i ::
                  && items[k].product == found[k]
                  && CountFor(found[k], counts) == Some(items[k].count)
                  && items[k].status == Pending
                  && items[k].order.None?
    {
      var c := CountFor(found[i], counts);
      if c.None? {
        return Failure(BadRequest);
      }
      var item := OrderItem.Of(found[i], c.value);
      if item.Failure? {
        return Failure(item.error);
      }
      items := items + [item.value];
      i := i + 1;
    }
    return Success(items);
  }

  /** The ids of products loaded from the store, which all carry one. */
  function FoundIds(found: seq<Product>): (ids: seq<int>)
    requires forall i | 0 <= i < |found| :: found[i].id.Some?
    reads found
    ensures |ids| == |found|
    ensures forall i | 0 <= i < |found| :: ids[i] == found[i].id.value
  {
    if found == [] then [] else FoundIds(found[..|found| - 1]) + [found[|found| - 1].id.value]
  }

  /**
   * With distinct product ids in the request, and the store returning exactly the requested
   * products, one each, the order createOrder builds has one item per request line.
   */
  lemma OneItemPerRequestLine(request: seq<CreateOrderItemRequest>, found: seq<Product>, o: Order, customer: Customer)
    requires forall i, j | 0 <= i < j < |request| :: request[i].productId != request[j].productId
    requires forall i | 0 <= i < |found| :: found[i].id.Some?
    requires Distinct(FoundIds(found))
    requires IdSet(FoundIds(found)) == IdSet(ProductIds(request))
    requires BuiltFrom(o, customer, found, CountMap(request))
    ensures |o.orderItems| == |request|
  {
    var ids := ProductIds(request);
    assert Distinct(ids);
    DistinctCardinality(ids);
    DistinctCardinality(FoundIds(found));
  }

  /** OrderService with its repositories. */
  class OrderService {
    /** The customer query repository, by id. */
    var customers: map<int, Customer>
    /** The order repository's rows, by id, and the next id it assigns. */
    var orders: map<int, Order>
    var nextOrderId: int
    /** The order-item query repository: the item entities it hands out, by id. */
    var orderItems: map<int, OrderItem>
    /** The status column the order-item repository has written, by item id. */
    var persistedStatus: map<int, OrderItemStatus>

    /**
     * Customers are stored under their own ids; order ids are positive, below the next one to
     * be assigned, and stored in their order.
     */
    ghost predicate Valid()
      reads this, customers.Values
    {
      && (forall k | k in customers :: customers[k].id == Some(k))
      && 1 <= nextOrderId
      && forall k | k in orders :: 1 <= k < nextOrderId && orders[k].id == Some(k)
    }

    constructor (customers: map<int, Customer>, orderItems: map<int, OrderItem>)
      requires forall k | k in customers :: customers[k].id == Some(k)
      ensures Valid()
      ensures this.customers == customers && this.orderItems == orderItems
      ensures orders == map[] && persistedStatus == map[]
    {
      this.customers := customers;
      this.orders := map[];
      this.nextOrderId := 1;
      this.orderItems := orderItems;
      this.persistedStatus := map[];
    }

    /** orderRepository.save on a new order: stores it under a fresh id and returns that id. */
    method SaveOrder(o: Order) returns (id: int)
      requires Valid()
      modifies this`orders, this`nextOrderId
      ensures Valid()
      ensures id == old(nextOrderId) && id !in old(orders)
      ensures orders == old(orders)[id := o.(id := Some(id))]
      ensures nextOrderId == id + 1
    {
      id := nextOrderId;
      orders := orders[id := o.(id := Some(id))];
      nextOrderId := nextOrderId + 1;
    }

    /**
     * createOrder. A missing customer is a BadRequest. Every product the store returned must
     * yield an order item (else the OrderItem.of exception propagates); requested products the
     * store did not return are dropped. Nothing is saved on failure, and no product's stock is
     * decremented, on success either.
     */
    method CreateOrder(customerId: int, request: seq<CreateOrderItemRequest>, found: seq<Product>, saveSucceeds: bool)
      returns (r: Result<int, Exception>)
      requires Valid()
      modifies this`orders, this`nextOrderId
      ensures Valid()
      ensures r.Success? <==> customerId in customers && AllLinesAccepted(found, CountMap(request)) && saveSucceeds
      ensures customerId !in customers ==> r == Failure(BadRequest)
      ensures customerId in customers && !AllLinesAccepted(found, CountMap(request)) ==> r == Failure(BadRequest)
      ensures r == Failure(StoreFailure) <==>
                customerId in customers && AllLinesAccepted(found, CountMap(request)) && !saveSucceeds
      ensures r.Failure? ==> orders == old(orders) && nextOrderId == old(nextOrderId)
      ensures r.Success? ==> r.value == old(nextOrderId) && r.value !in old(orders)
      ensures r.Success? ==> r.value in orders && orders == old(orders)[r.value := orders[r.value]]
      ensures r.Success? ==> BuiltFrom(orders[r.value], customers[customerId], found, CountMap(request))
      ensures r.Success? ==> forall k | 0 <= k < |orders[r.value].orderItems| :: fresh(orders[r.value].orderItems[k])
      ensures r.Success? ==> FindOrder(r.value) == Some(orders[r.value]) && r.value in FindOrders(customerId)
      ensures forall p | p in found :: p.quantity == old(p.quantity)
    {
      if customerId !in customers {
        return Failure(BadRequest);
      }
      var customer := customers[customerId];
      var items := MakeOrderItems(found, CountMap(request));
      if items.Failure? {
        return Failure(items.error);
      }
      var order := Order.Of(customer, items.value);
      if !saveSucceeds {
        return Failure(StoreFailure);
      }
      var id := SaveOrder(order);
      assert orders[id].customer.id == Some(customerId);
      return Success(id);
    }

    /** findOrder: the stored order with that id, or `null`; it does not throw NotFound. */
    function FindOrder(id: int): (r: Option<Order>)
      requires Valid()
      reads this, customers.Values
      ensures r.Some? <==> id in orders
      ensures r.Some? ==> r.value.id == Some(id) && r.value == orders[id]
    {
      if id in orders then Some(orders[id]) else None
    }

    /** findOrders: the stored orders of one customer, by order id. */
    function FindOrders(customerId: int): (r: map<int, Order>)
      requires Valid()
      reads this, customers.Values, set k | k in orders :: orders[k].customer
      ensures forall k :: k in r <==> k in orders && orders[k].customer.id == Some(customerId)
      ensures forall k | k in r :: r[k] == orders[k] && r[k].id == Some(k)
    {
      map k | k in orders && orders[k].customer.id == Some(customerId) :: orders[k]
    }

    /**
     * cancleOrderItem: NotFound for an unknown id; otherwise the item is cancelled, whatever its
     * status, and saved. A failing save is caught and logged, so the call succeeds anyway.
     */
    method CancleOrderItem(orderItemId: int, saveSucceeds: bool) returns (r: Outcome<Exception>)
      requires Valid()
      modifies this`persistedStatus, if orderItemId in orderItems then {orderItems[orderItemId]} else {}
      ensures Valid()
      ensures orderItemId !in orderItems ==> r == Fail(NotFound) && persistedStatus == old(persistedStatus)
      ensures orderItemId in orderItems ==> r == Pass && orderItems[orderItemId].status == Cancelled
      ensures orderItemId in orderItems ==>
                && orderItems[orderItemId].count == old(orderItems[orderItemId].count)
                && orderItems[orderItemId].product == old(orderItems[orderItemId].product)
                && orderItems[orderItemId].order == old(orderItems[orderItemId].order)
                && orderItems[orderItemId].id == old(orderItems[orderItemId].id)
      ensures orderItemId in orderItems && saveSucceeds ==>
                persistedStatus == old(persistedStatus)[orderItemId := Cancelled]
      ensures orderItemId in orderItems && !saveSucceeds ==> persistedStatus == old(persistedStatus)
    {
      if orderItemId !in orderItems {
        return Fail(NotFound);
      }
      var item := orderItems[orderItemId];
      item.Cancle();
      if saveSucceeds {
        persistedStatus := persistedStatus[orderItemId := item.status];
      }
      return Pass;
    }
  }
}
