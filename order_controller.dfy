/** The order handlers: placing an order priced from the catalog, listing,
    fetching, updating the status of and deleting orders. */
module OrderController {
  import opened Common
  import opened Decimal
  import opened OrderModel
  import opened ProductController

  /** The body of `POST /orders`. Without `items` the pricing loop throws. */
  datatype OrderRequest = OrderRequest(items: Option<seq<ItemFields>>, paymentMethod: Option<string>, address: Option<Id>)

  /** `Product.findById(item.product)` finds a product. */
  predicate InCatalog(item: ItemFields, catalog: map<Id, Product>) {
    item.product.Some? && item.product.value in catalog
  }

  predicate AllInCatalog(items: seq<ItemFields>, catalog: map<Id, Product>) {
    forall k :: 0 <= k < |items| ==> InCatalog(items[k], catalog)
  }

  /** `${item.product}` */
  function ShowId(id: Option<Id>): string {
    if id.Some? then id.value else "undefined"
  }

  /** The message of the 404 for a line item whose product is missing. */
  function ProductNotFound(id: Option<Id>): string {
    "Product with ID " + ShowId(id) + " not found"
  }

  /** The position of the first line item whose product is missing, if any. */
  function FirstMissing(items: seq<ItemFields>, catalog: map<Id, Product>): (r: Option<nat>)
    ensures r.None? <==> AllInCatalog(items, catalog)
    ensures r.Some? ==> && r.value < |items|
                        && !InCatalog(items[r.value], catalog)
                        && forall k :: 0 <= k < r.value ==> InCatalog(items[k], catalog)
  {
    if items == [] then None
    else if !InCatalog(items[0], catalog) then Some(0)
    else match FirstMissing(items[1..], catalog)
      case None => None
      case Some(k) => Some(k + 1)
  }

  /** JavaScript addition on numbers that may be NaN (`None`). */
  function AddAmount(a: Option<int>, b: Option<int>): (r: Option<int>)
    ensures r.Some? <==> a.Some? && b.Some?
    ensures r.Some? ==> r.value == a.value + b.value
  {
    if a.Some? && b.Some? then Some(a.value + b.value) else None
  }

  /** `product.salePrice * item.quantity`: NaN when either is undefined. */
  function LineAmount(item: ItemFields, p: Product): (r: Option<int>)
    ensures r.Some? <==> p.salePrice.Some? && item.quantity.Some?
    ensures r.Some? ==> r.value == p.salePrice.value * item.quantity.value
  {
    if p.salePrice.Some? && item.quantity.Some? then Some(p.salePrice.value * item.quantity.value) else None
  }

  /** The order total: the sum over the line items of the catalog's sale
      price times the requested quantity. */
  function Total(items: seq<ItemFields>, catalog: map<Id, Product>): Option<int>
    requires AllInCatalog(items, catalog)
  {
    if items == [] then Some(0)
    else
      var last := items[|items| - 1];
      AddAmount(Total(items[..|items| - 1], catalog), LineAmount(last, catalog[last.product.value]))
  }

  /** The total is a number exactly when every quantity is given and every
      product ordered has a sale price. */
  lemma {:induction false} TotalDefined(items: seq<ItemFields>, catalog: map<Id, Product>)
    requires AllInCatalog(items, catalog)
    ensures Total(items, catalog).Some? <==>
            forall k :: 0 <= k < |items| ==>
              items[k].quantity.Some? && catalog[items[k].product.value].salePrice.Some?
  {
    if items != [] {
      var init := items[..|items| - 1];
      assert forall k :: 0 <= k < |init| ==> init[k] == items[k];
      TotalDefined(init, catalog);
    }
  }

  /** The price a caller puts on a line item never enters the total: two
      requests that agree on products and quantities have the same total. */
  lemma {:induction false} TotalIgnoresCallerPrice(a: seq<ItemFields>, b: seq<ItemFields>, catalog: map<Id, Product>)
    requires AllInCatalog(a, catalog)
    requires |a| == |b|
    requires forall k :: 0 <= k < |a| ==> a[k].product == b[k].product && a[k].quantity == b[k].quantity
    ensures AllInCatalog(b, catalog)
    ensures Total(a, catalog) == Total(b, catalog)
  {
    if a != [] {
      var n := |a| - 1;
      assert forall k :: 0 <= k < n ==> a[..n][k] == a[k] && b[..n][k] == b[k];
      TotalIgnoresCallerPrice(a[..n], b[..n], catalog);
    }
  }

  /** Totals add up over concatenated item lists. */
  lemma {:induction false} TotalAppend(a: seq<ItemFields>, b: seq<ItemFields>, catalog: map<Id, Product>)
    requires AllInCatalog(a, catalog) && AllInCatalog(b, catalog)
    ensures AllInCatalog(a + b, catalog)
    ensures Total(a + b, catalog) == AddAmount(Total(a, catalog), Total(b, catalog))
  {
    assert forall k :: 0 <= k < |a + b| ==> (a + b)[k] == if k < |a| then a[k] else b[k - |a|];
    if b == [] {
      assert a + b == a;
    } else {
      var n := |b| - 1;
      assert (a + b)[..|a + b| - 1] == a + b[..n];
      assert forall k :: 0 <= k < n ==> b[..n][k] == b[k];
      TotalAppend(a, b[..n], catalog);
    }
  }

  /** One product with sale price 100 ordered twice costs 200, whatever price
      the caller wrote on the line. */
  lemma SingleLineTotal(p: Product, id: Id, callerPrice: Option<int>)
    requires p.salePrice == Some(100)
    ensures Total([ItemFields(Some(id), Some(2), callerPrice)], map[id := p]) == Some(200)
  {
    var items := [ItemFields(Some(id), Some(2), callerPrice)];
    assert items[..0] == [];
  }

  /** The pricing loop of `createOrder`: it stops at the first line item
      whose product is missing and names that product; otherwise it yields
      the order total. */
  method TallyItems(items: seq<ItemFields>, catalog: map<Id, Product>) returns (r: Outcome<Option<int>>)
    ensures FirstMissing(items, catalog).Some? ==>
              r == NotFound(ProductNotFound(items[FirstMissing(items, catalog).value].product))
    ensures FirstMissing(items, catalog).None? ==> r == Ok(Total(items, catalog))
  {
    var total: Option<int> := Some(0);
    var i := 0;
    while i < |items|
      invariant 0 <= i <= |items|
      invariant AllInCatalog(items[..i], catalog)
      invariant total == Total(items[..i], catalog)
    {
      var item := items[i];
      if !InCatalog(item, catalog) {
        assert forall k :: 0 <= k < i ==> items[..i][k] == items[k];
        r := NotFound(ProductNotFound(item.product));
        return;
      }
      assert items[..i + 1][..i] == items[..i];
      total := AddAmount(total, LineAmount(item, catalog[item.product.value]));
      i := i + 1;
    }
    assert items[..i] == items;
    r := Ok(total);
  }

  /** The order number `ORD-<now>-<count + 1>`. */
  function OrderNumber(now: nat, count: nat): (r: string)
    ensures |r| >= 7 && r[..4] == "ORD-"
  {
    "ORD-" + NatToString(now) + "-" + NatToString(count + 1)
  }

  /** The position of the first `c` in `s`, or `|s|`. */
  function IndexOf(s: string, c: char): (i: nat)
    ensures i <= |s|
    ensures i < |s| ==> s[i] == c
    ensures forall k :: 0 <= k < i ==> s[k] != c
  {
    if s == [] then 0
    else if s[0] == c then 0
    else 1 + IndexOf(s[1..], c)
  }

  /** Reads an order number back into its timestamp and sequence number. */
  function ParseOrderNumber(s: string): Option<(nat, nat)> {
    if |s| < 4 || s[..4] != "ORD-" then None
    else
      var rest := s[4..];
      var i := IndexOf(rest, '-');
      if i == |rest| then None
      else
        var stamp, seqNo := rest[..i], rest[i + 1..];
        if stamp != [] && seqNo != [] && AllDigits(stamp) && AllDigits(seqNo) then
          Some((ParseDigits(stamp), ParseDigits(seqNo)))
        else None
  }

  /** An order number records the creation time and one more than the number
      of orders that existed. */
  lemma OrderNumberRoundTrip(now: nat, count: nat)
    ensures ParseOrderNumber(OrderNumber(now, count)) == Some((now, count + 1))
  {
    var a, b := NatToString(now), NatToString(count + 1);
    var s := OrderNumber(now, count);
    assert s == "ORD-" + (a + "-" + b);
    assert s[..4] == "ORD-";
    var rest := s[4..];
    assert rest == a + "-" + b;
    assert forall k :: 0 <= k < |a| ==> rest[k] == a[k] && rest[k] != '-';
    var i := IndexOf(rest, '-');
    assert rest[|a|] == '-';
    assert i == |a|;
    assert rest[..i] == a;
    assert rest[i + 1..] == b;
    ParseNatToString(now);
    ParseNatToString(count + 1);
  }

  /** Orders numbered alike were created at the same millisecond with the same
      number of orders already stored. */
  lemma OrderNumberInjective(now1: nat, count1: nat, now2: nat, count2: nat)
    requires OrderNumber(now1, count1) == OrderNumber(now2, count2)
    ensures now1 == now2 && count1 == count2
  {
    OrderNumberRoundTrip(now1, count1);
    OrderNumberRoundTrip(now2, count2);
  }

  /** The fields `createOrder` hands to `new Order(...)`: the caller as the
      user, the request's line items copied field by field, the computed total,
      the request's payment method and address, and no status. */
  function OrderFieldsOf(caller: Id, items: seq<ItemFields>, total: Option<int>, req: OrderRequest): OrderFields {
    OrderFields(Some(caller), items, total, None, req.paymentMethod, req.address)
  }

  /** Once every product is found, the order is stored exactly when the
      address is given, the payment method is absent or one of the enum,
      every line has a quantity and a price, and every product ordered has a
      sale price. */
  lemma AdmissibleOrder(caller: Id, items: seq<ItemFields>, req: OrderRequest, catalog: map<Id, Product>, now: nat)
    requires AllInCatalog(items, catalog)
    ensures Create(OrderFieldsOf(caller, items, Total(items, catalog), req), now).Some? <==>
              && req.address.Some?
              && (req.paymentMethod.None? || ParsePaymentMethod(req.paymentMethod.value).Some?)
              && forall k :: 0 <= k < |items| ==>
                   && items[k].quantity.Some? && items[k].price.Some?
                   && catalog[items[k].product.value].salePrice.Some?
  {
    TotalDefined(items, catalog);
  }

  /** The order collection. */
  class OrderStore {
    var orders: map<Id, Order>

    constructor ()
      ensures orders == map[]
    {
      orders := map[];
    }

    /** `createOrder`. Without items the handler fails; a missing product
        answers 404 naming the first one, and nothing is stored; otherwise the
        order number is formatted from the clock and the order count, and
        exactly one order -- the caller's, priced from the catalog, with the
        line items as sent and status Ordered -- is added, unless the schema
        refuses it. */
    method CreateOrder(caller: Token, req: OrderRequest, catalog: map<Id, Product>, now: nat, freshId: Id)
      returns (r: Outcome<Order>, orderNumber: Option<string>)
      requires freshId !in orders
      modifies this
      ensures req.items.None? ==> r == Internal && orderNumber == None
      ensures req.items.Some? && FirstMissing(req.items.value, catalog).Some? ==>
                && r == NotFound(ProductNotFound(req.items.value[FirstMissing(req.items.value, catalog).value].product))
                && orderNumber == None
      ensures req.items.Some? && FirstMissing(req.items.value, catalog).None? ==>
                && orderNumber == Some(OrderNumber(now, |old(orders)|))
                && r == (match Create(OrderFieldsOf(caller.id, req.items.value, Total(req.items.value, catalog), req), now)
                         case None => Internal
                         case Some(o) => Ok(o))
      ensures !r.Ok? ==> orders == old(orders)
      ensures r.Ok? ==> orders == old(orders)[freshId := r.value]
      ensures r.Ok? ==> && req.items.Some? && AllInCatalog(req.items.value, catalog)
                        && Some(r.value.totalAmount) == Total(req.items.value, catalog)
                        && r.value.user == caller.id
                        && r.value.status == Ordered
                        && Some(r.value.address) == req.address
                        && r.value.paymentMethod == (if req.paymentMethod.None? then CashOnDelivery
                                                     else ParsePaymentMethod(req.paymentMethod.value).value)
                        && |r.value.items| == |req.items.value|
                        && (forall k :: 0 <= k < |req.items.value| ==>
                              && Some(r.value.items[k].product) == req.items.value[k].product
                              && Some(r.value.items[k].quantity) == req.items.value[k].quantity
                              && Some(r.value.items[k].price) == req.items.value[k].price)
                        && r.value.createdAt == now && r.value.updatedAt == now
    {
      orderNumber := None;
      if req.items.None? {
        r := Internal;
        return;
      }
      var items := req.items.value;
      var tally := TallyItems(items, catalog);
      if tally.NotFound? {
        r := NotFound(tally.message);
        return;
      }
      var orderCount := |orders|;
      var number := OrderNumber(now, orderCount);
      orderNumber := Some(number);
      var saved := Create(OrderFieldsOf(caller.id, items, tally.value, req), now);
      if saved.None? {
        r := Internal;
        return;
      }
      orders := orders[freshId := saved.value];
      r := Ok(saved.value);
    }

    /** `getOrders`: every stored order, whoever asks. */
    function GetOrders(caller: Token): (r: map<Id, Order>)
      reads this
      ensures r.Keys == orders.Keys
      ensures forall id :: id in r ==> r[id] == orders[id]
    {
      orders
    }

    /** `getOrderById`: the stored order, or 404 when there is none. */
    function GetOrderById(id: Id): (r: Outcome<Order>)
      reads this
      ensures r.Ok? <==> id in orders
      ensures r.Ok? ==> r.value == orders[id]
      ensures !r.Ok? ==> r == NotFound("Order not found")
    {
      if id in orders then Ok(orders[id]) else NotFound("Order not found")
    }

    /** `updateOrder`: an absent id is not found; a truthy status outside the
        enum makes the save fail; otherwise the status is replaced when a truthy
        one is sent, `updatedAt` becomes `now`, and nothing else changes. */
    method UpdateOrder(id: Id, status: Option<string>, now: nat) returns (r: Outcome<Order>)
      modifies this
      ensures id !in old(orders) ==> r == NotFound("Order not found") && orders == old(orders)
      ensures id in old(orders) && TruthyString(status) && ParseStatus(status.value).None? ==>
                r == Internal && orders == old(orders)
      ensures id in old(orders) && !(TruthyString(status) && ParseStatus(status.value).None?) ==>
                && r == Ok(old(orders)[id].(status := if TruthyString(status) then ParseStatus(status.value).value
                                                      else old(orders)[id].status,
                                            updatedAt := now))
                && orders == old(orders)[id := r.value]
    {
      if id !in orders {
        r := NotFound("Order not found");
        return;
      }
      var order := orders[id];
      var statusPath := OrString(status, Some(StatusName(order.status))).value;
      StatusNameRoundTrip(order.status);
      var validated := ParseStatus(statusPath);
      if validated.None? {
        r := Internal;
        return;
      }
      order := order.(status := validated.value, updatedAt := now);
      orders := orders[id := order];
      r := Ok(order);
    }

    /** `deleteOrder`: an absent id is not found; otherwise exactly that order
        is removed. */
    method DeleteOrder(id: Id) returns (r: Outcome<()>)
      modifies this
      ensures id !in old(orders) ==> r == NotFound("Order not found") && orders == old(orders)
      ensures id in old(orders) ==> r == Ok(()) && orders == old(orders) - {id}
    {
      if id !in orders {
        r := NotFound("Order not found");
        return;
      }
      orders := orders - {id};
      r := Ok(());
    }
  }
}
