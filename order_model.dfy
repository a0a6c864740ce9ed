/** The Mongoose schema of an order: its two enumerations, the line item and
    order records, and what `new Order(fields).save()` accepts -- defaults
    applied, required paths present, enumerated paths inside their enum. */
module OrderModel {
  import opened Common

  /** The `status` enum. */
  datatype Status = Ordered | Processing | Shipped | Delivered | Cancelled

  /** The default of `status`. */
  const DefaultStatus: Status := Ordered

  function StatusName(s: Status): string {
    match s
    case Ordered => "Ordered"
    case Processing => "Processing"
    case Shipped => "Shipped"
    case Delivered => "Delivered"
    case Cancelled => "Cancelled"
  }

  /** The enum validator of `status`: a string is accepted exactly when it is
      the name of one of the five statuses, and then denotes that status. */
  function ParseStatus(name: string): (r: Option<Status>)
    ensures r.Some? ==> StatusName(r.value) == name
    ensures r.None? ==> forall s: Status :: StatusName(s) != name
  {
    if name == "Ordered" then Some(Ordered)
    else if name == "Processing" then Some(Processing)
    else if name == "Shipped" then Some(Shipped)
    else if name == "Delivered" then Some(Delivered)
    else if name == "Cancelled" then Some(Cancelled)
    else None
  }

  /** The `paymentMethod` enum. */
  datatype PaymentMethod = CreditCard | PayPal | CashOnDelivery

  /** The default of `paymentMethod`. */
  const DefaultPaymentMethod: PaymentMethod := CashOnDelivery

  function PaymentMethodName(m: PaymentMethod): string {
    match m
    case CreditCard => "Credit Card"
    case PayPal => "PayPal"
    case CashOnDelivery => "Cash on Delivery"
  }

  /** The enum validator of `paymentMethod`. */
  function ParsePaymentMethod(name: string): (r: Option<PaymentMethod>)
    ensures r.Some? ==> PaymentMethodName(r.value) == name
    ensures r.None? ==> forall m: PaymentMethod :: PaymentMethodName(m) != name
  {
    if name == "Credit Card" then Some(CreditCard)
    else if name == "PayPal" then Some(PayPal)
    else if name == "Cash on Delivery" then Some(CashOnDelivery)
    else None
  }

  /** The enum names are distinct, so each status is read back as itself. */
  lemma StatusNameRoundTrip(s: Status)
    ensures ParseStatus(StatusName(s)) == Some(s)
  {
  }

  lemma PaymentMethodNameRoundTrip(m: PaymentMethod)
    ensures ParsePaymentMethod(PaymentMethodName(m)) == Some(m)
  {
  }

  /** A stored line item: `product`, `quantity` and `price` are required. */
  datatype OrderItem = OrderItem(product: Id, quantity: int, price: int)

  /** A stored order. Every path the schema requires is a plain field here,
      and the enumerated paths have enum types, so no stored order can carry
      a status or payment method outside the schema's lists. */
  datatype Order = Order(
    user: Id,
    items: seq<OrderItem>,
    totalAmount: int,
    status: Status,
    paymentMethod: PaymentMethod,
    address: Id,
    createdAt: nat,
    updatedAt: nat)

  /** The fields handed to the constructor of a line item, before validation. */
  datatype ItemFields = ItemFields(product: Option<Id>, quantity: Option<int>, price: Option<int>)

  /** The fields handed to `new Order(...)`, before validation. A `None`
      total stands for NaN, which the Number cast refuses. */
  datatype OrderFields = OrderFields(
    user: Option<Id>,
    items: seq<ItemFields>,
    totalAmount: Option<int>,
    status: Option<string>,
    paymentMethod: Option<string>,
    address: Option<Id>)

  predicate ItemAdmissible(f: ItemFields) {
    f.product.Some? && f.quantity.Some? && f.price.Some?
  }

  /** What the schema's validators accept: every required path present, and
      every enumerated path either absent (the default applies) or a member. */
  predicate Admissible(f: OrderFields) {
    && f.user.Some?
    && f.totalAmount.Some?
    && f.address.Some?
    && (forall k :: 0 <= k < |f.items| ==> ItemAdmissible(f.items[k]))
    && (f.status.None? || ParseStatus(f.status.value).Some?)
    && (f.paymentMethod.None? || ParsePaymentMethod(f.paymentMethod.value).Some?)
  }

  function ToItems(fs: seq<ItemFields>): (r: Option<seq<OrderItem>>)
    ensures r.Some? <==> forall k :: 0 <= k < |fs| ==> ItemAdmissible(fs[k])
    ensures r.Some? ==> |r.value| == |fs| && forall k :: 0 <= k < |fs| ==>
      r.value[k] == OrderItem(fs[k].product.value, fs[k].quantity.value, fs[k].price.value)
  {
    if fs == [] then Some([])
    else
      var f := fs[|fs| - 1];
      match ToItems(fs[..|fs| - 1])
      case None => None
      case Some(init) =>
        if ItemAdmissible(f) then Some(init + [OrderItem(f.product.value, f.quantity.value, f.price.value)])
        else None
  }

  /** `new Order(f).save()` at time `now`: the document is stored exactly when
      the validators admit it; the defaults fill `status`, `paymentMethod`,
      `createdAt` and `updatedAt`; every other path is copied. */
  function Create(f: OrderFields, now: nat): (r: Option<Order>)
    ensures r.Some? <==> Admissible(f)
    ensures r.Some? ==> && r.value.user == f.user.value
                        && r.value.totalAmount == f.totalAmount.value
                        && r.value.address == f.address.value
                        && |r.value.items| == |f.items|
                        && (forall k :: 0 <= k < |f.items| ==>
                             r.value.items[k] == OrderItem(f.items[k].product.value, f.items[k].quantity.value, f.items[k].price.value))
                        && r.value.status == (if f.status.None? then DefaultStatus else ParseStatus(f.status.value).value)
                        && r.value.paymentMethod == (if f.paymentMethod.None? then DefaultPaymentMethod else ParsePaymentMethod(f.paymentMethod.value).value)
                        && r.value.createdAt == now && r.value.updatedAt == now
  {
    var items := ToItems(f.items);
    var status := if f.status.None? then Some(DefaultStatus) else ParseStatus(f.status.value);
    var payment := if f.paymentMethod.None? then Some(DefaultPaymentMethod) else ParsePaymentMethod(f.paymentMethod.value);
    if f.user.Some? && f.totalAmount.Some? && f.address.Some? && items.Some? && status.Some? && payment.Some? then
      Some(Order(f.user.value, items.value, f.totalAmount.value, status.value, payment.value, f.address.value, now, now))
    else
      None
  }
}
