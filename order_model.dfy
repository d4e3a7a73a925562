/**
 * The order schema of backend/models/Order.js: the three enums and their
 * defaults, the minimum constraints on items and total, and the pre-save
 * hook that numbers new orders `CC-<timestamp>-<count + 1, zero-padded to 4>`.
 */
module OrderModel {
  import opened Wrappers
  import opened Ids
  import opened Text

  datatype OrderStatus = Pending | Confirmed | Preparing | Shipped | Delivered | Cancelled

  const StatusNames := ["pending", "confirmed", "preparing", "shipped", "delivered", "cancelled"]

  function StatusName(s: OrderStatus): (n: string)
    ensures n in StatusNames
  {
    match s
    case Pending => "pending"
    case Confirmed => "confirmed"
    case Preparing => "preparing"
    case Shipped => "shipped"
    case Delivered => "delivered"
    case Cancelled => "cancelled"
  }

  /** The enum check: a string is a status exactly when it is one of the six names. */
  function ParseStatus(n: string): (r: Option<OrderStatus>)
    ensures r.Some? ==> StatusName(r.value) == n
    ensures r.None? <==> n !in StatusNames
  {
    if n == "pending" then Some(Pending)
    else if n == "confirmed" then Some(Confirmed)
    else if n == "preparing" then Some(Preparing)
    else if n == "shipped" then Some(Shipped)
    else if n == "delivered" then Some(Delivered)
    else if n == "cancelled" then Some(Cancelled)
    else None
  }

  lemma ParseStatusName(s: OrderStatus)
    ensures ParseStatus(StatusName(s)) == Some(s)
  {
  }

  datatype PaymentStatus = PaymentPending | Paid | Failed | Refunded

  const PaymentStatusNames := ["pending", "paid", "failed", "refunded"]

  function PaymentStatusName(s: PaymentStatus): (n: string)
    ensures n in PaymentStatusNames
  {
    match s
    case PaymentPending => "pending"
    case Paid => "paid"
    case Failed => "failed"
    case Refunded => "refunded"
  }

  function ParsePaymentStatus(n: string): (r: Option<PaymentStatus>)
    ensures r.Some? ==> PaymentStatusName(r.value) == n
    ensures r.None? <==> n !in PaymentStatusNames
  {
    if n == "pending" then Some(PaymentPending)
    else if n == "paid" then Some(Paid)
    else if n == "failed" then Some(Failed)
    else if n == "refunded" then Some(Refunded)
    else None
  }

  lemma ParsePaymentStatusName(s: PaymentStatus)
    ensures ParsePaymentStatus(PaymentStatusName(s)) == Some(s)
  {
  }

  datatype PaymentMethod = Cash | Card | Transfer | DigitalWallet

  const PaymentMethodNames := ["cash", "card", "transfer", "digital_wallet"]

  function PaymentMethodName(m: PaymentMethod): (n: string)
    ensures n in PaymentMethodNames
  {
    match m
    case Cash => "cash"
    case Card => "card"
    case Transfer => "transfer"
    case DigitalWallet => "digital_wallet"
  }

  function ParsePaymentMethod(n: string): (r: Option<PaymentMethod>)
    ensures r.Some? ==> PaymentMethodName(r.value) == n
    ensures r.None? <==> n !in PaymentMethodNames
  {
    if n == "cash" then Some(Cash)
    else if n == "card" then Some(Card)
    else if n == "transfer" then Some(Transfer)
    else if n == "digital_wallet" then Some(DigitalWallet)
    else None
  }

  lemma ParsePaymentMethodName(m: PaymentMethod)
    ensures ParsePaymentMethod(PaymentMethodName(m)) == Some(m)
  {
  }

  datatype OrderItem = OrderItem(product: Id, quantity: int, price: int, subtotal: int)

  datatype Address = Address(street: string, city: string, department: string,
                             zipCode: Option<string>, phone: string)

  /** An order document; `createdAt` and `deliveryDate` are timestamps. */
  datatype Order = Order(
    id: Id, user: Id, orderNumber: string, items: seq<OrderItem>, totalAmount: int,
    status: OrderStatus, paymentStatus: PaymentStatus, paymentMethod: PaymentMethod,
    shippingAddress: Address, deliveryDate: Option<nat>, notes: Option<string>, createdAt: nat)

  /** The `min` constraints: quantity at least 1, price and total not negative. */
  ghost predicate Valid(o: Order) {
    && (forall k :: 0 <= k < |o.items| ==> o.items[k].quantity >= 1 && o.items[k].price >= 0)
    && o.totalAmount >= 0
  }

  // ---------------------------------------------------------------------
  // Order numbers

  /** `n.toString().padStart(4, '0')` */
  function Pad4(n: nat): (s: string)
    ensures |s| == if |NatToString(n)| >= 4 then |NatToString(n)| else 4
    ensures AllDigits(s) && DigitsValue(s) == n
    ensures s[|s| - |NatToString(n)|..] == NatToString(n)
  {
    var digits := NatToString(n);
    var s := PadStart(digits, 4, '0');
    NatToStringValue(n);
    LeadingZerosValue(|s| - |digits|, digits);
    assert s == Repeat('0', |s| - |digits|) + digits;
    s
  }

  /** `CC-${Date.now()}-${(count + 1).toString().padStart(4, '0')}` */
  function OrderNumber(timestamp: nat, count: nat): string {
    "CC-" + NatToString(timestamp) + "-" + Pad4(count + 1)
  }

  /** Distinct timestamps or distinct counts give distinct order numbers. */
  lemma OrderNumberInjective(t1: nat, c1: nat, t2: nat, c2: nat)
    requires OrderNumber(t1, c1) == OrderNumber(t2, c2)
    ensures t1 == t2 && c1 == c2
  {
    OrderNumberParts(t1, c1);
    OrderNumberParts(t2, c2);
    NatToStringInjective(t1, t2);
    assert DigitsValue(Pad4(c1 + 1)) == c1 + 1;
  }

  /** After the `CC-` prefix, splitting on `-` gives back the timestamp and the padded count. */
  lemma OrderNumberParts(t: nat, c: nat)
    ensures OrderNumber(t, c)[..3] == "CC-"
    ensures Split(OrderNumber(t, c)[3..], '-') == [NatToString(t), Pad4(c + 1)]
  {
    var a, b := NatToString(t), Pad4(c + 1);
    var rest := a + ['-'] + b;
    OrderNumberShape(t, c);
    assert OrderNumber(t, c)[3..] == rest;
    NoHyphenInDigits(a);
    NoHyphenInDigits(b);
    JoinPair(a, b, '-');
    SplitJoin([a, b], '-');
  }

  lemma OrderNumberShape(t: nat, c: nat)
    ensures OrderNumber(t, c) == "CC-" + (NatToString(t) + ['-'] + Pad4(c + 1))
  {
  }

  lemma JoinPair(a: string, b: string, sep: char)
    ensures Join([a, b], sep) == a + [sep] + b
  {
    assert [a, b][1..] == [b];
  }

  lemma NoHyphenInDigits(s: string)
    requires AllDigits(s)
    ensures '-' !in s
  {
  }

  /**
   * The pre-save hook: a new document gets the number built from the current
   * time and the number of stored orders; an existing one keeps its number.
   */
  function PreSave(o: Order, isNew: bool, now: nat, storedCount: nat): (r: Order)
    ensures isNew ==> r == o.(orderNumber := OrderNumber(now, storedCount))
    ensures !isNew ==> r == o
  {
    if isNew then o.(orderNumber := OrderNumber(now, storedCount)) else o
  }

  /** A re-save never changes the number, however often it is repeated. */
  lemma ResaveKeepsNumber(o: Order, isNew: bool, now: nat, storedCount: nat, later: nat, laterCount: nat)
    ensures PreSave(PreSave(o, isNew, now, storedCount), false, later, laterCount).orderNumber
         == PreSave(o, isNew, now, storedCount).orderNumber
  {
  }

  /**
   * `Order.create` for a request that passed the route validator: the
   * defaults `pending`/`pending`/`cash` and the pre-save number.
   */
  function NewOrder(id: Id, user: Id, items: seq<OrderItem>, totalAmount: int, address: Address,
                    paymentMethod: Option<PaymentMethod>, notes: Option<string>,
                    now: nat, storedCount: nat): (o: Order)
    ensures o.status == Pending && o.paymentStatus == PaymentPending
    ensures o.paymentMethod == paymentMethod.GetOr(Cash)
    ensures o.orderNumber == OrderNumber(now, storedCount)
    ensures o.items == items && o.totalAmount == totalAmount && o.user == user
    ensures o.deliveryDate.None?
  {
    var doc := Order(id, user, "", items, totalAmount, Pending, PaymentPending,
                     paymentMethod.GetOr(Cash), address, None, notes, now);
    PreSave(doc, true, now, storedCount)
  }
}
