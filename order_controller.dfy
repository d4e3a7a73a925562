/**
 * backend/controllers/orderController.js: order placement, the status update
 * and the visibility rules of the order queries.
 *
 * `OrderDb` holds the product and order collections that the handlers read
 * and write. Order placement walks the requested items in order, checking
 * each one (exists, available, enough stock) and saving its stock decrement
 * before looking at the next, so a failure part-way leaves the earlier
 * decrements in place. `Process` is the item-by-item specification.
 */
module OrderController {
  import opened Wrappers
  import opened Ids
  import opened Paging
  import opened Collections
  import opened ProductModel
  import opened OrderModel

  datatype ItemRequest = ItemRequest(product: Id, quantity: int)

  datatype OrderError = NoItems | ProductNotFound(id: Id) | ProductUnavailable(name: string)
                      | InsufficientStock(name: string)

  /** The three checks on one item, in source order; `None` means the item passes. */
  function Check(stock: map<Id, Product>, item: ItemRequest): (e: Option<OrderError>)
    ensures e.None? <==> (item.product in stock && stock[item.product].isAvailable
                          && stock[item.product].stock >= item.quantity)
    ensures item.product !in stock ==> e == Some(ProductNotFound(item.product))
    ensures item.product in stock && !stock[item.product].isAvailable ==>
              e == Some(ProductUnavailable(stock[item.product].name))
    ensures item.product in stock && stock[item.product].isAvailable && stock[item.product].stock < item.quantity ==>
              e == Some(InsufficientStock(stock[item.product].name))
  {
    if item.product !in stock then Some(ProductNotFound(item.product))
    else if !stock[item.product].isAvailable then Some(ProductUnavailable(stock[item.product].name))
    else if stock[item.product].stock < item.quantity then Some(InsufficientStock(stock[item.product].name))
    else None
  }

  /** `product.stock -= item.quantity; await product.save()` */
  function Take(stock: map<Id, Product>, item: ItemRequest): map<Id, Product>
    requires item.product in stock
  {
    stock[item.product := stock[item.product].(stock := stock[item.product].stock - item.quantity)]
  }

  /** The order line with the product's price at the time of ordering. */
  function Line(stock: map<Id, Product>, item: ItemRequest): OrderItem
    requires item.product in stock
  {
    var price := stock[item.product].price;
    OrderItem(item.product, item.quantity, price, price * item.quantity)
  }

  /** The end of the loop: all items placed, or the first failure and where it happened. */
  datatype Outcome = Placed(lines: seq<OrderItem>, total: int, stock: map<Id, Product>)
                   | Rejected(error: OrderError, at: nat, stock: map<Id, Product>)

  function Prepend(line: OrderItem, o: Outcome): Outcome {
    match o
    case Placed(ls, t, s) => Placed([line] + ls, line.subtotal + t, s)
    case Rejected(e, at, s) => Rejected(e, at + 1, s)
  }

  function Process(stock: map<Id, Product>, items: seq<ItemRequest>): Outcome
    decreases |items|
  {
    if items == [] then Placed([], 0, stock)
    else match Check(stock, items[0])
      case Some(e) => Rejected(e, 0, stock)
      case None => Prepend(Line(stock, items[0]), Process(Take(stock, items[0]), items[1..]))
  }

  /** An outcome of the remaining items, after `offset` items produced `lines` and `total`. */
  function Shift(lines: seq<OrderItem>, total: int, offset: nat, o: Outcome): Outcome {
    match o
    case Placed(ls, t, s) => Placed(lines + ls, total + t, s)
    case Rejected(e, at, s) => Rejected(e, offset + at, s)
  }

  lemma ShiftPrepend(lines: seq<OrderItem>, total: int, offset: nat, line: OrderItem, o: Outcome)
    ensures Shift(lines, total, offset, Prepend(line, o)) == Shift(lines + [line], total + line.subtotal, offset + 1, o)
  {
    if o.Placed? {
      assert lines + ([line] + o.lines) == (lines + [line]) + o.lines;
    }
  }

  /** One step of `Process` on the items from position `i`. */
  lemma ProcessAt(stock: map<Id, Product>, items: seq<ItemRequest>, i: nat)
    requires i < |items|
    ensures Check(stock, items[i]).Some? ==> Process(stock, items[i..]) == Rejected(Check(stock, items[i]).value, 0, stock)
    ensures Check(stock, items[i]).None? ==>
      Process(stock, items[i..]) == Prepend(Line(stock, items[i]), Process(Take(stock, items[i]), items[i + 1..]))
  {
    assert items[i..][0] == items[i] && items[i..][1..] == items[i + 1..];
  }

  function SumSubtotals(lines: seq<OrderItem>): int {
    if lines == [] then 0 else lines[0].subtotal + SumSubtotals(lines[1..])
  }

  /** The stock after decrementing for each item that names a stored product. */
  function Decrement(stock: map<Id, Product>, items: seq<ItemRequest>): map<Id, Product>
    decreases |items|
  {
    if items == [] then stock
    else Decrement(if items[0].product in stock then Take(stock, items[0]) else stock, items[1..])
  }

  /** The total quantity the items request of product `id`. */
  function QuantityOf(items: seq<ItemRequest>, id: Id): int {
    if items == [] then 0 else (if items[0].product == id then items[0].quantity else 0) + QuantityOf(items[1..], id)
  }

  class OrderDb {
    var products: map<Id, Product>
    var orders: seq<Order>

    constructor (products: map<Id, Product>, orders: seq<Order>)
      ensures this.products == products && this.orders == orders
    {
      this.products := products;
      this.orders := orders;
    }

    /**
     * `createOrder`. An empty item list is rejected before any product is read.
     * Otherwise the products and the result are as `Process` says: on the first
     * failing item the request is rejected with the decrements of the earlier
     * items kept and no order stored; when every item passes, the order is
     * stored with the lines and total, numbered from the current order count.
     */
    method CreateOrder(user: Id, items: seq<ItemRequest>, address: Address, paymentMethod: Option<PaymentMethod>,
                       notes: Option<string>, newId: Id, now: nat)
      returns (r: Result<Order, OrderError>)
      modifies this
      ensures items == [] ==> r == Err(NoItems) && products == old(products) && orders == old(orders)
      ensures items != [] && Process(old(products), items).Rejected? ==>
        && r == Err(Process(old(products), items).error)
        && products == Process(old(products), items).stock
        && orders == old(orders)
      ensures items != [] && Process(old(products), items).Placed? ==>
        var o := Process(old(products), items);
        && products == o.stock
        && r == Ok(NewOrder(newId, user, o.lines, o.total, address, paymentMethod, notes, now, |old(orders)|))
        && orders == old(orders) + [r.value]
    {
      if items == [] {
        return Err(NoItems);
      }
      var orderItems, totalAmount, failure := PlaceItems(items);
      if failure.Some? {
        return Err(failure.value);
      }
      var order := NewOrder(newId, user, orderItems, totalAmount, address, paymentMethod, notes, now, |orders|);
      orders := orders + [order];
      r := Ok(order);
    }

    /**
     * The item loop of `createOrder`: each item is checked against the current
     * stock and, when it passes, priced and decremented before the next one.
     */
    method PlaceItems(items: seq<ItemRequest>) returns (orderItems: seq<OrderItem>, totalAmount: int, failure: Option<OrderError>)
      modifies this
      ensures orders == old(orders)
      ensures Process(old(products), items).Rejected? ==>
        failure == Some(Process(old(products), items).error) && products == Process(old(products), items).stock
      ensures Process(old(products), items).Placed? ==>
        && failure == None && orderItems == Process(old(products), items).lines
        && totalAmount == Process(old(products), items).total && products == Process(old(products), items).stock
    {
      totalAmount := 0;
      orderItems := [];
      var i := 0;
      while i < |items|
        invariant 0 <= i <= |items|
        invariant Process(old(products), items) == Shift(orderItems, totalAmount, i, Process(products, items[i..]))
        invariant orders == old(orders)
      {
        var item := items[i];
        ProcessAt(products, items, i);
        if item.product !in products {
          return orderItems, totalAmount, Some(ProductNotFound(item.product));
        }
        var product := products[item.product];
        if !product.isAvailable {
          return orderItems, totalAmount, Some(ProductUnavailable(product.name));
        }
        if product.stock < item.quantity {
          return orderItems, totalAmount, Some(InsufficientStock(product.name));
        }
        var subtotal := product.price * item.quantity;
        totalAmount := totalAmount + subtotal;
        var line := OrderItem(item.product, item.quantity, product.price, subtotal);
        ghost var rest := Process(Take(products, item), items[i + 1..]);
        assert line == Line(products, item);
        ShiftPrepend(orderItems, totalAmount - subtotal, i, line, rest);
        orderItems := orderItems + [line];
        products := Take(products, item);
        i := i + 1;
      }
      assert items[i..] == [];
      assert orderItems + [] == orderItems;
      failure := None;
    }

    /**
     * `updateOrderStatus`: an invalid status is rejected before the lookup, an
     * unknown id is 404, and otherwise the first order with that id gets the
     * status (any status may follow any other) and, for `delivered`, the
     * delivery date `now`.
     */
    method UpdateOrderStatus(id: Id, status: string, now: nat) returns (r: Result<Order, StatusError>)
      modifies this
      ensures products == old(products)
      ensures ParseStatus(status).None? ==> r == Err(InvalidStatus) && orders == old(orders)
      ensures ParseStatus(status).Some? && FindOrder(old(orders), id).None? ==>
        r == Err(OrderNotFound) && orders == old(orders)
      ensures ParseStatus(status).Some? && FindOrder(old(orders), id).Some? ==>
        var i := FindOrder(old(orders), id).value;
        && orders == old(orders)[i := SetStatus(old(orders)[i], ParseStatus(status).value, now)]
        && r == Ok(orders[i])
    {
      var s := ParseStatus(status);
      if s.None? {
        return Err(InvalidStatus);
      }
      var found := FindOrder(orders, id);
      if found.None? {
        return Err(OrderNotFound);
      }
      var order := orders[found.value];
      order := order.(status := s.value);
      if s.value == Delivered {
        order := order.(deliveryDate := Some(now));
      }
      orders := orders[found.value := order];
      r := Ok(order);
    }
  }

  datatype StatusError = InvalidStatus | OrderNotFound

  /** `Order.findById`: the position of the order with that id. */
  function FindOrder(orders: seq<Order>, id: Id): (r: Option<nat>)
    ensures r.Some? ==> r.value < |orders| && orders[r.value].id == id
                        && forall k :: 0 <= k < r.value ==> orders[k].id != id
    ensures r.None? <==> forall k :: 0 <= k < |orders| ==> orders[k].id != id
  {
    if orders == [] then None
    else if orders[0].id == id then Some(0)
    else match FindOrder(orders[1..], id)
      case None => None
      case Some(k) => Some(k + 1)
  }

  /** The status write: the new status, and a delivery date only on `delivered`. */
  function SetStatus(o: Order, s: OrderStatus, now: nat): (r: Order)
    ensures r.status == s
    ensures s == Delivered ==> r.deliveryDate == Some(now)
    ensures s != Delivered ==> r.deliveryDate == o.deliveryDate
    ensures r.(status := o.status, deliveryDate := o.deliveryDate) == o
  {
    o.(status := s, deliveryDate := if s == Delivered then Some(now) else o.deliveryDate)
  }

  // ---------------------------------------------------------------------
  // Queries

  /** The authenticated caller. */
  datatype Viewer = Viewer(id: Id, role: string)

  /** The `getOrders` filter: a non-admin sees only their own orders; a status narrows further. */
  function Visible(v: Viewer, status: string, o: Order): bool {
    && (v.role == "admin" || o.user == v.id)
    && (status == "" || StatusName(o.status) == status)
  }

  datatype OrderPage = OrderPage(orders: seq<Order>, currentPage: nat, totalPages: nat, totalOrders: nat)

  /** The orders `v` may see with that status, newest first (the store keeps creation order). */
  function VisibleOrders(orders: seq<Order>, v: Viewer, status: string): seq<Order> {
    Reverse(Collections.Filter(orders, (o: Order) => Visible(v, status, o)))
  }

  /** `getOrders`: the visible orders, paginated. */
  function GetOrders(orders: seq<Order>, v: Viewer, status: string, page: nat, limit: nat): OrderPage
    requires page >= 1 && limit >= 1
  {
    var matching := VisibleOrders(orders, v, status);
    OrderPage(Window(matching, Skip(page, limit), limit), page, TotalPages(|matching|, limit), |matching|)
  }

  /** `getUserOrders`: the caller's own orders, newest first. */
  function GetUserOrders(orders: seq<Order>, user: Id): seq<Order> {
    Reverse(Collections.Filter(orders, (o: Order) => o.user == user))
  }

  /** The outcome of `getOrderById`: 200 with the order, 404, 403, or 500 from the catch block. */
  datatype Lookup = Found(order: Order) | NotFound | Forbidden | ServerError

  /**
   * `getOrderById` with the owner check the code means: 404 for an unknown
   * id, 403 for someone else's order unless admin.
   */
  function GetOrderById(orders: seq<Order>, v: Viewer, id: Id): (r: Lookup)
    ensures r.NotFound? <==> FindOrder(orders, id).None?
    ensures r.Found? ==> r.order.id == id && (v.role == "admin" || r.order.user == v.id)
    ensures r.Forbidden? <==> FindOrder(orders, id).Some? && v.role != "admin"
                              && orders[FindOrder(orders, id).value].user != v.id
    ensures !r.ServerError?
  {
    match FindOrder(orders, id)
    case None => NotFound
    case Some(i) =>
      if v.role != "admin" && orders[i].user != v.id then Forbidden else Found(orders[i])
  }

  /** `ObjectId#toString()`: 24 lowercase hexadecimal digits. */
  predicate IsObjectIdText(s: string) {
    |s| == 24 && forall k :: 0 <= k < |s| ==> '0' <= s[k] <= '9' || 'a' <= s[k] <= 'f'
  }

  /**
   * `Document#toString()` of a populated user: Mongoose's inspect text of the
   * document, an object literal of its selected fields (`fields`).
   */
  function DocumentText(fields: string): (t: string)
    ensures t != [] && t[0] == '{'
  {
    "{ " + fields + " }"
  }

  /**
   * `getOrderById` as written. The `pre(/^find/)` hook of the order schema
   * populates `user`, so `order.user` is the owner's document (`users` maps
   * each stored user id to the text of its selected fields) or null when the
   * owner no longer exists. For a non-admin, `order.user.toString()` is then
   * the document's inspect text, or a TypeError that ends in the 500 branch.
   */
  function GetOrderByIdAsWritten(orders: seq<Order>, v: Viewer, id: Id, users: map<Id, string>): (r: Lookup)
    ensures r.NotFound? <==> FindOrder(orders, id).None?
    ensures r.ServerError? <==> (FindOrder(orders, id).Some? && v.role != "admin"
                                 && orders[FindOrder(orders, id).value].user !in users)
    ensures r.Found? ==> r.order.id == id
    ensures r.Found? ==> v.role == "admin" || (r.order.user in users && DocumentText(users[r.order.user]) == v.id)
    ensures r.Forbidden? <==> (FindOrder(orders, id).Some? && v.role != "admin"
                               && orders[FindOrder(orders, id).value].user in users
                               && DocumentText(users[orders[FindOrder(orders, id).value].user]) != v.id)
  {
    match FindOrder(orders, id)
    case None => NotFound
    case Some(i) =>
      if v.role == "admin" then Found(orders[i])
      else if orders[i].user !in users then ServerError
      else if DocumentText(users[orders[i].user]) != v.id then Forbidden
      else Found(orders[i])
  }

  /** As written, a non-admin caller is never served an order: it is refused, missing or a 500. */
  lemma NonAdminNeverServedAsWritten(orders: seq<Order>, v: Viewer, id: Id, users: map<Id, string>)
    requires v.role != "admin" && IsObjectIdText(v.id)
    ensures !GetOrderByIdAsWritten(orders, v, id, users).Found?
  {
    assert v.id[0] != '{';
  }

  /** A customer asking for their own order: refused as written, served as intended. */
  lemma OwnOrderRefusedAsWritten(orders: seq<Order>, v: Viewer, id: Id, users: map<Id, string>)
    requires v.role != "admin" && IsObjectIdText(v.id) && v.id in users
    requires FindOrder(orders, id).Some? && orders[FindOrder(orders, id).value].user == v.id
    ensures GetOrderByIdAsWritten(orders, v, id, users) == Forbidden
    ensures GetOrderById(orders, v, id) == Found(orders[FindOrder(orders, id).value])
  {
    NonAdminNeverServedAsWritten(orders, v, id, users);
  }
}
