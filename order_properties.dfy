/**
 * What order placement and the order queries promise, proved about the
 * specification functions of `OrderController`.
 */
module OrderProperties {
  import opened Wrappers
  import opened Ids
  import opened Paging
  import opened Collections
  import opened ProductModel
  import opened OrderModel
  import opened OrderController

  /**
   * A placed order has one line per item in request order, each with the
   * product's price at ordering time and subtotal price times quantity, and
   * the total is the sum of the subtotals.
   */
  lemma {:induction false} PlacedLines(stock: map<Id, Product>, items: seq<ItemRequest>)
    requires Process(stock, items).Placed?
    ensures
      var o := Process(stock, items);
      && |o.lines| == |items|
      && o.total == SumSubtotals(o.lines)
      && forall k :: 0 <= k < |items| ==>
           && items[k].product in stock
           && o.lines[k].product == items[k].product
           && o.lines[k].quantity == items[k].quantity
           && o.lines[k].price == stock[items[k].product].price
           && o.lines[k].subtotal == o.lines[k].price * o.lines[k].quantity
    decreases |items|
  {
    if items != [] {
      var rest := Take(stock, items[0]);
      PlacedLines(rest, items[1..]);
      var o := Process(stock, items);
      var tail := Process(rest, items[1..]);
      assert o.lines == [Line(stock, items[0])] + tail.lines;
      assert o.lines[1..] == tail.lines;
      forall k | 1 <= k < |items|
        ensures items[k].product in stock && o.lines[k].price == stock[items[k].product].price
      {
        assert items[k] == items[1..][k - 1];
        assert o.lines[k] == tail.lines[k - 1];
      }
    }
  }

  /**
   * The stock after the loop: all decrements when every item passes; when
   * item `at` fails, exactly the decrements of the items before it, and that
   * item is the first to fail its checks.
   */
  lemma {:induction false} OutcomeStock(stock: map<Id, Product>, items: seq<ItemRequest>)
    ensures Process(stock, items).Placed? ==> Process(stock, items).stock == Decrement(stock, items)
    ensures Process(stock, items).Rejected? ==>
      var o := Process(stock, items);
      && o.at < |items|
      && o.stock == Decrement(stock, items[..o.at])
      && Check(o.stock, items[o.at]) == Some(o.error)
      && forall k :: 0 <= k < o.at ==> Check(Decrement(stock, items[..k]), items[k]).None?
    decreases |items|
  {
    if items != [] && Check(stock, items[0]).None? {
      var rest := Take(stock, items[0]);
      OutcomeStock(rest, items[1..]);
      var o := Process(stock, items);
      if o.Rejected? {
        var t := Process(rest, items[1..]);
        assert o.at == t.at + 1;
        DecrementCons(stock, items, o.at);
        forall k | 0 <= k < o.at
          ensures Check(Decrement(stock, items[..k]), items[k]).None?
        {
          if k > 0 {
            DecrementCons(stock, items, k);
            assert items[k] == items[1..][k - 1];
          }
        }
      }
    } else if items != [] {
      assert items[..0] == [];
    }
  }

  /** The decrements of the first `k` items are the first item's, then those of the next `k - 1`. */
  lemma DecrementCons(stock: map<Id, Product>, items: seq<ItemRequest>, k: nat)
    requires 0 < k <= |items| && items[0].product in stock
    ensures Decrement(stock, items[..k]) == Decrement(Take(stock, items[0]), items[1..][..k - 1])
  {
    var prefix := items[..k];
    assert prefix[0] == items[0] && prefix[1..] == items[1..][..k - 1];
  }

  /**
   * Each stored product's stock drops by the total quantity ordered of it,
   * summed over repeated items; nothing else about any product changes.
   */
  lemma {:induction false} DecrementQuantities(stock: map<Id, Product>, items: seq<ItemRequest>)
    ensures Decrement(stock, items).Keys == stock.Keys
    ensures forall id :: id in stock ==>
      Decrement(stock, items)[id] == stock[id].(stock := stock[id].stock - QuantityOf(items, id))
    decreases |items|
  {
    if items != [] {
      var next := if items[0].product in stock then Take(stock, items[0]) else stock;
      DecrementQuantities(next, items[1..]);
    }
  }

  /** Since each check precedes its decrement, stock never becomes negative. */
  lemma {:induction false} StockNeverNegative(stock: map<Id, Product>, items: seq<ItemRequest>)
    requires forall id :: id in stock ==> stock[id].stock >= 0
    ensures forall id :: id in Process(stock, items).stock ==> Process(stock, items).stock[id].stock >= 0
    decreases |items|
  {
    if items != [] && Check(stock, items[0]).None? {
      StockNeverNegative(Take(stock, items[0]), items[1..]);
    }
  }

  /**
   * With quantities of at least one (the route validator's guarantee) and
   * non-negative prices (the product schema's), a placed order satisfies the
   * order schema's minimums.
   */
  lemma PlacedOrderValid(stock: map<Id, Product>, items: seq<ItemRequest>, id: Id, user: Id, address: Address,
                         paymentMethod: Option<PaymentMethod>, notes: Option<string>, now: nat, count: nat)
    requires forall k :: 0 <= k < |items| ==> items[k].quantity >= 1
    requires forall p :: p in stock ==> stock[p].price >= 0
    requires Process(stock, items).Placed?
    ensures
      var o := Process(stock, items);
      OrderModel.Valid(NewOrder(id, user, o.lines, o.total, address, paymentMethod, notes, now, count))
  {
    PlacedLines(stock, items);
    var o := Process(stock, items);
    NonNegativeSum(o.lines);
  }

  lemma {:induction false} NonNegativeSum(lines: seq<OrderItem>)
    requires forall k :: 0 <= k < |lines| ==>
      lines[k].price >= 0 && lines[k].quantity >= 1 && lines[k].subtotal == lines[k].price * lines[k].quantity
    ensures SumSubtotals(lines) >= 0
  {
    if lines != [] {
      NonNegativeSum(lines[1..]);
    }
  }

  /**
   * The loop is not atomic: two units of an available product `a` with stock 5,
   * then an unknown product `b`, is rejected at the second item with `a`'s
   * stock already down to 3.
   */
  lemma PartialDecrementStays(p: Product)
    requires p.isAvailable && p.stock == 5
    ensures Process(map["a" := p], [ItemRequest("a", 2), ItemRequest("b", 1)])
         == Rejected(ProductNotFound("b"), 1, map["a" := p.(stock := 3)])
  {
    var items := [ItemRequest("a", 2), ItemRequest("b", 1)];
    assert items[1..] == [ItemRequest("b", 1)];
    assert map["a" := p][("a") := p.(stock := 3)] == map["a" := p.(stock := 3)];
  }

  // ---------------------------------------------------------------------
  // Queries

  /** The visible orders are stored orders that `v` may see, each one visible order once. */
  lemma VisibleOrdersSpec(orders: seq<Order>, v: Viewer, status: string)
    ensures |VisibleOrders(orders, v, status)| == Count(orders, (o: Order) => Visible(v, status, o))
    ensures forall k :: 0 <= k < |VisibleOrders(orders, v, status)| ==>
      VisibleOrders(orders, v, status)[k] in orders && Visible(v, status, VisibleOrders(orders, v, status)[k])
  {
    ReverseFilterSpec(orders, (o: Order) => Visible(v, status, o));
  }

  /** A non-admin's order list holds only their own orders; a status narrows it exactly. */
  lemma OrdersVisibleToViewer(orders: seq<Order>, v: Viewer, status: string, page: nat, limit: nat)
    requires page >= 1 && limit >= 1
    ensures
      var r := GetOrders(orders, v, status, page, limit);
      && |r.orders| <= limit
      && r.totalPages == TotalPages(r.totalOrders, limit)
      && forall k :: 0 <= k < |r.orders| ==>
           && r.orders[k] in orders
           && (v.role != "admin" ==> r.orders[k].user == v.id)
           && (status != "" ==> StatusName(r.orders[k].status) == status)
  {
    var newest := VisibleOrders(orders, v, status);
    VisibleOrdersSpec(orders, v, status);
    var r := GetOrders(orders, v, status, page, limit);
    assert r.orders == Window(newest, Skip(page, limit), limit);
    forall k | 0 <= k < |r.orders|
      ensures r.orders[k] in orders && Visible(v, status, r.orders[k])
    {
      assert r.orders[k] == newest[Skip(page, limit) + k];
    }
  }

  /** An admin without a status filter counts every order. */
  lemma AdminCountsAll(orders: seq<Order>, v: Viewer, page: nat, limit: nat)
    requires page >= 1 && limit >= 1 && v.role == "admin"
    ensures GetOrders(orders, v, "", page, limit).totalOrders == |orders|
  {
    FilterAll(orders, (o: Order) => Visible(v, "", o));
  }

  /** With creation times increasing along the store, the reverse is newest first. */
  lemma NewestFirstSorted(orders: seq<Order>)
    requires forall i, j :: 0 <= i < j < |orders| ==> orders[i].createdAt < orders[j].createdAt
    ensures forall i, j :: 0 <= i < j < |orders| ==> Reverse(orders)[i].createdAt > Reverse(orders)[j].createdAt
  {
  }

  /** `getUserOrders` is `getOrders` for a non-admin caller, without a status or paging. */
  lemma UserOrdersAreOwnOrders(orders: seq<Order>, user: Id, role: string)
    requires role != "admin"
    ensures GetUserOrders(orders, user) == VisibleOrders(orders, Viewer(user, role), "")
  {
    FilterAgree(orders, (o: Order) => o.user == user, (o: Order) => Visible(Viewer(user, role), "", o));
  }
}
