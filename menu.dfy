/**
 * The menu page (app/menu/page.tsx): the cart, its derived totals, the order
 * snapshot built from it, and the session that saves the snapshot as pending
 * on every cart-panel open and as confirmed on confirmation.
 */
module MenuPage {
  import opened Wrappers
  import opened OrderTypes
  import opened Database

  /** A menu entry with the quantity the passenger has selected. */
  datatype Line = Line(item: MenuItem, quantity: nat)

  /** Menu entries carry distinct document ids. */
  predicate UniqueIds(lines: seq<Line>)
  {
    forall i, j :: 0 <= i < j < |lines| ==> lines[i].item.id != lines[j].item.id
  }

  /** handleIncrement: the line whose id matches goes up by one; every other line is kept. */
  function Incremented(lines: seq<Line>, id: string): (r: seq<Line>)
    ensures |r| == |lines|
    ensures forall i :: 0 <= i < |lines| && lines[i].item.id == id ==>
      r[i] == lines[i].(quantity := lines[i].quantity + 1)
    ensures forall i :: 0 <= i < |lines| && lines[i].item.id != id ==> r[i] == lines[i]
  {
    if lines == [] then []
    else
      var head := if lines[0].item.id == id then lines[0].(quantity := lines[0].quantity + 1) else lines[0];
      [head] + Incremented(lines[1..], id)
  }

  /** handleDecrement: the matching line goes down by one when it is above zero. */
  function Decremented(lines: seq<Line>, id: string): (r: seq<Line>)
    ensures |r| == |lines|
    ensures forall i :: 0 <= i < |lines| && lines[i].item.id == id && lines[i].quantity > 0 ==>
      r[i] == lines[i].(quantity := lines[i].quantity - 1)
    ensures forall i :: 0 <= i < |lines| && (lines[i].item.id != id || lines[i].quantity == 0) ==>
      r[i] == lines[i]
  {
    if lines == [] then []
    else
      var head :=
        if lines[0].item.id == id && lines[0].quantity > 0 then lines[0].(quantity := lines[0].quantity - 1)
        else lines[0];
      [head] + Decremented(lines[1..], id)
  }

  /** Sum of the quantities of all lines. */
  function TotalQuantity(lines: seq<Line>): (r: nat)
    ensures forall i :: 0 <= i < |lines| ==> lines[i].quantity <= r
  {
    if lines == [] then 0 else lines[0].quantity + TotalQuantity(lines[1..])
  }

  /** Sum of quantity times price over all lines. */
  function TotalAmount(lines: seq<Line>): (r: nat)
    ensures TotalQuantity(lines) == 0 ==> r == 0
  {
    if lines == [] then 0 else lines[0].quantity * lines[0].item.price + TotalAmount(lines[1..])
  }

  /** Changing one line's quantity moves both totals by exactly that line's change. */
  lemma {:induction false} TotalsAfterChangeAt(a: seq<Line>, b: seq<Line>, k: nat)
    requires |a| == |b| && k < |a|
    requires forall i :: 0 <= i < |a| && i != k ==> a[i] == b[i]
    requires a[k].item == b[k].item
    ensures TotalQuantity(b) + a[k].quantity == TotalQuantity(a) + b[k].quantity
    ensures TotalAmount(b) + a[k].quantity * a[k].item.price == TotalAmount(a) + b[k].quantity * b[k].item.price
  {
    if k == 0 {
      assert a[1..] == b[1..];
    } else {
      TotalsAfterChangeAt(a[1..], b[1..], k - 1);
    }
  }

  /** One more of an item costs one more price. */
  lemma OneMore(q: nat, price: nat)
    ensures (q + 1) * price == q * price + price
  {
  }

  /** Incrementing an entry on the menu adds one item and its price to the totals. */
  lemma IncrementTotals(lines: seq<Line>, id: string, k: nat)
    requires UniqueIds(lines) && k < |lines| && lines[k].item.id == id
    ensures TotalQuantity(Incremented(lines, id)) == TotalQuantity(lines) + 1
    ensures TotalAmount(Incremented(lines, id)) == TotalAmount(lines) + lines[k].item.price
  {
    var r := Incremented(lines, id);
    TotalsAfterChangeAt(lines, r, k);
    OneMore(lines[k].quantity, lines[k].item.price);
  }

  /** Decrementing an entry already at zero leaves the cart as it is. */
  lemma DecrementAtZero(lines: seq<Line>, id: string, k: nat)
    requires UniqueIds(lines) && k < |lines| && lines[k].item.id == id && lines[k].quantity == 0
    ensures Decremented(lines, id) == lines
  {
    var r := Decremented(lines, id);
    assert forall i :: 0 <= i < |lines| ==> r[i] == lines[i];
  }

  /** Decrementing a selected entry removes one item and its price from the totals. */
  lemma DecrementTotals(lines: seq<Line>, id: string, k: nat)
    requires UniqueIds(lines) && k < |lines| && lines[k].item.id == id && lines[k].quantity > 0
    ensures TotalQuantity(Decremented(lines, id)) + 1 == TotalQuantity(lines)
    ensures TotalAmount(Decremented(lines, id)) + lines[k].item.price == TotalAmount(lines)
  {
    var r := Decremented(lines, id);
    TotalsAfterChangeAt(lines, r, k);
    OneMore(lines[k].quantity - 1, lines[k].item.price);
  }

  /** An id that names no entry leaves the cart as it is. */
  lemma UnknownIdChangesNothing(lines: seq<Line>, id: string)
    requires forall i :: 0 <= i < |lines| ==> lines[i].item.id != id
    ensures Incremented(lines, id) == lines && Decremented(lines, id) == lines
  {
    assert forall i :: 0 <= i < |lines| ==> Incremented(lines, id)[i] == lines[i];
    assert forall i :: 0 <= i < |lines| ==> Decremented(lines, id)[i] == lines[i];
  }

  /** The persisted form of one selected line. */
  function ToOrderItem(l: Line): (o: OrderItem)
    ensures o.foodname == l.item.foodname && o.quantity == l.quantity && o.price == l.item.price
    ensures o.totalPrice == o.quantity * o.price
  {
    OrderItem(l.item.foodname, l.quantity, l.item.price, l.quantity * l.item.price)
  }

  /** The snapshot's item list: the lines with quantity above zero, in menu order. */
  function OrderItems(lines: seq<Line>): (r: seq<OrderItem>)
    ensures |r| <= |lines|
    ensures forall j :: 0 <= j < |r| ==> r[j].quantity > 0 && r[j].totalPrice == r[j].quantity * r[j].price
    ensures forall i :: 0 <= i < |lines| && lines[i].quantity > 0 ==> ToOrderItem(lines[i]) in r
    ensures forall x :: x in r ==> exists i :: 0 <= i < |lines| && lines[i].quantity > 0 && x == ToOrderItem(lines[i])
  {
    if lines == [] then []
    else
      var rest := OrderItems(lines[1..]);
      assert forall i :: 1 <= i < |lines| ==> lines[i] == lines[1..][i - 1];
      if lines[0].quantity > 0 then [ToOrderItem(lines[0])] + rest else rest
  }

  /** Selection distributes over concatenation, so it keeps the menu's order. */
  lemma {:induction false} OrderItemsAppend(a: seq<Line>, b: seq<Line>)
    ensures OrderItems(a + b) == OrderItems(a) + OrderItems(b)
  {
    if a == [] {
      assert a + b == b;
    } else {
      assert (a + b)[1..] == a[1..] + b;
      OrderItemsAppend(a[1..], b);
    }
  }

  /** Unselected lines contribute nothing, so the snapshot's items sum to the cart's totals. */
  lemma {:induction false} OrderItemsTotals(lines: seq<Line>)
    ensures ItemsQuantity(OrderItems(lines)) == TotalQuantity(lines)
    ensures ItemsAmount(OrderItems(lines)) == TotalAmount(lines)
  {
    if lines != [] {
      OrderItemsTotals(lines[1..]);
      var rest := OrderItems(lines[1..]);
      var head := ToOrderItem(lines[0]);
      if lines[0].quantity > 0 {
        var items := [head] + rest;
        assert items[0] == head && items[1..] == rest;
        assert OrderItems(lines) == items;
      } else {
        assert OrderItems(lines) == rest;
        assert head.totalPrice == 0;
      }
    }
  }

  /** The summary the page writes, with the totals it currently holds. */
  function Snapshot(lines: seq<Line>, totalItems: nat, totalAmount: nat, status: Status, date: string): (r: OrderSummary)
    ensures r.orderStatus == status && r.orderDate == date
    ensures r.totalItems == totalItems && r.totalAmount == totalAmount
    ensures |r.items| <= |lines| && forall j :: 0 <= j < |r.items| ==> r.items[j].quantity > 0
  {
    OrderSummary(OrderItems(lines), totalItems, totalAmount, status, date)
  }

  /** With up-to-date totals the written summary agrees with a recomputation from its items. */
  lemma SnapshotConsistent(lines: seq<Line>, status: Status, date: string)
    ensures Consistent(Snapshot(lines, TotalQuantity(lines), TotalAmount(lines), status, date))
  {
    OrderItemsTotals(lines);
  }

  /** A fetched record whose summary is confirmed sends the page to its read-only view. */
  predicate AlreadyConfirmed(c: CustomerData)
    ensures AlreadyConfirmed(c) <==> c.orderSummary.Some? && StatusName(c.orderSummary.value.orderStatus) == "confirmed"
  {
    c.orderSummary.Some? && c.orderSummary.value.orderStatus == Confirmed
  }

  /** After a confirmed snapshot is written, the next fetch of the record reads as confirmed. */
  lemma ConfirmedWriteIsReadOnly(doc: Document, lines: seq<Line>, totalItems: nat, totalAmount: nat, date: string)
    ensures Project(ReplaceSummary(doc, Snapshot(lines, totalItems, totalAmount, Confirmed, date))).Success?
    ensures AlreadyConfirmed(Project(ReplaceSummary(doc, Snapshot(lines, totalItems, totalAmount, Confirmed, date))).value)
  {
    FetchAfterReplace(doc, Snapshot(lines, totalItems, totalAmount, Confirmed, date));
  }

  /** The menu as first shown: every entry at quantity zero. */
  function Unselected(items: seq<MenuItem>): (r: seq<Line>)
    ensures |r| == |items|
    ensures forall i :: 0 <= i < |items| ==> r[i] == Line(items[i], 0)
    ensures TotalQuantity(r) == 0 && TotalAmount(r) == 0
  {
    if items == [] then [] else [Line(items[0], 0)] + Unselected(items[1..])
  }

  const FetchFailed := "Failed to fetch data"
  const UpdateFailed := "Failed to update order"
  const MissingCustomer := "Unable to confirm order. Missing customer data."
  const ConfirmFailed := "Failed to confirm order"
  const OrderTakenPath := "/ordertaken"

  /** The state of one visit to the menu page for the `pnr` of its query string. */
  class MenuContent {
    const pnr: Option<string>
    var menuItems: seq<Line>
    var loading: bool
    var error: Option<string>
    var totalItems: nat
    var totalAmount: nat
    var customerData: Option<CustomerData>
    var isCartOpen: bool
    var orderConfirmed: bool
    var toast: Option<string>       // the last error toast shown
    var route: Option<string>       // where the router was sent, if anywhere

    /** The totals effect has run: no stale total is ever exposed. */
    ghost predicate Valid()
      reads this
      ensures Valid() && totalItems == 0 ==> totalAmount == 0
    {
      totalItems == TotalQuantity(menuItems) && totalAmount == TotalAmount(menuItems)
    }

    constructor (pnr: Option<string>)
      ensures Valid() && this.pnr == pnr && menuItems == [] && loading && error == None
      ensures customerData == None && !isCartOpen && !orderConfirmed && toast == None && route == None
    {
      this.pnr := pnr;
      menuItems := [];
      loading := true;
      error := None;
      totalItems, totalAmount := 0, 0;
      customerData := None;
      isCartOpen, orderConfirmed := false, false;
      toast, route := None, None;
    }

    /** The totals effect: both totals recomputed from the lines. */
    method RecomputeTotals()
      modifies this
      ensures Valid() && menuItems == old(menuItems)
      ensures unchanged(this`loading, this`error, this`customerData, this`isCartOpen, this`orderConfirmed, this`toast, this`route)
    {
      totalItems := TotalQuantity(menuItems);
      totalAmount := TotalAmount(menuItems);
    }

    /**
     * fetchData: with a non-empty pnr, the record is fetched first; a confirmed summary
     * stops there (read-only view, no menu). Otherwise the menu listing
     * (`menu`, the result of getMenuItems) is loaded with every quantity at 0.
     */
    method FetchData(store: CustomerStore, link: Link, menu: Result<seq<MenuItem>, Error>)
      requires Valid()
      modifies this
      ensures Valid() && !loading
      ensures unchanged(this`isCartOpen, this`toast, this`route)
      ensures Truthy(pnr) && store.GetCustomerData(pnr.value, link).Failure? ==>
        error == Some(FetchFailed) && customerData == old(customerData)
        && orderConfirmed == old(orderConfirmed) && menuItems == old(menuItems)
      ensures Truthy(pnr) && store.GetCustomerData(pnr.value, link).Success? ==>
        customerData == Some(store.GetCustomerData(pnr.value, link).value)
      ensures (Truthy(pnr) && store.GetCustomerData(pnr.value, link).Success?
               && AlreadyConfirmed(store.GetCustomerData(pnr.value, link).value)) ==>
        orderConfirmed && error == old(error) && menuItems == old(menuItems)
      ensures !Truthy(pnr) ==> customerData == old(customerData)
      ensures (!Truthy(pnr) || (store.GetCustomerData(pnr.value, link).Success?
                             && !AlreadyConfirmed(store.GetCustomerData(pnr.value, link).value))) ==>
        orderConfirmed == old(orderConfirmed)
        && (menu.Success? ==> menuItems == Unselected(menu.value) && error == old(error))
        && (menu.Failure? ==> menuItems == old(menuItems) && error == Some(FetchFailed))
    {
      loading := true;
      if Truthy(pnr) {
        var customer := store.GetCustomerData(pnr.value, link);
        if customer.Failure? {
          error := Some(FetchFailed);
          loading := false;
          return;
        }
        customerData := Some(customer.value);
        if AlreadyConfirmed(customer.value) {
          orderConfirmed := true;
          loading := false;
          return;
        }
      }
      if menu.Failure? {
        error := Some(FetchFailed);
      } else {
        menuItems := Unselected(menu.value);
        RecomputeTotals();
      }
      loading := false;
    }

    method Increment(id: string)
      requires Valid()
      modifies this
      ensures Valid() && menuItems == Incremented(old(menuItems), id)
      ensures unchanged(this`loading, this`error, this`customerData, this`isCartOpen, this`orderConfirmed, this`toast, this`route)
    {
      menuItems := Incremented(menuItems, id);
      RecomputeTotals();
    }

    method Decrement(id: string)
      requires Valid()
      modifies this
      ensures Valid() && menuItems == Decremented(old(menuItems), id)
      ensures unchanged(this`loading, this`error, this`customerData, this`isCartOpen, this`orderConfirmed, this`toast, this`route)
    {
      menuItems := Decremented(menuItems, id);
      RecomputeTotals();
    }

    /** Whether the page holds what a write needs: a non-empty pnr and the fetched record. */
    predicate CanWrite()
      reads this
      ensures CanWrite() ==> pnr.Some? && |pnr.value| > 0 && customerData.Some?
      ensures pnr == Some("") ==> !CanWrite()
    {
      Truthy(pnr) && customerData.Some?
    }

    /**
     * handleUpdateOrder: without a pnr or record, nothing is written; otherwise
     * the current snapshot is saved as pending, a failure only raising a toast.
     */
    method UpdateOrder(store: CustomerStore, now: string, link: Link)
      requires Valid()
      modifies this`toast, store
      ensures Valid()
      ensures !CanWrite() ==> store.docs == old(store.docs) && toast == old(toast)
      ensures CanWrite() && link.Up? && pnr.value in old(store.docs) ==>
        store.docs == old(store.docs)[pnr.value :=
          ReplaceSummary(old(store.docs)[pnr.value], Snapshot(menuItems, totalItems, totalAmount, Pending, now))]
        && toast == old(toast)
      ensures CanWrite() && !(link.Up? && pnr.value in old(store.docs)) ==>
        store.docs == old(store.docs) && toast == Some(UpdateFailed)
      ensures Consistent(Snapshot(menuItems, totalItems, totalAmount, Pending, now))
    {
      SnapshotConsistent(menuItems, Pending, now);
      if !CanWrite() {
        return;
      }
      var summary := Snapshot(menuItems, totalItems, totalAmount, Pending, now);
      var r := store.UpdateCustomerOrder(pnr.value, summary, link);
      if r.Failure? {
        toast := Some(UpdateFailed);
      }
    }

    /** "View Cart": the panel opens and the pending snapshot is saved. */
    method ViewCart(store: CustomerStore, now: string, link: Link)
      requires Valid()
      modifies this`isCartOpen, this`toast, store
      ensures isCartOpen && Valid()
      ensures !CanWrite() ==> store.docs == old(store.docs) && toast == old(toast)
      ensures CanWrite() && link.Up? && pnr.value in old(store.docs) ==>
        store.docs == old(store.docs)[pnr.value :=
          ReplaceSummary(old(store.docs)[pnr.value], Snapshot(menuItems, totalItems, totalAmount, Pending, now))]
        && toast == old(toast)
      ensures CanWrite() && !(link.Up? && pnr.value in old(store.docs)) ==>
        store.docs == old(store.docs) && toast == Some(UpdateFailed)
    {
      isCartOpen := true;
      UpdateOrder(store, now, link);
    }

    method CloseCart()
      requires Valid()
      modifies this`isCartOpen
      ensures Valid() && !isCartOpen
    {
      isCartOpen := false;
    }

    /**
     * handleConfirmOrder: refuses without a pnr or record; otherwise saves the
     * snapshot as confirmed with a fresh date and navigates only once the write
     * succeeded. The cart is never cleared, so a failed attempt can be retried.
     */
    method ConfirmOrder(store: CustomerStore, now: string, link: Link)
      requires Valid()
      modifies this`toast, this`route, store
      ensures Valid()
      ensures !CanWrite() ==>
        store.docs == old(store.docs) && toast == Some(MissingCustomer) && route == old(route)
      ensures CanWrite() && link.Up? && pnr.value in old(store.docs) ==>
        store.docs == old(store.docs)[pnr.value :=
          ReplaceSummary(old(store.docs)[pnr.value], Snapshot(menuItems, totalItems, totalAmount, Confirmed, now))]
        && route == Some(OrderTakenPath) && toast == old(toast)
      ensures CanWrite() && !(link.Up? && pnr.value in old(store.docs)) ==>
        store.docs == old(store.docs) && toast == Some(ConfirmFailed) && route == old(route)
    {
      if !CanWrite() {
        toast := Some(MissingCustomer);
        return;
      }
      var r := store.UpdateCustomerOrder(pnr.value, Snapshot(menuItems, totalItems, totalAmount, Confirmed, now), link);
      if r.Success? {
        route := Some(OrderTakenPath);
      } else {
        toast := Some(ConfirmFailed);
      }
    }
  }
}
