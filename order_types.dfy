/** The record types shared by the services and the pages (services/database.ts). */
module OrderTypes {
  import opened Wrappers

  /** The four literal values of `OrderSummary.orderStatus`. */
  datatype Status = Pending | Confirmed | Delivered | Cancelled

  /** The string a status is written as in the stored summary and compared by the pages. */
  function StatusName(st: Status): (name: string)
    ensures StatusFromName(name) == Some(st)
  {
    match st
    case Pending => "pending"
    case Confirmed => "confirmed"
    case Delivered => "delivered"
    case Cancelled => "cancelled"
  }

  /** Reads a status back from its name; any other string is not a status. */
  function StatusFromName(name: string): (r: Option<Status>)
  {
    if name == "pending" then Some(Pending)
    else if name == "confirmed" then Some(Confirmed)
    else if name == "delivered" then Some(Delivered)
    else if name == "cancelled" then Some(Cancelled)
    else None
  }

  datatype Payment = Online | Cash

  /** A catalog entry; `id` is the document id (`$id`) of the menu collection. */
  datatype MenuItem = MenuItem(id: string, foodname: string, price: nat, imageurl: string)

  /** A persisted order line. */
  datatype OrderItem = OrderItem(foodname: string, quantity: nat, price: nat, totalPrice: nat)

  datatype OrderSummary = OrderSummary(
    items: seq<OrderItem>,
    totalItems: nat,
    totalAmount: nat,
    orderStatus: Status,
    orderDate: string)

  /** A passenger record as the pages see it, with the summary already decoded. */
  datatype CustomerData = CustomerData(
    name: string,
    phoneNumber: string,
    contactOnWhatsapp: bool,
    email: Option<string>,
    pnrNumber: string,
    berthNumber: string,
    seatNumber: string,
    paymentMethod: Payment,
    selectedStation: string,
    orderSummary: Option<OrderSummary>)

  /** Sum of the quantities of a list of order items. */
  function ItemsQuantity(items: seq<OrderItem>): nat
  {
    if items == [] then 0 else items[0].quantity + ItemsQuantity(items[1..])
  }

  /** Sum of the line totals of a list of order items. */
  function ItemsAmount(items: seq<OrderItem>): nat
  {
    if items == [] then 0 else items[0].totalPrice + ItemsAmount(items[1..])
  }

  /** A summary whose totals agree with a recomputation from its own items. */
  predicate Consistent(s: OrderSummary)
  {
    s.totalItems == ItemsQuantity(s.items) && s.totalAmount == ItemsAmount(s.items)
  }
}
