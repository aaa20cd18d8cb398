/**
 * The order-tracking page (app/trackorder/page.tsx): look a record up by
 * PNR, show its summary with a status colour, and offer one action on it:
 * Confirm for a pending summary, Cancel (delete the record) otherwise.
 */
module TrackOrder {
  import opened Wrappers
  import opened OrderTypes
  import opened Database
  import SummaryCodec

  function LowerChar(c: char): char
  {
    if 'A' <= c <= 'Z' then (c as int + ('a' as int - 'A' as int)) as char else c
  }

  /** Lower-casing of the ASCII letters. */
  function ToLower(s: string): (r: string)
    ensures |r| == |s|
    ensures forall i :: 0 <= i < |s| ==> r[i] == LowerChar(s[i])
  {
    if s == [] then [] else [LowerChar(s[0])] + ToLower(s[1..])
  }

  lemma {:induction false} ToLowerIdempotent(s: string)
    ensures ToLower(ToLower(s)) == ToLower(s)
  {
    assert forall i :: 0 <= i < |s| ==> ToLower(ToLower(s))[i] == ToLower(s)[i];
  }

  const GreenBadge := "bg-green-500 hover:bg-green-600"
  const YellowBadge := "bg-yellow-500 hover:bg-yellow-600"
  const GrayBadge := "bg-gray-500 hover:bg-gray-600"

  /** getStatusColor: the badge classes for a status string, compared without case. */
  function StatusColor(status: string): (color: string)
    ensures color in {GreenBadge, YellowBadge, GrayBadge}
  {
    var lower := ToLower(status);
    if lower == "confirmed" then GreenBadge
    else if lower == "pending" then YellowBadge
    else GrayBadge
  }

  /** The colour depends on the status only up to letter case. */
  lemma ColorIgnoresCase(a: string, b: string)
    requires ToLower(a) == ToLower(b)
    ensures StatusColor(a) == StatusColor(b)
  {
  }

  lemma ColorOfLowered(s: string)
    ensures StatusColor(ToLower(s)) == StatusColor(s)
  {
    ToLowerIdempotent(s);
  }

  /** A string without upper-case letters is its own lower-case form. */
  lemma LowerOfLowercase(s: string)
    requires forall i :: 0 <= i < |s| ==> !('A' <= s[i] <= 'Z')
    ensures ToLower(s) == s
  {
    assert forall i :: 0 <= i < |s| ==> ToLower(s)[i] == s[i];
  }

  /** The colour each stored status is shown in. */
  lemma StatusColors(st: Status)
    ensures StatusColor(StatusName(st)) ==
      match st
      case Confirmed => GreenBadge
      case Pending => YellowBadge
      case _ => GrayBadge
  {
    LowerOfLowercase(StatusName(st));
  }

  /** Upper-case spellings of a status get the same colour. */
  lemma UpperCaseColors()
    ensures StatusColor("CONFIRMED") == GreenBadge
    ensures StatusColor("PENDING") == YellowBadge
  {
    var c := ToLower("CONFIRMED");
    assert forall i :: 0 <= i < 9 ==> c[i] == "confirmed"[i];
    assert c == "confirmed";
    var p := ToLower("PENDING");
    assert forall i :: 0 <= i < 7 ==> p[i] == "pending"[i];
    assert p == "pending";
  }

  /** What parseSummary may be handed: summary text, or an already decoded summary. */
  datatype SummaryInput = Text(text: string) | Decoded(summary: OrderSummary)

  /**
   * parseSummary: a decoded summary is returned unchanged and text is decoded.
   * None stands for the empty object `{}` returned when the text does not parse.
   */
  function ParseSummary(input: SummaryInput): (r: Option<OrderSummary>)
    ensures input.Decoded? ==> r == Some(input.summary)
    ensures input.Text? ==> r == SummaryCodec.Decode(input.text)
    ensures input.Text? && SummaryCodec.Decode(input.text).None? ==> r == None
  {
    match input
    case Decoded(s) => Some(s)
    case Text(t) => SummaryCodec.Decode(t)
  }

  /** Parsing the text of a summary gives that summary back. */
  lemma ParseEncoded(s: OrderSummary)
    ensures ParseSummary(Text(SummaryCodec.Encode(s))) == Some(s)
  {
    SummaryCodec.RoundTrip(s);
  }

  datatype Action = ConfirmAction | CancelAction

  /** The button in the card footer: Confirm exactly when the parsed status is pending. */
  function ActionFor(parsed: Option<OrderSummary>): (a: Action)
    ensures a == ConfirmAction <==> parsed.Some? && parsed.value.orderStatus == Pending
  {
    if parsed.Some? && parsed.value.orderStatus == Pending then ConfirmAction else CancelAction
  }

  /** The order card, and with it any action, is shown only for a record with a summary. */
  function OfferedAction(details: Option<CustomerData>): (a: Option<Action>)
    ensures a.Some? <==> details.Some? && details.value.orderSummary.Some?
    ensures a.Some? ==> (a.value == ConfirmAction <==> details.value.orderSummary.value.orderStatus == Pending)
  {
    if details.Some? && details.value.orderSummary.Some? then
      Some(ActionFor(ParseSummary(Decoded(details.value.orderSummary.value))))
    else None
  }

  /** Cancel is offered for every status but pending, confirmed and delivered included. */
  lemma CancelOfferedWhenNotPending(d: CustomerData)
    requires d.orderSummary.Some? && d.orderSummary.value.orderStatus != Pending
    ensures OfferedAction(Some(d)) == Some(CancelAction)
  {
  }

  /** The summary the page's confirm writes: only the status changes; the date is kept. */
  function ConfirmedCopy(s: OrderSummary): (r: OrderSummary)
    ensures r.orderStatus == Confirmed
    ensures r.items == s.items && r.totalItems == s.totalItems && r.totalAmount == s.totalAmount
    ensures r.orderDate == s.orderDate
  {
    s.(orderStatus := Confirmed)
  }

  const NotFoundMessage := "Order not found"
  const ConfirmFailedMessage := "Failed to confirm order. Please try again."
  const CancelFailedMessage := "Failed to cancel order. Please try again."
  const OrderPath := "/order"

  class TrackOrderContent {
    var pnr: string
    var orderDetails: Option<CustomerData>
    var error: string
    var location: Option<string>   // where the window was sent, if anywhere

    constructor ()
      ensures pnr == "" && orderDetails == None && error == "" && location == None
    {
      pnr := "";
      orderDetails := None;
      error := "";
      location := None;
    }

    /** handleSearch: clears the error and details, then shows the record or "Order not found". */
    method HandleSearch(store: CustomerStore, searchPnr: string, link: Link)
      modifies this`orderDetails, this`error
      ensures store.GetCustomerData(searchPnr, link).Success? ==>
        orderDetails == Some(store.GetCustomerData(searchPnr, link).value) && error == ""
      ensures store.GetCustomerData(searchPnr, link).Failure? ==>
        orderDetails == None && error == NotFoundMessage
    {
      error := "";
      orderDetails := None;
      var data := store.GetCustomerData(searchPnr, link);
      if data.Success? {
        orderDetails := Some(data.value);
      } else {
        error := NotFoundMessage;
      }
    }

    /** handleSubmit of the search form. */
    method Submit(store: CustomerStore, link: Link)
      modifies this`orderDetails, this`error
      ensures store.GetCustomerData(pnr, link).Success? ==>
        orderDetails == Some(store.GetCustomerData(pnr, link).value) && error == ""
      ensures store.GetCustomerData(pnr, link).Failure? ==> orderDetails == None && error == NotFoundMessage
    {
      HandleSearch(store, pnr, link);
    }

    /**
     * handleConfirmOrder: without details or summary nothing happens. Otherwise
     * the summary is written back with its status set to confirmed, under the
     * record's own pnrNumber, and the record is searched for again (`refetch`).
     * The status is set on the summary the page holds, not on a copy, so when
     * the write fails the page goes on showing the summary as confirmed.
     */
    method HandleConfirmOrder(store: CustomerStore, write: Link, refetch: Link)
      modifies this`orderDetails, this`error, store
      ensures old(orderDetails).None? ==>
        store.docs == old(store.docs) && orderDetails == old(orderDetails) && error == old(error)
      ensures old(orderDetails).Some? && old(orderDetails).value.orderSummary.None? ==>
        store.docs == old(store.docs) && orderDetails == old(orderDetails) && error == old(error)
      ensures old(orderDetails).Some? && old(orderDetails).value.orderSummary.Some? ==>
        var key := old(orderDetails).value.pnrNumber;
        var updated := ConfirmedCopy(old(orderDetails).value.orderSummary.value);
        if write.Up? && key in old(store.docs) then
          store.docs == old(store.docs)[key := ReplaceSummary(old(store.docs)[key], updated)]
          && (store.GetCustomerData(key, refetch).Success? ==>
                orderDetails == Some(store.GetCustomerData(key, refetch).value) && error == "")
          && (store.GetCustomerData(key, refetch).Failure? ==> orderDetails == None && error == NotFoundMessage)
        else
          store.docs == old(store.docs) && error == ConfirmFailedMessage
          && orderDetails == Some(old(orderDetails).value.(orderSummary := Some(updated)))
    {
      if orderDetails.None? || orderDetails.value.orderSummary.None? {
        return;
      }
      var details := orderDetails.value;
      var parsed := ParseSummary(Decoded(details.orderSummary.value));
      var updated := parsed.value.(orderStatus := Confirmed);
      var r := store.UpdateCustomerOrder(details.pnrNumber, updated, write);
      if r.Failure? {
        // The status was flipped on the summary object the page itself holds.
        orderDetails := Some(details.(orderSummary := Some(updated)));
        error := ConfirmFailedMessage;
        return;
      }
      HandleSearch(store, details.pnrNumber, refetch);
    }

    /** handleCancelOrder: without details nothing happens; otherwise the record is deleted. */
    method HandleCancelOrder(store: CustomerStore, link: Link)
      modifies this`error, this`location, store
      ensures old(orderDetails).None? ==>
        store.docs == old(store.docs) && error == old(error) && location == old(location)
      ensures orderDetails.Some? ==>
        var key := orderDetails.value.pnrNumber;
        if link.Up? && key in old(store.docs) then
          store.docs == old(store.docs) - {key} && location == Some(OrderPath) && error == old(error)
          && store.GetCustomerData(key, Up) == Failure(NotFound)
        else
          store.docs == old(store.docs) && location == old(location) && error == CancelFailedMessage
    {
      if orderDetails.None? {
        return;
      }
      var r := store.DeleteCustomerData(orderDetails.value.pnrNumber, link);
      if r.Pass? {
        location := Some(OrderPath);
      } else {
        error := CancelFailedMessage;
      }
    }
  }
}
