/**
 * The PNR entry form (components/pnr-form.tsx): ordering is blocked when the
 * passenger's record already carries a summary; otherwise the train lookup
 * is tried and the station page opened when it answers ok.
 */
module PnrForm {
  import opened Wrappers
  import opened OrderTypes
  import opened Database

  /** What the train-details request gives: an ok response, another response, or a thrown error. */
  datatype Response = Ok | NotOk | Thrown

  function StationPath(pnr: string): string { "/select-station?pnr=" + pnr }

  /** Whether a lookup found a record that already holds an order. */
  predicate OrderAlreadyTaken(lookup: Result<CustomerData, Error>)
    ensures OrderAlreadyTaken(lookup) ==> lookup.Success?
    ensures lookup.Success? && lookup.value.orderSummary.None? ==> !OrderAlreadyTaken(lookup)
  {
    lookup.Success? && lookup.value.orderSummary.Some?
  }

  /** Whether the station page is reached: the first request is ok, or it threw and the second is ok. */
  predicate Proceeds(first: Response, second: Response)
    ensures first == Ok ==> Proceeds(first, second)
    ensures first == NotOk ==> !Proceeds(first, second)
    ensures first == Thrown ==> (Proceeds(first, second) <==> second == Ok)
  {
    first == Ok || (first == Thrown && second == Ok)
  }

  class PnrEntry {
    var pnr: string
    var isLoading: bool
    var orderTaken: bool
    var route: Option<string>
    ghost var trainRequests: nat   // train-details requests issued by the last submit

    constructor ()
      ensures pnr == "" && !isLoading && !orderTaken && route == None
    {
      pnr := "";
      isLoading, orderTaken := false, false;
      route := None;
      trainRequests := 0;
    }

    /**
     * handleSubmit. `link` decides the record lookup; `first` and `second` are
     * the answers to the train-details requests in the order they are made.
     * A failed lookup lands in the catch block, which requests train details
     * itself; a request that throws inside the try block lands there too and
     * makes a second request.
     */
    method HandleSubmit(store: CustomerStore, link: Link, first: Response, second: Response)
      modifies this`isLoading, this`orderTaken, this`route, this`trainRequests
      ensures var lookup := store.GetCustomerData(pnr, link);
        if OrderAlreadyTaken(lookup) then
          orderTaken && !isLoading && route == old(route) && trainRequests == 0
        else if lookup.Success? then
          !orderTaken && trainRequests == (if first == Thrown then 2 else 1)
          && (Proceeds(first, second) ==> route == Some(StationPath(pnr)) && isLoading)
          && (!Proceeds(first, second) ==> route == old(route) && !isLoading)
        else
          !orderTaken && trainRequests == 1
          && (first == Ok ==> route == Some(StationPath(pnr)) && isLoading)
          && (first != Ok ==> route == old(route) && !isLoading)
      ensures isLoading ==> route == Some(StationPath(pnr))
      ensures !isLoading ==> route == old(route)
    {
      isLoading := true;
      orderTaken := false;
      trainRequests := 0;
      var lookup := store.GetCustomerData(pnr, link);
      var inCatch := false;
      var catchResponse := first;
      if lookup.Success? {
        if lookup.value.orderSummary.Some? {
          orderTaken := true;
          isLoading := false;
          return;
        }
        trainRequests := 1;
        if first == Ok {
          route := Some(StationPath(pnr));
        } else if first == NotOk {
          isLoading := false;
        } else {
          inCatch := true;
          catchResponse := second;
        }
      } else {
        inCatch := true;
      }
      if inCatch {
        trainRequests := trainRequests + 1;
        if catchResponse == Ok {
          route := Some(StationPath(pnr));
        } else {
          isLoading := false;
        }
      }
    }
  }
}
