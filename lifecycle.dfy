/**
 * The order lifecycle as the pages drive it end to end: registration creates
 * the record, the menu saves pending snapshots and confirms, a later visit
 * sees the confirmation, and the tracking page's cancel removes the record.
 */
module Lifecycle {
  import opened Wrappers
  import opened OrderTypes
  import opened Database
  import MenuPage
  import TrackOrder
  import TrainDetails

  /** The worked cart of two dishes: 2 x 100 and 1 x 150. */
  lemma CartExample()
    ensures
      var a := MenuItem("a", "Item A", 100, "");
      var b := MenuItem("b", "Item B", 150, "");
      var lines := [MenuPage.Line(a, 2), MenuPage.Line(b, 1)];
      MenuPage.TotalQuantity(lines) == 3 && MenuPage.TotalAmount(lines) == 350
      && MenuPage.OrderItems(lines) == [OrderItem("Item A", 2, 100, 200), OrderItem("Item B", 1, 150, 150)]
  {
    var a := MenuItem("a", "Item A", 100, "");
    var b := MenuItem("b", "Item B", 150, "");
    var lines := [MenuPage.Line(a, 2), MenuPage.Line(b, 1)];
    assert lines[1..] == [MenuPage.Line(b, 1)];
    assert lines[1..][1..] == [];
    assert MenuPage.TotalQuantity(lines[1..]) == 1 && MenuPage.TotalAmount(lines[1..]) == 150;
  }

  /** A second registration for the same PNR is refused and leaves the first record in place. */
  method RegisterTwice(store: CustomerStore, form: TrainDetails.TrainDetailsForm, link: Link)
    requires Truthy(form.selectedStation) && Truthy(form.data.pnr)
    modifies store, form
    ensures (link.Up? && form.data.pnr.value !in old(store.docs)) ==>
      form.notification == Some(TrainDetails.SubmitFailed)
      && store.docs == old(store.docs)[form.data.pnr.value :=
           ToDocument(TrainDetails.Submission(old(form.customerDetails), old(form.selectedStation).value, form.data.pnr.value))]
  {
    form.HandleSubmit(store, link);
    form.HandleSubmit(store, Up);
  }

  /**
   * A confirmed order cannot be edited again from the menu: once the confirm
   * write succeeds, a new visit for the same PNR lands on the read-only view
   * without loading the menu.
   */
  method ConfirmThenRevisit(store: CustomerStore, session: MenuPage.MenuContent, now: string,
                            menu: Result<seq<MenuItem>, Error>)
    returns (revisit: MenuPage.MenuContent)
    requires session.Valid() && session.CanWrite() && session.pnr.value in store.docs
    modifies store, session
    ensures session.route == Some(MenuPage.OrderTakenPath)
    ensures revisit.pnr == session.pnr && revisit.orderConfirmed && revisit.menuItems == [] && !revisit.loading
  {
    session.ConfirmOrder(store, now, Up);
    var pnr := session.pnr.value;
    var doc := old(store.docs)[pnr];
    var summary := MenuPage.Snapshot(session.menuItems, session.totalItems, session.totalAmount, Confirmed, now);
    MenuPage.ConfirmedWriteIsReadOnly(doc, session.menuItems, session.totalItems, session.totalAmount, now);
    assert store.GetCustomerData(pnr, Up) == Project(ReplaceSummary(doc, summary));
    revisit := new MenuPage.MenuContent(session.pnr);
    revisit.FetchData(store, Up, menu);
  }

  /** Saving pending any number of times keeps the record open to confirmation and cancel. */
  method SaveTwiceThenTrack(store: CustomerStore, session: MenuPage.MenuContent, t1: string, t2: string,
                            track: TrackOrder.TrackOrderContent)
    requires session.Valid() && session.CanWrite() && session.pnr.value in store.docs
    modifies store, session, track
    ensures store.GetCustomerData(session.pnr.value, Up).Success?
    ensures track.orderDetails.Some?
    ensures TrackOrder.OfferedAction(track.orderDetails) == Some(TrackOrder.ConfirmAction)
  {
    var pnr := session.pnr.value;
    session.ViewCart(store, t1, Up);
    session.CloseCart();
    session.ViewCart(store, t2, Up);
    var summary := MenuPage.Snapshot(session.menuItems, session.totalItems, session.totalAmount, Pending, t2);
    assert store.docs[pnr] == ReplaceSummary(old(store.docs)[pnr], summary);
    FetchAfterReplace(old(store.docs)[pnr], summary);
    track.HandleSearch(store, pnr, Up);
  }

  /** Cancelling from the tracking page deletes the record, so the next search finds nothing. */
  method CancelThenSearch(store: CustomerStore, track: TrackOrder.TrackOrderContent)
    requires track.orderDetails.Some? && track.orderDetails.value.pnrNumber in store.docs
    modifies store, track
    ensures track.location == Some(TrackOrder.OrderPath)
    ensures track.orderDetails == None && track.error == TrackOrder.NotFoundMessage
  {
    var key := track.orderDetails.value.pnrNumber;
    track.HandleCancelOrder(store, Up);
    track.HandleSearch(store, key, Up);
  }
}
