/**
 * The registration form (components/train-details.tsx): the stations the
 * passenger may pick, the form-validity rule, and the submission that
 * creates the passenger record and moves on to the menu.
 */
module TrainDetails {
  import opened Wrappers
  import opened OrderTypes
  import opened Database

  datatype Station = Station(stationName: string, stationCode: string, arrives: string, departs: string)

  /** The train lookup's response; every field may be missing. */
  datatype TrainData = TrainData(
    trainSchedule: Option<seq<Station>>,
    servingList: Option<seq<string>>,
    pnr: Option<string>)

  /** Stations of `schedule` whose code is in `serving`, in schedule order. */
  function ServingStations(schedule: seq<Station>, serving: seq<string>): (r: seq<Station>)
    ensures |r| <= |schedule|
    ensures serving == [] ==> r == []
    ensures forall j :: 0 <= j < |r| ==> r[j].stationCode in serving
    ensures forall st :: st in r <==> st in schedule && st.stationCode in serving
  {
    if schedule == [] then []
    else
      var rest := ServingStations(schedule[1..], serving);
      assert forall st :: st in schedule <==> st == schedule[0] || st in schedule[1..];
      if schedule[0].stationCode in serving then [schedule[0]] + rest else rest
  }

  /** Filtering distributes over concatenation, so the schedule's order is kept. */
  lemma {:induction false} ServingStationsAppend(a: seq<Station>, b: seq<Station>, serving: seq<string>)
    ensures ServingStations(a + b, serving) == ServingStations(a, serving) + ServingStations(b, serving)
  {
    if a == [] {
      assert a + b == b;
    } else {
      assert (a + b)[1..] == a[1..] + b;
      ServingStationsAppend(a[1..], b, serving);
    }
  }

  /** filteredSchedule: empty without a schedule; a missing serving list serves nothing. */
  function FilteredSchedule(data: TrainData): (r: seq<Station>)
    ensures data.trainSchedule.None? ==> r == []
    ensures data.servingList.None? ==> r == []
    ensures data.trainSchedule.Some? ==>
      forall st :: st in r <==> st in data.trainSchedule.value && data.servingList.Some? && st.stationCode in data.servingList.value
  {
    var serving := if data.servingList.Some? then data.servingList.value else [];
    if data.trainSchedule.Some? then ServingStations(data.trainSchedule.value, serving) else []
  }

  /** The validity effect: all required fields filled, a station picked, and cash chosen. */
  predicate IsFormValid(details: CustomerData, selectedStation: Option<string>)
    ensures IsFormValid(details, selectedStation) ==>
      details.name != "" && details.phoneNumber != "" && details.berthNumber != "" && details.seatNumber != ""
    ensures selectedStation.None? || details.paymentMethod == Online ==> !IsFormValid(details, selectedStation)
  {
    details.name != "" && details.phoneNumber != "" && details.berthNumber != ""
    && details.seatNumber != "" && selectedStation.Some? && details.paymentMethod == Cash
  }

  /** The submit button's disabled condition. */
  predicate SubmitDisabled(isLoading: bool, details: CustomerData, selectedStation: Option<string>)
    ensures isLoading || details.paymentMethod == Online ==> SubmitDisabled(isLoading, details, selectedStation)
    ensures !SubmitDisabled(isLoading, details, selectedStation) ==> IsFormValid(details, selectedStation)
  {
    isLoading || !IsFormValid(details, selectedStation) || details.paymentMethod == Online
  }

  /** Submission is possible exactly when idle and the form is valid; online payment never submits. */
  lemma SubmitEnabledIff(isLoading: bool, details: CustomerData, selectedStation: Option<string>)
    ensures !SubmitDisabled(isLoading, details, selectedStation) <==> !isLoading && IsFormValid(details, selectedStation)
    ensures details.paymentMethod == Online ==> SubmitDisabled(isLoading, details, selectedStation)
  {
  }

  /** The validity rule checks only that a station is chosen; an empty code still passes it. */
  lemma ValidFormMayStillBeRefused(details: CustomerData)
    requires details.name != "" && details.phoneNumber != "" && details.berthNumber != ""
    requires details.seatNumber != "" && details.paymentMethod == Cash
    ensures IsFormValid(details, Some("")) && !Truthy(Some(""))
  {
  }

  /** The form's initial contents. */
  function InitialDetails(data: TrainData): (d: CustomerData)
    ensures !IsFormValid(d, None) && d.paymentMethod == Cash && d.orderSummary == None
  {
    CustomerData("", "", true, Some(""), if data.pnr.Some? then data.pnr.value else "", "", "", Cash, "", None)
  }

  /** dataToSubmit: the form with the chosen station and the lookup's pnr, an empty email dropped. */
  function Submission(details: CustomerData, station: string, pnr: string): (r: CustomerData)
    ensures r.selectedStation == station && r.pnrNumber == pnr
    ensures r.email == StripEmail(details.email)
    ensures r == details.(selectedStation := station, pnrNumber := pnr, email := r.email)
  {
    details.(selectedStation := station, pnrNumber := pnr, email := if Truthy(details.email) then details.email else None)
  }

  /** The service strips the email again; stripping an already submitted form is harmless. */
  lemma StripEmailIdempotent(details: CustomerData, station: string, pnr: string)
    ensures StripEmail(Submission(details, station, pnr).email) == Submission(details, station, pnr).email
  {
  }

  datatype Kind = SuccessNote | ErrorNote
  datatype Notification = Notification(kind: Kind, message: string)

  const Submitted := Notification(SuccessNote, "Customer data submitted successfully!")
  const SubmitFailed := Notification(ErrorNote, "Failed to submit customer data. Please try again.")

  function MenuPath(pnr: string): string { "/menu?pnr=" + pnr }

  class TrainDetailsForm {
    const data: TrainData
    var selectedStation: Option<string>
    var customerDetails: CustomerData
    var isLoading: bool
    var notification: Option<Notification>
    var route: Option<string>

    constructor (data: TrainData)
      ensures this.data == data && selectedStation == None && customerDetails == InitialDetails(data)
      ensures !isLoading && notification == None && route == None
    {
      this.data := data;
      selectedStation := None;
      customerDetails := InitialDetails(data);
      isLoading := false;
      notification := None;
      route := None;
    }

    /**
     * handleSubmit: a missing (or empty) station or pnr raises before any write;
     * otherwise the record is created under the lookup's pnr and the menu is
     * opened only after the create succeeded. Loading always ends cleared.
     */
    method HandleSubmit(store: CustomerStore, link: Link)
      modifies this`isLoading, this`notification, this`route, store
      ensures !isLoading
      ensures !Truthy(selectedStation) || !Truthy(data.pnr) ==>
        store.docs == old(store.docs) && notification == Some(SubmitFailed) && route == old(route)
      ensures Truthy(selectedStation) && Truthy(data.pnr) ==>
        var record := Submission(customerDetails, selectedStation.value, data.pnr.value);
        if link.Up? && data.pnr.value !in old(store.docs) then
          store.docs == old(store.docs)[data.pnr.value := ToDocument(record)]
          && notification == Some(Submitted) && route == Some(MenuPath(data.pnr.value))
        else
          store.docs == old(store.docs) && notification == Some(SubmitFailed) && route == old(route)
    {
      isLoading := true;
      notification := None;
      if !Truthy(selectedStation) || !Truthy(data.pnr) {
        notification := Some(SubmitFailed);
        isLoading := false;
        return;
      }
      var record := Submission(customerDetails, selectedStation.value, data.pnr.value);
      var r := store.AddCustomerData(record, data.pnr.value, link);
      if r.Success? {
        notification := Some(Submitted);
        route := Some(MenuPath(data.pnr.value));
      } else {
        notification := Some(SubmitFailed);
      }
      isLoading := false;
    }
  }
}
