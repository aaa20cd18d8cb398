/**
 * The passenger-record service of services/database.ts over the remote
 * document collection. The collection is a map from document id (the PNR)
 * to the stored document; the summary inside a document is kept as text.
 * Whether the network call reaches the store is an input (`Link`).
 */
module Database {
  import opened Wrappers
  import opened OrderTypes
  import SummaryCodec

  /** The failures the store raises, which every service call re-throws unchanged. */
  datatype Error =
    | NotFound                    // no document with the requested id
    | AlreadyExists               // a document with that id already exists
    | Unavailable(reason: string) // the call did not complete
    | Malformed                   // the stored summary text does not parse

  /** Whether a remote call gets through, or the reason it fails. */
  datatype Link = Up | Down(reason: string)

  /** A stored document: the record's fields, `email` only when non-empty, the summary as text. */
  datatype Document = Document(
    name: string,
    phoneNumber: string,
    contactOnWhatsapp: bool,
    email: Option<string>,
    pnrNumber: string,
    berthNumber: string,
    seatNumber: string,
    paymentMethod: Payment,
    selectedStation: string,
    orderSummary: Option<string>)

  /** The email field as submitted: kept only when it is present and non-empty. */
  function StripEmail(email: Option<string>): (r: Option<string>)
    ensures r.Some? <==> Truthy(email)
    ensures r.Some? ==> r == email
    ensures !Truthy(r) ==> r == None
  {
    if Truthy(email) then email else None
  }

  /** The document written for a new record. */
  function ToDocument(data: CustomerData): (d: Document)
    ensures d.pnrNumber == data.pnrNumber && d.selectedStation == data.selectedStation
    ensures d.name == data.name && d.phoneNumber == data.phoneNumber && d.contactOnWhatsapp == data.contactOnWhatsapp
    ensures d.berthNumber == data.berthNumber && d.seatNumber == data.seatNumber && d.paymentMethod == data.paymentMethod
    ensures Truthy(d.email) == Truthy(data.email) && (d.email.Some? ==> d.email == data.email)
    ensures d.orderSummary.Some? <==> data.orderSummary.Some?
    ensures data.orderSummary.Some? ==> SummaryCodec.Decode(d.orderSummary.value) == data.orderSummary
  {
    Document(data.name, data.phoneNumber, data.contactOnWhatsapp, StripEmail(data.email),
             data.pnrNumber, data.berthNumber, data.seatNumber, data.paymentMethod,
             data.selectedStation,
             if data.orderSummary.Some? then
               (SummaryCodec.RoundTrip(data.orderSummary.value); Some(SummaryCodec.Encode(data.orderSummary.value)))
             else None)
  }

  /** The record fields of a document together with a decoded summary. */
  function WithSummary(doc: Document, summary: Option<OrderSummary>): (c: CustomerData)
    ensures c.orderSummary == summary
    ensures c.pnrNumber == doc.pnrNumber && c.email == doc.email && c.selectedStation == doc.selectedStation
    ensures c.paymentMethod == doc.paymentMethod && c.name == doc.name && c.phoneNumber == doc.phoneNumber
    ensures c.berthNumber == doc.berthNumber && c.seatNumber == doc.seatNumber && c.contactOnWhatsapp == doc.contactOnWhatsapp
  {
    CustomerData(doc.name, doc.phoneNumber, doc.contactOnWhatsapp, doc.email, doc.pnrNumber,
                 doc.berthNumber, doc.seatNumber, doc.paymentMethod, doc.selectedStation, summary)
  }

  /** The record a fetched document is turned into; an empty or absent text means no summary. */
  function Project(doc: Document): (r: Result<CustomerData, Error>)
    ensures r.Failure? <==> Truthy(doc.orderSummary) && SummaryCodec.Decode(doc.orderSummary.value).None?
    ensures r.Failure? ==> r.error == Malformed
    ensures r.Success? ==> r.value == WithSummary(doc, r.value.orderSummary)
    ensures r.Success? ==> (r.value.orderSummary.None? <==> !Truthy(doc.orderSummary))
    ensures r.Success? && Truthy(doc.orderSummary) ==>
      SummaryCodec.Decode(doc.orderSummary.value) == r.value.orderSummary
  {
    if !Truthy(doc.orderSummary) then Success(WithSummary(doc, None))
    else match SummaryCodec.Decode(doc.orderSummary.value)
      case None => Failure(Malformed)
      case Some(s) => Success(WithSummary(doc, Some(s)))
  }

  /** The document after its summary field alone has been replaced. */
  function ReplaceSummary(doc: Document, summary: OrderSummary): (d: Document)
    ensures d.(orderSummary := doc.orderSummary) == doc
    ensures d.orderSummary.Some? && SummaryCodec.Decode(d.orderSummary.value) == Some(summary)
  {
    SummaryCodec.RoundTrip(summary);
    doc.(orderSummary := Some(SummaryCodec.Encode(summary)))
  }

  /** Fetching a freshly replaced summary yields that summary and the unchanged record fields. */
  lemma FetchAfterReplace(doc: Document, summary: OrderSummary)
    ensures Project(ReplaceSummary(doc, summary)) == Success(WithSummary(doc, Some(summary)))
  {
    SummaryCodec.RoundTrip(summary);
  }

  /** Fetching a created record gives back what was submitted, minus an empty email. */
  lemma FetchAfterCreate(data: CustomerData)
    ensures Project(ToDocument(data)) == Success(data.(email := StripEmail(data.email)))
  {
  }

  /** The remote collection of passenger records, keyed by PNR. */
  class CustomerStore {
    var docs: map<string, Document>

    constructor ()
      ensures docs == map[]
    {
      docs := map[];
    }

    /** addCustomerData: create-if-absent under the key `pnr`. */
    method AddCustomerData(data: CustomerData, pnr: string, link: Link) returns (r: Result<Document, Error>)
      modifies this
      ensures link.Down? ==> r == Failure(Unavailable(link.reason)) && docs == old(docs)
      ensures link.Up? && pnr in old(docs) ==> r == Failure(AlreadyExists) && docs == old(docs)
      ensures link.Up? && pnr !in old(docs) ==>
        r == Success(ToDocument(data)) && docs == old(docs)[pnr := ToDocument(data)]
      ensures r.Success? ==> GetCustomerData(pnr, Up) == Success(data.(email := StripEmail(data.email)))
    {
      if link.Down? {
        r := Failure(Unavailable(link.reason));
      } else if pnr in docs {
        r := Failure(AlreadyExists);
      } else {
        var doc := ToDocument(data);
        docs := docs[pnr := doc];
        r := Success(doc);
        FetchAfterCreate(data);
      }
    }

    /** getCustomerData: the stored document under `pnr`, decoded. */
    function GetCustomerData(pnr: string, link: Link): (r: Result<CustomerData, Error>)
      reads this
      ensures link.Down? ==> r == Failure(Unavailable(link.reason))
      ensures link.Up? && pnr !in docs ==> r == Failure(NotFound)
      ensures link.Up? && pnr in docs ==> r == Project(docs[pnr])
      ensures r.Success? ==> link.Up? && pnr in docs && r.value == WithSummary(docs[pnr], r.value.orderSummary)
    {
      if link.Down? then Failure(Unavailable(link.reason))
      else if pnr !in docs then Failure(NotFound)
      else Project(docs[pnr])
    }

    /** updateCustomerOrder: replaces the whole summary of an existing record and nothing else. */
    method UpdateCustomerOrder(pnr: string, summary: OrderSummary, link: Link) returns (r: Result<Document, Error>)
      modifies this
      ensures link.Down? ==> r == Failure(Unavailable(link.reason)) && docs == old(docs)
      ensures link.Up? && pnr !in old(docs) ==> r == Failure(NotFound) && docs == old(docs)
      ensures link.Up? && pnr in old(docs) ==>
        r == Success(ReplaceSummary(old(docs)[pnr], summary))
        && docs == old(docs)[pnr := ReplaceSummary(old(docs)[pnr], summary)]
      ensures r.Success? ==> GetCustomerData(pnr, Up) == Success(WithSummary(old(docs)[pnr], Some(summary)))
    {
      if link.Down? {
        r := Failure(Unavailable(link.reason));
      } else if pnr !in docs {
        r := Failure(NotFound);
      } else {
        var doc := ReplaceSummary(docs[pnr], summary);
        FetchAfterReplace(docs[pnr], summary);
        docs := docs[pnr := doc];
        r := Success(doc);
      }
    }

    /** deleteCustomerData: removes the record under `pnr`. */
    method DeleteCustomerData(pnr: string, link: Link) returns (r: Outcome<Error>)
      modifies this
      ensures link.Down? ==> r == Fail(Unavailable(link.reason)) && docs == old(docs)
      ensures link.Up? && pnr !in old(docs) ==> r == Fail(NotFound) && docs == old(docs)
      ensures link.Up? && pnr in old(docs) ==> r == Pass && docs == old(docs) - {pnr}
      ensures r.Pass? ==> GetCustomerData(pnr, Up) == Failure(NotFound)
    {
      if link.Down? {
        r := Fail(Unavailable(link.reason));
      } else if pnr !in docs {
        r := Fail(NotFound);
      } else {
        docs := docs - {pnr};
        r := Pass;
      }
    }
  }
}
