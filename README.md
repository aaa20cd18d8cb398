# Food-on-train order cart and lifecycle — a Dafny model

This project models the ordering core of a web app that lets a rail passenger,
identified by a journey reservation code (PNR), register a pickup station, fill
a food cart, save it, confirm it, and track or cancel it. The model covers:

- the **record service** (`services/database.ts`): a remote collection of
  passenger documents keyed by PNR, with create-if-absent, fetch (which decodes
  the summary text), whole-summary replace and delete (`database.dfy`). The
  summary text written by `JSON.stringify` and read by `JSON.parse` is
  modelled by a small self-delimiting text format with a proved round trip
  (`summary_codec.dfy`).
- the **menu page** (`app/menu/page.tsx`): cart lines with quantities, the
  increment and clamped decrement, totals, the order snapshot of the selected
  lines, the pending save on every "View Cart" and the confirmed save followed by
  navigation, and the read-only short circuit for an already confirmed order
  (`menu.dfy`).
- the **tracking page** (`app/trackorder/page.tsx`): search, status colour,
  `parseSummary`, the choice between Confirm and Cancel, and the two handlers
  (`track_order.dfy`).
- the **registration form** (`components/train-details.tsx`): serving-station
  filter, validity rule, submit guards and record shaping (`train_details.dfy`).
- the **PNR form** (`components/pnr-form.tsx`): the duplicate-order gate and the
  train-lookup fallback (`pnr_form.dfy`).
- a few end-to-end scenarios composed from the above (`lifecycle.dfy`).

Pages with state are classes whose fields are the page's React state; their
handlers are methods. The remote collection is a class holding
`docs: map<string, Document>`. Every remote call takes a `Link` that says
whether it reaches the store (`Up`) or fails (`Down(reason)`). The menu listing
(`getMenuItems`) and the train-details responses are inputs. Dates
(`new Date().toISOString()`) are string parameters. Prices and amounts are
naturals.

Some behaviours of the code are easy to miss. The model keeps them as written:

- The tracking page offers Cancel for every status other than `pending`:
  confirmed and delivered included. Cancel deletes the record.
- The tracking page's Confirm keeps the old `orderDate`.
- The tracking page's Confirm sets the status on the summary object the page
  holds. When the write fails, the page goes on showing that summary as
  confirmed, with Cancel offered, while the store still holds it as pending.
- The menu page treats an empty `pnr` query value as no pnr: it loads the menu
  and never writes.
- Neither Confirm handler checks the current status.
- No write checks that a summary's totals match its items, and no control
  suppresses a second confirm click while a write is in flight.
- A record that is created with an empty email drops the field. Both
  `components/train-details.tsx` and `services/database.ts` do this.

## Model

| member | source | states |
|---|---|---|
| OrderTypes.StatusName | services/database.ts:39 | each of the four statuses has a distinct name that reads back as that status |
| SummaryCodec.Encode | services/database.ts:101 | the stored text of a summary is never empty, so a stored summary is always truthy |
| SummaryCodec.RoundTrip | services/database.ts:73-75 | decoding the text written for a summary yields exactly that summary |
| SummaryCodec.Decode | services/database.ts:74 | empty text is not a summary, as `JSON.parse("")` throws |
| SummaryCodec.TrailingTextRejected | services/database.ts:74 | the codec parses a stored summary only when nothing follows it; unlike `JSON.parse`, it also refuses trailing whitespace |
| SummaryCodec.EncodeInjective | services/database.ts:101 | different summaries are never stored as the same text |
| Database.StripEmail | services/database.ts:46-49 | the email is kept exactly when present and non-empty, otherwise omitted |
| Database.ToDocument | services/database.ts:46-55 | the created document keeps name, phone, WhatsApp flag, pnr, berth, seat, payment and station unchanged, keeps an email exactly when it is non-empty, and holds summary text exactly when a summary was passed, text that decodes back to it |
| Database.WithSummary | services/database.ts:78-89 | the fetched record copies every document field one to one (name, phone, WhatsApp flag, email, pnr, berth, seat, payment, station) and carries the given decoded summary |
| Database.ReplaceSummary | services/database.ts:101-110 | only the summary field of the document changes, and its new text decodes to the written summary |
| Database.Project | services/database.ts:72-89 | fetch copies every identity field unchanged; an absent or empty summary text gives no summary; text is decoded; undecodable text is a Malformed failure |
| Database.FetchAfterReplace | services/database.ts:98-110 | after the summary is replaced, fetching yields the written summary and the other fields unchanged |
| Database.FetchAfterCreate | services/database.ts:43-57 | fetching a created record yields the submitted data with an empty email dropped |
| Database.CustomerStore.AddCustomerData | services/database.ts:43-62 | creates under key pnr only when absent; an existing key fails with AlreadyExists and a network failure is re-thrown unchanged, both without writing |
| Database.CustomerStore.GetCustomerData | services/database.ts:64-96 | a missing key fails with NotFound, a network failure is re-thrown, otherwise the stored document is projected |
| Database.CustomerStore.UpdateCustomerOrder | services/database.ts:98-116 | replaces only the orderSummary field of an existing record, wholesale; a missing record fails with NotFound; no other key changes |
| Database.CustomerStore.DeleteCustomerData | services/database.ts:141-152 | removes exactly the key; afterwards fetching it fails with NotFound; failures are re-thrown without change |
| MenuPage.Incremented | app/menu/page.tsx:141-147 | the line whose id matches rises by exactly 1, all others are unchanged |
| MenuPage.Decremented | app/menu/page.tsx:149-155 | the matching line falls by 1 only when above 0; at 0 and for other ids lines are unchanged |
| MenuPage.TotalQuantity | app/menu/page.tsx:135 | totalItems is at least the quantity of every single line |
| MenuPage.TotalAmount | app/menu/page.tsx:136 | with nothing selected the amount is 0 |
| MenuPage.TotalsAfterChangeAt | app/menu/page.tsx:134-139 | both totals move by exactly the change of the one line that changed |
| MenuPage.IncrementTotals | app/menu/page.tsx:141-147 | incrementing a menu entry adds 1 to totalItems and its price to totalAmount |
| MenuPage.DecrementTotals | app/menu/page.tsx:149-155 | decrementing a selected entry removes 1 from totalItems and its price from totalAmount |
| MenuPage.DecrementAtZero | app/menu/page.tsx:152 | decrementing an entry at quantity 0 leaves the cart unchanged, so quantities never go negative |
| MenuPage.UnknownIdChangesNothing | app/menu/page.tsx:141-155 | an id that matches no line leaves the cart unchanged under both handlers |
| MenuPage.ToOrderItem | app/menu/page.tsx:169-174 | a written item takes the line's name, quantity and price, with totalPrice = quantity * price |
| MenuPage.OrderItems | app/menu/page.tsx:167-174 | the items are exactly the lines with quantity above 0, each with totalPrice = quantity * price |
| MenuPage.OrderItemsAppend | app/menu/page.tsx:167-168 | selection distributes over concatenation, so menu order is kept |
| MenuPage.OrderItemsTotals | app/menu/page.tsx:134-139 | the snapshot's item quantities and line totals sum to the cart's totalItems and totalAmount |
| MenuPage.Snapshot | app/menu/page.tsx:176-182 | the written summary carries the given status, date and totals, and only items with a positive quantity, no more than the cart has lines |
| MenuPage.SnapshotConsistent | app/menu/page.tsx:176-182 | a snapshot built with the recomputed totals agrees with a recomputation from its own items |
| MenuPage.AlreadyConfirmed | app/menu/page.tsx:114 | the read-only test holds exactly when the record has a summary whose status name is "confirmed" |
| MenuPage.ConfirmedWriteIsReadOnly | app/menu/page.tsx:114-118 | after a confirmed snapshot is written, the fetched record reads as already confirmed |
| MenuPage.Unselected | app/menu/page.tsx:121-122 | the loaded menu has every entry at quantity 0, so both totals are 0 |
| MenuPage.MenuContent.constructor | app/menu/page.tsx:96-103 | the page starts loading, with an empty cart, zero totals, no record, cart closed |
| MenuPage.MenuContent.Valid | app/menu/page.tsx:134-139 | the page's totals are the sums over its lines, so an empty cart costs 0 |
| MenuPage.MenuContent.RecomputeTotals | app/menu/page.tsx:134-139 | the totals equal the sums recomputed from the current lines, which are unchanged |
| MenuPage.MenuContent.FetchData | app/menu/page.tsx:105-132 | an absent or empty pnr skips the record and loads the menu; a fetch failure sets the error; a confirmed summary sets the read-only flag without loading the menu; otherwise the menu is loaded at quantity 0 |
| MenuPage.MenuContent.Increment | app/menu/page.tsx:141-147 | the cart becomes the incremented cart and the totals are recomputed |
| MenuPage.MenuContent.Decrement | app/menu/page.tsx:149-155 | the cart becomes the decremented cart and the totals are recomputed |
| MenuPage.MenuContent.CanWrite | app/menu/page.tsx:163 | a write needs a non-empty pnr and a fetched record; `?pnr=` with nothing after it never writes |
| MenuPage.MenuContent.UpdateOrder | app/menu/page.tsx:162-190 | without pnr or record nothing is written and nothing is shown; otherwise the snapshot is saved as pending, a failure only showing a toast |
| MenuPage.MenuContent.ViewCart | app/menu/page.tsx:157-160 | opening the cart panel saves the current snapshot as pending; a toast appears only when that save fails |
| MenuPage.MenuContent.CloseCart | app/menu/page.tsx:316 | closing the panel only clears the open flag, keeping the totals invariant |
| MenuPage.MenuContent.ConfirmOrder | app/menu/page.tsx:192-216 | refuses without pnr or record; otherwise saves the snapshot as confirmed with the given date and navigates only after the write succeeds; the cart is kept |
| TrackOrder.ToLower | app/trackorder/page.tsx:57 | lower-cases each letter in place, keeping the length |
| TrackOrder.ToLowerIdempotent | app/trackorder/page.tsx:57 | lower-casing twice is lower-casing once |
| TrackOrder.StatusColor | app/trackorder/page.tsx:56-61 | the result is always one of the three badge colours |
| TrackOrder.ColorIgnoresCase | app/trackorder/page.tsx:56-61 | strings equal up to case get the same colour |
| TrackOrder.ColorOfLowered | app/trackorder/page.tsx:56-61 | the colour of a lower-cased status is the colour of the status |
| TrackOrder.StatusColors | app/trackorder/page.tsx:58-60 | confirmed is green, pending yellow, delivered and cancelled gray |
| TrackOrder.UpperCaseColors | app/trackorder/page.tsx:57-59 | upper-case spellings of confirmed and pending get green and yellow |
| TrackOrder.ParseSummary | app/trackorder/page.tsx:105-115 | a decoded summary is returned unchanged, text is decoded, undecodable text yields the empty summary |
| TrackOrder.ParseEncoded | app/trackorder/page.tsx:105-108 | parsing the stored text of a summary gives that summary |
| TrackOrder.ActionFor | app/trackorder/page.tsx:195-199 | Confirm is offered iff the parsed status is pending; otherwise Cancel |
| TrackOrder.OfferedAction | app/trackorder/page.tsx:174 | an action is offered iff details and a summary exist; Confirm iff that summary is pending |
| TrackOrder.CancelOfferedWhenNotPending | app/trackorder/page.tsx:195-199 | for confirmed, delivered and cancelled summaries the page offers Cancel |
| TrackOrder.ConfirmedCopy | app/trackorder/page.tsx:133-134 | only the status becomes confirmed; items, totals and orderDate are kept |
| TrackOrder.TrackOrderContent.constructor | app/trackorder/page.tsx:23-25 | the page starts with no pnr, no details and no error |
| TrackOrder.TrackOrderContent.HandleSearch | app/trackorder/page.tsx:37-49 | clears error and details; shows the fetched record, or sets "Order not found" with details left empty |
| TrackOrder.TrackOrderContent.Submit | app/trackorder/page.tsx:51-54 | the search form searches for the entered pnr |
| TrackOrder.TrackOrderContent.HandleConfirmOrder | app/trackorder/page.tsx:129-141 | no-op without details or summary; otherwise writes the summary with only the status confirmed under pnrNumber, then searches again; a failed write sets the error and leaves the page's own summary reading confirmed, since the status is set on the object the page holds |
| TrackOrder.TrackOrderContent.HandleCancelOrder | app/trackorder/page.tsx:117-127 | no-op without details; otherwise deletes the record keyed by pnrNumber and leaves for the order page, or sets the error |
| TrainDetails.ServingStations | components/train-details.tsx:84-87 | exactly the schedule stations whose code is in the serving list |
| TrainDetails.ServingStationsAppend | components/train-details.tsx:84-87 | filtering distributes over concatenation, so the schedule order is kept |
| TrainDetails.FilteredSchedule | components/train-details.tsx:83-87 | empty without a schedule or serving list; otherwise exactly the serving stations |
| TrainDetails.IsFormValid | components/train-details.tsx:56-67 | a valid form has name, phone, berth and seat filled; without a station or with online payment it is never valid |
| TrainDetails.SubmitDisabled | components/train-details.tsx:337-341 | loading or online payment disables submit; an enabled button implies a valid form |
| TrainDetails.SubmitEnabledIff | components/train-details.tsx:337-341 | submit is enabled iff not loading and the form is valid; online payment always disables it |
| TrainDetails.ValidFormMayStillBeRefused | components/train-details.tsx:56-67 | the validity rule accepts an empty station code, which the submit guard then refuses |
| TrainDetails.InitialDetails | components/train-details.tsx:38-48 | the initial form pays by cash, holds no summary and is not valid |
| TrainDetails.Submission | components/train-details.tsx:112-121 | the record takes the selected station and the lookup's pnr, drops an empty email, and keeps every other field |
| TrainDetails.StripEmailIdempotent | components/train-details.tsx:118-121 | the service's second email strip leaves the submitted record as it is |
| TrainDetails.TrainDetailsForm.constructor | components/train-details.tsx:37-54 | the form starts with no station, the initial details, and no notification |
| TrainDetails.TrainDetailsForm.HandleSubmit | components/train-details.tsx:98-141 | a missing station or pnr fails before any write; otherwise the record is created and the menu opened only on success; loading always ends cleared |
| PnrForm.OrderAlreadyTaken | components/pnr-form.tsx:24 | only a record that was found can block ordering, and a found record without a summary never does |
| PnrForm.Proceeds | components/pnr-form.tsx:32-48 | an ok first answer proceeds, a not-ok one never does, and after a throw the second answer decides |
| PnrForm.PnrEntry.constructor | components/pnr-form.tsx:10-12 | the form starts idle with no order-taken flag |
| PnrForm.PnrEntry.HandleSubmit | components/pnr-form.tsx:15-54 | a record with a summary sets orderTaken with no train request and no navigation; otherwise train details are requested and the station page opened iff the answer is ok; loading stays on exactly when navigating |
| Lifecycle.CartExample | app/menu/page.tsx:134-174 | two dishes at 2 x 100 and 1 x 150 give 3 items, 350 in total, and two snapshot lines |
| Lifecycle.RegisterTwice | services/database.ts:51-56 | a second registration for the same PNR fails and leaves the first record in place |
| Lifecycle.ConfirmThenRevisit | app/menu/page.tsx:105-216 | once the confirm write succeeds, a new visit for the same PNR shows the read-only view without a menu |
| Lifecycle.SaveTwiceThenTrack | app/menu/page.tsx:157-190 | repeated pending saves leave a record that the tracking page shows with Confirm offered |
| Lifecycle.CancelThenSearch | app/trackorder/page.tsx:117-127 | after a successful cancel the next search finds no order |

## Left out

- Transport: no async timing, React effect scheduling, router internals, toast
  rendering or console logging. Toasts and routes are fields holding the last
  message or path. Only the order of writes and navigation is kept.
- Network: a `Link` decides each call. A call that fails after the store has
  applied it is not modelled. Neither is last-write-wins between two sessions.
- `getMenuItems` and `app/api/train-details/route.ts`: not modelled. Their
  results are inputs (`menu`, `TrainData`, `Response`).
- Database.Project: JSON text is replaced by the codec's format. Well-formed
  JSON of another shape (missing fields, other status strings) would parse in
  the source; here any text the codec does not accept is a Malformed failure.
- Database.CustomerStore.AddCustomerData: when the submitted data carries an
  `orderSummary` object, the source hands the object to the SDK. The model
  stores its encoded text. The only caller never passes a summary.
- TrackOrder.ToLower: models ASCII lower-casing only, not full Unicode
  `toLowerCase`.
- TrackOrder.ParseSummary: the empty object `{}` is `None`. Its later use
  (rendering fields of `{}`) is presentation and is not modelled.
- Prices: naturals, not floating point; `toFixed(2)` display formatting is left
  out.
- Presentation markup: the cancel confirmation dialog (`isConfirmOpen`), the
  URL query effect and `window.history.pushState` of the tracking page, and the
  form's input handlers that edit `customerDetails`. The model sets those
  fields directly.
- Pages and files outside the core: the landing page, navigation, layout,
  order and order-taken pages, the menu card, and the SDK client configuration.
