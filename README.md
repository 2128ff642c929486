# FlexMove dashboard bookkeeping in Dafny

FlexMove is a logistics dashboard. The model covers the state changes that the page
component `FlexMovePage` and its child `SupplierDashboard` make:

- shipments are created, their status is overwritten, and they are rerouted onto a
  candidate route;
- disruption alerts are acted on, both in the page's global list and in the supplier
  dashboard's local copy;
- the create-shipment wizard steps from customer to transporter to details;
- notifications are added and dismissed;
- orders are validated before they are placed;
- the transporter's status menu maps to a status change, and a rating is sent only when
  a star is chosen;
- a password-strength meter classifies the password.

The model also covers the `CreateShipmentForm` component: its seven text fields, the rule
that enables its submit button, the mode choices of the chosen transporter, and the
null and non-null cases of its route-analysis card.

React state becomes the fields of two classes, `Page.FlexMovePage` and
`Page.SupplierDashboard`. Each setter call becomes an assignment. Each handler is a
method whose `modifies` clause names exactly the state it sets. The handlers keep one
class invariant, `FlexMovePage.Valid`:

- a closed wizard or order dialog holds no choices;
- the reroute dialog is open exactly while a disruption is selected;
- no two offered route candidates share an id.

Pure expressions of the source are functions:

- the candidate generator;
- the priority → risk rule;
- the status menu map;
- the password meter;
- the rate table and route analysis;
- the `find`/`filter`/`map` list updates.

The clock (`Date.now()`, `new Date().toISOString()`) is passed in: `now` is the
millisecond reading and `nowIso` its ISO text. `Math.random()` draws are nondeterministic
choices within the bounds the code gives them.

Modules:

- `ArrayOps`: `find` and `filter`;
- `Text`: number-to-string, `toLowerCase` and the UTF-16 `length`;
- `Domain`: the records;
- `Reroute`: candidates, lookup, and the commit of a route;
- `DisruptionActions`: the supplier dashboard's local update;
- `Notifications`;
- `ShipmentRules`: new record, status overwrite, status menu;
- `PasswordMeter`;
- `CreateShipment`: the form component;
- `Page`: the page, its handlers and the supplier dashboard.

## Model

| member | source | states |
|---|---|---|
| ArrayOps.Find | app/page.tsx:339 | `find` gives None exactly when no element passes the test; otherwise it gives an element of the list that passes |
| ArrayOps.FindFirstMatch | app/page.tsx:339 | `find` returns the first element that passes, whatever passes later |
| ArrayOps.Filter | app/page.tsx:356 | `filter` keeps exactly the elements that pass and is never longer than its input |
| ArrayOps.FilterKeepsAll | app/page.tsx:356 | when every element passes, `filter` returns the list itself |
| ArrayOps.FilterShortens | app/page.tsx:356 | the result is shorter exactly when some element fails the test |
| ArrayOps.FilterAppend | app/page.tsx:356 | filtering a concatenation is concatenating the filtered parts, so order is kept |
| ArrayOps.FilterIdempotent | app/page.tsx:210 | filtering twice with one test is filtering once |
| Text.DecimalString | app/page.tsx:195 | `Date.now().toString()` is a non-empty string of decimal digits with no leading zero |
| Text.DecimalRoundTrip | app/page.tsx:195 | reading the digits back gives the clock value |
| Text.DecimalStringInjective | app/page.tsx:195 | different clock readings print differently |
| Text.ToLower | components/create-shipment-form.tsx:65 | `toLowerCase` keeps the length and lower-cases each character |
| Text.LowerCaseUnchanged | components/create-shipment-form.tsx:65 | a string with no capitals is its own lower case |
| Text.ToLowerIdempotent | components/create-shipment-form.tsx:65 | lower-casing twice is lower-casing once |
| Text.Utf16Length | app/page.tsx:905 | `password.length` is between the number of characters and twice that |
| Text.Utf16LengthAppend | app/page.tsx:905 | the length of a concatenation is the sum of the lengths |
| Reroute.GenerateAvailableRoutes | app/page.tsx:292-335 | the generator returns four candidates with distinct ids and positive cost, carbon and distance, whatever the disruption |
| Reroute.GeneratedIds | app/page.tsx:292-335 | the candidate ids are R001–R004, and exactly R001, R002 and R004 are available |
| Reroute.FindListedRoute | app/page.tsx:339 | when candidate ids are distinct, looking up a listed candidate's id finds that candidate |
| Reroute.Rerouted | app/page.tsx:342-353 | each shipment with the disrupted id takes route, eta, cost, carbon footprint and risk from the candidate and keeps every other field; every other shipment is unchanged |
| Reroute.ReroutedIdempotent | app/page.tsx:342-353 | committing the same candidate twice is committing it once |
| Reroute.WithoutDisruption | app/page.tsx:356 | exactly the alerts with the given id disappear, and the list shrinks exactly when one had it |
| DisruptionActions.ActedOn | app/page.tsx:1702-1732 | resolve removes exactly that id; any other action keeps length and order; acknowledge turns each targeted alert into the same alert with status acknowledged; escalate into the same alert with status escalated and escalatedAt stamped; any other action returns the list unchanged; other ids are never touched |
| DisruptionActions.AfterAction | app/page.tsx:1719-1729 | only status and escalatedAt can change; acknowledge sets status acknowledged and keeps the stamp; escalate sets status escalated and stamps the given time; "customer_updated" and any other action return the alert unchanged |
| DisruptionActions.EscalateThenResolve | app/page.tsx:1708-1727 | escalating and then resolving one id removes exactly the alerts with that id |
| Notifications.Removed | app/page.tsx:209-211 | dismissing drops exactly the entries with that id |
| Notifications.RemoveUndoesAdd | app/page.tsx:193-211 | dismissing a just-added notification whose id is fresh restores the previous list |
| Notifications.RemoveIdempotent | app/page.tsx:209-211 | dismissing one id twice is dismissing it once |
| Notifications.RemoveDistributes | app/page.tsx:209-211 | dismissing from a concatenation dismisses from each part, keeping order |
| ShipmentRules.RiskFromPriority | app/page.tsx:241 | urgent gives high, high gives medium, and every other priority gives low (each as an if-and-only-if) |
| ShipmentRules.IsNewShipment | app/page.tsx:231-243 | the new record: id "SH" plus the clock, placeholder customer and transporter, "origin → destination" route, status pending, eta "3-5 days", the three random figures within their ranges, and risk from the priority |
| ShipmentRules.RiskFollowsPriority | app/page.tsx:241 | a more pressing priority never gives a lower risk |
| ShipmentRules.NewShipmentIdsDiffer | app/page.tsx:232 | shipments created at different clock readings get different ids |
| ShipmentRules.WithStatus | app/page.tsx:273-276 | only the status of shipments with that id changes; all other fields and all other shipments are kept |
| ShipmentRules.DeliveredCanRegress | app/page.tsx:273-276 | a delivered shipment can be set back to pending, because there is no forward-only rule |
| ShipmentRules.TransporterStatusChange | app/page.tsx:3266-3291 | the five menu entries map to a status change and nothing else does; halfway reports in-transit; progress is in 1..100 and is 100 exactly for delivered |
| ShipmentRules.ProgressFollowsMenu | app/page.tsx:3272-3289 | further down the menu means strictly more progress |
| PasswordMeter.PasswordStrength | app/page.tsx:905-911 | blank exactly for the empty password; strong exactly from 12 UTF-16 units; medium exactly from 8 to 11; weak passwords have 1 to 7 characters |
| PasswordMeter.Label | app/page.tsx:905-911 | the label text is empty exactly for the blank strength |
| PasswordMeter.LabelShownOnceTyped | app/page.tsx:905-925 | a label shows and the bar has width exactly when the password is non-empty |
| PasswordMeter.BarWidth | app/page.tsx:915-925 | the bar is at most 100% wide, and it is visible for any non-empty password |
| PasswordMeter.StrengthNeverDropsWhileTyping | app/page.tsx:905-925 | appending characters never lowers the label or the bar |
| CreateShipment.BaseData | components/create-shipment-form.tsx:59-63 | the rate table has a row exactly for truck, ship and air |
| CreateShipment.RouteAnalysis | components/create-shipment-form.tsx:56-77 | null when mode or weight is empty; non-null exactly when both are set and the lower-cased mode is truck, ship or air; then time and risk are the table's, and only cost and carbon are scaled |
| CreateShipment.AnalysisIgnoresCase | components/create-shipment-form.tsx:65 | a mode and its lower-case form give the same card |
| CreateShipment.NoAnalysisForEv | components/create-shipment-form.tsx:59-66 | every mode whose lower case is "ev", whatever its letter case, gets no card |
| CreateShipment.ModeOptions | components/create-shipment-form.tsx:198-216 | no mode select unless some transporter has the chosen id; when one has it, the options are the modes of such a transporter |
| CreateShipment.ModeOptionsOfFirst | components/create-shipment-form.tsx:80 | the options are exactly the modes of the first transporter with the chosen id |
| CreateShipment.EnabledMeansComplete | components/create-shipment-form.tsx:263-265 | submit is enabled exactly when the customer, transporter, mode, origin, destination and weight are all non-empty; priority is not required |
| CreateShipment.SubmitDisabled | components/create-shipment-form.tsx:263-265 | the button is disabled when the customer, transporter, mode, origin, destination or weight is empty; priority plays no part |
| CreateShipment.CreateShipmentForm.constructor | components/create-shipment-form.tsx:35-41 | all seven fields start empty, so a fresh form cannot be submitted |
| CreateShipment.CreateShipmentForm.SetSelectedCustomer | components/create-shipment-form.tsx:115 | sets only the customer |
| CreateShipment.CreateShipmentForm.SetSelectedTransporter | components/create-shipment-form.tsx:180 | sets only the transporter; the chosen mode is kept even if the new transporter does not offer it; the offered modes become the new transporter's |
| CreateShipment.CreateShipmentForm.SetSelectedMode | components/create-shipment-form.tsx:201 | sets only the mode |
| CreateShipment.CreateShipmentForm.SetOrigin | components/create-shipment-form.tsx:134 | sets only the origin |
| CreateShipment.CreateShipmentForm.SetDestination | components/create-shipment-form.tsx:144 | sets only the destination |
| CreateShipment.CreateShipmentForm.SetWeight | components/create-shipment-form.tsx:155 | sets only the weight |
| CreateShipment.CreateShipmentForm.SetPriority | components/create-shipment-form.tsx:162 | sets only the priority, and never enables or disables submit |
| CreateShipment.InheritedNameShowsCard | components/create-shipment-form.tsx:65-66 | as written, a mode whose lower case is an inherited property name shows a card, while the own-row lookup gives none |
| CreateShipment.ConstructorModeShowsCard | components/create-shipment-form.tsx:65-66 | the mode "constructor" with weight 500 is such an input |
| CreateShipment.AsWrittenAgreesElsewhere | components/create-shipment-form.tsx:65-66 | for every other mode, the as-written lookup and RouteAnalysis agree |
| Page.OfferedModesAreKnown | app/page.tsx:409-431 | every mode the page's transporters offer is "ev" or has a table row, so the form's picker never reaches an inherited name |
| Page.FindSupplier | app/page.tsx:386 | a supplier is found exactly for ids S001–S004, and it is the listed supplier with that id |
| Page.OrderMissingInformation | app/page.tsx:381 | an order is refused when the supplier, the product or the quantity is empty |
| Page.BlankOrderRefused | app/page.tsx:366-373 | a just-opened order dialog, whose form is blank, cannot place an order |
| Page.OptionalOrderFieldsIgnored | app/page.tsx:381 | priority, delivery date and instructions never decide whether an order is refused |
| Page.FlexMovePage.constructor | app/page.tsx:101-170 | a logged-out page with empty lists and closed dialogs satisfies the invariant |
| Page.FlexMovePage.AddNotification | app/page.tsx:193-202 | appends one notification whose id is the clock reading |
| Page.FlexMovePage.RemoveNotification | app/page.tsx:209-211 | the list becomes Removed of the old list |
| Page.FlexMovePage.HandleLogin | app/page.tsx:172-175 | records the role and greets the user |
| Page.FlexMovePage.HandleLogout | app/page.tsx:177-191 | logs out, and closes and clears the wizard |
| Page.FlexMovePage.ResetWizard | app/page.tsx:247-256 | wizard closed, step customer, no customer or transporter, form blank |
| Page.FlexMovePage.HandleCreateShipment | app/page.tsx:213-216 | opens the wizard at the customer step |
| Page.FlexMovePage.HandleCustomerSelected | app/page.tsx:218-222 | records the customer and moves to the transporter step |
| Page.FlexMovePage.HandleTransporterSelected | app/page.tsx:224-228 | records the transporter and moves to the details step |
| Page.FlexMovePage.SetShipmentFormData | app/page.tsx:1172 | replaces the wizard's form data |
| Page.FlexMovePage.CloseCreateShipment | app/page.tsx:1174-1185 | closes and clears the wizard |
| Page.FlexMovePage.HandleShipmentCreated | app/page.tsx:230-257 | appends exactly one shipment; earlier ones are untouched; the new one is built from the form and clock with random figures in range; the wizard resets |
| Page.FlexMovePage.RecordShipment | app/page.tsx:245-257 | the new shipment is appended after the existing ones and a "Shipment Created" notice naming its id is added |
| Page.FlexMovePage.HandleShipmentStatusUpdate | app/page.tsx:273-278 | the shipment list becomes WithStatus of the old list, with no check of the old status |
| Page.FlexMovePage.HandleDisruptionAction | app/page.tsx:260-263 | removes the alert whatever the action is, and reports it as resolved |
| Page.FlexMovePage.HandleRequestAction | app/page.tsx:265-271 | accepting or declining only adds the matching notification |
| Page.FlexMovePage.HandleRatingSubmit | app/page.tsx:280-282 | only adds a thank-you notification; the rating is not stored |
| Page.FlexMovePage.HandleRerouteRequest | app/page.tsx:284-290 | selects the disruption, offers the generated candidates and opens the dialog |
| Page.FlexMovePage.CloseRerouteDialog | app/page.tsx:1195-1198 | closes the dialog and clears the selection |
| Page.FlexMovePage.HandleRouteSelection | app/page.tsx:338-362 | with a candidate of that id and a selected disruption, commits the candidate, removes the disruption, reports it and closes the dialog; otherwise nothing changes |
| Page.FlexMovePage.CommitRoute | app/page.tsx:341-360 | the disrupted shipment takes the candidate's route, the disruption is removed, a "Route Updated" notice with the new route and ETA is added, and the dialog closes with no disruption selected |
| Page.FlexMovePage.SelectFromRerouteDialog | app/page.tsx:1303-1346 | clicking an available candidate commits exactly that candidate; clicking any other changes nothing |
| Page.FlexMovePage.HandleNewOrder | app/page.tsx:364-374 | opens the order dialog with no supplier and a blank form |
| Page.FlexMovePage.HandleSupplierSelection | app/page.tsx:376-378 | records the supplier |
| Page.FlexMovePage.SetOrderFormData | app/page.tsx:1209 | replaces the order form |
| Page.FlexMovePage.CloseNewOrderDialog | app/page.tsx:1211-1221 | closes and clears the order dialog |
| Page.FlexMovePage.HandleOrderSubmit | app/page.tsx:380-399 | missing supplier, product or quantity: an error notification and nothing else; a known supplier: the order is reported and the dialog is closed and cleared; an unknown supplier id: nothing happens |
| Page.SelectTransporterStatus | app/page.tsx:3290-3297 | a menu entry updates the shipment's status (progress is dropped); any other value does nothing |
| Page.SubmitRatingForm | app/page.tsx:5271-5275 | a rating of 0 is not sent; a positive rating adds the thank-you notification |
| Page.SupplierDashboard.constructor | app/page.tsx:1662-1700 | the local list is the three demonstration alerts followed by the page's |
| Page.SupplierDashboard.HandleDisruptionAction | app/page.tsx:1702-1732 | the page drops the alert, and the local list becomes ActedOn of the old one |
| Page.SupplierDashboard.HandleUpdateCustomer | app/page.tsx:1744-1748 | the local alert stays as it is; the page's copy is dropped |
| Page.SupplierDashboard.HandleReroute | app/page.tsx:1736-1742 | opens the page's reroute dialog on the alert |

## Left out

- Rendering: JSX, badges, colour helpers, charts and the fixed analytics data sets only display state.
- Timers: the five-second auto-dismissal of a notification (`setTimeout`) is not modelled; only the add and remove operations are.
- Clock: each handler reads the clock once, as `now` (milliseconds) and `nowIso`. The source may read it twice in one handler, for instance for the order id and the notification id.
- Text.DecimalString: matches `Number.prototype.toString` only below 10^21, where JavaScript switches to exponent notation; millisecond clock readings stay far below that.
- Text.ToLower: maps only the ASCII capitals and the Kelvin sign. Other Unicode case mappings cannot produce the ASCII keys the lookup compares against, so they do not affect any result modelled here.
- CreateShipment.RouteAnalysis: the weight scaling (`parseFloat`, division by 1000, `Math.round`) is floating-point arithmetic, so it is a parameter `scale`.
- The form's `handleSubmit` only logs the fields and closes.
- The props the page passes to the form but the form does not declare (step, form data, handlers) are not connected. Each file is modelled on its own terms.
- The supplier dashboard's local list and the page's global list are not kept in sync. The local list is seeded once and then diverges, as in the source.
- The map widget, the login and role-selection screens, the app shell and the layout hold no dashboard state.
- The transporter dashboard's `statusMap` is indexed only with values from its own menu, so inherited property names cannot reach it.
- Features that do not exist in the code and so are not modelled:
  - a forward-only status rule;
  - an availability check inside `handleRouteSelection` (only the dialog checks);
  - typed error results;
  - any effect of accepting a request beyond its notification;
  - any handler that adds to the global disruption list.
- Console output: `handleReroute` and `handleUpdateCustomer` on the supplier dashboard write to the console (app/page.tsx:1741, 1746); that output is not modelled.
- The rating dialog: `handleRateSupplier` also closes the dialog and clears the shipment being rated (app/page.tsx:3942-3943); that dialog state is not modelled, only the rating form's call into the page.
- The page's customer list (app/page.tsx:402-407) is only displayed by the form, so it is not modelled; the transporter list is.
- The new shipment's customer and transporter are the fixed placeholders "Unknown Customer" and "Unknown Transporter", as the code sets them.

## Findings

| source | as written | input that shows it | evidently intended | confidence | as-written member | corrected member |
|---|---|---|---|---|---|---|
| components/create-shipment-form.tsx:65-66 | `baseData[selectedMode.toLowerCase()]` also finds properties the object literal inherits from Object.prototype, so `if (!data)` lets them through | mode "constructor" (or "__proto__") with weight "500": a card is shown with cost and CO2 both NaN | only the truck, ship and air rows give a card | low, not executed; the page's transporters never offer such a mode (Page.OfferedModesAreKnown) | CreateShipment.ConstructorModeShowsCard | CreateShipment.RouteAnalysis |
