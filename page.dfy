/** FlexMovePage's state and handlers, and the two child components whose handlers change
    state: SupplierDashboard (its own copy of the disruption list) and the reroute dialog.
    Every handler replaces React state through setters; here each is a method whose frame
    names exactly the state it sets. */
module Page {
  import opened ArrayOps
  import opened Text
  import opened Domain
  import opened Reroute
  import opened DisruptionActions
  import opened Notifications
  import opened ShipmentRules
  import CreateShipment

  datatype UserRole = SupplierRole | TransporterRole | CustomerRole

  function RoleName(role: UserRole): string {
    match role
    case SupplierRole => "supplier"
    case TransporterRole => "transporter"
    case CustomerRole => "customer"
  }

  /** The current step of the create-shipment wizard. */
  datatype CreateStep = CustomerStep | TransporterStep | DetailsStep

  /** The customer's new-order form. */
  datatype OrderDetails = OrderDetails(
    product: string, quantity: string, priority: string, deliveryDate: string, specialInstructions: string)

  const BlankOrder := OrderDetails("", "", "", "", "")

  /** A supplier as the order handler uses it (its other attributes are display-only). */
  datatype Supplier = Supplier(id: string, name: string)

  const Suppliers: seq<Supplier> := [
    Supplier("S001", "TechCorp Inc."),
    Supplier("S002", "Global Retail"),
    Supplier("S003", "Manufacturing Co."),
    Supplier("S004", "Logistics Plus")
  ]

  /** The transporters the page hands to the create-shipment form. */
  const Transporters: seq<CreateShipment.Transporter> := [
    CreateShipment.Transporter("T001", "FastTrack Logistics", 4.8, ["truck", "air"], true),
    CreateShipment.Transporter("T002", "Ocean Express", 4.6, ["ship", "truck"], false),
    CreateShipment.Transporter("T003", "Green Transport", 4.9, ["truck", "ev"], true)
  ]

  /** No name of five characters or fewer lower-cases to an inherited name. */
  lemma ShortModeNotInherited(mode: string)
    requires |mode| <= 5
    ensures ToLower(mode) !in CreateShipment.InheritedLowerCaseKeys
  {
  }

  /** Every mode the page's transporters offer is "ev" or a row of the rate table, so the
      form's mode picker can never choose a name inherited from Object.prototype. */
  lemma OfferedModesAreKnown(t: CreateShipment.Transporter, m: string)
    requires t in Transporters && m in t.modes
    ensures m == "ev" || CreateShipment.BaseData(m).Some?
    ensures ToLower(m) !in CreateShipment.InheritedLowerCaseKeys
  {
    assert m in {"truck", "air", "ship", "ev"} by {
      if t == Transporters[0] {
        assert m in ["truck", "air"];
      } else if t == Transporters[1] {
        assert m in ["ship", "truck"];
      } else {
        assert t == Transporters[2] && m in ["truck", "ev"];
      }
    }
    ShortModeNotInherited(m);
  }

  /** The order dialog refuses to submit without a supplier, a product and a quantity. */
  predicate OrderMissingInformation(selectedSupplier: string, form: OrderDetails) {
    selectedSupplier == "" || form.product == "" || form.quantity == ""
  }

  /** A just-opened order dialog (blank form) cannot place an order. */
  lemma BlankOrderRefused(selectedSupplier: string)
    ensures OrderMissingInformation(selectedSupplier, BlankOrder)
  {
  }

  /** Priority, delivery date and instructions never decide whether the order is refused. */
  lemma OptionalOrderFieldsIgnored(selectedSupplier: string, form: OrderDetails, other: OrderDetails)
    requires other.product == form.product && other.quantity == form.quantity
    ensures OrderMissingInformation(selectedSupplier, form) == OrderMissingInformation(selectedSupplier, other)
  {
  }

  /** `suppliers.find(s => s.id === selectedSupplier)`. */
  function FindSupplier(id: string): (r: Option<Supplier>)
    ensures r.Some? <==> id in {"S001", "S002", "S003", "S004"}
    ensures r.Some? ==> r.value in Suppliers && r.value.id == id
  {
    assert forall s :: s in Suppliers ==> s.id in {"S001", "S002", "S003", "S004"};
    assert Suppliers[0].id == "S001" && Suppliers[1].id == "S002";
    assert Suppliers[2].id == "S003" && Suppliers[3].id == "S004";
    Find(Suppliers, (s: Supplier) => s.id == id)
  }

  // The notifications the handlers emit.

  function CreatedNote(shipmentId: string, now: nat): Notification {
    Note(Success, "Shipment Created", "Shipment " + shipmentId + " has been created successfully!", now)
  }

  function DisruptionActionNote(disruptionId: string, action: string, now: nat): Notification {
    Note(Success, "Disruption Resolved",
         "Action \"" + action + "\" has been applied to disruption " + disruptionId + ".", now)
  }

  function StatusNote(shipmentId: string, newStatus: string, now: nat): Notification {
    Note(Info, "Status Updated", "Shipment " + shipmentId + " status updated to " + newStatus + ".", now)
  }

  function RerouteNote(c: RouteCandidate, now: nat): Notification {
    Note(Success, "Route Updated", "Shipment rerouted via " + c.name + ". New ETA: " + c.estimatedTime, now)
  }

  function OrderPlacedNote(s: Supplier, now: nat): Notification {
    Note(Success, "Order Placed", "New order placed with " + s.name + ". Order ID: ORD" + DecimalString(now), now)
  }

  function MissingInformationNote(now: nat): Notification {
    Note(Error, "Missing Information", "Please fill in all required fields.", now)
  }

  /** A carrier request decision; the page only reports it. */
  datatype Decision = Accept | Decline

  class FlexMovePage {
    var currentUser: Option<UserRole>
    var notifications: seq<Notification>
    var shipments: seq<Shipment>
    var disruptions: seq<Disruption>
    var showCreateShipment: bool
    var createShipmentStep: CreateStep
    var selectedCustomer: string
    var selectedTransporter: string
    var shipmentFormData: ShipmentDetails
    var showRerouteDialog: bool
    var selectedDisruption: Option<Disruption>
    var availableRoutes: seq<RouteCandidate>
    var showNewOrderDialog: bool
    var selectedSupplier: string
    var orderFormData: OrderDetails

    /** The wizard is closed, back at its first step, with no choices kept. */
    ghost predicate WizardReset()
      reads this
    {
      && !showCreateShipment
      && createShipmentStep == CustomerStep
      && selectedCustomer == "" && selectedTransporter == ""
      && shipmentFormData == BlankDetails
    }

    /** A closed wizard holds no choices. */
    ghost predicate WizardConsistent()
      reads this`showCreateShipment, this`createShipmentStep, this`selectedCustomer
      reads this`selectedTransporter, this`shipmentFormData
    {
      !showCreateShipment ==>
        createShipmentStep == CustomerStep && selectedCustomer == "" && selectedTransporter == ""
        && shipmentFormData == BlankDetails
    }

    /** The reroute dialog is open exactly while a disruption is selected. */
    ghost predicate RerouteConsistent()
      reads this`showRerouteDialog, this`selectedDisruption
    {
      showRerouteDialog <==> selectedDisruption.Some?
    }

    /** No two candidates on offer share an id. */
    ghost predicate RoutesConsistent()
      reads this`availableRoutes
    {
      DistinctIds(availableRoutes)
    }

    /** A closed order dialog holds no choices. */
    ghost predicate OrderConsistent()
      reads this`showNewOrderDialog, this`selectedSupplier, this`orderFormData
    {
      !showNewOrderDialog ==> selectedSupplier == "" && orderFormData == BlankOrder
    }

    /** What every handler preserves. */
    ghost predicate Valid()
      reads this
    {
      WizardConsistent() && RerouteConsistent() && RoutesConsistent() && OrderConsistent()
    }

    constructor ()
      ensures Valid() && WizardReset()
      ensures currentUser.None? && notifications == [] && shipments == [] && disruptions == []
      ensures !showRerouteDialog && availableRoutes == [] && !showNewOrderDialog
    {
      currentUser := None;
      notifications, shipments, disruptions := [], [], [];
      showCreateShipment, createShipmentStep := false, CustomerStep;
      selectedCustomer, selectedTransporter, shipmentFormData := "", "", BlankDetails;
      showRerouteDialog, selectedDisruption, availableRoutes := false, None, [];
      showNewOrderDialog, selectedSupplier, orderFormData := false, "", BlankOrder;
    }

    // Notifications

    method AddNotification(kind: Kind, title: string, message: string, now: nat)
      modifies this`notifications
      ensures notifications == old(notifications) + [Note(kind, title, message, now)]
    {
      notifications := notifications + [Note(kind, title, message, now)];
    }

    method RemoveNotification(id: string)
      modifies this`notifications
      ensures notifications == Removed(old(notifications), id)
    {
      notifications := Removed(notifications, id);
    }

    // Session

    method HandleLogin(role: UserRole, now: nat)
      modifies this`currentUser, this`notifications
      ensures currentUser == Some(role)
      ensures notifications == old(notifications)
        + [Note(Success, "Login Successful", "Welcome to your " + RoleName(role) + " dashboard!", now)]
    {
      currentUser := Some(role);
      AddNotification(Success, "Login Successful", "Welcome to your " + RoleName(role) + " dashboard!", now);
    }

    /** Logging out closes and clears the create-shipment wizard. */
    method HandleLogout(now: nat)
      requires Valid()
      modifies this`currentUser, this`showCreateShipment, this`createShipmentStep
      modifies this`selectedCustomer, this`selectedTransporter, this`shipmentFormData, this`notifications
      ensures Valid() && WizardReset() && currentUser.None?
      ensures notifications == old(notifications)
        + [Note(Info, "Logged Out", "You have been successfully logged out.", now)]
    {
      currentUser := None;
      ResetWizard();
      AddNotification(Info, "Logged Out", "You have been successfully logged out.", now);
    }

    // Create-shipment wizard

    method ResetWizard()
      modifies this`showCreateShipment, this`createShipmentStep
      modifies this`selectedCustomer, this`selectedTransporter, this`shipmentFormData
      ensures WizardReset()
    {
      showCreateShipment := false;
      createShipmentStep := CustomerStep;
      selectedCustomer := "";
      selectedTransporter := "";
      shipmentFormData := BlankDetails;
    }

    method HandleCreateShipment()
      requires Valid()
      modifies this`showCreateShipment, this`createShipmentStep
      ensures Valid() && showCreateShipment && createShipmentStep == CustomerStep
    {
      showCreateShipment := true;
      createShipmentStep := CustomerStep;
    }

    method HandleCustomerSelected(customerId: string, now: nat)
      requires Valid() && showCreateShipment
      modifies this`selectedCustomer, this`createShipmentStep, this`notifications
      ensures Valid()
      ensures selectedCustomer == customerId && createShipmentStep == TransporterStep
      ensures notifications == old(notifications)
        + [Note(Info, "Customer Selected", "Please select a transporter for this shipment.", now)]
    {
      selectedCustomer := customerId;
      createShipmentStep := TransporterStep;
      AddNotification(Info, "Customer Selected", "Please select a transporter for this shipment.", now);
    }

    method HandleTransporterSelected(transporterId: string, now: nat)
      requires Valid() && showCreateShipment
      modifies this`selectedTransporter, this`createShipmentStep, this`notifications
      ensures Valid()
      ensures selectedTransporter == transporterId && createShipmentStep == DetailsStep
      ensures notifications == old(notifications)
        + [Note(Info, "Transporter Selected", "Please fill in the shipment details.", now)]
    {
      selectedTransporter := transporterId;
      createShipmentStep := DetailsStep;
      AddNotification(Info, "Transporter Selected", "Please fill in the shipment details.", now);
    }

    method SetShipmentFormData(data: ShipmentDetails)
      requires Valid() && showCreateShipment
      modifies this`shipmentFormData
      ensures Valid() && shipmentFormData == data
    {
      shipmentFormData := data;
    }

    method CloseCreateShipment()
      requires Valid()
      modifies this`showCreateShipment, this`createShipmentStep
      modifies this`selectedCustomer, this`selectedTransporter, this`shipmentFormData
      ensures Valid() && WizardReset()
    {
      ResetWizard();
    }

    /** Appends exactly one new shipment, built from `data` at clock reading `now`, leaves
        the earlier ones as they were and resets the wizard. */
    method HandleShipmentCreated(data: ShipmentDetails, now: nat)
      requires Valid()
      modifies this`shipments, this`showCreateShipment, this`createShipmentStep
      modifies this`selectedCustomer, this`selectedTransporter, this`shipmentFormData, this`notifications
      ensures Valid() && WizardReset()
      ensures |shipments| == |old(shipments)| + 1 && shipments[..|old(shipments)|] == old(shipments)
      ensures IsNewShipment(shipments[|old(shipments)|], data, now)
      ensures notifications == old(notifications) + [CreatedNote(shipments[|old(shipments)|].id, now)]
    {
      var cost :| 500 <= cost <= 2499;
      var carbon :| 50 <= carbon <= 249;
      var probability :| 5 <= probability <= 34;
      var s := Shipment(
        "SH" + DecimalString(now), "Unknown Customer", "Unknown Transporter", data.mode,
        data.origin + " → " + data.destination, "pending", "3-5 days",
        cost, carbon, RiskFromPriority(data.priority), probability);
      RecordShipment(s, now);
      ResetWizard();
    }

    /** The list updates of handleShipmentCreated: the record is appended and reported. */
    method RecordShipment(s: Shipment, now: nat)
      modifies this`shipments, this`notifications
      ensures shipments == old(shipments) + [s]
      ensures notifications == old(notifications) + [CreatedNote(s.id, now)]
    {
      shipments := shipments + [s];
      AddNotification(Success, "Shipment Created", "Shipment " + s.id + " has been created successfully!", now);
    }

    // Shipment status and disruptions

    /** Overwrites the status of the shipments with that id, whatever their old status. */
    method HandleShipmentStatusUpdate(shipmentId: string, newStatus: string, now: nat)
      requires Valid()
      modifies this`shipments, this`notifications
      ensures Valid()
      ensures shipments == WithStatus(old(shipments), shipmentId, newStatus)
      ensures notifications == old(notifications) + [StatusNote(shipmentId, newStatus, now)]
    {
      shipments := WithStatus(shipments, shipmentId, newStatus);
      AddNotification(Info, "Status Updated", "Shipment " + shipmentId + " status updated to " + newStatus + ".", now);
    }

    /** Removes the disruption whatever the action is. */
    method HandleDisruptionAction(disruptionId: string, action: string, now: nat)
      requires Valid()
      modifies this`disruptions, this`notifications
      ensures Valid()
      ensures disruptions == WithoutDisruption(old(disruptions), disruptionId)
      ensures notifications == old(notifications) + [DisruptionActionNote(disruptionId, action, now)]
    {
      disruptions := WithoutDisruption(disruptions, disruptionId);
      AddNotification(Success, "Disruption Resolved",
                      "Action \"" + action + "\" has been applied to disruption " + disruptionId + ".", now);
    }

    /** Accepting or declining a carrier request only reports the decision. */
    method HandleRequestAction(requestId: string, decision: Decision, now: nat)
      modifies this`notifications
      ensures decision == Accept ==>
        notifications == old(notifications)
          + [Note(Success, "Request Accepted", "Request " + requestId + " has been accepted.", now)]
      ensures decision == Decline ==>
        notifications == old(notifications)
          + [Note(Info, "Request Declined", "Request " + requestId + " has been declined.", now)]
    {
      if decision == Accept {
        AddNotification(Success, "Request Accepted", "Request " + requestId + " has been accepted.", now);
      } else {
        AddNotification(Info, "Request Declined", "Request " + requestId + " has been declined.", now);
      }
    }

    /** A rating is acknowledged and not stored. */
    method HandleRatingSubmit(shipmentId: string, rating: int, feedback: string, now: nat)
      modifies this`notifications
      ensures notifications == old(notifications) + [Note(Success, "Rating Submitted",
        "Thank you for rating shipment " + shipmentId + ". Your feedback has been recorded.", now)]
    {
      AddNotification(Success, "Rating Submitted",
                      "Thank you for rating shipment " + shipmentId + ". Your feedback has been recorded.", now);
    }

    // Rerouting

    /** Opens the reroute dialog on `d` with freshly generated candidates. */
    method HandleRerouteRequest(d: Disruption)
      requires Valid()
      modifies this`selectedDisruption, this`availableRoutes, this`showRerouteDialog
      ensures Valid()
      ensures selectedDisruption == Some(d) && showRerouteDialog
      ensures availableRoutes == GenerateAvailableRoutes(d)
    {
      selectedDisruption := Some(d);
      availableRoutes := GenerateAvailableRoutes(d);
      showRerouteDialog := true;
    }

    method CloseRerouteDialog()
      requires Valid()
      modifies this`showRerouteDialog, this`selectedDisruption
      ensures Valid() && !showRerouteDialog && selectedDisruption.None?
    {
      showRerouteDialog := false;
      selectedDisruption := None;
    }

    /** Commits the candidate with id `routeId` to the selected disruption's shipment and
        retires that disruption; with no such candidate or no selected disruption nothing
        changes. The candidate's availability is not checked here. */
    method HandleRouteSelection(routeId: string, now: nat)
      requires Valid()
      modifies this`shipments, this`disruptions, this`notifications
      modifies this`showRerouteDialog, this`selectedDisruption
      ensures Valid()
      ensures var found := FindRoute(old(availableRoutes), routeId);
        if found.Some? && old(selectedDisruption).Some? then
          && shipments == Rerouted(old(shipments), old(selectedDisruption).value.shipmentId, found.value)
          && disruptions == WithoutDisruption(old(disruptions), old(selectedDisruption).value.id)
          && notifications == old(notifications) + [RerouteNote(found.value, now)]
          && !showRerouteDialog && selectedDisruption.None?
        else
          && shipments == old(shipments) && disruptions == old(disruptions)
          && notifications == old(notifications)
          && showRerouteDialog == old(showRerouteDialog) && selectedDisruption == old(selectedDisruption)
    {
      var found := FindRoute(availableRoutes, routeId);
      if found.Some? && selectedDisruption.Some? {
        CommitRoute(selectedDisruption.value, found.value, now);
      }
    }

    method CommitRoute(d: Disruption, route: RouteCandidate, now: nat)
      modifies this`shipments, this`disruptions, this`notifications
      modifies this`showRerouteDialog, this`selectedDisruption
      ensures shipments == Rerouted(old(shipments), d.shipmentId, route)
      ensures disruptions == WithoutDisruption(old(disruptions), d.id)
      ensures notifications == old(notifications) + [RerouteNote(route, now)]
      ensures !showRerouteDialog && selectedDisruption.None?
    {
      var ships := Rerouted(shipments, d.shipmentId, route);
      var ds := WithoutDisruption(disruptions, d.id);
      shipments, disruptions, showRerouteDialog, selectedDisruption := ships, ds, false, None;
      AddNotification(Success, "Route Updated",
                      "Shipment rerouted via " + route.name + ". New ETA: " + route.estimatedTime, now);
    }

    /** A click on a candidate of the open reroute dialog: only an available candidate is
        committed, and then it is exactly the clicked one. */
    method SelectFromRerouteDialog(route: RouteCandidate, now: nat)
      requires Valid() && showRerouteDialog && route in availableRoutes
      modifies this`shipments, this`disruptions, this`notifications
      modifies this`showRerouteDialog, this`selectedDisruption
      ensures Valid()
      ensures route.status == Available ==>
        && shipments == Rerouted(old(shipments), old(selectedDisruption).value.shipmentId, route)
        && disruptions == WithoutDisruption(old(disruptions), old(selectedDisruption).value.id)
        && notifications == old(notifications) + [RerouteNote(route, now)]
        && !showRerouteDialog && selectedDisruption.None?
      ensures route.status != Available ==>
        && shipments == old(shipments) && disruptions == old(disruptions)
        && notifications == old(notifications)
        && showRerouteDialog && selectedDisruption == old(selectedDisruption)
    {
      if route.status == Available {
        FindListedRoute(availableRoutes, route);
        HandleRouteSelection(route.id, now);
      }
    }

    // Customer orders

    method HandleNewOrder()
      requires Valid()
      modifies this`showNewOrderDialog, this`selectedSupplier, this`orderFormData
      ensures Valid() && showNewOrderDialog && selectedSupplier == "" && orderFormData == BlankOrder
    {
      showNewOrderDialog := true;
      selectedSupplier := "";
      orderFormData := BlankOrder;
    }

    method HandleSupplierSelection(supplierId: string)
      requires Valid() && showNewOrderDialog
      modifies this`selectedSupplier
      ensures Valid() && selectedSupplier == supplierId
    {
      selectedSupplier := supplierId;
    }

    method SetOrderFormData(form: OrderDetails)
      requires Valid() && showNewOrderDialog
      modifies this`orderFormData
      ensures Valid() && orderFormData == form
    {
      orderFormData := form;
    }

    method CloseNewOrderDialog()
      requires Valid()
      modifies this`showNewOrderDialog, this`selectedSupplier, this`orderFormData
      ensures Valid() && !showNewOrderDialog && selectedSupplier == "" && orderFormData == BlankOrder
    {
      showNewOrderDialog := false;
      selectedSupplier := "";
      orderFormData := BlankOrder;
    }

    /** Missing supplier, product or quantity: an error notification and nothing else. A
        known supplier: the order is reported and the dialog closes and clears. An unknown
        supplier id: nothing happens. */
    method HandleOrderSubmit(now: nat)
      requires Valid()
      modifies this`notifications, this`showNewOrderDialog, this`selectedSupplier, this`orderFormData
      ensures Valid()
      ensures OrderMissingInformation(old(selectedSupplier), old(orderFormData)) ==>
        && notifications == old(notifications) + [MissingInformationNote(now)]
        && showNewOrderDialog == old(showNewOrderDialog)
        && selectedSupplier == old(selectedSupplier) && orderFormData == old(orderFormData)
      ensures !OrderMissingInformation(old(selectedSupplier), old(orderFormData)) ==>
        if FindSupplier(old(selectedSupplier)).Some? then
          && notifications == old(notifications) + [OrderPlacedNote(FindSupplier(old(selectedSupplier)).value, now)]
          && !showNewOrderDialog && selectedSupplier == "" && orderFormData == BlankOrder
        else
          && notifications == old(notifications)
          && showNewOrderDialog == old(showNewOrderDialog)
          && selectedSupplier == old(selectedSupplier) && orderFormData == old(orderFormData)
    {
      if OrderMissingInformation(selectedSupplier, orderFormData) {
        AddNotification(Error, "Missing Information", "Please fill in all required fields.", now);
        return;
      }
      var supplier := FindSupplier(selectedSupplier);
      assert supplier == FindSupplier(old(selectedSupplier));
      if supplier.Some? {
        showNewOrderDialog, selectedSupplier, orderFormData := false, "", BlankOrder;
        AddNotification(Success, "Order Placed",
                        "New order placed with " + supplier.value.name + ". Order ID: ORD" + DecimalString(now), now);
      }
    }
  }

  /** The transporter dashboard's status menu: a known entry is forwarded to the page as
      its status (its progress is dropped); any other value is ignored. */
  method SelectTransporterStatus(page: FlexMovePage, shipmentId: string, value: string, now: nat)
    requires page.Valid()
    modifies page`shipments, page`notifications
    ensures page.Valid()
    ensures value !in StatusMenu ==>
      page.shipments == old(page.shipments) && page.notifications == old(page.notifications)
    ensures value in StatusMenu ==>
      var status := TransporterStatusChange(value).value.status;
      && page.shipments == WithStatus(old(page.shipments), shipmentId, status)
      && page.notifications == old(page.notifications) + [StatusNote(shipmentId, status, now)]
  {
    var update := TransporterStatusChange(value);
    if update.Some? {
      page.HandleShipmentStatusUpdate(shipmentId, update.value.status, now);
    }
  }

  /** RatingForm's submit: a rating of zero (no star chosen) is not sent. */
  method SubmitRatingForm(page: FlexMovePage, shipmentId: string, rating: int, feedback: string, now: nat)
    modifies page`notifications
    ensures rating <= 0 ==> page.notifications == old(page.notifications)
    ensures rating > 0 ==> page.notifications == old(page.notifications) + [Note(Success, "Rating Submitted",
      "Thank you for rating shipment " + shipmentId + ". Your feedback has been recorded.", now)]
  {
    if rating > 0 {
      page.HandleRatingSubmit(shipmentId, rating, feedback, now);
    }
  }

  /** The three demonstration alerts SupplierDashboard starts with; the timestamps are
      clock readings two, one and four hours back. */
  function DemoDisruptions(twoHoursAgo: string, oneHourAgo: string, fourHoursAgo: string): seq<Disruption> {
    [
      Disruption("DISP-001", "SHIP-2023-0456", "Severe Weather Alert",
                 "Heavy snowstorm causing delays on I-80 in Wyoming", "12-24 hours", Active, High,
                 "I-80, WY", twoHoursAgo, ["Reroute shipment", "Delay delivery", "Contact customer"], None, None),
      Disruption("DISP-002", "SHIP-2023-0457", "Mechanical Failure",
                 "Truck breakdown - waiting for repair service", "6-8 hours", InProgress, Medium,
                 "Denver, CO", oneHourAgo, ["Arrange backup vehicle", "Update ETA", "Contact repair service"], None, None),
      Disruption("DISP-003", "SHIP-2023-0458", "Port Congestion",
                 "Unloading delays at Port of Los Angeles", "24-48 hours", Monitoring, High,
                 "Los Angeles, CA", fourHoursAgo, ["Reroute to alternate port", "Update customer", "Monitor situation"], None, None)
    ]
  }

  /** SupplierDashboard with its local disruption list. Its onDisruptionAction and
      onRerouteRequest callbacks are always the page's handlers. */
  class SupplierDashboard {
    const page: FlexMovePage
    var localDisruptions: seq<Disruption>

    /** The local list is seeded once: the three demonstration alerts, then the page's. */
    constructor (page: FlexMovePage, propDisruptions: seq<Disruption>,
                 twoHoursAgo: string, oneHourAgo: string, fourHoursAgo: string)
      ensures this.page == page
      ensures localDisruptions == DemoDisruptions(twoHoursAgo, oneHourAgo, fourHoursAgo) + propDisruptions
    {
      this.page := page;
      localDisruptions := DemoDisruptions(twoHoursAgo, oneHourAgo, fourHoursAgo) + propDisruptions;
    }

    /** Forwards to the page (which drops the alert from its list whatever the action) and
        then applies the action to the local list. */
    method HandleDisruptionAction(disruptionId: string, action: string, now: nat, nowIso: string)
      requires page.Valid()
      modifies this`localDisruptions, page`disruptions, page`notifications
      ensures page.Valid()
      ensures page.disruptions == WithoutDisruption(old(page.disruptions), disruptionId)
      ensures page.notifications == old(page.notifications) + [DisruptionActionNote(disruptionId, action, now)]
      ensures localDisruptions == ActedOn(old(localDisruptions), disruptionId, action, nowIso)
    {
      page.HandleDisruptionAction(disruptionId, action, now);
      localDisruptions := ActedOn(localDisruptions, disruptionId, action, nowIso);
    }

    /** "Update customer": the local alert stays as it is, the page's copy is dropped. */
    method HandleUpdateCustomer(d: Disruption, now: nat, nowIso: string)
      requires page.Valid()
      modifies this`localDisruptions, page`disruptions, page`notifications
      ensures page.Valid()
      ensures localDisruptions == old(localDisruptions)
      ensures page.disruptions == WithoutDisruption(old(page.disruptions), d.id)
      ensures page.notifications == old(page.notifications) + [DisruptionActionNote(d.id, "customer_updated", now)]
    {
      HandleDisruptionAction(d.id, "customer_updated", now, nowIso);
    }

    method HandleReroute(d: Disruption)
      requires page.Valid()
      modifies page`selectedDisruption, page`availableRoutes, page`showRerouteDialog
      ensures page.Valid()
      ensures page.selectedDisruption == Some(d) && page.showRerouteDialog
      ensures page.availableRoutes == GenerateAvailableRoutes(d)
    {
      page.HandleRerouteRequest(d);
    }
  }
}
