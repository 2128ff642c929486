/** CreateShipmentForm: seven text fields set by their inputs, the mode choices of the chosen
    transporter, the route-analysis card and the rule that enables the submit button. */
module CreateShipment {
  import opened ArrayOps
  import opened Text

  datatype Customer = Customer(id: string, name: string, location: string)

  datatype Transporter = Transporter(id: string, name: string, rating: real, modes: seq<string>, evFleet: bool)

  /** Cost, time, carbon and risk of one mode, as the rate table and the analysis card hold them. */
  datatype RouteFigures = RouteFigures(cost: int, time: string, carbon: int, risk: string)

  /** The own properties of `baseData`, the per-mode rate table. */
  function BaseData(key: string): (r: Option<RouteFigures>)
    ensures r.Some? <==> key in {"truck", "ship", "air"}
  {
    if key == "truck" then Some(RouteFigures(850, "3-4 days", 120, "Low"))
    else if key == "ship" then Some(RouteFigures(450, "7-10 days", 45, "Medium"))
    else if key == "air" then Some(RouteFigures(2100, "1-2 days", 380, "Low"))
    else None
  }

  /** getRouteAnalysis. `scale` stands for `x => Math.round(x * parseFloat(weight) / 1000)`,
      the weight adjustment, whose floating-point arithmetic is not modelled. */
  function RouteAnalysis(mode: string, weight: string, scale: int -> int): (r: Option<RouteFigures>)
    ensures mode == "" || weight == "" ==> r.None?
    ensures r.Some? <==> mode != "" && weight != "" && ToLower(mode) in {"truck", "ship", "air"}
    ensures r.Some? ==>
      var row := BaseData(ToLower(mode)).value;
      r.value.time == row.time && r.value.risk == row.risk
      && r.value.cost == scale(row.cost) && r.value.carbon == scale(row.carbon)
  {
    if mode == "" || weight == "" then None
    else
      match BaseData(ToLower(mode))
      case None => None
      case Some(row) => Some(row.(cost := scale(row.cost), carbon := scale(row.carbon)))
  }

  /** The lookup ignores letter case: a mode and its lower-case form give the same card. */
  lemma AnalysisIgnoresCase(mode: string, weight: string, scale: int -> int)
    ensures RouteAnalysis(mode, weight, scale) == RouteAnalysis(ToLower(mode), weight, scale)
  {
    ToLowerIdempotent(mode);
  }

  /** The electric-truck mode has no row in the table, so no spelling of it gets a card. */
  lemma NoAnalysisForEv(mode: string, weight: string, scale: int -> int)
    requires ToLower(mode) == "ev"
    ensures RouteAnalysis(mode, weight, scale).None?
  {
  }

  /** `transporters.find(t => t.id === selectedTransporter)`. */
  function FindTransporter(ts: seq<Transporter>, id: string): Option<Transporter> {
    Find(ts, (t: Transporter) => t.id == id)
  }

  /** The choices of the "Transport Mode" select; None when the select is not shown. */
  function ModeOptions(ts: seq<Transporter>, selectedTransporter: string): (r: Option<seq<string>>)
    ensures r.None? <==> forall t :: t in ts ==> t.id != selectedTransporter
    ensures r.Some? ==> exists t :: t in ts && t.id == selectedTransporter && r.value == t.modes
  {
    match FindTransporter(ts, selectedTransporter)
    case None => None
    case Some(t) => Some(t.modes)
  }

  /** The select offers the modes of the first transporter with the chosen id. */
  lemma ModeOptionsOfFirst(ts: seq<Transporter>, k: int)
    requires 0 <= k < |ts|
    requires forall j :: 0 <= j < k ==> ts[j].id != ts[k].id
    ensures ModeOptions(ts, ts[k].id) == Some(ts[k].modes)
  {
    FindFirstMatch(ts, (t: Transporter) => t.id == ts[k].id, k);
  }

  /** The submit button is disabled while any of the six required fields is empty; priority
      is not among them. */
  predicate SubmitDisabled(customer: string, transporter: string, mode: string,
                           origin: string, destination: string, weight: string)
  {
    customer == "" || transporter == "" || mode == "" || origin == "" || destination == "" || weight == ""
  }

  /** The button is enabled exactly when every required field holds something. */
  lemma EnabledMeansComplete(customer: string, transporter: string, mode: string,
                             origin: string, destination: string, weight: string)
    ensures !SubmitDisabled(customer, transporter, mode, origin, destination, weight)
      <==> forall f :: f in [customer, transporter, mode, origin, destination, weight] ==> |f| > 0
  {
  }

  class CreateShipmentForm {
    const customers: seq<Customer>
    const transporters: seq<Transporter>
    var selectedCustomer: string
    var selectedTransporter: string
    var selectedMode: string
    var origin: string
    var destination: string
    var weight: string
    var priority: string

    constructor (customers: seq<Customer>, transporters: seq<Transporter>)
      ensures this.customers == customers && this.transporters == transporters
      ensures selectedCustomer == "" && selectedTransporter == "" && selectedMode == ""
      ensures origin == "" && destination == "" && weight == "" && priority == ""
      ensures !CanSubmit()
    {
      this.customers := customers;
      this.transporters := transporters;
      selectedCustomer, selectedTransporter, selectedMode := "", "", "";
      origin, destination, weight, priority := "", "", "", "";
    }

    predicate CanSubmit()
      reads this
    {
      !SubmitDisabled(selectedCustomer, selectedTransporter, selectedMode, origin, destination, weight)
    }

    function OfferedModes(): Option<seq<string>>
      reads this
    {
      ModeOptions(transporters, selectedTransporter)
    }

    method SetSelectedCustomer(v: string)
      modifies this`selectedCustomer
      ensures selectedCustomer == v
    {
      selectedCustomer := v;
    }

    /** Choosing another transporter keeps the chosen mode, even one the new transporter
        does not offer. */
    method SetSelectedTransporter(v: string)
      modifies this`selectedTransporter
      ensures selectedTransporter == v
      ensures selectedMode == old(selectedMode)
      ensures OfferedModes() == ModeOptions(transporters, v)
    {
      selectedTransporter := v;
    }

    method SetSelectedMode(v: string)
      modifies this`selectedMode
      ensures selectedMode == v
    {
      selectedMode := v;
    }

    method SetOrigin(v: string)
      modifies this`origin
      ensures origin == v
    {
      origin := v;
    }

    method SetDestination(v: string)
      modifies this`destination
      ensures destination == v
    {
      destination := v;
    }

    method SetWeight(v: string)
      modifies this`weight
      ensures weight == v
    {
      weight := v;
    }

    /** Priority never enables or disables the submit button. */
    method SetPriority(v: string)
      modifies this`priority
      ensures priority == v
      ensures CanSubmit() == old(CanSubmit())
    {
      priority := v;
    }
  }

  // The rate table is indexed with an arbitrary lower-cased string. A JavaScript object
  // literal also answers for the properties it inherits from Object.prototype, and two of
  // those have all-lower-case names.

  /** The names of Object.prototype's properties that `toLowerCase` can produce. */
  const InheritedLowerCaseKeys: set<string> := {"constructor", "__proto__"}

  /** What `baseData[key]` yields as written: an own row, an inherited (truthy) property,
      or undefined. */
  datatype Lookup = OwnRow(row: RouteFigures) | InheritedProperty | Undefined

  function BaseDataAsWritten(key: string): Lookup {
    match BaseData(key)
    case Some(row) => OwnRow(row)
    case None => if key in InheritedLowerCaseKeys then InheritedProperty else Undefined
  }

  /** Whether getRouteAnalysis as written returns an object (the card is shown): only an
      undefined lookup returns null. */
  predicate AnalysisShownAsWritten(mode: string, weight: string) {
    mode != "" && weight != "" && BaseDataAsWritten(ToLower(mode)) != Undefined
  }

  /** A mode whose lower case is an inherited name shows a card (with cost and CO2 both
      NaN) as written, while the own-property lookup of RouteAnalysis gives none. */
  lemma InheritedNameShowsCard(mode: string, weight: string, scale: int -> int)
    requires weight != "" && ToLower(mode) in InheritedLowerCaseKeys
    ensures AnalysisShownAsWritten(mode, weight)
    ensures RouteAnalysis(mode, weight, scale).None?
  {
  }

  /** The mode "constructor" with a weight of 500 is such an input. */
  lemma ConstructorModeShowsCard(scale: int -> int)
    ensures AnalysisShownAsWritten("constructor", "500")
    ensures RouteAnalysis("constructor", "500", scale).None?
  {
    LowerCaseUnchanged("constructor");
    InheritedNameShowsCard("constructor", "500", scale);
  }

  /** Outside the inherited names, the as-written lookup and the own-property lookup agree. */
  lemma AsWrittenAgreesElsewhere(mode: string, weight: string, scale: int -> int)
    requires ToLower(mode) !in InheritedLowerCaseKeys
    ensures AnalysisShownAsWritten(mode, weight) <==> RouteAnalysis(mode, weight, scale).Some?
  {
  }
}
