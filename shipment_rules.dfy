/** What FlexMovePage does to shipment records: the record handleShipmentCreated builds,
    the status overwrite of handleShipmentStatusUpdate and the transporter dashboard's
    menu of status changes. */
module ShipmentRules {
  import opened ArrayOps
  import opened Text
  import opened Domain

  /** The five fields of the create-shipment wizard's form data. */
  datatype ShipmentDetails = ShipmentDetails(
    origin: string, destination: string, weight: string, priority: string, mode: string)

  const BlankDetails := ShipmentDetails("", "", "", "", "")

  /** The risk level handleShipmentCreated derives from the requested priority. */
  function RiskFromPriority(priority: string): (r: Level)
    ensures r == High <==> priority == "urgent"
    ensures r == Medium <==> priority == "high"
    ensures r == Low <==> priority != "urgent" && priority != "high"
  {
    if priority == "urgent" then High else if priority == "high" then Medium else Low
  }

  function PriorityRank(priority: string): nat {
    if priority == "urgent" then 3 else if priority == "high" then 2 else if priority == "medium" then 1 else 0
  }

  function LevelRank(l: Level): nat {
    match l
    case Low => 0
    case Medium => 1
    case High => 2
  }

  /** A more pressing priority never yields a lower risk level. */
  lemma RiskFollowsPriority(p: string, q: string)
    requires PriorityRank(p) <= PriorityRank(q)
    ensures LevelRank(RiskFromPriority(p)) <= LevelRank(RiskFromPriority(q))
  {
  }

  /** The record handleShipmentCreated appends at clock reading `now`: id "SH" followed by
      the clock, placeholder customer and transporter, "origin → destination" as the route,
      status pending, eta "3-5 days", and the three random figures within their ranges
      (`floor(random * n) + base` lies in [base, base + n - 1]). */
  ghost predicate IsNewShipment(s: Shipment, data: ShipmentDetails, now: nat) {
    && s.id == "SH" + DecimalString(now)
    && s.customer == "Unknown Customer"
    && s.transporter == "Unknown Transporter"
    && s.mode == data.mode
    && s.route == data.origin + " → " + data.destination
    && s.status == "pending"
    && s.eta == "3-5 days"
    && 500 <= s.cost <= 2499
    && 50 <= s.carbonFootprint <= 249
    && s.riskLevel == RiskFromPriority(data.priority)
    && 5 <= s.disruptionProbability <= 34
  }

  /** Shipments created at different clock readings get different ids. */
  lemma NewShipmentIdsDiffer(a: Shipment, b: Shipment, da: ShipmentDetails, db: ShipmentDetails, m: nat, n: nat)
    requires IsNewShipment(a, da, m) && IsNewShipment(b, db, n)
    requires m != n
    ensures a.id != b.id
  {
    if a.id == b.id {
      assert a.id[2..] == DecimalString(m);
      assert b.id[2..] == DecimalString(n);
      DecimalStringInjective(m, n);
    }
  }

  /** `shipments.map(s => s.id === shipmentId ? { ...s, status: newStatus } : s)`: no check
      of the old status, so any status can replace any other, "delivered" included. */
  function WithStatus(ships: seq<Shipment>, shipmentId: string, newStatus: string): (r: seq<Shipment>)
    ensures |r| == |ships|
    ensures forall i :: 0 <= i < |r| && ships[i].id == shipmentId ==>
      r[i].status == newStatus && r[i].(status := ships[i].status) == ships[i]
    ensures forall i :: 0 <= i < |r| && ships[i].id != shipmentId ==> r[i] == ships[i]
  {
    seq(|ships|, i requires 0 <= i < |ships| =>
      if ships[i].id == shipmentId then ships[i].(status := newStatus) else ships[i])
  }

  /** A delivered shipment can be set back to pending: there is no forward-only rule. */
  lemma DeliveredCanRegress(s: Shipment)
    requires s.status == "delivered"
    ensures WithStatus([s], s.id, "pending") == [s.(status := "pending")]
  {
  }

  /** A status change chosen on the transporter dashboard, with the progress it shows. */
  datatype StatusChange = StatusChange(status: string, progress: nat)

  /** The entries of the transporter's "Update status" menu, in menu order. */
  const StatusMenu: seq<string> := ["preparing", "dispatched", "in-transit", "halfway", "delivered"]

  /** The transporter dashboard's `statusMap[value]`. */
  function TransporterStatusChange(value: string): (r: Option<StatusChange>)
    ensures r.Some? <==> value in StatusMenu
    ensures r.Some? ==> r.value.status == (if value == "halfway" then "in-transit" else value)
    ensures r.Some? ==> (r.value.progress == 100 <==> r.value.status == "delivered")
    ensures r.Some? ==> 0 < r.value.progress <= 100
  {
    if value == "preparing" then Some(StatusChange("preparing", 10))
    else if value == "dispatched" then Some(StatusChange("dispatched", 25))
    else if value == "in-transit" then Some(StatusChange("in-transit", 50))
    else if value == "halfway" then Some(StatusChange("in-transit", 75))
    else if value == "delivered" then Some(StatusChange("delivered", 100))
    else None
  }

  /** Further down the menu means strictly more progress. */
  lemma ProgressFollowsMenu(i: nat, j: nat)
    requires i < j < |StatusMenu|
    ensures TransporterStatusChange(StatusMenu[i]).Some? && TransporterStatusChange(StatusMenu[j]).Some?
    ensures TransporterStatusChange(StatusMenu[i]).value.progress < TransporterStatusChange(StatusMenu[j]).value.progress
  {
  }
}
