/** Route candidates and the reroute resolver of FlexMovePage: the mock candidate
    generator, the lookup of the chosen candidate and the two list updates that
    commit it. */
module Reroute {
  import opened ArrayOps
  import opened Domain

  /** The four mock candidates of generateAvailableRoutes. */
  const MockRoutes: seq<RouteCandidate> := [
    RouteCandidate("R001", "Alternative Highway Route", 450, "6-8 hours", 1200, 85, Low, Available),
    RouteCandidate("R002", "Coastal Route", 520, "8-10 hours", 1100, 95, Medium, Available),
    RouteCandidate("R003", "Mountain Pass Route", 380, "5-7 hours", 1350, 70, High, Congested),
    RouteCandidate("R004", "Express Lane Route", 420, "4-6 hours", 1500, 90, Low, Available)
  ]

  predicate DistinctIds(routes: seq<RouteCandidate>) {
    forall i, j :: 0 <= i < j < |routes| ==> routes[i].id != routes[j].id
  }

  function Ids(routes: seq<RouteCandidate>): set<string> {
    set c | c in routes :: c.id
  }

  /** The ids the reroute dialog lets the operator pick. */
  function SelectableIds(routes: seq<RouteCandidate>): set<string> {
    set c | c in routes && c.status == Available :: c.id
  }

  /** generateAvailableRoutes: the same four candidates whatever the disruption, no two
      with the same id. */
  function GenerateAvailableRoutes(d: Disruption): (r: seq<RouteCandidate>)
    ensures |r| == 4
    ensures DistinctIds(r)
    ensures forall c :: c in r ==> c.cost > 0 && c.carbonFootprint > 0 && c.distance > 0
  {
    MockRoutes
  }

  /** The candidates are R001 to R004, and the dialog can select all of them but R003. */
  lemma GeneratedIds(d: Disruption)
    ensures Ids(GenerateAvailableRoutes(d)) == {"R001", "R002", "R003", "R004"}
    ensures SelectableIds(GenerateAvailableRoutes(d)) == {"R001", "R002", "R004"}
  {
    var r := GenerateAvailableRoutes(d);
    assert r[0].id == "R001" && r[1].id == "R002" && r[2].id == "R003" && r[3].id == "R004";
    assert forall c :: c in r ==> c == r[0] || c == r[1] || c == r[2] || c == r[3];
  }

  /** `availableRoutes.find(r => r.id === routeId)`. */
  function FindRoute(routes: seq<RouteCandidate>, routeId: string): Option<RouteCandidate> {
    Find(routes, (c: RouteCandidate) => c.id == routeId)
  }

  /** Among candidates with distinct ids, looking a listed candidate up by its id finds it. */
  lemma FindListedRoute(routes: seq<RouteCandidate>, c: RouteCandidate)
    requires DistinctIds(routes)
    requires c in routes
    ensures FindRoute(routes, c.id) == Some(c)
  {
    var k :| 0 <= k < |routes| && routes[k] == c;
    FindFirstMatch(routes, (r: RouteCandidate) => r.id == c.id, k);
  }

  /** A shipment with a candidate committed to it: route, eta, cost, carbon footprint and
      risk level come from the candidate. */
  function WithRoute(s: Shipment, c: RouteCandidate): Shipment {
    s.(route := c.name, eta := c.estimatedTime, cost := c.cost,
       carbonFootprint := c.carbonFootprint, riskLevel := c.riskLevel)
  }

  /** `after` is `before` with the candidate committed when its id is the disrupted one:
      the five route fields come from the candidate and every other field is kept;
      otherwise it is `before` itself. */
  predicate ReroutedAt(before: Shipment, after: Shipment, shipmentId: string, c: RouteCandidate) {
    && after.id == before.id && after.customer == before.customer
    && after.transporter == before.transporter && after.mode == before.mode
    && after.status == before.status && after.disruptionProbability == before.disruptionProbability
    && (before.id == shipmentId ==>
          && after.route == c.name && after.eta == c.estimatedTime && after.cost == c.cost
          && after.carbonFootprint == c.carbonFootprint && after.riskLevel == c.riskLevel)
    && (before.id != shipmentId ==> after == before)
  }

  /** The shipment list after a reroute: element by element, ReroutedAt. */
  function Rerouted(ships: seq<Shipment>, shipmentId: string, c: RouteCandidate): (r: seq<Shipment>)
    ensures |r| == |ships|
    ensures forall i :: 0 <= i < |r| ==> ReroutedAt(ships[i], r[i], shipmentId, c)
  {
    seq(|ships|, i requires 0 <= i < |ships| =>
      if ships[i].id == shipmentId then WithRoute(ships[i], c) else ships[i])
  }

  /** Committing the same candidate twice is committing it once. */
  lemma ReroutedIdempotent(ships: seq<Shipment>, shipmentId: string, c: RouteCandidate)
    ensures Rerouted(Rerouted(ships, shipmentId, c), shipmentId, c) == Rerouted(ships, shipmentId, c)
  {
  }

  /** `disruptions.filter(d => d.id !== disruptionId)`. */
  function WithoutDisruption(ds: seq<Disruption>, disruptionId: string): (r: seq<Disruption>)
    ensures forall d :: d in r <==> d in ds && d.id != disruptionId
    ensures |r| < |ds| <==> exists d :: d in ds && d.id == disruptionId
  {
    var keep := (d: Disruption) => d.id != disruptionId;
    FilterShortens(ds, keep);
    Filter(ds, keep)
  }
}
