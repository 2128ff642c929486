/** The records the dashboard keeps in React state: shipments, disruption alerts and the
    transient route candidates of a reroute request. */
module Domain {
  import opened ArrayOps

  /** 'low' | 'medium' | 'high': a shipment's or a route's risk level, a disruption's severity. */
  datatype Level = Low | Medium | High

  /** ShipmentData. `mode` and `status` are typed as unions in the source but are filled
      through unchecked casts (`as TransportMode`, `as ShipmentStatus`) from arbitrary
      strings, so the model keeps them as strings. */
  datatype Shipment = Shipment(
    id: string,
    customer: string,
    transporter: string,
    mode: string,
    route: string,
    status: string,
    eta: string,
    cost: int,
    carbonFootprint: int,
    riskLevel: Level,
    disruptionProbability: int)

  datatype DisruptionStatus = Active | InProgress | Monitoring | Resolved | Acknowledged | Escalated

  /** DisruptionAlert; `kind` is the source's `type` field. */
  datatype Disruption = Disruption(
    id: string,
    shipmentId: string,
    kind: string,
    description: string,
    delay: string,
    status: DisruptionStatus,
    severity: Level,
    location: string,
    timestamp: string,
    suggestions: seq<string>,
    resolvedAt: Option<string>,
    escalatedAt: Option<string>)

  datatype Availability = Available | Congested | Delayed

  /** One alternative route offered in the reroute dialog. */
  datatype RouteCandidate = RouteCandidate(
    id: string,
    name: string,
    distance: int,
    estimatedTime: string,
    cost: int,
    carbonFootprint: int,
    riskLevel: Level,
    status: Availability)
}
