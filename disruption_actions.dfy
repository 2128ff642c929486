/** The update SupplierDashboard applies to its own copy of the disruption list when the
    operator acts on one alert. */
module DisruptionActions {
  import opened ArrayOps
  import opened Domain
  import opened Reroute

  /** One alert after an action other than "resolve": "acknowledge" and "escalate" set the
      status (escalation also stamps escalatedAt); every other action returns it unchanged. */
  function AfterAction(d: Disruption, action: string, nowIso: string): (r: Disruption)
    // only the status and the escalation stamp can change
    ensures r.(status := d.status, escalatedAt := d.escalatedAt) == d
    ensures action == "acknowledge" ==> r.status == Acknowledged && r.escalatedAt == d.escalatedAt
    ensures action == "escalate" ==> r.status == Escalated && r.escalatedAt == Some(nowIso)
    ensures action != "acknowledge" && action != "escalate" ==> r == d
  {
    if action == "acknowledge" then d.(status := Acknowledged)
    else if action == "escalate" then d.(status := Escalated, escalatedAt := Some(nowIso))
    else d
  }

  /** The local list after `action` on `disruptionId`; `nowIso` is `new Date().toISOString()`. */
  function ActedOn(ds: seq<Disruption>, disruptionId: string, action: string, nowIso: string): (r: seq<Disruption>)
    // resolve: exactly the alerts with that id disappear
    ensures action == "resolve" ==> forall d :: d in r <==> d in ds && d.id != disruptionId
    // any other action: same alerts in the same order, only the targeted ones may change
    ensures action != "resolve" ==> |r| == |ds|
    ensures action != "resolve" ==> forall i :: 0 <= i < |r| ==>
      r[i].id == ds[i].id && r[i].shipmentId == ds[i].shipmentId && r[i].suggestions == ds[i].suggestions
    ensures action != "resolve" ==> forall i :: 0 <= i < |r| && ds[i].id != disruptionId ==> r[i] == ds[i]
    ensures action == "acknowledge" ==> forall i :: 0 <= i < |r| && ds[i].id == disruptionId ==>
      r[i] == ds[i].(status := Acknowledged)
    ensures action == "escalate" ==> forall i :: 0 <= i < |r| && ds[i].id == disruptionId ==>
      r[i] == ds[i].(status := Escalated, escalatedAt := Some(nowIso))
    ensures action !in {"resolve", "acknowledge", "escalate"} ==> r == ds
  {
    if action == "resolve" then WithoutDisruption(ds, disruptionId)
    else
      seq(|ds|, i requires 0 <= i < |ds| =>
        if ds[i].id == disruptionId then AfterAction(ds[i], action, nowIso) else ds[i])
  }

  /** Escalating and then resolving an alert leaves no alert with its id; alerts with other
      ids survive both steps unchanged. */
  lemma EscalateThenResolve(ds: seq<Disruption>, disruptionId: string, t1: string, t2: string)
    ensures var r := ActedOn(ActedOn(ds, disruptionId, "escalate", t1), disruptionId, "resolve", t2);
      forall d :: d in r <==> d in ds && d.id != disruptionId
  {
    var e := ActedOn(ds, disruptionId, "escalate", t1);
    forall d | d in ds && d.id != disruptionId ensures d in e {
      var i :| 0 <= i < |ds| && ds[i] == d;
      assert e[i] == d;
    }
  }
}
