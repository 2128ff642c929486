/** The notification list of FlexMovePage: addNotification appends, removeNotification
    drops every entry with the given id. */
module Notifications {
  import opened ArrayOps
  import opened Text

  datatype Kind = Success | Error | Warning | Info

  /** `timestamp` is the clock reading in milliseconds; the id is its decimal form. */
  datatype Notification = Notification(id: string, kind: Kind, title: string, message: string, timestamp: nat)

  /** The record addNotification builds at clock reading `now`. */
  function Note(kind: Kind, title: string, message: string, now: nat): Notification {
    Notification(DecimalString(now), kind, title, message, now)
  }

  /** `notifications.filter(n => n.id !== id)`. */
  function Removed(ns: seq<Notification>, id: string): (r: seq<Notification>)
    ensures forall n :: n in r <==> n in ns && n.id != id
  {
    Filter(ns, (n: Notification) => n.id != id)
  }

  /** Dismissing a notification whose id no other entry shares restores the list as it was
      before that notification was added. */
  lemma RemoveUndoesAdd(ns: seq<Notification>, n: Notification)
    requires forall m :: m in ns ==> m.id != n.id
    ensures Removed(ns + [n], n.id) == ns
  {
    var keep := (m: Notification) => m.id != n.id;
    FilterAppend(ns, [n], keep);
    FilterKeepsAll(ns, keep);
    assert Filter([n], keep) == [];
  }

  /** Dismissing the same id twice is dismissing it once. */
  lemma RemoveIdempotent(ns: seq<Notification>, id: string)
    ensures Removed(Removed(ns, id), id) == Removed(ns, id)
  {
    FilterIdempotent(ns, (n: Notification) => n.id != id);
  }

  /** Dismissing one id keeps the relative order of the rest: dismissing from a
      concatenation dismisses from each part. */
  lemma RemoveDistributes(ns: seq<Notification>, ms: seq<Notification>, id: string)
    ensures Removed(ns + ms, id) == Removed(ns, id) + Removed(ms, id)
  {
    FilterAppend(ns, ms, (n: Notification) => n.id != id);
  }
}
