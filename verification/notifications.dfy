/** The notification list (src/store/notificationStore.ts): newest first, each entry
    stamped with an id and a time. `crypto.randomUUID()` and `new Date()` are parameters. */
module Notifications {
  import opened Lists

  /** `type`: the declared union is success, error and info; the health monitor also sends `warning`. */
  datatype NoticeKind = Success | Error | Info | Warning

  /** What a caller hands to `addNotification`: the notification without id and timestamp. */
  datatype Notice = Notice(kind: NoticeKind, message: string)

  datatype Notification = Notification(id: string, kind: NoticeKind, message: string, timestamp: int)

  /** `addNotification(n)`: a new entry in front, everything older behind it in the same order. */
  function Add(list: seq<Notification>, n: Notice, id: string, now: int): (r: seq<Notification>)
    ensures |r| == |list| + 1
    ensures r[0].id == id && r[0].kind == n.kind && r[0].message == n.message && r[0].timestamp == now
    ensures r[1..] == list
  {
    [Notification(id, n.kind, n.message, now)] + list
  }

  /** `removeNotification(id)`. */
  function Remove(list: seq<Notification>, id: string): (r: seq<Notification>)
    ensures forall x :: x in r <==> x in list && x.id != id
  {
    Filter(list, (x: Notification) => x.id != id)
  }

  predicate IdAbsent(list: seq<Notification>, id: string)
  {
    forall i :: 0 <= i < |list| ==> list[i].id != id
  }

  /** Removing an id nobody has changes nothing. */
  lemma RemoveAbsent(list: seq<Notification>, id: string)
    requires IdAbsent(list, id)
    ensures Remove(list, id) == list
  {
    FilterKeepsAll(list, (x: Notification) => x.id != id);
  }

  /** Removing a freshly added notification undoes the add. */
  lemma RemoveUndoesAdd(list: seq<Notification>, n: Notice, id: string, now: int)
    requires IdAbsent(list, id)
    ensures Remove(Add(list, n, id, now), id) == list
  {
    var added := Add(list, n, id, now);
    assert added == [added[0]] + list;
    FilterAppend([added[0]], list, (x: Notification) => x.id != id);
    RemoveAbsent(list, id);
  }

  /** Removal keeps the survivors in order: removing from `a + b` removes from each part. */
  lemma RemoveKeepsOrder(a: seq<Notification>, b: seq<Notification>, id: string)
    ensures Remove(a + b, id) == Remove(a, id) + Remove(b, id)
  {
    FilterAppend(a, b, (x: Notification) => x.id != id);
  }

  /** `clearAll()`: the list is left empty, whatever was there. */
  function ClearAll(list: seq<Notification>): (r: seq<Notification>)
    ensures |r| == 0
    ensures forall x :: x in list ==> x !in r
  {
    []
  }

  /** Clearing forgets history: what was added or removed before a clear makes no difference,
      and removing anything from a cleared list leaves it cleared. */
  lemma ClearAllForgets(list: seq<Notification>, n: Notice, id: string, now: int)
    ensures ClearAll(Add(list, n, id, now)) == ClearAll(list)
    ensures ClearAll(Remove(list, id)) == ClearAll(list)
    ensures Remove(ClearAll(list), id) == ClearAll(list)
  {
  }
}
