/** The submission queue (src/utils/queue.ts): files wait as `queued` items and are drained
    one at a time through `transcribeAudio`. Ids, clocks and the transcription itself are
    parameters; the five-minute clean-up timer is left out. */
module Queue {
  import opened Results
  import opened Domain
  import opened Lists
  import Notifications

  datatype ItemStatus = Queued | Processing | Completed | Failed

  /** `QueueItem`; `Failed` is the source's `'error'` status. */
  datatype QueueItem = QueueItem(id: string, file: FileInfo, status: ItemStatus, error: Option<string>,
                                 addedAt: int, startedAt: Option<int>, completedAt: Option<int>,
                                 result: Option<Transcript>)

  datatype QueueState = QueueState(items: seq<QueueItem>, isProcessing: bool)

  const InitialQueue: QueueState := QueueState([], false)

  /** The test `item.status === st`, as a function value so that every count uses the same one. */
  function HasStatus(st: ItemStatus): (r: QueueItem -> bool)
  {
    (x: QueueItem) => x.status == st
  }

  function CountStatus(items: seq<QueueItem>, st: ItemStatus): (r: nat)
  {
    Count(items, HasStatus(st))
  }

  /** The id at position `i`; the distinctness below is stated over it so that it is
      considered only where ids are compared. */
  function IdAt(items: seq<QueueItem>, i: nat): (r: string)
    requires i < |items|
  {
    items[i].id
  }

  predicate UniqueIds(items: seq<QueueItem>)
  {
    forall i, j :: 0 <= i < j < |items| ==> IdAt(items, i) != IdAt(items, j)
  }

  /** `addItem(file)`: one new `queued` item at the end; the returned flag says whether
      `processQueue` is started, which happens only when nothing is being processed. */
  function AddItem(s: QueueState, file: FileInfo, id: string, now: int): (r: (QueueState, bool))
    ensures |r.0.items| == |s.items| + 1
    ensures r.0.items[..|s.items|] == s.items
    ensures r.0.items[|s.items|] == QueueItem(id, file, Queued, None, now, None, None, None)
    ensures r.0.isProcessing == s.isProcessing
    ensures r.1 <==> !s.isProcessing
  {
    (s.(items := s.items + [QueueItem(id, file, Queued, None, now, None, None, None)]), !s.isProcessing)
  }

  /** Adding an item raises the queued count by one and leaves the other counts alone. */
  lemma AddItemCounts(s: QueueState, file: FileInfo, id: string, now: int, st: ItemStatus)
    ensures CountStatus(AddItem(s, file, id, now).0.items, st) == CountStatus(s.items, st) + (if st == Queued then 1 else 0)
  {
    var item := QueueItem(id, file, Queued, None, now, None, None, None);
    FilterAppend(s.items, [item], HasStatus(st));
  }

  /** `removeItem(id)`. */
  function RemoveItem(s: QueueState, id: string): (r: QueueState)
    ensures r.isProcessing == s.isProcessing
    ensures forall x :: x in r.items <==> x in s.items && x.id != id
  {
    s.(items := Filter(s.items, (x: QueueItem) => x.id != id))
  }

  /** Removal keeps the survivors in their order: removing from `a + b` removes from each part. */
  lemma RemoveItemKeepsOrder(a: seq<QueueItem>, b: seq<QueueItem>, id: string, busy: bool)
    ensures RemoveItem(QueueState(a + b, busy), id).items
            == RemoveItem(QueueState(a, busy), id).items + RemoveItem(QueueState(b, busy), id).items
  {
    FilterAppend(a, b, (x: QueueItem) => x.id != id);
  }

  /** `clearQueue()`: only the item being processed survives. */
  function ClearQueue(s: QueueState): (r: QueueState)
    ensures r.isProcessing == s.isProcessing
    ensures forall x :: x in r.items <==> x in s.items && x.status == Processing
  {
    s.(items := Filter(s.items, HasStatus(Processing)))
  }

  /** After clearing, nothing is queued, finished or failed, and the processing count is kept. */
  lemma ClearQueueCounts(s: QueueState)
    ensures CountStatus(ClearQueue(s).items, Processing) == CountStatus(s.items, Processing)
    ensures CountStatus(ClearQueue(s).items, Queued) == 0
    ensures CountStatus(ClearQueue(s).items, Completed) == 0
    ensures CountStatus(ClearQueue(s).items, Failed) == 0
    ensures ClearQueue(ClearQueue(s)) == ClearQueue(s)
  {
    var r := ClearQueue(s).items;
    FilterIdempotent(s.items, HasStatus(Processing));
    NoneCounted(r, Queued);
    NoneCounted(r, Completed);
    NoneCounted(r, Failed);
  }

  lemma {:induction false} NoneCounted(items: seq<QueueItem>, st: ItemStatus)
    requires forall i :: 0 <= i < |items| ==> items[i].status != st
    ensures CountStatus(items, st) == 0
  {
    if |items| > 0 {
      CountCons(items, HasStatus(st));
      NoneCounted(items[1..], st);
    }
  }

  datatype QueueSummary = QueueSummary(total: nat, queued: nat, processing: nat, completed: nat, error: nat)

  /** `getQueueStatus()`. */
  function GetQueueStatus(s: QueueState): (r: QueueSummary)
    ensures r.total == |s.items|
    ensures r.total == r.queued + r.processing + r.completed + r.error
  {
    StatusPartition(s.items);
    QueueSummary(|s.items|, CountStatus(s.items, Queued), CountStatus(s.items, Processing),
                 CountStatus(s.items, Completed), CountStatus(s.items, Failed))
  }

  /** Every item has exactly one of the four statuses, so the four counts add up to the length. */
  lemma {:induction false} StatusPartition(items: seq<QueueItem>)
    ensures |items| == CountStatus(items, Queued) + CountStatus(items, Processing)
                       + CountStatus(items, Completed) + CountStatus(items, Failed)
  {
    if |items| > 0 {
      CountCons(items, HasStatus(Queued));
      CountCons(items, HasStatus(Processing));
      CountCons(items, HasStatus(Completed));
      CountCons(items, HasStatus(Failed));
      StatusPartition(items[1..]);
    }
  }

  /** `items.find(item => item.status === 'queued')`, as the index of that item. */
  function FirstQueued(items: seq<QueueItem>): (r: Option<nat>)
    ensures r.Some? ==> r.value < |items| && items[r.value].status == Queued
    ensures r.Some? ==> forall k :: 0 <= k < r.value ==> items[k].status != Queued
    ensures r.None? ==> forall k :: 0 <= k < |items| ==> items[k].status != Queued
    decreases |items|
  {
    if |items| == 0 then None
    else if items[0].status == Queued then Some(0)
    else
      var rest := FirstQueued(items[1..]);
      if rest.Some? then Some(rest.value + 1) else None
  }

  /** `items.map(item => item.id === id ? f(item) : item)`. */
  function MapById(items: seq<QueueItem>, id: string, f: QueueItem -> QueueItem): (r: seq<QueueItem>)
    ensures |r| == |items|
    ensures forall k {:trigger r[k]} :: 0 <= k < |items| ==> r[k] == (if items[k].id == id then f(items[k]) else items[k])
  {
    seq(|items|, k requires 0 <= k < |items| => if items[k].id == id then f(items[k]) else items[k])
  }

  /** With distinct ids, mapping by the id of item `i` rewrites that item alone. */
  lemma MapByUniqueId(items: seq<QueueItem>, i: nat, f: QueueItem -> QueueItem)
    requires UniqueIds(items) && i < |items|
    ensures MapById(items, items[i].id, f) == items[i := f(items[i])]
  {
    forall k | 0 <= k < |items| && k != i ensures items[k].id != items[i].id {
      if k < i {
        assert IdAt(items, k) != IdAt(items, i);
      } else {
        assert IdAt(items, i) != IdAt(items, k);
      }
    }
  }

  /** Distinct ids stay distinct under any change that keeps every item's id. */
  lemma SameIdsUnique(a: seq<QueueItem>, b: seq<QueueItem>)
    requires UniqueIds(a) && |b| == |a|
    requires forall k :: 0 <= k < |a| ==> b[k].id == a[k].id
    ensures UniqueIds(b)
  {
    forall i, j | 0 <= i < j < |b| ensures IdAt(b, i) != IdAt(b, j) {
      assert IdAt(a, i) != IdAt(a, j);
    }
  }

  /** A new item whose id is not in the list keeps the ids distinct. */
  lemma AddItemKeepsIdsUnique(s: QueueState, file: FileInfo, id: string, now: int)
    requires UniqueIds(s.items)
    requires forall k :: 0 <= k < |s.items| ==> s.items[k].id != id
    ensures UniqueIds(AddItem(s, file, id, now).0.items)
  {
    var items := AddItem(s, file, id, now).0.items;
    forall i, j | 0 <= i < j < |items| ensures IdAt(items, i) != IdAt(items, j) {
      if j < |s.items| {
        assert IdAt(s.items, i) != IdAt(s.items, j);
      }
    }
  }

  /** The update that marks an item `processing`. */
  function StartItem(x: QueueItem, now: int): (r: QueueItem)
  {
    x.(status := Processing, startedAt := Some(now))
  }

  /** The update that records a transcription's outcome: `completed` with its result, or
      `error` with the message. */
  function FinishItem(x: QueueItem, outcome: Result<Transcript>, now: int): (r: QueueItem)
  {
    if outcome.Ok? then x.(status := Completed, completedAt := Some(now), result := Some(outcome.value))
    else x.(status := Failed, completedAt := Some(now), error := Some(outcome.error))
  }

  /** The two updates as the functions handed to `updateItem`. */
  function Start(now: int): (r: QueueItem -> QueueItem)
  {
    (x: QueueItem) => StartItem(x, now)
  }

  function Finish(outcome: Result<Transcript>, now: int): (r: QueueItem -> QueueItem)
  {
    (x: QueueItem) => FinishItem(x, outcome, now)
  }

  /** The notification that follows an item's outcome. */
  function OutcomeNotice(name: string, outcome: Result<Transcript>): (r: Notifications.Notice)
  {
    if outcome.Ok? then Notifications.Notice(Notifications.Success, "Transcription completed: " + name)
    else Notifications.Notice(Notifications.Error, "Failed to transcribe " + name + ": " + outcome.error)
  }

  /** One pass of the `processQueue` loop body, made over the current list: the first queued
      item is marked `processing` at `startedAt`, transcribed, and marked with the outcome at
      `finishedAt`. `None` is the loop's exit. */
  function DrainStep(items: seq<QueueItem>, transcribe: FileInfo -> Result<Transcript>, startedAt: int, finishedAt: int)
    : (r: Option<(seq<QueueItem>, Notifications.Notice)>)
    ensures r.None? <==> CountStatus(items, Queued) == 0 && FirstQueued(items).None?
    ensures r.Some? ==> |r.value.0| == |items|
  {
    match FirstQueued(items)
    case None => NoQueuedCount(items); None
    case Some(i) =>
      CountedIsPositive(items, i);
      var next := items[i];
      var outcome := transcribe(next.file);
      var started := MapById(items, next.id, Start(startedAt));
      var finished := MapById(started, next.id, Finish(outcome, finishedAt));
      Some((finished, OutcomeNotice(next.file.name, outcome)))
  }

  lemma NoQueuedCount(items: seq<QueueItem>)
    requires forall k :: 0 <= k < |items| ==> items[k].status != Queued
    ensures CountStatus(items, Queued) == 0
  {
    NoneCounted(items, Queued);
  }

  lemma CountedIsPositive(items: seq<QueueItem>, i: nat)
    requires i < |items| && items[i].status == Queued
    ensures CountStatus(items, Queued) > 0
  {
    assert items[i] in Filter(items, HasStatus(Queued));
  }

  /** With distinct ids a drain step changes only the selected item: the first queued one ends
      `completed` with the result or `error` with the message, with both times recorded. */
  lemma DrainStepChangesOnlyNext(items: seq<QueueItem>, transcribe: FileInfo -> Result<Transcript>, t0: int, t1: int)
    requires UniqueIds(items) && FirstQueued(items).Some?
    ensures var i := FirstQueued(items).value;
            var outcome := transcribe(items[i].file);
            var done := DrainStep(items, transcribe, t0, t1).value.0;
            done == items[i := FinishItem(StartItem(items[i], t0), outcome, t1)]
            && (outcome.Ok? ==> done[i].status == Completed && done[i].result == Some(outcome.value))
            && (outcome.Err? ==> done[i].status == Failed && done[i].error == Some(outcome.error))
            && done[i].startedAt == Some(t0) && done[i].completedAt == Some(t1)
  {
    var i := FirstQueued(items).value;
    var started := MapById(items, items[i].id, Start(t0));
    MapByUniqueId(items, i, Start(t0));
    SameIdsUnique(items, started);
    MapByUniqueId(started, i, Finish(transcribe(items[i].file), t1));
  }

  /** A drain step takes exactly one item out of the queued state, so the loop terminates. */
  lemma DrainStepShrinksQueue(items: seq<QueueItem>, transcribe: FileInfo -> Result<Transcript>, t0: int, t1: int)
    requires UniqueIds(items) && FirstQueued(items).Some?
    ensures var done := DrainStep(items, transcribe, t0, t1).value.0;
            CountStatus(done, Queued) + 1 == CountStatus(items, Queued) && UniqueIds(done)
  {
    var i := FirstQueued(items).value;
    DrainStepChangesOnlyNext(items, transcribe, t0, t1);
    var y := FinishItem(StartItem(items[i], t0), transcribe(items[i].file), t1);
    CountUpdate(items, i, y, HasStatus(Queued));
    SameIdsUnique(items, items[i := y]);
  }

  /** The queued items of a list, in list order: the ones a full drain takes, one per pass. */
  function Waiting(items: seq<QueueItem>): (r: seq<QueueItem>)
  {
    if |items| == 0 then []
    else Waiting(items[..|items| - 1]) + (if items[|items| - 1].status == Queued then [items[|items| - 1]] else [])
  }

  /** `Waiting` is the filter on the queued status. */
  lemma {:induction false} WaitingIsFilter(items: seq<QueueItem>)
    ensures Waiting(items) == Filter(items, HasStatus(Queued))
  {
    if |items| > 0 {
      var n := |items| - 1;
      WaitingIsFilter(items[..n]);
      assert items == items[..n] + [items[n]];
      FilterAppend(items[..n], [items[n]], HasStatus(Queued));
    }
  }

  /** The drain pass in which item `k` is taken: the number of queued items before it. */
  function Pass(items: seq<QueueItem>, k: nat): (r: nat)
    requires k <= |items|
  {
    |Waiting(items[..k])|
  }

  /** Queued item `k` once its pass is over: marked `processing` at the pass's first clock
      reading, then finished with the outcome of transcribing its file at the second. */
  function Drained(items: seq<QueueItem>, transcribe: FileInfo -> Result<Transcript>, clock: nat -> int, k: nat)
    : (r: QueueItem)
    requires k < |items|
    ensures r.id == items[k].id && r.file == items[k].file && r.addedAt == items[k].addedAt
    ensures r.startedAt == Some(clock(2 * Pass(items, k))) && r.completedAt == Some(clock(2 * Pass(items, k) + 1))
    ensures transcribe(items[k].file).Ok? ==>
              r.status == Completed && r.result == Some(transcribe(items[k].file).value) && r.error == items[k].error
    ensures transcribe(items[k].file).Err? ==>
              r.status == Failed && r.error == Some(transcribe(items[k].file).error) && r.result == items[k].result
  {
    var pass := Pass(items, k);
    FinishItem(StartItem(items[k], clock(2 * pass)), transcribe(items[k].file), clock(2 * pass + 1))
  }

  /** The list once the queued items among the first `m` positions have been drained and
      the rest is untouched. */
  predicate DrainedUpTo(orig: seq<QueueItem>, items: seq<QueueItem>, transcribe: FileInfo -> Result<Transcript>,
                        clock: nat -> int, m: nat)
  {
    m <= |orig| && |items| == |orig|
    && forall k {:trigger items[k]} :: 0 <= k < |orig| ==>
         items[k] == (if k < m && orig[k].status == Queued then Drained(orig, transcribe, clock, k) else orig[k])
  }

  /** The notifications for the given items, one each, in the same order. */
  function OutcomeNotices(queued: seq<QueueItem>, transcribe: FileInfo -> Result<Transcript>): (r: seq<Notifications.Notice>)
  {
    seq(|queued|, j requires 0 <= j < |queued| => OutcomeNotice(queued[j].file.name, transcribe(queued[j].file)))
  }

  lemma OutcomeNoticesAppend(queued: seq<QueueItem>, x: QueueItem, transcribe: FileInfo -> Result<Transcript>)
    ensures OutcomeNotices(queued + [x], transcribe)
            == OutcomeNotices(queued, transcribe) + [OutcomeNotice(x.file.name, transcribe(x.file))]
  {
  }

  /** Drained positions are never queued, and ids are what they were. */
  lemma DrainedUpToIds(orig: seq<QueueItem>, items: seq<QueueItem>, transcribe: FileInfo -> Result<Transcript>,
                       clock: nat -> int, m: nat)
    requires UniqueIds(orig) && DrainedUpTo(orig, items, transcribe, clock, m)
    ensures UniqueIds(items)
    ensures forall k :: 0 <= k < m ==> items[k].status != Queued
  {
    forall k | 0 <= k < |orig|
      ensures items[k].id == orig[k].id
      ensures k < m ==> items[k].status != Queued
    {
      if k < m && orig[k].status == Queued {
        var r := Drained(orig, transcribe, clock, k);
      }
    }
    SameIdsUnique(orig, items);
  }

  /** Unqueued positions `m..i` add nothing to the queued prefix. */
  lemma {:induction false} WaitingSkip(orig: seq<QueueItem>, m: nat, i: nat)
    requires m <= i <= |orig|
    requires forall k :: m <= k < i ==> orig[k].status != Queued
    ensures Waiting(orig[..i]) == Waiting(orig[..m])
    decreases i - m
  {
    if i > m {
      WaitingSkip(orig, m, i - 1);
      assert orig[..i][..i - 1] == orig[..i - 1];
    }
  }

  /** When the drain finds nothing queued, every position has been drained and every queued
      item of the original list has had its notification. */
  lemma DrainEnds(orig: seq<QueueItem>, items: seq<QueueItem>, transcribe: FileInfo -> Result<Transcript>,
                  clock: nat -> int, m: nat)
    requires DrainedUpTo(orig, items, transcribe, clock, m) && FirstQueued(items).None?
    ensures DrainedUpTo(orig, items, transcribe, clock, |orig|)
    ensures Waiting(orig[..m]) == Waiting(orig)
  {
    forall k | m <= k < |orig| ensures orig[k].status != Queued {
      assert items[k] == orig[k];
    }
    WaitingSkip(orig, m, |orig|);
    assert orig[..|orig|] == orig;
  }

  /** The first queued position of a list drained up to `m` lies at or after `m`, holds the
      original item, and no queued item of the original list lies between the two. */
  lemma NextQueuedPosition(orig: seq<QueueItem>, items: seq<QueueItem>, transcribe: FileInfo -> Result<Transcript>,
                           clock: nat -> int, m: nat)
    requires UniqueIds(orig) && DrainedUpTo(orig, items, transcribe, clock, m) && FirstQueued(items).Some?
    ensures var i := FirstQueued(items).value;
            m <= i < |orig| && items[i] == orig[i] && orig[i].status == Queued
            && forall k :: m <= k < i ==> orig[k].status != Queued
  {
    DrainedUpToIds(orig, items, transcribe, clock, m);
    var i := FirstQueued(items).value;
    forall k | m <= k < i ensures orig[k].status != Queued {
      assert items[k] == orig[k];
    }
  }

  /** Skipping unqueued positions `m..i` and taking the queued item at `i` adds that item to
      the queued prefix and leaves its pass number at that of `m`. */
  lemma QueuedPrefixStep(orig: seq<QueueItem>, m: nat, i: nat)
    requires m <= i < |orig| && orig[i].status == Queued
    requires forall k :: m <= k < i ==> orig[k].status != Queued
    ensures Waiting(orig[..i + 1]) == Waiting(orig[..m]) + [orig[i]]
    ensures Pass(orig, i) == Pass(orig, m)
  {
    WaitingSkip(orig, m, i);
    assert orig[..i + 1][..i] == orig[..i];
  }

  /** `Drained` is the update a drain step applies, at the clock readings of the item's pass. */
  lemma DrainedIsStep(orig: seq<QueueItem>, transcribe: FileInfo -> Result<Transcript>, clock: nat -> int,
                      i: nat, pass: nat, x: QueueItem)
    requires i < |orig| && x == orig[i] && pass == Pass(orig, i)
    ensures Drained(orig, transcribe, clock, i) == FinishItem(StartItem(x, clock(2 * pass)), transcribe(x.file), clock(2 * pass + 1))
  {
  }

  /** Finishing queued position `i`, the first one at or after `m`, extends the drained
      prefix to `i + 1`. */
  lemma DrainedUpToStep(orig: seq<QueueItem>, items: seq<QueueItem>, transcribe: FileInfo -> Result<Transcript>,
                        clock: nat -> int, m: nat, i: nat)
    requires DrainedUpTo(orig, items, transcribe, clock, m)
    requires m <= i < |orig| && orig[i].status == Queued
    requires forall k :: m <= k < i ==> orig[k].status != Queued
    ensures DrainedUpTo(orig, items[i := Drained(orig, transcribe, clock, i)], transcribe, clock, i + 1)
  {
  }

  /** Draining the next queued position `i` of a list drained up to `m` extends the drained
      prefix to `i + 1`, moves to the next pass, and adds that item's notification. */
  lemma DrainAdvances(orig: seq<QueueItem>, items: seq<QueueItem>, transcribe: FileInfo -> Result<Transcript>,
                      clock: nat -> int, m: nat)
    requires UniqueIds(orig) && DrainedUpTo(orig, items, transcribe, clock, m) && FirstQueued(items).Some?
    ensures var i := FirstQueued(items).value;
            m < i + 1 <= |orig|
            && DrainedUpTo(orig, items[i := Drained(orig, transcribe, clock, i)], transcribe, clock, i + 1)
            && Pass(orig, i + 1) == Pass(orig, m) + 1
            && OutcomeNotices(Waiting(orig[..i + 1]), transcribe)
               == OutcomeNotices(Waiting(orig[..m]), transcribe) + [OutcomeNotice(orig[i].file.name, transcribe(orig[i].file))]
  {
    var i := FirstQueued(items).value;
    NextQueuedPosition(orig, items, transcribe, clock, m);
    QueuedPrefixStep(orig, m, i);
    DrainedUpToStep(orig, items, transcribe, clock, m, i);
    OutcomeNoticesAppend(Waiting(orig[..m]), orig[i], transcribe);
  }

  /** The drain step taken at the clock readings of pass `Pass(orig, m)` is that drain of
      the next queued position, with that item's notification. */
  lemma DrainStepAt(orig: seq<QueueItem>, items: seq<QueueItem>, transcribe: FileInfo -> Result<Transcript>,
                    clock: nat -> int, m: nat)
    requires UniqueIds(orig) && DrainedUpTo(orig, items, transcribe, clock, m) && FirstQueued(items).Some?
    ensures var i := FirstQueued(items).value;
            var pass := Pass(orig, m);
            DrainStep(items, transcribe, clock(2 * pass), clock(2 * pass + 1))
            == Some((items[i := Drained(orig, transcribe, clock, i)], OutcomeNotice(orig[i].file.name, transcribe(orig[i].file))))
  {
    var i := FirstQueued(items).value;
    var pass := Pass(orig, m);
    NextQueuedPosition(orig, items, transcribe, clock, m);
    QueuedPrefixStep(orig, m, i);
    DrainedUpToIds(orig, items, transcribe, clock, m);
    DrainStepChangesOnlyNext(items, transcribe, clock(2 * pass), clock(2 * pass + 1));
    DrainedIsStep(orig, transcribe, clock, i, pass, items[i]);
  }

  /** The `processQueue` loop: drain steps until nothing is queued. The `p`-th pass reads
      `clock(2p)` and `clock(2p + 1)`. */
  method DrainAll(orig: seq<QueueItem>, transcribe: FileInfo -> Result<Transcript>, clock: nat -> int)
    returns (items: seq<QueueItem>, notices: seq<Notifications.Notice>)
    requires UniqueIds(orig)
    ensures DrainedUpTo(orig, items, transcribe, clock, |orig|)
    ensures FirstQueued(items).None?
    ensures notices == OutcomeNotices(Waiting(orig), transcribe)
  {
    items := orig;
    var n: nat := 0;
    ghost var m: nat := 0;
    notices := [];
    while true
      invariant DrainedUpTo(orig, items, transcribe, clock, m)
      invariant n == Pass(orig, m)
      invariant notices == OutcomeNotices(Waiting(orig[..m]), transcribe)
      decreases |orig| - m
    {
      var step := DrainStep(items, transcribe, clock(2 * n), clock(2 * n + 1));
      if step.None? {
        DrainEnds(orig, items, transcribe, clock, m);
        return;
      }
      DrainAdvances(orig, items, transcribe, clock, m);
      DrainStepAt(orig, items, transcribe, clock, m);
      m := FirstQueued(items).value + 1;
      items := step.value.0;
      notices := notices + [step.value.1];
      n := n + 1;
    }
  }

  /** `processQueue()`, draining over the current list. A call while busy does nothing.
      Otherwise each queued item is transcribed once, in list order, and `isProcessing` is
      false at the end. `clock(n)` is `Date.now()` at the `n`-th reading. */
  method ProcessQueue(s: QueueState, transcribe: FileInfo -> Result<Transcript>, clock: nat -> int)
    returns (r: QueueState, notices: seq<Notifications.Notice>)
    requires UniqueIds(s.items)
    ensures s.isProcessing ==> r == s && notices == []
    ensures !s.isProcessing ==> !r.isProcessing && |r.items| == |s.items|
    ensures !s.isProcessing ==>
              forall k :: 0 <= k < |s.items| ==>
                r.items[k] == (if s.items[k].status == Queued then Drained(s.items, transcribe, clock, k) else s.items[k])
    ensures !s.isProcessing ==> CountStatus(r.items, Queued) == 0
    ensures !s.isProcessing ==> notices == OutcomeNotices(Filter(s.items, HasStatus(Queued)), transcribe)
    ensures !s.isProcessing ==> |notices| == CountStatus(s.items, Queued)
  {
    if s.isProcessing {
      return s, [];
    }
    var items;
    items, notices := DrainAll(s.items, transcribe, clock);
    NoQueuedCount(items);
    WaitingIsFilter(s.items);
    r := QueueState(items, false);
  }

  /** The loop as written: it selects from `snapshot`, the `get()` taken once before the loop,
      while each update is applied to the current list. */
  function AsWrittenStep(snapshot: seq<QueueItem>, items: seq<QueueItem>, transcribe: FileInfo -> Result<Transcript>,
                         startedAt: int, finishedAt: int): (r: Option<(string, seq<QueueItem>)>)
    ensures r.None? <==> FirstQueued(snapshot).None?
  {
    match FirstQueued(snapshot)
    case None => None
    case Some(i) =>
      var next := snapshot[i];
      var started := MapById(items, next.id, Start(startedAt));
      Some((next.id, MapById(started, next.id, Finish(transcribe(next.file), finishedAt))))
  }

  /** The ids the as-written loop transcribes in its first `n` passes. */
  function AsWrittenRun(snapshot: seq<QueueItem>, items: seq<QueueItem>, transcribe: FileInfo -> Result<Transcript>,
                        clock: nat -> int, n: nat): seq<string>
    decreases n
  {
    if n == 0 then []
    else match AsWrittenStep(snapshot, items, transcribe, clock(0), clock(1))
      case None => []
      case Some((id, next)) => [id] + AsWrittenRun(snapshot, next, transcribe, (k: nat) => clock(k + 2), n - 1)
  }

  /** Whenever the snapshot holds a queued item, the as-written loop never exits: every pass
      transcribes that same item again, although the first pass already finished it. */
  lemma {:induction false} AsWrittenNeverDrains(snapshot: seq<QueueItem>, items: seq<QueueItem>,
                                                transcribe: FileInfo -> Result<Transcript>, clock: nat -> int, n: nat)
    requires FirstQueued(snapshot).Some?
    ensures var run := AsWrittenRun(snapshot, items, transcribe, clock, n);
            |run| == n && forall k :: 0 <= k < n ==> run[k] == snapshot[FirstQueued(snapshot).value].id
    decreases n
  {
    if n > 0 {
      var step := AsWrittenStep(snapshot, items, transcribe, clock(0), clock(1)).value;
      AsWrittenNeverDrains(snapshot, step.1, transcribe, (k: nat) => clock(k + 2), n - 1);
    }
  }

  /** One queued item: the as-written loop transcribes it three times in three passes, while the
      drain over the current list finishes it in one step and then stops. */
  lemma AsWrittenCounterexample(f: FileInfo, transcribe: FileInfo -> Result<Transcript>, clock: nat -> int)
    ensures var items := [QueueItem("a", f, Queued, None, 0, None, None, None)];
            AsWrittenRun(items, items, transcribe, clock, 3) == ["a", "a", "a"]
            && DrainStep(items, transcribe, clock(0), clock(1)).Some?
            && DrainStep(DrainStep(items, transcribe, clock(0), clock(1)).value.0, transcribe, clock(2), clock(3)).None?
  {
    var items := [QueueItem("a", f, Queued, None, 0, None, None, None)];
    AsWrittenNeverDrains(items, items, transcribe, clock, 3);
    DrainStepShrinksQueue(items, transcribe, clock(0), clock(1));
  }
}
