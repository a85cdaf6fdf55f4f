/** The history database (src/db/index.ts): the statistics over the stored transcriptions and
    the guard that rejects every operation before the database is opened. The IndexedDB
    object store itself is not modelled; its contents are a list of records. */
module Db {
  import opened Results
  import opened Domain
  import opened Lists

  datatype RecordStatus = Completed | Failed

  /** `TranscriptionResult`: `date` is a time in milliseconds, `duration` in seconds. */
  datatype TranscriptionRecord = TranscriptionRecord(id: string, filename: string, text: string, timestamps: seq<Segment>,
                                                     duration: real, size: nat, date: int, status: RecordStatus)

  /** The connection: not opened yet, or opened over the stored records. */
  datatype Database = NotInitialized | Opened(records: seq<TranscriptionRecord>)

  const NotInitializedMessage: string := "Database not initialized"

  datatype Stats = Stats(totalTranscriptions: nat, totalDuration: real, completedToday: nat)

  /** `performTransaction`: the operation runs only on an opened database. */
  function PerformTransaction<T>(db: Database, op: seq<TranscriptionRecord> -> Result<T>): (r: Result<T>)
    ensures db.NotInitialized? ==> r == Err(NotInitializedMessage)
    ensures db.Opened? ==> r == op(db.records)
  {
    if db.NotInitialized? then Err(NotInitializedMessage) else op(db.records)
  }

  /** `transcriptions.reduce((acc, t) => acc + t.duration, 0)`, accumulating from the left. */
  function SumDurations(records: seq<TranscriptionRecord>): (r: real)
  {
    if |records| == 0 then 0.0 else SumDurations(records[..|records| - 1]) + records[|records| - 1].duration
  }

  /** The total duration adds up over a split of the records. */
  lemma {:induction false} SumDurationsAppend(a: seq<TranscriptionRecord>, b: seq<TranscriptionRecord>)
    ensures SumDurations(a + b) == SumDurations(a) + SumDurations(b)
    decreases |b|
  {
    if |b| > 0 {
      assert (a + b)[..|a + b| - 1] == a + b[..|b| - 1];
      SumDurationsAppend(a, b[..|b| - 1]);
    } else {
      assert a + b == a;
    }
  }

  /** Finished today: `status === 'completed'` and dated at or after the start of the day. */
  function CompletedSince(startOfDay: int): (r: TranscriptionRecord -> bool)
  {
    (t: TranscriptionRecord) => t.status == Completed && t.date >= startOfDay
  }

  /** `getStats()`, `startOfDay` being local midnight in milliseconds. */
  function GetStats(db: Database, startOfDay: int): (r: Result<Stats>)
    ensures db.NotInitialized? ==> r == Err(NotInitializedMessage)
    ensures db.Opened? ==> r.Ok? && r.value.totalTranscriptions == |db.records|
    ensures db.Opened? ==> r.value.totalDuration == SumDurations(db.records)
    ensures db.Opened? ==> r.value.completedToday <= r.value.totalTranscriptions
  {
    PerformTransaction(db, (records: seq<TranscriptionRecord>) =>
      Ok(Stats(|records|, SumDurations(records), Count(records, CompletedSince(startOfDay)))))
  }

  /** A failed record, or one dated before the start of the day, never counts as completed
      today: adding it changes only the total and the duration. */
  lemma UncountedRecordsDoNotCount(records: seq<TranscriptionRecord>, t: TranscriptionRecord, startOfDay: int)
    requires t.status == Failed || t.date < startOfDay
    ensures var before := GetStats(Opened(records), startOfDay).value;
            var after := GetStats(Opened(records + [t]), startOfDay).value;
            after.completedToday == before.completedToday
            && after.totalTranscriptions == before.totalTranscriptions + 1
            && after.totalDuration == before.totalDuration + t.duration
  {
    FilterAppend(records, [t], CompletedSince(startOfDay));
    SumDurationsAppend(records, [t]);
    assert [t][..0] == [];
  }

  /** A completed record dated today raises the count by one. */
  lemma CompletedTodayCounts(records: seq<TranscriptionRecord>, t: TranscriptionRecord, startOfDay: int)
    requires t.status == Completed && t.date >= startOfDay
    ensures GetStats(Opened(records + [t]), startOfDay).value.completedToday
            == GetStats(Opened(records), startOfDay).value.completedToday + 1
  {
    FilterAppend(records, [t], CompletedSince(startOfDay));
  }
}
