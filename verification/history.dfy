/** The in-memory history list (src/store/transcriptionStore.ts). Each action first awaits a
    database operation, whose result is a parameter; when it rejects, the list is left as it
    was and the rejection is passed on. Export (a file download) is left out. */
module History {
  import opened Results
  import opened Lists
  import opened Db

  type HistoryList = seq<TranscriptionRecord>

  /** `addTranscription(t)`: after the database write, `t` goes in front. */
  function AddTranscription(list: HistoryList, t: TranscriptionRecord, write: Result<()>): (r: (HistoryList, Result<()>))
    ensures r.1 == write
    ensures write.Ok? ==> |r.0| == |list| + 1 && r.0[0] == t && r.0[1..] == list
    ensures write.Err? ==> r.0 == list
  {
    if write.Ok? then ([t] + list, write) else (list, write)
  }

  /** `removeTranscription(id)`: after the database delete, the records with other ids in order. */
  function RemoveTranscription(list: HistoryList, id: string, write: Result<()>): (r: (HistoryList, Result<()>))
    ensures r.1 == write
    ensures write.Ok? ==> forall x :: x in r.0 <==> x in list && x.id != id
    ensures write.Err? ==> r.0 == list
  {
    if write.Ok? then (Filter(list, (x: TranscriptionRecord) => x.id != id), write) else (list, write)
  }

  /** Removing a record that was just added with a fresh id gives the earlier list back. */
  lemma RemoveUndoesAdd(list: HistoryList, t: TranscriptionRecord)
    requires forall i :: 0 <= i < |list| ==> list[i].id != t.id
    ensures RemoveTranscription(AddTranscription(list, t, Ok(())).0, t.id, Ok(())).0 == list
  {
    FilterAppend([t], list, (x: TranscriptionRecord) => x.id != t.id);
    FilterKeepsAll(list, (x: TranscriptionRecord) => x.id != t.id);
  }

  /** Removal keeps the surviving records in order: removing from `a + b` removes from each part. */
  lemma RemoveKeepsOrder(a: HistoryList, b: HistoryList, id: string)
    ensures RemoveTranscription(a + b, id, Ok(())).0
            == RemoveTranscription(a, id, Ok(())).0 + RemoveTranscription(b, id, Ok(())).0
  {
    FilterAppend(a, b, (x: TranscriptionRecord) => x.id != id);
  }

  /** The argument of `importData`: nothing (`undefined`), or an object whose `transcriptions`
      field may be missing. An empty array is present and replaces the list. */
  datatype ImportPayload = NoData | Data(transcriptions: Option<HistoryList>)

  /** `importData(data)`: with `data.transcriptions` present, the database is rewritten and the
      list replaced wholesale; otherwise nothing happens. */
  function ImportData(list: HistoryList, data: ImportPayload, write: Result<()>): (r: (HistoryList, Result<()>))
    ensures (data.NoData? || data.transcriptions.None?) ==> r == (list, Ok(()))
    ensures data.Data? && data.transcriptions.Some? ==> r.1 == write
    ensures data.Data? && data.transcriptions.Some? && write.Ok? ==> r.0 == data.transcriptions.value
    ensures write.Err? ==> r.0 == list
  {
    if data.Data? && data.transcriptions.Some? then
      if write.Ok? then (data.transcriptions.value, write) else (list, write)
    else (list, Ok(()))
  }

  /** Importing the same data twice leaves the same list as importing it once. */
  lemma ImportIdempotent(list: HistoryList, data: ImportPayload)
    ensures ImportData(ImportData(list, data, Ok(())).0, data, Ok(())).0 == ImportData(list, data, Ok(())).0
  {
  }

  /** `resetData()`: after the database is cleared, the list is empty. */
  function ResetData(list: HistoryList, write: Result<()>): (r: (HistoryList, Result<()>))
    ensures r.1 == write
    ensures write.Ok? ==> |r.0| == 0
    ensures write.Err? ==> r.0 == list
  {
    if write.Ok? then ([], write) else (list, write)
  }

  /** `loadTranscriptions()`: the list becomes what the database returned; before the database
      is opened the read is rejected and the list stays. */
  function LoadTranscriptions(list: HistoryList, db: Database): (r: (HistoryList, Result<()>))
    ensures db.Opened? ==> r == (db.records, Ok(()))
    ensures db.NotInitialized? ==> r == (list, Err(NotInitializedMessage))
  {
    match PerformTransaction(db, (records: seq<TranscriptionRecord>) => Ok(records))
    case Ok(records) => (records, Ok(()))
    case Err(e) => (list, Err(e))
  }
}
