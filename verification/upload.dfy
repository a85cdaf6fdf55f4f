/** The upload validator of the transcription page (src/components/Transcribe.tsx): each chosen
    or dropped file is checked for an audio type and a size limit, and either queued with an
    info notification or rejected with an error notification. The effects are returned as a
    list of actions in the order the component performs them. */
module Upload {
  import opened Results
  import opened Text
  import opened Domain
  import Notifications

  /** Largest accepted file: 100 MiB. */
  const MaxUploadSize: nat := 100 * 1024 * 1024

  const NotAudioMessage: string := "Please select an audio file"
  const TooLargeMessage: string := "File size must be less than 100MB"
  const QueuedMessage: string := "File added to transcription queue"

  /** What handling a file does: queue it (`addItem`) or show a notification (`addNotification`). */
  datatype Action = Enqueue(file: FileInfo) | Notify(notice: Notifications.Notice)

  /** A file the validator lets through. */
  predicate Acceptable(f: FileInfo)
  {
    StartsWith(f.mimeType, "audio/") && f.size <= MaxUploadSize
  }

  /** `handleFileSelect(file)`; `None` is a missing file. */
  function HandleFileSelect(file: Option<FileInfo>): (r: seq<Action>)
    ensures file.None? ==> r == []
    ensures file.Some? ==> ((exists i :: 0 <= i < |r| && r[i].Enqueue?) <==> Acceptable(file.value))
    ensures file.Some? && Acceptable(file.value) ==>
              r == [Enqueue(file.value), Notify(Notifications.Notice(Notifications.Info, QueuedMessage))]
    ensures file.Some? && !Acceptable(file.value) ==> |r| == 1 && r[0].Notify? && r[0].notice.kind == Notifications.Error
    ensures file.Some? && !StartsWith(file.value.mimeType, "audio/") ==> r[0].notice.message == NotAudioMessage
    ensures file.Some? && StartsWith(file.value.mimeType, "audio/") && !Acceptable(file.value) ==>
              r[0].notice.message == TooLargeMessage
  {
    match file
    case None => []
    case Some(f) =>
      if !StartsWith(f.mimeType, "audio/") then
        [Notify(Notifications.Notice(Notifications.Error, NotAudioMessage))]
      else if f.size > MaxUploadSize then
        [Notify(Notifications.Notice(Notifications.Error, TooLargeMessage))]
      else
        var r := [Enqueue(f), Notify(Notifications.Notice(Notifications.Info, QueuedMessage))];
        assert r[0].Enqueue?;
        r
  }

  /** `handleDrop` and `handleFileInput`: every file of the list handled on its own, in order.
      Exactly the acceptable files are queued, each once and in list order, and every file,
      accepted or not, produces exactly one notification. */
  function HandleFiles(files: seq<FileInfo>): (r: seq<Action>)
    ensures Enqueued(r) == AcceptedFiles(files)
    ensures |Notices(r)| == |files|
  {
    if |files| == 0 then []
    else
      var head := HandleFileSelect(Some(files[0]));
      var rest := HandleFiles(files[1..]);
      SingleFileEffects(files[0]);
      EnqueuedAppend(head, rest);
      NoticesAppend(head, rest);
      head + rest
  }

  /** The files a list of actions queues, in order. */
  function Enqueued(actions: seq<Action>): (r: seq<FileInfo>)
    ensures |r| <= |actions|
  {
    if |actions| == 0 then []
    else (if actions[0].Enqueue? then [actions[0].file] else []) + Enqueued(actions[1..])
  }

  /** The notifications of a list of actions, in order. */
  function Notices(actions: seq<Action>): (r: seq<Notifications.Notice>)
    ensures |r| <= |actions|
  {
    if |actions| == 0 then []
    else (if actions[0].Notify? then [actions[0].notice] else []) + Notices(actions[1..])
  }

  /** The acceptable files of a list, in order. */
  function AcceptedFiles(files: seq<FileInfo>): (r: seq<FileInfo>)
    ensures |r| <= |files|
    ensures forall i :: 0 <= i < |r| ==> Acceptable(r[i]) && r[i] in files
  {
    if |files| == 0 then []
    else (if Acceptable(files[0]) then [files[0]] else []) + AcceptedFiles(files[1..])
  }

  lemma {:induction false} EnqueuedAppend(a: seq<Action>, b: seq<Action>)
    ensures Enqueued(a + b) == Enqueued(a) + Enqueued(b)
  {
    if |a| > 0 {
      assert (a + b)[1..] == a[1..] + b;
      EnqueuedAppend(a[1..], b);
    } else {
      assert a + b == b;
    }
  }

  lemma {:induction false} NoticesAppend(a: seq<Action>, b: seq<Action>)
    ensures Notices(a + b) == Notices(a) + Notices(b)
  {
    if |a| > 0 {
      assert (a + b)[1..] == a[1..] + b;
      NoticesAppend(a[1..], b);
    } else {
      assert a + b == b;
    }
  }

  /** One file queues itself when acceptable and nothing otherwise, and always shows exactly one
      notification. */
  lemma SingleFileEffects(f: FileInfo)
    ensures Enqueued(HandleFileSelect(Some(f))) == (if Acceptable(f) then [f] else [])
    ensures |Notices(HandleFileSelect(Some(f)))| == 1
  {
    var r := HandleFileSelect(Some(f));
    if Acceptable(f) {
      assert r[1..][1..] == [];
    } else {
      assert r[1..] == [];
    }
  }

  /** The limit is inclusive: an audio file of exactly 100 MiB is accepted, one byte more is not. */
  lemma SizeLimitInclusive(name: string, mimeType: string)
    requires StartsWith(mimeType, "audio/")
    ensures Acceptable(FileInfo(name, mimeType, MaxUploadSize))
    ensures !Acceptable(FileInfo(name, mimeType, MaxUploadSize + 1))
  {
  }

  /** The type is checked first: a file that is neither audio nor small enough is reported as
      not audio. */
  lemma TypeCheckedFirst(f: FileInfo)
    requires !StartsWith(f.mimeType, "audio/") && f.size > MaxUploadSize
    ensures HandleFileSelect(Some(f)) == [Notify(Notifications.Notice(Notifications.Error, NotAudioMessage))]
  {
  }
}
