/** Uploading and deleting input files: the row side. */
module TaskFileService {
  import opened TaskTypes
  import opened FileRules
  import opened Protocol
  import opened Sessions

  /** _lock_uploading_task, after the lock: what keeps the input from changing. */
  method LockUploading(db: Session) returns (refusal: Option<Outcome>)
    requires db.row.status == Uploading ==> !db.row.committed
    ensures refusal == if db.row.status == Uploading then None else Some(FrozenOutcome(db.row))
  {
    if db.row.status != Uploading {
      if db.row.committed || db.row.status in {Queued, Running, Ready} { return Some(InputCommitted); }
      return Some(InvalidTransition);
    }
    if db.row.committed { return Some(InputCommitted); }
    return None;
  }

  /** _assert_upload_shape: every name of the batch is valid. */
  method NamesValid(uploads: seq<Upload>) returns (ok: bool)
    ensures ok <==> forall i | 0 <= i < |uploads| :: ValidName(uploads[i].name)
  {
    for i := 0 to |uploads|
      invariant forall j | 0 <= j < i :: ValidName(uploads[j].name)
    {
      if !ValidName(uploads[i].name) { return false; }
    }
    return true;
  }

  function BatchNames(uploads: seq<Upload>): set<string> {
    set i | 0 <= i < |uploads| :: uploads[i].name
  }

  function InputNames(files: seq<File>): set<string> {
    set i | 0 <= i < |files| && Alive(files[i]) && files[i].direction == Input :: files[i].name
  }

  /** _assert_name_uniqueness: the batch has as many names as uploads, and none
      of a live input. */
  predicate NamesUnique(files: seq<File>, uploads: seq<Upload>) {
    |BatchNames(uploads)| == |uploads| && BatchNames(uploads) !! InputNames(files)
  }

  lemma {:induction false} CountedNames(uploads: seq<Upload>)
    ensures |BatchNames(uploads)| <= |uploads|
    ensures |BatchNames(uploads)| == |uploads| <==> forall i, j | 0 <= i < j < |uploads| ::
        uploads[i].name != uploads[j].name
  {
    if uploads == [] {
      assert BatchNames(uploads) == {};
    } else {
      var n := |uploads| - 1;
      var front, name := uploads[..n], uploads[n].name;
      CountedNames(front);
      assert BatchNames(uploads) == BatchNames(front) + {name};
      assert name in BatchNames(front) <==> exists i :: 0 <= i < n && uploads[i].name == name;
      if name in BatchNames(front) { assert BatchNames(uploads) == BatchNames(front); }
    }
  }

  /** Counting the names and intersecting the sets says exactly that no two
      live inputs of the enlarged task share a name. */
  lemma UniqueNames(files: seq<File>, uploads: seq<Upload>)
    ensures NamesUnique(files, uploads) <==> BatchNamesOk(files, uploads)
  {
    CountedNames(uploads);
    if NamesUnique(files, uploads) {
      forall i | 0 <= i < |uploads| ensures !NameTaken(files, Input, uploads[i].name) {
        assert uploads[i].name in BatchNames(uploads);
      }
    } else if BatchNamesOk(files, uploads) {
      var name :| name in BatchNames(uploads) && name in InputNames(files);
      var i :| 0 <= i < |uploads| && uploads[i].name == name;
      assert NameTaken(files, Input, uploads[i].name);
    }
  }

  /** The staged rows, one per upload, written last. */
  method InsertStaged(db: Session, uploads: seq<Upload>)
    modifies db`row, db`next
    ensures db.row == old(db.row).(files := Stage(old(db.row).files, uploads, old(db.next)))
    ensures db.next == old(db.next) + |uploads|
  {
    ghost var files, base := db.row.files, db.next;
    for i := 0 to |uploads|
      invariant db.row == old(db.row).(files := Stage(files, uploads[..i], base)) && db.next == base + i
    {
      var fid := db.NewId();
      db.row := db.row.(files := db.row.files + [Staging(uploads[i], fid)]);
      assert db.row.files == Stage(files, uploads[..i + 1], base);
    }
    assert uploads[..|uploads|] == uploads;
  }

  method UploadFiles(db: Session, uploads: seq<Upload>) returns (out: Outcome)
    requires db.row.status == Uploading ==> !db.row.committed
    modifies db
    ensures out == if old(db.row).status != Uploading then FrozenOutcome(old(db.row))
                   else if uploads == [] || exists i :: 0 <= i < |uploads| && !ValidName(uploads[i].name)
                       then InvalidInput
                   else if !BatchNamesOk(old(db.row).files, uploads) then InvalidInput
                   else if !BatchWithinLimits(old(db.row).files, uploads) then FileLimit
                   else Done
    ensures out == Done ==> db.Rows() == old(db.Rows()).(cell := old(db.row).(files := Stage(old(db.row).files,
        uploads, old(db.next))))
                            && db.next == old(db.next) + |uploads| && db.alarms == old(db.alarms)
  {
    hide ValidName, BatchNamesOk, BatchWithinLimits, Stage, NamesUnique;
    var refusal := LockUploading(db);
    if refusal.Some? { return refusal.value; }
    if uploads == [] { return InvalidInput; }
    var ok := NamesValid(uploads);
    if !ok { return InvalidInput; }
    UniqueNames(db.row.files, uploads);
    if !NamesUnique(db.row.files, uploads) { return InvalidInput; }
    if !BatchWithinLimits(db.row.files, uploads) { return FileLimit; }
    InsertStaged(db, uploads);
    return Done;
  }

  /** The row becomes a tombstone; no bytes were charged for it yet. */
  method DeleteFile(db: Session, fid: FileId) returns (out: Outcome)
    requires db.row.status == Uploading ==> !db.row.committed
    requires forall i, j | 0 <= i < j < |db.row.files| :: db.row.files[i].id != db.row.files[j].id
    modifies db
    ensures var c := old(db.row);
            var i := Find(c.files, StagedInput(fid), 0);
            && out == (if c.status != Uploading then FrozenOutcome(c) else if i == |c.files| then FileMissing else Done)
            && (out == Done ==> db.Rows() == old(db.Rows()).(cell :=
               c.(files := c.files[i := c.files[i].(state := Tombstone)]))
                                && db.next == old(db.next) && db.alarms == old(db.alarms))
  {
    var refusal := LockUploading(db);
    if refusal.Some? { return refusal.value; }
    var i := Find(db.row.files, StagedInput(fid), 0);
    if i == |db.row.files| { return FileMissing; }
    MarkIsReplace(db.row.files, i, Staged, Tombstone);
    db.row := db.row.(files := Mark(db.row.files, fid, Staged, Tombstone));
    return Done;
  }
}
