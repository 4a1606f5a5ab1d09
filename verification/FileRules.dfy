/** task_files rows: names, limits, and the live totals the limits speak of. */
module FileRules {
  import opened TaskTypes

  const MAX_FILES_PER_TASK: nat := 10
  const MAX_SINGLE_FILE_BYTES: nat := 5 * 1024 * 1024
  const MAX_TASK_BYTES: nat := 10 * 1024 * 1024
  const FILE_NAME_MAX_CHARS: nat := 255

  datatype Upload = Upload(name: string, size: nat)

  predicate Control(c: char) {
    (c as int) < 0x20 || 0x7F <= (c as int) < 0xA0
  }

  predicate ValidName(name: string) {
    && 0 < |name| <= FILE_NAME_MAX_CHARS
    && (forall i | 0 <= i < |name| :: !Control(name[i]) && name[i] != '/' && name[i] != '\\')
    && name != "." && name != ".."
  }

  predicate Alive(f: File) {
    f.state != Tombstone
  }

  function SizeIf(f: File, d: Direction): nat {
    if Alive(f) && f.direction == d then f.size else 0
  }

  function CountIf(f: File, d: Direction): nat {
    if Alive(f) && f.direction == d then 1 else 0
  }

  function LiveSize(files: seq<File>, d: Direction): nat {
    if files == [] then 0 else LiveSize(files[..|files| - 1], d) + SizeIf(files[|files| - 1], d)
  }

  function LiveCount(files: seq<File>, d: Direction): nat {
    if files == [] then 0 else LiveCount(files[..|files| - 1], d) + CountIf(files[|files| - 1], d)
  }

  function LiveTotal(files: seq<File>): nat {
    LiveSize(files, Input) + LiveSize(files, Output)
  }

  predicate NameTaken(files: seq<File>, d: Direction, name: string) {
    exists i :: 0 <= i < |files| && Alive(files[i]) && files[i].direction == d && files[i].name == name
  }

  predicate NamesDistinct(files: seq<File>) {
    forall i, j | 0 <= i < j < |files| && Alive(files[i]) && Alive(files[j])
                  && files[i].direction == files[j].direction ::
      files[i].name != files[j].name
  }

  /** What every task's file rows satisfy. */
  predicate FilesOk(files: seq<File>, committed: bool, bound: nat) {
    && (forall i | 0 <= i < |files| :: files[i].id < bound)
    && (forall i, j | 0 <= i < j < |files| :: files[i].id != files[j].id)
    && (forall i | 0 <= i < |files| :: files[i].size <= MAX_SINGLE_FILE_BYTES)
    && (forall i | 0 <= i < |files| && Alive(files[i]) ::
          match files[i].direction
          case Input => files[i].state == (if committed then Committed else Staged)
          case Output => committed && files[i].state == Registered)
    && NamesDistinct(files)
    && LiveCount(files, Input) <= MAX_FILES_PER_TASK
    && LiveTotal(files) <= MAX_TASK_BYTES
  }

  datatype Query = StagedInput(id: FileId) | OutputNamed(name: string)

  predicate Meets(q: Query, f: File) {
    match q
    case StagedInput(id) => f.id == id && f.direction == Input && f.state == Staged
    case OutputNamed(name) => f.direction == Output && Alive(f) && f.name == name
  }

  /** The first row at or after `i` that meets the query, or |files|. */
  function Find(files: seq<File>, q: Query, i: nat): (r: nat)
    requires i <= |files|
    ensures i <= r <= |files|
    ensures forall j | i <= j < r :: !Meets(q, files[j])
    ensures r < |files| ==> Meets(q, files[r])
    decreases |files| - i
  {
    if i == |files| || Meets(q, files[i]) then i else Find(files, q, i + 1)
  }

  /** UPDATE ... SET state = to WHERE id = :id AND state = from */
  function Mark(files: seq<File>, id: FileId, from: FileState, to: FileState): (out: seq<File>)
    ensures |out| == |files|
    ensures forall i | 0 <= i < |files| ::
      out[i] == if files[i].id == id && files[i].state == from then files[i].(state := to) else files[i]
  {
    seq(|files|, i requires 0 <= i < |files| =>
      if files[i].id == id && files[i].state == from then files[i].(state := to) else files[i])
  }

  /** UPDATE ... SET state = 'committed' WHERE state = 'staged' */
  function CommitStaged(files: seq<File>): (out: seq<File>)
    ensures |out| == |files|
    ensures forall i | 0 <= i < |files| ::
      out[i] == if files[i].state == Staged then files[i].(state := Committed) else files[i]
  {
    seq(|files|, i requires 0 <= i < |files| =>
      if files[i].state == Staged then files[i].(state := Committed) else files[i])
  }

  /** produced_in_round_id is SET NULL when the round rows go. */
  function Unlink(files: seq<File>): (out: seq<File>)
    ensures |out| == |files|
    ensures forall i | 0 <= i < |files| :: out[i] == files[i].(producedIn := None)
  {
    seq(|files|, i requires 0 <= i < |files| => files[i].(producedIn := None))
  }

  /** SUM(size_bytes) over committed inputs. */
  function CommittedInputBytes(files: seq<File>): nat {
    if files == [] then 0 else
      var f := files[|files| - 1];
      CommittedInputBytes(files[..|files| - 1]) +
        (if f.direction == Input && f.state == Committed then f.size else 0)
  }

  function Staging(u: Upload, id: FileId): File {
    File(id, Input, u.name, u.size, Staged, None)
  }

  /** The staged rows of a batch, with consecutive fresh ids. */
  function Stage(files: seq<File>, uploads: seq<Upload>, base: nat): (out: seq<File>)
    ensures |out| == |files| + |uploads|
    ensures forall i | 0 <= i < |files| :: out[i] == files[i]
    ensures forall i | 0 <= i < |uploads| :: out[|files| + i] == Staging(uploads[i], base + i)
  {
    files + seq(|uploads|, i requires 0 <= i < |uploads| => Staging(uploads[i], base + i))
  }

  function UploadBytes(uploads: seq<Upload>): nat {
    if uploads == [] then 0 else UploadBytes(uploads[..|uploads| - 1]) + uploads[|uploads| - 1].size
  }

  predicate BatchNamesOk(files: seq<File>, uploads: seq<Upload>) {
    && (forall i, j | 0 <= i < j < |uploads| :: uploads[i].name != uploads[j].name)
    && (forall i | 0 <= i < |uploads| :: !NameTaken(files, Input, uploads[i].name))
  }

  predicate BatchWithinLimits(files: seq<File>, uploads: seq<Upload>) {
    && LiveCount(files, Input) + |uploads| <= MAX_FILES_PER_TASK
    && (forall i | 0 <= i < |uploads| :: uploads[i].size <= MAX_SINGLE_FILE_BYTES)
    && LiveTotal(files) + UploadBytes(uploads) <= MAX_TASK_BYTES
  }

  // How the live totals move.

  lemma AppendFile(files: seq<File>, f: File)
    ensures forall d :: LiveSize(files + [f], d) == LiveSize(files, d) + SizeIf(f, d)
    ensures forall d :: LiveCount(files + [f], d) == LiveCount(files, d) + CountIf(f, d)
  {
    assert (files + [f])[..|files|] == files;
  }

  lemma {:induction false} ReplaceFile(files: seq<File>, i: nat, f: File)
    requires i < |files|
    ensures forall d :: LiveSize(files[i := f], d) == LiveSize(files, d) - SizeIf(files[i], d) + SizeIf(f, d)
    ensures forall d :: LiveCount(files[i := f], d) == LiveCount(files, d) - CountIf(files[i], d) + CountIf(f, d)
  {
    var front := files[..|files| - 1];
    if i == |front| {
      assert files[i := f] == front + [f];
      AppendFile(front, f);
    } else {
      ReplaceFile(front, i, f);
      assert files[i := f] == front[i := f] + [files[|files| - 1]];
      AppendFile(front[i := f], files[|files| - 1]);
    }
  }

  lemma {:induction false} SameSizes(files: seq<File>, files': seq<File>)
    requires |files| == |files'|
    requires forall i | 0 <= i < |files| ::
      && files[i].direction == files'[i].direction && files[i].size == files'[i].size
      && Alive(files[i]) == Alive(files'[i])
    ensures forall d :: LiveSize(files', d) == LiveSize(files, d)
    ensures forall d :: LiveCount(files', d) == LiveCount(files, d)
  {
    if files == [] {
    } else {
      SameSizes(files[..|files| - 1], files'[..|files| - 1]);
    }
  }

  lemma {:induction false} StageTotals(files: seq<File>, uploads: seq<Upload>, base: nat)
    ensures LiveSize(Stage(files, uploads, base), Input) == LiveSize(files, Input) + UploadBytes(uploads)
    ensures LiveSize(Stage(files, uploads, base), Output) == LiveSize(files, Output)
    ensures LiveCount(Stage(files, uploads, base), Input) == LiveCount(files, Input) + |uploads|
    decreases |uploads|
  {
    if uploads == [] {
      assert Stage(files, uploads, base) == files;
    } else {
      var n := |uploads| - 1;
      StageTotals(files, uploads[..n], base);
      var f := Staging(uploads[n], base + n);
      assert Stage(files, uploads, base) == Stage(files, uploads[..n], base) + [f];
      AppendFile(Stage(files, uploads[..n], base), f);
    }
  }

  lemma {:induction false} CommittedIsLive(files: seq<File>)
    requires forall i | 0 <= i < |files| && Alive(files[i]) && files[i].direction == Input ::
      files[i].state == Staged || files[i].state == Committed
    ensures CommittedInputBytes(CommitStaged(files)) == LiveSize(files, Input)
  {
    if files == [] {
    } else {
      var n := |files| - 1;
      CommittedIsLive(files[..n]);
      assert CommitStaged(files)[..n] == CommitStaged(files[..n]);
    }
  }

  /** A conditional update by id is an update of the one row that has it. */
  lemma MarkIsReplace(files: seq<File>, i: nat, from: FileState, to: FileState)
    requires i < |files| && files[i].state == from
    requires forall j, k | 0 <= j < k < |files| :: files[j].id != files[k].id
    ensures Mark(files, files[i].id, from, to) == files[i := files[i].(state := to)]
  {
  }

  lemma {:induction false} NoOutputs(files: seq<File>)
    requires forall i | 0 <= i < |files| && Alive(files[i]) :: files[i].direction == Input
    ensures LiveSize(files, Output) == 0
  {
    if files == [] {
    } else {
      NoOutputs(files[..|files| - 1]);
    }
  }

  // The row rules survive every file operation.

  lemma StageNames(files: seq<File>, uploads: seq<Upload>, base: nat)
    requires NamesDistinct(files) && BatchNamesOk(files, uploads)
    ensures NamesDistinct(Stage(files, uploads, base))
  {
    var out := Stage(files, uploads, base);
    forall i, j | 0 <= i < j < |out| && Alive(out[i]) && Alive(out[j]) && out[i].direction == out[j].direction
      ensures out[i].name != out[j].name
    {
      if |files| <= j {
        assert out[j] == Staging(uploads[j - |files|], base + (j - |files|));
        if |files| <= i {
          assert out[i] == Staging(uploads[i - |files|], base + (i - |files|));
        } else {
          assert !NameTaken(files, Input, uploads[j - |files|].name);
        }
      }
    }
  }

  lemma StageOk(files: seq<File>, uploads: seq<Upload>, base: nat)
    requires FilesOk(files, false, base)
    requires BatchNamesOk(files, uploads) && BatchWithinLimits(files, uploads)
    ensures FilesOk(Stage(files, uploads, base), false, base + |uploads|)
  {
    var out := Stage(files, uploads, base);
    StageTotals(files, uploads, base);
    StageNames(files, uploads, base);
    hide NamesDistinct, BatchNamesOk;
    forall i | |files| <= i < |out| ensures out[i] == Staging(uploads[i - |files|], base + (i - |files|)) {
    }
  }

  lemma TombstoneOk(files: seq<File>, i: nat, committed: bool, bound: nat)
    requires FilesOk(files, committed, bound) && i < |files|
    ensures FilesOk(files[i := files[i].(state := Tombstone)], committed, bound)
  {
    ReplaceFile(files, i, files[i].(state := Tombstone));
  }

  lemma CommitOk(files: seq<File>, bound: nat)
    requires FilesOk(files, false, bound)
    ensures FilesOk(CommitStaged(files), true, bound)
    ensures LiveSize(CommitStaged(files), Input) == CommittedInputBytes(CommitStaged(files))
    ensures LiveSize(CommitStaged(files), Output) == 0
  {
    SameSizes(files, CommitStaged(files));
    CommittedIsLive(files);
    NoOutputs(files);
  }

  lemma UnlinkOk(files: seq<File>, committed: bool, bound: nat)
    requires FilesOk(files, committed, bound)
    ensures FilesOk(Unlink(files), committed, bound)
  {
    SameSizes(files, Unlink(files));
  }

  lemma RegisterOk(files: seq<File>, f: File, bound: nat)
    requires FilesOk(files, true, bound)
    requires f.id == bound && f.direction == Output && f.state == Registered
    requires f.size <= MAX_SINGLE_FILE_BYTES && LiveTotal(files) + f.size <= MAX_TASK_BYTES
    requires !NameTaken(files, Output, f.name)
    ensures FilesOk(files + [f], true, bound + 1)
  {
    AppendFile(files, f);
    var out := files + [f];
    forall i, j | 0 <= i < j < |out| && Alive(out[i]) && Alive(out[j]) && out[i].direction == out[j].direction
      ensures out[i].name != out[j].name
    {
      if j == |files| { assert out[i] == files[i]; }
    }
  }
}
