/**
 Inside one transition: the file operations of the queue store, with a crash possible between any
 two of them. One operation runs at a time, as two on the same task would share a temporary file.
 */
module QueueFiles {
  import opened Domain
  import opened Store
  import opened Protocol
  import opened QueueStore

  // A record's file in a status directory, or the temporary file beside it.
  datatype Path = Json(dir: Status, id: TaskId) | Temp(dir: Status, id: TaskId)

  // A file being written is partial until the write is done.
  datatype Content = Partial | Whole(task: Task, mtime: int)

  type Disk = map<Path, Content>

  datatype FileOp =
    | Truncate(path: Path)
    | Fill(path: Path, task: Task)
    | Rename(source: Path, target: Path)

  function Did(disk: Disk, op: FileOp, now: int): Disk {
    match op
    case Truncate(path) => disk[path := Partial]
    case Fill(path, task) => disk[path := Whole(task, now)]
    case Rename(source, target) => if source in disk then (disk - {source})[target := disk[source]] else disk
  }

  // The first k operations.
  function DidSome(disk: Disk, ops: seq<FileOp>, k: nat, now: int): Disk
    requires k <= |ops|
  {
    if k == 0 then disk else Did(DidSome(disk, ops, k - 1, now), ops[k - 1], now)
  }

  // Writing a whole file by way of the temporary one.
  function WriteOps(task: Task, dir: Status): seq<FileOp> {
    [Truncate(Temp(dir, task.id)), Fill(Temp(dir, task.id), task), Rename(Temp(dir, task.id), Json(dir, task.id))]
  }

  function RelocateOps(task: Task, from: Status): seq<FileOp> {
    WriteOps(task, from) +
    if task.status == from then [] else [Rename(Json(from, task.id), Json(task.status, task.id))]
  }

  /* ---- Names ---- */

  function Name(text: TaskId -> string, path: Path): string {
    text(path.id) + (if path.Json? then ".json" else ".json.tmp")
  }

  predicate EndsWith(s: string, suffix: string) {
    |suffix| <= |s| && s[|s| - |suffix|..] == suffix
  }

  // What a listing takes for a task's file, and the task it takes it for.
  predicate ListedAsTask(name: string) {
    EndsWith(name, ".json")
  }

  function TaskNamed(name: string): string
    requires ListedAsTask(name)
  {
    name[..|name| - |".json"|]
  }

  // Only record files are listed, each as the task it holds, and no two files of a directory share a
  // name, however task ids are spelled.
  lemma OnlyRecordsAreListed(text: TaskId -> string, p: Path, q: Path)
    requires forall a, b :: text(a) == text(b) ==> a == b
    ensures ListedAsTask(Name(text, p)) <==> p.Json?
    ensures p.Json? ==> TaskNamed(Name(text, p)) == text(p.id)
    ensures p.dir == q.dir && Name(text, p) == Name(text, q) ==> p == q
  {
    var np, nq := Name(text, p), Name(text, q);
    assert p.Temp? ==> np[|np| - 1] == 'p';
    assert p.Json? ==> np[|np| - 1] == 'n' && np[|np| - 5..] == ".json" && np[..|np| - 5] == text(p.id);
    assert q.Temp? ==> nq[|nq| - 1] == 'p';
    if p.Temp? && q.Temp? && np == nq {
      assert np[..|np| - 9] == text(p.id) && nq[..|nq| - 9] == text(q.id);
    }
    if p.Json? && q.Json? && np == nq {
      assert nq[..|nq| - 5] == text(q.id);
    }
  }

  /* ---- What a crash leaves ---- */

  // The disk holds these records: each in exactly one status directory, whole; no others.
  ghost predicate Shows(disk: Disk, files: Files) {
    && (forall dir, id :: Json(dir, id) in disk <==> In(files, id, dir))
    && (forall id :: id in files ==> disk[Json(files[id].dir, id)] == Whole(files[id].task, files[id].mtime))
  }

  lemma TempsDoNotShow(disk: Disk, files: Files, path: Path, content: Content)
    requires Shows(disk, files) && path.Temp?
    ensures Shows(disk[path := content], files)
  {
  }

  lemma TempReplacesRecord(disk: Disk, files: Files, dir: Status, id: TaskId, task: Task, now: int)
    requires Shows(disk, files) && (id in files ==> files[id].dir == dir)
    requires Temp(dir, id) in disk && disk[Temp(dir, id)] == Whole(task, now)
    ensures Shows(Did(disk, Rename(Temp(dir, id), Json(dir, id)), now), files[id := Slot(dir, task, now)])
  {
  }

  lemma RecordChangesDirectory(disk: Disk, files: Files, id: TaskId, to: Status, now: int)
    requires Shows(disk, files) && id in files && files[id].dir != to
    ensures Shows(Did(disk, Rename(Json(files[id].dir, id), Json(to, id)), now), files[id := files[id].(dir := to)])
  {
  }

  lemma WriteSoFar(disk: Disk, files: Files, task: Task, dir: Status, k: nat, now: int)
    requires Shows(disk, files) && k <= 3 && (task.id in files ==> files[task.id].dir == dir)
    ensures Shows(DidSome(disk, WriteOps(task, dir), k, now),
                  if k < 3 then files else files[task.id := Slot(dir, task, now)])
  {
    var ops, temp := WriteOps(task, dir), Temp(dir, task.id);
    TempsDoNotShow(disk, files, temp, Partial);
    TempsDoNotShow(disk[temp := Partial], files, temp, Whole(task, now));
    var written := disk[temp := Partial][temp := Whole(task, now)];
    assert DidSome(disk, ops, 0, now) == disk;
    assert DidSome(disk, ops, 1, now) == disk[temp := Partial];
    assert DidSome(disk, ops, 2, now) == written;
    if k == 3 {
      TempReplacesRecord(written, files, dir, task.id, task, now);
    }
  }

  lemma {:induction false} PrefixOps(disk: Disk, ops: seq<FileOp>, more: seq<FileOp>, k: nat, now: int)
    requires k <= |ops|
    ensures DidSome(disk, ops + more, k, now) == DidSome(disk, ops, k, now)
  {
    if k > 0 {
      PrefixOps(disk, ops, more, k - 1, now);
    }
  }

  function TransitionOps(slot: Slot, move: Move, now: int): seq<FileOp> {
    RelocateOps(Rewritten(slot.task, move, now), slot.dir)
  }

  // Enqueueing, cut short after k file operations: the record is not there, or all of it is.
  lemma EnqueueCutShort(disk: Disk, files: Files, task: Task, k: nat, now: int)
    requires Shows(disk, files) && task.id !in files && task.status == Queued && k <= 3
    ensures Shows(DidSome(disk, WriteOps(task, Queued), k, now),
                  if k < 3 then files else Performed(files, Put(task), now))
  {
    WriteSoFar(disk, files, task, Queued, k, now);
  }

  // What a transition, cut short after k file operations, makes of the record.
  function CutShort(slot: Slot, move: Move, k: nat, now: int): Slot {
    if k < 3 then slot else if k == 3 then Store.Torn(slot, move, now) else Moved(slot, move, now)
  }

  // A transition, cut short after k file operations: the record is in exactly one status directory and
  // is the whole old record or the whole new one; every other record is untouched.
  lemma TransitionCutShort(disk: Disk, files: Files, id: TaskId, move: Move, k: nat, now: int)
    requires Shows(disk, files) && In(files, id, From(move)) && files[id].task.id == id
    requires k <= 4
    ensures |TransitionOps(files[id], move, now)| == 4
    ensures Shows(DidSome(disk, TransitionOps(files[id], move, now), k, now),
                  files[id := CutShort(files[id], move, k, now)])
  {
    var slot, ops := files[id], TransitionOps(files[id], move, now);
    var task := Rewritten(slot.task, move, now);
    var last := [Rename(Json(slot.dir, id), Json(task.status, id))];
    assert task.id == id && task.status != slot.dir;
    assert ops == WriteOps(task, slot.dir) + last;
    if k < 3 {
      PrefixOps(disk, WriteOps(task, slot.dir), last, k, now);
      WriteSoFar(disk, files, task, slot.dir, k, now);
      assert files[id := slot] == files;
    } else {
      PrefixOps(disk, WriteOps(task, slot.dir), last, 3, now);
      WriteSoFar(disk, files, task, slot.dir, 3, now);
      if k == 4 {
        var torn := files[id := Slot(slot.dir, task, now)];
        RecordChangesDirectory(DidSome(disk, ops, 3, now), torn, id, task.status, now);
        assert torn[id := torn[id].(dir := task.status)] == files[id := Moved(slot, move, now)];
      }
    }
  }

  /* ---- Many operations, some cut short ---- */

  datatype Attempt = Attempt(id: TaskId, move: Move, k: nat, now: int)

  predicate CanAttempt(files: Files, a: Attempt) {
    In(files, a.id, From(a.move)) && files[a.id].task.id == a.id && a.k <= 4
  }

  function FilesAfter(files: Files, attempts: seq<Attempt>): Files
    decreases attempts
  {
    if attempts == [] || !CanAttempt(files, attempts[0]) then files
    else
      var a := attempts[0];
      FilesAfter(files[a.id := CutShort(files[a.id], a.move, a.k, a.now)], attempts[1..])
  }

  function DiskAfter(disk: Disk, files: Files, attempts: seq<Attempt>): Disk
    decreases attempts
  {
    if attempts == [] || !CanAttempt(files, attempts[0]) then disk
    else
      var a := attempts[0];
      var ops := TransitionOps(files[a.id], a.move, a.now);
      DiskAfter(if a.k <= |ops| then DidSome(disk, ops, a.k, a.now) else disk,
                files[a.id := CutShort(files[a.id], a.move, a.k, a.now)], attempts[1..])
  }

  // Any number of transitions, each cut short anywhere and leaving its temporary file behind, still
  // leave every record whole and in exactly one directory.
  lemma {:induction false} CutShortAgainAndAgain(disk: Disk, files: Files, attempts: seq<Attempt>)
    requires Shows(disk, files)
    ensures Shows(DiskAfter(disk, files, attempts), FilesAfter(files, attempts))
    ensures FilesAfter(files, attempts).Keys == files.Keys
    decreases attempts
  {
    if attempts != [] && CanAttempt(files, attempts[0]) {
      var a := attempts[0];
      TransitionCutShort(disk, files, a.id, a.move, a.k, a.now);
      var ops := TransitionOps(files[a.id], a.move, a.now);
      CutShortAgainAndAgain(DidSome(disk, ops, a.k, a.now), files[a.id := CutShort(files[a.id], a.move, a.k, a.now)],
                            attempts[1..]);
    }
  }

  /* ---- After the recovery ---- */

  predicate Consistent(files: Files) {
    forall id :: id in files ==> files[id].task.status == files[id].dir
  }

  // The boot's recovery repairs whatever a crash in one transition left, except a start or a supersede
  // cut short between its two steps: then a record in queued/ says "running" or "superseded".
  lemma RecoveredUnlessTornInQueue(files: Files, id: TaskId, move: Move, k: nat, now: int,
                                   errorSummary: string, at: TaskId -> int)
    requires Consistent(files) && In(files, id, From(move)) && k <= 4
    ensures Consistent(RecoveredFiles(files[id := CutShort(files[id], move, k, now)], {}, errorSummary, at))
       <==> !(k == 3 && (move.Start? || move.Replace?))
  {
    var crashed := files[id := CutShort(files[id], move, k, now)];
    var recovered := RecoveredFiles(crashed, {}, errorSummary, at);
    assert recovered.Keys == files.Keys;
    assert crashed[id] == CutShort(files[id], move, k, now);
    if k == 3 && (move.Start? || move.Replace?) {
      assert recovered[id].task.status != recovered[id].dir;
    }
  }
}
