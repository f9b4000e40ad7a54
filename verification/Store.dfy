/**
 What each queue-store method does to one record, and where it leaves the record's file.

 A record's file lives in one status directory. The record also carries a status field. A
 transition rewrites the record in its old directory and then moves the file, so the two can
 disagree after a crash between these steps.
 */
module Store {
  import opened Domain

  // `mtime` is the modification time of the record's file.
  datatype Slot = Slot(dir: Status, task: Task, mtime: int)

  type Files = map<TaskId, Slot>

  predicate In(files: Files, id: TaskId, dir: Status) {
    id in files && files[id].dir == dir
  }

  datatype Outcome = Success | Failure(errorSummary: string)

  // The transitions a record can make after it is enqueued.
  datatype Move =
    | Start
    | Complete(outcome: Outcome)
    | Requeue
    | Replace(newer: TaskId)
    | Recover(errorSummary: string)

  function NewTask(id: TaskId, source: Source, instruction: Instruction, createdAt: int): Task {
    Task(id, source, instruction, Queued, createdAt, None, None, None, None)
  }

  // The directory a transition takes its record from; a record filed elsewhere makes the call throw.
  function From(move: Move): Status {
    if move.Start? || move.Replace? then Queued else Running
  }

  function Rewritten(task: Task, move: Move, now: int): Task {
    match move
    case Start =>
      task.(status := Running, startedAt := Some(now), finishedAt := None, errorSummary := None)
    case Complete(Success) =>
      task.(status := Succeeded, finishedAt := Some(now), errorSummary := None)
    case Complete(Failure(summary)) =>
      task.(status := Failed, finishedAt := Some(now), errorSummary := Some(summary))
    case Requeue =>
      task.(status := Queued, startedAt := None, finishedAt := None, errorSummary := None)
    case Replace(newer) =>
      task.(status := Superseded, supersededBy := Some(newer), finishedAt := Some(now), errorSummary := None)
    case Recover(summary) =>
      task.(status := Failed, finishedAt := Some(now), errorSummary := Some(summary))
  }

  // A whole transition: the rewritten record, filed under the directory its status names.
  function Moved(slot: Slot, move: Move, now: int): Slot {
    var task := Rewritten(slot.task, move, now);
    Slot(task.status, task, now)
  }

  /* ---- What a transition leaves, field by field ---- */

  // The fields no transition touches.
  predicate SameTask(a: Task, b: Task) {
    a.id == b.id && a.source == b.source && a.instruction == b.instruction && a.createdAt == b.createdAt
  }

  // In running/, with the traces of an earlier run gone.
  predicate IsStarted(before: Task, after: Slot, now: int) {
    && after.dir == Running && after.task.status == Running && after.mtime == now
    && after.task.startedAt == Some(now) && after.task.finishedAt == None && after.task.errorSummary == None
    && SameTask(before, after.task) && after.task.supersededBy == before.supersededBy
  }

  // Back in queued/, with the traces of the run gone.
  predicate IsRequeued(before: Task, after: Slot, now: int) {
    && after.dir == Queued && after.task.status == Queued && after.mtime == now
    && after.task.startedAt == None && after.task.finishedAt == None && after.task.errorSummary == None
    && SameTask(before, after.task) && after.task.supersededBy == before.supersededBy
  }

  // In a terminal directory, finished now, with or without a summary of what went wrong.
  predicate IsFinished(before: Task, after: Slot, st: Status, summary: Option<string>, now: int) {
    && after.dir == st && after.task.status == st && after.mtime == now
    && after.task.finishedAt == Some(now) && after.task.errorSummary == summary
    && SameTask(before, after.task) && after.task.startedAt == before.startedAt
  }

  predicate IsSucceeded(before: Task, after: Slot, now: int) {
    IsFinished(before, after, Succeeded, None, now) && after.task.supersededBy == before.supersededBy
  }

  predicate IsFailed(before: Task, after: Slot, summary: string, now: int) {
    IsFinished(before, after, Failed, Some(summary), now) && after.task.supersededBy == before.supersededBy
  }

  predicate IsSuperseded(before: Task, after: Slot, newer: TaskId, now: int) {
    IsFinished(before, after, Superseded, None, now) && after.task.supersededBy == Some(newer)
  }

  lemma MovedSays(slot: Slot, move: Move, now: int)
    ensures var after := Moved(slot, move, now);
            match move
            case Start => IsStarted(slot.task, after, now)
            case Complete(Success) => IsSucceeded(slot.task, after, now)
            case Complete(Failure(summary)) => IsFailed(slot.task, after, summary, now)
            case Requeue => IsRequeued(slot.task, after, now)
            case Replace(newer) => IsSuperseded(slot.task, after, newer, now)
            case Recover(summary) => IsFailed(slot.task, after, summary, now)
  {
  }

  // A transition cut short between its two steps: rewritten, not yet moved.
  function Torn(slot: Slot, move: Move, now: int): Slot {
    Slot(slot.dir, Rewritten(slot.task, move, now), now)
  }

  function InDirectory(files: Files, dir: Status): set<TaskId> {
    set id | id in files && files[id].dir == dir
  }

  function QueuedOnSource(files: Files, source: Source): set<TaskId> {
    set id | id in files && files[id].dir == Queued && files[id].task.source == source
  }

  // The creation stamp of the next record, strictly above the last whatever the clock says.
  function NextCreatedAt(last: int, now: int): int {
    if now > last then now else last + 1
  }
}
