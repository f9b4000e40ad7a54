/**
 The queue store: its operations on whole records, and the order its listings come in.

 Records are taken to be readable and I/O to succeed. `QueueFiles` looks inside the transitions.
 */
module QueueStore {
  import opened Domain
  import opened Store
  import opened Protocol

  datatype Result<+T> = Ok(value: T) | Err(error: string)

  predicate ByCreation(s: seq<Task>) {
    forall i, j :: 0 <= i < j < |s| ==> s[i].createdAt <= s[j].createdAt
  }

  function InsertedByCreation(s: seq<Task>, t: Task): seq<Task> {
    if s == [] || s[|s| - 1].createdAt <= t.createdAt then s + [t]
    else InsertedByCreation(s[..|s| - 1], t) + [s[|s| - 1]]
  }

  // The stable sort by creation stamp.
  function SortedByCreation(s: seq<Task>): seq<Task> {
    if s == [] then [] else InsertedByCreation(SortedByCreation(s[..|s| - 1]), s[|s| - 1])
  }

  lemma {:induction false} InsertedSame(s: seq<Task>, t: Task)
    ensures multiset(InsertedByCreation(s, t)) == multiset(s) + multiset{t}
  {
    if s != [] && s[|s| - 1].createdAt > t.createdAt {
      InsertedSame(s[..|s| - 1], t);
      assert s == s[..|s| - 1] + [s[|s| - 1]];
    }
  }

  lemma {:induction false} InsertedOrder(s: seq<Task>, t: Task)
    requires ByCreation(s)
    ensures ByCreation(InsertedByCreation(s, t))
  {
    if s != [] && s[|s| - 1].createdAt > t.createdAt {
      var front, last := s[..|s| - 1], s[|s| - 1];
      InsertedOrder(front, t);
      InsertedSame(front, t);
      var r := InsertedByCreation(front, t);
      forall i | 0 <= i < |r| ensures r[i].createdAt <= last.createdAt {
        assert r[i] in multiset(front) + multiset{t};
        assert r[i] in front || r[i] == t;
      }
    }
  }

  lemma {:induction false} SortSorts(s: seq<Task>)
    ensures ByCreation(SortedByCreation(s)) && multiset(SortedByCreation(s)) == multiset(s)
  {
    if s != [] {
      SortSorts(s[..|s| - 1]);
      InsertedSame(SortedByCreation(s[..|s| - 1]), s[|s| - 1]);
      InsertedOrder(SortedByCreation(s[..|s| - 1]), s[|s| - 1]);
      assert s == s[..|s| - 1] + [s[|s| - 1]];
    }
  }

  predicate IdsAgree(files: Files) {
    forall id :: id in files ==> files[id].task.id == id
  }

  // `s` lists the records of one directory, each once, oldest first.
  ghost predicate Lists(files: Files, dir: Status, s: seq<Task>) {
    && ByCreation(s)
    && (forall t :: t in s ==> t.id in files && files[t.id] == Slot(dir, t, files[t.id].mtime))
    && (forall id :: In(files, id, dir) ==> files[id].task in s)
    && DistinctIds(s)
  }

  predicate Prunable(slot: Slot, cutoff: int) {
    Terminal(slot.dir) && slot.mtime <= cutoff
  }

  class FileQueueStore {
    var files: Files
    var lastCreatedAtMs: int

    constructor (files: Files)
      ensures this.files == files && lastCreatedAtMs == 0
    {
      this.files := files;
      lastCreatedAtMs := 0;
    }

    method NextCreatedAtMs(now: int) returns (next: int)
      modifies this`lastCreatedAtMs
      ensures next == lastCreatedAtMs == NextCreatedAt(old(lastCreatedAtMs), now)
      ensures next > old(lastCreatedAtMs) && next >= now && (now > old(lastCreatedAtMs) ==> next == now)
    {
      next := if now > lastCreatedAtMs then now else lastCreatedAtMs + 1;
      lastCreatedAtMs := next;
    }

    // `id` is new.
    method Enqueue(id: TaskId, source: Source, instruction: Instruction, now: int) returns (task: Task)
      modifies this
      ensures lastCreatedAtMs == NextCreatedAt(old(lastCreatedAtMs), now)
      ensures task == NewTask(id, source, instruction, lastCreatedAtMs)
      ensures task.id == id && task.source == source && task.instruction == instruction && task.status == Queued
      ensures task.createdAt > old(lastCreatedAtMs) && task.createdAt >= now
      ensures task.startedAt == task.finishedAt == None && task.errorSummary == None && task.supersededBy == None
      ensures files == Performed(old(files), Put(task), now)
      ensures files == old(files)[id := Slot(Queued, task, now)]
    {
      var createdAt := NextCreatedAtMs(now);
      task := Task(id, source, instruction, Queued, createdAt, None, None, None, None);
      files := files[id := Slot(Queued, task, now)];
    }

    // Files the rewritten record under its new status.
    method Relocate(task: Task, from: Status, now: int)
      requires In(files, task.id, from)
      modifies this`files
      ensures files == old(files)[task.id := Slot(task.status, task, now)]
    {
      files := files[task.id := Slot(from, task, now)];
      if from != task.status {
        files := files[task.id := Slot(task.status, task, now)];
      }
    }

    method StartTask(id: TaskId, now: int) returns (r: Result<Task>)
      requires IdsAgree(files)
      modifies this`files
      ensures IdsAgree(files)
      ensures if In(old(files), id, Queued)
              then files == Performed(old(files), Transition(id, Start), now) && r == Ok(files[id].task)
              else files == old(files) && r.Err?
      ensures In(old(files), id, Queued) ==> IsStarted(old(files)[id].task, files[id], now)
    {
      if !In(files, id, Queued) {
        return Err("Task not found");
      }
      var task := files[id].task;
      task := task.(status := Running);
      task := task.(startedAt := Some(now));
      task := task.(finishedAt := None, errorSummary := None);
      Relocate(task, Queued, now);
      r := Ok(task);
    }

    method CompleteTask(id: TaskId, outcome: Outcome, now: int) returns (r: Result<Task>)
      requires IdsAgree(files)
      modifies this`files
      ensures IdsAgree(files)
      ensures if In(old(files), id, Running)
              then files == Performed(old(files), Transition(id, Complete(outcome)), now) && r == Ok(files[id].task)
              else files == old(files) && r.Err?
      ensures In(old(files), id, Running) ==>
                match outcome
                case Success => IsSucceeded(old(files)[id].task, files[id], now)
                case Failure(summary) => IsFailed(old(files)[id].task, files[id], summary, now)
    {
      if !In(files, id, Running) {
        return Err("Task not found");
      }
      var task := files[id].task;
      task := task.(status := if outcome.Success? then Succeeded else Failed);
      task := task.(finishedAt := Some(now));
      task := task.(errorSummary := if outcome.Failure? then Some(outcome.errorSummary) else None);
      Relocate(task, Running, now);
      r := Ok(task);
    }

    method RevertToQueued(id: TaskId, now: int) returns (r: Result<Task>)
      requires IdsAgree(files)
      modifies this`files
      ensures IdsAgree(files)
      ensures if In(old(files), id, Running)
              then files == Performed(old(files), Transition(id, Requeue), now) && r == Ok(files[id].task)
              else files == old(files) && r.Err?
      ensures In(old(files), id, Running) ==> IsRequeued(old(files)[id].task, files[id], now)
    {
      if !In(files, id, Running) {
        return Err("Task not found");
      }
      var task := files[id].task;
      task := task.(status := Queued);
      task := task.(startedAt := None, finishedAt := None, errorSummary := None);
      Relocate(task, Running, now);
      r := Ok(task);
    }

    method MarkSuperseded(id: TaskId, supersededBy: TaskId, now: int) returns (r: Result<Task>)
      requires IdsAgree(files)
      modifies this`files
      ensures IdsAgree(files)
      ensures if In(old(files), id, Queued)
              then files == Performed(old(files), Transition(id, Replace(supersededBy)), now) && r == Ok(files[id].task)
              else files == old(files) && r.Err?
      ensures In(old(files), id, Queued) ==> IsSuperseded(old(files)[id].task, files[id], supersededBy, now)
    {
      if !In(files, id, Queued) {
        return Err("not in queued status");
      }
      var task := files[id].task;
      task := task.(status := Superseded, supersededBy := Some(supersededBy));
      task := task.(finishedAt := Some(now), errorSummary := None);
      Relocate(task, Queued, now);
      r := Ok(task);
    }

    // The directory is read in no particular order, then sorted.
    method ListInStatus(dir: Status) returns (records: seq<Task>)
      requires IdsAgree(files)
      ensures Lists(files, dir, records)
    {
      var entries := InDirectory(files, dir);
      records := [];
      while entries != {}
        invariant entries <= InDirectory(files, dir)
        invariant forall t :: t in records ==> t.id in InDirectory(files, dir) - entries && files[t.id].task == t
        invariant forall id :: id in InDirectory(files, dir) - entries ==> files[id].task in records
        invariant DistinctIds(records)
        decreases |entries|
      {
        var entry :| entry in entries;
        entries := entries - {entry};
        records := records + [files[entry].task];
      }
      SortLists(files, dir, records);
      records := SortedByCreation(records);
    }

    method FindQueuedBySource(source: Source) returns (found: seq<Task>)
      requires IdsAgree(files)
      ensures forall t :: t in found <==> t.id in QueuedOnSource(files, source) && files[t.id].task == t
      ensures ByCreation(found) && DistinctIds(found)
    {
      var queued := ListInStatus(Queued);
      found := OnSource(queued, source);
      OnSourceFilters(queued, source);
    }

    // Every record filed under running/ becomes a failed one; `at` is when each is reached.
    method RecoverRunningTasks(errorSummary: string, at: TaskId -> int)
      requires IdsAgree(files)
      modifies this`files
      ensures files == RecoveredFiles(old(files), {}, errorSummary, at)
      ensures files.Keys == old(files).Keys
      ensures forall id :: id in files ==>
                if In(old(files), id, Running) then IsFailed(old(files)[id].task, files[id], errorSummary, at(id))
                else files[id] == old(files)[id]
    {
      var rest := ListInStatus(Running);
      ghost var was, left := files, IdsOf(rest);
      assert files == RecoveredFiles(was, left, errorSummary, at);
      while rest != []
        invariant forall t :: t in rest ==> In(was, t.id, Running) && was[t.id].task == t
        invariant DistinctIds(rest) && left == IdsOf(rest)
        invariant files == RecoveredFiles(was, left, errorSummary, at)
        decreases |rest|
      {
        var task := rest[0];
        IdsOfTail(rest);
        RecoveredOnce(was, left, task.id, errorSummary, at);
        task := task.(status := Failed, finishedAt := Some(at(task.id)), errorSummary := Some(errorSummary));
        Relocate(task, Running, at(task.id));
        rest, left := rest[1..], left - {task.id};
      }
    }

    method PruneDirectory(dir: Status, olderThan: int) returns (pruned: nat)
      modifies this`files
      ensures files == Pruned(old(files), {dir}, {}, olderThan)
      ensures pruned == |old(files).Keys| - |files.Keys|
    {
      pruned := 0;
      var entries := InDirectory(files, dir);
      ghost var was := files;
      assert files == Pruned(was, {dir}, entries, olderThan);
      while entries != {}
        invariant entries <= InDirectory(was, dir)
        invariant files == Pruned(was, {dir}, entries, olderThan)
        invariant pruned == |was.Keys| - |files.Keys|
        decreases |entries|
      {
        var entry :| entry in entries;
        PrunedOnce(was, dir, entries, entry, olderThan);
        if files[entry].mtime <= olderThan {
          files := files - {entry};
          pruned := pruned + 1;
        }
        entries := entries - {entry};
      }
    }

    method PruneTerminalTasks(olderThan: int) returns (pruned: nat)
      modifies this`files
      ensures files == map id | id in old(files) && !Prunable(old(files)[id], olderThan) :: old(files)[id]
      ensures forall id :: id in old(files) && id !in files <==>
                id in old(files) && old(files)[id].dir in {Succeeded, Failed, Superseded}
                && old(files)[id].mtime <= olderThan
      ensures pruned == |old(files).Keys| - |files.Keys|
    {
      ghost var was := files;
      var succeeded := PruneDirectory(Succeeded, olderThan);
      var failed := PruneDirectory(Failed, olderThan);
      var superseded := PruneDirectory(Superseded, olderThan);
      PrunedAll(was, olderThan);
      pruned := succeeded + failed + superseded;
    }
  }

  // `files` without the old ones in `dirs`, save those of `left`.
  function Pruned(files: Files, dirs: set<Status>, left: set<TaskId>, cutoff: int): Files {
    map id | id in files && !(files[id].dir in dirs && files[id].mtime <= cutoff && id !in left) :: files[id]
  }

  lemma PrunedOnce(files: Files, dir: Status, left: set<TaskId>, id: TaskId, cutoff: int)
    requires In(files, id, dir) && id in left
    ensures id in Pruned(files, {dir}, left, cutoff) && Pruned(files, {dir}, left, cutoff)[id] == files[id]
    ensures var before, after := Pruned(files, {dir}, left, cutoff), Pruned(files, {dir}, left - {id}, cutoff);
            after == (if files[id].mtime <= cutoff then before - {id} else before)
            && |after.Keys| == if files[id].mtime <= cutoff then |before.Keys| - 1 else |before.Keys|
  {
    var before, after := Pruned(files, {dir}, left, cutoff), Pruned(files, {dir}, left - {id}, cutoff);
    if files[id].mtime <= cutoff {
      assert after.Keys == before.Keys - {id};
    } else {
      assert after.Keys == before.Keys;
    }
  }

  lemma PrunedNext(files: Files, done: set<Status>, dir: Status, cutoff: int)
    ensures Pruned(Pruned(files, done, {}, cutoff), {dir}, {}, cutoff) == Pruned(files, done + {dir}, {}, cutoff)
  {
  }

  lemma PrunedAll(files: Files, cutoff: int)
    ensures Pruned(Pruned(Pruned(files, {Succeeded}, {}, cutoff), {Failed}, {}, cutoff), {Superseded}, {}, cutoff)
         == map id | id in files && !Prunable(files[id], cutoff) :: files[id]
  {
    PrunedNext(files, {Succeeded}, Failed, cutoff);
    PrunedNext(files, {Succeeded} + {Failed}, Superseded, cutoff);
    assert {Succeeded} + {Failed} + {Superseded} == {Succeeded, Failed, Superseded};
    assert forall id :: id in files ==> (Prunable(files[id], cutoff)
      <==> files[id].dir in {Succeeded, Failed, Superseded} && files[id].mtime <= cutoff);
  }

  predicate DistinctIds(s: seq<Task>) {
    forall i, j :: 0 <= i < j < |s| ==> s[i].id != s[j].id
  }

  function IdsOf(s: seq<Task>): set<TaskId> {
    set t | t in s :: t.id
  }

  lemma IdsOfTail(s: seq<Task>)
    requires s != [] && DistinctIds(s)
    ensures DistinctIds(s[1..])
    ensures IdsOf(s) == IdsOf(s[1..]) + {s[0].id} && s[0].id !in IdsOf(s[1..])
  {
    assert s == [s[0]] + s[1..];
  }

  // What the recovery makes of the files once all but `left` of the running records are done.
  function RecoveredFiles(files: Files, left: set<TaskId>, errorSummary: string, at: TaskId -> int): Files {
    map id | id in files ::
      if files[id].dir == Running && id !in left then Moved(files[id], Recover(errorSummary), at(id)) else files[id]
  }

  // Recovering one more record.
  lemma RecoveredOnce(files: Files, left: set<TaskId>, id: TaskId, errorSummary: string, at: TaskId -> int)
    requires id in left && In(files, id, Running)
    ensures RecoveredFiles(files, left - {id}, errorSummary, at)
         == RecoveredFiles(files, left, errorSummary, at)[id := Moved(files[id], Recover(errorSummary), at(id))]
  {
  }

  function OnSource(s: seq<Task>, source: Source): seq<Task> {
    if s == [] then [] else (if s[0].source == source then [s[0]] else []) + OnSource(s[1..], source)
  }

  lemma {:induction false} OnSourceFilters(s: seq<Task>, source: Source)
    requires ByCreation(s) && DistinctIds(s)
    ensures forall t :: t in OnSource(s, source) <==> t in s && t.source == source
    ensures ByCreation(OnSource(s, source))
    ensures DistinctIds(OnSource(s, source))
  {
    if s != [] {
      OnSourceFilters(s[1..], source);
      assert s == [s[0]] + s[1..];
      forall t | t in OnSource(s[1..], source) ensures s[0].createdAt <= t.createdAt && s[0].id != t.id {
        assert t in s[1..];
      }
    }
  }

  lemma SameMembers(s: seq<Task>, r: seq<Task>)
    requires multiset(r) == multiset(s)
    ensures forall t :: t in r <==> t in s
  {
    assert forall t :: t in r <==> t in multiset(r);
    assert forall t :: t in s <==> t in multiset(s);
  }

  lemma SortLists(files: Files, dir: Status, s: seq<Task>)
    requires forall t :: t in s ==> In(files, t.id, dir) && files[t.id].task == t
    requires forall id :: In(files, id, dir) ==> files[id].task in s
    requires DistinctIds(s)
    ensures Lists(files, dir, SortedByCreation(s))
  {
    var r := SortedByCreation(s);
    SortSorts(s);
    SameMembers(s, r);
    DistinctStay(s, r);
  }

  lemma DistinctStay(s: seq<Task>, r: seq<Task>)
    requires multiset(r) == multiset(s) && DistinctIds(s)
    requires forall t, u :: t in s && u in s && t.id == u.id ==> t == u
    ensures forall i, j :: 0 <= i < j < |r| ==> r[i].id != r[j].id
  {
    forall i, j | 0 <= i < j < |r| ensures r[i].id != r[j].id {
      if r[i].id == r[j].id {
        assert r[i] in multiset(s) && r[j] in multiset(s);
        assert r == r[..i] + [r[i]] + r[i + 1..j] + [r[j]] + r[j + 1..];
        assert multiset(r)[r[i]] >= 2;
        OnceEach(s, r[i]);
      }
    }
  }

  lemma {:induction false} OnceEach(s: seq<Task>, t: Task)
    requires DistinctIds(s)
    ensures multiset(s)[t] <= 1
  {
    if s != [] {
      OnceEach(s[1..], t);
      assert s == [s[0]] + s[1..];
    }
  }
}
