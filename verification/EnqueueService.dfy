/**
 The enqueue service: insert first, then supersede what was queued on the same source.
 `Protocol` lets other parties in between; here the call runs alone.
 */
module EnqueueService {
  import opened Domain
  import opened Store
  import opened Protocol
  import opened QueueStore

  // Which instructions have a strategy, and whether it supersedes on the same source.
  type Policies = map<Instruction, bool>

  predicate Supersedes(policies: Policies, instruction: Instruction) {
    instruction in policies && policies[instruction]
  }

  // `id` is queued on the new task's source and both strategies supersede.
  predicate Conflict(policies: Policies, files: Files, newTask: Task, id: TaskId) {
    && Supersedes(policies, newTask.instruction)
    && In(files, id, Queued) && files[id].task.source == newTask.source
    && id != newTask.id && Supersedes(policies, files[id].task.instruction)
  }

  // A record in queued/ on the source that an enqueue with this instruction makes way for: the strategies
  // of both supersede.
  predicate Supersedable(policies: Policies, slot: Slot, source: Source, instruction: Instruction) {
    && instruction in policies && policies[instruction]
    && slot.dir == Queued && slot.task.source == source
    && slot.task.instruction in policies && policies[slot.task.instruction]
  }

  // Every conflict outside `left` replaced by the new task.
  function Replaced(policies: Policies, files: Files, newTask: Task, left: set<TaskId>, now: int): Files {
    map id | id in files ::
      if id !in left && Conflict(policies, files, newTask, id) then Moved(files[id], Replace(newTask.id), now)
      else files[id]
  }

  class EnqueueService {
    const policies: Policies
    const queueStore: FileQueueStore

    constructor (policies: Policies, queueStore: FileQueueStore)
      ensures this.policies == policies && this.queueStore == queueStore
    {
      this.policies, this.queueStore := policies, queueStore;
    }

    // Replaces every conflict among the tasks found.
    method SupersedeConflicts(newTask: Task, conflicts: seq<Task>, now: int)
      requires IdsAgree(queueStore.files) && DistinctIds(conflicts)
      requires forall t :: t in conflicts <==>
                 t.id in QueuedOnSource(queueStore.files, newTask.source) && queueStore.files[t.id].task == t
      requires Supersedes(policies, newTask.instruction)
      modifies queueStore`files
      ensures queueStore.files == Replaced(policies, old(queueStore.files), newTask, {}, now)
    {
      ghost var was, left := queueStore.files, IdsOf(conflicts);
      var rest := conflicts;
      assert queueStore.files == Replaced(policies, was, newTask, left, now);
      while rest != []
        invariant IdsAgree(queueStore.files)
        invariant DistinctIds(rest) && left == IdsOf(rest)
        invariant forall t :: t in rest ==> t in conflicts
        invariant queueStore.files == Replaced(policies, was, newTask, left, now)
        decreases |rest|
      {
        var task := rest[0];
        IdsOfTail(rest);
        ReplacedOnce(policies, was, newTask, left, task.id, now);
        if task.id != newTask.id && task.instruction in policies && policies[task.instruction] {
          var marked := queueStore.MarkSuperseded(task.id, newTask.id, now);
        }
        rest, left := rest[1..], left - {task.id};
      }
    }

    method Enqueue(id: TaskId, source: Source, instruction: Instruction, now: int) returns (r: Result<Task>)
      requires IdsAgree(queueStore.files)
      modifies queueStore
      ensures instruction !in policies ==> r.Err? && queueStore.files == old(queueStore.files)
      ensures instruction in policies ==>
                && r == Ok(NewTask(id, source, instruction, queueStore.lastCreatedAtMs))
                && queueStore.files ==
                     Replaced(policies, Performed(old(queueStore.files), Put(r.value), now), r.value, {}, now)
      ensures instruction in policies ==>
                && queueStore.files.Keys == old(queueStore.files).Keys + {id}
                && queueStore.files[id] == Slot(Queued, r.value, now)
                && forall k :: k in old(queueStore.files) && k != id ==>
                     if Supersedable(policies, old(queueStore.files)[k], source, instruction)
                     then IsSuperseded(old(queueStore.files)[k].task, queueStore.files[k], id, now)
                     else queueStore.files[k] == old(queueStore.files)[k]
    {
      if instruction !in policies {
        return Err("Unknown instructionId");
      }
      var newTask := queueStore.Enqueue(id, source, instruction, now);
      if policies[instruction] {
        var conflicts := queueStore.FindQueuedBySource(source);
        SupersedeConflicts(newTask, conflicts, now);
      } else {
        assert queueStore.files == Replaced(policies, queueStore.files, newTask, {}, now);
      }
      r := Ok(newTask);
    }
  }

  lemma ReplacedOnce(policies: Policies, files: Files, newTask: Task, left: set<TaskId>, id: TaskId, now: int)
    requires id in left && id in files
    ensures Replaced(policies, files, newTask, left, now)[id] == files[id]
    ensures Replaced(policies, files, newTask, left - {id}, now) ==
              if Conflict(policies, files, newTask, id)
              then Performed(Replaced(policies, files, newTask, left, now), Transition(id, Replace(newTask.id)), now)
              else Replaced(policies, files, newTask, left, now)
  {
  }

  // Afterwards the new task is queued and is the only one on its source that its strategy could have
  // superseded; every record it did not replace is as before, and those it did name it.
  lemma OnlyTheNewOneWaits(policies: Policies, files: Files, newTask: Task, now: int)
    requires newTask.id in files && files[newTask.id] == Slot(Queued, newTask, now)
    requires newTask.status == Queued && Supersedes(policies, newTask.instruction)
    ensures var after := Replaced(policies, files, newTask, {}, now);
            && (forall id ::
                  id in QueuedOnSource(after, newTask.source) && Supersedes(policies, after[id].task.instruction)
                  <==> id == newTask.id)
            && (forall id :: id in files && !(In(files, id, Queued) && In(after, id, Superseded)) ==>
                  after[id] == files[id])
            && (forall id :: In(files, id, Queued) && In(after, id, Superseded) ==>
                  id != newTask.id && after[id].task.supersededBy == Some(newTask.id)
                  && after[id].task.source == newTask.source)
  {
    var after := Replaced(policies, files, newTask, {}, now);
    assert newTask.id in QueuedOnSource(after, newTask.source);
  }
}
