/**
 Saved steps of a task that is over, when no drop is the next step of anyone: which step of which party
 leaves them there, and that nothing else does. Whether their run drops them later is in StepsStranded.
 */
module Checkpoints {
  import opened Domain
  import opened Store
  import opened Protocol
  import opened Shape
  import opened Exclusion
  import opened Ownership

  // Queued or running, by directory.
  predicate Current(files: Files, id: TaskId) {
    In(files, id, Queued) || In(files, id, Running)
  }

  // Enqueued once, and now terminal or pruned.
  predicate Over(files: Files, born: map<TaskId, Birth>, id: TaskId) {
    id in born && (id in files ==> Terminal(files[id].dir))
  }

  /* ---- Who is about to drop whose steps ---- */

  ghost predicate RunDrops(runs: map<RunId, Run>, id: TaskId) {
    exists r :: r in runs && runs[r] == Run(id, Dropping)
  }

  ghost predicate EnqueueDrops(enqueues: map<TaskId, EnqueuePc>, id: TaskId) {
    exists e :: e in enqueues && enqueues[e].DroppingOld? && enqueues[e].victim == id
  }

  predicate MainDrops(pc: MainPc, id: TaskId) {
    pc.DroppingStale? && pc.stale == id
  }

  // The boot has yet to sweep the steps of `id`.
  predicate Unswept(pc: MainPc, id: TaskId) {
    || pc.BootStart? || pc.Recovering?
    || (pc.ListingActive? && id !in pc.ids) || (pc.ListingFiles? && id !in pc.ids)
    || (pc.SweepingCheckpoints? && id !in pc.activeIds)
  }

  ghost predicate DropPending(s: State, id: TaskId) {
    RunDrops(s.runs, id) || EnqueueDrops(s.enqueues, id) || MainDrops(s.main, id)
  }

  /* ---- Orphans ---- */

  // The steps of `id`, should it have any, are still wanted, to be swept, or the next to be dropped.
  ghost predicate Covered(s: State, id: TaskId) {
    Current(s.files, id) || DropPending(s, id) || Unswept(s.main, id)
  }

  ghost predicate Orphaned(s: State, id: TaskId) {
    id in s.saved && !Covered(s, id)
  }

  // A live run of `id` saves a step although its record is no longer in running/, when nobody is about
  // to drop the task's steps.
  ghost predicate Stray(s: State, l: Label, id: TaskId) {
    && l.OfRun? && l.runAct.SaveStep? && RunEnabled(s, l.run, l.runAct) && s.runs[l.run].task == id
    && !Current(s.files, id) && !DropPending(s, id)
  }

  // A store call ends a task only by a completion, a supersede or a recovery of it.
  lemma CurrentAfterCall(files: Files, call: StoreCall, clock: int, id: TaskId)
    requires Current(files, id)
    requires call.Unlink? && call.id in files ==> Terminal(files[call.id].dir)
    requires call.Put? ==> call.task.status == Queued
    requires call.Transition? && call.id == id ==> call.move.Start? || call.move.Requeue?
    ensures Current(Performed(files, call, clock), id)
  {
  }

  lemma OrphansInMain(c: Config, s: State, a: MainAct, id: TaskId)
    requires SlotsOk(s.files, s.born, s.clock) && PruneOk(s.main) && MainEnabled(s, a) && id in MainSaved(s, a)
    requires Current(s.files, id) || MainDrops(s.main, id) || Unswept(s.main, id)
    ensures Current(Performed(s.files, MainCall(c, s, a), s.clock), id)
            || MainDrops(MainAfter(c, s, a), id) || Unswept(MainAfter(c, s, a), id)
  {
    var call := MainCall(c, s, a);
    if a.BootFile? && !Current(s.files, id) {
      if id in s.files { assert SlotOk(s.files[id], id, s.born, s.clock); }
    } else if Current(s.files, id) && !(call.Transition? && call.id == id && !call.move.Start?) {
      CurrentAfterCall(s.files, call, s.clock, id);
    }
  }

  lemma RunDropsOn(s: State, r: RunId, a: RunAct, runs': map<RunId, Run>, id: TaskId)
    requires RunEnabled(s, r, a) && RunDrops(s.runs, id)
    requires a.DropSteps? ==> s.runs[r].task != id
    requires runs' == s.runs - {r} || (r in runs' && runs' == s.runs[r := runs'[r]])
    ensures RunDrops(runs', id)
  {
    var q :| q in s.runs && s.runs[q] == Run(id, Dropping);
    assert q != r;
    assert q in runs' && runs'[q] == Run(id, Dropping);
  }

  lemma OrphansInRun(c: Config, s: State, r: RunId, a: RunAct, id: TaskId)
    requires RunEnabled(s, r, a) && id in RunSaved(s, r, a)
    requires a.SaveStep? && s.runs[r].task == id ==> Current(s.files, id) || RunDrops(s.runs, id)
    requires id in s.saved ==> Current(s.files, id) || RunDrops(s.runs, id)
    ensures Current(RunStep(c, s, r, a).files, id) || RunDrops(RunStep(c, s, r, a).runs, id)
  {
    var s' := RunStep(c, s, r, a);
    var call := RunCall(s, r, a);
    if RunDrops(s.runs, id) {
      RunDropsOn(s, r, a, s'.runs, id);
    } else if a.CompleteTask? && id == s.runs[r].task {
      assert s'.runs[r] == Run(id, Dropping);
    } else {
      CurrentAfterCall(s.files, call, s.clock, id);
    }
  }

  lemma OrphansInEnqueue(s: State, e: TaskId, a: EnqueueAct, id: TaskId)
    requires EnqueueEnabled(s, e, a) && id in EnqueueStep(s, e, a).saved
    requires a.Insert? ==> e !in s.enqueues
    requires Current(s.files, id) || EnqueueDrops(s.enqueues, id)
    ensures Current(EnqueueStep(s, e, a).files, id) || EnqueueDrops(EnqueueStep(s, e, a).enqueues, id)
  {
    var s' := EnqueueStep(s, e, a);
    var call := EnqueueCall(s, e, a);
    if EnqueueDrops(s.enqueues, id) {
      var f :| f in s.enqueues && s.enqueues[f].DroppingOld? && s.enqueues[f].victim == id;
      assert f in s'.enqueues && s'.enqueues[f] == s.enqueues[f];
    } else if call.Transition? && call.id == id {
      assert s'.enqueues[e].DroppingOld? && s'.enqueues[e].victim == id;
    } else {
      CurrentAfterCall(s.files, call, s.clock, id);
    }
  }

  lemma RunDropsKept(c: Config, s: State, a: MainAct, id: TaskId)
    requires RunsOk(s.runs, s.active, s.nextRun, s.born.Keys) && MainEnabled(s, a) && RunDrops(s.runs, id)
    ensures RunDrops(MainStep(c, s, a).runs, id)
  {
    var r :| r in s.runs && s.runs[r] == Run(id, Dropping);
    assert r in MainStep(c, s, a).runs && MainStep(c, s, a).runs[r] == Run(id, Dropping);
  }

  lemma NotOrphanedByMain(c: Config, s: State, a: MainAct, id: TaskId)
    requires SlotsOk(s.files, s.born, s.clock) && RunsOk(s.runs, s.active, s.nextRun, s.born.Keys) && PruneOk(s.main)
    requires MainEnabled(s, a) && Covered(s, id)
    ensures !Orphaned(MainStep(c, s, a), id)
  {
    var s' := MainStep(c, s, a);
    assert s'.enqueues == s.enqueues && s'.main == MainAfter(c, s, a);
    if id in MainSaved(s, a) {
      if RunDrops(s.runs, id) {
        RunDropsKept(c, s, a, id);
      } else if !EnqueueDrops(s.enqueues, id) {
        OrphansInMain(c, s, a, id);
      }
    }
  }

  lemma NotOrphanedByRun(c: Config, s: State, r: RunId, a: RunAct, id: TaskId)
    requires RunEnabled(s, r, a) && !Orphaned(s, id) && !Stray(s, OfRun(r, a), id)
    ensures !Orphaned(RunStep(c, s, r, a), id)
  {
    if !EnqueueDrops(s.enqueues, id) && !MainDrops(s.main, id) && !Unswept(s.main, id) && id in RunSaved(s, r, a) {
      OrphansInRun(c, s, r, a, id);
    }
  }

  lemma NotOrphanedByEnqueue(s: State, e: TaskId, a: EnqueueAct, id: TaskId)
    requires EnqueueEnabled(s, e, a) && !Orphaned(s, id) && (a.Insert? ==> e !in s.enqueues)
    ensures !Orphaned(EnqueueStep(s, e, a), id)
  {
    var s' := EnqueueStep(s, e, a);
    if id in s'.saved && !RunDrops(s.runs, id) && !MainDrops(s.main, id) && !Unswept(s.main, id) {
      OrphansInEnqueue(s, e, a, id);
    }
  }

  lemma StrayOrphans(c: Config, s: State, l: Label, id: TaskId)
    requires BootAlone(s) && Stray(s, l, id)
    ensures Orphaned(RunStep(c, s, l.run, l.runAct), id)
  {
    var s' := RunStep(c, s, l.run, l.runAct);
    assert s'.runs == s.runs;
    assert !InBoot(s.main);
  }

  // One step: saved steps come to be so by a stray save and by nothing else.
  lemma OrphanedOnlyByStrays(c: Config, s: State, l: Label, s': State, id: TaskId)
    requires Wf(s) && !Orphaned(s, id) && Next(c, s, l, s')
    ensures Orphaned(s', id) <==> Stray(s, l, id)
  {
    match l
    case Main(a) =>
      if id in s.saved { NotOrphanedByMain(c, s, a, id); }
    case OfRun(r, a) =>
      if Stray(s, l, id) { StrayOrphans(c, s, l, id); } else { NotOrphanedByRun(c, s, r, a, id); }
    case OfEnqueue(e, a) => NotOrphanedByEnqueue(s, e, a, id);
    case _ =>
  }

  lemma {:induction false} StrayBefore(c: Config, t: Trace, i: nat, id: TaskId) returns (k: nat)
    requires Behavior(c, t) && i < |t.states| && Orphaned(t.states[i], id)
    ensures k < i && Stray(t.states[k], t.labels[k], id)
  {
    var s := t.states[i - 1];
    if Orphaned(s, id) {
      k := StrayBefore(c, t, i - 1, id);
    } else {
      WfAt(c, t, i - 1);
      OrphanedOnlyByStrays(c, s, t.labels[i - 1], t.states[i], id);
      k := i - 1;
    }
  }

  // In every behaviour, with no assumption: some state up to the n-th shows saved steps of a task that
  // is neither queued nor running, still to be swept nor the next to be dropped by anyone, exactly when
  // some step before was a stray save.
  lemma ExactlyWhenOrphaned(c: Config, t: Trace, n: nat, id: TaskId)
    requires Behavior(c, t) && n < |t.states|
    ensures (exists i :: 0 <= i <= n && Orphaned(t.states[i], id))
       <==> (exists k :: 0 <= k < n && Stray(t.states[k], t.labels[k], id))
  {
    if i :| 0 <= i <= n && Orphaned(t.states[i], id) {
      var k := StrayBefore(c, t, i, id);
    }
    if k :| 0 <= k < n && Stray(t.states[k], t.labels[k], id) {
      WfAt(c, t, k);
      assert Next(c, t.states[k], t.labels[k], t.states[k + 1]);
      if !Orphaned(t.states[k], id) {
        OrphanedOnlyByStrays(c, t.states[k], t.labels[k], t.states[k + 1], id);
      }
    }
  }

  lemma HolderIsNoStray(s: State, l: Label, id: TaskId)
    requires Stray(s, l, id)
    ensures Owner(s, l.run) && s.runs[l.run].task == id && !HoldsRecord(s, l.run)
  {
  }

  // In particular, for a task restarted only after its last run has settled: from the boot's sweep on
  // it has saved steps only while queued or running, or while its terminal transition has been made
  // and the drop is the next thing its maker does.
  lemma OnlyCurrentTasksHaveSteps(c: Config, t: Trace, i: nat, id: TaskId)
    requires Behavior(c, t) && i < |t.states| && SettledStarts(c, t, i, id)
    requires !InBoot(t.states[i].main) || t.states[i].main.Pruning?
    requires id in t.states[i].saved
    ensures Current(t.states[i].files, id) || DropPending(t.states[i], id)
  {
    if Orphaned(t.states[i], id) {
      var k := StrayBefore(c, t, i, id);
      LiveRunsHoldTheirRecords(c, t, k, id);
      HolderIsNoStray(t.states[k], t.labels[k], id);
    }
  }
}
