/**
 No saved step is lost while its task goes on: steps outlive starts, requeues, crashes and boots. The
 one thing that loses them is a completion that fails, because the program drops the steps all the same.
 */
module StepsKept {
  import opened Domain
  import opened Store
  import opened Protocol
  import opened Walks
  import opened Shape
  import opened Exclusion
  import opened Ownership
  import opened OwnershipLost
  import opened Checkpoints

  /* ---- Once over, always over ---- */

  lemma OverAfterCall(files: Files, born: map<TaskId, Birth>, call: StoreCall, clock: int, id: TaskId)
    requires Over(files, born, id)
    requires call.Put? ==> call.task.id !in born
    requires call.Transition? ==> In(files, call.id, From(call.move))
    ensures Over(Performed(files, call, clock), born, id)
  {
  }

  lemma OverStays(c: Config, s: State, l: Label, s': State, id: TaskId)
    requires Next(c, s, l, s') && Over(s.files, s.born, id)
    ensures Over(s'.files, s'.born, id)
  {
    match l
    case Main(a) => OverAfterCall(s.files, s.born, MainCall(c, s, a), s.clock, id);
    case OfRun(r, a) => OverAfterCall(s.files, s.born, RunCall(s, r, a), s.clock, id);
    case OfEnqueue(e, a) => OverAfterCall(s.files, s.born, EnqueueCall(s, e, a), s.clock, id);
    case _ =>
  }

  // A transition that ends a task leaves it over.
  lemma EndsOver(files: Files, born: map<TaskId, Birth>, id: TaskId, move: Move, clock: int)
    requires In(files, id, From(move)) && id in born && !move.Start? && !move.Requeue?
    ensures Over(Performed(files, Transition(id, move), clock), born, id)
  {
  }

  // A completion that does not fail leaves its task over: the task of a live run is not in queued/.
  lemma CompletedIsOver(c: Config, s: State, r: RunId, s': State)
    requires RunsOk(s.runs, s.active, s.nextRun, s.born.Keys) && OneOwner(s)
    requires Next(c, s, OfRun(r, CompleteTask(true)), s')
    ensures Over(s'.files, s'.born, s.runs[r].task)
  {
    var id := s.runs[r].task;
    assert Owner(s, r) && !In(s.files, id, Queued);
    if In(s.files, id, Running) {
      EndsOver(s.files, s.born, id, Complete(s.runs[r].pc.outcome), s.clock);
    }
  }

  /* ---- Drops by the sweep, by supersedes and by the boot ---- */

  // None of them threatens the steps of a task that goes on.
  ghost predicate Kept(s: State, id: TaskId) {
    && (id in s.saved ==> id in s.born)
    && (EnqueueDrops(s.enqueues, id) || MainDrops(s.main, id) ==> Over(s.files, s.born, id))
    && (id in s.saved && Live(s.files, id) ==> Heeded(s.main, id, s.files[id].dir))
  }

  // The boot's listing has the task on its list, or has still to come to its file.
  predicate Heeded(pc: MainPc, id: TaskId, dir: Status) {
    match pc
    case ListingActive(toRead, ids) => id in ids || dir in toRead
    case ListingFiles(toRead, unseen, ids) =>
      toRead != [] && (id in ids || dir in toRead[1..] || (dir == toRead[0] && id in unseen))
    case SweepingCheckpoints(activeIds) => id in activeIds
    case _ => true
  }

  predicate BootListing(pc: MainPc) {
    pc.ListingActive? || pc.ListingFiles? || pc.SweepingCheckpoints?
  }

  lemma HeededMain(c: Config, s: State, a: MainAct, id: TaskId)
    requires MainEnabled(s, a) && Live(s.files, id) && Heeded(s.main, id, s.files[id].dir)
    requires BootListing(MainAfter(c, s, a)) && s.files[id].dir in TASK_STATUSES
    ensures MainCall(c, s, a) == NoCall && Heeded(MainAfter(c, s, a), id, s.files[id].dir)
  {
    if a.BootDirectory? || a.BootNext? {
      assert s.main.toRead == [s.main.toRead[0]] + s.main.toRead[1..];
    }
  }

  lemma BootCallsNothing(c: Config, s: State, a: MainAct)
    requires MainEnabled(s, a) && BootListing(MainAfter(c, s, a))
    ensures MainCall(c, s, a) == NoCall
  {
  }

  lemma EveryStatusIsRead(dir: Status)
    ensures dir in TASK_STATUSES
  {
    assert TASK_STATUSES[0] == Queued && TASK_STATUSES[1] == Running && TASK_STATUSES[2] == Succeeded;
    assert TASK_STATUSES[3] == Failed && TASK_STATUSES[4] == Superseded;
  }

  lemma StillHeeded(c: Config, s: State, a: MainAct, id: TaskId)
    requires MainEnabled(s, a) && (id in s.saved && Live(s.files, id) ==> Heeded(s.main, id, s.files[id].dir))
    ensures var s' := MainStep(c, s, a);
            id in s'.saved && Live(s'.files, id) ==> Heeded(s'.main, id, s'.files[id].dir)
  {
    var s' := MainStep(c, s, a);
    if BootListing(s'.main) && id in s'.saved && Live(s'.files, id) {
      BootCallsNothing(c, s, a);
      EveryStatusIsRead(s.files[id].dir);
      HeededMain(c, s, a, id);
    }
  }

  lemma SweptIsOver(c: Config, s: State, a: MainAct, id: TaskId)
    requires SlotsOk(s.files, s.born, s.clock) && MainEnabled(s, a) && !MainDrops(s.main, id)
    requires MainDrops(MainAfter(c, s, a), id)
    ensures Over(Performed(s.files, MainCall(c, s, a), s.clock), s.born, id)
  {
    var call := MainCall(c, s, a);
    assert SlotOk(s.files[id], id, s.born, s.clock);
    EndsOver(s.files, s.born, id, call.move, s.clock);
  }

  lemma MainDropsOver(c: Config, s: State, a: MainAct, id: TaskId)
    requires SlotsOk(s.files, s.born, s.clock) && MainEnabled(s, a)
    requires MainDrops(s.main, id) ==> Over(s.files, s.born, id)
    ensures var files := Performed(s.files, MainCall(c, s, a), s.clock);
            && (Over(s.files, s.born, id) ==> Over(files, s.born, id))
            && (MainDrops(MainAfter(c, s, a), id) ==> Over(files, s.born, id))
  {
    if Over(s.files, s.born, id) {
      OverAfterCall(s.files, s.born, MainCall(c, s, a), s.clock, id);
    } else if MainDrops(MainAfter(c, s, a), id) {
      SweptIsOver(c, s, a, id);
    }
  }

  lemma KeptMain(c: Config, s: State, a: MainAct, id: TaskId)
    requires SlotsOk(s.files, s.born, s.clock) && Kept(s, id) && MainEnabled(s, a)
    ensures Kept(MainStep(c, s, a), id)
  {
    assert MainStep(c, s, a).enqueues == s.enqueues;
    MainDropsOver(c, s, a, id);
    StillHeeded(c, s, a, id);
  }

  lemma KeptRun(c: Config, s: State, r: RunId, a: RunAct, id: TaskId)
    requires Wf(s) && Kept(s, id) && RunEnabled(s, r, a)
    ensures Kept(RunStep(c, s, r, a), id)
  {
    if Over(s.files, s.born, id) {
      OverAfterCall(s.files, s.born, RunCall(s, r, a), s.clock, id);
    }
    assert s.runs[r].task in s.born;
    assert !BootListing(s.main);
  }

  lemma LiveAfterReplace(files: Files, call: StoreCall, clock: int, id: TaskId)
    requires call.Transition? ==> call.move.Replace?
    requires !call.Unlink? && Live(Performed(files, call, clock), id)
    ensures (Live(files, id) && Performed(files, call, clock)[id].dir == files[id].dir)
            || (call.Put? && call.task.id == id)
  {
  }

  lemma EnqueueDropsAfter(s: State, e: TaskId, a: EnqueueAct, id: TaskId)
    requires EnqueueEnabled(s, e, a) && EnqueueDrops(EnqueueStep(s, e, a).enqueues, id)
    ensures EnqueueDrops(s.enqueues, id) || (EnqueueCall(s, e, a).Transition? && EnqueueCall(s, e, a).id == id)
  {
    var s' := EnqueueStep(s, e, a);
    var f :| f in s'.enqueues && s'.enqueues[f].DroppingOld? && s'.enqueues[f].victim == id;
    if f != e { assert f in s.enqueues && s.enqueues[f] == s'.enqueues[f]; }
  }

  lemma KeptEnqueue(s: State, e: TaskId, a: EnqueueAct, id: TaskId)
    requires Wf(s) && Kept(s, id) && EnqueueEnabled(s, e, a)
    ensures Kept(EnqueueStep(s, e, a), id)
  {
    var s' := EnqueueStep(s, e, a);
    var call := EnqueueCall(s, e, a);
    if Over(s.files, s.born, id) {
      OverAfterCall(s.files, s.born, call, s.clock, id);
    } else if EnqueueDrops(s'.enqueues, id) {
      EnqueueDropsAfter(s, e, a, id);
      assert SlotOk(s.files[id], id, s.born, s.clock);
      EndsOver(s.files, s.born, id, call.move, s.clock);
    }
    if Live(s'.files, id) { LiveAfterReplace(s.files, call, s.clock, id); }
  }

  lemma KeptStep(c: Config, s: State, l: Label, s': State, id: TaskId)
    requires Wf(s) && Kept(s, id) && Next(c, s, l, s')
    ensures Kept(s', id)
  {
    match l
    case Main(a) => KeptMain(c, s, a, id);
    case OfRun(r, a) => KeptRun(c, s, r, a, id);
    case OfEnqueue(e, a) => KeptEnqueue(s, e, a, id);
    case _ =>
  }

  lemma {:induction false} KeptAlong(c: Config, t: Trace, i: nat, id: TaskId)
    requires Behavior(c, t) && i < |t.states|
    ensures Kept(t.states[i], id)
  {
    if i > 0 {
      KeptAlong(c, t, i - 1, id);
      WfAt(c, t, i - 1);
      KeptStep(c, t.states[i - 1], t.labels[i - 1], t.states[i], id);
    }
  }

  /* ---- Which step loses steps ---- */

  predicate LosesSteps(s: State, s': State, id: TaskId) {
    !(StepsOf(s.saved, id) <= StepsOf(s'.saved, id))
  }

  predicate RunOfDrops(s: State, l: Label, id: TaskId) {
    l.OfRun? && l.runAct.DropSteps? && l.run in s.runs && s.runs[l.run].task == id
  }

  lemma MainLosesNothing(s: State, a: MainAct, id: TaskId)
    requires MainEnabled(s, a) && Kept(s, id) && Live(s.files, id) && !Over(s.files, s.born, id)
    ensures StepsOf(s.saved, id) == StepsOf(MainSaved(s, a), id)
  {
  }

  lemma EnqueueLosesNothing(s: State, e: TaskId, a: EnqueueAct, id: TaskId)
    requires EnqueueEnabled(s, e, a) && Kept(s, id) && !Over(s.files, s.born, id)
    ensures StepsOf(s.saved, id) == StepsOf(EnqueueStep(s, e, a).saved, id)
  {
  }

  // A task that goes on loses saved steps exactly when a run of it drops them.
  lemma LosesOnlyByDrop(c: Config, s: State, l: Label, s': State, id: TaskId)
    requires SlotsOk(s.files, s.born, s.clock) && Kept(s, id) && Next(c, s, l, s') && Live(s.files, id)
    ensures LosesSteps(s, s', id) <==> RunOfDrops(s, l, id) && StepsOf(s.saved, id) != {}
  {
    assert SlotOk(s.files[id], id, s.born, s.clock);
    match l
    case Main(a) => MainLosesNothing(s, a, id);
    case OfEnqueue(e, a) => EnqueueLosesNothing(s, e, a, id);
    case _ =>
  }

  predicate FailsToComplete(l: Label, r: RunId) {
    l == OfRun(r, CompleteTask(false))
  }

  lemma DroppedEarlier(c: Config, s: State, l: Label, s': State, r: RunId)
    requires RunsOk(s.runs, s.active, s.nextRun, s.born.Keys) && OneOwner(s) && Next(c, s, l, s')
    requires r in s'.runs && s'.runs[r].pc.Dropping? && !Over(s'.files, s'.born, s'.runs[r].task)
    requires !FailsToComplete(l, r)
    ensures r in s.runs && s.runs[r] == s'.runs[r] && !Over(s.files, s.born, s.runs[r].task)
  {
    if l == OfRun(r, CompleteTask(true)) { CompletedIsOver(c, s, r, s'); }
    if Over(s.files, s.born, s'.runs[r].task) { OverStays(c, s, l, s', s'.runs[r].task); }
  }

  lemma DroppedBefore(c: Config, t: Trace, k: nat, r: RunId)
    requires Behavior(c, t) && k < |t.states| && r in t.states[k].runs && t.states[k].runs[r].pc.Dropping?
    requires !Over(t.states[k].files, t.states[k].born, t.states[k].runs[r].task)
    ensures k > 0
    ensures FailsToComplete(t.labels[k - 1], r)
         || (var s := t.states[k - 1];
             r in s.runs && s.runs[r].pc.Dropping? && !Over(s.files, s.born, s.runs[r].task))
  {
    OneOwnerAlong(c, t, k - 1);
    if !FailsToComplete(t.labels[k - 1], r) {
      DroppedEarlier(c, t.states[k - 1], t.labels[k - 1], t.states[k], r);
    }
  }

  // A run about to drop the steps of a task that is not over has failed to complete it.
  lemma {:induction false} DropsTooEarly(c: Config, t: Trace, k: nat, r: RunId) returns (m: nat)
    requires Behavior(c, t) && k < |t.states| && r in t.states[k].runs && t.states[k].runs[r].pc.Dropping?
    requires !Over(t.states[k].files, t.states[k].born, t.states[k].runs[r].task)
    ensures m < k && FailsToComplete(t.labels[m], r)
  {
    DroppedBefore(c, t, k, r);
    if FailsToComplete(t.labels[k - 1], r) {
      m := k - 1;
    } else {
      m := DropsTooEarly(c, t, k - 1, r);
    }
  }

  // In every behaviour, with no assumption: a step loses saved steps of a queued or running task only if
  // it is the drop of a run of that very task whose completion had failed.
  lemma LostOnlyAfterAFailedCompletion(c: Config, t: Trace, k: nat, id: TaskId) returns (m: nat)
    requires Behavior(c, t) && k < |t.labels| && Live(t.states[k].files, id)
    requires LosesSteps(t.states[k], t.states[k + 1], id)
    ensures RunOfDrops(t.states[k], t.labels[k], id) && m < k && FailsToComplete(t.labels[m], t.labels[k].run)
  {
    var s, l := t.states[k], t.labels[k];
    WfAt(c, t, k);
    KeptAlong(c, t, k, id);
    assert Next(c, s, l, t.states[k + 1]);
    LosesOnlyByDrop(c, s, l, t.states[k + 1], id);
    assert SlotOk(s.files[id], id, s.born, s.clock);
    m := DropsTooEarly(c, t, k, l.run);
  }

  // And a completion that fails can lose all of them: the two next steps of the run do, while the record
  // stays as it is.
  lemma FailedCompletionForgets(c: Config, s: State, r: RunId) returns (w: Walk, u: State)
    requires RunEnabled(s, r, CompleteTask(false))
    ensures Leads(c, s, w, u) && u.files == s.files && StepsOf(u.saved, s.runs[r].task) == {}
  {
    var m := RunStep(c, s, r, CompleteTask(false));
    u := RunStep(c, m, r, DropSteps);
    OneStep(c, s, OfRun(r, CompleteTask(false)), m);
    OneStep(c, m, OfRun(r, DropSteps), u);
    w := And(c, s, Then(OfRun(r, CompleteTask(false)), m, Here), m, Then(OfRun(r, DropSteps), u, Here), u);
  }

  // No completion of `id` failed in the first n steps.
  ghost predicate CompletionsSucceed(t: Trace, n: nat, id: TaskId)
    requires n <= |t.labels| < |t.states|
  {
    forall m, r :: 0 <= m < n && FailsToComplete(t.labels[m], r) && r in t.states[m].runs ==>
      t.states[m].runs[r].task != id
  }

  lemma TraceKeepsSteps(c: Config, t: Trace, k: nat, id: TaskId)
    requires Behavior(c, t) && k < |t.labels| && CompletionsSucceed(t, k, id) && Live(t.states[k].files, id)
    ensures StepsOf(t.states[k].saved, id) <= StepsOf(t.states[k + 1].saved, id)
  {
    if LosesSteps(t.states[k], t.states[k + 1], id) {
      var m := LostOnlyAfterAFailedCompletion(c, t, k, id);
      var r := t.labels[k].run;
      assert Next(c, t.states[m], t.labels[m], t.states[m + 1]);
      TaskAlong(c, t, m, k, r);
    }
  }

  lemma {:induction false} GrowsAlong(states: seq<State>, i: nat, j: nat, id: TaskId)
    requires i <= j < |states| && forall k :: i <= k < j ==> !LosesSteps(states[k], states[k + 1], id)
    ensures StepsOf(states[i].saved, id) <= StepsOf(states[j].saved, id)
  {
    if i < j {
      GrowsAlong(states, i, j - 1, id);
      assert !LosesSteps(states[j - 1], states[j], id);
    }
  }

  // While a task is queued or running, its saved steps only grow, if its own completions do not fail:
  // through starts, any number of rate-limit requeues, overtaken runs, whatever happens to other
  // tasks, crashes and the boots after them.
  lemma StepsSurvive(c: Config, t: Trace, i: nat, j: nat, id: TaskId)
    requires Behavior(c, t) && i <= j < |t.states| && CompletionsSucceed(t, j, id)
    requires forall k :: i <= k < j ==> Live(t.states[k].files, id)
    ensures StepsOf(t.states[i].saved, id) <= StepsOf(t.states[j].saved, id)
  {
    forall k | i <= k < j ensures !LosesSteps(t.states[k], t.states[k + 1], id) {
      TraceKeepsSteps(c, t, k, id);
    }
    GrowsAlong(t.states, i, j, id);
  }
}
