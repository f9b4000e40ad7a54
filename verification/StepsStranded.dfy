/**
 Which saved steps are left behind until the next boot, and by what.

 A live run that has lost its record can still save steps (a stray save). If its strategy goes on to
 return an outcome, the run drops them itself, although its completion throws. They are left behind
 exactly when the run ends in a rate limit instead: then nobody drops them before the next boot.
 */
module StepsStranded {
  import opened Domain
  import opened Store
  import opened Protocol
  import opened Walks
  import opened Shape
  import opened Exclusion
  import opened Ownership
  import opened OwnershipLost
  import opened Checkpoints
  import opened StepsKept

  // A run of `id` that may still come to drop its steps.
  predicate MayDrop(s: State, r: RunId, id: TaskId) {
    r in s.runs && s.runs[r].task == id && (s.runs[r].pc.Executing? || s.runs[r].pc.Completing?)
  }

  // Saved steps of a task neither queued nor running, with no drop or sweep coming from anyone.
  ghost predicate Stranded(s: State, id: TaskId) {
    Orphaned(s, id) && forall r :: !MayDrop(s, r, id)
  }

  // A live run of `id` ends in a rate limit although its record is gone, when its task has saved steps
  // that nobody is about to drop.
  ghost predicate Strands(s: State, l: Label, id: TaskId) {
    && l.OfRun? && (l.runAct.ReturnsRateLimited? || l.runAct.ThrowsGithubLimit?)
    && RunEnabled(s, l.run, l.runAct) && s.runs[l.run].task == id
    && id in s.saved && !Current(s.files, id) && !DropPending(s, id)
  }

  /* ---- A rate limit strands ---- */

  lemma OtherIsNoOwner(s: State, r: RunId, q: RunId)
    requires OneOwner(s) && Owner(s, r) && q in s.runs && q != r && s.runs[q].task == s.runs[r].task
    ensures !Owner(s, q)
  {
  }

  lemma RateLimitStrands(c: Config, s: State, l: Label, id: TaskId)
    requires BootAlone(s) && OneOwner(s) && Strands(s, l, id)
    ensures Stranded(RunStep(c, s, l.run, l.runAct), id)
  {
    var s' := RunStep(c, s, l.run, l.runAct);
    assert !InBoot(s.main) && s'.main == s.main && s'.files == s.files && s'.enqueues == s.enqueues;
    assert forall q :: q in s'.runs && s'.runs[q] == Run(id, Dropping) ==> q in s.runs && s.runs[q] == s'.runs[q];
    assert Owner(s, l.run);
    forall q ensures !MayDrop(s', q, id) {
      if q != l.run && q in s.runs && s.runs[q].task == id { OtherIsNoOwner(s, l.run, q); }
    }
  }

  /* ---- Nothing else does ---- */

  lemma RunStaysInMain(c: Config, s: State, a: MainAct, r: RunId, id: TaskId)
    requires RunsOk(s.runs, s.active, s.nextRun, s.born.Keys) && MainEnabled(s, a) && MayDrop(s, r, id)
    ensures MayDrop(MainStep(c, s, a), r, id)
  {
  }

  lemma MainStrandsNothing(c: Config, s: State, a: MainAct, id: TaskId)
    requires Wf(s) && !Stranded(s, id) && MainEnabled(s, a)
    ensures !Stranded(MainStep(c, s, a), id)
  {
    if Orphaned(s, id) {
      var r :| MayDrop(s, r, id);
      RunStaysInMain(c, s, a, r, id);
    } else {
      assert Next(c, s, Main(a), MainStep(c, s, a));
      OrphanedOnlyByStrays(c, s, Main(a), MainStep(c, s, a), id);
    }
  }

  // The run that might drop the steps takes a step of its own.
  lemma OwnTurn(c: Config, s: State, r: RunId, a: RunAct, id: TaskId)
    requires MayDrop(s, r, id) && RunEnabled(s, r, a) && Orphaned(s, id) && !Strands(s, OfRun(r, a), id)
    ensures !Stranded(RunStep(c, s, r, a), id)
  {
    var s' := RunStep(c, s, r, a);
    if a.CompleteTask? {
      assert s'.runs[r] == Run(id, Dropping);
    } else {
      assert MayDrop(s', r, id);
    }
  }

  lemma StraySaveMayDrop(c: Config, s: State, l: Label, id: TaskId)
    requires Stray(s, l, id)
    ensures MayDrop(RunStep(c, s, l.run, l.runAct), l.run, id)
  {
  }

  lemma RunStrandsNothing(c: Config, s: State, r: RunId, a: RunAct, id: TaskId)
    requires RunEnabled(s, r, a) && !Stranded(s, id) && !Strands(s, OfRun(r, a), id)
    ensures !Stranded(RunStep(c, s, r, a), id)
  {
    if Orphaned(s, id) {
      var q :| MayDrop(s, q, id);
      if q == r {
        OwnTurn(c, s, r, a, id);
      } else {
        assert MayDrop(RunStep(c, s, r, a), q, id);
      }
    } else if Stray(s, OfRun(r, a), id) {
      StraySaveMayDrop(c, s, OfRun(r, a), id);
    } else {
      NotOrphanedByRun(c, s, r, a, id);
    }
  }

  lemma EnqueueStrandsNothing(s: State, e: TaskId, a: EnqueueAct, id: TaskId)
    requires EnqueueEnabled(s, e, a) && !Stranded(s, id) && (a.Insert? ==> e !in s.enqueues)
    ensures !Stranded(EnqueueStep(s, e, a), id)
  {
    if Orphaned(s, id) {
      var r :| MayDrop(s, r, id);
      assert MayDrop(EnqueueStep(s, e, a), r, id);
    } else {
      NotOrphanedByEnqueue(s, e, a, id);
    }
  }

  lemma SameButTheWorld(s: State, s': State, id: TaskId)
    requires !Stranded(s, id)
    requires s'.files == s.files && s'.saved == s.saved && s'.runs == s.runs
    requires s'.enqueues == s.enqueues && s'.main == s.main
    ensures !Stranded(s', id)
  {
    if Orphaned(s, id) {
      var r :| MayDrop(s, r, id);
      assert MayDrop(s', r, id);
    }
  }

  // One step: saved steps come to be left behind by such a rate limit and by nothing else.
  lemma StrandedOnlyByRateLimits(c: Config, s: State, l: Label, s': State, id: TaskId)
    requires Wf(s) && OneOwner(s) && !Stranded(s, id) && Next(c, s, l, s')
    ensures Stranded(s', id) <==> Strands(s, l, id)
  {
    match l
    case Main(a) => MainStrandsNothing(c, s, a, id);
    case OfRun(r, a) =>
      if Strands(s, l, id) { RateLimitStrands(c, s, l, id); } else { RunStrandsNothing(c, s, r, a, id); }
    case OfEnqueue(e, a) => EnqueueStrandsNothing(s, e, a, id);
    case Crash(torn) =>
    case _ => SameButTheWorld(s, s', id);
  }

  /* ---- Whole behaviours ---- */

  lemma {:induction false} StrandedBefore(c: Config, t: Trace, i: nat, id: TaskId) returns (k: nat)
    requires Behavior(c, t) && i < |t.states| && Stranded(t.states[i], id)
    ensures k < i && Strands(t.states[k], t.labels[k], id)
  {
    if Stranded(t.states[i - 1], id) {
      k := StrandedBefore(c, t, i - 1, id);
    } else {
      OneOwnerAlong(c, t, i - 1);
      StrandedOnlyByRateLimits(c, t.states[i - 1], t.labels[i - 1], t.states[i], id);
      k := i - 1;
    }
  }

  // In every behaviour, with no assumption: some state up to the n-th shows saved steps left behind
  // exactly when some step before was a rate limit of a run that had lost its record.
  lemma ExactlyWhenStranded(c: Config, t: Trace, n: nat, id: TaskId)
    requires Behavior(c, t) && n < |t.states|
    ensures (exists i :: 0 <= i <= n && Stranded(t.states[i], id))
       <==> (exists k :: 0 <= k < n && Strands(t.states[k], t.labels[k], id))
  {
    if i :| 0 <= i <= n && Stranded(t.states[i], id) {
      var k := StrandedBefore(c, t, i, id);
    }
    if k :| 0 <= k < n && Strands(t.states[k], t.labels[k], id) {
      StrandsAt(c, t, k, id);
    }
  }

  lemma StrandsAt(c: Config, t: Trace, k: nat, id: TaskId)
    requires Behavior(c, t) && k < |t.labels| && Strands(t.states[k], t.labels[k], id)
    ensures Stranded(t.states[k + 1], id)
  {
    OneOwnerAlong(c, t, k);
    assert Next(c, t.states[k], t.labels[k], t.states[k + 1]);
    RateLimitStrands(c, t.states[k], t.labels[k], id);
  }

  /* ---- Left behind until the next boot, or not at all ---- */

  // Once left behind, saved steps stay until a crash.
  lemma StrandedStays(c: Config, s: State, l: Label, s': State, id: TaskId)
    requires Wf(s) && Stranded(s, id) && id in s.born && Next(c, s, l, s') && !l.Crash?
    ensures Stranded(s', id)
  {
    match l
    case Main(a) => StrandedInMain(c, s, a, id);
    case OfRun(r, a) => StrandedInRun(c, s, r, a, id);
    case OfEnqueue(e, a) => StrandedInEnqueue(s, e, a, id);
    case Advance(_) => assert forall r :: MayDrop(s', r, id) ==> MayDrop(s, r, id);
    case AdminClear(_) => assert forall r :: MayDrop(s', r, id) ==> MayDrop(s, r, id);
    case Crash(_) =>
  }

  lemma NotCurrentAfter(files: Files, born: map<TaskId, Birth>, call: StoreCall, clock: int, id: TaskId)
    requires !Current(files, id) && id in born
    requires call.Put? ==> call.task.id !in born
    requires call.Transition? ==> In(files, call.id, From(call.move))
    ensures !Current(Performed(files, call, clock), id) && !(call.Transition? && call.id == id)
  {
  }

  lemma StrandedInMain(c: Config, s: State, a: MainAct, id: TaskId)
    requires Wf(s) && Stranded(s, id) && id in s.born && MainEnabled(s, a)
    ensures Stranded(MainStep(c, s, a), id)
  {
    var s' := MainStep(c, s, a);
    NotCurrentAfter(s.files, s.born, MainCall(c, s, a), s.clock, id);
    StrandedPc(c, s, a, id);
    assert s'.enqueues == s.enqueues;
    NewRunsElsewhere(c, s, a, id);
  }

  lemma StrandedPc(c: Config, s: State, a: MainAct, id: TaskId)
    requires SlotsOk(s.files, s.born, s.clock) && MainEnabled(s, a)
    requires !Unswept(s.main, id) && !MainDrops(s.main, id) && !Current(s.files, id) && id in s.saved
    ensures !MainDrops(MainAfter(c, s, a), id) && !Unswept(MainAfter(c, s, a), id) && id in MainSaved(s, a)
  {
  }

  lemma NewRunsElsewhere(c: Config, s: State, a: MainAct, id: TaskId)
    requires RunsOk(s.runs, s.active, s.nextRun, s.born.Keys) && MainEnabled(s, a) && !Current(s.files, id)
    ensures forall r :: MayDrop(MainStep(c, s, a), r, id) ==> MayDrop(s, r, id)
    ensures RunDrops(MainStep(c, s, a).runs, id) ==> RunDrops(s.runs, id)
  {
    var s' := MainStep(c, s, a);
    if r :| r in s'.runs && s'.runs[r] == Run(id, Dropping) {
      assert r in s.runs && s.runs[r] == Run(id, Dropping);
    }
  }

  lemma StrandedInRun(c: Config, s: State, r: RunId, a: RunAct, id: TaskId)
    requires Stranded(s, id) && id in s.born && RunEnabled(s, r, a)
    ensures Stranded(RunStep(c, s, r, a), id)
  {
    var s' := RunStep(c, s, r, a);
    NotCurrentAfter(s.files, s.born, RunCall(s, r, a), s.clock, id);
    assert !MayDrop(s, r, id);
    assert s.runs[r] != Run(id, Dropping);
    forall q ensures !MayDrop(s', q, id) && !(q in s'.runs && s'.runs[q] == Run(id, Dropping)) {
      assert !MayDrop(s, q, id);
    }
  }

  lemma StrandedInEnqueue(s: State, e: TaskId, a: EnqueueAct, id: TaskId)
    requires Stranded(s, id) && id in s.born && EnqueueEnabled(s, e, a)
    ensures Stranded(EnqueueStep(s, e, a), id)
  {
    var s' := EnqueueStep(s, e, a);
    NotCurrentAfter(s.files, s.born, EnqueueCall(s, e, a), s.clock, id);
    if EnqueueDrops(s'.enqueues, id) { EnqueueDropsAfter(s, e, a, id); }
    assert forall r :: MayDrop(s', r, id) ==> MayDrop(s, r, id);
  }

  lemma {:induction false} StrandedUntilACrash(c: Config, t: Trace, i: nat, j: nat, id: TaskId)
    requires Behavior(c, t) && i <= j < |t.states| && Stranded(t.states[i], id)
    requires forall k :: i <= k < j ==> !t.labels[k].Crash?
    ensures Stranded(t.states[j], id)
  {
    if i < j {
      StrandedUntilACrash(c, t, i, j - 1, id);
      WfAt(c, t, j - 1);
      KeptAlong(c, t, j - 1, id);
      StrandedStays(c, t.states[j - 1], t.labels[j - 1], t.states[j], id);
    }
  }

  // Saved steps that nobody is about to drop but that are not left behind are dropped when the run that
  // saved them returns an outcome, its completion throwing.
  lemma NotStrandedIsDropped(c: Config, s: State, id: TaskId, outcome: Outcome) returns (w: Walk, u: State)
    requires Orphaned(s, id) && !Stranded(s, id)
    ensures Leads(c, s, w, u) && u.files == s.files && id !in u.saved
  {
    var r :| MayDrop(s, r, id);
    var m := if s.runs[r].pc.Executing? then RunStep(c, s, r, Returns(outcome)) else s;
    var n := RunStep(c, m, r, CompleteTask(true));
    u := RunStep(c, n, r, DropSteps);
    OneStep(c, m, OfRun(r, CompleteTask(true)), n);
    OneStep(c, n, OfRun(r, DropSteps), u);
    w := And(c, m, Then(OfRun(r, CompleteTask(true)), n, Here), n, Then(OfRun(r, DropSteps), u, Here), u);
    if s.runs[r].pc.Executing? {
      OneStep(c, s, OfRun(r, Returns(outcome)), m);
      w := And(c, s, Then(OfRun(r, Returns(outcome)), m, Here), m, w, u);
    }
  }
}
