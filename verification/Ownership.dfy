/**
 Who may move a running task's record.

 While a run is live only that run should move its record. The stale sweep trusts the map of active
 tasks to know what is live, and a run takes its entry out of that map, by task id, only after it
 has wound down. So the property holds exactly for a run that is the registered and the only run of
 its task: `ExactlyWhenLost` proves both directions.
 */
module Ownership {
  import opened Domain
  import opened Store
  import opened Scheduling
  import opened Protocol
  import opened Walks
  import opened Shape
  import opened Exclusion

  predicate Owns(pc: RunPc) {
    pc.Executing? || pc.Completing? || pc.Pausing? || pc.Reverting?
  }

  predicate Owner(s: State, r: RunId) {
    r in s.runs && Owns(s.runs[r].pc)
  }

  // The run is live and its record is where it should be.
  predicate HoldsRecord(s: State, r: RunId) {
    && Owner(s, r)
    && In(s.files, s.runs[r].task, Running)
    && s.files[s.runs[r].task].task.status == Running
  }

  // The run is the registered and the only run of its task.
  ghost predicate Sole(s: State, r: RunId) {
    && HoldsRecord(s, r)
    && s.runs[r].task in s.active && s.active[s.runs[r].task] == r
    && forall q :: q in s.runs && s.runs[q].task == s.runs[r].task ==> q == r
  }

  // The run has had its say and will not be back.
  predicate Gone(s: State, r: RunId) {
    r < s.nextRun && !Owner(s, r)
  }

  function SlotOf(s: State, id: TaskId): Option<Slot> {
    if id in s.files then Some(s.files[id]) else None
  }

  // Some other party's step, not a crash, changes the record of live run `r`.
  predicate Loses(s: State, l: Label, s': State, r: RunId) {
    && Owner(s, r) && !l.Crash? && !(l.OfRun? && l.run == r)
    && SlotOf(s', s.runs[r].task) != SlotOf(s, s.runs[r].task)
  }

  /* ---- A sole run keeps its record ---- */

  lemma CallElsewhere(files: Files, call: StoreCall, clock: int, id: TaskId)
    requires call.Transition? ==> call.id != id
    requires call.Unlink? ==> call.id != id
    requires call.Put? ==> call.task.id != id
    ensures id in files <==> id in Performed(files, call, clock)
    ensures id in files ==> Performed(files, call, clock)[id] == files[id]
  {
  }

  // The main loop leaves a registered task's record alone.
  lemma MainCallElsewhere(c: Config, s: State, a: MainAct, id: TaskId)
    requires MainEnabled(s, a) && PruneOk(s.main) && !InBoot(s.main)
    requires In(s.files, id, Running) && id in s.active
    ensures var call := MainCall(c, s, a);
            (call.Transition? ==> call.id != id) && (call.Unlink? ==> call.id != id) && !call.Put?
  {
  }

  lemma SoleInMain(c: Config, s: State, a: MainAct, r: RunId)
    requires PruneOk(s.main) && BootAlone(s) && RunsOk(s.runs, s.active, s.nextRun, s.born.Keys)
    requires Sole(s, r) && MainEnabled(s, a)
    ensures Sole(MainStep(c, s, a), r)
    ensures SlotOf(MainStep(c, s, a), s.runs[r].task) == SlotOf(s, s.runs[r].task)
    ensures MainStep(c, s, a).runs[r] == s.runs[r]
  {
    var id := s.runs[r].task;
    MainCallElsewhere(c, s, a, id);
    CallElsewhere(s.files, MainCall(c, s, a), s.clock, id);
    if Starts(c, s, a) {
      assert s.main.pending[0] != id;
    }
  }

  lemma SoleInRun(c: Config, s: State, q: RunId, a: RunAct, r: RunId)
    requires Sole(s, r) && RunEnabled(s, q, a) && q != r
    ensures Sole(RunStep(c, s, q, a), r)
    ensures SlotOf(RunStep(c, s, q, a), s.runs[r].task) == SlotOf(s, s.runs[r].task)
    ensures RunStep(c, s, q, a).runs[r] == s.runs[r]
  {
    assert s.runs[q].task != s.runs[r].task;
    CallElsewhere(s.files, RunCall(s, q, a), s.clock, s.runs[r].task);
  }

  lemma SoleInEnqueue(s: State, id: TaskId, a: EnqueueAct, r: RunId)
    requires Wf(s) && Sole(s, r) && EnqueueEnabled(s, id, a)
    ensures Sole(EnqueueStep(s, id, a), r)
    ensures SlotOf(EnqueueStep(s, id, a), s.runs[r].task) == SlotOf(s, s.runs[r].task)
    ensures EnqueueStep(s, id, a).runs[r] == s.runs[r]
  {
    CallElsewhere(s.files, EnqueueCall(s, id, a), s.clock, s.runs[r].task);
  }

  // Stale sweeps, supersedes, ticks, prunes and other runs leave a sole run and its record alone.
  lemma SoleStep(c: Config, s: State, l: Label, s': State, r: RunId)
    requires Wf(s) && Sole(s, r) && Next(c, s, l, s') && !l.Crash? && !(l.OfRun? && l.run == r)
    ensures Sole(s', r) && !Loses(s, l, s', r) && s'.runs[r] == s.runs[r]
  {
    match l
    case Main(a) => SoleInMain(c, s, a, r);
    case OfRun(q, a) => SoleInRun(c, s, q, a, r);
    case OfEnqueue(id, a) => SoleInEnqueue(s, id, a, r);
    case _ =>
  }

  // A sole run's own step: it stays sole with its record untouched, or it leaves. It leaves by one
  // completion with the outcome its strategy returned, by one requeue, or by a failing store call.
  lemma OwnStep(c: Config, s: State, a: RunAct, s': State, r: RunId)
    requires RunsOk(s.runs, s.active, s.nextRun, s.born.Keys) && Sole(s, r) && Next(c, s, OfRun(r, a), s')
    ensures var id, pc := s.runs[r].task, s.runs[r].pc;
            match a
            case CompleteTask(ok) =>
              && Gone(s', r)
              && s'.files == if ok then s.files[id := Moved(s.files[id], Complete(pc.outcome), s.clock)] else s.files
            case RevertTask(ok) =>
              Gone(s', r) && s'.files == if ok then s.files[id := Moved(s.files[id], Requeue, s.clock)] else s.files
            case PauseNext(ok) => s'.files == s.files && if ok then Sole(s', r) else Gone(s', r)
            case Returns(outcome) => s'.files == s.files && Sole(s', r) && s'.runs[r].pc == Completing(outcome)
            case _ => s'.files == s.files && Sole(s', r)
  {
    assert s'.runs[r] == Run(s.runs[r].task, RunAfter(c, s, r, a));
  }

  // Once gone, a run never touches a queue file again.
  lemma GoneStep(c: Config, s: State, l: Label, s': State, r: RunId)
    requires RunsOk(s.runs, s.active, s.nextRun, s.born.Keys) && Gone(s, r) && Next(c, s, l, s')
    ensures Gone(s', r)
    ensures l.OfRun? && l.run == r ==> s'.files == s.files
  {
  }

  // A start of a task none of whose earlier runs is still winding down makes a sole run.
  lemma StartIsSole(c: Config, s: State, s': State)
    requires RunsOk(s.runs, s.active, s.nextRun, s.born.Keys)
    requires Starts(c, s, StartNext) && s' == MainStep(c, s, StartNext)
    ensures Sole(s', s.nextRun) <==> forall q :: q in s.runs ==> s.runs[q].task != s.main.pending[0]
  {
    var id := s.main.pending[0];
    assert s'.runs[s.nextRun] == Run(id, Executing) && s'.active[id] == s.nextRun;
    assert forall q :: q in s.runs ==> q in s'.runs && s'.runs[q] == s.runs[q] && q != s.nextRun;
  }

  /* ---- One ending, the one its result calls for ---- */

  // What the strategy's result lets a run still do to its record.
  predicate Fated(s: State, r: RunId, result: RunAct) {
    || Gone(s, r)
    || (r in s.runs
        && match result
           case Returns(outcome) => s.runs[r].pc == Completing(outcome)
           case ReturnsRateLimited(_) => s.runs[r].pc.Pausing? || s.runs[r].pc.Reverting?
           case ThrowsGithubLimit(_) => s.runs[r].pc.Pausing? || s.runs[r].pc.Reverting?
           case _ => false)
  }

  predicate IsResult(a: RunAct) {
    a.Returns? || a.ReturnsRateLimited? || a.ThrowsGithubLimit?
  }

  lemma FatedStep(c: Config, s: State, l: Label, s': State, r: RunId, result: RunAct)
    requires RunsOk(s.runs, s.active, s.nextRun, s.born.Keys) && Next(c, s, l, s')
    requires Fated(s, r, result) || l == OfRun(r, result)
    requires IsResult(result)
    ensures Fated(s', r, result)
  {
  }

  lemma FatedNext(c: Config, t: Trace, k: nat, r: RunId, result: RunAct)
    requires Behavior(c, t) && k < |t.labels| && IsResult(result)
    requires Fated(t.states[k], r, result) || t.labels[k] == OfRun(r, result)
    ensures Fated(t.states[k + 1], r, result)
  {
    WfAt(c, t, k);
    FatedStep(c, t.states[k], t.labels[k], t.states[k + 1], r, result);
  }

  lemma {:induction false} FatedOn(states: seq<State>, i: nat, j: nat, r: RunId, result: RunAct)
    requires i <= j < |states| && Fated(states[i], r, result)
    requires forall k :: i <= k < j && Fated(states[k], r, result) ==> Fated(states[k + 1], r, result)
    ensures Fated(states[j], r, result)
  {
    if i < j {
      FatedOn(states, i, j - 1, r, result);
      assert Fated(states[j - 1], r, result);
    }
  }

  lemma FatedAlong(c: Config, t: Trace, i: nat, j: nat, r: RunId, result: RunAct)
    requires Behavior(c, t) && i < j < |t.states| && t.labels[i] == OfRun(r, result) && IsResult(result)
    ensures Fated(t.states[j], r, result)
  {
    FatedNext(c, t, i, r, result);
    forall k | i + 1 <= k < j && Fated(t.states[k], r, result) ensures Fated(t.states[k + 1], r, result) {
      FatedNext(c, t, k, r, result);
    }
    FatedOn(t.states, i + 1, j, r, result);
  }

  lemma {:induction false} WfAt(c: Config, t: Trace, i: nat)
    requires Behavior(c, t) && i < |t.states|
    ensures Wf(t.states[i])
  {
    if i == 0 {
      WfInit(t.states[0]);
    } else {
      WfAt(c, t, i - 1);
      WfStep(c, t.states[i - 1], t.labels[i - 1], t.states[i]);
    }
  }

  predicate Ends(l: Label, r: RunId) {
    l.OfRun? && l.run == r && (l.runAct.CompleteTask? || l.runAct.RevertTask?)
  }

  // A run ends its task as its result says: a returned outcome in a completion with that outcome, a
  // rate limit in a requeue.
  lemma EndMatchesResult(c: Config, t: Trace, i: nat, j: nat, r: RunId, result: RunAct)
    requires Behavior(c, t) && i < j < |t.labels| && t.labels[i] == OfRun(r, result) && IsResult(result)
    requires Ends(t.labels[j], r)
    ensures r in t.states[j].runs
    ensures if result.Returns?
            then t.labels[j].runAct.CompleteTask? && t.states[j].runs[r].pc == Completing(result.outcome)
            else t.labels[j].runAct.RevertTask?
  {
    FatedAlong(c, t, i, j, r, result);
    assert Next(c, t.states[j], t.labels[j], t.states[j + 1]);
  }

  lemma {:induction false} GoneAlong(c: Config, t: Trace, i: nat, j: nat, r: RunId)
    requires Behavior(c, t) && i <= j < |t.states| && Gone(t.states[i], r)
    ensures Gone(t.states[j], r)
  {
    if i < j {
      GoneAlong(c, t, i, j - 1, r);
      WfAt(c, t, j - 1);
      GoneStep(c, t.states[j - 1], t.labels[j - 1], t.states[j], r);
    }
  }

  // And it ends it at most once: no run completes or requeues its task twice, or does both.
  lemma EndsOnce(c: Config, t: Trace, i: nat, j: nat, r: RunId)
    requires Behavior(c, t) && i < |t.labels| && j < |t.labels|
    requires Ends(t.labels[i], r) && Ends(t.labels[j], r)
    ensures i == j
  {
    if i < j {
      EndsForGood(c, t, i, j, r);
    } else if j < i {
      EndsForGood(c, t, j, i, r);
    }
  }

  lemma EndsForGood(c: Config, t: Trace, i: nat, j: nat, r: RunId)
    requires Behavior(c, t) && i < j < |t.labels| && Ends(t.labels[i], r)
    ensures !Ends(t.labels[j], r)
  {
    WfAt(c, t, i);
    GoneOnceEnded(c, t.states[i], t.labels[i], t.states[i + 1], r);
    GoneAlong(c, t, i + 1, j, r);
    assert Next(c, t.states[j], t.labels[j], t.states[j + 1]);
  }

  lemma GoneOnceEnded(c: Config, s: State, l: Label, s': State, r: RunId)
    requires RunsOk(s.runs, s.active, s.nextRun, s.born.Keys) && Next(c, s, l, s') && Ends(l, r)
    ensures Gone(s', r)
  {
  }

  // The strategy's result that has brought a run to completing, pausing or reverting.
  lemma {:induction false} ResultBefore(c: Config, t: Trace, k: nat, r: RunId) returns (i: nat)
    requires Behavior(c, t) && k < |t.states| && Owner(t.states[k], r) && !t.states[k].runs[r].pc.Executing?
    ensures i < k && t.labels[i].OfRun? && t.labels[i].run == r && IsResult(t.labels[i].runAct)
  {
    var s, l := t.states[k - 1], t.labels[k - 1];
    assert Next(c, s, l, t.states[k]);
    if l.OfRun? && l.run == r && IsResult(l.runAct) {
      i := k - 1;
    } else {
      assert Owner(s, r) && !s.runs[r].pc.Executing?;
      i := ResultBefore(c, t, k - 1, r);
    }
  }

  predicate GivesUp(l: Label, r: RunId) {
    l == OfRun(r, PauseNext(false))
  }

  // What took a run that is winding down out of its live part: its ending, or a pause that could not
  // be written.
  lemma {:induction false} EndingBefore(c: Config, t: Trace, k: nat, r: RunId) returns (m: nat)
    requires Behavior(c, t) && k < |t.states| && r in t.states[k].runs && !Owner(t.states[k], r)
    ensures m < k && (Ends(t.labels[m], r) || GivesUp(t.labels[m], r))
  {
    var s, l := t.states[k - 1], t.labels[k - 1];
    assert Next(c, s, l, t.states[k]);
    if Ends(l, r) || GivesUp(l, r) {
      m := k - 1;
    } else {
      assert r in s.runs && !Owner(s, r);
      m := EndingBefore(c, t, k - 1, r);
    }
  }

  /* ---- When a task is only restarted once its last run has settled ---- */

  // A start of `id` finds no earlier run of it still winding down.
  ghost predicate SettledStart(c: Config, s: State, l: Label, id: TaskId) {
    l == Main(StartNext) && Starts(c, s, StartNext) && s.main.pending[0] == id
    ==> forall q :: q in s.runs ==> s.runs[q].task != id
  }

  ghost predicate SettledStarts(c: Config, t: Trace, n: nat, id: TaskId)
    requires n <= |t.labels| < |t.states|
  {
    forall i :: 0 <= i < n ==> SettledStart(c, t.states[i], t.labels[i], id)
  }

  ghost predicate Registered(s: State, id: TaskId) {
    forall r :: r in s.runs && s.runs[r].task == id ==> id in s.active && s.active[id] == r
  }

  ghost predicate AllSole(s: State, id: TaskId) {
    && Registered(s, id)
    && forall r :: Owner(s, r) && s.runs[r].task == id ==> HoldsRecord(s, r)
  }

  lemma RegisteredStep(c: Config, s: State, l: Label, s': State, id: TaskId)
    requires Registered(s, id) && Next(c, s, l, s') && SettledStart(c, s, l, id)
    ensures Registered(s', id)
  {
    if l.OfRun? && s.runs[l.run].task == id {
      assert forall q :: q in s.runs && s.runs[q].task == id ==> q == l.run;
    }
  }

  lemma RegisteredIsSole(s: State, r: RunId)
    requires r in s.runs && Registered(s, s.runs[r].task) && HoldsRecord(s, r)
    ensures Sole(s, r)
  {
  }

  lemma StillHolds(c: Config, s: State, l: Label, s': State, r: RunId)
    requires Wf(s) && Sole(s, r) && Next(c, s, l, s') && Owner(s', r)
    ensures HoldsRecord(s', r)
  {
    if l.OfRun? && l.run == r {
      OwnStep(c, s, l.runAct, s', r);
    } else {
      assert !l.Crash?;
      SoleStep(c, s, l, s', r);
    }
  }

  lemma AllSoleStep(c: Config, s: State, l: Label, s': State, id: TaskId)
    requires Wf(s) && AllSole(s, id) && Next(c, s, l, s') && SettledStart(c, s, l, id)
    ensures AllSole(s', id)
  {
    RegisteredStep(c, s, l, s', id);
    forall r | Owner(s', r) && s'.runs[r].task == id ensures HoldsRecord(s', r) {
      if Owner(s, r) {
        SameTask(c, s, l, s', r);
        RegisteredIsSole(s, r);
        StillHolds(c, s, l, s', r);
      } else {
        FreshHolds(c, s, l, s', r);
      }
    }
  }

  lemma SameTask(c: Config, s: State, l: Label, s': State, r: RunId)
    requires RunsOk(s.runs, s.active, s.nextRun, s.born.Keys) && Next(c, s, l, s') && r < s.nextRun
    ensures r < s'.nextRun
    ensures r in s'.runs ==> r in s.runs && s'.runs[r].task == s.runs[r].task
  {
  }

  lemma FreshHolds(c: Config, s: State, l: Label, s': State, r: RunId)
    requires SlotsOk(s.files, s.born, s.clock) && Next(c, s, l, s') && Owner(s', r) && !Owner(s, r)
    ensures HoldsRecord(s', r)
  {
    assert l == Main(StartNext) && Starts(c, s, StartNext) && r == s.nextRun;
    assert SlotOk(s.files[s.main.pending[0]], s.main.pending[0], s.born, s.clock);
  }

  // If `id` is never started while an earlier run of it is still winding down, then at every moment
  // every live run of it holds its record, alone and registered.
  lemma {:induction false} LiveRunsHoldTheirRecords(c: Config, t: Trace, i: nat, id: TaskId)
    requires Behavior(c, t) && i < |t.states| && SettledStarts(c, t, i, id)
    ensures Wf(t.states[i]) && AllSole(t.states[i], id)
    ensures forall r :: Owner(t.states[i], r) && t.states[i].runs[r].task == id ==> Sole(t.states[i], r)
  {
    if i == 0 {
      WfInit(t.states[0]);
    } else {
      LiveRunsHoldTheirRecords(c, t, i - 1, id);
      WfStep(c, t.states[i - 1], t.labels[i - 1], t.states[i]);
      AllSoleStep(c, t.states[i - 1], t.labels[i - 1], t.states[i], id);
    }
  }

  // Then two live runs never share a declared tool.
  lemma LiveRunsShareNoTool(c: Config, t: Trace, i: nat, r: RunId, q: RunId)
    requires Behavior(c, t) && i < |t.states|
    requires r != q && Owner(t.states[i], r) && Owner(t.states[i], q)
    requires SettledStarts(c, t, i, t.states[i].runs[r].task) && SettledStarts(c, t, i, t.states[i].runs[q].task)
    ensures var s := t.states[i];
            && s.runs[r].task in s.files && s.runs[q].task in s.files
            && ToolsFor(c.uses, s.files[s.runs[r].task].task) !! ToolsFor(c.uses, s.files[s.runs[q].task].task)
  {
    var s := t.states[i];
    LiveRunsHoldTheirRecords(c, t, i, s.runs[r].task);
    LiveRunsHoldTheirRecords(c, t, i, s.runs[q].task);
    MutualExclusion(c, t, i);
    assert Sole(s, r) && Sole(s, q) && s.runs[r].task != s.runs[q].task;
    assert s.runs[r].task in InFlight(s.files) && s.runs[q].task in InFlight(s.files);
  }

  /* ---- Exactly one ending ---- */

  lemma {:induction false} TaskAlong(c: Config, t: Trace, n: nat, k: nat, r: RunId)
    requires Behavior(c, t) && n <= k < |t.states| && r in t.states[n].runs
    ensures r < t.states[k].nextRun
    ensures r in t.states[k].runs ==> t.states[k].runs[r].task == t.states[n].runs[r].task
  {
    WfAt(c, t, n);
    if n < k {
      TaskAlong(c, t, n, k - 1, r);
      WfAt(c, t, k - 1);
      SameTask(c, t.states[k - 1], t.labels[k - 1], t.states[k], r);
    }
  }

  predicate StoreFails(l: Label, r: RunId) {
    l.OfRun? && l.run == r && l.runAct in {CompleteTask(false), RevertTask(false), PauseNext(false)}
  }

  // The transition a result calls for.
  function EndMove(result: RunAct): Move {
    if result.Returns? then Complete(result.outcome) else Requeue
  }

  // What an ending leaves of the record, for the strategy's result: filed under succeeded/ or failed/
  // and saying so, or back in queued/ without the traces of the run.
  predicate FiledAs(result: RunAct, before: Task, after: Slot, now: int) {
    match result
    case Returns(Success) => IsSucceeded(before, after, now)
    case Returns(Failure(summary)) => IsFailed(before, after, summary, now)
    case _ => IsRequeued(before, after, now)
  }

  // A run's step that is no ending touches no queue file.
  lemma OnlyEndsTouch(c: Config, s: State, l: Label, s': State, r: RunId)
    requires Next(c, s, l, s') && l.OfRun? && l.run == r && !Ends(l, r)
    ensures s'.files == s.files
  {
  }

  lemma EndMoves(c: Config, s: State, a: RunAct, s': State, r: RunId, result: RunAct)
    requires Wf(s) && Sole(s, r) && Next(c, s, OfRun(r, a), s')
    requires if result.Returns? then a == CompleteTask(true) && s.runs[r].pc == Completing(result.outcome)
             else a == RevertTask(true)
    ensures s'.files == s.files[s.runs[r].task := Moved(s.files[s.runs[r].task], EndMove(result), s.clock)]
    ensures IsResult(result) ==> FiledAs(result, s.files[s.runs[r].task].task, s'.files[s.runs[r].task], s.clock)
  {
    OwnStep(c, s, a, s', r);
    MovedSays(s.files[s.runs[r].task], EndMove(result), s.clock);
  }

  // While a run of a task with settled starts is live, no step but its ending changes its record.
  lemma RecordRests(c: Config, t: Trace, n: nat, r: RunId, id: TaskId)
    requires Behavior(c, t) && n < |t.labels| && SettledStarts(c, t, n, id) && !t.labels[n].Crash?
    requires Owner(t.states[n], r) && t.states[n].runs[r].task == id && !Ends(t.labels[n], r)
    ensures SlotOf(t.states[n + 1], id) == SlotOf(t.states[n], id)
  {
    LiveRunsHoldTheirRecords(c, t, n, id);
    var s, l, s' := t.states[n], t.labels[n], t.states[n + 1];
    if l.OfRun? && l.run == r {
      OnlyEndsTouch(c, s, l, s', r);
    } else {
      SoleStep(c, s, l, s', r);
    }
  }

  // A run that settles, its store calls having succeeded and its task having been restarted only after
  // earlier runs had settled, has moved its record exactly once (step m), as its result (step i)
  // says: to succeeded/ or failed/ with the outcome returned, or back to queued/ after a rate limit,
  // changing nothing else. No other step of it touched a queue file, and nobody else touched its record
  // before.
  lemma ExactlyOneEnding(c: Config, t: Trace, k: nat, r: RunId, id: TaskId) returns (i: nat, m: nat)
    requires Behavior(c, t) && k < |t.labels| && t.labels[k] == OfRun(r, Settle)
    requires r in t.states[k].runs && t.states[k].runs[r].task == id && SettledStarts(c, t, k, id)
    requires forall n :: 0 <= n < k ==> !StoreFails(t.labels[n], r)
    ensures i < m < k && t.labels[i].OfRun? && t.labels[i].run == r && IsResult(t.labels[i].runAct)
    ensures id in t.states[m].files && id in t.states[m + 1].files
    ensures t.states[m + 1].files == t.states[m].files[id := t.states[m + 1].files[id]]
    ensures FiledAs(t.labels[i].runAct, t.states[m].files[id].task, t.states[m + 1].files[id], t.states[m].clock)
    ensures forall n :: 0 <= n < k && n != m && t.labels[n].OfRun? && t.labels[n].run == r ==>
              t.states[n + 1].files == t.states[n].files
    ensures forall n :: 0 <= n < m && Owner(t.states[n], r) ==> SlotOf(t.states[n + 1], id) == SlotOf(t.states[n], id)
  {
    assert Next(c, t.states[k], t.labels[k], t.states[k + 1]);
    m := EndingBefore(c, t, k, r);
    assert !StoreFails(t.labels[m], r) && Ends(t.labels[m], r);
    i := EndedAsItsResultSays(c, t, m, k, r, id);
    forall n | 0 <= n < k && n != m && t.labels[n].OfRun? && t.labels[n].run == r
      ensures t.states[n + 1].files == t.states[n].files
    {
      if Ends(t.labels[n], r) { EndsOnce(c, t, n, m, r); }
      OnlyEndsTouch(c, t.states[n], t.labels[n], t.states[n + 1], r);
    }
    forall n | 0 <= n < m && Owner(t.states[n], r) ensures SlotOf(t.states[n + 1], id) == SlotOf(t.states[n], id) {
      RestsUntilEnd(c, t, n, m, k, r, id);
    }
  }

  lemma EndedAsItsResultSays(c: Config, t: Trace, m: nat, k: nat, r: RunId, id: TaskId) returns (i: nat)
    requires Behavior(c, t) && m < k < |t.labels| && Ends(t.labels[m], r) && !StoreFails(t.labels[m], r)
    requires r in t.states[k].runs && t.states[k].runs[r].task == id && SettledStarts(c, t, k, id)
    ensures i < m && t.labels[i].OfRun? && t.labels[i].run == r && IsResult(t.labels[i].runAct)
    ensures id in t.states[m].files && id in t.states[m + 1].files
    ensures t.states[m + 1].files == t.states[m].files[id := t.states[m + 1].files[id]]
    ensures FiledAs(t.labels[i].runAct, t.states[m].files[id].task, t.states[m + 1].files[id], t.states[m].clock)
  {
    var s, l := t.states[m], t.labels[m];
    assert Next(c, s, l, t.states[m + 1]);
    i := ResultBefore(c, t, m, r);
    EndMatchesResult(c, t, i, m, r, t.labels[i].runAct);
    TaskAlong(c, t, m, k, r);
    LiveRunsHoldTheirRecords(c, t, m, id);
    EndMoves(c, s, l.runAct, t.states[m + 1], r, t.labels[i].runAct);
  }

  lemma RestsUntilEnd(c: Config, t: Trace, n: nat, m: nat, k: nat, r: RunId, id: TaskId)
    requires Behavior(c, t) && n < m < k < |t.labels| && Owner(t.states[n], r) && Ends(t.labels[m], r)
    requires r in t.states[k].runs && t.states[k].runs[r].task == id && SettledStarts(c, t, k, id)
    ensures SlotOf(t.states[n + 1], id) == SlotOf(t.states[n], id)
  {
    TaskAlong(c, t, n, k, r);
    if Ends(t.labels[n], r) { EndsOnce(c, t, n, m, r); }
    if t.labels[n].Crash? {
      CrashEndsRun(c, t, n, k, r);
    }
    RecordRests(c, t, n, r, id);
  }

  lemma {:induction false} NotRestarted(c: Config, t: Trace, n: nat, k: nat, r: RunId)
    requires Behavior(c, t) && n <= k < |t.states| && r !in t.states[n].runs && r < t.states[n].nextRun
    ensures r !in t.states[k].runs && r < t.states[k].nextRun
  {
    if n < k {
      NotRestarted(c, t, n, k - 1, r);
      WfAt(c, t, k - 1);
      SameTask(c, t.states[k - 1], t.labels[k - 1], t.states[k], r);
    }
  }

  lemma CrashEndsRun(c: Config, t: Trace, n: nat, k: nat, r: RunId)
    requires Behavior(c, t) && n < k < |t.states| && t.labels[n].Crash? && r in t.states[n].runs
    ensures r !in t.states[k].runs
  {
    WfAt(c, t, n);
    assert Next(c, t.states[n], t.labels[n], t.states[n + 1]);
    NotRestarted(c, t, n + 1, k, r);
  }

  /* ---- Every continuation ---- */

  // Some continuation of `s` makes live run `r` lose its record.
  ghost predicate CanLose(c: Config, s: State, r: RunId) {
    exists w, u, l, u' :: Leads(c, s, w, u) && Hop(c, u, l, u') && Loses(u, l, u', r)
  }

  ghost predicate SoleOrGone(s: State, r: RunId) {
    Wf(s) && (Sole(s, r) || Gone(s, r))
  }

  lemma SoleOrGoneStep(c: Config, s: State, l: Label, s': State, r: RunId)
    requires SoleOrGone(s, r) && Hop(c, s, l, s')
    ensures SoleOrGone(s', r) && !Loses(s, l, s', r)
  {
    WfStep(c, s, l, s');
    if Gone(s, r) {
      GoneStep(c, s, l, s', r);
    } else if l.OfRun? && l.run == r {
      OwnStep(c, s, l.runAct, s', r);
    } else {
      SoleStep(c, s, l, s', r);
    }
  }

  lemma {:induction false} SoleOrGoneAlong(c: Config, s: State, w: Walk, u: State, r: RunId)
    requires SoleOrGone(s, r) && Leads(c, s, w, u)
    ensures SoleOrGone(u, r)
    decreases w
  {
    if w.Then? {
      SoleOrGoneStep(c, s, w.via, w.to, r);
      SoleOrGoneAlong(c, w.to, w.rest, u, r);
    }
  }

  // A sole run never loses its record, however the others interleave.
  lemma SoleCannotLose(c: Config, s: State, r: RunId)
    requires Wf(s) && Sole(s, r)
    ensures !CanLose(c, s, r)
  {
    forall w, u, l, u' | Leads(c, s, w, u) && Hop(c, u, l, u') && Loses(u, l, u', r) ensures false {
      SoleOrGoneAlong(c, s, w, u, r);
      SoleOrGoneStep(c, u, l, u', r);
    }
  }
}
