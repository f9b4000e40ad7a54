/**
 A loop that is about to throw, or has thrown, sweeps nothing any more. So while a tick is starting
 tasks, a live run can lose its record only if the tick can still end.
 */
module OwnershipStuck {
  import opened Domain
  import opened Store
  import opened Scheduling
  import opened Protocol
  import opened Walks
  import opened Shape
  import opened Exclusion
  import opened Ownership
  import opened OwnershipLost
  import opened Checkpoints
  import opened StepsKept

  // The loop has ended, or has still to start a task that is over.
  ghost predicate Stuck(s: State) {
    s.main.Stopped? || (s.main.Starting? && exists k :: k in s.main.pending && Over(s.files, s.born, k))
  }

  lemma StuckStep(c: Config, s: State, l: Label, s': State)
    requires Stuck(s) && Hop(c, s, l, s')
    ensures Stuck(s')
  {
    if s.main.Starting? {
      var k :| k in s.main.pending && Over(s.files, s.born, k);
      OverStays(c, s, l, s', k);
      if l.Main? { StuckMain(c, s, l.act, k); }
    }
  }

  lemma StuckMain(c: Config, s: State, a: MainAct, k: TaskId)
    requires s.main.Starting? && k in s.main.pending && Over(s.files, s.born, k) && MainEnabled(s, a)
    ensures var pc := MainAfter(c, s, a); pc.Stopped? || (pc.Starting? && k in pc.pending)
  {
    if a.StartNext? {
      assert s.main.pending == [s.main.pending[0]] + s.main.pending[1..];
    }
  }

  // What is pending and no longer queued is over: it is not in flight.
  lemma PendingIsOver(c: Config, s: State, k: TaskId)
    requires Inv(c, s) && s.main.Starting? && k in s.main.pending && !In(s.files, k, Queued)
    ensures Over(s.files, s.born, k)
  {
    assert k in Claimants(s.files, s.main);
    if k in s.files {
      assert SlotOk(s.files[k], k, s.born, s.clock);
      assert !In(s.files, k, Running);
    }
  }

  // Holding its record, or gone.
  ghost predicate Safe(s: State, r: RunId) {
    Wf(s) && OneOwner(s) && (HoldsRecord(s, r) || Gone(s, r))
  }

  lemma MainPassesBy(c: Config, s: State, a: MainAct, r: RunId)
    requires Stuck(s) && HoldsRecord(s, r) && MainEnabled(s, a)
    requires RunsOk(s.runs, s.active, s.nextRun, s.born.Keys)
    ensures HoldsRecord(MainStep(c, s, a), r)
    ensures SlotOf(MainStep(c, s, a), s.runs[r].task) == SlotOf(s, s.runs[r].task)
  {
    assert a.StartNext? || a.TickThrows? || a.TickDone?;
    CallElsewhere(s.files, MainCall(c, s, a), s.clock, s.runs[r].task);
  }

  lemma RunPassesBy(c: Config, s: State, q: RunId, a: RunAct, r: RunId)
    requires OneOwner(s) && HoldsRecord(s, r) && RunEnabled(s, q, a) && q != r
    ensures HoldsRecord(RunStep(c, s, q, a), r)
    ensures SlotOf(RunStep(c, s, q, a), s.runs[r].task) == SlotOf(s, s.runs[r].task)
  {
    var call := RunCall(s, q, a);
    if call.Transition? {
      assert Owner(s, q) && call.id == s.runs[q].task != s.runs[r].task;
    }
    CallElsewhere(s.files, call, s.clock, s.runs[r].task);
  }

  lemma EnqueuePassesBy(s: State, e: TaskId, a: EnqueueAct, r: RunId)
    requires SlotsOk(s.files, s.born, s.clock) && HoldsRecord(s, r) && EnqueueEnabled(s, e, a)
    ensures HoldsRecord(EnqueueStep(s, e, a), r)
    ensures SlotOf(EnqueueStep(s, e, a), s.runs[r].task) == SlotOf(s, s.runs[r].task)
  {
    assert SlotOk(s.files[s.runs[r].task], s.runs[r].task, s.born, s.clock);
    CallElsewhere(s.files, EnqueueCall(s, e, a), s.clock, s.runs[r].task);
  }

  lemma OwnTurnHoldsOrGoes(c: Config, s: State, r: RunId, a: RunAct)
    requires RunsOk(s.runs, s.active, s.nextRun, s.born.Keys) && HoldsRecord(s, r) && RunEnabled(s, r, a)
    ensures HoldsRecord(RunStep(c, s, r, a), r) || Gone(RunStep(c, s, r, a), r)
  {
  }

  lemma SafeStep(c: Config, s: State, l: Label, s': State, r: RunId)
    requires Stuck(s) && Safe(s, r) && Hop(c, s, l, s')
    ensures Safe(s', r) && !Loses(s, l, s', r)
  {
    WfStep(c, s, l, s');
    OneOwnerStep(c, s, l, s');
    if Gone(s, r) {
      GoneStep(c, s, l, s', r);
    } else {
      HolderStep(c, s, l, s', r);
    }
  }

  lemma HolderStep(c: Config, s: State, l: Label, s': State, r: RunId)
    requires Stuck(s) && Wf(s) && OneOwner(s) && HoldsRecord(s, r) && Hop(c, s, l, s')
    ensures (HoldsRecord(s', r) || Gone(s', r)) && !Loses(s, l, s', r)
  {
    match l
    case Main(a) => MainPassesBy(c, s, a, r);
    case OfRun(q, a) =>
      if q == r { OwnTurnHoldsOrGoes(c, s, r, a); } else { RunPassesBy(c, s, q, a, r); }
    case OfEnqueue(e, a) => EnqueuePassesBy(s, e, a, r);
    case _ =>
  }

  lemma {:induction false} SafeAlong(c: Config, s: State, w: Walk, u: State, r: RunId)
    requires Stuck(s) && Safe(s, r) && Leads(c, s, w, u)
    ensures Stuck(u) && Safe(u, r)
    decreases w
  {
    if w.Then? {
      StuckStep(c, s, w.via, w.to);
      SafeStep(c, s, w.via, w.to, r);
      SafeAlong(c, w.to, w.rest, u, r);
    }
  }

  lemma StuckCannotLose(c: Config, s: State, r: RunId)
    requires Stuck(s) && Safe(s, r)
    ensures !CanLose(c, s, r)
  {
    forall w, u, l, u' | Leads(c, s, w, u) && Hop(c, u, l, u') && Loses(u, l, u', r) ensures false {
      SafeAlong(c, s, w, u, r);
      SafeStep(c, u, l, u', r);
    }
  }

  // While a tick is starting tasks, or once the loop has ended: a live run can lose its record exactly
  // when it is not the registered and only run of its task and everything the tick has yet to start
  // is still queued.
  lemma ExactlyWhenLostWhileStarting(c: Config, t: Trace, i: nat, r: RunId)
    requires Behavior(c, t) && i < |t.states| && HoldsRecord(t.states[i], r)
    requires t.states[i].main.Starting? || t.states[i].main.Stopped?
    ensures var s := t.states[i];
            CanLose(c, s, r) <==>
              !Sole(s, r) && s.main.Starting? && forall k :: k in s.main.pending ==> In(s.files, k, Queued)
  {
    var s := t.states[i];
    InvAlong(c, t, i);
    OneOwnerAlong(c, t, i);
    if s.main.Starting? && forall k :: k in s.main.pending ==> In(s.files, k, Queued) {
      StartingEnds(c, s);
      ExactlyWhenLost(c, t, i, r);
    } else {
      if s.main.Starting? {
        var k :| k in s.main.pending && !In(s.files, k, Queued);
        PendingIsOver(c, s, k);
      }
      StuckCannotLose(c, s, r);
    }
  }
}
