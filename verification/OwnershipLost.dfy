/**
 The other direction: a live run that is not the registered, only run of its task can lose its
 record, provided that the tick under way can still end. The older run finishes winding down and takes
 the newer run's entry out of the active map, time passes, and the next tick sweeps the record as
 stale. No tick throws on the way: the loop would be at an end.
 */
module OwnershipLost {
  import opened Domain
  import opened Store
  import opened Scheduling
  import opened Protocol
  import opened Walks
  import opened Shape
  import opened Exclusion
  import opened Ownership

  /* ---- No two live runs of one task ---- */

  ghost predicate OneOwner(s: State) {
    && (forall r :: Owner(s, r) ==> !In(s.files, s.runs[r].task, Queued))
    && (forall r, q :: Owner(s, r) && Owner(s, q) && s.runs[r].task == s.runs[q].task ==> r == q)
  }

  // Only a requeue or a new task puts a file into queued/.
  lemma QueuedAfterCall(files: Files, call: StoreCall, clock: int, id: TaskId)
    requires In(Performed(files, call, clock), id, Queued)
    ensures In(files, id, Queued) || (call.Put? && call.task.id == id)
            || (call.Transition? && call.id == id && call.move.Requeue?)
  {
  }

  lemma OneOwnerMain(c: Config, s: State, a: MainAct)
    requires RunsOk(s.runs, s.active, s.nextRun, s.born.Keys) && OneOwner(s) && MainEnabled(s, a)
    ensures OneOwner(MainStep(c, s, a))
  {
    var s' := MainStep(c, s, a);
    MainQueuesNothing(c, s, a);
    if Starts(c, s, a) {
      assert forall r :: r in s.runs ==> r != s.nextRun;
    }
  }

  lemma MainQueuesNothing(c: Config, s: State, a: MainAct)
    requires MainEnabled(s, a)
    ensures forall id :: In(Performed(s.files, MainCall(c, s, a), s.clock), id, Queued) ==> In(s.files, id, Queued)
  {
    forall id | In(Performed(s.files, MainCall(c, s, a), s.clock), id, Queued) ensures In(s.files, id, Queued) {
      QueuedAfterCall(s.files, MainCall(c, s, a), s.clock, id);
    }
  }

  lemma OneOwnerRun(c: Config, s: State, q: RunId, a: RunAct)
    requires OneOwner(s) && RunEnabled(s, q, a)
    ensures OneOwner(RunStep(c, s, q, a))
  {
    var s' := RunStep(c, s, q, a);
    forall r | Owner(s', r) ensures Owner(s, r) && !In(s'.files, s'.runs[r].task, Queued) {
      if In(s'.files, s'.runs[r].task, Queued) {
        QueuedAfterCall(s.files, RunCall(s, q, a), s.clock, s'.runs[r].task);
      }
    }
  }

  lemma OneOwnerEnqueue(s: State, id: TaskId, a: EnqueueAct)
    requires Wf(s) && OneOwner(s) && EnqueueEnabled(s, id, a)
    ensures OneOwner(EnqueueStep(s, id, a))
  {
    var s' := EnqueueStep(s, id, a);
    forall r | Owner(s', r) ensures !In(s'.files, s'.runs[r].task, Queued) {
      if In(s'.files, s'.runs[r].task, Queued) {
        QueuedAfterCall(s.files, EnqueueCall(s, id, a), s.clock, s'.runs[r].task);
      }
    }
  }

  lemma OneOwnerStep(c: Config, s: State, l: Label, s': State)
    requires Wf(s) && OneOwner(s) && Next(c, s, l, s')
    ensures OneOwner(s')
  {
    match l
    case Main(a) => OneOwnerMain(c, s, a);
    case OfRun(r, a) => OneOwnerRun(c, s, r, a);
    case OfEnqueue(id, a) => OneOwnerEnqueue(s, id, a);
    case _ =>
  }

  lemma {:induction false} OneOwnerAlong(c: Config, t: Trace, i: nat)
    requires Behavior(c, t) && i < |t.states|
    ensures Wf(t.states[i]) && OneOwner(t.states[i])
  {
    if i == 0 {
      WfInit(t.states[0]);
    } else {
      OneOwnerAlong(c, t, i - 1);
      WfStep(c, t.states[i - 1], t.labels[i - 1], t.states[i]);
      OneOwnerStep(c, t.states[i - 1], t.labels[i - 1], t.states[i]);
    }
  }

  /* ---- The continuation ---- */

  // Live, unregistered, and running for longer than the stale cutoff.
  ghost predicate Doomed(c: Config, s: State, r: RunId, slot: Slot) {
    var id := slot.task.id;
    && Owner(s, r) && s.runs[r].task == id && id !in s.active
    && id in s.files && s.files[id] == slot
    && slot.dir == Running && slot.task.status == Running && slot.task.startedAt.Some?
    && s.clock - slot.task.startedAt.value >= c.staleCutoffMs
  }

  lemma DoomedInMain(c: Config, s: State, a: MainAct, r: RunId, slot: Slot)
    requires Doomed(c, s, r, slot) && MainEnabled(s, a) && PruneOk(s.main) && !InBoot(s.main)
    requires !a.StartNext?
    requires MainCall(c, s, a).Transition? ==> MainCall(c, s, a).id != slot.task.id
    ensures Doomed(c, MainStep(c, s, a), r, slot)
    ensures Hop(c, s, Main(a), MainStep(c, s, a))
  {
    CallElsewhere(s.files, MainCall(c, s, a), s.clock, slot.task.id);
  }

  lemma DrainPrune(c: Config, s: State, r: RunId, slot: Slot) returns (w: Walk, u: State)
    requires Doomed(c, s, r, slot) && s.main.Pruning? && !s.main.boot && PruneOk(s.main)
    ensures Leads(c, s, w, u) && Doomed(c, u, r, slot) && u.main == ReadingDirectory(TASK_STATUSES, [])
    decreases |s.main.dirs|, s.main.files
  {
    var a := PruneDone;
    if s.main.files != {} {
      var k :| k in s.main.files;
      a := PruneFile(k);
    } else if s.main.dirs != [] {
      a := PruneDirectory;
    }
    DoomedInMain(c, s, a, r, slot);
    PcAfterMain(c, s, a);
    u := MainStep(c, s, a);
    w := Then(Main(a), u, Here);
    if a != PruneDone {
      var rest: Walk;
      ghost var m := u;
      rest, u := DrainPrune(c, m, r, slot);
      w := Then(Main(a), m, rest);
    }
  }

  predicate WillShow(pc: MainPc, slot: Slot) {
    slot.task in Listed(pc) || StillAhead(pc, slot.task.id, Running)
  }

  // One more turn of the listing.
  lemma ListOn(c: Config, s: State, slot: Slot) returns (a: MainAct)
    requires slot.task.id in s.files && s.files[slot.task.id] == slot && slot.dir == Running && WillShow(s.main, slot)
    requires (s.main.ReadingDirectory? && s.main.left != []) || (s.main.ReadingFiles? && s.main.left != [])
    ensures MainEnabled(s, a) && MainCall(c, s, a) == NoCall && !a.StartNext?
    ensures WillShow(MainAfter(c, s, a), slot)
    ensures var pc := MainAfter(c, s, a);
            if a.ListDirectory? then s.main.ReadingDirectory? && pc.ReadingFiles? && pc.left == s.main.left
            else if a.ListNext? then pc.ReadingDirectory? && pc.left == s.main.left[1..]
            else s.main.ReadingFiles? && pc.ReadingFiles? && pc.left == s.main.left && pc.unread < s.main.unread
  {
    if s.main.ReadingDirectory? {
      a := ListDirectory;
    } else if s.main.unread != {} {
      var k :| k in s.main.unread;
      a := ListFile(k);
    } else {
      a := ListNext;
    }
  }

  lemma DrainListing(c: Config, s: State, r: RunId, slot: Slot) returns (w: Walk, u: State)
    requires Doomed(c, s, r, slot) && WillShow(s.main, slot)
    requires s.main.ReadingDirectory? || (s.main.ReadingFiles? && s.main.left != [])
    ensures Leads(c, s, w, u) && Doomed(c, u, r, slot)
    ensures u.main.ReadingDirectory? && u.main.left == [] && slot.task in u.main.listed
    decreases |s.main.left|, s.main.ReadingDirectory?, if s.main.ReadingFiles? then s.main.unread else {}
  {
    if s.main.ReadingDirectory? && s.main.left == [] {
      return Here, s;
    }
    var a := ListOn(c, s, slot);
    DoomedInMain(c, s, a, r, slot);
    var m := MainStep(c, s, a);
    var rest: Walk;
    rest, u := DrainListing(c, m, r, slot);
    w := Then(Main(a), m, rest);
  }

  lemma SweepReaches(c: Config, s: State, r: RunId, slot: Slot) returns (w: Walk, u: State, l: Label, u': State)
    requires Doomed(c, s, r, slot) && s.main.SweepingStale? && slot.task in s.main.rest
    requires s.main.sweptAt - slot.task.startedAt.value >= c.staleCutoffMs
    ensures Leads(c, s, w, u) && Hop(c, u, l, u') && Loses(u, l, u', r)
    decreases |s.main.rest|
  {
    var a := SweepNext(true);
    var first := s.main.rest[0];
    var m := MainStep(c, s, a);
    if first.id == slot.task.id && Stale(c, s, first, s.main.sweptAt) {
      return Here, s, Main(a), m;
    }
    DoomedInMain(c, s, a, r, slot);
    assert slot.task in s.main.rest[1..];
    var rest: Walk;
    if m.main.DroppingStale? {
      DoomedInMain(c, m, SweepDrop, r, slot);
      var m' := MainStep(c, m, SweepDrop);
      rest, u, l, u' := SweepReaches(c, m', r, slot);
      rest := Then(Main(SweepDrop), m', rest);
    } else {
      rest, u, l, u' := SweepReaches(c, m, r, slot);
    }
    w := Then(Main(a), m, rest);
  }

  lemma ListedIsSwept(c: Config, s: State, r: RunId, slot: Slot)
    requires Doomed(c, s, r, slot) && s.main == ReadingDirectory(TASK_STATUSES, [])
    ensures CanLose(c, s, r)
  {
    assert StillAhead(s.main, slot.task.id, Running);
    var v, m := DrainListing(c, s, r, slot);
    DoomedInMain(c, m, ListDone, r, slot);
    var m' := MainStep(c, m, ListDone);
    var w, u, l, u' := SweepReaches(c, m', r, slot);
    LeadsOn(c, s, v, m, Then(Main(ListDone), m', w), u);
    assert Leads(c, s, Joined(v, Then(Main(ListDone), m', w)), u);
  }

  lemma CanLoseEarlier(c: Config, s: State, w: Walk, m: State, r: RunId)
    requires Leads(c, s, w, m) && CanLose(c, m, r)
    ensures CanLose(c, s, r)
  {
    var v, u, l, u' :| Leads(c, m, v, u) && Hop(c, u, l, u') && Loses(u, l, u', r);
    LeadsOn(c, s, w, m, v, u);
  }

  lemma DoomedLoses(c: Config, s: State, r: RunId, slot: Slot)
    requires Doomed(c, s, r, slot) && s.main.Idle?
    ensures CanLose(c, s, r)
  {
    DoomedInMain(c, s, TickBegin, r, slot);
    var m := MainStep(c, s, TickBegin);
    var first := Then(Main(TickBegin), m, Here);
    assert Leads(c, s, first, m);
    if m.main.Pruning? {
      var w, u := DrainPrune(c, m, r, slot);
      ListedIsSwept(c, u, r, slot);
      CanLoseEarlier(c, m, w, u, r);
    } else {
      ListedIsSwept(c, m, r, slot);
    }
    CanLoseEarlier(c, s, first, m, r);
  }

  // Somebody else holds, or will take away, the entry of a live run that is not sole.
  lemma Unregister(c: Config, s: State, q: RunId, r: RunId) returns (w: Walk, u: State)
    requires HoldsRecord(s, r) && q in s.runs && q != r && s.runs[q].task == s.runs[r].task && OneOwner(s)
    ensures Leads(c, s, w, u) && HoldsRecord(u, r) && u.runs[r] == s.runs[r] && u.files == s.files
    ensures s.runs[r].task !in u.active && u.main == s.main && u.clock == s.clock
  {
    assert !Owner(s, q);
    var m := s;
    if s.runs[q].pc.Dropping? {
      m := RunStep(c, s, q, DropSteps);
    }
    u := RunStep(c, m, q, Settle);
    w := if s.runs[q].pc.Dropping? then Then(OfRun(q, DropSteps), m, Then(OfRun(q, Settle), u, Here))
         else Then(OfRun(q, Settle), u, Here);
    assert Hop(c, m, OfRun(q, Settle), u);
    assert Leads(c, m, Then(OfRun(q, Settle), u, Here), u);
  }

  lemma UnregisteredLoses(c: Config, s: State, r: RunId)
    requires Wf(s) && s.main.Idle? && HoldsRecord(s, r) && s.runs[r].task !in s.active
    ensures CanLose(c, s, r)
  {
    var id := s.runs[r].task;
    assert SlotOk(s.files[id], id, s.born, s.clock);
    var u := s.(clock := s.clock + c.staleCutoffMs);
    assert Hop(c, s, Advance(c.staleCutoffMs), u);
    assert Leads(c, u, Here, u);
    DoomedLoses(c, u, r, s.files[id]);
    CanLoseEarlier(c, s, Then(Advance(c.staleCutoffMs), u, Here), u, r);
  }

  /* ---- Ticks that can still end ---- */

  predicate MainOnly(w: Walk)
    decreases w
  {
    w.Then? ==> w.via.Main? && MainOnly(w.rest)
  }

  // The main loop can bring the tick it is in to its end. One that throws ends the loop.
  ghost predicate TickEnds(c: Config, s: State) {
    exists w, u :: Leads(c, s, w, u) && MainOnly(w) && u.main.Idle?
  }

  lemma IdleEnds(c: Config, s: State)
    requires s.main.Idle?
    ensures TickEnds(c, s)
  {
    assert Leads(c, s, Here, s);
  }

  // Main-loop steps that leave the record of a live run alone leave the run as it is.
  lemma StillNotSole(c: Config, s: State, a: MainAct, r: RunId)
    requires RunsOk(s.runs, s.active, s.nextRun, s.born.Keys) && MainEnabled(s, a)
    requires HoldsRecord(s, r) && !Sole(s, r)
    requires SlotOf(MainStep(c, s, a), s.runs[r].task) == SlotOf(s, s.runs[r].task)
    ensures HoldsRecord(MainStep(c, s, a), r) && !Sole(MainStep(c, s, a), r)
  {
    var s', id := MainStep(c, s, a), s.runs[r].task;
    if Starts(c, s, a) {
      assert s.main.pending[0] != id;
    }
    assert forall q :: q in s.runs ==> q in s'.runs && s'.runs[q] == s.runs[q];
    assert id in s'.active <==> id in s.active;
  }

  lemma {:induction false} NotSoleToTheEnd(c: Config, s: State, w: Walk, u: State, r: RunId)
    requires Wf(s) && HoldsRecord(s, r) && !Sole(s, r) && Leads(c, s, w, u) && MainOnly(w)
    ensures CanLose(c, s, r) || (HoldsRecord(u, r) && !Sole(u, r))
    decreases w
  {
    if w.Then? {
      if Loses(s, w.via, w.to, r) {
        assert Leads(c, s, Here, s);
      } else {
        StillNotSole(c, s, w.via.act, r);
        WfStep(c, s, w.via, w.to);
        NotSoleToTheEnd(c, w.to, w.rest, u, r);
        if CanLose(c, w.to, r) {
          assert Leads(c, w.to, Here, w.to);
          CanLoseEarlier(c, s, Then(w.via, w.to, Here), w.to, r);
        }
      }
    }
  }

  lemma NotSoleLoses(c: Config, s: State, r: RunId)
    requires Wf(s) && OneOwner(s) && HoldsRecord(s, r) && !Sole(s, r) && TickEnds(c, s)
    ensures CanLose(c, s, r)
  {
    var w, u :| Leads(c, s, w, u) && MainOnly(w) && u.main.Idle?;
    NotSoleToTheEnd(c, s, w, u, r);
    if !CanLose(c, s, r) {
      WfAlong(c, s, w, u);
      OneOwnerWalk(c, s, w, u);
      IdleNotSoleLoses(c, u, r);
      CanLoseEarlier(c, s, w, u, r);
    }
  }

  // While a tick is starting tasks, it can still end exactly when everything it has yet to start is
  // still queued.
  lemma StartingEnds(c: Config, s: State)
    requires s.main.Starting? && NoRepeats(s.main.pending)
    ensures TickEnds(c, s) <==> forall k :: k in s.main.pending ==> In(s.files, k, Queued)
  {
    if forall k :: k in s.main.pending ==> In(s.files, k, Queued) {
      var w, u := StartsAll(c, s);
    } else {
      forall w, u | Leads(c, s, w, u) && MainOnly(w) ensures !u.main.Idle? {
        WillThrowAlong(c, s, w, u);
      }
    }
  }

  lemma StartOnward(c: Config, s: State)
    requires s.main.Starting? && s.main.pending != [] && NoRepeats(s.main.pending)
    requires forall k :: k in s.main.pending ==> In(s.files, k, Queued)
    ensures var m := MainStep(c, s, StartNext);
            && m.main == Starting(s.main.pending[1..]) && NoRepeats(m.main.pending)
            && forall k :: k in m.main.pending ==> In(m.files, k, Queued)
  {
    RestPending(s.main.pending);
    assert s.main.pending[0] in s.main.pending;
  }

  lemma {:induction false} StartsAll(c: Config, s: State) returns (w: Walk, u: State)
    requires s.main.Starting? && NoRepeats(s.main.pending)
    requires forall k :: k in s.main.pending ==> In(s.files, k, Queued)
    ensures Leads(c, s, w, u) && MainOnly(w) && u.main.Idle?
    decreases |s.main.pending|
  {
    if s.main.pending == [] {
      u := MainStep(c, s, TickDone);
      w := Then(Main(TickDone), u, Here);
    } else {
      StartOnward(c, s);
      var m := MainStep(c, s, StartNext);
      var v: Walk;
      v, u := StartsAll(c, m);
      w := Then(Main(StartNext), m, v);
    }
  }

  ghost predicate WillThrow(s: State) {
    s.main.Stopped? || (s.main.Starting? && exists k :: k in s.main.pending && !In(s.files, k, Queued))
  }

  lemma WillThrowStep(c: Config, s: State, a: MainAct)
    requires WillThrow(s) && MainEnabled(s, a)
    ensures WillThrow(MainStep(c, s, a))
  {
    if s.main.Starting? && a.StartNext? && Starts(c, s, a) {
      var k :| k in s.main.pending && !In(s.files, k, Queued);
      assert k in s.main.pending[1..] && !In(MainStep(c, s, a).files, k, Queued);
    }
  }

  lemma {:induction false} WillThrowAlong(c: Config, s: State, w: Walk, u: State)
    requires WillThrow(s) && Leads(c, s, w, u) && MainOnly(w)
    ensures WillThrow(u)
    decreases w
  {
    if w.Then? {
      WillThrowStep(c, s, w.via.act);
      WillThrowAlong(c, w.to, w.rest, u);
    }
  }

  lemma IdleNotSoleLoses(c: Config, s: State, r: RunId)
    requires Wf(s) && OneOwner(s) && s.main.Idle? && HoldsRecord(s, r) && !Sole(s, r)
    ensures CanLose(c, s, r)
  {
    var id := s.runs[r].task;
    if id !in s.active {
      UnregisteredLoses(c, s, r);
    } else {
      var q :| q in s.runs && q != r && s.runs[q].task == id;
      var w, u := Unregister(c, s, q, r);
      WfAlong(c, s, w, u);
      UnregisteredLoses(c, u, r);
      CanLoseEarlier(c, s, w, u, r);
    }
  }

  lemma {:induction false} WfAlong(c: Config, s: State, w: Walk, u: State)
    requires Wf(s) && Leads(c, s, w, u)
    ensures Wf(u)
    decreases w
  {
    if w.Then? {
      WfStep(c, s, w.via, w.to);
      WfAlong(c, w.to, w.rest, u);
    }
  }

  lemma {:induction false} OneOwnerWalk(c: Config, s: State, w: Walk, u: State)
    requires Wf(s) && OneOwner(s) && Leads(c, s, w, u)
    ensures OneOwner(u)
    decreases w
  {
    if w.Then? {
      WfStep(c, s, w.via, w.to);
      OneOwnerStep(c, s, w.via, w.to);
      OneOwnerWalk(c, w.to, w.rest, u);
    }
  }

  // Between ticks, and within any tick that can still end, a live run can lose its record exactly when
  // it is not the registered and only run of its task.
  lemma ExactlyWhenLost(c: Config, t: Trace, i: nat, r: RunId)
    requires Behavior(c, t) && i < |t.states|
    requires HoldsRecord(t.states[i], r) && (t.states[i].main.Idle? || TickEnds(c, t.states[i]))
    ensures CanLose(c, t.states[i], r) <==> !Sole(t.states[i], r)
  {
    if t.states[i].main.Idle? { IdleEnds(c, t.states[i]); }
    OneOwnerAlong(c, t, i);
    if Sole(t.states[i], r) {
      SoleCannotLose(c, t.states[i], r);
    } else {
      NotSoleLoses(c, t.states[i], r);
    }
  }
}
