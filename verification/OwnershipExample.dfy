/**
 A behaviour in which a live run loses its record. A task is rate-limited and requeued; while its
 first run is still notifying, the pause runs out and the next tick starts the task again. The
 first run then winds down and takes the second run's entry with it.
 */
module OwnershipExample {
  import opened Domain
  import opened Store
  import opened Scheduling
  import opened Protocol
  import opened Walks
  import opened Shape
  import opened Exclusion
  import opened Ownership
  import opened OwnershipLost
  import opened Supersede
  import opened TickWalks

  const TOOL := Named(0)
  const ISSUE := Source(0, 0, Issue, 1)
  const CONFIG := Config(map[0 := [TOOL]], 1, 1, true, 1, 1, 1000)

  function Start0(): State {
    State(map[], map[], map[], BootStart, map[], map[], 0, map[], 0, 0, 1, map[], 0)
  }

  // A main-loop step that only moves the program counter.
  lemma Turn(c: Config, s: State, a: MainAct, pc: MainPc) returns (w: Walk)
    requires MainEnabled(s, a) && MainStep(c, s, a) == s.(main := pc)
    ensures Leads(c, s, w, s.(main := pc))
  {
    OneStep(c, s, Main(a), s.(main := pc));
    w := Then(Main(a), s.(main := pc), Here);
  }

  lemma {:induction false} BootReadsNothing(c: Config, s: State, w: Walk, m: State, left: seq<Status>)
    returns (v: Walk, u: State)
    requires Trail(c, s, w, m) && m.files == map[] && m.main == ListingActive(left, {})
    ensures Trail(c, s, v, u) && u == m.(main := ListingActive([], {}))
    decreases |left|
  {
    if left == [] {
      v, u := w, m;
    } else {
      assert InDirectory(m.files, left[0]) == {};
      v, u := Goes(c, s, w, m, BootDirectory, ListingFiles(left, {}, {}));
      v, u := Goes(c, s, v, u, BootNext, ListingActive(left[1..], {}));
      v, u := BootReadsNothing(c, s, v, u, left[1..]);
    }
  }

  lemma RecoverNothing(c: Config, s: State) returns (w: Walk)
    requires s.main.BootStart? && s.files == map[]
    ensures Leads(c, s, w, s.(main := SweepingCheckpoints({})))
  {
    assert InDirectory(s.files, Running) == {};
    assert Trail(c, s, Here, s);
    var u: State;
    w, u := Goes(c, s, Here, s, BootList, Recovering({}));
    w, u := Goes(c, s, w, u, RecoverDone, ListingActive(TASK_STATUSES, {}));
    w, u := BootReadsNothing(c, s, w, u, TASK_STATUSES);
    w, u := Goes(c, s, w, u, BootActive, SweepingCheckpoints({}));
  }

  lemma BootEmpty(c: Config, s: State) returns (w: Walk)
    requires s.main.BootStart? && s.files == map[] && s.saved == map[]
    ensures Leads(c, s, w, s.(main := Idle, lastPruneAt := s.clock))
  {
    w := RecoverNothing(c, s);
    var s3 := s.(main := SweepingCheckpoints({}));
    var s4 := s.(main := PrunePc(c, s, true), lastPruneAt := s.clock);
    assert MainSaved(s3, BootSweep) == map[];
    assert MainStep(c, s3, BootSweep) == s4;
    OneStep(c, s3, Main(BootSweep), s4);
    w := And(c, s, w, s3, Then(Main(BootSweep), s4, Here), s4);
    var v := PruneNothing(c, s4);
    w := And(c, s, w, s4, v, s4.(main := Idle));
  }

  lemma PruneNothing(c: Config, s: State) returns (w: Walk)
    requires s.files == map[] && s.main.Pruning? && s.main.boot && s.main.files == {}
    ensures Leads(c, s, w, s.(main := Idle))
    decreases if s.main.Pruning? then |s.main.dirs| else 0
  {
    if s.main.dirs == [] {
      w := Turn(c, s, PruneDone, Idle);
    } else {
      var m := MainStep(c, s, PruneDirectory);
      var v := Turn(c, s, PruneDirectory, m.main);
      w := PruneNothing(c, m);
      w := And(c, s, v, m, w, s.(main := Idle));
    }
  }

  // One task, queued and nothing else on disk.
  predicate OnlyQueued(c: Config, s: State, id: TaskId) {
    && s.files.Keys == {id} && s.files[id].dir == Queued && s.files[id].task.status == Queued
    && s.files[id].task.id == id
    && ToolsFor(c.uses, s.files[id].task) !! ActivePauses(s.pauses, s.clock) + GLOBAL_TOOLS
    && GitHub !in ActivePauses(s.pauses, s.clock)
    && c.maxConcurrency >= 1 && c.hasPauseStore && s.clock - s.lastPruneAt < c.pruneIntervalMs
  }

  function StartedState(s: State, id: TaskId): State
    requires id in s.files
  {
    s.(files := s.files[id := Moved(s.files[id], Start, s.clock)],
       active := s.active[id := s.nextRun],
       runs := s.runs[s.nextRun := Run(id, Executing)],
       nextRun := s.nextRun + 1)
  }

  lemma SelectOne(c: Config, task: Task, paused: set<Tool>)
    requires task.status == Queued && c.maxConcurrency >= 1
    requires ToolsFor(c.uses, task) !! paused && GitHub !in paused
    ensures Ids(Selection([task], c.maxConcurrency, paused, c.uses)) == [task.id]
  {
    var b := BudgetFor([task], c.maxConcurrency, paused, c.uses);
    assert [task][1..] == [];
    assert WithStatus([task], Queued) == [task] && WithStatus([task], Running) == [];
    assert Chosen(b, [task], 0) == {} && Fits(b, [task], {}, 0);
    TakenStep(b, [task], 0);
    assert paused !! GLOBAL_TOOLS;
  }

  lemma ListsIt(s: State)
    requires s.files.Keys == {0} && s.files[0].dir == Queued
    ensures Unended(s.files, 1) && QueuedThenRunning(s.files, 1) == [s.files[0].task]
  {
    assert DirTasks(s.files, Queued, 0) == DirTasks(s.files, Running, 0) == [];
    assert DirTasks(s.files, Queued, 1) == [s.files[0].task] && DirTasks(s.files, Running, 1) == [];
  }

  lemma TickSelects(c: Config, s: State) returns (w: Walk)
    requires OnlyQueued(c, s, 0) && s.main == Idle
    ensures Leads(c, s, w, s.(main := Starting([0])))
  {
    ListsIt(s);
    assert Trail(c, s, Here, s);
    var u: State;
    w, u := TickReads(c, s, Here, s, 1);
    SelectOne(c, s.files[0].task, ActivePauses(s.pauses, s.clock));
    w, u := Goes(c, s, w, u, Select, Starting([0]));
  }

  lemma TickStarts(c: Config, s: State) returns (w: Walk)
    requires OnlyQueued(c, s, 0) && s.main == Idle
    ensures Leads(c, s, w, StartedState(s, 0))
  {
    w := TickSelects(c, s);
    var m := s.(main := Starting([0]));
    var v := StartOne(c, m, 0);
    assert StartedState(m.(main := Idle), 0) == StartedState(s, 0);
    w := And(c, s, w, m, v, StartedState(s, 0));
  }

  lemma StartOne(c: Config, s: State, id: TaskId) returns (w: Walk)
    requires s.main == Starting([id]) && In(s.files, id, Queued)
    ensures Leads(c, s, w, StartedState(s.(main := Idle), id))
  {
    var s1 := StartedState(s.(main := Starting([])), id);
    assert [id][1..] == [];
    assert MainStep(c, s, StartNext) == s1;
    OneStep(c, s, Main(StartNext), s1);
    var v := Turn(c, s1, TickDone, Idle);
    assert s1.(main := Idle) == StartedState(s.(main := Idle), id);
    w := And(c, s, Then(Main(StartNext), s1, Here), s1, v, s1.(main := Idle));
  }

  lemma EnqueueAlone(c: Config, s: State, id: TaskId, u: State) returns (w: Walk)
    requires id in s.born && s.enqueues == map[id := Inserted]
    requires QueuedOnSource(s.files, s.born[id].source) <= {id} && u == s.(enqueues := map[])
    ensures Leads(c, s, w, u)
  {
    assert QueuedOnSource(s.files, s.born[id].source) - {id} == {};
    var m: State;
    w, m := Finds(c, s, id, []);
    assert m.enqueues - {id} == map[];
    var v := EnqueueTurn(c, m, id, Finish, u);
    w := And(c, s, w, m, v, u);
  }

  lemma EnqueueFirst(c: Config, s: State, id: TaskId) returns (w: Walk, u: State)
    requires s.files == map[] && id !in s.born && s.enqueues == map[]
    ensures Leads(c, s, w, u)
    ensures u == s.(files := u.files, born := u.born, serial := u.serial, lastCreatedAt := u.lastCreatedAt)
    ensures u.files.Keys == {id} && u.files[id].dir == Queued && u.files[id].task.status == Queued
    ensures u.files[id].task.id == id && u.files[id].task.instruction == 0
  {
    var s1 := EnqueueStep(s, id, Insert(ISSUE, 0));
    assert s1.enqueues == map[id := Inserted];
    u := s1.(enqueues := map[]);
    w := EnqueueTurn(c, s, id, Insert(ISSUE, 0), s1);
    var v := EnqueueAlone(c, s1, id, u);
    w := And(c, s, w, s1, v, u);
  }

  lemma RunTurn(c: Config, s: State, r: RunId, a: RunAct, m: State) returns (w: Walk)
    requires RunEnabled(s, r, a) && RunStep(c, s, r, a) == m
    ensures Leads(c, s, w, m)
  {
    OneStep(c, s, OfRun(r, a), m);
    w := Then(OfRun(r, a), m, Here);
  }

  function RequeuedNow(c: Config, s: State, r: RunId, id: TaskId): State
    requires id in s.files
  {
    s.(files := s.files[id := Moved(s.files[id], Requeue, s.clock)],
       runs := s.runs[r := Run(id, Winding)],
       pauses := map[TOOL := s.clock + c.cooldownMs])
  }

  function RequeuedState(c: Config, s: State, r: RunId, id: TaskId): State
    requires id in s.files
  {
    var now := RequeuedNow(c, s, r, id);
    now.(clock := now.clock + c.cooldownMs)
  }

  lemma Limited(c: Config, s: State, r: RunId, id: TaskId) returns (w: Walk)
    requires r in s.runs && s.runs[r] == Run(id, Executing) && c.hasPauseStore && s.pauses == map[]
    ensures Leads(c, s, w, s.(runs := s.runs[r := Run(id, Reverting)], pauses := map[TOOL := s.clock + c.cooldownMs]))
  {
    var s1 := s.(runs := s.runs[r := Run(id, Pausing([TOOL], s.clock + c.cooldownMs))]);
    var s2 := s.(runs := s.runs[r := Run(id, Reverting)], pauses := map[TOOL := s.clock + c.cooldownMs]);
    w := RunTurn(c, s, r, ReturnsRateLimited([TOOL]), s1);
    assert s1.runs[r := Run(id, Reverting)] == s2.runs;
    var v := RunTurn(c, s1, r, PauseNext(true), s2);
    w := And(c, s, w, s1, v, s2);
  }

  lemma Reverts(c: Config, s: State, r: RunId, id: TaskId) returns (w: Walk)
    requires r in s.runs && s.runs[r] == Run(id, Reverting) && In(s.files, id, Running)
    ensures Leads(c, s, w, s.(files := s.files[id := Moved(s.files[id], Requeue, s.clock)],
                              runs := s.runs[r := Run(id, Winding)]))
  {
    w := RunTurn(c, s, r, RevertTask(true), s.(files := s.files[id := Moved(s.files[id], Requeue, s.clock)],
                                               runs := s.runs[r := Run(id, Winding)]));
  }

  lemma AndReverts(c: Config, s: State, w: Walk, m: State, r: RunId, id: TaskId) returns (q: Walk)
    requires Leads(c, s, w, m) && r in m.runs && m.runs[r] == Run(id, Reverting) && In(m.files, id, Running)
    ensures Leads(c, s, q, m.(files := m.files[id := Moved(m.files[id], Requeue, m.clock)],
                              runs := m.runs[r := Run(id, Winding)]))
  {
    var v := Reverts(c, m, r, id);
    q := And(c, s, w, m, v, m.(files := m.files[id := Moved(m.files[id], Requeue, m.clock)],
                               runs := m.runs[r := Run(id, Winding)]));
  }

  lemma LimitedThenReverted(c: Config, s: State, m: State, r: RunId, id: TaskId)
    requires r in s.runs && id in s.files
    requires m == s.(runs := s.runs[r := Run(id, Reverting)], pauses := map[TOOL := s.clock + c.cooldownMs])
    ensures m.(files := m.files[id := Moved(m.files[id], Requeue, m.clock)], runs := m.runs[r := Run(id, Winding)])
         == RequeuedNow(c, s, r, id)
  {
    assert m.runs[r := Run(id, Winding)] == s.runs[r := Run(id, Winding)];
  }

  lemma LimitedNow(c: Config, s: State, r: RunId, id: TaskId) returns (w: Walk)
    requires r in s.runs && s.runs[r] == Run(id, Executing) && In(s.files, id, Running)
    requires c.hasPauseStore && s.pauses == map[]
    ensures Leads(c, s, w, RequeuedNow(c, s, r, id))
  {
    w := Limited(c, s, r, id);
    var m := s.(runs := s.runs[r := Run(id, Reverting)], pauses := map[TOOL := s.clock + c.cooldownMs]);
    w := AndReverts(c, s, w, m, r, id);
    LimitedThenReverted(c, s, m, r, id);
  }

  lemma Wait(c: Config, s: State, ms: nat) returns (w: Walk)
    ensures Leads(c, s, w, s.(clock := s.clock + ms))
  {
    var m := s.(clock := s.clock + ms);
    OneStep(c, s, Advance(ms), m);
    w := Then(Advance(ms), m, Here);
  }

  lemma AndWait(c: Config, s: State, w: Walk, m: State, ms: nat) returns (r: Walk)
    requires Leads(c, s, w, m)
    ensures Leads(c, s, r, m.(clock := m.clock + ms))
  {
    var v := Wait(c, m, ms);
    r := And(c, s, w, m, v, m.(clock := m.clock + ms));
  }

  // The run is rate-limited, pauses its tool, requeues its task and starts winding down; then the
  // cooldown passes.
  lemma LimitedAndRequeued(c: Config, s: State, r: RunId, id: TaskId) returns (w: Walk)
    requires r in s.runs && s.runs[r] == Run(id, Executing) && In(s.files, id, Running)
    requires c.hasPauseStore && c.cooldownMs >= 0 && s.pauses == map[]
    ensures Leads(c, s, w, RequeuedState(c, s, r, id))
  {
    w := LimitedNow(c, s, r, id);
    w := AndWait(c, s, w, RequeuedNow(c, s, r, id), c.cooldownMs);
  }

  lemma FirstRun() returns (w: Walk, s: State)
    ensures Leads(CONFIG, Start0(), w, s)
    ensures OnlyQueued(CONFIG, s, 0) && s.main == Idle && s.runs == map[] && s.nextRun == 0 && s.pauses == map[]
    ensures s.files[0].task.instruction == 0 && s.lastPruneAt == 1 && s.clock == 1
  {
    w := BootEmpty(CONFIG, Start0());
    var s1 := Start0().(main := Idle, lastPruneAt := 1);
    var v;
    v, s := EnqueueFirst(CONFIG, s1, 0);
    w := And(CONFIG, Start0(), w, s1, v, s);
  }

  lemma RunAndRequeue(s: State) returns (w: Walk, u: State)
    requires OnlyQueued(CONFIG, s, 0) && s.main == Idle && s.runs == map[] && s.nextRun == 0 && s.pauses == map[]
    requires s.files[0].task.instruction == 0 && s.lastPruneAt == 1 && s.clock == 1
    ensures Leads(CONFIG, s, w, u)
    ensures OnlyQueued(CONFIG, u, 0) && u.main == Idle && u.runs == map[0 := Run(0, Winding)] && u.nextRun == 1
  {
    w := TickStarts(CONFIG, s);
    var m := StartedState(s, 0);
    var v := LimitedAndRequeued(CONFIG, m, 0, 0);
    u := RequeuedState(CONFIG, m, 0, 0);
    QueuedAgain(s);
    w := And(CONFIG, s, w, m, v, u);
  }

  lemma QueuedAgain(s: State)
    requires OnlyQueued(CONFIG, s, 0) && s.main == Idle && s.runs == map[] && s.nextRun == 0 && s.pauses == map[]
    requires s.files[0].task.instruction == 0 && s.lastPruneAt == 1 && s.clock == 1
    ensures var u := RequeuedState(CONFIG, StartedState(s, 0), 0, 0);
            OnlyQueued(CONFIG, u, 0) && u.main == Idle && u.runs == map[0 := Run(0, Winding)] && u.nextRun == 1
  {
  }

  lemma SecondRun(s: State) returns (w: Walk, u: State)
    requires OnlyQueued(CONFIG, s, 0) && s.main == Idle && s.runs == map[] && s.nextRun == 0 && s.pauses == map[]
    requires s.files[0].task.instruction == 0 && s.lastPruneAt == 1 && s.clock == 1
    ensures Leads(CONFIG, s, w, u)
    ensures u.main.Idle? && HoldsRecord(u, 1) && !Sole(u, 1)
  {
    var m: State;
    w, m := RunAndRequeue(s);
    var v := TickStarts(CONFIG, m);
    u := StartedState(m, 0);
    w := And(CONFIG, s, w, m, v, u);
    assert 0 in u.runs && 1 in u.runs && u.runs[0].task == u.runs[1].task;
  }

  // A reachable state between ticks with a live run that can lose its record.
  lemma AnOvertakenRun() returns (w: Walk, u: State)
    ensures Init(Start0()) && Leads(CONFIG, Start0(), w, u)
    ensures u.main.Idle? && HoldsRecord(u, 1) && !Sole(u, 1) && CanLose(CONFIG, u, 1)
  {
    var s, v;
    w, s := FirstRun();
    v, u := SecondRun(s);
    w := And(CONFIG, Start0(), w, s, v, u);
    OvertakenLoses(CONFIG, Start0(), w, u, 1);
  }

  lemma OvertakenLoses(c: Config, s0: State, w: Walk, u: State, r: RunId)
    requires Init(s0) && Leads(c, s0, w, u) && u.main.Idle? && HoldsRecord(u, r) && !Sole(u, r)
    ensures CanLose(c, u, r)
  {
    WfInit(s0);
    WfAlong(c, s0, w, u);
    OneOwnerWalk(c, s0, w, u);
    IdleNotSoleLoses(c, u, r);
  }
}
