/**
 What every reachable state looks like: which statuses a record may show in which directory, what
 a listing knows, and which parts of memory can be populated when.
 */
module Shape {
  import opened Domain
  import opened Store
  import opened Protocol

  // Left over from a crash: not yet looked at by the recovery.
  predicate Unrecovered(pc: MainPc, id: TaskId) {
    pc.BootStart? || (pc.Recovering? && id in pc.todo)
  }

  ghost predicate SlotOk(slot: Slot, id: TaskId, born: map<TaskId, Birth>, clock: int) {
    && slot.task.id == id
    && id in born
    && slot.task.source == born[id].source
    && slot.task.instruction == born[id].instruction
    && slot.mtime <= clock
    && (slot.dir == Queued ==> slot.task.status in {Queued, Running, Superseded})
    && (slot.dir == Running ==> slot.task.status != Superseded)
    && (Terminal(slot.dir) ==> slot.task.status == slot.dir)
    && (slot.task.status == Running ==> slot.task.startedAt.Some? && slot.task.startedAt.value <= clock)
  }

  ghost predicate SlotsOk(files: Files, born: map<TaskId, Birth>, clock: int) {
    forall id :: id in files ==> SlotOk(files[id], id, born, clock)
  }

  // Once recovered, a record filed under running/ says "running".
  ghost predicate RunningSaysSo(files: Files, pc: MainPc) {
    forall id :: In(files, id, Running) && !Unrecovered(pc, id) ==> files[id].task.status == Running
  }

  function Listed(pc: MainPc): seq<Task> {
    match pc
    case ReadingDirectory(_, listed) => listed
    case ReadingFiles(_, _, listed) => listed
    case SweepingStale(_, _, listed) => listed
    case DroppingStale(_, _, _, listed) => listed
    case ReadingPauses(listed) => listed
    case Selecting(listed, _) => listed
    case _ => []
  }

  ghost predicate Known(born: map<TaskId, Birth>, t: Task) {
    t.id in born && born[t.id].instruction == t.instruction
  }

  ghost predicate ListedKnown(born: map<TaskId, Birth>, listed: seq<Task>) {
    forall t :: t in listed ==> Known(born, t)
  }

  ghost predicate RunsOk(runs: map<RunId, Run>, active: map<TaskId, RunId>, nextRun: RunId, known: set<TaskId>) {
    && (forall r :: r in runs ==> r < nextRun && runs[r].task in known)
    && (forall id :: id in active ==> active[id] in runs && runs[active[id]].task == id)
  }

  predicate BootAlone(s: State) {
    InBoot(s.main) ==> s.runs == map[] && s.active == map[]
  }

  // A prune looks at terminal directories only.
  predicate PruneOk(pc: MainPc) {
    pc.Pruning? ==> Terminal(pc.dir) && forall d :: d in pc.dirs ==> Terminal(d)
  }

  ghost predicate SerialsOk(s: State) {
    && (forall id :: id in s.born ==> s.born[id].serial < s.serial)
    && (forall a, b :: a in s.born && b in s.born && s.born[a].serial == s.born[b].serial ==> a == b)
    && (forall e :: e in s.enqueues ==> e in s.born)
  }

  ghost predicate Wf(s: State) {
    && SlotsOk(s.files, s.born, s.clock)
    && RunningSaysSo(s.files, s.main)
    && ListedKnown(s.born, Listed(s.main))
    && RunsOk(s.runs, s.active, s.nextRun, s.born.Keys)
    && BootAlone(s)
    && PruneOk(s.main)
    && SerialsOk(s)
  }

  ghost predicate CallOk(files: Files, born: map<TaskId, Birth>, call: StoreCall, clock: int) {
    match call
    case Put(task) => SlotOk(Slot(task.status, task, clock), task.id, born, clock)
    case Transition(id, move) => In(files, id, From(move))
    case _ => true
  }

  lemma MovedOk(slot: Slot, id: TaskId, born: map<TaskId, Birth>, move: Move, clock: int)
    requires SlotOk(slot, id, born, clock) && slot.dir == From(move)
    ensures SlotOk(Moved(slot, move, clock), id, born, clock)
    ensures SlotOk(Torn(slot, move, clock), id, born, clock)
    ensures Moved(slot, move, clock).dir == Running ==> Moved(slot, move, clock).task.status == Running
  {
  }

  lemma SlotsAfterCall(files: Files, born: map<TaskId, Birth>, call: StoreCall, clock: int)
    requires SlotsOk(files, born, clock) && CallOk(files, born, call, clock)
    ensures SlotsOk(Performed(files, call, clock), born, clock)
  {
    match call
    case Transition(id, move) => MovedOk(files[id], id, born, move, clock);
    case _ =>
  }

  // The recovery may strike an id off its list only by moving that record out of running/.
  lemma RunningAfterCall(files: Files, call: StoreCall, clock: int, pc: MainPc, pc': MainPc)
    requires RunningSaysSo(files, pc)
    requires call.Put? ==> call.task.status == Queued
    requires call.Transition? ==> In(files, call.id, From(call.move))
    requires forall id :: In(files, id, Running) && Unrecovered(pc, id) ==>
               Unrecovered(pc', id) || (call.Transition? && call.id == id)
    ensures RunningSaysSo(Performed(files, call, clock), pc')
  {
    forall id | In(Performed(files, call, clock), id, Running) && !Unrecovered(pc', id)
      ensures Performed(files, call, clock)[id].task.status == Running
    {
      if call.Transition? && call.id == id {
      } else {
        assert In(files, id, Running);
      }
    }
  }

  lemma BornGrows(files: Files, born: map<TaskId, Birth>, listed: seq<Task>, clock: int, id: TaskId, b: Birth)
    requires id !in born && SlotsOk(files, born, clock) && ListedKnown(born, listed)
    ensures SlotsOk(files, born[id := b], clock) && ListedKnown(born[id := b], listed)
  {
  }

  lemma SlotsLater(files: Files, born: map<TaskId, Birth>, clock: int, later: int)
    requires SlotsOk(files, born, clock) && clock <= later
    ensures SlotsOk(files, born, later)
  {
  }

  lemma ListedAfter(c: Config, s: State, a: MainAct)
    requires Wf(s) && MainEnabled(s, a)
    ensures ListedKnown(s.born, Listed(MainAfter(c, s, a)))
  {
    match a
    case ListFile(id) =>
      var got := if In(s.files, id, s.main.left[0]) then [s.files[id].task] else [];
      forall t | t in s.main.listed + got ensures Known(s.born, t) {
        if t in got { assert SlotOk(s.files[id], id, s.born, s.clock); }
      }
      assert s.main.listed + [] == s.main.listed;
    case _ =>
  }

  lemma UnrecoveredAfter(c: Config, s: State, a: MainAct)
    requires Wf(s) && MainEnabled(s, a)
    ensures forall id :: In(s.files, id, Running) && Unrecovered(s.main, id) ==>
              Unrecovered(MainAfter(c, s, a), id)
              || (MainCall(c, s, a).Transition? && MainCall(c, s, a).id == id)
  {
  }

  lemma RunsAfterStart(s: State, id: TaskId, known: set<TaskId>)
    requires RunsOk(s.runs, s.active, s.nextRun, known) && id in known
    ensures RunsOk(s.runs[s.nextRun := Run(id, Executing)], s.active[id := s.nextRun], s.nextRun + 1, known)
  {
  }

  lemma RunsAfterSettle(s: State, r: RunId, known: set<TaskId>)
    requires RunsOk(s.runs, s.active, s.nextRun, known) && r in s.runs
    ensures RunsOk(s.runs - {r}, s.active - {s.runs[r].task}, s.nextRun, known)
  {
  }

  lemma RunsAfterTurn(s: State, r: RunId, pc: RunPc, known: set<TaskId>)
    requires RunsOk(s.runs, s.active, s.nextRun, known) && r in s.runs
    ensures RunsOk(s.runs[r := Run(s.runs[r].task, pc)], s.active, s.nextRun, known)
  {
  }

  lemma PcAfterMain(c: Config, s: State, a: MainAct)
    requires PruneOk(s.main) && MainEnabled(s, a)
    ensures PruneOk(MainAfter(c, s, a))
    ensures InBoot(MainAfter(c, s, a)) ==> InBoot(s.main)
  {
    if a.PruneDirectory? {
      assert forall d :: d in s.main.dirs[1..] ==> d in s.main.dirs;
      assert s.main.dirs[0] in s.main.dirs;
    }
  }

  lemma FilesAfterMain(c: Config, s: State, a: MainAct)
    requires Wf(s) && MainEnabled(s, a)
    ensures var files' := Performed(s.files, MainCall(c, s, a), s.clock);
            SlotsOk(files', s.born, s.clock) && RunningSaysSo(files', MainAfter(c, s, a))
  {
    SlotsAfterCall(s.files, s.born, MainCall(c, s, a), s.clock);
    UnrecoveredAfter(c, s, a);
    RunningAfterCall(s.files, MainCall(c, s, a), s.clock, s.main, MainAfter(c, s, a));
  }

  lemma WfMain(c: Config, s: State, a: MainAct)
    requires Wf(s) && MainEnabled(s, a)
    ensures Wf(MainStep(c, s, a))
  {
    FilesAfterMain(c, s, a);
    ListedAfter(c, s, a);
    PcAfterMain(c, s, a);
    if Starts(c, s, a) {
      assert SlotOk(s.files[s.main.pending[0]], s.main.pending[0], s.born, s.clock);
      RunsAfterStart(s, s.main.pending[0], s.born.Keys);
    }
  }

  lemma WfRun(c: Config, s: State, r: RunId, a: RunAct)
    requires Wf(s) && RunEnabled(s, r, a)
    ensures Wf(RunStep(c, s, r, a))
  {
    SlotsAfterCall(s.files, s.born, RunCall(s, r, a), s.clock);
    RunningAfterCall(s.files, RunCall(s, r, a), s.clock, s.main, s.main);
    RunsAfterSettle(s, r, s.born.Keys);
    RunsAfterTurn(s, r, RunAfter(c, s, r, a), s.born.Keys);
  }

  lemma WfEnqueue(s: State, id: TaskId, a: EnqueueAct)
    requires Wf(s) && EnqueueEnabled(s, id, a)
    ensures Wf(EnqueueStep(s, id, a))
  {
    var s' := EnqueueStep(s, id, a);
    if a.Insert? {
      BornGrows(s.files, s.born, Listed(s.main), s.clock, id, s'.born[id]);
    }
    SlotsAfterCall(s.files, s'.born, EnqueueCall(s, id, a), s.clock);
    RunningAfterCall(s.files, EnqueueCall(s, id, a), s.clock, s.main, s.main);
  }

  lemma WfCrash(c: Config, s: State, torn: map<TaskId, Move>)
    requires Wf(s) && Enabled(c, s, Crash(torn))
    ensures Wf(After(c, s, Crash(torn)))
  {
    forall id | id in s.files
      ensures SlotOk(AfterCrash(s.files, torn, s.clock)[id], id, s.born, s.clock)
    {
      if id in torn { MovedOk(s.files[id], id, s.born, torn[id], s.clock); }
    }
  }

  lemma WfStep(c: Config, s: State, l: Label, s': State)
    requires Wf(s) && Next(c, s, l, s')
    ensures Wf(s')
  {
    match l
    case Main(a) => WfMain(c, s, a);
    case OfRun(r, a) => WfRun(c, s, r, a);
    case OfEnqueue(id, a) => WfEnqueue(s, id, a);
    case Crash(torn) => WfCrash(c, s, torn);
    case Advance(ms) => SlotsLater(s.files, s.born, s.clock, s.clock + ms);
    case _ =>
  }

  lemma WfInit(s: State)
    requires Init(s)
    ensures Wf(s)
  {
  }
}
