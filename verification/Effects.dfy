/**
 What each step does to what is on disk, said of directories, record fields, pauses and saved steps.
 */
module Effects {
  import opened Domain
  import opened Store
  import opened Scheduling
  import opened Protocol

  /* ---- Queue files ---- */

  // The one record is there afterwards, and no other has changed.
  predicate OnlyAt(files: Files, files': Files, id: TaskId) {
    id in files' && files' == files[id := files'[id]]
  }

  // The record that the sweep has come to is stale: on the list it says "running", nothing in memory runs
  // it, and it had been started at least the cutoff before the sweep began.
  predicate FoundStale(c: Config, s: State, t: Task, sweptAt: int) {
    t.status == Running && t.id !in s.active && t.startedAt.Some? && t.startedAt.value + c.staleCutoffMs <= sweptAt
  }

  lemma MainFiles(c: Config, s: State, a: MainAct)
    requires MainEnabled(s, a)
    ensures var s' := MainStep(c, s, a);
            match a
            case RecoverOne(id) =>
              if In(s.files, id, Running)
              then
                && OnlyAt(s.files, s'.files, id)
                && IsFailed(s.files[id].task, s'.files[id], "daemon interrupted before completion", s.clock)
              else s'.files == s.files
            case SweepNext(ok) =>
              var t := s.main.rest[0];
              if ok && FoundStale(c, s, t, s.main.sweptAt) && In(s.files, t.id, Running)
              then
                && OnlyAt(s.files, s'.files, t.id)
                && IsFailed(s.files[t.id].task, s'.files[t.id], "stale running: no in-memory active task", s.clock)
              else s'.files == s.files
            case StartNext =>
              var id := s.main.pending[0];
              if In(s.files, id, Queued)
              then OnlyAt(s.files, s'.files, id) && IsStarted(s.files[id].task, s'.files[id], s.clock)
              else s'.files == s.files
            case PruneFile(id) =>
              s'.files == if In(s.files, id, s.main.dir) && s.files[id].mtime <= s.main.cutoff then s.files - {id}
                          else s.files
            case _ => s'.files == s.files
  {
    var call, files' := MainCall(c, s, a), MainStep(c, s, a).files;
    assert files' == Performed(s.files, call, s.clock);
    if call.Transition? {
      MovedSays(s.files[call.id], call.move, s.clock);
      assert OnlyAt(s.files, files', call.id) && files'[call.id] == Moved(s.files[call.id], call.move, s.clock);
    }
  }

  lemma RunFiles(c: Config, s: State, r: RunId, a: RunAct)
    requires RunEnabled(s, r, a)
    ensures var s', id := RunStep(c, s, r, a), s.runs[r].task;
            match a
            case CompleteTask(ok) =>
              if ok && In(s.files, id, Running)
              then
                && OnlyAt(s.files, s'.files, id)
                && match s.runs[r].pc.outcome
                   case Success => IsSucceeded(s.files[id].task, s'.files[id], s.clock)
                   case Failure(summary) => IsFailed(s.files[id].task, s'.files[id], summary, s.clock)
              else s'.files == s.files
            case RevertTask(ok) =>
              if ok && In(s.files, id, Running)
              then OnlyAt(s.files, s'.files, id) && IsRequeued(s.files[id].task, s'.files[id], s.clock)
              else s'.files == s.files
            case _ => s'.files == s.files
  {
    var call := RunCall(s, r, a);
    if call.Transition? { MovedSays(s.files[call.id], call.move, s.clock); }
  }

  lemma EnqueueFiles(s: State, e: TaskId, a: EnqueueAct)
    requires EnqueueEnabled(s, e, a)
    ensures var s' := EnqueueStep(s, e, a);
            match a
            case Insert(source, instruction) =>
              && s'.lastCreatedAt > s.lastCreatedAt && s'.lastCreatedAt >= s.clock
              && OnlyAt(s.files, s'.files, e)
              && s'.files[e] == Slot(
                   Queued, Task(e, source, instruction, Queued, s'.lastCreatedAt, None, None, None, None), s.clock)
            case Mark(ok) =>
              var id := s.enqueues[e].rest[0];
              if ok && In(s.files, id, Queued)
              then OnlyAt(s.files, s'.files, id) && IsSuperseded(s.files[id].task, s'.files[id], e, s.clock)
              else s'.files == s.files
            case _ => s'.files == s.files
  {
    var call := EnqueueCall(s, e, a);
    if call.Transition? { MovedSays(s.files[call.id], call.move, s.clock); }
  }

  // A transition cut short by a crash leaves the new record in the old directory.
  lemma CrashFiles(c: Config, s: State, torn: map<TaskId, Move>)
    requires Enabled(c, s, Crash(torn))
    ensures var s' := After(c, s, Crash(torn));
            && s'.files.Keys == s.files.Keys
            && forall id :: id in s.files ==>
                 if id !in torn then s'.files[id] == s.files[id]
                 else
                   && s'.files[id].dir == s.files[id].dir == From(torn[id])
                   && var task, after := s.files[id].task, s'.files[id];
                      match torn[id]
                      case Start => IsStarted(task, after.(dir := Running), s.clock)
                      case Complete(Success) => IsSucceeded(task, after.(dir := Succeeded), s.clock)
                      case Complete(Failure(summary)) => IsFailed(task, after.(dir := Failed), summary, s.clock)
                      case Requeue => IsRequeued(task, after.(dir := Queued), s.clock)
                      case Replace(newer) => IsSuperseded(task, after.(dir := Superseded), newer, s.clock)
                      case Recover(summary) => IsFailed(task, after.(dir := Failed), summary, s.clock)
  {
  }

  /* ---- Pauses ---- */

  // The pause of the tool is the later of the two, and no other has changed.
  predicate PausedTo(pauses: map<Tool, int>, pauses': map<Tool, int>, tool: Tool, until: int) {
    && tool in pauses' && pauses' == pauses[tool := pauses'[tool]]
    && pauses'[tool] >= until && (tool in pauses ==> pauses'[tool] >= pauses[tool])
    && (pauses'[tool] == until || (tool in pauses && pauses'[tool] == pauses[tool]))
  }

  // Only the fetch wrapper, a run pausing the tools it was limited on and the operator touch the pauses.
  lemma PausesAfter(c: Config, s: State, l: Label, s': State)
    requires Next(c, s, l, s')
    ensures match l
            case OfRun(r, GithubPause(until)) => PausedTo(s.pauses, s'.pauses, GitHub, until)
            case OfRun(r, ThrowsGithubLimit(until)) => PausedTo(s.pauses, s'.pauses, GitHub, until)
            case OfRun(r, PauseNext(true)) =>
              PausedTo(s.pauses, s'.pauses, s.runs[r].pc.tools[0], s.runs[r].pc.until)
            case AdminClear(tool) => s'.pauses == map t | t in s.pauses && t != tool :: s.pauses[t]
            case _ => s'.pauses == s.pauses
  {
  }

  /* ---- Saved steps ---- */

  // The steps of this task are gone, and no other's.
  predicate Forgotten(saved: map<TaskId, set<Step>>, saved': map<TaskId, set<Step>>, id: TaskId) {
    saved' == map k | k in saved && k != id :: saved[k]
  }

  lemma SavedInMain(c: Config, s: State, a: MainAct)
    requires MainEnabled(s, a)
    ensures match a
            case SweepDrop => Forgotten(s.saved, MainSaved(s, a), s.main.stale)
            case BootSweep => MainSaved(s, a) == map k | k in s.saved && k in s.main.activeIds :: s.saved[k]
            case _ => MainSaved(s, a) == s.saved
    ensures MainStep(c, s, a).saved == MainSaved(s, a)
  {
  }

  // Runs save the steps of their task; a run that has completed its task, an enqueue that has superseded
  // one and the stale sweep drop those of that task; the boot's sweep drops all but the active tasks'.
  lemma SavedAfter(c: Config, s: State, l: Label, s': State)
    requires Next(c, s, l, s')
    ensures match l
            case OfRun(r, SaveStep(step)) =>
              var id := s.runs[r].task;
              && id in s'.saved && s'.saved == s.saved[id := s'.saved[id]]
              && s'.saved[id] == if id in s.saved then s.saved[id] + {step} else {step}
            case OfRun(r, DropSteps) => Forgotten(s.saved, s'.saved, s.runs[r].task)
            case OfEnqueue(e, DropOld) => Forgotten(s.saved, s'.saved, s.enqueues[e].victim)
            case Main(SweepDrop) => Forgotten(s.saved, s'.saved, s.main.stale)
            case Main(BootSweep) => s'.saved == map k | k in s.saved && k in s.main.activeIds :: s.saved[k]
            case _ => s'.saved == s.saved
  {
    if l.Main? { SavedInMain(c, s, l.act); }
  }

  /* ---- What a tick goes by ---- */

  lemma OthersLeaveTheLoop(c: Config, s: State, l: Label, s': State)
    requires Next(c, s, l, s') && !l.Main?
    ensures s'.main == if l.Crash? then BootStart else s.main
  {
  }

  // The loop comes to selecting by reading the pauses, and stays there until it has selected.
  lemma TurnsToSelect(c: Config, s: State, a: MainAct)
    requires MainEnabled(s, a) && MainAfter(c, s, a).Selecting?
    ensures a.ReadPauses? && s.main.ReadingPauses?
    ensures MainAfter(c, s, a) == Selecting(s.main.listed, if c.hasPauseStore then s.pauses else map[])
  {
  }

  lemma ComesToSelect(c: Config, s: State, l: Label, s': State)
    requires Next(c, s, l, s') && s'.main.Selecting?
    ensures l == Main(ReadPauses) || s'.main == s.main
    ensures l == Main(ReadPauses) ==>
              s.main.ReadingPauses? && s'.main == Selecting(s.main.listed, if c.hasPauseStore then s.pauses else map[])
  {
    if l.Main? { TurnsToSelect(c, s, l.act); } else { OthersLeaveTheLoop(c, s, l, s'); }
  }

  lemma {:induction false} PausesRead(c: Config, t: Trace, k: nat) returns (j: nat)
    requires Behavior(c, t) && k < |t.states| && t.states[k].main.Selecting?
    ensures j < k && t.labels[j] == Main(ReadPauses) && t.states[j].main.ReadingPauses?
    ensures t.states[k].main
         == Selecting(t.states[j].main.listed, if c.hasPauseStore then t.states[j].pauses else map[])
  {
    ComesToSelect(c, t.states[k - 1], t.labels[k - 1], t.states[k]);
    if t.labels[k - 1] == Main(ReadPauses) {
      j := k - 1;
    } else {
      j := PausesRead(c, t, k - 1);
    }
  }

  // A tick selects (step k) from what it has listed, without the tools whose pause, as it read them
  // (step j), is still ahead; with no pause store, no tool is held back.
  lemma TickSelects(c: Config, t: Trace, k: nat) returns (j: nat)
    requires Behavior(c, t) && k < |t.labels| && t.labels[k] == Main(Select)
    ensures j < k && t.labels[j] == Main(ReadPauses) && t.states[j].main.ReadingPauses?
    ensures exists paused: set<Tool> ::
              && (forall tool :: tool in paused <==>
                    c.hasPauseStore && tool in t.states[j].pauses && t.states[j].pauses[tool] > t.states[k].clock)
              && t.states[k + 1].main
                   == Starting(Ids(Selection(t.states[j].main.listed, c.maxConcurrency, paused, c.uses)))
  {
    assert Next(c, t.states[k], t.labels[k], t.states[k + 1]);
    j := PausesRead(c, t, k);
    var paused := ActivePauses(t.states[k].main.seen, t.states[k].clock);
    assert forall tool :: tool in paused <==>
             c.hasPauseStore && tool in t.states[j].pauses && t.states[j].pauses[tool] > t.states[k].clock;
  }

  predicate InSweep(pc: MainPc) {
    pc.SweepingStale? || pc.DroppingStale?
  }

  // The sweep of one list goes on from one record to the next.
  predicate SweepsOn(pc: MainPc, pc': MainPc) {
    && InSweep(pc) && InSweep(pc') && pc'.sweptAt == pc.sweptAt && pc'.listed == pc.listed
    && (pc'.rest == pc.rest || (pc.rest != [] && pc'.rest == pc.rest[1..]))
  }

  lemma TurnsToSweep(c: Config, s: State, a: MainAct)
    requires MainEnabled(s, a) && InSweep(MainAfter(c, s, a))
    ensures if a.ListDone?
            then s.main.ReadingDirectory? && MainAfter(c, s, a) == SweepingStale(s.main.listed, s.clock, s.main.listed)
            else SweepsOn(s.main, MainAfter(c, s, a))
  {
  }

  lemma ComesToSweep(c: Config, s: State, l: Label, s': State)
    requires Next(c, s, l, s') && InSweep(s'.main)
    ensures if l == Main(ListDone)
            then s.main.ReadingDirectory? && s'.main == SweepingStale(s.main.listed, s.clock, s.main.listed)
            else SweepsOn(s.main, s'.main)
  {
    if l.Main? { TurnsToSweep(c, s, l.act); } else { OthersLeaveTheLoop(c, s, l, s'); }
  }

  // What is left to sweep is a tail of the list the tick read (step j), and age counts at that moment.
  lemma {:induction false} SweepsTheList(c: Config, t: Trace, k: nat) returns (j: nat, n: nat)
    requires Behavior(c, t) && k < |t.states| && InSweep(t.states[k].main)
    ensures j < k && t.labels[j] == Main(ListDone) && t.states[j].main.ReadingDirectory?
    ensures t.states[k].main.sweptAt == t.states[j].clock && t.states[k].main.listed == t.states[j].main.listed
    ensures n <= |t.states[j].main.listed| && t.states[k].main.rest == t.states[j].main.listed[n..]
  {
    ComesToSweep(c, t.states[k - 1], t.labels[k - 1], t.states[k]);
    if t.labels[k - 1] == Main(ListDone) {
      j, n := k - 1, 0;
    } else {
      j, n := SweepsTheList(c, t, k - 1);
      if t.states[k].main.rest != t.states[k - 1].main.rest { n := n + 1; }
    }
  }
}
