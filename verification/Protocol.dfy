/**
 The task-queue protocol as a transition system.

 The parties share one process and interleave at every `await`: the daemon's main loop (boot,
 then ticks that never overlap), any number of live runs, any number of enqueue calls, the
 operator's pause reset, the clock, and crashes. Each store method on one task is one step; a
 listing, be it a tick's, the boot's or an enqueue call's search for conflicts, is one step per
 directory read and one per file read.
 */
module Protocol {
  import opened Domain
  import opened Store
  import opened Scheduling

  type RunId = nat

  // A checkpoint file, by name. Step keys that share a file name are one step here, and what the file
  // says is not modelled.
  type Step = nat

  datatype Config = Config(
    uses: Uses,
    maxConcurrency: nat,
    cooldownMs: int,
    hasPauseStore: bool,
    staleCutoffMs: nat,
    retentionMs: int,
    pruneIntervalMs: int)

  // What was enqueued, and as the how-manieth; kept for ever.
  datatype Birth = Birth(serial: nat, source: Source, instruction: Instruction)

  datatype MainPc =
    // boot
    | BootStart
    | Recovering(todo: set<TaskId>)
    | ListingActive(toRead: seq<Status>, ids: set<TaskId>)
    | ListingFiles(toRead: seq<Status>, unseen: set<TaskId>, ids: set<TaskId>)
    | SweepingCheckpoints(activeIds: set<TaskId>)
    // prune, at boot or at the head of a tick
    | Pruning(boot: bool, cutoff: int, dirs: seq<Status>, dir: Status, files: set<TaskId>)
    // tick
    | Idle
    | ReadingDirectory(left: seq<Status>, listed: seq<Task>)
    | ReadingFiles(left: seq<Status>, unread: set<TaskId>, listed: seq<Task>)
    | SweepingStale(rest: seq<Task>, sweptAt: int, listed: seq<Task>)
    | DroppingStale(stale: TaskId, rest: seq<Task>, sweptAt: int, listed: seq<Task>)
    | ReadingPauses(listed: seq<Task>)
    | Selecting(listed: seq<Task>, seen: map<Tool, int>)
    | Starting(pending: seq<TaskId>)
    // a tick has thrown: the loop has no catch, so there are no more ticks until the next boot
    | Stopped

  // A run owns its record until it has completed or reverted it; then it winds down.
  datatype RunPc =
    | Executing
    | Completing(outcome: Outcome)
    | Pausing(tools: seq<Tool>, until: int)
    | Reverting
    | Dropping
    | Winding

  datatype Run = Run(task: TaskId, pc: RunPc)

  // A call reads the directory queued/ once, then the files it has seen there one by one.
  datatype EnqueuePc =
    | Inserted
    | Reading(unread: set<TaskId>, found: set<TaskId>)
    | Superseding(rest: seq<TaskId>)
    | DroppingOld(victim: TaskId, rest: seq<TaskId>)

  datatype State = State(
    // on disk
    files: Files,
    pauses: map<Tool, int>,
    saved: map<TaskId, set<Step>>,
    // in memory
    main: MainPc,
    active: map<TaskId, RunId>,
    runs: map<RunId, Run>,
    nextRun: RunId,
    enqueues: map<TaskId, EnqueuePc>,
    lastPruneAt: int,
    lastCreatedAt: int,
    // the world
    clock: int,
    born: map<TaskId, Birth>,
    serial: nat)

  datatype MainAct =
    | BootList | RecoverOne(id: TaskId) | RecoverDone
    | BootDirectory | BootFile(id: TaskId) | BootNext | BootActive | BootSweep
    | PruneDirectory | PruneFile(id: TaskId) | PruneDone | PruneFails
    | TickBegin | ListDirectory | ListFile(id: TaskId) | ListNext | ListDone
    | SweepNext(ok: bool) | SweepDrop | SweepDone
    | ReadPauses | Select | StartNext | TickDone | TickThrows

  // `ok` is false when the store call fails with an I/O error and no effect.
  datatype RunAct =
    | SaveStep(step: Step)
    | GithubPause(until: int)
    | Returns(outcome: Outcome)
    | ReturnsRateLimited(tools: seq<Tool>)
    | ThrowsGithubLimit(until: int)
    | CompleteTask(ok: bool)
    | DropSteps
    | PauseNext(ok: bool)
    | RevertTask(ok: bool)
    | Settle

  datatype EnqueueAct =
    | Insert(source: Source, instruction: Instruction)
    | ReadQueue
    | ReadRecord(record: TaskId)
    | Found(order: seq<TaskId>)
    | Mark(ok: bool)
    | DropOld
    | Finish

  datatype Label =
    | Main(act: MainAct)
    | OfRun(run: RunId, runAct: RunAct)
    | OfEnqueue(id: TaskId, enqAct: EnqueueAct)
    | Advance(ms: nat)
    | AdminClear(tool: Tool)
    | Crash(torn: map<TaskId, Move>)

  const RECOVERY_SUMMARY := "daemon interrupted before completion"
  const STALE_SUMMARY := "stale running: no in-memory active task"

  /* ---- Guards ---- */

  predicate InBoot(pc: MainPc) {
    || pc.BootStart? || pc.Recovering? || pc.ListingActive? || pc.ListingFiles? || pc.SweepingCheckpoints?
    || (pc.Pruning? && pc.boot)
  }

  // The sweep catches its own errors; listing, reading pauses, selecting and starting may throw.
  predicate MayThrow(pc: MainPc) {
    pc.ReadingDirectory? || pc.ReadingFiles? || pc.ReadingPauses? || pc.Selecting? || pc.Starting?
  }

  predicate MainEnabled(s: State, a: MainAct) {
    var pc := s.main;
    match a
    case BootList => pc.BootStart?
    case RecoverOne(id) => pc.Recovering? && id in pc.todo
    case RecoverDone => pc.Recovering? && pc.todo == {}
    case BootDirectory => pc.ListingActive? && pc.toRead != []
    case BootFile(id) => pc.ListingFiles? && pc.toRead != [] && id in pc.unseen
    case BootNext => pc.ListingFiles? && pc.toRead != [] && pc.unseen == {}
    case BootActive => pc.ListingActive? && pc.toRead == []
    case BootSweep => pc.SweepingCheckpoints?
    case PruneDirectory => pc.Pruning? && pc.files == {} && pc.dirs != []
    case PruneFile(id) => pc.Pruning? && id in pc.files
    case PruneDone => pc.Pruning? && pc.files == {} && pc.dirs == []
    case PruneFails => pc.Pruning?
    case TickBegin => pc.Idle?
    case ListDirectory => pc.ReadingDirectory? && pc.left != []
    case ListFile(id) => pc.ReadingFiles? && pc.left != [] && id in pc.unread
    case ListNext => pc.ReadingFiles? && pc.left != [] && pc.unread == {}
    case ListDone => pc.ReadingDirectory? && pc.left == []
    case SweepNext(_) => pc.SweepingStale? && pc.rest != []
    case SweepDrop => pc.DroppingStale?
    case SweepDone => pc.SweepingStale? && pc.rest == []
    case ReadPauses => pc.ReadingPauses?
    case Select => pc.Selecting?
    case StartNext => pc.Starting? && pc.pending != []
    case TickDone => pc.Starting? && pc.pending == []
    case TickThrows => MayThrow(pc)
  }

  predicate RunEnabled(s: State, r: RunId, a: RunAct) {
    r in s.runs &&
    var pc := s.runs[r].pc;
    match a
    case SaveStep(_) => pc.Executing?
    case GithubPause(_) => pc.Executing?
    case Returns(_) => pc.Executing?
    case ReturnsRateLimited(_) => pc.Executing?
    case ThrowsGithubLimit(_) => pc.Executing?
    case CompleteTask(_) => pc.Completing?
    case DropSteps => pc.Dropping?
    case PauseNext(_) => pc.Pausing? && pc.tools != []
    case RevertTask(_) => pc.Reverting?
    case Settle => pc.Winding?
  }

  predicate EnqueueEnabled(s: State, id: TaskId, a: EnqueueAct) {
    match a
    case Insert(_, _) => id !in s.born
    case ReadQueue => id in s.enqueues && s.enqueues[id].Inserted?
    case ReadRecord(k) => id in s.enqueues && s.enqueues[id].Reading? && id in s.born && k in s.enqueues[id].unread
    case Found(order) =>
      && id in s.enqueues && s.enqueues[id].Reading? && s.enqueues[id].unread == {}
      && (set k | k in order) == s.enqueues[id].found && |order| == |s.enqueues[id].found|
    case Mark(_) => id in s.enqueues && s.enqueues[id].Superseding? && s.enqueues[id].rest != []
    case DropOld => id in s.enqueues && s.enqueues[id].DroppingOld?
    case Finish => id in s.enqueues && s.enqueues[id].Superseding? && s.enqueues[id].rest == []
  }

  predicate Enabled(c: Config, s: State, l: Label) {
    match l
    case Main(a) => MainEnabled(s, a)
    case OfRun(r, a) => RunEnabled(s, r, a)
    case OfEnqueue(id, a) => EnqueueEnabled(s, id, a)
    case Advance(_) => true
    case AdminClear(_) => true
    case Crash(torn) => forall id :: id in torn ==> id in s.files && UnderWay(c, s, id, torn[id])
  }

  /* ---- The queue files ---- */

  datatype StoreCall =
    | NoCall // none, or one that throws
    | Put(task: Task)
    | Transition(id: TaskId, move: Move)
    | Unlink(id: TaskId)

  // A record is stale when it says "running", nothing in memory runs it, and it started long ago.
  predicate Stale(c: Config, s: State, task: Task, sweptAt: int) {
    && task.status == Running
    && task.id !in s.active
    && task.startedAt.Some?
    && sweptAt - task.startedAt.value >= c.staleCutoffMs
  }

  function TryTransition(s: State, id: TaskId, move: Move, ok: bool): StoreCall {
    if ok && In(s.files, id, From(move)) then Transition(id, move) else NoCall
  }

  function MainCall(c: Config, s: State, a: MainAct): StoreCall
    requires MainEnabled(s, a)
  {
    match a
    case RecoverOne(id) => TryTransition(s, id, Recover(RECOVERY_SUMMARY), true)
    case PruneFile(id) =>
      if In(s.files, id, s.main.dir) && s.files[id].mtime <= s.main.cutoff then Unlink(id) else NoCall
    case SweepNext(ok) =>
      TryTransition(s, s.main.rest[0].id, Complete(Failure(STALE_SUMMARY)),
                    ok && Stale(c, s, s.main.rest[0], s.main.sweptAt))
    case StartNext => TryTransition(s, s.main.pending[0], Start, true)
    case _ => NoCall
  }

  function RunCall(s: State, r: RunId, a: RunAct): StoreCall
    requires RunEnabled(s, r, a)
  {
    match a
    case CompleteTask(ok) => TryTransition(s, s.runs[r].task, Complete(s.runs[r].pc.outcome), ok)
    case RevertTask(ok) => TryTransition(s, s.runs[r].task, Requeue, ok)
    case _ => NoCall
  }

  function EnqueueCall(s: State, id: TaskId, a: EnqueueAct): StoreCall
    requires EnqueueEnabled(s, id, a)
  {
    match a
    case Insert(source, instruction) =>
      Put(NewTask(id, source, instruction, NextCreatedAt(s.lastCreatedAt, s.clock)))
    case Mark(ok) => TryTransition(s, s.enqueues[id].rest[0], Replace(id), ok)
    case _ => NoCall
  }

  function Performed(files: Files, call: StoreCall, now: int): Files {
    match call
    case NoCall => files
    case Put(task) => files[task.id := Slot(task.status, task, now)]
    case Transition(id, move) => if id in files then files[id := Moved(files[id], move, now)] else files
    case Unlink(id) => files - {id}
  }

  // A transition of `id` that some party may be in the middle of.
  predicate UnderWay(c: Config, s: State, id: TaskId, move: Move)
    requires id in s.files
  {
    && s.files[id].dir == From(move)
    && (match move
        case Start => s.main.Starting? && s.main.pending != [] && s.main.pending[0] == id
        case Replace(newer) =>
          newer in s.enqueues && s.enqueues[newer].Superseding? && s.enqueues[newer].rest != []
          && s.enqueues[newer].rest[0] == id
        case Recover(_) => s.main.Recovering? && id in s.main.todo
        case Requeue => exists r :: r in s.runs && s.runs[r] == Run(id, Reverting)
        case Complete(outcome) =>
          || (exists r :: r in s.runs && s.runs[r] == Run(id, Completing(outcome)))
          || (s.main.SweepingStale? && s.main.rest != [] && s.main.rest[0].id == id
              && Stale(c, s, s.main.rest[0], s.main.sweptAt)))
  }

  function AfterCrash(files: Files, torn: map<TaskId, Move>, now: int): Files {
    map id | id in files :: if id in torn then Store.Torn(files[id], torn[id], now) else files[id]
  }

  /* ---- The main loop ---- */

  function PrunePc(c: Config, s: State, boot: bool): MainPc {
    Pruning(boot, s.clock - c.retentionMs, [Succeeded, Failed, Superseded], Succeeded, {})
  }

  predicate BeginsPrune(c: Config, s: State, a: MainAct) {
    a.BootSweep? || (a.TickBegin? && s.clock - s.lastPruneAt >= c.pruneIntervalMs)
  }

  function AfterPrune(boot: bool): MainPc {
    if boot then Idle else ReadingDirectory(TASK_STATUSES, [])
  }

  // Queued or running, by what the record says.
  predicate Live(files: Files, id: TaskId) {
    id in files && files[id].task.status in {Queued, Running}
  }

  function ActivePauses(pauses: map<Tool, int>, now: int): set<Tool> {
    set t | t in pauses && pauses[t] > now
  }

  function MainAfter(c: Config, s: State, a: MainAct): MainPc
    requires MainEnabled(s, a)
  {
    var pc := s.main;
    match a
    case BootList => Recovering(InDirectory(s.files, Running))
    case RecoverOne(id) => Recovering(pc.todo - {id})
    case RecoverDone => ListingActive(TASK_STATUSES, {})
    case BootDirectory => ListingFiles(pc.toRead, InDirectory(s.files, pc.toRead[0]), pc.ids)
    case BootFile(id) =>
      ListingFiles(pc.toRead, pc.unseen - {id},
                   if In(s.files, id, pc.toRead[0]) && Live(s.files, id) then pc.ids + {id} else pc.ids)
    case BootNext => ListingActive(pc.toRead[1..], pc.ids)
    case BootActive => SweepingCheckpoints(pc.ids)
    case BootSweep => PrunePc(c, s, true)
    case PruneDirectory => Pruning(pc.boot, pc.cutoff, pc.dirs[1..], pc.dirs[0], InDirectory(s.files, pc.dirs[0]))
    case PruneFile(id) => Pruning(pc.boot, pc.cutoff, pc.dirs, pc.dir, pc.files - {id})
    case PruneDone => AfterPrune(pc.boot)
    case PruneFails => AfterPrune(pc.boot)
    case TickBegin => if BeginsPrune(c, s, a) then PrunePc(c, s, false) else AfterPrune(false)
    case ListDirectory => ReadingFiles(pc.left, InDirectory(s.files, pc.left[0]), pc.listed)
    case ListFile(id) =>
      ReadingFiles(pc.left, pc.unread - {id},
                   if In(s.files, id, pc.left[0]) then pc.listed + [s.files[id].task] else pc.listed)
    case ListNext => ReadingDirectory(pc.left[1..], pc.listed)
    case ListDone => SweepingStale(pc.listed, s.clock, pc.listed)
    case SweepNext(_) =>
      if MainCall(c, s, a).Transition? then DroppingStale(pc.rest[0].id, pc.rest[1..], pc.sweptAt, pc.listed)
      else SweepingStale(pc.rest[1..], pc.sweptAt, pc.listed)
    case SweepDrop => SweepingStale(pc.rest, pc.sweptAt, pc.listed)
    case SweepDone => ReadingPauses(pc.listed)
    case ReadPauses => Selecting(pc.listed, if c.hasPauseStore then s.pauses else map[])
    case Select => Starting(Ids(Selection(pc.listed, c.maxConcurrency, ActivePauses(pc.seen, s.clock), c.uses)))
    case StartNext => if MainCall(c, s, a).Transition? then Starting(pc.pending[1..]) else Stopped
    case TickDone => Idle
    case TickThrows => Stopped
  }

  predicate Starts(c: Config, s: State, a: MainAct) {
    a.StartNext? && MainEnabled(s, a) && MainCall(c, s, a).Transition?
  }

  function MainStep(c: Config, s: State, a: MainAct): State
    requires MainEnabled(s, a)
  {
    var s1 := s.(files := Performed(s.files, MainCall(c, s, a), s.clock),
                 saved := MainSaved(s, a),
                 main := MainAfter(c, s, a),
                 lastPruneAt := if BeginsPrune(c, s, a) then s.clock else s.lastPruneAt);
    if Starts(c, s, a) then
      s1.(active := s.active[s.main.pending[0] := s.nextRun],
          runs := s.runs[s.nextRun := Run(s.main.pending[0], Executing)],
          nextRun := s.nextRun + 1)
    else s1
  }

  function MainSaved(s: State, a: MainAct): map<TaskId, set<Step>>
    requires MainEnabled(s, a)
  {
    match a
    case BootSweep => map id | id in s.saved && id in s.main.activeIds :: s.saved[id]
    case SweepDrop => s.saved - {s.main.stale}
    case _ => s.saved
  }

  /* ---- Runs ---- */

  function MaxMerge(pauses: map<Tool, int>, tool: Tool, until: int): map<Tool, int> {
    pauses[tool := if tool in pauses && pauses[tool] > until then pauses[tool] else until]
  }

  function RateLimitedPc(c: Config, s: State, tools: seq<Tool>): RunPc {
    if c.hasPauseStore && tools != [] then Pausing(tools, s.clock + c.cooldownMs) else Reverting
  }

  function RunAfter(c: Config, s: State, r: RunId, a: RunAct): RunPc
    requires RunEnabled(s, r, a)
  {
    var pc := s.runs[r].pc;
    match a
    case SaveStep(_) => Executing
    case GithubPause(_) => Executing
    case Returns(outcome) => Completing(outcome)
    case ReturnsRateLimited(tools) => RateLimitedPc(c, s, tools)
    case ThrowsGithubLimit(_) => RateLimitedPc(c, s, [GitHub])
    case CompleteTask(_) => Dropping
    case DropSteps => Winding
    case PauseNext(ok) =>
      if !ok then Winding else if |pc.tools| == 1 then Reverting else Pausing(pc.tools[1..], pc.until)
    case RevertTask(_) => Winding
    case Settle => Winding
  }

  function RunPauses(s: State, r: RunId, a: RunAct): map<Tool, int>
    requires RunEnabled(s, r, a)
  {
    match a
    case GithubPause(until) => MaxMerge(s.pauses, GitHub, until)
    case ThrowsGithubLimit(until) => MaxMerge(s.pauses, GitHub, until)
    case PauseNext(ok) => if ok then MaxMerge(s.pauses, s.runs[r].pc.tools[0], s.runs[r].pc.until) else s.pauses
    case _ => s.pauses
  }

  function StepsOf(saved: map<TaskId, set<Step>>, id: TaskId): set<Step> {
    if id in saved then saved[id] else {}
  }

  function RunSaved(s: State, r: RunId, a: RunAct): map<TaskId, set<Step>>
    requires RunEnabled(s, r, a)
  {
    var id := s.runs[r].task;
    match a
    case SaveStep(step) => s.saved[id := StepsOf(s.saved, id) + {step}]
    case DropSteps => s.saved - {id}
    case _ => s.saved
  }

  function RunStep(c: Config, s: State, r: RunId, a: RunAct): State
    requires RunEnabled(s, r, a)
  {
    var id := s.runs[r].task;
    s.(files := Performed(s.files, RunCall(s, r, a), s.clock),
       pauses := RunPauses(s, r, a),
       saved := RunSaved(s, r, a),
       runs := if a.Settle? then s.runs - {r} else s.runs[r := Run(id, RunAfter(c, s, r, a))],
       active := if a.Settle? then s.active - {id} else s.active)
  }

  /* ---- Enqueue calls ---- */

  // The record of `k` is still in queued/ and on the source of the call's own task.
  predicate Conflicts(s: State, id: TaskId, k: TaskId)
    requires id in s.born
  {
    In(s.files, k, Queued) && s.files[k].task.source == s.born[id].source && k != id
  }

  function EnqueueAfter(s: State, id: TaskId, a: EnqueueAct): EnqueuePc
    requires EnqueueEnabled(s, id, a)
  {
    match a
    case Insert(_, _) => Inserted
    case ReadQueue => Reading(InDirectory(s.files, Queued), {})
    case ReadRecord(k) =>
      var pc := s.enqueues[id];
      Reading(pc.unread - {k}, if Conflicts(s, id, k) then pc.found + {k} else pc.found)
    case Found(order) => Superseding(order)
    case Mark(_) =>
      var rest := s.enqueues[id].rest;
      if EnqueueCall(s, id, a).Transition? then DroppingOld(rest[0], rest[1..]) else Superseding(rest[1..])
    case DropOld => Superseding(s.enqueues[id].rest)
    case Finish => Superseding([])
  }

  function EnqueueStep(s: State, id: TaskId, a: EnqueueAct): State
    requires EnqueueEnabled(s, id, a)
  {
    var s1 := s.(files := Performed(s.files, EnqueueCall(s, id, a), s.clock),
                 saved := if a.DropOld? then s.saved - {s.enqueues[id].victim} else s.saved,
                 enqueues := if a.Finish? then s.enqueues - {id}
                             else s.enqueues[id := EnqueueAfter(s, id, a)]);
    if a.Insert? then
      s1.(born := s.born[id := Birth(s.serial, a.source, a.instruction)],
          serial := s.serial + 1,
          lastCreatedAt := NextCreatedAt(s.lastCreatedAt, s.clock))
    else s1
  }

  /* ---- The whole ---- */

  function After(c: Config, s: State, l: Label): State
    requires Enabled(c, s, l)
  {
    match l
    case Main(a) => MainStep(c, s, a)
    case OfRun(r, a) => RunStep(c, s, r, a)
    case OfEnqueue(id, a) => EnqueueStep(s, id, a)
    case Advance(ms) => s.(clock := s.clock + ms)
    case AdminClear(tool) => s.(pauses := s.pauses - {tool})
    case Crash(torn) =>
      s.(files := AfterCrash(s.files, torn, s.clock),
         main := BootStart, active := map[], runs := map[], enqueues := map[],
         lastPruneAt := 0, lastCreatedAt := 0)
  }

  predicate Next(c: Config, s: State, l: Label, s': State) {
    Enabled(c, s, l) && s' == After(c, s, l)
  }

  predicate Init(s: State) {
    && s.files == map[] && s.pauses == map[] && s.saved == map[]
    && s.main == BootStart && s.active == map[] && s.runs == map[] && s.enqueues == map[]
    && s.lastPruneAt == 0 && s.lastCreatedAt == 0
    && s.born == map[] && s.serial == 0
  }

  // A run of the system: states joined by labelled steps.
  datatype Trace = Trace(states: seq<State>, labels: seq<Label>)

  ghost predicate Path(c: Config, t: Trace) {
    && |t.states| == |t.labels| + 1
    && forall i :: 0 <= i < |t.labels| ==> Next(c, t.states[i], t.labels[i], t.states[i + 1])
  }

  ghost predicate Behavior(c: Config, t: Trace) {
    Path(c, t) && Init(t.states[0])
  }
}
