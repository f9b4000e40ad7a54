/**
 Mutual exclusion: however the parties interleave, and across crashes, the tasks whose record says
 "running" never exceed the configured concurrency and never share a declared tool.
 */
module Exclusion {
  import opened Domain
  import opened Store
  import opened Scheduling
  import opened Protocol
  import opened Shape

  function InFlight(files: Files): set<TaskId> {
    set id | id in files && files[id].task.status == Running
  }

  function Pending(pc: MainPc): seq<TaskId> {
    if pc.Starting? then pc.pending else []
  }

  // The tasks in flight and those the tick is about to start.
  function Claimants(files: Files, pc: MainPc): set<TaskId> {
    InFlight(files) + set id | id in Pending(pc)
  }

  function ToolsOf(c: Config, born: map<TaskId, Birth>, id: TaskId): set<Tool> {
    if id in born then ToolSet(Declared(c.uses, born[id].instruction)) else {}
  }

  ghost predicate Exclusive(c: Config, born: map<TaskId, Birth>, ids: set<TaskId>) {
    && |ids| <= c.maxConcurrency
    && ids <= born.Keys
    && forall a, b :: a in ids && b in ids && a != b ==> ToolsOf(c, born, a) !! ToolsOf(c, born, b)
  }

  predicate NoRepeats<T(==)>(s: seq<T>) {
    forall i, j :: 0 <= i < j < |s| ==> s[i] != s[j]
  }

  ghost predicate PendingOk(files: Files, pc: MainPc) {
    && NoRepeats(Pending(pc))
    && forall id :: id in Pending(pc) ==> id !in InFlight(files)
  }

  ghost predicate ShownRunning(listed: seq<Task>, id: TaskId) {
    exists t :: t in listed && t.id == id && t.status == Running
  }

  // Has the listing, so far, had the chance to miss the record at `slot`?
  predicate StillAhead(pc: MainPc, id: TaskId, dir: Status) {
    match pc
    case ReadingDirectory(left, _) => dir in left
    case ReadingFiles(left, unread, _) =>
      left != [] && (dir in left[1..] || (dir == left[0] && id in unread))
    case _ => false
  }

  predicate Listing(pc: MainPc) {
    pc.ReadingDirectory? || pc.ReadingFiles? || pc.SweepingStale? || pc.DroppingStale? || pc.ReadingPauses?
    || pc.Selecting?
  }

  // The listing misses no task in flight: each is shown running or still to be read.
  ghost predicate Covers(files: Files, pc: MainPc) {
    Listing(pc) ==>
      forall id :: id in InFlight(files) ==> StillAhead(pc, id, files[id].dir) || ShownRunning(Listed(pc), id)
  }

  predicate QueuedAhead(pc: MainPc, id: TaskId) {
    StillAhead(pc, id, Queued)
  }

  // The tasks a listing shows queued are shown once, are not in flight and will not be read again.
  ghost predicate QueuedOnce(files: Files, pc: MainPc) {
    var listed := Listed(pc);
    && UniqueIds(listed, Queued)
    && (forall t :: t in listed && t.status == Queued ==> t.id !in InFlight(files) && !QueuedAhead(pc, t.id))
    && (pc.ReadingDirectory? ==> NoRepeats(pc.left))
    && (pc.ReadingFiles? ==> NoRepeats(pc.left))
  }

  // A store call other than a start only ends flights.
  lemma FlightsEnd(files: Files, call: StoreCall, clock: int)
    requires !(call.Transition? && call.move.Start?) && (call.Put? ==> call.task.status == Queued)
    ensures InFlight(Performed(files, call, clock)) <= InFlight(files)
    ensures forall id :: id in InFlight(Performed(files, call, clock)) ==>
              Performed(files, call, clock)[id].dir == files[id].dir
    ensures InDirectory(Performed(files, call, clock), Running) <= InDirectory(files, Running)
  {
  }

  lemma ExclusiveSubset(c: Config, born: map<TaskId, Birth>, ids: set<TaskId>, fewer: set<TaskId>)
    requires Exclusive(c, born, ids) && fewer <= ids
    ensures Exclusive(c, born, fewer)
  {
    CardMonotone(fewer, ids);
  }

  lemma ExclusiveGrows(c: Config, born: map<TaskId, Birth>, ids: set<TaskId>, id: TaskId, b: Birth)
    requires Exclusive(c, born, ids) && id !in born
    ensures Exclusive(c, born[id := b], ids)
  {
    var grown := born[id := b];
    forall x, y | x in ids && y in ids && x != y
      ensures ToolsOf(c, grown, x) !! ToolsOf(c, grown, y)
    {
      assert ToolsOf(c, grown, x) == ToolsOf(c, born, x) && ToolsOf(c, grown, y) == ToolsOf(c, born, y);
    }
  }

  // The control part of the invariant.
  ghost predicate Guarded(c: Config, files: Files, born: map<TaskId, Birth>, pc: MainPc) {
    && Exclusive(c, born, Claimants(files, pc))
    && PendingOk(files, pc)
    && Covers(files, pc)
    && QueuedOnce(files, pc)
  }

  ghost predicate Inv(c: Config, s: State) {
    && Wf(s)
    && Guarded(c, s.files, s.born, s.main)
    && |InDirectory(s.files, Running)| <= c.maxConcurrency
  }

  // A store call that starts nothing keeps the invariant, whatever the main loop is doing.
  lemma GuardedAfterCall(c: Config, files: Files, born: map<TaskId, Birth>, pc: MainPc, call: StoreCall, clock: int)
    requires Guarded(c, files, born, pc)
    requires !(call.Transition? && call.move.Start?) && (call.Put? ==> call.task.status == Queued)
    ensures Guarded(c, Performed(files, call, clock), born, pc)
    ensures InDirectory(Performed(files, call, clock), Running) <= InDirectory(files, Running)
  {
    FlightsEnd(files, call, clock);
    ExclusiveSubset(c, born, Claimants(files, pc), Claimants(Performed(files, call, clock), pc));
  }

  lemma QuietStep(c: Config, s: State, s': State, call: StoreCall)
    requires Inv(c, s) && Wf(s')
    requires s'.files == Performed(s.files, call, s.clock)
    requires !(call.Transition? && call.move.Start?) && (call.Put? ==> call.task.status == Queued)
    requires Guarded(c, s.files, s'.born, s'.main)
    ensures Inv(c, s')
  {
    GuardedAfterCall(c, s.files, s'.born, s'.main, call, s.clock);
    CardMonotone(InDirectory(s'.files, Running), InDirectory(s.files, Running));
  }

  lemma StillShown(c: Config, s: State, a: MainAct, id: TaskId)
    requires MainEnabled(s, a) && Listing(s.main) && Listing(MainAfter(c, s, a))
    requires ShownRunning(Listed(s.main), id)
    ensures ShownRunning(Listed(MainAfter(c, s, a)), id)
  {
    var t :| t in Listed(s.main) && t.id == id && t.status == Running;
    assert t in Listed(MainAfter(c, s, a));
  }

  // A record in flight that is still ahead of the listing stays ahead of it or is read now.
  lemma AheadOrRead(c: Config, s: State, a: MainAct, id: TaskId)
    requires MainEnabled(s, a) && Listing(MainAfter(c, s, a))
    requires id in InFlight(s.files) && s.files[id].task.id == id
    requires Listing(s.main) ==> StillAhead(s.main, id, s.files[id].dir)
    requires !Listing(s.main) ==> s.files[id].dir in TASK_STATUSES
    ensures var pc' := MainAfter(c, s, a);
            StillAhead(pc', id, s.files[id].dir) || ShownRunning(Listed(pc'), id)
  {
    if a.ListFile? && a.id == id && s.files[id].dir == s.main.left[0] {
      assert s.files[id].task in Listed(MainAfter(c, s, a));
    }
  }

  lemma CoversAfter(c: Config, s: State, a: MainAct)
    requires Covers(s.files, s.main) && MainEnabled(s, a)
    requires SlotsOk(s.files, s.born, s.clock)
    ensures Covers(s.files, MainAfter(c, s, a))
  {
    var pc' := MainAfter(c, s, a);
    if Listing(pc') {
      forall id | id in InFlight(s.files)
        ensures StillAhead(pc', id, s.files[id].dir) || ShownRunning(Listed(pc'), id)
      {
        assert SlotOk(s.files[id], id, s.born, s.clock);
        if Listing(s.main) && ShownRunning(Listed(s.main), id) {
          StillShown(c, s, a, id);
        } else {
          AheadOrRead(c, s, a, id);
        }
      }
    }
  }

  lemma QueuedOnceAfter(c: Config, s: State, a: MainAct)
    requires QueuedOnce(s.files, s.main) && MainEnabled(s, a)
    requires SlotsOk(s.files, s.born, s.clock) && RunningSaysSo(s.files, s.main)
    ensures QueuedOnce(s.files, MainAfter(c, s, a))
  {
    if a.ListFile? {
      QueuedOnceRead(c, s, a.id);
    } else if Listed(MainAfter(c, s, a)) != [] {
      assert Listed(MainAfter(c, s, a)) == Listed(s.main);
    }
  }

  lemma QueuedOnceRead(c: Config, s: State, id: TaskId)
    requires QueuedOnce(s.files, s.main) && MainEnabled(s, ListFile(id))
    requires SlotsOk(s.files, s.born, s.clock) && RunningSaysSo(s.files, s.main)
    ensures QueuedOnce(s.files, MainAfter(c, s, ListFile(id)))
  {
    if In(s.files, id, s.main.left[0]) {
      assert SlotOk(s.files[id], id, s.born, s.clock);
    }
  }

  /* ---- Selecting ---- */

  ghost predicate UniqueIds(tasks: seq<Task>, st: Status) {
    forall i, j :: 0 <= i < j < |tasks| && tasks[i].status == st && tasks[j].status == st
      ==> tasks[i].id != tasks[j].id
  }

  lemma UniqueWith(first: Task, rest: seq<Task>, st: Status)
    requires UniqueIds(rest, st) && forall t :: t in rest ==> first.id != t.id
    ensures UniqueIds([first] + rest, st)
  {
    var r := [first] + rest;
    forall i, j | 0 <= i < j < |r| && r[i].status == st && r[j].status == st ensures r[i].id != r[j].id {
      assert r[j] == rest[j - 1] && rest[j - 1] in rest;
    }
  }

  lemma {:induction false} WithStatusUnique(tasks: seq<Task>, st: Status)
    requires UniqueIds(tasks, st)
    ensures UniqueIds(WithStatus(tasks, st), st)
  {
    if tasks != [] {
      var first, rest := tasks[0], tasks[1..];
      WithStatusUnique(rest, st);
      var q := WithStatus(rest, st);
      if first.status == st {
        forall t | t in q ensures first.id != t.id {
          var k :| 0 <= k < |rest| && rest[k] == t;
          assert tasks[k + 1] == t;
        }
        UniqueWith(first, q, st);
      }
    }
  }

  lemma {:induction false} PickUnique(queue: seq<Task>, chosen: set<nat>, n: nat)
    requires n <= |queue| && forall i, j :: 0 <= i < j < |queue| ==> queue[i].id != queue[j].id
    ensures NoRepeats(Ids(Pick(queue, chosen, n)))
  {
    if n > 0 {
      PickUnique(queue, chosen, n - 1);
      var r := Pick(queue, chosen, n - 1);
      if n - 1 in chosen {
        forall k | 0 <= k < |r| ensures r[k].id != queue[n - 1].id {
          var i := PickMember(queue, chosen, n - 1, r[k]);
        }
        assert Pick(queue, chosen, n) == r + [queue[n - 1]];
      }
    }
  }

  lemma SelectedUnique(listed: seq<Task>, maxConcurrency: int, paused: set<Tool>, uses: Uses)
    requires UniqueIds(listed, Queued)
    ensures NoRepeats(Ids(Selection(listed, maxConcurrency, paused, uses)))
  {
    WithStatusUnique(listed, Queued);
    var queue := WithStatus(listed, Queued);
    forall i, j | 0 <= i < j < |queue| ensures queue[i].id != queue[j].id {
      assert queue[i] in queue && queue[j] in queue;
    }
    PickUnique(queue, Chosen(BudgetFor(listed, maxConcurrency, paused, uses), queue, |queue|), |queue|);
  }

  lemma {:induction false} IdsCard(tasks: seq<Task>)
    ensures |set t | t in tasks :: t.id| <= |tasks|
  {
    if tasks != [] {
      IdsCard(tasks[1..]);
      assert (set t | t in tasks :: t.id) == {tasks[0].id} + (set t | t in tasks[1..] :: t.id);
    }
  }

  lemma MemberOf(sel: seq<Task>, id: TaskId) returns (t: Task)
    requires id in Ids(sel)
    ensures t in sel && t.id == id
  {
    var k :| 0 <= k < |sel| && Ids(sel)[k] == id;
    t := sel[k];
  }

  lemma SelectedDisjoint(c: Config, born: map<TaskId, Birth>, sel: seq<Task>, a: TaskId, b: TaskId)
    requires ListedKnown(born, sel) && ShareNoTool(c.uses, sel)
    requires a in Ids(sel) && b in Ids(sel) && a != b
    ensures ToolsOf(c, born, a) !! ToolsOf(c, born, b)
  {
    var t := MemberOf(sel, a);
    var u := MemberOf(sel, b);
    assert Known(born, t) && Known(born, u);
    var i :| 0 <= i < |sel| && sel[i] == t;
    var j :| 0 <= j < |sel| && sel[j] == u;
    assert if i < j then ToolsFor(c.uses, sel[i]) !! ToolsFor(c.uses, sel[j])
           else ToolsFor(c.uses, sel[j]) !! ToolsFor(c.uses, sel[i]);
  }

  lemma FlightDisjoint(c: Config, born: map<TaskId, Birth>, listed: seq<Task>, sel: seq<Task>, a: TaskId, b: TaskId)
    requires ListedKnown(born, listed) && ShownRunning(listed, a) && b in Ids(sel)
    requires forall t :: t in sel ==> t in listed
    requires forall t, u :: t in sel && u in listed && u.status == Running
               ==> ToolsFor(c.uses, t) !! ToolsFor(c.uses, u)
    ensures ToolsOf(c, born, a) !! ToolsOf(c, born, b)
  {
    var u := MemberOf(sel, b);
    var t :| t in listed && t.id == a && t.status == Running;
    assert Known(born, t) && Known(born, u);
  }

  // With every flight on the list, what is selected fits beside what is in flight.
  lemma SelectedExclusive(c: Config, files: Files, born: map<TaskId, Birth>, listed: seq<Task>, paused: set<Tool>)
    requires Exclusive(c, born, InFlight(files)) && ListedKnown(born, listed)
    requires forall id :: id in InFlight(files) ==> ShownRunning(listed, id)
    ensures var chosen := Ids(Selection(listed, c.maxConcurrency, paused, c.uses));
            Exclusive(c, born, InFlight(files) + set id | id in chosen)
  {
    var sel := Selection(listed, c.maxConcurrency, paused, c.uses);
    SelectionExclusive(listed, c.maxConcurrency, paused, c.uses);
    ClaimsFit(c, files, listed, sel);
    var flying := InFlight(files);
    var both := flying + set id | id in Ids(sel);
    forall b | b in Ids(sel) ensures b in born {
      var t := MemberOf(sel, b);
      assert Known(born, t);
    }
    forall a, b | a in both && b in both && a != b
      ensures ToolsOf(c, born, a) !! ToolsOf(c, born, b)
    {
      if a in flying && b !in flying { FlightDisjoint(c, born, listed, sel, a, b); }
      else if b in flying && a !in flying { FlightDisjoint(c, born, listed, sel, b, a); }
      else if a !in flying { SelectedDisjoint(c, born, sel, a, b); }
    }
  }

  lemma ClaimsFit(c: Config, files: Files, listed: seq<Task>, sel: seq<Task>)
    requires |InFlight(files)| <= c.maxConcurrency
    requires forall id :: id in InFlight(files) ==> ShownRunning(listed, id)
    requires sel != [] ==> |sel| + |WithStatus(listed, Running)| <= c.maxConcurrency
    ensures |InFlight(files) + set id | id in Ids(sel)| <= c.maxConcurrency
  {
    if sel == [] {
      assert InFlight(files) + (set id | id in Ids(sel)) == InFlight(files);
    } else {
      var running := WithStatus(listed, Running);
      var shown := set t | t in running :: t.id;
      var chosen := set t | t in sel :: t.id;
      forall id | id in InFlight(files) ensures id in shown {
        var t :| t in listed && t.id == id && t.status == Running;
        assert t in running;
      }
      forall id | id in Ids(sel) ensures id in chosen {
        var k :| 0 <= k < |sel| && Ids(sel)[k] == id;
        assert sel[k] in sel;
      }
      IdsCard(running);
      IdsCard(sel);
      CardMonotone(InFlight(files) + (set id | id in Ids(sel)), shown + chosen);
    }
  }

  lemma SelectedNotFlying(c: Config, files: Files, listed: seq<Task>, paused: set<Tool>)
    requires forall t :: t in listed && t.status == Queued ==> t.id !in InFlight(files)
    ensures forall id :: id in Ids(Selection(listed, c.maxConcurrency, paused, c.uses)) ==> id !in InFlight(files)
  {
    SelectionExclusive(listed, c.maxConcurrency, paused, c.uses);
    var sel := Selection(listed, c.maxConcurrency, paused, c.uses);
    forall id | id in Ids(sel) ensures id !in InFlight(files) {
      var t := MemberOf(sel, id);
    }
  }

  lemma SelectStep(c: Config, s: State)
    requires Guarded(c, s.files, s.born, s.main) && SlotsOk(s.files, s.born, s.clock)
    requires s.main.Selecting? && ListedKnown(s.born, s.main.listed)
    ensures Exclusive(c, s.born, Claimants(s.files, MainAfter(c, s, Select)))
    ensures PendingOk(s.files, MainAfter(c, s, Select))
  {
    var listed, paused := s.main.listed, ActivePauses(s.main.seen, s.clock);
    ExclusiveSubset(c, s.born, Claimants(s.files, s.main), InFlight(s.files));
    forall id | id in InFlight(s.files) ensures ShownRunning(listed, id) {
      assert !StillAhead(s.main, id, s.files[id].dir);
    }
    SelectedExclusive(c, s.files, s.born, listed, paused);
    SelectedUnique(listed, c.maxConcurrency, paused, c.uses);
    SelectedNotFlying(c, s.files, listed, paused);
  }

  /* ---- Starting ---- */

  lemma StartedFlight(files: Files, id: TaskId, clock: int)
    requires In(files, id, Queued)
    ensures var files' := Performed(files, Transition(id, Start), clock);
            InFlight(files') == InFlight(files) + {id}
  {
  }

  lemma RestPending(pending: seq<TaskId>)
    requires NoRepeats(pending) && pending != []
    ensures NoRepeats(pending[1..])
    ensures forall k :: k in pending[1..] ==> k in pending && k != pending[0]
  {
    forall k | k in pending[1..] ensures k in pending && k != pending[0] {
      var i :| 0 <= i < |pending[1..]| && pending[1..][i] == k;
      assert pending[i + 1] == k;
    }
  }

  lemma StartPending(files: Files, files': Files, pending: seq<TaskId>)
    requires PendingOk(files, Starting(pending)) && pending != []
    requires InFlight(files') == InFlight(files) + {pending[0]}
    ensures PendingOk(files', Starting(pending[1..]))
    ensures Claimants(files', Starting(pending[1..])) <= Claimants(files, Starting(pending))
  {
    RestPending(pending);
    assert pending[0] in pending;
  }

  lemma StartGuarded(c: Config, files: Files, born: map<TaskId, Birth>, pending: seq<TaskId>, clock: int)
    requires Guarded(c, files, born, Starting(pending)) && pending != [] && In(files, pending[0], Queued)
    ensures var files' := Performed(files, Transition(pending[0], Start), clock);
            && Guarded(c, files', born, Starting(pending[1..]))
            && InFlight(files') <= Claimants(files, Starting(pending))
  {
    var files' := Performed(files, Transition(pending[0], Start), clock);
    StartedFlight(files, pending[0], clock);
    StartPending(files, files', pending);
    ExclusiveSubset(c, born, Claimants(files, Starting(pending)), Claimants(files', Starting(pending[1..])));
  }

  lemma StartStep(c: Config, s: State, s': State)
    requires Guarded(c, s.files, s.born, s.main) && Wf(s')
    requires Starts(c, s, StartNext) && s' == MainStep(c, s, StartNext)
    ensures Inv(c, s')
  {
    StartGuarded(c, s.files, s.born, s.main.pending, s.clock);
    RunningFlies(s');
    CardMonotone(InDirectory(s'.files, Running), Claimants(s.files, s.main));
  }

  // Outside the boot, every record under running/ is in flight.
  lemma RunningFlies(s: State)
    requires Wf(s) && s.main.Starting?
    ensures InDirectory(s.files, Running) <= InFlight(s.files)
  {
    forall id | id in InDirectory(s.files, Running) ensures id in InFlight(s.files) {
      assert In(s.files, id, Running);
    }
  }

  lemma MainGuarded(c: Config, s: State, a: MainAct)
    requires Inv(c, s) && MainEnabled(s, a) && !Starts(c, s, a)
    ensures Guarded(c, s.files, s.born, MainAfter(c, s, a))
  {
    CoversAfter(c, s, a);
    QueuedOnceAfter(c, s, a);
    if a.Select? {
      SelectStep(c, s);
    } else {
      assert Pending(MainAfter(c, s, a)) == [];
      ExclusiveSubset(c, s.born, Claimants(s.files, s.main), Claimants(s.files, MainAfter(c, s, a)));
    }
  }

  lemma MainKeeps(c: Config, s: State, a: MainAct, s': State)
    requires Inv(c, s) && Wf(s') && MainEnabled(s, a) && s' == MainStep(c, s, a)
    ensures Inv(c, s')
  {
    if Starts(c, s, a) {
      StartStep(c, s, s');
    } else {
      MainGuarded(c, s, a);
      QuietStep(c, s, s', MainCall(c, s, a));
    }
  }

  /* ---- Crashing ---- */

  lemma TornFlight(c: Config, s: State, torn: map<TaskId, Move>, id: TaskId)
    requires SlotsOk(s.files, s.born, s.clock) && Enabled(c, s, Crash(torn)) && id in s.files
    requires AfterCrash(s.files, torn, s.clock)[id].task.status == Running
    ensures id in Claimants(s.files, s.main)
  {
    if id in torn {
      assert UnderWay(c, s, id, torn[id]);
    }
  }

  // A crash can leave one start half done; that record was already counted as a claimant.
  lemma CrashFlights(c: Config, s: State, torn: map<TaskId, Move>)
    requires SlotsOk(s.files, s.born, s.clock) && Enabled(c, s, Crash(torn))
    ensures InFlight(AfterCrash(s.files, torn, s.clock)) <= Claimants(s.files, s.main)
    ensures InDirectory(AfterCrash(s.files, torn, s.clock), Running) == InDirectory(s.files, Running)
  {
    forall id | id in InFlight(AfterCrash(s.files, torn, s.clock)) ensures id in Claimants(s.files, s.main) {
      TornFlight(c, s, torn, id);
    }
  }

  lemma CrashStep(c: Config, s: State, torn: map<TaskId, Move>, s': State)
    requires Inv(c, s) && Next(c, s, Crash(torn), s') && Wf(s')
    ensures Inv(c, s')
  {
    CrashFlights(c, s, torn);
    assert s'.files == AfterCrash(s.files, torn, s.clock) && s'.main == BootStart && s'.born == s.born;
    BootGuarded(c, s.born, Claimants(s.files, s.main), s'.files);
  }

  lemma BootGuarded(c: Config, born: map<TaskId, Birth>, claimants: set<TaskId>, files: Files)
    requires Exclusive(c, born, claimants) && InFlight(files) <= claimants
    ensures Guarded(c, files, born, BootStart)
  {
    ExclusiveSubset(c, born, claimants, Claimants(files, BootStart));
  }

  lemma EnqueueKeeps(c: Config, s: State, id: TaskId, a: EnqueueAct, s': State)
    requires Inv(c, s) && Wf(s') && EnqueueEnabled(s, id, a) && s' == EnqueueStep(s, id, a)
    ensures Inv(c, s')
  {
    if a.Insert? { ExclusiveGrows(c, s.born, Claimants(s.files, s.main), id, s'.born[id]); }
    QuietStep(c, s, s', EnqueueCall(s, id, a));
  }

  lemma InvStep(c: Config, s: State, l: Label, s': State)
    requires Inv(c, s) && Next(c, s, l, s')
    ensures Inv(c, s')
  {
    WfStep(c, s, l, s');
    match l
    case Main(a) => MainKeeps(c, s, a, s');
    case OfRun(r, a) => QuietStep(c, s, s', RunCall(s, r, a));
    case OfEnqueue(id, a) => EnqueueKeeps(c, s, id, a, s');
    case Crash(torn) => CrashStep(c, s, torn, s');
    case _ => QuietStep(c, s, s', NoCall);
  }

  lemma InvInit(c: Config, s: State)
    requires Init(s)
    ensures Inv(c, s)
  {
  }

  lemma {:induction false} InvAlong(c: Config, t: Trace, i: nat)
    requires Behavior(c, t) && i < |t.states|
    ensures Inv(c, t.states[i])
  {
    if i == 0 {
      InvInit(c, t.states[0]);
    } else {
      InvAlong(c, t, i - 1);
      InvStep(c, t.states[i - 1], t.labels[i - 1], t.states[i]);
    }
  }

  // In every state of every behaviour, crashes and all, the records that say "running" stay within the
  // configured concurrency and declare pairwise disjoint tools; so do the files under running/.
  lemma MutualExclusion(c: Config, t: Trace, i: nat)
    requires Behavior(c, t) && i < |t.states|
    ensures var s := t.states[i];
            && |InFlight(s.files)| <= c.maxConcurrency
            && |InDirectory(s.files, Running)| <= c.maxConcurrency
            && forall a, b :: a in InFlight(s.files) && b in InFlight(s.files) && a != b
                 ==> ToolsFor(c.uses, s.files[a].task) !! ToolsFor(c.uses, s.files[b].task)
  {
    InvAlong(c, t, i);
    var s := t.states[i];
    ExclusiveSubset(c, s.born, Claimants(s.files, s.main), InFlight(s.files));
    forall a | a in InFlight(s.files) ensures ToolsOf(c, s.born, a) == ToolsFor(c.uses, s.files[a].task) {
      assert SlotOk(s.files[a], a, s.born, s.clock);
    }
  }

  // After the recovery a record's status differs from its directory only in queued/, where a start or
  // a supersede was cut short: such a record says "running" or "superseded".
  lemma StatusMatchesDirectory(c: Config, t: Trace, i: nat, id: TaskId)
    requires Behavior(c, t) && i < |t.states| && id in t.states[i].files
    requires !t.states[i].main.BootStart? && !t.states[i].main.Recovering?
    ensures var slot := t.states[i].files[id];
            slot.task.status != slot.dir ==> slot.dir == Queued && slot.task.status in {Running, Superseded}
  {
    InvAlong(c, t, i);
    var s := t.states[i];
    assert SlotOk(s.files[id], id, s.born, s.clock);
    assert In(s.files, id, s.files[id].dir);
  }
}
