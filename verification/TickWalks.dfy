/**
 Continuations in which one tick, left to itself, reads the whole disk: for reachable examples.
 */
module TickWalks {
  import opened Domain
  import opened Store
  import opened Scheduling
  import opened Protocol
  import opened Walks
  import opened Supersede

  // A step that neither inserts nor starts a task.
  predicate Quiet(l: Label) {
    !IsInsert(l) && l != Main(StartNext)
  }

  predicate QuietWalk(w: Walk)
    decreases w
  {
    w.Then? ==> Quiet(w.via) && QuietWalk(w.rest)
  }

  ghost predicate Trail(c: Config, s: State, w: Walk, u: State) {
    Leads(c, s, w, u) && QuietWalk(w)
  }

  lemma {:induction false} QuietJoined(v: Walk, w: Walk)
    requires QuietWalk(v) && QuietWalk(w)
    ensures QuietWalk(Joined(v, w))
    decreases v
  {
    if v.Then? {
      QuietJoined(v.rest, w);
    }
  }

  lemma {:induction false} QuietInsertsNothing(w: Walk)
    requires QuietWalk(w)
    ensures NoInserts(w)
    decreases w
  {
    if w.Then? {
      QuietInsertsNothing(w.rest);
    }
  }

  lemma {:induction false} CallsAreQuiet(w: Walk)
    requires CallsOnly(w)
    ensures QuietWalk(w)
    decreases w
  {
    if w.Then? {
      CallsAreQuiet(w.rest);
    }
  }

  lemma Onward(c: Config, s: State, w: Walk, m: State, l: Label, u: State) returns (v: Walk)
    requires Trail(c, s, w, m) && Hop(c, m, l, u) && Quiet(l)
    ensures Trail(c, s, v, u)
  {
    var one := Then(l, u, Here);
    assert Leads(c, u, Here, u);
    LeadsOn(c, s, w, m, one, u);
    QuietJoined(w, one);
    v := Joined(w, one);
  }

  lemma Go(c: Config, s: State, w: Walk, m: State, a: MainAct) returns (v: Walk, u: State)
    requires Trail(c, s, w, m) && MainEnabled(m, a) && !a.StartNext?
    ensures u == MainStep(c, m, a) && Trail(c, s, v, u)
  {
    u := MainStep(c, m, a);
    v := Onward(c, s, w, m, Main(a), u);
  }

  // A main-loop step that only moves the program counter.
  lemma Goes(c: Config, s: State, w: Walk, m: State, a: MainAct, pc: MainPc) returns (v: Walk, u: State)
    requires Trail(c, s, w, m) && MainEnabled(m, a) && MainStep(c, m, a) == m.(main := pc) && !a.StartNext?
    ensures u == m.(main := pc) && Trail(c, s, v, u)
  {
    v, u := Go(c, s, w, m, a);
  }

  lemma GoRun(c: Config, s: State, w: Walk, m: State, r: RunId, a: RunAct) returns (v: Walk, u: State)
    requires Trail(c, s, w, m) && RunEnabled(m, r, a)
    ensures u == RunStep(c, m, r, a) && Trail(c, s, v, u)
  {
    u := RunStep(c, m, r, a);
    v := Onward(c, s, w, m, OfRun(r, a), u);
  }

  lemma GoCall(c: Config, s: State, w: Walk, m: State, e: TaskId, a: EnqueueAct) returns (v: Walk, u: State)
    requires Trail(c, s, w, m) && EnqueueEnabled(m, e, a) && !a.Insert?
    ensures u == EnqueueStep(m, e, a) && Trail(c, s, v, u)
  {
    u := EnqueueStep(m, e, a);
    v := Onward(c, s, w, m, OfEnqueue(e, a), u);
  }

  /* ---- A listing, by ascending id ---- */

  // The disk holds the tasks 0 to n - 1.
  ghost predicate Numbered(files: Files, n: nat) {
    forall id: TaskId :: id in files <==> id < n
  }

  // What a listing of one directory shows of the first k tasks.
  function DirTasks(files: Files, dir: Status, k: nat): seq<Task>
    requires forall id: TaskId :: id < k ==> id in files
  {
    if k == 0 then []
    else DirTasks(files, dir, k - 1) + if files[k - 1].dir == dir then [files[k - 1].task] else []
  }

  // The tasks of the directory from k on.
  function DirIds(files: Files, dir: Status, k: nat): set<TaskId> {
    set id | id in files && files[id].dir == dir && id >= k
  }

  lemma NextOfDir(files: Files, dir: Status, k: nat, n: nat)
    requires Numbered(files, n) && k < n
    ensures DirIds(files, dir, k + 1) == DirIds(files, dir, k) - {k}
    ensures k in DirIds(files, dir, k) <==> files[k].dir == dir
  {
  }

  lemma ReadsOne(c: Config, s: State, w: Walk, m: State, left: seq<Status>, listed: seq<Task>, k: nat, n: nat)
    returns (v: Walk, u: State)
    requires Trail(c, s, w, m) && Numbered(m.files, n) && k < n && left != []
    requires m.main == ReadingFiles(left, DirIds(m.files, left[0], k), listed)
    ensures Trail(c, s, v, u)
    ensures var got := if m.files[k].dir == left[0] then [m.files[k].task] else [];
            u == m.(main := ReadingFiles(left, DirIds(m.files, left[0], k + 1), listed + got))
  {
    NextOfDir(m.files, left[0], k, n);
    if m.files[k].dir == left[0] {
      v, u := Goes(c, s, w, m, ListFile(k),
                   ReadingFiles(left, DirIds(m.files, left[0], k + 1), listed + [m.files[k].task]));
    } else {
      assert listed + [] == listed;
      v, u := w, m;
    }
  }

  lemma {:induction false} ReadsFrom(c: Config, s: State, w: Walk, m: State, left: seq<Status>, listed: seq<Task>,
                                     k: nat, n: nat)
    returns (v: Walk, u: State)
    requires Trail(c, s, w, m) && Numbered(m.files, n) && k <= n && left != []
    requires m.main == ReadingFiles(left, DirIds(m.files, left[0], k), listed + DirTasks(m.files, left[0], k))
    ensures Trail(c, s, v, u)
    ensures u == m.(main := ReadingFiles(left, {}, listed + DirTasks(m.files, left[0], n)))
    decreases n - k
  {
    if k == n {
      assert DirIds(m.files, left[0], n) == {};
      v, u := w, m;
    } else {
      v, u := ReadsOne(c, s, w, m, left, listed + DirTasks(m.files, left[0], k), k, n);
      ListedMore(m.files, left[0], listed, k);
      v, u := ReadsFrom(c, s, v, u, left, listed, k + 1, n);
    }
  }

  lemma ListedMore(files: Files, dir: Status, listed: seq<Task>, k: nat)
    requires forall id: TaskId :: id < k + 1 ==> id in files
    ensures listed + DirTasks(files, dir, k) + (if files[k].dir == dir then [files[k].task] else [])
         == listed + DirTasks(files, dir, k + 1)
  {
  }

  lemma ReadsDirectory(c: Config, s: State, w: Walk, m: State, left: seq<Status>, listed: seq<Task>, n: nat)
    returns (v: Walk, u: State)
    requires Trail(c, s, w, m) && Numbered(m.files, n) && left != [] && m.main == ReadingDirectory(left, listed)
    ensures Trail(c, s, v, u)
    ensures u == m.(main := ReadingDirectory(left[1..], listed + DirTasks(m.files, left[0], n)))
  {
    assert InDirectory(m.files, left[0]) == DirIds(m.files, left[0], 0);
    assert listed + DirTasks(m.files, left[0], 0) == listed;
    v, u := Goes(c, s, w, m, ListDirectory, ReadingFiles(left, DirIds(m.files, left[0], 0), listed));
    v, u := ReadsFrom(c, s, v, u, left, listed, 0, n);
    v, u := Goes(c, s, v, u, ListNext, ReadingDirectory(left[1..], listed + DirTasks(m.files, left[0], n)));
  }

  function AllTasks(files: Files, left: seq<Status>, n: nat): seq<Task>
    requires forall id: TaskId :: id < n ==> id in files
  {
    if left == [] then [] else DirTasks(files, left[0], n) + AllTasks(files, left[1..], n)
  }

  lemma {:induction false} ReadsAllDirectories(c: Config, s: State, w: Walk, m: State, left: seq<Status>,
                                               listed: seq<Task>, n: nat)
    returns (v: Walk, u: State)
    requires Trail(c, s, w, m) && Numbered(m.files, n) && m.main == ReadingDirectory(left, listed)
    ensures Trail(c, s, v, u) && u == m.(main := ReadingDirectory([], listed + AllTasks(m.files, left, n)))
    decreases |left|
  {
    if left == [] {
      assert listed + [] == listed;
      v, u := w, m;
    } else {
      v, u := ReadsDirectory(c, s, w, m, left, listed, n);
      assert listed + AllTasks(m.files, left, n)
          == listed + DirTasks(m.files, left[0], n) + AllTasks(m.files, left[1..], n);
      v, u := ReadsAllDirectories(c, s, v, u, left[1..], listed + DirTasks(m.files, left[0], n), n);
    }
  }

  /* ---- A disk of queued and running tasks ---- */

  ghost predicate Unended(files: Files, n: nat) {
    Numbered(files, n) && forall id: TaskId :: id < n ==> files[id].dir in {Queued, Running}
  }

  lemma {:induction false} NoneOf(files: Files, dir: Status, k: nat)
    requires forall id: TaskId :: id < k ==> id in files && files[id].dir != dir
    ensures DirTasks(files, dir, k) == []
  {
    if k > 0 {
      NoneOf(files, dir, k - 1);
    }
  }

  function QueuedThenRunning(files: Files, n: nat): seq<Task>
    requires forall id: TaskId :: id < n ==> id in files
  {
    DirTasks(files, Queued, n) + DirTasks(files, Running, n)
  }

  lemma ListsTwo(files: Files, n: nat)
    requires Unended(files, n)
    ensures AllTasks(files, TASK_STATUSES, n) == QueuedThenRunning(files, n)
  {
    NoneOf(files, Succeeded, n);
    NoneOf(files, Failed, n);
    NoneOf(files, Superseded, n);
    assert TASK_STATUSES[1..] == [Running, Succeeded, Failed, Superseded];
    assert TASK_STATUSES[1..][1..] == [Succeeded, Failed, Superseded];
    ListsNone(files, n);
  }

  lemma ListsNone(files: Files, n: nat)
    requires forall id: TaskId :: id < n ==> id in files
    requires DirTasks(files, Succeeded, n) == DirTasks(files, Failed, n) == DirTasks(files, Superseded, n) == []
    ensures AllTasks(files, [Succeeded, Failed, Superseded], n) == []
  {
    assert [Superseded][1..] == [];
    assert AllTasks(files, [], n) == [] && AllTasks(files, [Superseded], n) == [];
    assert [Failed, Superseded][1..] == [Superseded];
    assert AllTasks(files, [Failed, Superseded], n) == [];
    assert [Succeeded, Failed, Superseded][1..] == [Failed, Superseded];
  }

  // A record the sweep passes over.
  predicate Passes(active: map<TaskId, RunId>, t: Task) {
    t.status != Running || t.id in active
  }

  lemma PassesFirst(active: map<TaskId, RunId>, rest: seq<Task>)
    requires rest != [] && forall t :: t in rest ==> Passes(active, t)
    ensures Passes(active, rest[0]) && forall t :: t in rest[1..] ==> Passes(active, t)
  {
  }

  lemma {:induction false} SweepPasses(c: Config, s: State, w: Walk, m: State) returns (v: Walk, u: State)
    requires Trail(c, s, w, m) && m.main.SweepingStale? && forall t :: t in m.main.rest ==> Passes(m.active, t)
    ensures Trail(c, s, v, u) && u == m.(main := ReadingPauses(m.main.listed))
    decreases if m.main.SweepingStale? then |m.main.rest| else 0
  {
    if m.main.rest == [] {
      v, u := Goes(c, s, w, m, SweepDone, ReadingPauses(m.main.listed));
    } else {
      PassesFirst(m.active, m.main.rest);
      v, u := Goes(c, s, w, m, SweepNext(true), SweepingStale(m.main.rest[1..], m.main.sweptAt, m.main.listed));
      v, u := SweepPasses(c, s, v, u);
    }
  }

  lemma {:induction false} DirHas(files: Files, dir: Status, k: nat)
    requires forall id: TaskId :: id < k ==> id in files
    ensures forall t :: t in DirTasks(files, dir, k) ==>
              exists id: TaskId :: id < k && files[id].dir == dir && files[id].task == t
  {
    if k > 0 {
      DirHas(files, dir, k - 1);
    }
  }

  lemma TickLists(c: Config, s: State, w: Walk, m: State, n: nat) returns (v: Walk, u: State)
    requires Trail(c, s, w, m) && Unended(m.files, n) && m.main.Idle? && m.clock - m.lastPruneAt < c.pruneIntervalMs
    ensures Trail(c, s, v, u) && u == m.(main := ReadingDirectory([], QueuedThenRunning(m.files, n)))
  {
    v, u := Goes(c, s, w, m, TickBegin, ReadingDirectory(TASK_STATUSES, []));
    ListsTwo(m.files, n);
    assert [] + QueuedThenRunning(m.files, n) == QueuedThenRunning(m.files, n);
    v, u := ReadsAllDirectories(c, s, v, u, TASK_STATUSES, [], n);
  }

  lemma TickSweeps(c: Config, s: State, w: Walk, m: State, listed: seq<Task>) returns (v: Walk, u: State)
    requires Trail(c, s, w, m) && m.main == ReadingDirectory([], listed)
    requires forall t :: t in listed ==> Passes(m.active, t)
    ensures Trail(c, s, v, u) && u == m.(main := ReadingPauses(listed))
  {
    v, u := Goes(c, s, w, m, ListDone, SweepingStale(listed, m.clock, listed));
    v, u := SweepPasses(c, s, v, u);
  }

  // From between ticks to the moment of selecting.
  lemma TickReads(c: Config, s: State, w: Walk, m: State, n: nat) returns (v: Walk, u: State)
    requires Trail(c, s, w, m) && Unended(m.files, n) && m.main.Idle?
    requires m.clock - m.lastPruneAt < c.pruneIntervalMs && (c.hasPauseStore || m.pauses == map[])
    requires forall id: TaskId :: id < n ==> Passes(m.active, m.files[id].task)
    ensures Trail(c, s, v, u) && u == m.(main := Selecting(QueuedThenRunning(m.files, n), m.pauses))
  {
    v, u := TickLists(c, s, w, m, n);
    ListedPass(m, n);
    v, u := TickSweeps(c, s, v, u, QueuedThenRunning(m.files, n));
    v, u := Goes(c, s, v, u, ReadPauses, Selecting(QueuedThenRunning(m.files, n), m.pauses));
  }

  lemma ListedPass(m: State, n: nat)
    requires Numbered(m.files, n) && forall id: TaskId :: id < n ==> Passes(m.active, m.files[id].task)
    ensures forall t :: t in QueuedThenRunning(m.files, n) ==> Passes(m.active, t)
  {
    DirHas(m.files, Queued, n);
    DirHas(m.files, Running, n);
  }
}
