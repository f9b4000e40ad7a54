/**
 The bound on the unfinished tasks of one source is reached: for every concurrency, every number of
 conflicts that an enqueue finds and fails to supersede, and every number that it misses because they
 are started after it has listed them and before it reads them.
 */
module SourceBoundReached {
  import opened Domain
  import opened Store
  import opened Scheduling
  import opened Protocol
  import opened Walks
  import opened Supersede
  import opened SourceBound
  import opened TickWalks
  import opened OwnershipExample

  // Each of the instructions 0 to n - 1 has a tool of its own.
  ghost predicate Furnished(c: Config, n: nat) {
    && c.pruneIntervalMs > 0 && c.cooldownMs > 0 && c.hasPauseStore
    && forall i: nat :: i < n ==> Declared(c.uses, i) == [Named(i)]
  }

  // There is such a configuration for every concurrency.
  function OwnToolEach(max: nat, n: nat): Config {
    Config(map i: nat | i < n :: [Named(i)], max, 1, true, 1, 1, 1)
  }

  lemma OwnToolEachIsFurnished(max: nat, n: nat)
    ensures Furnished(OwnToolEach(max, n), n) && OwnToolEach(max, n).maxConcurrency == max
  {
  }

  lemma OwnTool(c: Config, n: nat, t: Task)
    requires Furnished(c, n) && t.instruction < n
    ensures ToolsFor(c.uses, t) == {Named(t.instruction)}
  {
  }

  /* ---- What a walk starts unread ---- */

  // The tasks started along the walk although call `e` has listed them and not read them yet.
  function StartedUnreadOn(s: State, w: Walk, e: TaskId): set<TaskId>
    decreases w
  {
    match w
    case Here => {}
    case Then(l, m, rest) =>
      (if StartsUnread(s, l, e) then {s.main.pending[0]} else {}) + StartedUnreadOn(m, rest, e)
  }

  predicate Open(key: bool) {
    true
  }

  // The walk leads there, inserts nothing and starts unread just these. A proof that only passes the
  // fact on does not look inside; one that needs the parts asks for `Open`.
  ghost predicate Gets(c: Config, s: State, w: Walk, u: State, e: TaskId, missed: set<TaskId>) {
    forall key: bool :: Open(key) ==> Leads(c, s, w, u) && NoInserts(w) && StartedUnreadOn(s, w, e) == missed
  }

  lemma Parts(c: Config, s: State, w: Walk, u: State, e: TaskId, missed: set<TaskId>)
    requires Gets(c, s, w, u, e, missed)
    ensures Leads(c, s, w, u) && NoInserts(w) && StartedUnreadOn(s, w, e) == missed
  {
    assert Open(true);
  }

  lemma {:induction false} StartedOnJoined(c: Config, s: State, v: Walk, m: State, w: Walk, e: TaskId)
    requires Leads(c, s, v, m)
    ensures StartedUnreadOn(s, Joined(v, w), e) == StartedUnreadOn(s, v, e) + StartedUnreadOn(m, w, e)
    decreases v
  {
    if v.Then? {
      StartedOnJoined(c, v.to, v.rest, m, w, e);
    }
  }

  lemma {:induction false} QuietStartsNothing(s: State, w: Walk, e: TaskId)
    requires QuietWalk(w)
    ensures StartedUnreadOn(s, w, e) == {}
    decreases w
  {
    if w.Then? {
      QuietStartsNothing(w.to, w.rest, e);
    }
  }

  /* ---- The first tick starts as many as it may ---- */

  lemma {:induction false} AllQueued(tasks: seq<Task>)
    requires forall t :: t in tasks ==> t.status == Queued
    ensures WithStatus(tasks, Queued) == tasks && WithStatus(tasks, Running) == []
  {
    if tasks != [] {
      AllQueued(tasks[1..]);
      assert tasks[0] in tasks;
    }
  }

  lemma {:induction false} AllRunning(tasks: seq<Task>)
    requires forall t :: t in tasks ==> t.status == Running
    ensures WithStatus(tasks, Queued) == [] && WithStatus(tasks, Running) == tasks
  {
    if tasks != [] {
      AllRunning(tasks[1..]);
      assert tasks[0] in tasks;
    }
  }

  function Positions(n: nat): (r: set<nat>)
    ensures |r| == n && forall i: nat :: i in r <==> i < n
  {
    if n == 0 then {} else Positions(n - 1) + {n - 1}
  }

  lemma {:induction false} PickAll(queue: seq<Task>, n: nat)
    requires n <= |queue|
    ensures Pick(queue, Positions(|queue|), n) == queue[..n]
  {
    if n > 0 {
      PickAll(queue, n - 1);
      assert queue[..n] == queue[..n - 1] + [queue[n - 1]];
    }
  }

  lemma AllFit(b: Budget, queue: seq<Task>)
    requires |queue| <= b.slots && b.paused == {} && b.busy == {}
    requires forall i, k :: 0 <= i < k < |queue| ==> ToolsFor(b.uses, queue[i]) !! ToolsFor(b.uses, queue[k])
    ensures Greedy(b, queue, Positions(|queue|))
  {
    var all := Positions(|queue|);
    forall i | 0 <= i < |queue| ensures i in all && Fits(b, queue, Below(all, i), i) {
      assert Below(all, i) == Positions(i);
    }
  }

  lemma SelectsThemAll(c: Config, queue: seq<Task>)
    requires |queue| <= c.maxConcurrency && forall t :: t in queue ==> t.status == Queued
    requires forall i, k :: 0 <= i < k < |queue| ==> ToolsFor(c.uses, queue[i]) !! ToolsFor(c.uses, queue[k])
    ensures Selection(queue, c.maxConcurrency, {}, c.uses) == queue
  {
    AllQueued(queue);
    AllFit(BudgetFor(queue, c.maxConcurrency, {}, c.uses), queue);
    SelectionIsGreedy(queue, c.maxConcurrency, {}, c.uses, Positions(|queue|));
    PickAll(queue, |queue|);
    assert queue[..|queue|] == queue;
  }

  // The tasks 0 to k - 1, all in the directory, are listed as they are numbered.
  lemma {:induction false} AllOf(files: Files, dir: Status, k: nat)
    requires forall id: TaskId :: id < k ==> id in files && files[id].dir == dir
    ensures |DirTasks(files, dir, k)| == k && forall i :: 0 <= i < k ==> DirTasks(files, dir, k)[i] == files[i].task
  {
    if k > 0 {
      AllOf(files, dir, k - 1);
    }
  }

  lemma FirstSelection(c: Config, s: State, source: Source)
    requires Furnished(c, c.maxConcurrency) && Piled(s, source, 0, c.maxConcurrency)
    ensures var listed := QueuedThenRunning(s.files, c.maxConcurrency);
            Ids(Selection(listed, c.maxConcurrency, {}, c.uses)) == Count(c.maxConcurrency)
  {
    var n := c.maxConcurrency;
    AllOf(s.files, Queued, n);
    NoneOf(s.files, Running, n);
    var queue := DirTasks(s.files, Queued, n);
    assert QueuedThenRunning(s.files, n) == queue;
    assert forall i :: 0 <= i < n ==> Shaped(s.files[i], source, i, Queued);
    forall i, k | 0 <= i < k < n ensures ToolsFor(c.uses, queue[i]) !! ToolsFor(c.uses, queue[k]) {
      OwnTool(c, n, queue[i]);
      OwnTool(c, n, queue[k]);
    }
    SelectsThemAll(c, queue);
  }

  // The task has a live run, which is executing.
  ghost predicate HeldBy(s: State, h: TaskId) {
    h in s.active && s.active[h] in s.runs && s.runs[s.active[h]] == Run(h, Executing)
  }

  // The tasks below k have each a live run of their own, and runs are numbered from here on.
  ghost predicate Manned(s: State, k: nat) {
    && (forall id: TaskId :: id < k ==>
          id in s.active && s.active[id] in s.runs && s.runs[s.active[id]] == Run(id, Executing))
    && (forall r :: r in s.runs ==> r < s.nextRun)
  }

  lemma StartedOne(c: Config, s: State, source: Source, k: nat, n: nat)
    requires Piled(s, source, k, n) && Manned(s, k) && k < n && s.main == Starting(Waiting(k, n))
    ensures MainEnabled(s, StartNext)
    ensures var u := MainStep(c, s, StartNext);
            && Piled(u, source, k + 1, n) && Manned(u, k + 1) && u.main == Starting(Waiting(k + 1, n))
            && u.pauses == s.pauses && u.clock == s.clock && u.lastPruneAt == s.lastPruneAt
  {
    assert Waiting(k, n)[0] == k && Waiting(k, n)[1..] == Waiting(k + 1, n);
    assert In(s.files, k, Queued) && Shaped(s.files[k], source, k, Queued);
  }

  // Everything about the state that starting tasks does not change.
  ghost predicate SameTime(s: State, u: State) {
    u.pauses == s.pauses && u.clock == s.clock && u.lastPruneAt == s.lastPruneAt
  }

  lemma {:induction false} StartAll(c: Config, s: State, source: Source, k: nat, n: nat) returns (w: Walk, u: State)
    requires Piled(s, source, k, n) && Manned(s, k) && s.main == Starting(Waiting(k, n))
    ensures Leads(c, s, w, u) && Piled(u, source, n, n) && Manned(u, n) && u.main.Idle? && SameTime(s, u)
    decreases n - k
  {
    if k == n {
      u := MainStep(c, s, TickDone);
      OneStep(c, s, Main(TickDone), u);
      w := Then(Main(TickDone), u, Here);
    } else {
      StartedOne(c, s, source, k, n);
      var m := MainStep(c, s, StartNext);
      OneStep(c, s, Main(StartNext), m);
      w, u := StartAll(c, m, source, k + 1, n);
      w := And(c, s, Then(Main(StartNext), m, Here), m, w, u);
    }
  }

  lemma FirstTick(c: Config, s: State, source: Source) returns (w: Walk, u: State)
    requires Furnished(c, c.maxConcurrency) && Piled(s, source, 0, c.maxConcurrency) && Manned(s, 0)
    requires s.main.Idle? && s.pauses == map[] && s.lastPruneAt == s.clock
    ensures Leads(c, s, w, u) && Piled(u, source, c.maxConcurrency, c.maxConcurrency)
    ensures Manned(u, c.maxConcurrency) && u.main.Idle? && SameTime(s, u)
  {
    var m: State;
    w, m := FirstSelecting(c, s, source);
    assert Waiting(0, c.maxConcurrency) == Count(c.maxConcurrency);
    var v: Walk;
    v, u := StartAll(c, m, source, 0, c.maxConcurrency);
    w := And(c, s, w, m, v, u);
  }

  lemma FirstSelecting(c: Config, s: State, source: Source) returns (w: Walk, u: State)
    requires Furnished(c, c.maxConcurrency) && Piled(s, source, 0, c.maxConcurrency)
    requires s.main.Idle? && s.pauses == map[] && s.lastPruneAt == s.clock
    ensures Leads(c, s, w, u) && u == s.(main := Starting(Count(c.maxConcurrency)))
  {
    assert forall id: TaskId :: id < c.maxConcurrency ==> Shaped(s.files[id], source, id, Queued);
    assert Trail(c, s, Here, s);
    w, u := TickReads(c, s, Here, s, c.maxConcurrency);
    FirstSelection(c, s, source);
    assert ActivePauses(map[], s.clock) == {};
    w, u := Goes(c, s, w, u, Select, Starting(Count(c.maxConcurrency)));
  }

  // As many tasks of the source running as the concurrency allows, and k more queued.
  lemma RunningAndWaiting(c: Config, source: Source, s0: State, k: nat) returns (w: Walk, s: State)
    requires Init(s0) && Furnished(c, c.maxConcurrency)
    ensures Leads(c, s0, w, s) && Piled(s, source, c.maxConcurrency, c.maxConcurrency + k)
    ensures Manned(s, c.maxConcurrency) && s.main.Idle? && s.pauses == map[] && s.lastPruneAt == s.clock
  {
    var n := c.maxConcurrency;
    var s1 := s0.(main := Idle, lastPruneAt := s0.clock);
    w := BootEmpty(c, s0);
    var v, s2 := PileUp(c, source, s1, 0, 0, n);
    w := And(c, s0, w, s1, v, s2);
    var s3: State;
    v, s3 := FirstTick(c, s2, source);
    w := And(c, s0, w, s2, v, s3);
    v, s := PileUp(c, source, s3, n, n, n + k);
    w := And(c, s0, w, s3, v, s);
  }

  /* ---- A slot passed from task to task ---- */

  // The tasks 1 to max - 1 run throughout; one more, `held`, has the remaining slot (none if out of range).
  predicate Slotted(max: nat, held: TaskId, id: TaskId) {
    1 <= id < max || id == held
  }

  // The tasks below x that have had the slot and lost it to a rate limit.
  predicate Benched(max: nat, x: nat, held: TaskId, id: TaskId) {
    (id == 0 || max <= id) && id < x && id != held
  }

  ghost predicate LaidOut(files: Files, source: Source, max: nat, held: TaskId, total: nat) {
    && Numbered(files, total)
    && forall id: TaskId :: id < total ==>
         Shaped(files[id], source, id, if Slotted(max, held, id) then Running else Queued)
  }

  // Exactly the tools of the benched tasks are paused.
  ghost predicate BenchPaused(pauses: map<Tool, int>, clock: int, max: nat, x: nat, held: TaskId) {
    && (forall id: TaskId :: Benched(max, x, held, id) ==> Named(id) in pauses && pauses[Named(id)] > clock)
    && (forall t :: t in pauses ==> t.Named? && Benched(max, x, held, t.name))
  }

  predicate AtLeast(id: TaskId, x: nat) {
    id >= x
  }

  function From(x: nat, total: nat): set<TaskId> {
    set id: TaskId | id < total && AtLeast(id, x)
  }

  // The call of the last task, e, has listed all that were queued and has still to read those from y on.
  ghost predicate CallReads(s: State, source: Source, y: nat, e: TaskId) {
    && s.enqueues == map[e := Reading(From(y, e + 1), {})]
    && e in s.born && s.born[e].source == source
  }

  ghost predicate Laid(c: Config, s: State, source: Source, x: nat, total: nat, held: TaskId) {
    && 0 < c.maxConcurrency <= x
    && LaidOut(s.files, source, c.maxConcurrency, held, total)
    && BenchPaused(s.pauses, s.clock, c.maxConcurrency, x, held)
    && s.lastPruneAt == s.clock
    && (forall id: TaskId :: 1 <= id < c.maxConcurrency ==> id in s.active)
    && (forall r :: r in s.runs ==> r < s.nextRun)
  }

  // Between ticks, with `h` in the slot and x next.
  ghost predicate Round(c: Config, s: State, source: Source, x: nat, e: nat, h: TaskId) {
    && Laid(c, s, source, x, e + 1, h) && CallReads(s, source, x, e)
    && s.main.Idle? && HeldBy(s, h) && h < x && (h == 0 || c.maxConcurrency <= h) && x <= e
  }

  // Some task is in the slot, whichever.
  ghost predicate Going(c: Config, s: State, source: Source, x: nat, e: nat) {
    forall key: bool :: Open(key) ==> Furnished(c, e + 1) && exists h: TaskId :: Round(c, s, source, x, e, h)
  }

  // A rate-limited run, from its result to its requeue.
  function Limited(c: Config, m: State, h: TaskId): State
    requires HeldBy(m, h) && h in m.files
  {
    var r := m.active[h];
    m.(runs := m.runs[r := Run(h, Winding)],
       pauses := m.pauses[Named(h) := m.clock + c.cooldownMs],
       files := m.files[h := Moved(m.files[h], Requeue, m.clock)])
  }

  lemma HolderPauses(c: Config, s: State, w: Walk, m: State, h: TaskId) returns (v: Walk, u: State)
    requires Trail(c, s, w, m) && c.hasPauseStore && HeldBy(m, h) && Named(h) !in m.pauses
    ensures Trail(c, s, v, u)
    ensures u == m.(runs := m.runs[m.active[h] := Run(h, Reverting)],
                    pauses := m.pauses[Named(h) := m.clock + c.cooldownMs])
  {
    var r, until := m.active[h], m.clock + c.cooldownMs;
    v, u := GoRun(c, s, w, m, r, ReturnsRateLimited([Named(h)]));
    assert u == m.(runs := m.runs[r := Run(h, Pausing([Named(h)], until))]);
    v, u := GoRun(c, s, v, u, r, PauseNext(true));
    assert m.runs[r := Run(h, Pausing([Named(h)], until))][r := Run(h, Reverting)] == m.runs[r := Run(h, Reverting)];
  }

  lemma HolderLimited(c: Config, s: State, w: Walk, m: State, h: TaskId) returns (v: Walk, u: State)
    requires Trail(c, s, w, m) && c.hasPauseStore && HeldBy(m, h) && Named(h) !in m.pauses && In(m.files, h, Running)
    ensures Trail(c, s, v, u) && u == Limited(c, m, h)
  {
    var r := m.active[h];
    v, u := HolderPauses(c, s, w, m, h);
    v, u := GoRun(c, s, v, u, r, RevertTask(true));
    assert m.runs[r := Run(h, Reverting)][r := Run(h, Winding)] == m.runs[r := Run(h, Winding)];
  }

  // The holder is rate-limited, pauses its tool and gives up the slot.
  lemma BenchHolder(c: Config, s: State, w: Walk, m: State, source: Source, x: nat, e: nat, h: TaskId)
    returns (v: Walk, u: State)
    requires Trail(c, s, w, m) && Furnished(c, e + 1) && Round(c, m, source, x, e, h)
    ensures Trail(c, s, v, u) && Laid(c, u, source, x, e + 1, e + 1) && CallReads(u, source, x, e) && u.main.Idle?
  {
    assert Shaped(m.files[h], source, h, Running);
    v, u := HolderLimited(c, s, w, m, h);
    LimitedIsLaid(c, m, source, x, e, h);
  }

  lemma LimitedIsLaid(c: Config, m: State, source: Source, x: nat, e: nat, h: TaskId)
    requires Furnished(c, e + 1) && Round(c, m, source, x, e, h) && h in m.files
    ensures var u := Limited(c, m, h);
            Laid(c, u, source, x, e + 1, e + 1) && CallReads(u, source, x, e) && u.main.Idle?
  {
    HolderBenched(m.files, m.pauses, m.clock, source, c.maxConcurrency, x, e + 1, h, m.clock + c.cooldownMs);
  }

  lemma HolderBenched(files: Files, pauses: map<Tool, int>, clock: int, source: Source, max: nat, x: nat, total: nat,
                      h: TaskId, until: int)
    requires LaidOut(files, source, max, h, total) && BenchPaused(pauses, clock, max, x, h)
    requires h < x < total && (h == 0 || max <= h) && 0 < max && until > clock
    ensures LaidOut(files[h := Moved(files[h], Requeue, clock)], source, max, total, total)
    ensures BenchPaused(pauses[Named(h) := until], clock, max, x, total)
  {
    assert Shaped(files[h], source, h, Running);
  }

  /* ---- The next tick starts the next task, and only that ---- */

  lemma {:induction false} DirPrefix(files: Files, dir: Status, k: nat, n: nat)
    requires k <= n && forall id: TaskId :: id < n ==> id in files
    ensures |DirTasks(files, dir, k)| <= |DirTasks(files, dir, n)|
    ensures DirTasks(files, dir, n)[..|DirTasks(files, dir, k)|] == DirTasks(files, dir, k)
  {
    if k < n {
      DirPrefix(files, dir, k, n - 1);
    }
  }

  lemma {:induction false} CountRunning(files: Files, source: Source, max: nat, total: nat, k: nat)
    requires 0 < max && k <= total && LaidOut(files, source, max, total, total)
    ensures |DirTasks(files, Running, k)| == if k == 0 then 0 else (if k < max then k else max) - 1
  {
    if k > 0 {
      CountRunning(files, source, max, total, k - 1);
      assert Shaped(files[k - 1], source, k - 1, if Slotted(max, total, k - 1) then Running else Queued);
    }
  }

  lemma {:induction false} WithStatusConcat(a: seq<Task>, b: seq<Task>, st: Status)
    ensures WithStatus(a + b, st) == WithStatus(a, st) + WithStatus(b, st)
  {
    if a == [] {
      assert a + b == b;
    } else {
      WithStatusConcat(a[1..], b, st);
      FirstOfBoth(a, b);
      WithStatusStep(a, st);
      WithStatusStep(a + b, st);
      Regrouped(if a[0].status == st then [a[0]] else [], WithStatus(a[1..], st), WithStatus(b, st));
    }
  }

  lemma Regrouped(x: seq<Task>, y: seq<Task>, z: seq<Task>)
    ensures x + (y + z) == x + y + z
  {
  }

  lemma FirstOfBoth(a: seq<Task>, b: seq<Task>)
    requires a != []
    ensures (a + b)[1..] == a[1..] + b && (a + b)[0] == a[0]
  {
  }

  lemma WithStatusStep(a: seq<Task>, st: Status)
    requires a != []
    ensures WithStatus(a, st) == (if a[0].status == st then [a[0]] else []) + WithStatus(a[1..], st)
  {
  }

  lemma {:induction false} PickOne(queue: seq<Task>, p: nat, n: nat)
    requires p < |queue| && n <= |queue|
    ensures Pick(queue, {p}, n) == if p < n then [queue[p]] else []
  {
    if n > 0 {
      PickOne(queue, p, n - 1);
    }
  }

  // With one slot, the first that is not held back is chosen.
  lemma OneFits(b: Budget, queue: seq<Task>, p: nat)
    requires b.slots == 1 && p < |queue|
    requires ToolsFor(b.uses, queue[p]) !! b.paused && ToolsFor(b.uses, queue[p]) !! b.busy
    requires forall i :: 0 <= i < p ==> !(ToolsFor(b.uses, queue[i]) !! b.paused)
    ensures Greedy(b, queue, {p})
  {
    forall i | 0 <= i < |queue| ensures i in {p} <==> Fits(b, queue, Below({p}, i), i) {
      if i <= p {
        assert Below({p}, i) == {};
      } else {
        assert Below({p}, i) == {p};
      }
    }
  }

  lemma InDir(files: Files, source: Source, max: nat, held: TaskId, total: nat, dir: Status, k: nat, t: Task)
    requires LaidOut(files, source, max, held, total) && k <= total && t in DirTasks(files, dir, k)
    ensures t.id < k && files[t.id].task == t && files[t.id].dir == dir == t.status && t.instruction == t.id
    ensures dir == (if Slotted(max, held, t.id) then Running else Queued)
  {
    DirHas(files, dir, k);
    var id: TaskId :| id < k && files[id].dir == dir && files[id].task == t;
    assert Shaped(files[id], source, id, if Slotted(max, held, id) then Running else Queued);
  }

  lemma ListedStatuses(files: Files, source: Source, max: nat, total: nat)
    requires LaidOut(files, source, max, total, total)
    ensures var listed := QueuedThenRunning(files, total);
            && WithStatus(listed, Queued) == DirTasks(files, Queued, total)
            && WithStatus(listed, Running) == DirTasks(files, Running, total)
  {
    var q, r := DirTasks(files, Queued, total), DirTasks(files, Running, total);
    forall t | t in q ensures t.status == Queued { InDir(files, source, max, total, total, Queued, total, t); }
    forall t | t in r ensures t.status == Running { InDir(files, source, max, total, total, Running, total, t); }
    AllQueued(q);
    AllRunning(r);
    WithStatusConcat(q, r, Queued);
    WithStatusConcat(q, r, Running);
    assert q + [] == q && [] + r == r;
  }

  lemma NotBusy(c: Config, files: Files, source: Source, total: nat, x: nat)
    requires Furnished(c, total) && LaidOut(files, source, c.maxConcurrency, total, total) && c.maxConcurrency <= x
    ensures Named(x) !in Claimed(c.uses, DirTasks(files, Running, total))
  {
    forall t | t in DirTasks(files, Running, total) ensures Named(x) !in ToolsFor(c.uses, t) {
      InDir(files, source, c.maxConcurrency, total, total, Running, total, t);
      OwnTool(c, total, t);
    }
  }

  lemma NextAtItsPlace(files: Files, source: Source, max: nat, total: nat, x: nat) returns (p: nat)
    requires 0 < max <= x < total && LaidOut(files, source, max, total, total)
    ensures p < |DirTasks(files, Queued, total)| && DirTasks(files, Queued, total)[p] == files[x].task
    ensures forall i :: 0 <= i < p ==> DirTasks(files, Queued, total)[i] in DirTasks(files, Queued, x)
  {
    var before, upTo, all := DirTasks(files, Queued, x), DirTasks(files, Queued, x + 1), DirTasks(files, Queued, total);
    p := |before|;
    assert Shaped(files[x], source, x, Queued);
    assert upTo == before + [files[x].task];
    DirPrefix(files, Queued, x + 1, total);
    assert all[..p + 1] == upTo;
    assert forall i :: 0 <= i < p ==> all[i] == all[..p + 1][i] == before[i];
  }

  lemma BenchIsHeldBack(c: Config, files: Files, source: Source, pauses: map<Tool, int>, clock: int, x: nat,
                        total: nat, t: Task)
    requires Furnished(c, total) && x <= total && LaidOut(files, source, c.maxConcurrency, total, total)
    requires BenchPaused(pauses, clock, c.maxConcurrency, x, total) && t in DirTasks(files, Queued, x)
    ensures !(ToolsFor(c.uses, t) !! ActivePauses(pauses, clock))
  {
    InDir(files, source, c.maxConcurrency, total, total, Queued, x, t);
    OwnTool(c, total, t);
    assert Benched(c.maxConcurrency, x, total, t.id);
    assert Named(t.id) in ActivePauses(pauses, clock);
  }

  // The budget when the slot is free: one slot, the running tasks' tools busy.
  lemma FreeBudget(c: Config, files: Files, source: Source, paused: set<Tool>, x: nat, total: nat)
    requires Furnished(c, total) && 0 < c.maxConcurrency <= x < total
    requires LaidOut(files, source, c.maxConcurrency, total, total)
    ensures var listed := QueuedThenRunning(files, total);
            var b := BudgetFor(listed, c.maxConcurrency, paused, c.uses);
            && WithStatus(listed, Queued) == DirTasks(files, Queued, total)
            && b.slots == 1 && b.paused == paused && b.uses == c.uses && Named(x) !in b.busy
  {
    ListedStatuses(files, source, c.maxConcurrency, total);
    CountRunning(files, source, c.maxConcurrency, total, total);
    NotBusy(c, files, source, total, x);
  }

  lemma NextFits(c: Config, b: Budget, files: Files, source: Source, pauses: map<Tool, int>, clock: int, x: nat,
                 total: nat)
    returns (p: nat)
    requires Furnished(c, total) && 0 < c.maxConcurrency <= x < total
    requires LaidOut(files, source, c.maxConcurrency, total, total)
    requires BenchPaused(pauses, clock, c.maxConcurrency, x, total)
    requires b.slots == 1 && b.paused == ActivePauses(pauses, clock) && b.uses == c.uses && Named(x) !in b.busy
    ensures var queue := DirTasks(files, Queued, total);
            p < |queue| && queue[p].id == x && Greedy(b, queue, {p})
  {
    var queue := DirTasks(files, Queued, total);
    p := NextAtItsPlace(files, source, c.maxConcurrency, total, x);
    assert Shaped(files[x], source, x, Queued);
    OwnTool(c, total, queue[p]);
    assert !Benched(c.maxConcurrency, x, total, x);
    forall i | 0 <= i < p ensures !(ToolsFor(b.uses, queue[i]) !! b.paused) {
      BenchIsHeldBack(c, files, source, pauses, clock, x, total, queue[i]);
    }
    OneFits(b, queue, p);
  }

  lemma SelectsNext(c: Config, files: Files, source: Source, pauses: map<Tool, int>, clock: int, x: nat, total: nat)
    requires Furnished(c, total) && 0 < c.maxConcurrency <= x < total
    requires LaidOut(files, source, c.maxConcurrency, total, total)
    requires BenchPaused(pauses, clock, c.maxConcurrency, x, total)
    ensures var listed, paused := QueuedThenRunning(files, total), ActivePauses(pauses, clock);
            Ids(Selection(listed, c.maxConcurrency, paused, c.uses)) == [x]
  {
    var listed, paused := QueuedThenRunning(files, total), ActivePauses(pauses, clock);
    FreeBudget(c, files, source, paused, x, total);
    var b := BudgetFor(listed, c.maxConcurrency, paused, c.uses);
    var p := NextFits(c, b, files, source, pauses, clock, x, total);
    assert GitHub !in paused;
    SelectionIsGreedy(listed, c.maxConcurrency, paused, c.uses, {p});
    PickOne(DirTasks(files, Queued, total), p, |DirTasks(files, Queued, total)|);
  }

  lemma NextSelected(c: Config, s: State, w: Walk, m: State, source: Source, x: nat, total: nat)
    returns (v: Walk, u: State)
    requires Trail(c, s, w, m) && Furnished(c, total) && Laid(c, m, source, x, total, total) && x < total
    requires m.main.Idle?
    ensures Trail(c, s, v, u) && u == m.(main := Starting([x]))
  {
    forall id: TaskId | id < total ensures m.files[id].dir in {Queued, Running} && Passes(m.active, m.files[id].task) {
      assert Shaped(m.files[id], source, id, if Slotted(c.maxConcurrency, total, id) then Running else Queued);
    }
    v, u := TickReads(c, s, w, m, total);
    SelectsNext(c, m.files, source, m.pauses, m.clock, x, total);
    v, u := Goes(c, s, v, u, Select, Starting([x]));
  }

  // The start itself.
  lemma NextStarted(c: Config, m: State, source: Source, x: nat, e: nat)
    requires Laid(c, m, source, x, e + 1, e + 1) && CallReads(m, source, x, e) && x < e
    requires m.main == Starting([x])
    ensures MainEnabled(m, StartNext) && Starts(c, m, StartNext)
    ensures var u := MainStep(c, m, StartNext);
            && Laid(c, u, source, x + 1, e + 1, x) && CallReads(u, source, x, e) && HeldBy(u, x)
            && u.main == Starting([])
    ensures StartsUnread(m, Main(StartNext), e)
  {
    assert Shaped(m.files[x], source, x, Queued);
    var u := MainStep(c, m, StartNext);
    assert u.files == m.files[x := Moved(m.files[x], Start, m.clock)] && u.pauses == m.pauses;
    SlotTaken(m.files, m.pauses, m.clock, source, c.maxConcurrency, x, e + 1);
    assert [x][1..] == [];
    assert x in From(x, e + 1);
  }

  lemma SlotTaken(files: Files, pauses: map<Tool, int>, clock: int, source: Source, max: nat, x: nat, total: nat)
    requires LaidOut(files, source, max, total, total) && BenchPaused(pauses, clock, max, x, total) && max <= x < total
    ensures LaidOut(files[x := Moved(files[x], Start, clock)], source, max, x, total)
    ensures BenchPaused(pauses, clock, max, x + 1, x)
  {
    assert Shaped(files[x], source, x, Queued);
  }

  lemma NextUnread(x: nat, total: nat)
    requires x < total
    ensures x in From(x, total) && From(x, total) - {x} == From(x + 1, total)
  {
  }

  // The call's turn at the file of a task that has left queued/.
  lemma ReadsStarted(m: State, source: Source, x: nat, e: nat)
    requires CallReads(m, source, x, e) && x <= e && !In(m.files, x, Queued)
    ensures EnqueueEnabled(m, e, ReadRecord(x))
    ensures var u := EnqueueStep(m, e, ReadRecord(x));
            CallReads(u, source, x + 1, e) && u == m.(enqueues := u.enqueues)
  {
    NextUnread(x, e + 1);
    var u := EnqueueStep(m, e, ReadRecord(x));
    assert u.enqueues == map[e := Reading(From(x + 1, e + 1), {})];
  }

  // The call comes to the file of x, which has left queued/.
  lemma MissesStarted(c: Config, s: State, w: Walk, m: State, source: Source, x: nat, e: nat)
    returns (v: Walk, u: State)
    requires Trail(c, s, w, m) && Laid(c, m, source, x + 1, e + 1, x) && CallReads(m, source, x, e) && HeldBy(m, x)
    requires m.main == Starting([]) && x < e && c.maxConcurrency <= x
    ensures Trail(c, s, v, u) && Round(c, u, source, x + 1, e, x)
  {
    assert Shaped(m.files[x], source, x, Running);
    v, u := Goes(c, s, w, m, TickDone, Idle);
    ReadsStarted(u, source, x, e);
    v, u := GoCall(c, s, v, u, e, ReadRecord(x));
  }

  // Up to the start: the slot is free and x is the task selected.
  lemma SlotFrees(c: Config, s: State, source: Source, x: nat, e: nat, h: TaskId) returns (w: Walk, u: State)
    requires Furnished(c, e + 1) && Round(c, s, source, x, e, h) && x < e
    ensures Trail(c, s, w, u) && Laid(c, u, source, x, e + 1, e + 1) && CallReads(u, source, x, e)
    ensures u.main == Starting([x])
  {
    assert Trail(c, s, Here, s);
    var m: State;
    w, m := BenchHolder(c, s, Here, s, source, x, e, h);
    w, u := NextSelected(c, s, w, m, source, x, e + 1);
  }

  // From the start on.
  lemma SlotTakes(c: Config, m: State, source: Source, x: nat, e: nat) returns (k: State, w: Walk, u: State)
    requires Laid(c, m, source, x, e + 1, e + 1) && CallReads(m, source, x, e) && x < e
    requires m.main == Starting([x])
    ensures Next(c, m, Main(StartNext), k) && StartsUnread(m, Main(StartNext), e)
    ensures Trail(c, k, w, u) && Round(c, u, source, x + 1, e, x)
  {
    NextStarted(c, m, source, x, e);
    k := MainStep(c, m, StartNext);
    assert Trail(c, k, Here, k);
    w, u := MissesStarted(c, k, Here, k, source, x, e);
  }

  // The slot passes from h to x while the call has x still to read.
  lemma SlotPasses(c: Config, s: State, source: Source, x: nat, e: nat, h: TaskId) returns (w: Walk, u: State)
    requires Furnished(c, e + 1) && Round(c, s, source, x, e, h) && x < e
    ensures Gets(c, s, w, u, e, {x}) && Round(c, u, source, x + 1, e, x)
  {
    var v, m := SlotFrees(c, s, source, x, e, h);
    var k, q;
    k, q, u := SlotTakes(c, m, source, x, e);
    w := Around(c, s, v, m, k, q, u, e, x);
  }

  // A start between two quiet walks.
  lemma Around(c: Config, s: State, v: Walk, m: State, k: State, q: Walk, u: State, e: TaskId, x: TaskId)
    returns (w: Walk)
    requires Trail(c, s, v, m) && Trail(c, k, q, u) && Next(c, m, Main(StartNext), k)
    requires StartsUnread(m, Main(StartNext), e) && m.main.pending[0] == x
    ensures Gets(c, s, w, u, e, {x})
  {
    var rest := Then(Main(StartNext), k, q);
    assert Leads(c, m, rest, u);
    LeadsOn(c, s, v, m, rest, u);
    QuietInsertsNothing(v);
    QuietInsertsNothing(q);
    NoInsertsJoined(v, rest);
    QuietStartsNothing(s, v, e);
    QuietStartsNothing(k, q, e);
    StartedOnJoined(c, s, v, m, rest, e);
    w := Joined(v, rest);
  }

  // One more turn.
  lemma PassesOn(c: Config, s: State, w: Walk, m: State, source: Source, x: nat, e: nat, more: set<TaskId>)
    returns (v: Walk, u: State)
    requires Gets(c, s, w, m, e, more) && Going(c, m, source, x, e) && x < e
    ensures Gets(c, s, v, u, e, more + {x}) && Going(c, u, source, x + 1, e)
  {
    assert Open(true);
    var h: TaskId :| Round(c, m, source, x, e, h);
    var q: Walk;
    q, u := SlotPasses(c, m, source, x, e, h);
    v := Both(c, s, w, m, q, u, e, more, {x});
  }

  // From `s`, having started the tasks x to y - 1 unread, on with y.
  ghost predicate Passed(c: Config, s: State, source: Source, x: nat, y: nat, e: nat) {
    forall key: bool :: Open(key) ==>
      exists w, u :: Gets(c, s, w, u, e, From(x, y)) && Going(c, u, source, y, e)
  }

  lemma NonePassed(c: Config, s: State, source: Source, x: nat, e: nat)
    requires Going(c, s, source, x, e)
    ensures Passed(c, s, source, x, x, e)
  {
    assert Leads(c, s, Here, s);
    assert From(x, x) == {};
    assert Gets(c, s, Here, s, e, From(x, x));
  }

  lemma WhoPassed(c: Config, s: State, source: Source, x: nat, y: nat, e: nat) returns (w: Walk, u: State)
    requires Passed(c, s, source, x, y, e)
    ensures Gets(c, s, w, u, e, From(x, y)) && Going(c, u, source, y, e)
  {
    assert Open(true);
    w, u :| Gets(c, s, w, u, e, From(x, y)) && Going(c, u, source, y, e);
  }

  lemma OneMorePassed(c: Config, s: State, source: Source, x: nat, y: nat, e: nat)
    requires Passed(c, s, source, x, y, e) && x <= y < e
    ensures Passed(c, s, source, x, y + 1, e)
  {
    var w, m := WhoPassed(c, s, source, x, y, e);
    FromGrows(x, y);
    var v, u := PassesOn(c, s, w, m, source, y, e, From(x, y));
  }

  lemma FromGrows(x: nat, y: nat)
    requires x <= y
    ensures From(x, y) + {y} == From(x, y + 1)
  {
  }

  // And so on, up to z.
  lemma {:induction false} SlotGoesRound(c: Config, s: State, source: Source, x: nat, y: nat, z: nat, e: nat)
    requires Passed(c, s, source, x, y, e) && x <= y <= z <= e
    ensures Passed(c, s, source, x, z, e)
    decreases z - y
  {
    if y < z {
      OneMorePassed(c, s, source, x, y, e);
      SlotGoesRound(c, s, source, x, y + 1, z, e);
    }
  }

  lemma PassesSome(c: Config, s: State, source: Source, x: nat, y: nat, e: nat)
    requires Going(c, s, source, x, e) && x <= y <= e
    ensures Passed(c, s, source, x, y, e)
  {
    NonePassed(c, s, source, x, e);
    SlotGoesRound(c, s, source, x, x, y, e);
  }

  lemma Both(c: Config, s: State, v: Walk, m: State, w: Walk, u: State, e: TaskId, one: set<TaskId>, two: set<TaskId>)
    returns (r: Walk)
    requires Gets(c, s, v, m, e, one) && Gets(c, m, w, u, e, two)
    ensures Gets(c, s, r, u, e, one + two)
  {
    Parts(c, s, v, m, e, one);
    Parts(c, m, w, u, e, two);
    LeadsOn(c, s, v, m, w, u);
    NoInsertsJoined(v, w);
    StartedOnJoined(c, s, v, m, w, e);
    r := Joined(v, w);
  }

  /* ---- The search, from its reading of the directory to its end ---- */

  // Everything enqueued is unfinished, and what the call has still to read is queued.
  ghost predicate AllOpen(s: State, source: Source, y: nat, e: TaskId) {
    && CallReads(s, source, y, e) && Numbered(s.files, e + 1)
    && (forall id: TaskId :: id <= e ==> s.files[id].task.source == source && s.files[id].dir in {Queued, Running})
    && (forall id: TaskId :: y <= id <= e ==> s.files[id].dir == Queued)
  }

  // The call of the last task has read the directory: `max` tasks run, the others wait.
  ghost predicate Listed(c: Config, u: State, source: Source, e: nat) {
    && c.maxConcurrency <= e && Numbered(u.files, e + 1) && CallReads(u, source, c.maxConcurrency, e)
    && (forall id: TaskId :: id <= e ==>
          Shaped(u.files[id], source, id, if id < c.maxConcurrency then Running else Queued))
    && Manned(u, c.maxConcurrency) && u.main.Idle? && u.pauses == map[] && u.lastPruneAt == u.clock
  }

  // The call inserts the task e and reads the directory.
  lemma InsertAndList(c: Config, t: State, source: Source, e: nat)
    requires Piled(t, source, c.maxConcurrency, e) && Manned(t, c.maxConcurrency)
    requires t.main.Idle? && t.pauses == map[] && t.lastPruneAt == t.clock
    ensures e !in t.born
    ensures var s := InsertState(t, e, source, e);
            && EnqueueEnabled(s, e, ReadQueue) && e in s.born && s.born[e].source == source
            && Listed(c, EnqueueStep(s, e, ReadQueue), source, e)
  {
    PiledAfter(t, source, c.maxConcurrency, e);
    var s := InsertState(t, e, source, e);
    InsertedPile(s, source, c.maxConcurrency, e);
    assert s.enqueues == map[e := Inserted];
  }

  lemma InsertedPile(s: State, source: Source, max: nat, e: nat)
    requires Piled(s.(enqueues := map[]), source, max, e + 1) && max <= e
    ensures Numbered(s.files, e + 1) && InDirectory(s.files, Queued) == From(max, e + 1)
    ensures forall id: TaskId :: id <= e ==> Shaped(s.files[id], source, id, if id < max then Running else Queued)
  {
    var p := s.(enqueues := map[]);
    assert forall id: TaskId :: id < e + 1 ==> Shaped(p.files[id], source, id, if id < max then Running else Queued);
  }

  lemma ListedOver(c: Config, source: Source, s0: State, e: nat) returns (v: Walk, s: State)
    requires Init(s0) && Furnished(c, c.maxConcurrency) && c.maxConcurrency <= e
    ensures Leads(c, s0, v, s) && EnqueueEnabled(s, e, ReadQueue) && e in s.born && s.born[e].source == source
    ensures Listed(c, EnqueueStep(s, e, ReadQueue), source, e)
  {
    var t;
    v, t := RunningAndWaiting(c, source, s0, e - c.maxConcurrency);
    InsertAndList(c, t, source, e);
    s := InsertState(t, e, source, e);
    var one := EnqueueTurn(c, t, e, Insert(source, e), s);
    v := And(c, s0, v, t, one, s);
  }

  lemma ListedIsOpen(c: Config, u: State, source: Source, e: nat)
    requires Listed(c, u, source, e)
    ensures AllOpen(u, source, c.maxConcurrency, e)
  {
    assert forall id: TaskId :: id <= e ==>
             Shaped(u.files[id], source, id, if id < c.maxConcurrency then Running else Queued);
  }

  // Task 0 has the slot first.
  lemma ListedIsRound(c: Config, u: State, source: Source, e: nat)
    requires 0 < c.maxConcurrency && Listed(c, u, source, e)
    ensures Round(c, u, source, c.maxConcurrency, e, 0)
  {
    var max := c.maxConcurrency;
    forall id: TaskId | id < e + 1
      ensures Shaped(u.files[id], source, id, if Slotted(max, 0, id) then Running else Queued)
    {
      assert Shaped(u.files[id], source, id, if id < max then Running else Queued);
    }
  }

  lemma StartsGoing(c: Config, u: State, source: Source, e: nat)
    requires Furnished(c, e + 1) && 0 < c.maxConcurrency && Listed(c, u, source, e)
    ensures Going(c, u, source, c.maxConcurrency, e)
  {
    ListedIsRound(c, u, source, e);
  }

  lemma GoingIsOpen(c: Config, u: State, source: Source, y: nat, e: nat)
    requires Going(c, u, source, y, e)
    ensures AllOpen(u, source, y, e)
  {
    assert Open(true);
    var h: TaskId :| Round(c, u, source, y, e, h);
    forall id: TaskId | id < e + 1
      ensures u.files[id].task.source == source && u.files[id].dir in {Queued, Running}
      ensures y <= id ==> u.files[id].dir == Queued
    {
      assert Shaped(u.files[id], source, id, if Slotted(c.maxConcurrency, h, id) then Running else Queued);
    }
  }

  // From `u`, having started the tasks x to y - 1 unread, with the others still to read.
  ghost predicate Missed(c: Config, u: State, source: Source, x: nat, y: nat, e: nat) {
    forall key: bool :: Open(key) ==> exists w, q :: Gets(c, u, w, q, e, From(x, y)) && AllOpen(q, source, y, e)
  }

  lemma MissesNone(c: Config, u: State, source: Source, max: nat, e: nat)
    requires AllOpen(u, source, max, e)
    ensures Missed(c, u, source, max, max, e)
  {
    assert Leads(c, u, Here, u);
    assert From(max, max) == {};
    assert Gets(c, u, Here, u, e, From(max, max));
  }

  lemma PassedIsMissed(c: Config, u: State, source: Source, x: nat, y: nat, e: nat)
    requires Passed(c, u, source, x, y, e)
    ensures Missed(c, u, source, x, y, e)
  {
    var w, q := WhoPassed(c, u, source, x, y, e);
    GoingIsOpen(c, q, source, y, e);
  }

  lemma MissesThem(c: Config, u: State, source: Source, x: nat, y: nat, e: nat)
    requires Going(c, u, source, x, e) && x <= y <= e
    ensures Missed(c, u, source, x, y, e)
  {
    PassesSome(c, u, source, x, y, e);
    PassedIsMissed(c, u, source, x, y, e);
  }

  // The tasks from the concurrency up to y, which the call has listed, are started before it reads them.
  lemma MissesSome(c: Config, u: State, source: Source, y: nat, e: nat)
    requires Furnished(c, e + 1) && c.maxConcurrency <= y <= e && (y == c.maxConcurrency || c.maxConcurrency > 0)
    requires Listed(c, u, source, e)
    ensures Missed(c, u, source, c.maxConcurrency, y, e)
  {
    if y == c.maxConcurrency {
      ListedIsOpen(c, u, source, e);
      MissesNone(c, u, source, y, e);
    } else {
      StartsGoing(c, u, source, e);
      MissesThem(c, u, source, c.maxConcurrency, y, e);
    }
  }

  lemma WhoMissed(c: Config, u: State, source: Source, x: nat, y: nat, e: nat) returns (w: Walk, q: State)
    requires Missed(c, u, source, x, y, e)
    ensures Gets(c, u, w, q, e, From(x, y)) && AllOpen(q, source, y, e)
  {
    assert Open(true);
    w, q :| Gets(c, u, w, q, e, From(x, y)) && AllOpen(q, source, y, e);
  }

  lemma RestConflicts(q: State, source: Source, y: nat, e: TaskId)
    requires AllOpen(q, source, y, e) && y <= e
    ensures ConflictsIn(q, e, From(y, e + 1)) == From(y, e)
    ensures Unfinished(q.files, source) == From(0, e + 1)
  {
  }

  // A search that has read all, with its task the last one and only `found` found.
  ghost predicate AtEnd(k: State, source: Source, y: nat, e: TaskId, found: seq<TaskId>) {
    && k.enqueues == map[e := Reading({}, From(y, e))]
    && Elements(found) == From(y, e) && |found| == |From(y, e)|
    && Unfinished(k.files, source) == From(0, e + 1)
  }

  // With nobody else taking a step, the call reads the rest and finds it.
  lemma FindsRest(c: Config, q: State, source: Source, y: nat, e: TaskId)
    returns (w: Walk, k: State, found: seq<TaskId>)
    requires AllOpen(q, source, y, e) && y <= e
    ensures Leads(c, q, w, k) && CallsOnly(w) && AtEnd(k, source, y, e, found)
  {
    assert Leads(c, q, Here, q);
    w, k := ReadsAll(c, q, Here, q, e);
    RestConflicts(q, source, y, e);
    found := AsSeq(From(y, e));
    ReadIsAtEnd(q, k, source, y, e, found);
  }

  lemma ReadIsAtEnd(q: State, k: State, source: Source, y: nat, e: TaskId, found: seq<TaskId>)
    requires AllOpen(q, source, y, e) && Unfinished(q.files, source) == From(0, e + 1)
    requires k == At(q, e, Reading({}, {} + From(y, e)))
    requires (set x | x in found) == From(y, e) && |found| == |From(y, e)|
    ensures AtEnd(k, source, y, e, found)
  {
    assert Elements(found) == From(y, e);
    assert {} + From(y, e) == From(y, e);
  }

  lemma GetsThenCalls(c: Config, s: State, v: Walk, m: State, w: Walk, u: State, e: TaskId, missed: set<TaskId>)
    returns (r: Walk)
    requires Gets(c, s, v, m, e, missed) && Leads(c, m, w, u) && CallsOnly(w)
    ensures Gets(c, s, r, u, e, missed)
  {
    CallsGetNothing(c, m, w, u, e);
    assert missed + {} == missed;
    r := Both(c, s, v, m, w, u, e, missed, {});
  }

  lemma CallsGetNothing(c: Config, m: State, w: Walk, u: State, e: TaskId)
    requires Leads(c, m, w, u) && CallsOnly(w)
    ensures Gets(c, m, w, u, e, {})
  {
    CallsDoNotInsert(w);
    CallsAreQuiet(w);
    QuietStartsNothing(m, w, e);
  }

  // The search as a whole.
  lemma SearchEnds(c: Config, u: State, source: Source, x: nat, y: nat, e: nat)
    returns (w: Walk, k: State, found: seq<TaskId>)
    requires Missed(c, u, source, x, y, e) && y <= e
    ensures Gets(c, u, w, k, e, From(x, y)) && AtEnd(k, source, y, e, found)
  {
    var v, q := WhoMissed(c, u, source, x, y, e);
    w, k, found := FindsRest(c, q, source, y, e);
    w := GetsThenCalls(c, u, v, q, w, k, e, From(x, y));
  }

  lemma MayEnd(k: State, source: Source, y: nat, e: TaskId, found: seq<TaskId>)
    requires AtEnd(k, source, y, e, found)
    ensures EnqueueEnabled(k, e, Found(found))
    ensures var m := EnqueueStep(k, e, Found(found));
            m.enqueues == map[e := Superseding(found)] && m.files == k.files
  {
    assert (set x | x in found) == Elements(found);
  }

  // Every supersede fails.
  lemma FailsAll(c: Config, k: State, source: Source, y: nat, e: TaskId, found: seq<TaskId>)
    returns (r: Walk, u: State)
    requires AtEnd(k, source, y, e, found)
    ensures EnqueueEnabled(k, e, Found(found))
    ensures Leads(c, EnqueueStep(k, e, Found(found)), r, u) && NoInserts(r) && u.files == k.files
  {
    MayEnd(k, source, y, e, found);
    r, u := FailsFrom(c, EnqueueStep(k, e, Found(found)), e, found);
  }

  lemma FailsFrom(c: Config, m: State, e: TaskId, found: seq<TaskId>) returns (r: Walk, u: State)
    requires m.enqueues == map[e := Superseding(found)]
    ensures Leads(c, m, r, u) && NoInserts(r) && u.files == m.files
  {
    r := FailAndFinish(c, m, e, found);
    u := m.(enqueues := map[]);
  }

  // From the reading of the directory on.
  lemma SearchAndFail(c: Config, u0: State, source: Source, y: nat, e: nat)
    returns (w: Walk, q: State, found: seq<TaskId>, r: Walk, u: State)
    requires Furnished(c, e + 1) && c.maxConcurrency <= y <= e && (y == c.maxConcurrency || c.maxConcurrency > 0)
    requires Listed(c, u0, source, e)
    ensures Leads(c, u0, w, q) && NoInserts(w) && EnqueueEnabled(q, e, Found(found))
    ensures Leads(c, EnqueueStep(q, e, Found(found)), r, u) && NoInserts(r)
    ensures StartedUnreadOn(u0, w, e) == From(c.maxConcurrency, y) && Elements(found) == From(y, e)
    ensures Unfinished(u.files, source) == From(0, e + 1)
  {
    MissesSome(c, u0, source, y, e);
    w, q, found := SearchEnds(c, u0, source, c.maxConcurrency, y, e);
    Parts(c, u0, w, q, e, From(c.maxConcurrency, y));
    r, u := FailsAll(c, q, source, y, e, found);
  }

  lemma {:induction false} FromCount(x: nat, y: nat)
    requires x <= y
    ensures |From(x, y)| == y - x
    decreases y
  {
    if x < y {
      FromCount(x, y - 1);
      assert From(x, y) == From(x, y - 1) + {(y - 1) as nat};
    } else {
      assert From(x, y) == {};
    }
  }

  lemma CountsAdd(open: set<TaskId>, some: set<TaskId>, missed: set<TaskId>, max: nat, n: nat, m: nat)
    requires open == From(0, max + n + m + 1) && some == From(max + n, max + n + m) && missed == From(max, max + n)
    ensures |open * some| == m && |open * missed| == n && |open| == max + 1 + m + n
  {
    FromCount(0, max + n + m + 1);
    CountWithin(open, some, max + n, max + n + m, max + n + m + 1);
    CountWithin(open, missed, max, max + n, max + n + m + 1);
  }

  lemma CountWithin(all: set<TaskId>, some: set<TaskId>, x: nat, y: nat, z: nat)
    requires x <= y <= z && all == From(0, z) && some == From(x, y)
    ensures |all * some| == y - x
  {
    FromCount(x, y);
    assert all * some == some;
  }

  lemma SearchCounts(c: Config, u0: State, source: Source, m: nat, n: nat, e: nat)
    returns (w: Walk, q: State, found: seq<TaskId>, r: Walk, u: State)
    requires Furnished(c, e + 1) && e == c.maxConcurrency + n + m && (n == 0 || c.maxConcurrency > 0)
    requires Listed(c, u0, source, e)
    ensures Leads(c, u0, w, q) && NoInserts(w) && EnqueueEnabled(q, e, Found(found))
    ensures Leads(c, EnqueueStep(q, e, Found(found)), r, u) && NoInserts(r)
    ensures var open, missed := Unfinished(u.files, source), StartedUnreadOn(u0, w, e);
            |open * Elements(found)| == m && |open * missed| == n && |open| == c.maxConcurrency + 1 + m + n
  {
    w, q, found, r, u := SearchAndFail(c, u0, source, c.maxConcurrency + n, e);
    CountsAdd(Unfinished(u.files, source), Elements(found), StartedUnreadOn(u0, w, e), c.maxConcurrency, n, m);
  }

  // The bound is reached: whatever the concurrency, the number m of conflicts found and not superseded
  // and the number n of tasks missed, there is a walk from the start on which a call reads the directory
  // (at `s`), finds m (at `q`), misses n in between, and ends with all of them unfinished. Nothing is
  // inserted after the reading of the directory. (With no concurrency no task is ever started.)
  lemma BoundIsReached(c: Config, source: Source, s0: State, m: nat, n: nat)
    returns (v: Walk, s: State, e: TaskId, w: Walk, q: State, found: seq<TaskId>, r: Walk, u: State)
    requires Init(s0) && Furnished(c, c.maxConcurrency + n + m + 1) && (n == 0 || c.maxConcurrency > 0)
    ensures Leads(c, s0, v, s) && EnqueueEnabled(s, e, ReadQueue) && e in s.born && s.born[e].source == source
    ensures Leads(c, EnqueueStep(s, e, ReadQueue), w, q) && NoInserts(w) && EnqueueEnabled(q, e, Found(found))
    ensures Leads(c, EnqueueStep(q, e, Found(found)), r, u) && NoInserts(r)
    ensures var open := Unfinished(u.files, source);
            var missed := StartedUnreadOn(EnqueueStep(s, e, ReadQueue), w, e);
            && |open * Elements(found)| == m && |open * missed| == n
            && |open| == c.maxConcurrency + 1 + m + n
  {
    e := c.maxConcurrency + n + m;
    v, s := ListedOver(c, source, s0, e);
    w, q, found, r, u := SearchCounts(c, EnqueueStep(s, e, ReadQueue), source, m, n, e);
  }
}
