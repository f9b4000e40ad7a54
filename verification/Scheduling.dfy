/**
 The greedy scheduler: which queued tasks a tick may start, given the free slots, the paused
 tools and the tools already in flight.
 */
module Scheduling {
  import opened Domain

  // Tools every task depends on without declaring them.
  const GLOBAL_TOOLS: set<Tool> := {GitHub}

  function WithStatus(tasks: seq<Task>, st: Status): (r: seq<Task>)
    ensures forall t :: t in r <==> t in tasks && t.status == st
  {
    if tasks == [] then []
    else (if tasks[0].status == st then [tasks[0]] else []) + WithStatus(tasks[1..], st)
  }

  // Every tool some task in `tasks` declares.
  ghost predicate Claims(uses: Uses, tasks: seq<Task>, tools: set<Tool>) {
    && (forall t :: t in tasks ==> ToolsFor(uses, t) <= tools)
    && (forall x :: x in tools ==> exists t :: t in tasks && x in ToolsFor(uses, t))
  }

  function Claimed(uses: Uses, tasks: seq<Task>): (r: set<Tool>)
    ensures Claims(uses, tasks, r)
  {
    if tasks == [] then {}
    else Claimed(uses, tasks[..|tasks| - 1]) + ToolsFor(uses, tasks[|tasks| - 1])
  }

  datatype Budget = Budget(uses: Uses, slots: int, paused: set<Tool>, busy: set<Tool>)

  function BudgetFor(tasks: seq<Task>, maxConcurrency: int, paused: set<Tool>, uses: Uses): Budget {
    var running := WithStatus(tasks, Running);
    Budget(uses, maxConcurrency - |running|, paused, Claimed(uses, running))
  }

  // May the task at position `i` run beside the tasks at the positions in `others`?
  predicate Fits(b: Budget, queue: seq<Task>, others: set<nat>, i: nat)
    requires i < |queue| && forall j :: j in others ==> j < |queue|
  {
    && |others| < b.slots
    && ToolsFor(b.uses, queue[i]) !! b.paused
    && ToolsFor(b.uses, queue[i]) !! b.busy
    && forall j :: j in others ==> ToolsFor(b.uses, queue[i]) !! ToolsFor(b.uses, queue[j])
  }

  // The positions taken among the first `n` queued tasks, each decided once and never revised.
  function Chosen(b: Budget, queue: seq<Task>, n: nat): (r: set<nat>)
    requires n <= |queue|
    ensures forall i :: i in r ==> i < n
  {
    if n == 0 then {}
    else
      var before := Chosen(b, queue, n - 1);
      if Fits(b, queue, before, n - 1) then before + {n - 1} else before
  }

  // The first `n` tasks of `queue` whose position is in `chosen`, in queue order.
  function Pick(queue: seq<Task>, chosen: set<nat>, n: nat): (r: seq<Task>)
    requires n <= |queue|
  {
    if n == 0 then []
    else Pick(queue, chosen, n - 1) + (if n - 1 in chosen then [queue[n - 1]] else [])
  }

  // The greedy choice among the first `n` queued tasks.
  function Taken(b: Budget, queue: seq<Task>, n: nat): seq<Task>
    requires n <= |queue|
  {
    Pick(queue, Chosen(b, queue, n), n)
  }

  // The tasks a tick starts, given what its listing shows.
  function Selection(tasks: seq<Task>, maxConcurrency: int, paused: set<Tool>, uses: Uses): seq<Task> {
    if paused !! GLOBAL_TOOLS then
      var queue := WithStatus(tasks, Queued);
      Taken(BudgetFor(tasks, maxConcurrency, paused, uses), queue, |queue|)
    else []
  }

  function Ids(tasks: seq<Task>): (r: seq<TaskId>)
    ensures |r| == |tasks| && forall i :: 0 <= i < |r| ==> r[i] == tasks[i].id
  {
    seq(|tasks|, i requires 0 <= i < |tasks| => tasks[i].id)
  }

  /* What "greedy" means, without saying how it is computed: a position is chosen exactly when it
     fits beside the chosen positions before it. */

  ghost function Below(chosen: set<nat>, i: nat): set<nat> {
    set j | j in chosen && j < i
  }

  ghost predicate Greedy(b: Budget, queue: seq<Task>, chosen: set<nat>) {
    && (forall i :: i in chosen ==> i < |queue|)
    && forall i :: 0 <= i < |queue| ==> (i in chosen <==> Fits(b, queue, Below(chosen, i), i))
  }

  lemma {:induction false} ChosenBelow(b: Budget, queue: seq<Task>, i: nat, n: nat)
    requires i <= n <= |queue|
    ensures Below(Chosen(b, queue, n), i) == Chosen(b, queue, i)
    decreases n
  {
    if i < n {
      ChosenBelow(b, queue, i, n - 1);
      assert Below(Chosen(b, queue, n), i) == Below(Chosen(b, queue, n - 1), i);
    } else {
      assert Below(Chosen(b, queue, n), n) == Chosen(b, queue, n);
    }
  }

  lemma ChosenIsGreedy(b: Budget, queue: seq<Task>)
    ensures Greedy(b, queue, Chosen(b, queue, |queue|))
  {
    var chosen := Chosen(b, queue, |queue|);
    forall i | 0 <= i < |queue| ensures i in chosen <==> Fits(b, queue, Below(chosen, i), i) {
      ChosenBelow(b, queue, i, |queue|);
      ChosenBelow(b, queue, i + 1, |queue|);
      assert i in chosen <==> i in Below(chosen, i + 1);
    }
  }

  lemma BelowStep(chosen: set<nat>, i: nat)
    ensures Below(chosen, i + 1) == Below(chosen, i) + (if i in chosen then {i} else {})
  {
  }

  lemma GreedyAt(b: Budget, queue: seq<Task>, chosen: set<nat>, i: nat)
    requires Greedy(b, queue, chosen) && i < |queue|
    ensures i in chosen <==> Fits(b, queue, Below(chosen, i), i)
  {
  }

  // The description leaves no freedom: two greedy choices are the same choice.
  lemma {:induction false} GreedyBelowUnique(b: Budget, queue: seq<Task>, one: set<nat>, two: set<nat>, n: nat)
    requires Greedy(b, queue, one) && Greedy(b, queue, two) && n <= |queue|
    ensures Below(one, n) == Below(two, n)
  {
    if n > 0 {
      GreedyBelowUnique(b, queue, one, two, n - 1);
      GreedyAt(b, queue, one, n - 1);
      GreedyAt(b, queue, two, n - 1);
      BelowStep(one, n - 1);
      BelowStep(two, n - 1);
    }
  }

  lemma GreedyIsUnique(b: Budget, queue: seq<Task>, one: set<nat>, two: set<nat>)
    requires Greedy(b, queue, one) && Greedy(b, queue, two)
    ensures one == two
  {
    GreedyBelowUnique(b, queue, one, two, |queue|);
    assert one == Below(one, |queue|) && two == Below(two, |queue|);
  }

  // The selection is the greedy one and no other; a paused global tool holds every task back.
  lemma SelectionIsGreedy(tasks: seq<Task>, maxConcurrency: int, paused: set<Tool>, uses: Uses, chosen: set<nat>)
    ensures GitHub in paused ==> Selection(tasks, maxConcurrency, paused, uses) == []
    ensures var queue := WithStatus(tasks, Queued);
            GitHub !in paused && Greedy(BudgetFor(tasks, maxConcurrency, paused, uses), queue, chosen)
            ==> Selection(tasks, maxConcurrency, paused, uses) == Pick(queue, chosen, |queue|)
  {
    assert GitHub in GLOBAL_TOOLS;
    var queue := WithStatus(tasks, Queued);
    var b := BudgetFor(tasks, maxConcurrency, paused, uses);
    ChosenIsGreedy(b, queue);
    if Greedy(b, queue, chosen) {
      GreedyIsUnique(b, queue, chosen, Chosen(b, queue, |queue|));
    }
  }

  lemma {:induction false} PickMember(queue: seq<Task>, chosen: set<nat>, n: nat, t: Task) returns (i: nat)
    requires n <= |queue| && t in Pick(queue, chosen, n)
    ensures i < n && i in chosen && queue[i] == t
  {
    if n - 1 in chosen && queue[n - 1] == t {
      i := n - 1;
    } else {
      i := PickMember(queue, chosen, n - 1, t);
    }
  }

  lemma CardMonotone<T>(a: set<T>, b: set<T>)
    requires a <= b
    ensures |a| <= |b|
  {
    assert b == a + (b - a);
  }

  // First come, first served within a tool set: a chosen task never overtakes an earlier queued task
  // whose tools are among its own.
  lemma NoOvertaking(b: Budget, queue: seq<Task>, chosen: set<nat>, i: nat, k: nat)
    requires Greedy(b, queue, chosen) && i < k < |queue| && k in chosen
    requires ToolsFor(b.uses, queue[i]) <= ToolsFor(b.uses, queue[k])
    ensures i in chosen
  {
    CardMonotone(Below(chosen, i), Below(chosen, k));
    assert Fits(b, queue, Below(chosen, k), k);
    forall j | j in Below(chosen, i) ensures ToolsFor(b.uses, queue[i]) !! ToolsFor(b.uses, queue[j]) {
      assert j in Below(chosen, k);
    }
    assert Fits(b, queue, Below(chosen, i), i);
  }

  lemma {:induction false} PickStable(queue: seq<Task>, one: set<nat>, two: set<nat>, n: nat)
    requires n <= |queue| && forall i :: 0 <= i < n ==> (i in one <==> i in two)
    ensures Pick(queue, one, n) == Pick(queue, two, n)
  {
    if n > 0 {
      PickStable(queue, one, two, n - 1);
    }
  }

  // One more queued task: it is appended if it fits, and nothing before it is revised.
  lemma TakenStep(b: Budget, queue: seq<Task>, i: nat)
    requires i < |queue|
    ensures Taken(b, queue, i + 1) ==
            Taken(b, queue, i) + (if Fits(b, queue, Chosen(b, queue, i), i) then [queue[i]] else [])
    ensures Chosen(b, queue, i + 1) ==
            Chosen(b, queue, i) + (if Fits(b, queue, Chosen(b, queue, i), i) then {i} else {})
  {
    PickStable(queue, Chosen(b, queue, i), Chosen(b, queue, i + 1), i);
  }

  lemma {:induction false} TakenSize(b: Budget, queue: seq<Task>, n: nat)
    requires n <= |queue|
    ensures |Taken(b, queue, n)| == |Chosen(b, queue, n)|
    ensures |Chosen(b, queue, n)| <= if b.slots < 0 then 0 else b.slots
  {
    if n > 0 {
      TakenSize(b, queue, n - 1);
      TakenStep(b, queue, n - 1);
      if Fits(b, queue, Chosen(b, queue, n - 1), n - 1) {
        assert n - 1 !in Chosen(b, queue, n - 1);
        assert |Chosen(b, queue, n - 1) + {n - 1}| == |Chosen(b, queue, n - 1)| + 1;
      }
    }
  }

  lemma FitsTaken(b: Budget, queue: seq<Task>, i: nat)
    requires i < |queue| && Fits(b, queue, Chosen(b, queue, i), i)
    ensures forall t :: t in Taken(b, queue, i) ==> ToolsFor(b.uses, t) !! ToolsFor(b.uses, queue[i])
  {
    forall t | t in Taken(b, queue, i) ensures ToolsFor(b.uses, t) !! ToolsFor(b.uses, queue[i]) {
      var j := PickMember(queue, Chosen(b, queue, i), i, t);
    }
  }

  ghost predicate ShareNoTool(uses: Uses, tasks: seq<Task>) {
    forall k, m :: 0 <= k < m < |tasks| ==> ToolsFor(uses, tasks[k]) !! ToolsFor(uses, tasks[m])
  }

  lemma ShareNoToolAppend(uses: Uses, tasks: seq<Task>, t: Task)
    requires ShareNoTool(uses, tasks) && forall u :: u in tasks ==> ToolsFor(uses, u) !! ToolsFor(uses, t)
    ensures ShareNoTool(uses, tasks + [t])
  {
  }

  lemma {:induction false} TakenShareNoTool(b: Budget, queue: seq<Task>, n: nat)
    requires n <= |queue|
    ensures ShareNoTool(b.uses, Taken(b, queue, n))
  {
    if n > 0 {
      TakenShareNoTool(b, queue, n - 1);
      TakenStep(b, queue, n - 1);
      if Fits(b, queue, Chosen(b, queue, n - 1), n - 1) {
        FitsTaken(b, queue, n - 1);
        ShareNoToolAppend(b.uses, Taken(b, queue, n - 1), queue[n - 1]);
      }
    }
  }

  // No two selected tasks share a tool, and none uses a paused tool or a tool of a task the listing
  // shows running; with the running ones they fill at most the budget.
  lemma SelectionExclusive(tasks: seq<Task>, maxConcurrency: int, paused: set<Tool>, uses: Uses)
    ensures var r := Selection(tasks, maxConcurrency, paused, uses);
            && (r != [] ==> |r| + |WithStatus(tasks, Running)| <= maxConcurrency)
            && (forall t :: t in r ==> t in tasks && t.status == Queued && ToolsFor(uses, t) !! paused)
            && (forall t, u :: t in r && u in tasks && u.status == Running
                  ==> ToolsFor(uses, t) !! ToolsFor(uses, u))
            && ShareNoTool(uses, r)
  {
    if paused !! GLOBAL_TOOLS {
      var queue := WithStatus(tasks, Queued);
      var b := BudgetFor(tasks, maxConcurrency, paused, uses);
      var chosen := Chosen(b, queue, |queue|);
      ChosenIsGreedy(b, queue);
      TakenSize(b, queue, |queue|);
      TakenShareNoTool(b, queue, |queue|);
      var r := Taken(b, queue, |queue|);
      forall t | t in r
        ensures t in queue && ToolsFor(uses, t) !! paused && ToolsFor(uses, t) !! b.busy
      {
        var i := PickMember(queue, chosen, |queue|, t);
        assert Fits(b, queue, Below(chosen, i), i);
      }
      forall u | u in tasks && u.status == Running ensures ToolsFor(uses, u) <= b.busy {
        assert u in WithStatus(tasks, Running);
      }
    }
  }

  lemma ChosenFull(b: Budget, queue: seq<Task>, i: nat, n: nat)
    requires i <= n <= |queue| && |Chosen(b, queue, i)| >= b.slots
    ensures Chosen(b, queue, n) == Chosen(b, queue, i)
    ensures Taken(b, queue, n) == Taken(b, queue, i)
  {
    if i < n {
      ChosenFull(b, queue, i, n - 1);
    }
  }

  // Adds the tools of one task to the set in flight.
  method AddTools(inFlight: set<Tool>, tools: seq<Tool>) returns (r: set<Tool>)
    ensures r == inFlight + ToolSet(tools)
  {
    r := inFlight;
    for i := 0 to |tools|
      invariant r == inFlight + ToolSet(tools[..i])
    {
      assert tools[..i + 1] == tools[..i] + [tools[i]];
      r := r + {tools[i]};
    }
    assert tools[..|tools|] == tools;
  }

  method ToolsInFlight(running: seq<Task>, uses: Uses) returns (inFlight: set<Tool>)
    ensures inFlight == Claimed(uses, running)
  {
    inFlight := {};
    for i := 0 to |running|
      invariant inFlight == Claimed(uses, running[..i])
    {
      assert running[..i + 1][..i] == running[..i];
      inFlight := AddTools(inFlight, Declared(uses, running[i].instruction));
    }
    assert running[..|running|] == running;
  }

  // `inFlight` is the budget's busy tools plus those of the chosen positions.
  ghost predicate Tracks(b: Budget, queue: seq<Task>, chosen: set<nat>, inFlight: set<Tool>)
    requires forall j :: j in chosen ==> j < |queue|
  {
    && b.busy <= inFlight
    && (forall j :: j in chosen ==> ToolsFor(b.uses, queue[j]) <= inFlight)
    && forall x :: x in inFlight ==> x in b.busy || exists j :: j in chosen && x in ToolsFor(b.uses, queue[j])
  }

  lemma TracksFits(b: Budget, queue: seq<Task>, chosen: set<nat>, inFlight: set<Tool>, i: nat)
    requires i < |queue| && forall j :: j in chosen ==> j < |queue|
    requires Tracks(b, queue, chosen, inFlight) && |chosen| < b.slots
    ensures Fits(b, queue, chosen, i) <==>
            ToolsFor(b.uses, queue[i]) !! b.paused && ToolsFor(b.uses, queue[i]) !! inFlight
  {
  }

  lemma TracksAdd(b: Budget, queue: seq<Task>, chosen: set<nat>, inFlight: set<Tool>, i: nat)
    requires i < |queue| && forall j :: j in chosen ==> j < |queue|
    requires Tracks(b, queue, chosen, inFlight)
    ensures Tracks(b, queue, chosen + {i}, inFlight + ToolsFor(b.uses, queue[i]))
  {
    assert i in chosen + {i};
    forall x | x in inFlight + ToolsFor(b.uses, queue[i])
      ensures x in b.busy || exists j :: j in chosen + {i} && x in ToolsFor(b.uses, queue[j])
    {
      if x in inFlight && x !in b.busy {
        var j :| j in chosen && x in ToolsFor(b.uses, queue[j]);
        assert j in chosen + {i};
      }
    }
  }

  // What one turn of the selection loop has to do.
  lemma OneTurn(b: Budget, queue: seq<Task>, i: nat, inFlight: set<Tool>)
    requires i < |queue| && Tracks(b, queue, Chosen(b, queue, i), inFlight)
    requires |Ids(Taken(b, queue, i))| < b.slots
    ensures var was := Ids(Taken(b, queue, i));
            var now := Ids(Taken(b, queue, i + 1));
            var mine := ToolsFor(b.uses, queue[i]);
            if mine !! b.paused && mine !! inFlight
            then now == was + [queue[i].id] && Tracks(b, queue, Chosen(b, queue, i + 1), inFlight + mine)
            else now == was && Tracks(b, queue, Chosen(b, queue, i + 1), inFlight)
  {
    TakenSize(b, queue, i);
    TakenStep(b, queue, i);
    TracksFits(b, queue, Chosen(b, queue, i), inFlight, i);
    TracksAdd(b, queue, Chosen(b, queue, i), inFlight, i);
  }

  // The selection loop over the queue, with its early exit once the slots are used up.
  method SelectFrom(queue: seq<Task>, slots: int, paused: set<Tool>, busy: set<Tool>, uses: Uses)
    returns (selected: seq<TaskId>)
    ensures selected == Ids(Taken(Budget(uses, slots, paused, busy), queue, |queue|))
  {
    ghost var b := Budget(uses, slots, paused, busy);
    var inFlight := busy;
    selected := [];
    for i := 0 to |queue|
      invariant selected == Ids(Taken(b, queue, i))
      invariant Tracks(b, queue, Chosen(b, queue, i), inFlight)
    {
      if |selected| >= slots {
        TakenSize(b, queue, i);
        ChosenFull(b, queue, i, |queue|);
        return;
      }
      OneTurn(b, queue, i, inFlight);
      var taskTools := Declared(uses, queue[i].instruction);
      if exists t :: t in taskTools && t in paused {
        continue;
      }
      if exists t :: t in taskTools && t in inFlight {
        continue;
      }
      selected := selected + [queue[i].id];
      inFlight := AddTools(inFlight, taskTools);
    }
  }

  // The scheduling rule as the program runs it.
  method SelectNextTasks(tasks: seq<Task>, maxConcurrency: int, paused: set<Tool>, uses: Uses)
    returns (selected: seq<TaskId>)
    ensures selected == Ids(Selection(tasks, maxConcurrency, paused, uses))
  {
    if exists t :: t in GLOBAL_TOOLS && t in paused {
      return [];
    }
    var running := WithStatus(tasks, Running);
    var slots := maxConcurrency - |running|;
    if slots <= 0 {
      ghost var queue := WithStatus(tasks, Queued);
      ChosenFull(BudgetFor(tasks, maxConcurrency, paused, uses), queue, 0, |queue|);
      return [];
    }
    var inFlight := ToolsInFlight(running, uses);
    selected := SelectFrom(WithStatus(tasks, Queued), slots, paused, inFlight, uses);
  }
}
