/**
 Rate-limit pauses hold: once a run has written a pause for a tool its running task declares, no
 task declaring the tool starts before the pause is over, not even by a tick that had already read
 the pauses. The three guards that make this true are the order "pause, then requeue", the order
 "list the tasks, then read the pauses", and the rule that a tool in flight is not shared.
 */
module Pauses {
  import opened Domain
  import opened Store
  import opened Scheduling
  import opened Protocol
  import opened Shape
  import opened Exclusion

  ghost predicate ShownUsing(c: Config, listed: seq<Task>, tool: Tool) {
    exists t :: t in listed && t.status == Running && tool in ToolsFor(c.uses, t)
  }

  predicate Reaches(pauses: map<Tool, int>, tool: Tool, until: int) {
    tool in pauses && pauses[tool] >= until
  }

  // A tick past reading the pauses is bound by the pause some other way.
  ghost predicate TickBound(c: Config, pc: MainPc, born: map<TaskId, Birth>, clock: int, tool: Tool, until: int) {
    && (pc.Selecting? ==> Reaches(pc.seen, tool, until) || ShownUsing(c, pc.listed, tool))
    && (pc.Starting? && clock < until ==> forall id :: id in pc.pending ==> tool !in ToolsOf(c, born, id))
  }

  ghost predicate InForce(c: Config, s: State, tool: Tool, until: int) {
    Reaches(s.pauses, tool, until) && TickBound(c, s.main, s.born, s.clock, tool, until)
  }

  lemma ReachesStep(c: Config, s: State, l: Label, s': State, tool: Tool, until: int)
    requires Next(c, s, l, s') && l != AdminClear(tool) && Reaches(s.pauses, tool, until)
    ensures Reaches(s'.pauses, tool, until)
  {
  }

  // Selecting with the pause seen, or with a user of the tool on the list, selects no user of the tool.
  lemma SelectRespects(c: Config, s: State, tool: Tool, until: int)
    requires Inv(c, s) && s.main.Selecting? && s.clock < until
    requires Reaches(s.main.seen, tool, until) || ShownUsing(c, s.main.listed, tool)
    ensures forall id :: id in MainAfter(c, s, Select).pending ==> tool !in ToolsOf(c, s.born, id)
  {
    var listed, paused := s.main.listed, ActivePauses(s.main.seen, s.clock);
    var sel := Selection(listed, c.maxConcurrency, paused, c.uses);
    SelectionExclusive(listed, c.maxConcurrency, paused, c.uses);
    forall id | id in Ids(sel) ensures tool !in ToolsOf(c, s.born, id) {
      var t := MemberOf(sel, id);
      assert Known(s.born, t);
      if ShownUsing(c, listed, tool) {
        var u :| u in listed && u.status == Running && tool in ToolsFor(c.uses, u);
      } else {
        assert tool in paused;
      }
    }
  }

  lemma MainBound(c: Config, s: State, a: MainAct, tool: Tool, until: int)
    requires c.hasPauseStore && Inv(c, s) && MainEnabled(s, a) && InForce(c, s, tool, until)
    ensures TickBound(c, MainAfter(c, s, a), s.born, s.clock, tool, until)
  {
    if a.Select? {
      if s.clock < until { SelectRespects(c, s, tool, until); }
    } else if a.StartNext? && Starts(c, s, a) {
      assert forall id :: id in s.main.pending[1..] ==> id in s.main.pending;
    }
  }

  lemma QuietBound(c: Config, s: State, l: Label, s': State, tool: Tool, until: int)
    requires Exclusive(c, s.born, Claimants(s.files, s.main)) && Next(c, s, l, s') && !l.Main?
    requires TickBound(c, s.main, s.born, s.clock, tool, until)
    ensures TickBound(c, s'.main, s'.born, s'.clock, tool, until)
  {
    if !l.Crash? {
      forall id | id in Pending(s.main) ensures ToolsOf(c, s'.born, id) == ToolsOf(c, s.born, id) {
        assert id in Claimants(s.files, s.main);
      }
    }
  }

  lemma InForceStep(c: Config, s: State, l: Label, s': State, tool: Tool, until: int)
    requires c.hasPauseStore && Inv(c, s) && Next(c, s, l, s') && l != AdminClear(tool)
    requires InForce(c, s, tool, until)
    ensures InForce(c, s', tool, until)
  {
    ReachesStep(c, s, l, s', tool, until);
    if l.Main? { MainBound(c, s, l.act, tool, until); } else { QuietBound(c, s, l, s', tool, until); }
  }

  lemma {:induction false} InForceAlong(c: Config, t: Trace, i: nat, j: nat, tool: Tool, until: int)
    requires c.hasPauseStore && Behavior(c, t) && i <= j < |t.states|
    requires InForce(c, t.states[i], tool, until)
    requires forall k :: i <= k < j ==> t.labels[k] != AdminClear(tool)
    ensures InForce(c, t.states[j], tool, until)
  {
    if i < j {
      InForceAlong(c, t, i, j - 1, tool, until);
      InvAlong(c, t, j - 1);
      InForceStep(c, t.states[j - 1], t.labels[j - 1], t.states[j], tool, until);
    }
  }

  // A tool that a task in flight declares is not wanted by anything a tick is about to do.
  lemma FlightBinds(c: Config, s: State, id: TaskId, tool: Tool, until: int)
    requires Guarded(c, s.files, s.born, s.main) && ListedKnown(s.born, Listed(s.main))
    requires id in InFlight(s.files) && tool in ToolsOf(c, s.born, id)
    ensures TickBound(c, s.main, s.born, s.clock, tool, until)
  {
    if s.main.Selecting? {
      assert !StillAhead(s.main, id, s.files[id].dir) && ShownRunning(s.main.listed, id);
      var t :| t in s.main.listed && t.id == id && t.status == Running;
      assert Known(s.born, t);
    } else if s.main.Starting? {
      forall k | k in s.main.pending ensures tool !in ToolsOf(c, s.born, k) {
        assert k in Claimants(s.files, s.main) && id in Claimants(s.files, s.main) && k != id;
      }
    }
  }

  // A run writes the pause of `tool` until `until` while its task, which declares the tool, says "running".
  ghost predicate PausesOwnTool(c: Config, s: State, l: Label, tool: Tool, until: int) {
    && l.OfRun? && l.runAct == PauseNext(true) && l.run in s.runs
    && var run := s.runs[l.run];
    && run.pc.Pausing? && run.pc.tools != [] && run.pc.tools[0] == tool && run.pc.until == until
    && run.task in InFlight(s.files)
    && tool in ToolsFor(c.uses, s.files[run.task].task)
  }

  // The step starts a task that declares `tool`.
  ghost predicate StartsUserOf(c: Config, s: State, l: Label, tool: Tool) {
    && l == Main(StartNext) && Starts(c, s, StartNext)
    && tool in ToolsFor(c.uses, s.files[s.main.pending[0]].task)
  }

  lemma ToolsKnown(c: Config, s: State, id: TaskId)
    requires SlotsOk(s.files, s.born, s.clock) && id in s.files
    ensures ToolsFor(c.uses, s.files[id].task) == ToolsOf(c, s.born, id)
  {
    assert SlotOk(s.files[id], id, s.born, s.clock);
  }

  // Writing the pause puts it in force at once.
  lemma PauseTakesForce(c: Config, s: State, l: Label, s': State, tool: Tool, until: int)
    requires Inv(c, s) && Next(c, s, l, s') && PausesOwnTool(c, s, l, tool, until)
    ensures InForce(c, s', tool, until)
  {
    var id := s.runs[l.run].task;
    ToolsKnown(c, s, id);
    FlightBinds(c, s, id, tool, until);
    PauseWritten(c, s, l.run, tool, until);
  }

  lemma PauseWritten(c: Config, s: State, r: RunId, tool: Tool, until: int)
    requires RunEnabled(s, r, PauseNext(true)) && s.runs[r].pc.tools[0] == tool && s.runs[r].pc.until == until
    ensures var u := RunStep(c, s, r, PauseNext(true));
            Reaches(u.pauses, tool, until) && u.main == s.main && u.born == s.born && u.clock == s.clock
  {
  }

  lemma StartRespects(c: Config, s: State, l: Label, tool: Tool, until: int)
    requires SlotsOk(s.files, s.born, s.clock) && InForce(c, s, tool, until) && StartsUserOf(c, s, l, tool)
    ensures s.clock >= until
  {
    ToolsKnown(c, s, s.main.pending[0]);
    assert s.main.pending[0] in s.main.pending;
  }

  // The pause theorem.
  lemma PauseHolds(c: Config, t: Trace, i: nat, j: nat, tool: Tool, until: int)
    requires c.hasPauseStore && Behavior(c, t) && i < j < |t.labels|
    requires PausesOwnTool(c, t.states[i], t.labels[i], tool, until)
    requires forall k :: i < k < j ==> t.labels[k] != AdminClear(tool)
    requires StartsUserOf(c, t.states[j], t.labels[j], tool)
    ensures t.states[j].clock >= until
  {
    InvAlong(c, t, i);
    PauseTakesForce(c, t.states[i], t.labels[i], t.states[i + 1], tool, until);
    InForceAlong(c, t, i + 1, j, tool, until);
    InvAlong(c, t, j);
    StartRespects(c, t.states[j], t.labels[j], tool, until);
  }

  /* ---- The global pause on "github" ---- */

  predicate WritesGithubPause(l: Label, until: int) {
    l.OfRun? && (l.runAct == GithubPause(until) || l.runAct == ThrowsGithubLimit(until))
  }

  // What the fetch wrapper wrote stays on disk; the daemon's coarser pause never shortens it.
  lemma {:induction false} GithubPauseKept(c: Config, t: Trace, i: nat, j: nat, until: int)
    requires Path(c, t) && i < j < |t.states| && WritesGithubPause(t.labels[i], until)
    requires forall k :: i < k < j ==> t.labels[k] != AdminClear(GitHub)
    ensures Reaches(t.states[j].pauses, GitHub, until)
  {
    if i + 1 < j {
      GithubPauseKept(c, t, i, j - 1, until);
      ReachesStep(c, t.states[j - 1], t.labels[j - 1], t.states[j], GitHub, until);
    } else {
      assert Next(c, t.states[i], t.labels[i], t.states[i + 1]);
    }
  }

  lemma SeenMain(c: Config, s: State, a: MainAct, until: int)
    requires c.hasPauseStore && MainEnabled(s, a) && Reaches(s.pauses, GitHub, until)
    requires a.ReadPauses? || (s.main.Selecting? ==> Reaches(s.main.seen, GitHub, until))
    ensures MainAfter(c, s, a).Selecting? ==> Reaches(MainAfter(c, s, a).seen, GitHub, until)
  {
  }

  lemma SeenStep(c: Config, s: State, l: Label, s': State, until: int)
    requires c.hasPauseStore && Next(c, s, l, s') && Reaches(s.pauses, GitHub, until)
    requires l == Main(ReadPauses) || (s.main.Selecting? ==> Reaches(s.main.seen, GitHub, until))
    ensures s'.main.Selecting? ==> Reaches(s'.main.seen, GitHub, until)
  {
    if l.Main? {
      SeenMain(c, s, l.act, until);
    } else if !l.Crash? {
      assert s'.main == s.main;
    }
  }

  lemma SeenNext(c: Config, t: Trace, k: nat, until: int)
    requires c.hasPauseStore && Path(c, t) && k < |t.labels| && Reaches(t.states[k].pauses, GitHub, until)
    requires t.labels[k] == Main(ReadPauses)
             || (t.states[k].main.Selecting? ==> Reaches(t.states[k].main.seen, GitHub, until))
    ensures t.states[k + 1].main.Selecting? ==> Reaches(t.states[k + 1].main.seen, GitHub, until)
  {
    assert Next(c, t.states[k], t.labels[k], t.states[k + 1]);
    SeenStep(c, t.states[k], t.labels[k], t.states[k + 1], until);
  }

  lemma {:induction false} SeenKept(c: Config, t: Trace, i: nat, j: nat, k: nat, until: int)
    requires c.hasPauseStore && Path(c, t) && i < j < k < |t.states| && WritesGithubPause(t.labels[i], until)
    requires forall m :: i < m < k ==> t.labels[m] != AdminClear(GitHub)
    requires t.labels[j] == Main(ReadPauses)
    ensures t.states[k].main.Selecting? ==> Reaches(t.states[k].main.seen, GitHub, until)
  {
    if j + 1 < k {
      SeenKept(c, t, i, j, k - 1, until);
    }
    GithubPauseKept(c, t, i, k - 1, until);
    SeenNext(c, t, k - 1, until);
  }

  // Before the pause on "github" is over, every tick that reads the pauses after it selects nothing.
  lemma GithubPauseGroundsAll(c: Config, t: Trace, i: nat, j: nat, k: nat, until: int)
    requires c.hasPauseStore && Path(c, t) && i < j < k < |t.labels| && WritesGithubPause(t.labels[i], until)
    requires forall m :: i < m < k ==> t.labels[m] != AdminClear(GitHub)
    requires t.labels[j] == Main(ReadPauses) && t.labels[k] == Main(Select) && t.states[k].clock < until
    ensures t.states[k + 1].main == Starting([])
  {
    SeenKept(c, t, i, j, k, until);
    var s := t.states[k];
    assert Next(c, s, t.labels[k], t.states[k + 1]);
    assert GitHub in ActivePauses(s.main.seen, s.clock) && GitHub in GLOBAL_TOOLS;
    assert Selection(s.main.listed, c.maxConcurrency, ActivePauses(s.main.seen, s.clock), c.uses) == [];
  }
}
