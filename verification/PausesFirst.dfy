/**
 A rate-limited run pauses every tool it was limited on before its task goes back into queued/. So no
 task that declares such a tool is started before the cooldown is over.
 */
module PausesFirst {
  import opened Domain
  import opened Store
  import opened Scheduling
  import opened Protocol
  import opened Shape
  import opened Exclusion
  import opened Pauses
  import opened Ownership

  // The rate limit a run ends in, by what it is limited on.
  predicate LimitsOn(a: RunAct, tool: Tool) {
    (a.ReturnsRateLimited? && tool in a.tools) || (a.ThrowsGithubLimit? && tool == GitHub)
  }

  // The run has written the pause of the tool, or is still to write it before it requeues its task.
  ghost predicate PauseDue(s: State, r: RunId, tool: Tool, until: int) {
    || Gone(s, r)
    || Reaches(s.pauses, tool, until)
    || (r in s.runs && s.runs[r].pc.Pausing? && s.runs[r].pc.until == until && tool in s.runs[r].pc.tools)
  }

  lemma LimitIsDue(c: Config, s: State, s': State, r: RunId, a: RunAct, tool: Tool)
    requires c.hasPauseStore && LimitsOn(a, tool) && Next(c, s, OfRun(r, a), s')
    ensures PauseDue(s', r, tool, s.clock + c.cooldownMs)
  {
  }

  lemma DueStep(c: Config, s: State, l: Label, s': State, r: RunId, tool: Tool, until: int)
    requires RunsOk(s.runs, s.active, s.nextRun, s.born.Keys) && Next(c, s, l, s') && l != AdminClear(tool)
    requires PauseDue(s, r, tool, until)
    ensures PauseDue(s', r, tool, until)
  {
    if Gone(s, r) {
      GoneStep(c, s, l, s', r);
    } else if Reaches(s.pauses, tool, until) {
      ReachesStep(c, s, l, s', tool, until);
    } else if l.OfRun? && l.run == r {
      DueTurn(c, s, l.runAct, s', r, tool, until);
    } else {
      DueElsewhere(c, s, l, s', r);
    }
  }

  lemma StillToPause(c: Config, s: State, a: RunAct, s': State, r: RunId, tool: Tool, until: int)
    requires RunsOk(s.runs, s.active, s.nextRun, s.born.Keys) && Next(c, s, OfRun(r, a), s')
    requires s.runs[r].pc.Pausing? && s.runs[r].pc.until == until && tool in s.runs[r].pc.tools
    requires a != PauseNext(true) || tool != s.runs[r].pc.tools[0]
    ensures Gone(s', r)
         || (r in s'.runs && s'.runs[r].pc.Pausing? && s'.runs[r].pc.until == until && tool in s'.runs[r].pc.tools)
  {
    var tools := s.runs[r].pc.tools;
    assert tools == [tools[0]] + tools[1..];
  }

  // A turn of the run itself: it pauses the first of its tools, or gives up.
  lemma DueTurn(c: Config, s: State, a: RunAct, s': State, r: RunId, tool: Tool, until: int)
    requires RunsOk(s.runs, s.active, s.nextRun, s.born.Keys) && Next(c, s, OfRun(r, a), s')
    requires s.runs[r].pc.Pausing? && s.runs[r].pc.until == until && tool in s.runs[r].pc.tools
    ensures PauseDue(s', r, tool, until)
  {
    if a == PauseNext(true) && tool == s.runs[r].pc.tools[0] {
      PauseWritten(c, s, r, tool, until);
    } else {
      StillToPause(c, s, a, s', r, tool, until);
    }
  }

  lemma DueElsewhere(c: Config, s: State, l: Label, s': State, r: RunId)
    requires RunsOk(s.runs, s.active, s.nextRun, s.born.Keys) && Next(c, s, l, s')
    requires r in s.runs && !(l.OfRun? && l.run == r)
    ensures Gone(s', r) || (r in s'.runs && s'.runs[r] == s.runs[r])
  {
  }

  lemma {:induction false} DueAlong(c: Config, t: Trace, i: nat, j: nat, r: RunId, a: RunAct, tool: Tool)
    requires c.hasPauseStore && Behavior(c, t) && i < j < |t.states|
    requires t.labels[i] == OfRun(r, a) && LimitsOn(a, tool)
    requires forall k :: i < k < j ==> t.labels[k] != AdminClear(tool)
    ensures PauseDue(t.states[j], r, tool, t.states[i].clock + c.cooldownMs)
  {
    if i + 1 < j {
      DueAlong(c, t, i, j - 1, r, a, tool);
      WfAt(c, t, j - 1);
      DueStep(c, t.states[j - 1], t.labels[j - 1], t.states[j], r, tool, t.states[i].clock + c.cooldownMs);
    } else {
      assert Next(c, t.states[i], t.labels[i], t.states[i + 1]);
      LimitIsDue(c, t.states[i], t.states[i + 1], r, a, tool);
    }
  }

  // In every behaviour, and with no assumption on the other parties: a run that a rate limit (step i) has
  // brought to requeue its task (step j) has by then paused every tool it was limited on, for the cooldown
  // at least. Only the operator can have cleared such a pause in between.
  lemma AllPausedBeforeRequeue(c: Config, t: Trace, i: nat, j: nat, r: RunId, a: RunAct, ok: bool, tool: Tool)
    requires c.hasPauseStore && Behavior(c, t) && i < j < |t.labels|
    requires t.labels[i] == OfRun(r, a) && LimitsOn(a, tool) && t.labels[j] == OfRun(r, RevertTask(ok))
    requires forall k :: i < k < j ==> t.labels[k] != AdminClear(tool)
    ensures tool in t.states[j].pauses && t.states[j].pauses[tool] >= t.states[i].clock + c.cooldownMs
  {
    DueAlong(c, t, i, j, r, a, tool);
    assert Next(c, t.states[j], t.labels[j], t.states[j + 1]);
  }

  /* ---- And so the tools rest ---- */

  // As `PauseDue`, with the pause already binding every tick under way.
  ghost predicate RestDue(c: Config, s: State, r: RunId, tool: Tool, until: int) {
    || Gone(s, r)
    || InForce(c, s, tool, until)
    || (r in s.runs && s.runs[r].pc.Pausing? && s.runs[r].pc.until == until && tool in s.runs[r].pc.tools)
  }

  lemma LimitRests(c: Config, t: Trace, i: nat, r: RunId, a: RunAct, tool: Tool)
    requires c.hasPauseStore && Behavior(c, t) && i < |t.labels| && t.labels[i] == OfRun(r, a) && LimitsOn(a, tool)
    ensures RestDue(c, t.states[i + 1], r, tool, t.states[i].clock + c.cooldownMs)
  {
    assert Next(c, t.states[i], t.labels[i], t.states[i + 1]);
  }

  lemma RestTurn(c: Config, s: State, a: RunAct, s': State, r: RunId, tool: Tool, until: int)
    requires Inv(c, s) && HoldsRecord(s, r) && tool in ToolsOf(c, s.born, s.runs[r].task)
    requires Next(c, s, OfRun(r, a), s')
    requires s.runs[r].pc.Pausing? && s.runs[r].pc.until == until && tool in s.runs[r].pc.tools
    ensures RestDue(c, s', r, tool, until)
  {
    if a == PauseNext(true) && tool == s.runs[r].pc.tools[0] {
      ToolsKnown(c, s, s.runs[r].task);
      PauseTakesForce(c, s, OfRun(r, a), s', tool, until);
    } else {
      StillToPause(c, s, a, s', r, tool, until);
    }
  }

  lemma RestStep(c: Config, s: State, l: Label, s': State, r: RunId, id: TaskId, tool: Tool, until: int)
    requires c.hasPauseStore && Inv(c, s) && Next(c, s, l, s') && l != AdminClear(tool)
    requires RestDue(c, s, r, tool, until) && AllSole(s, id) && tool in ToolsOf(c, s.born, id)
    requires r in s.runs ==> s.runs[r].task == id
    ensures RestDue(c, s', r, tool, until)
  {
    if Gone(s, r) {
      GoneStep(c, s, l, s', r);
    } else if InForce(c, s, tool, until) {
      InForceStep(c, s, l, s', tool, until);
    } else if l.OfRun? && l.run == r {
      RestTurn(c, s, l.runAct, s', r, tool, until);
    } else {
      DueElsewhere(c, s, l, s', r);
    }
  }

  lemma {:induction false} ToolsStay(c: Config, t: Trace, i: nat, j: nat, id: TaskId)
    requires Behavior(c, t) && i <= j < |t.states| && id in t.states[i].born
    ensures id in t.states[j].born && ToolsOf(c, t.states[j].born, id) == ToolsOf(c, t.states[i].born, id)
  {
    if i < j {
      ToolsStay(c, t, i, j - 1, id);
      BirthStays(c, t.states[j - 1], t.labels[j - 1], t.states[j], id);
    }
  }

  lemma BirthStays(c: Config, s: State, l: Label, s': State, id: TaskId)
    requires Next(c, s, l, s') && id in s.born
    ensures id in s'.born && s'.born[id] == s.born[id]
  {
  }

  lemma RestNext(c: Config, t: Trace, i: nat, k: nat, r: RunId, id: TaskId, tool: Tool, until: int)
    requires c.hasPauseStore && Behavior(c, t) && i < k < |t.labels| && SettledStarts(c, t, k, id)
    requires r in t.states[i].runs && t.states[i].runs[r].task == id && id in t.states[i].born
    requires tool in ToolsOf(c, t.states[i].born, id) && t.labels[k] != AdminClear(tool)
    requires RestDue(c, t.states[k], r, tool, until)
    ensures RestDue(c, t.states[k + 1], r, tool, until)
  {
    InvAlong(c, t, k);
    LiveRunsHoldTheirRecords(c, t, k, id);
    TaskAlong(c, t, i, k, r);
    ToolsStay(c, t, i, k, id);
    RestStep(c, t.states[k], t.labels[k], t.states[k + 1], r, id, tool, until);
  }

  lemma {:induction false} RestAlong(c: Config, t: Trace, i: nat, j: nat, r: RunId, id: TaskId, a: RunAct, tool: Tool)
    requires c.hasPauseStore && Behavior(c, t) && i < j < |t.states| && SettledStarts(c, t, j, id)
    requires t.labels[i] == OfRun(r, a) && LimitsOn(a, tool)
    requires r in t.states[i].runs && t.states[i].runs[r].task == id && id in t.states[i].born
    requires tool in ToolsOf(c, t.states[i].born, id)
    requires forall k :: i < k < j ==> t.labels[k] != AdminClear(tool)
    ensures RestDue(c, t.states[j], r, tool, t.states[i].clock + c.cooldownMs)
  {
    if i + 1 < j {
      RestAlong(c, t, i, j - 1, r, id, a, tool);
      RestNext(c, t, i, j - 1, r, id, tool, t.states[i].clock + c.cooldownMs);
    } else {
      LimitRests(c, t, i, r, a, tool);
    }
  }

  // From a rate limit on a tool its task declares (step i), requeued at step j, no task declaring the
  // tool is started (step m) before the cooldown is over, without a clear by the operator. The task
  // itself is one that is restarted only after its last run has settled.
  lemma LimitedToolsRest(c: Config, t: Trace, i: nat, j: nat, m: nat, r: RunId, id: TaskId, a: RunAct, ok: bool,
                         tool: Tool)
    requires c.hasPauseStore && Behavior(c, t) && i < j < m < |t.labels| && SettledStarts(c, t, j, id)
    requires t.labels[i] == OfRun(r, a) && LimitsOn(a, tool) && t.labels[j] == OfRun(r, RevertTask(ok))
    requires r in t.states[i].runs && t.states[i].runs[r].task == id && id in t.states[i].born
    requires tool in ToolsOf(c, t.states[i].born, id)
    requires forall k :: i < k < m ==> t.labels[k] != AdminClear(tool)
    requires StartsUserOf(c, t.states[m], t.labels[m], tool)
    ensures t.states[m].clock >= t.states[i].clock + c.cooldownMs
  {
    RestAlong(c, t, i, j, r, id, a, tool);
    assert Next(c, t.states[j], t.labels[j], t.states[j + 1]);
    InForceAlong(c, t, j, m, tool, t.states[i].clock + c.cooldownMs);
    InvAlong(c, t, m);
    StartRespects(c, t.states[m], t.labels[m], tool, t.states[i].clock + c.cooldownMs);
  }
}
