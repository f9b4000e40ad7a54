/**
 Conservation of tasks: nothing enqueued is ever lost, terminal statuses are never left, and the
 prune removes terminal records neither too early nor too late.
 */
module Retention {
  import opened Domain
  import opened Store
  import opened Scheduling
  import opened Protocol
  import opened Shape

  predicate Finished(s: State, id: TaskId) {
    id in s.files && Terminal(s.files[id].dir)
  }

  predicate Unlinks(c: Config, s: State, l: Label, id: TaskId) {
    l == Main(PruneFile(id)) && Enabled(c, s, l) && MainCall(c, s, PruneFile(id)).Unlink?
  }

  // A prune under way looks for files at least `retentionMs` old.
  ghost predicate CutoffOk(c: Config, s: State) {
    s.main.Pruning? ==> s.main.cutoff + c.retentionMs <= s.clock
  }

  lemma CutoffMain(c: Config, s: State, a: MainAct)
    requires CutoffOk(c, s) && MainEnabled(s, a) && MainAfter(c, s, a).Pruning?
    ensures MainAfter(c, s, a).cutoff + c.retentionMs <= s.clock
  {
  }

  lemma CutoffStep(c: Config, s: State, l: Label, s': State)
    requires CutoffOk(c, s) && Next(c, s, l, s')
    ensures CutoffOk(c, s')
  {
    if l.Main? && s'.main.Pruning? {
      CutoffMain(c, s, l.act);
    } else if !l.Main? && !l.Crash? {
      assert s'.main == s.main && s.clock <= s'.clock;
    }
  }

  // One store call leaves every other record alone, keeps records, and lets terminal ones be.
  lemma CallKeeps(files: Files, call: StoreCall, clock: int, id: TaskId)
    requires id in files && call != Unlink(id)
    requires call.Put? ==> call.task.id != id
    requires call.Transition? ==> In(files, call.id, From(call.move))
    ensures id in Performed(files, call, clock)
    ensures Terminal(files[id].dir) ==> Performed(files, call, clock)[id] == files[id]
  {
  }

  lemma FileMain(c: Config, s: State, a: MainAct, id: TaskId)
    requires PruneOk(s.main) && CutoffOk(c, s) && MainEnabled(s, a) && id in s.files
    ensures var files := Performed(s.files, MainCall(c, s, a), s.clock);
            if Unlinks(c, s, Main(a), id) then Finished(s, id) && s.clock >= s.files[id].mtime + c.retentionMs
            else id in files && (Finished(s, id) ==> files[id] == s.files[id])
  {
    if !Unlinks(c, s, Main(a), id) {
      CallKeeps(s.files, MainCall(c, s, a), s.clock, id);
    }
  }

  lemma FileElsewhere(c: Config, s: State, l: Label, s': State, id: TaskId)
    requires SlotsOk(s.files, s.born, s.clock) && Next(c, s, l, s') && !l.Main? && id in s.files
    ensures id in s'.files && (Finished(s, id) ==> s'.files[id] == s.files[id])
  {
    assert SlotOk(s.files[id], id, s.born, s.clock);
    match l
    case OfRun(r, a) => CallKeeps(s.files, RunCall(s, r, a), s.clock, id);
    case OfEnqueue(e, a) => CallKeeps(s.files, EnqueueCall(s, e, a), s.clock, id);
    case _ =>
  }

  lemma FileStep(c: Config, s: State, l: Label, s': State, id: TaskId)
    requires Wf(s) && CutoffOk(c, s) && Next(c, s, l, s') && id in s.files
    ensures Unlinks(c, s, l, id) ==> Finished(s, id) && s.clock >= s.files[id].mtime + c.retentionMs
    ensures !Unlinks(c, s, l, id) ==> id in s'.files
    ensures !Unlinks(c, s, l, id) && Finished(s, id) ==> s'.files[id] == s.files[id]
  {
    if l.Main? {
      FileMain(c, s, l.act, id);
    } else {
      FileElsewhere(c, s, l, s', id);
    }
  }

  lemma {:induction false} Along(c: Config, t: Trace, i: nat)
    requires Behavior(c, t) && i < |t.states|
    ensures Wf(t.states[i]) && CutoffOk(c, t.states[i])
  {
    if i == 0 {
      WfInit(t.states[0]);
    } else {
      Along(c, t, i - 1);
      WfStep(c, t.states[i - 1], t.labels[i - 1], t.states[i]);
      CutoffStep(c, t.states[i - 1], t.labels[i - 1], t.states[i]);
    }
  }

  // Step k is the prune unlinking `id`, at least `retentionMs` after the record's file last changed.
  ghost predicate PrunedAt(c: Config, t: Trace, k: nat, id: TaskId)
    requires k < |t.labels| < |t.states|
  {
    && Unlinks(c, t.states[k], t.labels[k], id) && Finished(t.states[k], id)
    && t.states[k].clock >= t.states[k].files[id].mtime + c.retentionMs
  }

  ghost predicate PrunedBetween(c: Config, t: Trace, i: nat, j: nat, id: TaskId)
    requires i <= j <= |t.labels| < |t.states|
  {
    exists k :: i <= k < j && PrunedAt(c, t, k, id)
  }

  // One step along a trace.
  lemma TraceStep(c: Config, t: Trace, k: nat, id: TaskId)
    requires Behavior(c, t) && k < |t.labels| && id in t.states[k].files
    ensures id in t.states[k + 1].files || PrunedAt(c, t, k, id)
    ensures Finished(t.states[k], id) ==>
              PrunedAt(c, t, k, id)
              || (id in t.states[k + 1].files && t.states[k + 1].files[id] == t.states[k].files[id])
  {
    Along(c, t, k);
    FileStep(c, t.states[k], t.labels[k], t.states[k + 1], id);
  }

  // A record on disk stays on disk, in exactly one directory, until the prune removes it.
  lemma {:induction false} NeverVanishes(c: Config, t: Trace, i: nat, j: nat, id: TaskId)
    requires Behavior(c, t) && i <= j < |t.states| && id in t.states[i].files
    ensures id in t.states[j].files || PrunedBetween(c, t, i, j, id)
  {
    if i < j {
      NeverVanishes(c, t, i, j - 1, id);
      if id in t.states[j - 1].files {
        TraceStep(c, t, j - 1, id);
      }
    }
  }

  lemma {:induction false} BornSince(c: Config, t: Trace, j: nat, id: TaskId) returns (i: nat)
    requires Behavior(c, t) && j < |t.states| && id in t.states[j].born
    ensures i <= j && id in t.states[i].files
  {
    if id in t.states[j].files {
      i := j;
    } else {
      var s := t.states[j - 1];
      assert Next(c, s, t.labels[j - 1], t.states[j]);
      i := BornSince(c, t, j - 1, id);
    }
  }

  // Conservation: every task ever enqueued has exactly one place on disk or has been pruned.
  lemma NoTaskIsLost(c: Config, t: Trace, j: nat, id: TaskId)
    requires Behavior(c, t) && j < |t.states| && id in t.states[j].born
    ensures id in t.states[j].files || PrunedBetween(c, t, 0, j, id)
  {
    var i := BornSince(c, t, j, id);
    NeverVanishes(c, t, i, j, id);
  }

  ghost predicate Unchanged(t: Trace, i: nat, j: nat, id: TaskId)
    requires i < |t.states| && j < |t.states|
  {
    id in t.states[i].files && id in t.states[j].files && t.states[j].files[id] == t.states[i].files[id]
  }

  // A terminal status is never left: the record stays as it is until it is pruned, which is at least
  // `retentionMs` after it became terminal.
  lemma {:induction false} TerminalIsFinal(c: Config, t: Trace, i: nat, j: nat, id: TaskId)
    requires Behavior(c, t) && i <= j < |t.states| && Finished(t.states[i], id)
    ensures Unchanged(t, i, j, id)
            || exists k :: i <= k < j && PrunedAt(c, t, k, id) && Unchanged(t, i, k, id)
  {
    if i < j {
      TerminalIsFinal(c, t, i, j - 1, id);
      if Unchanged(t, i, j - 1, id) {
        TraceStep(c, t, j - 1, id);
      }
    }
  }

  // The modification time of a terminal record is the moment it became terminal.
  lemma StampedWhenFinished(c: Config, s: State, l: Label, s': State, id: TaskId)
    requires Wf(s) && Next(c, s, l, s') && id in s.files && !Finished(s, id) && Finished(s', id)
    ensures s'.files[id].mtime == s.clock
  {
    if !l.Crash? {
      var call := if l.Main? then MainCall(c, s, l.act) else if l.OfRun? then RunCall(s, l.run, l.runAct)
                  else if l.OfEnqueue? then EnqueueCall(s, l.id, l.enqAct) else NoCall;
      FinishedAfter(s.files, call, s.clock, id);
    }
  }

  /* ---- Not too late ---- */

  predicate Unpruned(pc: MainPc) {
    InBoot(pc) && !pc.Pruning?
  }

  // Is the prune still going to look at the file?
  predicate StillToLook(pc: MainPc, id: TaskId, dir: Status) {
    pc.Pruning? && (dir in pc.dirs || (dir == pc.dir && id in pc.files))
  }

  ghost predicate Swept(c: Config, s: State) {
    !Unpruned(s.main) ==>
      && s.lastPruneAt <= s.clock
      && (s.main.Pruning? ==> s.main.cutoff == s.lastPruneAt - c.retentionMs)
      && forall id :: Finished(s, id) ==>
           s.files[id].mtime > s.lastPruneAt - c.retentionMs || StillToLook(s.main, id, s.files[id].dir)
  }

  predicate Positive(c: Config) {
    c.retentionMs > 0 && c.pruneIntervalMs > 0
  }

  lemma LookAgain(c: Config, s: State, a: MainAct, id: TaskId)
    requires MainEnabled(s, a) && a != PruneFails && !BeginsPrune(c, s, a) && Finished(s, id)
    requires StillToLook(s.main, id, s.files[id].dir) && s.files[id].mtime <= s.main.cutoff
    ensures StillToLook(MainAfter(c, s, a), id, s.files[id].dir) || Unlinks(c, s, Main(a), id)
  {
    if a.PruneDirectory? {
      assert s.main.dirs == [s.main.dirs[0]] + s.main.dirs[1..];
    }
  }

  lemma FinishedAfter(files: Files, call: StoreCall, clock: int, id: TaskId)
    requires call.Put? ==> call.task.status == Queued
    requires id in Performed(files, call, clock) && Terminal(Performed(files, call, clock)[id].dir)
    ensures Performed(files, call, clock)[id].mtime == clock
            || (id in files && Performed(files, call, clock)[id] == files[id])
  {
  }

  lemma SweptMain(c: Config, s: State, a: MainAct, s': State)
    requires Positive(c) && Wf(s) && Swept(c, s) && MainEnabled(s, a) && s' == MainStep(c, s, a) && a != PruneFails
    ensures Swept(c, s')
  {
    if !Unpruned(s'.main) {
      forall id | Finished(s', id)
        ensures s'.files[id].mtime > s'.lastPruneAt - c.retentionMs || StillToLook(s'.main, id, s'.files[id].dir)
      {
        SweptRecord(c, s, a, s', id);
      }
      PruneCutoff(c, s, a);
    }
  }

  lemma PruneCutoff(c: Config, s: State, a: MainAct)
    requires MainEnabled(s, a)
    ensures MainAfter(c, s, a).Pruning? ==>
              if BeginsPrune(c, s, a) then MainAfter(c, s, a).cutoff == s.clock - c.retentionMs
              else s.main.Pruning? && MainAfter(c, s, a).cutoff == s.main.cutoff
    ensures Unpruned(s.main) && !Unpruned(MainAfter(c, s, a)) ==> BeginsPrune(c, s, a)
  {
  }

  lemma SweptRecord(c: Config, s: State, a: MainAct, s': State, id: TaskId)
    requires Positive(c) && Wf(s) && Swept(c, s) && MainEnabled(s, a) && s' == MainStep(c, s, a) && a != PruneFails
    requires !Unpruned(s'.main) && Finished(s', id)
    ensures s'.files[id].mtime > s'.lastPruneAt - c.retentionMs || StillToLook(s'.main, id, s'.files[id].dir)
  {
    var call := MainCall(c, s, a);
    if call.Transition? { assert SlotOk(s.files[call.id], call.id, s.born, s.clock); }
    FinishedAfter(s.files, call, s.clock, id);
    PruneCutoff(c, s, a);
    if BeginsPrune(c, s, a) {
      assert s'.files[id].dir in [Succeeded, Failed, Superseded];
    } else if s'.files[id].mtime <= s'.lastPruneAt - c.retentionMs {
      LookAgain(c, s, a, id);
    }
  }

  lemma SweptElsewhere(c: Config, s: State, l: Label, s': State)
    requires Positive(c) && Wf(s) && Swept(c, s) && Next(c, s, l, s') && !l.Main?
    ensures Swept(c, s')
  {
    if !Unpruned(s'.main) && (l.OfRun? || l.OfEnqueue?) {
      var call := if l.OfRun? then RunCall(s, l.run, l.runAct) else EnqueueCall(s, l.id, l.enqAct);
      if call.Transition? { assert SlotOk(s.files[call.id], call.id, s.born, s.clock); }
      forall id | Finished(s', id)
        ensures s'.files[id].mtime > s'.lastPruneAt - c.retentionMs || StillToLook(s'.main, id, s'.files[id].dir)
      {
        FinishedAfter(s.files, call, s.clock, id);
      }
    }
  }

  // Step p begins a prune, at a boot or at the head of a tick.
  predicate PruneBegins(c: Config, t: Trace, p: nat)
    requires p < |t.labels| < |t.states|
  {
    t.labels[p].Main? && BeginsPrune(c, t.states[p], t.labels[p].act)
  }

  lemma SweptStep(c: Config, s: State, l: Label, s': State)
    requires Positive(c) && Wf(s) && Swept(c, s) && Next(c, s, l, s') && l != Main(PruneFails)
    ensures Swept(c, s')
  {
    if l.Main? { SweptMain(c, s, l.act, s'); } else { SweptElsewhere(c, s, l, s'); }
  }

  lemma SweptOnceBegun(c: Config, s: State, l: Label, s': State)
    requires Next(c, s, l, s') && l.Main? && BeginsPrune(c, s, l.act)
    ensures Swept(c, s')
  {
    PruneCutoff(c, s, l.act);
    forall id | Finished(s', id) ensures StillToLook(s'.main, id, s'.files[id].dir) {
      assert s'.files[id].dir in [Succeeded, Failed, Superseded];
    }
  }

  // Whatever failed before: from the beginning of a prune on, as long as none fails, every terminal
  // record is young or still to be looked at.
  lemma {:induction false} SweptSince(c: Config, t: Trace, p: nat, j: nat)
    requires Positive(c) && Behavior(c, t) && p < j < |t.states| && PruneBegins(c, t, p)
    requires forall k :: p < k < j ==> t.labels[k] != Main(PruneFails)
    ensures Swept(c, t.states[j])
  {
    if p == j - 1 {
      SweptOnceBegun(c, t.states[p], t.labels[p], t.states[j]);
    } else {
      Along(c, t, j - 1);
      SweptSince(c, t, p, j - 1);
      SweptStep(c, t.states[j - 1], t.labels[j - 1], t.states[j]);
    }
  }

  // Since the tick that began at step i, the last prune has been recent.
  lemma {:induction false} PrunedRecently(c: Config, t: Trace, i: nat, j: nat)
    requires Positive(c) && Path(c, t) && i < j < |t.states| && t.labels[i] == Main(TickBegin)
    requires forall k :: i < k < j ==> !t.labels[k].Crash? && t.labels[k] != Main(TickBegin)
    ensures t.states[j].lastPruneAt > t.states[i].clock - c.pruneIntervalMs && !Unpruned(t.states[j].main)
  {
    var s := t.states[j - 1];
    assert Next(c, s, t.labels[j - 1], t.states[j]);
    if i + 1 < j {
      PrunedRecently(c, t, i, j - 1);
    }
  }

  // Past the prune of a tick that began at time T (step i), every terminal record left is younger than
  // T - retentionMs - pruneIntervalMs, if the last prune begun (step p) did not fail.
  lemma NothingKeptTooLong(c: Config, t: Trace, p: nat, i: nat, j: nat, id: TaskId)
    requires Positive(c) && Behavior(c, t) && p < j && i < j < |t.states|
    requires PruneBegins(c, t, p) && forall k :: p < k < j ==> t.labels[k] != Main(PruneFails)
    requires t.labels[i] == Main(TickBegin)
    requires forall k :: i < k < j ==> !t.labels[k].Crash? && t.labels[k] != Main(TickBegin)
    requires !t.states[j].main.Pruning? && Finished(t.states[j], id)
    ensures t.states[j].files[id].mtime > t.states[i].clock - c.retentionMs - c.pruneIntervalMs
  {
    PrunedRecently(c, t, i, j);
    SweptSince(c, t, p, j);
  }
}
