/**
 The persistent pause map: read, modify and write cycles chained on a promise.

 `withLock` makes each call wait for the call made before it, whether that succeeds or fails. The
 machine below takes every file operation of a call as a step, all calls sharing one temporary file,
 and any of them may fail. The theorem is that the file always holds the calls that succeeded,
 applied one at a time in the order they were made.
 */
module RateLimitState {
  import opened Domain
  import opened Protocol

  type Pauses = map<Tool, int>

  datatype Op = PauseOp(tool: Tool, until: int) | ClearOp(tool: Tool)

  function Effect(op: Op, pauses: Pauses): Pauses {
    if op.PauseOp? then MaxMerge(pauses, op.tool, op.until) else pauses - {op.tool}
  }

  // A clear answers the pause it removed.
  function Answer(op: Op, pauses: Pauses): Option<int> {
    if op.ClearOp? && op.tool in pauses then Some(pauses[op.tool]) else None
  }

  // A missing or unreadable file reads as no pauses.
  function Content(file: Option<Pauses>): Pauses {
    if file.Some? then file.value else map[]
  }

  function ActiveAt(pauses: Pauses, now: int): Pauses {
    map t | t in pauses && pauses[t] > now :: pauses[t]
  }

  // The store, one call at a time.
  class RateLimitStateStore {
    var file: Option<Pauses>

    constructor (file: Option<Pauses>)
      ensures this.file == file
    {
      this.file := file;
    }

    method Pause(tool: Tool, pausedUntil: int)
      modifies this
      ensures Content(file) == Effect(PauseOp(tool, pausedUntil), old(Content(file)))
      ensures tool in Content(file) && Content(file)[tool] >= pausedUntil
      ensures Content(file)[tool] == pausedUntil
           || (tool in old(Content(file)) && Content(file)[tool] == old(Content(file))[tool])
      ensures tool in old(Content(file)) ==> Content(file)[tool] >= old(Content(file))[tool]
      ensures Content(file) - {tool} == old(Content(file)) - {tool}
    {
      var pauses := Content(file);
      var merged := if tool in pauses && pauses[tool] > pausedUntil then pauses[tool] else pausedUntil;
      file := Some(pauses[tool := merged]);
    }

    method Clear(tool: Tool) returns (previous: Option<int>)
      modifies this
      ensures previous == Answer(ClearOp(tool), old(Content(file)))
      ensures Content(file) == Effect(ClearOp(tool), old(Content(file)))
      ensures previous.None? ==> file == old(file)
      ensures previous == if tool in old(Content(file)) then Some(old(Content(file))[tool]) else None
      ensures tool !in Content(file)
      ensures forall t :: t != tool ==>
                && (t in Content(file) <==> t in old(Content(file)))
                && (t in Content(file) ==> Content(file)[t] == old(Content(file))[t])
    {
      var pauses := Content(file);
      if tool !in pauses {
        assert pauses - {tool} == pauses;
        return None;
      }
      previous := Some(pauses[tool]);
      file := Some(pauses - {tool});
    }

    method LoadActivePauses(now: int) returns (active: Pauses)
      ensures active == ActiveAt(Content(file), now)
      ensures forall t :: t in active <==> t in Content(file) && Content(file)[t] > now
      ensures forall t :: t in active ==> active[t] == Content(file)[t]
      ensures active.Keys == ActivePauses(Content(file), now)
    {
      var pauses := Content(file);
      var left := pauses.Keys;
      active := map[];
      while left != {}
        invariant left <= pauses.Keys
        invariant active == map t | t in pauses && t !in left && pauses[t] > now :: pauses[t]
        decreases |left|
      {
        var tool :| tool in left;
        left := left - {tool};
        if pauses[tool] > now {
          active := active[tool := pauses[tool]];
        }
      }
    }
  }

  /* ---- Overlapping calls ---- */

  datatype Phase =
    | Waiting
    | Loaded(seen: Pauses)
    | Written(next: Pauses)
    | Resolved(answer: Option<int>)
    | Rejected

  // `after` is the promise the call was chained on: the last call made before it.
  datatype Call = Call(op: Op, after: Option<nat>, phase: Phase)

  datatype Machine = Machine(file: Option<Pauses>, tmp: Option<Pauses>, calls: seq<Call>, mutex: Option<nat>)

  // A failing call may leave anything in the temporary file, unless it fails before writing it.
  datatype Act =
    | Invoke(op: Op)
    | Read(i: nat)
    | WriteTemp(i: nat)
    | Rename(i: nat)
    | Fail(i: nat, tmp: Option<Pauses>)

  predicate Settled(phase: Phase) {
    phase.Resolved? || phase.Rejected?
  }

  predicate MayStart(m: Machine, i: nat) {
    && i < |m.calls| && m.calls[i].phase.Waiting?
    && match m.calls[i].after
       case None => true
       case Some(p) => p < |m.calls| && Settled(m.calls[p].phase)
  }

  predicate CanAct(m: Machine, a: Act) {
    match a
    case Invoke(_) => true
    case Read(i) => MayStart(m, i)
    case WriteTemp(i) => i < |m.calls| && m.calls[i].phase.Loaded?
    case Rename(i) => i < |m.calls| && m.calls[i].phase.Written?
    case Fail(i, _) => MayStart(m, i) || (i < |m.calls| && (m.calls[i].phase.Loaded? || m.calls[i].phase.Written?))
  }

  function InPhase(calls: seq<Call>, i: nat, phase: Phase): seq<Call>
    requires i < |calls|
  {
    calls[i := calls[i].(phase := phase)]
  }

  // A clear that finds nothing to remove is done without writing.
  predicate NothingToWrite(op: Op, seen: Pauses) {
    op.ClearOp? && op.tool !in seen
  }

  function Acted(m: Machine, a: Act): Machine
    requires CanAct(m, a)
  {
    match a
    case Invoke(op) => m.(calls := m.calls + [Call(op, m.mutex, Waiting)], mutex := Some(|m.calls|))
    case Read(i) => m.(calls := InPhase(m.calls, i, Loaded(Content(m.file))))
    case WriteTemp(i) =>
      var call := m.calls[i];
      if NothingToWrite(call.op, call.phase.seen) then m.(calls := InPhase(m.calls, i, Resolved(None)))
      else
        var next := Effect(call.op, call.phase.seen);
        m.(tmp := Some(next), calls := InPhase(m.calls, i, Written(next)))
    case Rename(i) =>
      m.(file := m.tmp, tmp := None,
         calls := InPhase(m.calls, i, Resolved(Answer(m.calls[i].op, Content(m.file)))))
    case Fail(i, tmp) =>
      m.(tmp := if m.calls[i].phase.Loaded? then tmp else m.tmp, calls := InPhase(m.calls, i, Rejected))
  }

  // The state after the first n calls, made one at a time, leaving out those that have not succeeded.
  function Applied(initial: Pauses, calls: seq<Call>, n: nat): Pauses
    requires n <= |calls|
  {
    if n == 0 then initial
    else
      var before := Applied(initial, calls, n - 1);
      if calls[n - 1].phase.Resolved? then Effect(calls[n - 1].op, before) else before
  }

  // What call i knows, against the calls before it.
  ghost predicate CallOk(initial: Pauses, calls: seq<Call>, tmp: Option<Pauses>, i: nat)
    requires i < |calls|
  {
    var call, before := calls[i], Applied(initial, calls, i);
    && call.after == (if i == 0 then None else Some(i - 1))
    && (!call.phase.Waiting? && i > 0 ==> Settled(calls[i - 1].phase))
    && match call.phase
       case Loaded(seen) => seen == before
       case Written(next) => next == Effect(call.op, before) && tmp == Some(next) && !NothingToWrite(call.op, before)
       case Resolved(answer) => answer == Answer(call.op, before)
       case _ => true
  }

  ghost predicate CallsOk(initial: Pauses, calls: seq<Call>, tmp: Option<Pauses>) {
    forall i :: 0 <= i < |calls| ==> CallOk(initial, calls, tmp, i)
  }

  ghost predicate Sequential(initial: Pauses, m: Machine) {
    && m.mutex == (if m.calls == [] then None else Some(|m.calls| - 1))
    && CallsOk(initial, m.calls, m.tmp)
    && Content(m.file) == Applied(initial, m.calls, |m.calls|)
  }

  /* ---- Calls before and after the one in progress ---- */

  lemma {:induction false} AppliedSame(initial: Pauses, a: seq<Call>, b: seq<Call>, n: nat)
    requires n <= |a| && n <= |b| && forall i :: 0 <= i < n ==> a[i] == b[i]
    ensures Applied(initial, a, n) == Applied(initial, b, n)
  {
    if n > 0 {
      AppliedSame(initial, a, b, n - 1);
    }
  }

  lemma {:induction false} AppliedIdle(initial: Pauses, calls: seq<Call>, i: nat, n: nat)
    requires i <= n <= |calls| && forall k :: i <= k < n ==> !calls[k].phase.Resolved?
    ensures Applied(initial, calls, n) == Applied(initial, calls, i)
  {
    if i < n {
      AppliedIdle(initial, calls, i, n - 1);
    }
  }

  // Calls before a started one are settled; calls after an unsettled one are waiting.
  lemma {:induction false} StartedInOrder(initial: Pauses, calls: seq<Call>, tmp: Option<Pauses>, i: nat, k: nat)
    requires CallsOk(initial, calls, tmp) && i < k < |calls|
    requires !calls[k].phase.Waiting?
    ensures Settled(calls[i].phase)
  {
    assert CallOk(initial, calls, tmp, k);
    if i < k - 1 {
      StartedInOrder(initial, calls, tmp, i, k - 1);
    }
  }

  lemma RestWaits(initial: Pauses, calls: seq<Call>, tmp: Option<Pauses>, i: nat)
    requires CallsOk(initial, calls, tmp) && i < |calls| && !Settled(calls[i].phase)
    ensures forall k :: i < k < |calls| ==> calls[k].phase.Waiting?
    ensures Applied(initial, calls, |calls|) == Applied(initial, calls, i)
  {
    forall k | i < k < |calls| ensures calls[k].phase.Waiting? {
      if !calls[k].phase.Waiting? { StartedInOrder(initial, calls, tmp, i, k); }
    }
    AppliedIdle(initial, calls, i, |calls|);
  }

  // Moving the call in progress on keeps what every other call knows.
  lemma PhaseKeeps(initial: Pauses, calls: seq<Call>, tmp: Option<Pauses>, i: nat, phase: Phase, tmp': Option<Pauses>)
    requires CallsOk(initial, calls, tmp) && i < |calls| && !Settled(calls[i].phase)
    requires i > 0 ==> Settled(calls[i - 1].phase)
    requires CallOk(initial, InPhase(calls, i, phase), tmp', i)
    ensures CallsOk(initial, InPhase(calls, i, phase), tmp')
  {
    RestWaits(initial, calls, tmp, i);
    var calls' := InPhase(calls, i, phase);
    forall k | 0 <= k < |calls'| ensures CallOk(initial, calls', tmp', k) {
      assert CallOk(initial, calls, tmp, k);
      if k < i {
        AppliedSame(initial, calls, calls', k);
        if k < i - 1 { StartedInOrder(initial, calls, tmp, k, i - 1); }
      }
    }
  }

  // The call in progress moves on without resolving: the file stays as it is.
  lemma MovesOn(initial: Pauses, m: Machine, i: nat, phase: Phase, tmp: Option<Pauses>)
    requires Sequential(initial, m) && i < |m.calls| && !Settled(m.calls[i].phase) && !phase.Resolved?
    requires i > 0 ==> Settled(m.calls[i - 1].phase)
    requires CallOk(initial, InPhase(m.calls, i, phase), tmp, i)
    ensures Sequential(initial, m.(calls := InPhase(m.calls, i, phase), tmp := tmp))
  {
    var calls := InPhase(m.calls, i, phase);
    PhaseKeeps(initial, m.calls, m.tmp, i, phase, tmp);
    RestWaits(initial, m.calls, m.tmp, i);
    AppliedIdle(initial, calls, i, |calls|);
    AppliedSame(initial, m.calls, calls, i);
  }

  // The call in progress resolves: the file takes its effect.
  lemma Resolves(initial: Pauses, m: Machine, i: nat, file: Option<Pauses>, tmp: Option<Pauses>)
    requires Sequential(initial, m) && i < |m.calls| && !Settled(m.calls[i].phase)
    requires i > 0 ==> Settled(m.calls[i - 1].phase)
    requires Content(file) == Effect(m.calls[i].op, Content(m.file))
    ensures Sequential(initial,
                       m.(file := file, tmp := tmp,
                          calls := InPhase(m.calls, i, Resolved(Answer(m.calls[i].op, Content(m.file))))))
  {
    var phase := Resolved(Answer(m.calls[i].op, Content(m.file)));
    var calls := InPhase(m.calls, i, phase);
    RestWaits(initial, m.calls, m.tmp, i);
    AppliedSame(initial, m.calls, calls, i);
    assert CallOk(initial, m.calls, m.tmp, i);
    PhaseKeeps(initial, m.calls, m.tmp, i, phase, tmp);
    AppliedIdle(initial, calls, i + 1, |calls|);
  }

  lemma BeforeIsSettled(initial: Pauses, m: Machine, i: nat)
    requires Sequential(initial, m) && i < |m.calls| && (!m.calls[i].phase.Waiting? || MayStart(m, i))
    ensures i > 0 ==> Settled(m.calls[i - 1].phase)
    ensures !Settled(m.calls[i].phase) ==> Content(m.file) == Applied(initial, m.calls, i)
  {
    assert CallOk(initial, m.calls, m.tmp, i);
    if !Settled(m.calls[i].phase) {
      RestWaits(initial, m.calls, m.tmp, i);
    }
  }

  lemma InvokeStep(initial: Pauses, m: Machine, op: Op)
    requires Sequential(initial, m)
    ensures Sequential(initial, Acted(m, Invoke(op)))
  {
    var calls := Acted(m, Invoke(op)).calls;
    forall k | 0 <= k < |calls| ensures CallOk(initial, calls, m.tmp, k) {
      AppliedSame(initial, m.calls, calls, if k < |m.calls| then k else |m.calls|);
      if k < |m.calls| {
        assert CallOk(initial, m.calls, m.tmp, k);
      }
    }
    AppliedSame(initial, m.calls, calls, |m.calls|);
  }

  lemma SequentialStep(initial: Pauses, m: Machine, a: Act)
    requires Sequential(initial, m) && CanAct(m, a)
    ensures Sequential(initial, Acted(m, a))
  {
    if a.Invoke? {
      InvokeStep(initial, m, a.op);
      return;
    }
    var call := m.calls[a.i];
    assert CallOk(initial, m.calls, m.tmp, a.i);
    BeforeIsSettled(initial, m, a.i);
    match a
    case Read(i) =>
      AppliedSame(initial, m.calls, InPhase(m.calls, i, Loaded(Content(m.file))), i);
      MovesOn(initial, m, i, Loaded(Content(m.file)), m.tmp);
    case WriteTemp(i) =>
      if NothingToWrite(call.op, call.phase.seen) {
        assert Content(m.file) - {call.op.tool} == Content(m.file);
        Resolves(initial, m, i, m.file, m.tmp);
      } else {
        var next := Effect(call.op, call.phase.seen);
        AppliedSame(initial, m.calls, InPhase(m.calls, i, Written(next)), i);
        MovesOn(initial, m, i, Written(next), Some(next));
      }
    case Rename(i) =>
      Resolves(initial, m, i, m.tmp, None);
    case Fail(i, tmp) =>
      AppliedSame(initial, m.calls, InPhase(m.calls, i, Rejected), i);
      MovesOn(initial, m, i, Rejected, Acted(m, a).tmp);
  }

  /* ---- Whole runs ---- */

  function Opened(file: Option<Pauses>, tmp: Option<Pauses>): Machine {
    Machine(file, tmp, [], None)
  }

  // `acts` can be performed one after the other from `m`, and lead to `m'`.
  ghost predicate Performs(m: Machine, acts: seq<Act>, m': Machine)
    decreases acts
  {
    if acts == [] then m == m' else CanAct(m, acts[0]) && Performs(Acted(m, acts[0]), acts[1..], m')
  }

  lemma {:induction false} SequentialAlong(initial: Pauses, m: Machine, acts: seq<Act>, m': Machine)
    requires Sequential(initial, m) && Performs(m, acts, m')
    ensures Sequential(initial, m')
    decreases acts
  {
    if acts != [] {
      SequentialStep(initial, m, acts[0]);
      SequentialAlong(initial, Acted(m, acts[0]), acts[1..], m');
    }
  }

  // The file, and so every unlocked load, always shows the calls that have succeeded, applied one at a
  // time in the order they were made; each of them answered what it would have answered there; and
  // at any moment the calls that have begun are all settled but the last of them.
  lemma CallsTakeEffectInOrder(file: Option<Pauses>, tmp: Option<Pauses>, acts: seq<Act>, m: Machine)
    requires Performs(Opened(file, tmp), acts, m)
    ensures Content(m.file) == Applied(Content(file), m.calls, |m.calls|)
    ensures forall i :: 0 <= i < |m.calls| && m.calls[i].phase.Resolved? ==>
              m.calls[i].phase.answer == Answer(m.calls[i].op, Applied(Content(file), m.calls, i))
    ensures forall i, k :: 0 <= i < k < |m.calls| && !m.calls[k].phase.Waiting? ==> Settled(m.calls[i].phase)
  {
    SequentialAlong(Content(file), Opened(file, tmp), acts, m);
    forall i | 0 <= i < |m.calls| && m.calls[i].phase.Resolved?
      ensures m.calls[i].phase.answer == Answer(m.calls[i].op, Applied(Content(file), m.calls, i))
    {
      assert CallOk(Content(file), m.calls, m.tmp, i);
    }
    forall i, k | 0 <= i < k < |m.calls| && !m.calls[k].phase.Waiting? ensures Settled(m.calls[i].phase) {
      StartedInOrder(Content(file), m.calls, m.tmp, i, k);
    }
  }

  // Settled calls stay settled, so a load sees a state that later loads can only build on.
  lemma {:induction false} SettledStay(m: Machine, acts: seq<Act>, m': Machine)
    requires Performs(m, acts, m')
    ensures |m.calls| <= |m'.calls|
    ensures forall i :: 0 <= i < |m.calls| ==>
              m'.calls[i].op == m.calls[i].op && (Settled(m.calls[i].phase) ==> m'.calls[i] == m.calls[i])
    decreases acts
  {
    if acts != [] {
      SettledStay(Acted(m, acts[0]), acts[1..], m');
    }
  }

  /* ---- With no clear ---- */

  predicate Wrote(calls: seq<Call>, i: nat, tool: Tool)
    requires i < |calls|
  {
    calls[i].phase.Resolved? && calls[i].op.PauseOp? && calls[i].op.tool == tool
  }

  // `until` is the largest value ever written for the tool, or the one it began with.
  ghost predicate IsMaximum(initial: Pauses, calls: seq<Call>, n: nat, tool: Tool, until: int)
    requires n <= |calls|
  {
    && (tool in initial ==> initial[tool] <= until)
    && (forall i :: 0 <= i < n && Wrote(calls, i, tool) ==> calls[i].op.until <= until)
    && ((tool in initial && initial[tool] == until)
        || exists i :: 0 <= i < n && Wrote(calls, i, tool) && calls[i].op.until == until)
  }

  lemma {:induction false} MaximumKept(initial: Pauses, calls: seq<Call>, n: nat, tool: Tool)
    requires n <= |calls| && forall i :: 0 <= i < n && calls[i].phase.Resolved? ==> calls[i].op.PauseOp?
    ensures var now := Applied(initial, calls, n);
            if tool in now then IsMaximum(initial, calls, n, tool, now[tool])
            else tool !in initial && forall i :: 0 <= i < n ==> !Wrote(calls, i, tool)
  {
    if n > 0 {
      MaximumKept(initial, calls, n - 1, tool);
      var before, now := Applied(initial, calls, n - 1), Applied(initial, calls, n);
      if Wrote(calls, n - 1, tool) {
        assert now[tool] == calls[n - 1].op.until || (tool in before && now[tool] == before[tool]);
      }
    }
  }

  // With no successful clear, the file holds for each tool the largest value ever written for it.
  lemma FileHoldsTheMaximum(file: Option<Pauses>, tmp: Option<Pauses>, acts: seq<Act>, m: Machine, tool: Tool)
    requires Performs(Opened(file, tmp), acts, m)
    requires forall i :: 0 <= i < |m.calls| && m.calls[i].phase.Resolved? ==> m.calls[i].op.PauseOp?
    ensures if tool in Content(m.file) then IsMaximum(Content(file), m.calls, |m.calls|, tool, Content(m.file)[tool])
            else tool !in Content(file) && forall i :: 0 <= i < |m.calls| ==> !Wrote(m.calls, i, tool)
  {
    CallsTakeEffectInOrder(file, tmp, acts, m);
    MaximumKept(Content(file), m.calls, |m.calls|, tool);
  }
}
