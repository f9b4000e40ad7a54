/**
 First in, first out: creation stamps strictly increase whatever the clock does, transitions keep
 them, and so one store instance lists its queued tasks in the order they were enqueued.
 */
module QueueOrder {
  import opened Domain
  import opened Store
  import opened Protocol
  import opened QueueStore

  /* ---- Stamps ---- */

  // The stamps one instance gives out for the successive clock readings.
  function Stamps(last: int, readings: seq<int>): (r: seq<int>)
    ensures |r| == |readings|
    decreases readings
  {
    if readings == [] then []
    else var next := NextCreatedAt(last, readings[0]); [next] + Stamps(next, readings[1..])
  }

  // Stalled or going backwards, any clock gives strictly increasing stamps; and a clock that moves
  // ahead on every reading is believed to the millisecond.
  lemma {:induction false} StampsIncrease(last: int, readings: seq<int>)
    ensures forall i :: 0 <= i < |readings| ==> Stamps(last, readings)[i] > last
    ensures forall i, j :: 0 <= i < j < |readings| ==> Stamps(last, readings)[i] < Stamps(last, readings)[j]
    ensures forall i :: 0 <= i < |readings| ==> Stamps(last, readings)[i] >= readings[i]
    ensures (readings != [] ==> readings[0] > last)
            && (forall i :: 0 < i < |readings| ==> readings[i] > readings[i - 1])
            ==> Stamps(last, readings) == readings
    decreases readings
  {
    if readings != [] {
      var next := NextCreatedAt(last, readings[0]);
      StampsIncrease(next, readings[1..]);
    }
  }

  /* ---- One store instance ---- */

  datatype Made = Made(id: TaskId, createdAt: int)

  // `history` is what this instance has enqueued, in order.
  datatype Instance = Instance(files: Files, last: int, history: seq<Made>)

  datatype Act =
    | Enqueued(id: TaskId, source: Source, instruction: Instruction)
    | Transited(id: TaskId, move: Move)
    | Unlinked(id: TaskId)

  datatype Timed = Timed(act: Act, now: int)

  predicate CanDo(s: Instance, a: Act) {
    match a
    case Enqueued(id, _, _) => id !in s.files && forall m :: m in s.history ==> m.id != id
    case Transited(id, move) => In(s.files, id, From(move))
    case Unlinked(id) => id in s.files
  }

  function Done(s: Instance, a: Act, now: int): Instance {
    match a
    case Enqueued(id, source, instruction) =>
      var createdAt := NextCreatedAt(s.last, now);
      Instance(Performed(s.files, Put(NewTask(id, source, instruction, createdAt)), now), createdAt,
               s.history + [Made(id, createdAt)])
    case Transited(id, move) => s.(files := Performed(s.files, Transition(id, move), now))
    case Unlinked(id) => s.(files := Performed(s.files, Unlink(id), now))
  }

  ghost predicate Does(s: Instance, acts: seq<Timed>, s': Instance)
    decreases acts
  {
    if acts == [] then s == s'
    else CanDo(s, acts[0].act) && Does(Done(s, acts[0].act, acts[0].now), acts[1..], s')
  }

  ghost predicate Ordered(s: Instance) {
    && IdsAgree(s.files)
    && (forall i :: 0 <= i < |s.history| ==> s.history[i].createdAt <= s.last)
    && (forall i, j :: 0 <= i < j < |s.history| ==> s.history[i].createdAt < s.history[j].createdAt)
    && (forall m :: m in s.history && m.id in s.files ==> s.files[m.id].task.createdAt == m.createdAt)
  }

  lemma OrderedStep(s: Instance, a: Act, now: int)
    requires Ordered(s) && CanDo(s, a)
    ensures Ordered(Done(s, a, now))
  {
  }

  lemma {:induction false} OrderedAlong(s: Instance, acts: seq<Timed>, s': Instance)
    requires Ordered(s) && Does(s, acts, s')
    ensures Ordered(s')
    decreases acts
  {
    if acts != [] {
      OrderedStep(s, acts[0].act, acts[0].now);
      OrderedAlong(Done(s, acts[0].act, acts[0].now), acts[1..], s');
    }
  }

  // After any enqueues, starts, requeues, completions, supersedes and prunes, at any clock readings, a
  // listing of any status shows the tasks this instance enqueued in the order it enqueued them. So a
  // task that is requeued is back in its place.
  lemma ListedInEnqueueOrder(files: Files, acts: seq<Timed>, s: Instance, dir: Status, listed: seq<Task>,
                             a: nat, b: nat, i: nat, j: nat)
    requires IdsAgree(files) && Does(Instance(files, 0, []), acts, s)
    requires Lists(s.files, dir, listed)
    requires a < |s.history| && b < |s.history| && i < |listed| && j < |listed|
    requires listed[i].id == s.history[a].id && listed[j].id == s.history[b].id
    ensures a < b <==> i < j
  {
    OrderedAlong(Instance(files, 0, []), acts, s);
    assert listed[i] in listed && listed[j] in listed;
    assert s.history[a] in s.history && s.history[b] in s.history;
    assert listed[i].createdAt == s.history[a].createdAt && listed[j].createdAt == s.history[b].createdAt;
  }

  // A record started and requeued once for each pair of times.
  function Cycled(slot: Slot, times: seq<(int, int)>): Slot {
    if times == [] then slot
    else
      var before := Cycled(slot, times[..|times| - 1]);
      Moved(Moved(before, Start, times[|times| - 1].0), Requeue, times[|times| - 1].1)
  }

  // Any number of starts undone by requeues leave the record as it was enqueued, to the letter.
  lemma {:induction false} RequeuesRestore(slot: Slot, times: seq<(int, int)>)
    requires slot.dir == Queued && slot.task.status == Queued
    requires slot.task.startedAt == slot.task.finishedAt == None && slot.task.errorSummary == None
    ensures Cycled(slot, times).dir == Queued && Cycled(slot, times).task == slot.task
  {
    if times != [] {
      RequeuesRestore(slot, times[..|times| - 1]);
    }
  }
}
