/**
 How many unfinished tasks one source can have: the concurrency, plus the task of the last enqueue,
 plus whatever that enqueue found and has not superseded, plus what it missed because it was started
 between the reading of queued/ and of its file, plus what has been inserted since.
 */
module SourceBound {
  import opened Domain
  import opened Store
  import opened Scheduling
  import opened Protocol
  import opened Walks
  import opened Shape
  import opened Exclusion
  import opened Ownership
  import opened Supersede

  // Queued or running, by directory.
  function Unfinished(files: Files, source: Source): set<TaskId> {
    set id | id in files && files[id].dir in {Queued, Running} && files[id].task.source == source
  }

  function Elements(s: seq<TaskId>): set<TaskId> {
    set id | id in s
  }

  predicate InsertsOn(l: Label, source: Source) {
    IsInsert(l) && l.enqAct.source == source
  }

  // The tasks inserted on the source by steps p to j.
  function InsertedSince(t: Trace, p: nat, j: nat, source: Source): set<TaskId>
    requires p <= j <= |t.labels|
  {
    if p == j then {}
    else InsertedSince(t, p, j - 1, source) + if InsertsOn(t.labels[j - 1], source) then {t.labels[j - 1].id} else {}
  }

  /* ---- Only an insert adds to them ---- */

  lemma UnfinishedAfterCall(files: Files, born: map<TaskId, Birth>, call: StoreCall, clock: int, source: Source)
    requires SlotsOk(files, born, clock)
    requires call.Transition? ==> In(files, call.id, From(call.move))
    ensures Unfinished(Performed(files, call, clock), source)
         <= Unfinished(files, source) + if call.Put? && call.task.source == source then {call.task.id} else {}
  {
    if call.Transition? { assert SlotOk(files[call.id], call.id, born, clock); }
  }

  lemma UnfinishedAfterCrash(c: Config, s: State, torn: map<TaskId, Move>, source: Source)
    requires SlotsOk(s.files, s.born, s.clock) && Enabled(c, s, Crash(torn))
    ensures Unfinished(AfterCrash(s.files, torn, s.clock), source) == Unfinished(s.files, source)
  {
  }

  lemma UnfinishedStep(c: Config, s: State, l: Label, s': State, source: Source)
    requires SlotsOk(s.files, s.born, s.clock) && Next(c, s, l, s')
    ensures Unfinished(s'.files, source) <= Unfinished(s.files, source) + if InsertsOn(l, source) then {l.id} else {}
  {
    match l
    case Main(a) => UnfinishedAfterCall(s.files, s.born, MainCall(c, s, a), s.clock, source);
    case OfRun(r, a) => UnfinishedAfterCall(s.files, s.born, RunCall(s, r, a), s.clock, source);
    case OfEnqueue(e, a) => UnfinishedAfterCall(s.files, s.born, EnqueueCall(s, e, a), s.clock, source);
    case Crash(torn) => UnfinishedAfterCrash(c, s, torn, source);
    case _ =>
  }

  lemma {:induction false} UnfinishedSince(c: Config, t: Trace, p: nat, j: nat, source: Source)
    requires Behavior(c, t) && p <= j < |t.states|
    ensures Unfinished(t.states[j].files, source)
         <= Unfinished(t.states[p].files, source) + InsertedSince(t, p, j, source)
  {
    if p < j {
      UnfinishedSince(c, t, p, j - 1, source);
      WfAt(c, t, j - 1);
      UnfinishedStep(c, t.states[j - 1], t.labels[j - 1], t.states[j], source);
    }
  }

  /* ---- What a search misses ---- */

  // Step `l` starts a task that call `e` has listed and not read yet.
  predicate StartsUnread(s: State, l: Label, e: TaskId) {
    && l == Main(StartNext) && s.main.Starting? && s.main.pending != [] && In(s.files, s.main.pending[0], Queued)
    && e in s.enqueues && s.main.pending[0] in Unread(s.enqueues[e])
  }

  // The tasks started by steps p to j although call `e` had listed them and not read them yet.
  function StartedUnread(t: Trace, p: nat, j: nat, e: TaskId): set<TaskId>
    requires p <= j <= |t.labels| < |t.states|
  {
    if p == j then {}
    else
      StartedUnread(t, p, j - 1, e)
      + if StartsUnread(t.states[j - 1], t.labels[j - 1], e) then {t.states[j - 1].main.pending[0]} else {}
  }

  // The task is running at the reading of the directory, is the call's own, came later, has been found,
  // was started unread, or is still to be read in queued/.
  predicate Covers(s: State, e: TaskId, running: set<TaskId>, more: set<TaskId>, missed: set<TaskId>, k: TaskId)
    requires e in s.enqueues
  {
    || k in running || k == e || k in more || k in Noted(s.enqueues[e]) || k in missed
    || (k in Unread(s.enqueues[e]) && In(s.files, k, Queued))
  }

  // Everything unfinished on the source is covered.
  ghost predicate AllCovered(s: State, e: TaskId, source: Source, running: set<TaskId>, more: set<TaskId>,
                             missed: set<TaskId>) {
    && e in s.enqueues && e in s.born && s.born[e].source == source
    && forall k :: k in Unfinished(s.files, source) ==> Covers(s, e, running, more, missed, k)
  }

  lemma LeavesByStart(files: Files, born: map<TaskId, Birth>, call: StoreCall, clock: int, source: Source, k: TaskId)
    requires SlotsOk(files, born, clock) && In(files, k, Queued)
    requires k in Unfinished(Performed(files, call, clock), source) && !In(Performed(files, call, clock), k, Queued)
    requires call.Put? ==> call.task.id !in files
    ensures call.Transition? && call.id == k && (From(call.move) == Queued ==> call.move.Start?)
  {
  }

  // Leaving queued/ unfinished is being started.
  lemma StaysQueued(c: Config, s: State, l: Label, s': State, source: Source, k: TaskId)
    requires SlotsOk(s.files, s.born, s.clock) && Next(c, s, l, s')
    requires In(s.files, k, Queued) && k in Unfinished(s'.files, source) && !In(s'.files, k, Queued)
    ensures l == Main(StartNext) && s.main.Starting? && s.main.pending != [] && s.main.pending[0] == k
  {
    match l
    case Main(a) => LeavesByStart(s.files, s.born, MainCall(c, s, a), s.clock, source, k);
    case OfRun(r, a) => LeavesByStart(s.files, s.born, RunCall(s, r, a), s.clock, source, k);
    case OfEnqueue(e, a) => LeavesByStart(s.files, s.born, EnqueueCall(s, e, a), s.clock, source, k);
    case _ =>
  }

  // A turn of the call itself.
  lemma CoveredOwnTurn(s: State, e: TaskId, a: EnqueueAct, source: Source, running: set<TaskId>, more: set<TaskId>,
                       missed: set<TaskId>)
    requires SlotsOk(s.files, s.born, s.clock) && AllCovered(s, e, source, running, more, missed)
    requires EnqueueEnabled(s, e, a) && a.ReadRecord?
    ensures AllCovered(EnqueueStep(s, e, a), e, source, running, more, missed)
  {
    var s' := EnqueueStep(s, e, a);
    assert s'.enqueues[e] == EnqueueAfter(s, e, a) && s'.files == s.files;
    forall k | k in Unfinished(s.files, source) ensures Covers(s', e, running, more, missed, k) {
      assert Covers(s, e, running, more, missed, k);
    }
  }

  // Anybody else's step.
  lemma CoveredElsewhere(c: Config, s: State, l: Label, s': State, e: TaskId, source: Source, running: set<TaskId>,
                         more: set<TaskId>, missed: set<TaskId>)
    requires SlotsOk(s.files, s.born, s.clock) && AllCovered(s, e, source, running, more, missed)
    requires Next(c, s, l, s') && e in s'.enqueues && s'.enqueues[e] == s.enqueues[e] && e in s'.born
    requires s'.born[e] == s.born[e]
    ensures AllCovered(s', e, source, running, more + (if InsertsOn(l, source) then {l.id} else {}),
                       missed + (if StartsUnread(s, l, e) then {s.main.pending[0]} else {}))
  {
    var more' := more + if InsertsOn(l, source) then {l.id} else {};
    var missed' := missed + if StartsUnread(s, l, e) then {s.main.pending[0]} else {};
    UnfinishedStep(c, s, l, s', source);
    forall k | k in Unfinished(s'.files, source) ensures Covers(s', e, running, more', missed', k) {
      if k in Unfinished(s.files, source) {
        assert Covers(s, e, running, more, missed, k);
        if In(s.files, k, Queued) && !In(s'.files, k, Queued) { StaysQueued(c, s, l, s', source, k); }
      }
    }
  }

  lemma ListedNow(s: State, e: TaskId, source: Source)
    requires EnqueueEnabled(s, e, ReadQueue) && e in s.born && s.born[e].source == source
    ensures AllCovered(EnqueueStep(s, e, ReadQueue), e, source, InDirectory(s.files, Running), {}, {})
  {
    assert EnqueueStep(s, e, ReadQueue).enqueues[e] == Reading(InDirectory(s.files, Queued), {});
  }

  // Where call `e` is reading files, step p is its reading of the directory.
  ghost predicate ListsAt(t: Trace, p: nat, e: TaskId)
    requires p < |t.labels|
  {
    t.labels[p] == OfEnqueue(e, ReadQueue)
  }

  // After step m.
  lemma {:induction false} CoveredWhileReading(c: Config, t: Trace, m: nat, e: TaskId, source: Source) returns (p: nat)
    requires Behavior(c, t) && m < |t.labels|
    requires e in t.states[m + 1].enqueues && t.states[m + 1].enqueues[e].Reading?
    requires e in t.states[m + 1].born && t.states[m + 1].born[e].source == source
    ensures p <= m && ListsAt(t, p, e)
    ensures AllCovered(t.states[m + 1], e, source, InDirectory(t.states[p].files, Running),
                       InsertedSince(t, p, m + 1, source), StartedUnread(t, p, m + 1, e))
    decreases m
  {
    ReadingBefore(c, t, m, e);
    if ListsAt(t, m, e) {
      p := m;
      ListedAt(c, t, m, e, source);
    } else {
      p := CoveredWhileReading(c, t, m - 1, e, source);
      CoveredNext(c, t, p, m, e, source);
    }
  }

  // The call was reading before, or the step was its reading of the directory.
  lemma ReadingBefore(c: Config, t: Trace, m: nat, e: TaskId)
    requires Behavior(c, t) && m < |t.labels|
    requires e in t.states[m + 1].enqueues && t.states[m + 1].enqueues[e].Reading? && e in t.states[m + 1].born
    ensures e in t.states[m].born && t.states[m].born[e] == t.states[m + 1].born[e]
    ensures ListsAt(t, m, e) || (m > 0 && e in t.states[m].enqueues && t.states[m].enqueues[e].Reading?)
  {
    WfAt(c, t, m);
    WasReading(c, t.states[m], t.labels[m], t.states[m + 1], e);
  }

  lemma WasReading(c: Config, s: State, l: Label, s': State, e: TaskId)
    requires SerialsOk(s) && Next(c, s, l, s') && e in s'.enqueues && s'.enqueues[e].Reading? && e in s'.born
    ensures e in s.born && s.born[e] == s'.born[e]
    ensures l == OfEnqueue(e, ReadQueue) || (e in s.enqueues && s.enqueues[e].Reading?)
  {
  }

  lemma ListedAt(c: Config, t: Trace, p: nat, e: TaskId, source: Source)
    requires Behavior(c, t) && p < |t.labels| && ListsAt(t, p, e)
    requires e in t.states[p].born && t.states[p].born[e].source == source
    ensures AllCovered(t.states[p + 1], e, source, InDirectory(t.states[p].files, Running),
                       InsertedSince(t, p, p + 1, source), StartedUnread(t, p, p + 1, e))
  {
    assert Next(c, t.states[p], t.labels[p], t.states[p + 1]);
    ListedNow(t.states[p], e, source);
    assert InsertedSince(t, p, p, source) == {} && StartedUnread(t, p, p, e) == {};
  }

  lemma CoveredNext(c: Config, t: Trace, p: nat, k: nat, e: TaskId, source: Source)
    requires Behavior(c, t) && p < k < |t.labels|
    requires AllCovered(t.states[k], e, source, InDirectory(t.states[p].files, Running),
                        InsertedSince(t, p, k, source), StartedUnread(t, p, k, e))
    requires t.states[k].enqueues[e].Reading?
    requires e in t.states[k + 1].enqueues && t.states[k + 1].enqueues[e].Reading?
    ensures AllCovered(t.states[k + 1], e, source, InDirectory(t.states[p].files, Running),
                       InsertedSince(t, p, k + 1, source), StartedUnread(t, p, k + 1, e))
  {
    WfAt(c, t, k);
    CoveredStep(c, t.states[k], t.labels[k], t.states[k + 1], e, source, InDirectory(t.states[p].files, Running),
                InsertedSince(t, p, k, source), StartedUnread(t, p, k, e));
  }

  lemma CoveredStep(c: Config, s: State, l: Label, s': State, e: TaskId, source: Source, running: set<TaskId>,
                    more: set<TaskId>, missed: set<TaskId>)
    requires Wf(s) && AllCovered(s, e, source, running, more, missed) && Next(c, s, l, s')
    requires s.enqueues[e].Reading? && e in s'.enqueues && s'.enqueues[e].Reading?
    ensures AllCovered(s', e, source, running, more + (if InsertsOn(l, source) then {l.id} else {}),
                       missed + (if StartsUnread(s, l, e) then {s.main.pending[0]} else {}))
  {
    if l.OfEnqueue? && l.id == e {
      CoveredOwnTurn(s, e, l.enqAct, source, running, more, missed);
      assert more + {} == more && missed + {} == missed;
    } else {
      BornStays(c, s, l, s', e);
      CoveredElsewhere(c, s, l, s', e, source, running, more, missed);
    }
  }

  lemma BornStays(c: Config, s: State, l: Label, s': State, e: TaskId)
    requires Next(c, s, l, s') && e in s.born && e in s.enqueues && e in s'.enqueues && !(l.OfEnqueue? && l.id == e)
    ensures e in s'.born && s'.born[e] == s.born[e] && s'.enqueues[e] == s.enqueues[e]
  {
  }

  /* ---- The bound ---- */

  // Step q ends the search of call `e`, on the source, which has found `found`.
  ghost predicate FindsAt(t: Trace, q: nat, e: TaskId, source: Source, found: seq<TaskId>)
    requires q < |t.labels| < |t.states|
  {
    t.labels[q] == OfEnqueue(e, Found(found)) && e in t.states[q].born && t.states[q].born[e].source == source
  }

  lemma SplitFour(open: set<TaskId>, base: set<TaskId>, found: set<TaskId>, missed: set<TaskId>, more: set<TaskId>)
    requires open <= base + found + missed + more
    ensures |open| <= |base| + |open * found| + |open * missed| + |more|
  {
    assert open <= base + (open * found) + (open * missed) + more;
    CardMonotone(open, base + (open * found) + (open * missed) + more);
  }

  // In every behaviour, with no assumption on the calls: the unfinished tasks of a source number at most
  // the concurrency, plus one, plus the conflicts that an enqueue found and that are still unfinished,
  // plus those it missed because they were started between its reading of the directory (step p) and
  // of their file, plus the tasks inserted since step p. Requeues, sweeps, failing or overlapping
  // enqueues and crashes do not matter.
  lemma WaitingIsBounded(c: Config, t: Trace, q: nat, j: nat, e: TaskId, source: Source, found: seq<TaskId>)
    returns (p: nat)
    requires Behavior(c, t) && q < j < |t.states| && FindsAt(t, q, e, source, found)
    ensures p < q && ListsAt(t, p, e)
    ensures var open := Unfinished(t.states[j].files, source);
            |open| <= c.maxConcurrency + 1 + |open * Elements(found)| + |open * StartedUnread(t, p, q, e)|
                      + |InsertedSince(t, p, j, source)|
  {
    SearchEnds(c, t, q, e, source, found);
    p := CoveredWhileReading(c, t, q - 1, e, source);
    var running := InDirectory(t.states[p].files, Running);
    var open := Unfinished(t.states[j].files, source);
    InvAlong(c, t, p);
    UnfinishedSince(c, t, q, j, source);
    InsertedTogether(t, p, q, j, source);
    AtTheEnd(t.states[q], e, source, running, InsertedSince(t, p, q, source), StartedUnread(t, p, q, e), found);
    assert |running + {e}| <= |running| + 1;
    SplitFour(open, running + {e}, Elements(found), StartedUnread(t, p, q, e), InsertedSince(t, p, j, source));
  }

  lemma SearchEnds(c: Config, t: Trace, q: nat, e: TaskId, source: Source, found: seq<TaskId>)
    requires Behavior(c, t) && q < |t.labels| && FindsAt(t, q, e, source, found)
    ensures q > 0 && EnqueueEnabled(t.states[q], e, Found(found))
  {
    assert Next(c, t.states[q], t.labels[q], t.states[q + 1]);
  }

  lemma AtTheEnd(s: State, e: TaskId, source: Source, running: set<TaskId>, more: set<TaskId>, missed: set<TaskId>,
                 found: seq<TaskId>)
    requires AllCovered(s, e, source, running, more, missed) && EnqueueEnabled(s, e, Found(found))
    ensures Unfinished(s.files, source) <= running + {e} + Elements(found) + missed + more
  {
    forall k | k in Unfinished(s.files, source) ensures k in running + {e} + Elements(found) + missed + more {
      assert Covers(s, e, running, more, missed, k);
      assert k in Noted(s.enqueues[e]) ==> k in (set x | x in found);
    }
  }

  lemma {:induction false} InsertedTogether(t: Trace, p: nat, q: nat, j: nat, source: Source)
    requires p <= q <= j <= |t.labels|
    ensures InsertedSince(t, p, j, source) == InsertedSince(t, p, q, source) + InsertedSince(t, q, j, source)
  {
    if q < j {
      InsertedTogether(t, p, q, j - 1, source);
    }
  }

  // So once the conflicts an enqueue found are superseded, if no task it had listed was started before
  // it read it, and until the next insert, at most one task waits beside the running ones.
  lemma AtMostOneWaits(c: Config, t: Trace, p: nat, q: nat, j: nat, e: TaskId, source: Source, found: seq<TaskId>)
    requires Behavior(c, t) && p < q < j < |t.states| && ListsAt(t, p, e) && FindsAt(t, q, e, source, found)
    requires forall k :: p <= k < j ==> !InsertsOn(t.labels[k], source)
    requires forall k :: p <= k < q ==> !StartsUnread(t.states[k], t.labels[k], e)
    requires forall id :: id in found ==> id !in Unfinished(t.states[j].files, source)
    ensures |Unfinished(t.states[j].files, source)| <= c.maxConcurrency + 1
  {
    var r := WaitingIsBounded(c, t, q, j, e, source, found);
    ListsOnce(c, t, p, r, e);
    NoneInserted(t, p, j, source);
    NoneMissed(t, p, q, e);
    var open := Unfinished(t.states[j].files, source);
    assert open * Elements(found) == {} && open * {} == {};
  }

  lemma {:induction false} NoneMissed(t: Trace, p: nat, j: nat, e: TaskId)
    requires p <= j <= |t.labels| < |t.states| && forall k :: p <= k < j ==> !StartsUnread(t.states[k], t.labels[k], e)
    ensures StartedUnread(t, p, j, e) == {}
  {
    if p < j {
      NoneMissed(t, p, j - 1, e);
    }
  }

  // A call reads the directory once.
  ghost predicate HasListed(s: State, e: TaskId) {
    e in s.born && (e in s.enqueues ==> !s.enqueues[e].Inserted?)
  }

  lemma ListedStays(c: Config, s: State, l: Label, s': State, e: TaskId)
    requires Next(c, s, l, s') && (HasListed(s, e) || (l == OfEnqueue(e, ReadQueue) && e in s.born))
    ensures HasListed(s', e)
  {
  }

  lemma {:induction false} ListedAlong(c: Config, t: Trace, p: nat, j: nat, e: TaskId)
    requires Behavior(c, t) && p <= j < |t.labels| && ListsAt(t, p, e)
    ensures HasListed(t.states[j + 1], e)
  {
    if p < j {
      ListedAlong(c, t, p, j - 1, e);
    } else {
      ListerIsBorn(c, t, p, e);
    }
    ListedNext(c, t, j, e);
  }

  lemma ListerIsBorn(c: Config, t: Trace, p: nat, e: TaskId)
    requires Behavior(c, t) && p < |t.labels| && ListsAt(t, p, e)
    ensures e in t.states[p].born
  {
    WfAt(c, t, p);
    assert Next(c, t.states[p], t.labels[p], t.states[p + 1]);
  }

  lemma ListedNext(c: Config, t: Trace, k: nat, e: TaskId)
    requires Behavior(c, t) && k < |t.labels|
    requires HasListed(t.states[k], e) || (ListsAt(t, k, e) && e in t.states[k].born)
    ensures HasListed(t.states[k + 1], e)
  {
    ListedStays(c, t.states[k], t.labels[k], t.states[k + 1], e);
  }

  lemma ListsOnce(c: Config, t: Trace, p: nat, r: nat, e: TaskId)
    requires Behavior(c, t) && p < |t.labels| && r < |t.labels| && ListsAt(t, p, e) && ListsAt(t, r, e)
    ensures p == r
  {
    if p < r {
      ListsNotAgain(c, t, p, r, e);
    } else if r < p {
      ListsNotAgain(c, t, r, p, e);
    }
  }

  lemma ListsNotAgain(c: Config, t: Trace, p: nat, r: nat, e: TaskId)
    requires Behavior(c, t) && p < r < |t.labels| && ListsAt(t, p, e)
    ensures !ListsAt(t, r, e)
  {
    ListedAlong(c, t, p, r - 1, e);
    assert Next(c, t.states[r], t.labels[r], t.states[r + 1]);
  }

  lemma {:induction false} NoneInserted(t: Trace, p: nat, j: nat, source: Source)
    requires p <= j <= |t.labels| && forall k :: p <= k < j ==> !InsertsOn(t.labels[k], source)
    ensures InsertedSince(t, p, j, source) == {}
  {
    if p < j {
      NoneInserted(t, p, j - 1, source);
    }
  }

  /* ---- Enqueues whose supersedes fail ---- */

  function InsertState(s: State, id: TaskId, source: Source, instruction: Instruction): State
    requires id !in s.born
  {
    EnqueueStep(s, id, Insert(source, instruction))
  }

  // An enqueue that finds `found` and fails to supersede any of it.
  lemma FailsToSupersede(c: Config, source: Source, s: State, id: TaskId, instruction: Instruction, found: seq<TaskId>)
    returns (w: Walk, u: State)
    requires id !in s.born && s.enqueues == map[]
    requires QueuedOnSource(s.files, source) - {id} == Elements(found) && |Elements(found)| == |found| && id !in s.files
    ensures Leads(c, s, w, u) && u == InsertState(s, id, source, instruction).(enqueues := map[])
  {
    var s1 := InsertState(s, id, source, instruction);
    assert QueuedOnSource(s1.files, source) - {id} == QueuedOnSource(s.files, source) - {id};
    w := EnqueueTurn(c, s, id, Insert(source, instruction), s1);
    var v := FindAndFail(c, source, s1, id, found);
    u := s1.(enqueues := map[]);
    w := And(c, s, w, s1, v, u);
  }

  lemma FindAndFail(c: Config, source: Source, s: State, id: TaskId, found: seq<TaskId>) returns (w: Walk)
    requires s.enqueues == map[id := Inserted] && id in s.born && s.born[id].source == source
    requires QueuedOnSource(s.files, source) - {id} == Elements(found) && |Elements(found)| == |found|
    ensures Leads(c, s, w, s.(enqueues := map[]))
  {
    var m: State;
    w, m := Finds(c, s, id, found);
    assert m.enqueues == map[id := Superseding(found)];
    var v := FailAndFinish(c, m, id, found);
    w := And(c, s, w, m, v, s.(enqueues := map[]));
  }

  lemma {:induction false} FailAndFinish(c: Config, s: State, id: TaskId, found: seq<TaskId>) returns (w: Walk)
    requires s.enqueues == map[id := Superseding(found)]
    ensures Leads(c, s, w, s.(enqueues := map[])) && NoInserts(w)
    decreases found
  {
    if found == [] {
      assert s.enqueues - {id} == map[];
      OneStep(c, s, OfEnqueue(id, Finish), s.(enqueues := map[]));
      w := Then(OfEnqueue(id, Finish), s.(enqueues := map[]), Here);
    } else {
      var m := s.(enqueues := map[id := Superseding(found[1..])]);
      assert s.enqueues[id := Superseding(found[1..])] == m.enqueues;
      assert Hop(c, s, OfEnqueue(id, Mark(false)), m);
      var v := FailAndFinish(c, m, id, found[1..]);
      w := Then(OfEnqueue(id, Mark(false)), m, v);
    }
  }

  // The ids 0 to n - 1.
  function Count(n: nat): (r: seq<TaskId>)
    ensures |r| == n && forall k :: 0 <= k < n ==> r[k] == k
  {
    seq(n, k requires 0 <= k < n => k)
  }

  lemma {:induction false} CountHas(n: nat)
    ensures |Elements(Count(n))| == n && forall id: TaskId :: id in Elements(Count(n)) <==> id < n
  {
    forall id: TaskId ensures id in Elements(Count(n)) <==> id < n {
      if id < n { assert Count(n)[id] == id; }
    }
    if n > 0 {
      CountHas(n - 1);
      assert Elements(Count(n)) == Elements(Count(n - 1)) + {n - 1};
    }
  }

  // The tasks 0 to n - 1 and no others were enqueued, on this source. The first `started` have left
  // queued/ for running/; the others are queued as they were enqueued, each for its own instruction.
  ghost predicate Piled(s: State, source: Source, started: nat, n: nat) {
    && started <= n
    && (forall id: TaskId :: id in s.files <==> id < n) && (forall id: TaskId :: id in s.born <==> id < n)
    && s.enqueues == map[]
    && (forall id: TaskId :: id < n ==> Shaped(s.files[id], source, id, if id < started then Running else Queued))
  }

  predicate Shaped(slot: Slot, source: Source, id: TaskId, dir: Status) {
    && slot.dir == dir && slot.task.status == dir && slot.task.id == id
    && slot.task.source == source && slot.task.instruction == id
  }

  function Waiting(started: nat, n: nat): seq<TaskId>
    requires started <= n
  {
    Count(n)[started..]
  }

  lemma WaitingHas(s: State, source: Source, started: nat, n: nat)
    requires Piled(s, source, started, n)
    ensures forall id :: id in Waiting(started, n) <==> started <= id < n
    ensures QueuedOnSource(s.files, source) == Elements(Waiting(started, n))
    ensures Unfinished(s.files, source) == Elements(Count(n))
  {
    CountHas(n);
    forall id ensures id in Waiting(started, n) <==> started <= id < n {
      if started <= id < n { assert Waiting(started, n)[id - started] == id; }
    }
  }

  lemma WaitingCount(k: nat, n: nat)
    requires k <= n
    ensures |Elements(Waiting(k, n))| == n - k
  {
    CountHas(k);
    CountHas(n);
    forall id: TaskId ensures id in Waiting(k, n) <==> k <= id < n {
      if k <= id < n { assert Waiting(k, n)[id - k] == id; }
    }
    assert Elements(Waiting(k, n)) == Elements(Count(n)) - Elements(Count(k));
    assert Elements(Count(k)) <= Elements(Count(n));
  }

  // What enqueues leave alone.
  ghost predicate Enqueued(s: State, u: State) {
    u == s.(files := u.files, born := u.born, serial := u.serial, lastCreatedAt := u.lastCreatedAt, enqueues := map[])
  }

  lemma PiledAfter(s: State, source: Source, started: nat, n: nat)
    requires Piled(s, source, started, n)
    ensures n !in s.born && n !in s.files
    ensures var u := InsertState(s, n, source, n).(enqueues := map[]);
            Piled(u, source, started, n + 1) && Enqueued(s, u)
  {
  }

  lemma OneMorePiled(c: Config, source: Source, s: State, started: nat, n: nat) returns (w: Walk, u: State)
    requires Piled(s, source, started, n)
    ensures Leads(c, s, w, u) && Piled(u, source, started, n + 1) && Enqueued(s, u)
  {
    WaitingHas(s, source, started, n);
    WaitingCount(started, n);
    PiledAfter(s, source, started, n);
    assert QueuedOnSource(s.files, source) - {n} == Elements(Waiting(started, n));
    w, u := FailsToSupersede(c, source, s, n, n, Waiting(started, n));
  }

  lemma {:induction false} PileUp(c: Config, source: Source, s: State, started: nat, n: nat, m: nat)
    returns (w: Walk, u: State)
    requires Piled(s, source, started, n) && n <= m
    ensures Leads(c, s, w, u) && Piled(u, source, started, m) && Enqueued(s, u)
    decreases m - n
  {
    if n == m {
      w, u := Here, s;
    } else {
      var v, k;
      v, k := OneMorePiled(c, source, s, started, n);
      w, u := PileUp(c, source, k, started, n + 1, m);
      w := And(c, s, v, k, w, u);
    }
  }

  // Supersedes that fail leave their victims queued, and then no bound holds: enqueues one after
  // another, whatever the concurrency, pile up any number of unfinished tasks on one source.
  lemma FailedMarksBreakTheBound(c: Config, source: Source, s0: State, n: nat) returns (w: Walk, s: State)
    requires Init(s0)
    ensures Leads(c, s0, w, s) && s.enqueues == map[]
    ensures |Unfinished(s.files, source)| == n
  {
    w, s := PileUp(c, source, s0, 0, 0, n);
    WaitingHas(s, source, 0, n);
    CountHas(n);
  }
}
