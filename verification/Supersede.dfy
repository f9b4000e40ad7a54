/**
 Supersede-on-enqueue: where the `supersededBy` links go, and exactly when one can lead back.
 */
module Supersede {
  import opened Domain
  import opened Store
  import opened Scheduling
  import opened Protocol
  import opened Walks
  import opened Shape
  import opened Exclusion

  predicate OnSource(s: State, e: TaskId, source: Source) {
    e in s.enqueues && e in s.born && s.born[e].source == source
  }

  predicate IsInsert(l: Label) {
    l.OfEnqueue? && l.enqAct.Insert?
  }

  // An enqueue inserts its task while no other one on its source has still to read queued/.
  ghost predicate NoOverlap(s: State, l: Label) {
    IsInsert(l) ==> forall e :: OnSource(s, e, l.enqAct.source) ==> !s.enqueues[e].Inserted?
  }

  ghost predicate Sequential(t: Trace, n: nat)
    requires n <= |t.labels| < |t.states|
  {
    forall i :: 0 <= i < n ==> NoOverlap(t.states[i], t.labels[i])
  }

  /* ---- Links go forward ---- */

  // `newer` was enqueued after `id`, on the same source.
  predicate Later(born: map<TaskId, Birth>, id: TaskId, newer: TaskId) {
    && id in born && newer in born
    && born[newer].source == born[id].source
    && born[id].serial < born[newer].serial
  }

  ghost predicate LinksForward(files: Files, born: map<TaskId, Birth>) {
    forall id :: id in files && files[id].task.supersededBy.Some? ==> Later(born, id, files[id].task.supersededBy.value)
  }

  // Another task on the same source.
  predicate Beside(born: map<TaskId, Birth>, id: TaskId, e: TaskId) {
    id in born && e in born && born[id].source == born[e].source && id != e
  }

  function Rest(pc: EnqueuePc): seq<TaskId> {
    match pc
    case Superseding(rest) => rest
    case DroppingOld(_, rest) => rest
    case _ => []
  }

  function Noted(pc: EnqueuePc): set<TaskId> {
    if pc.Reading? then pc.found else {}
  }

  function Unread(pc: EnqueuePc): set<TaskId> {
    if pc.Reading? then pc.unread else {}
  }

  // Enqueued no later than `e`, should it be on the same source.
  predicate NotNewer(born: map<TaskId, Birth>, id: TaskId, e: TaskId) {
    Beside(born, id, e) ==> born[id].serial < born[e].serial
  }

  // What the enqueue is about to supersede is older and on its source; nothing newer has appeared
  // there before it reads the directory queued/.
  ghost predicate CallForward(born: map<TaskId, Birth>, e: TaskId, pc: EnqueuePc) {
    && (forall id :: id in Rest(pc) ==> Later(born, id, e))
    && (forall id :: id in Noted(pc) ==> Later(born, id, e))
    && (forall id :: id in Unread(pc) ==> id in born && NotNewer(born, id, e))
    && (pc.Inserted? ==> forall id :: id in born ==> NotNewer(born, id, e))
  }

  ghost predicate EnqueuesForward(enqueues: map<TaskId, EnqueuePc>, born: map<TaskId, Birth>) {
    forall e :: e in enqueues ==> CallForward(born, e, enqueues[e])
  }

  ghost predicate Forward(s: State) {
    Wf(s) && LinksForward(s.files, s.born) && EnqueuesForward(s.enqueues, s.born)
  }

  lemma LinksAfterCall(files: Files, born: map<TaskId, Birth>, call: StoreCall, clock: int)
    requires LinksForward(files, born)
    requires call.Put? ==> call.task.supersededBy.None?
    requires call.Transition? && call.move.Replace? ==> Later(born, call.id, call.move.newer)
    requires call.Transition? && call.id in files ==> files[call.id].task.id == call.id
    ensures LinksForward(Performed(files, call, clock), born)
  {
  }

  // A call's list is not touched by a later insert, unless it has still to read queued/.
  lemma ForwardGrows(born: map<TaskId, Birth>, e: TaskId, pc: EnqueuePc, id: TaskId, b: Birth)
    requires CallForward(born, e, pc) && e in born && id !in born
    requires pc.Inserted? ==> b.source != born[e].source
    ensures CallForward(born[id := b], e, pc)
  {
    var born' := born[id := b];
    assert forall k :: k in born ==> born'[k] == born[k];
    forall k | k in born' && (pc.Inserted? || k in Unread(pc)) ensures NotNewer(born', k, e) {
      if k != id { assert NotNewer(born, k, e); }
    }
  }

  lemma NewestForward(born: map<TaskId, Birth>, serial: nat, id: TaskId, b: Birth)
    requires id !in born && b.serial == serial && forall k :: k in born ==> born[k].serial < serial
    ensures CallForward(born[id := b], id, Inserted)
  {
  }

  lemma InsertForward(s: State, id: TaskId, source: Source, instruction: Instruction)
    requires Forward(s) && id !in s.born && NoOverlap(s, OfEnqueue(id, Insert(source, instruction)))
    ensures var s' := EnqueueStep(s, id, Insert(source, instruction));
            LinksForward(s'.files, s'.born) && EnqueuesForward(s'.enqueues, s'.born)
  {
    var a := Insert(source, instruction);
    var b := Birth(s.serial, source, instruction);
    LinksAfterCall(s.files, s.born[id := b], EnqueueCall(s, id, a), s.clock);
    NewestForward(s.born, s.serial, id, b);
    CallsForward(s, id, source, b);
  }

  // The calls under way.
  lemma CallsForward(s: State, id: TaskId, source: Source, b: Birth)
    requires EnqueuesForward(s.enqueues, s.born) && s.enqueues.Keys <= s.born.Keys && id !in s.born
    requires b.source == source && forall e :: OnSource(s, e, source) ==> !s.enqueues[e].Inserted?
    ensures forall e :: e in s.enqueues ==> CallForward(s.born[id := b], e, s.enqueues[e])
  {
    forall e | e in s.enqueues ensures CallForward(s.born[id := b], e, s.enqueues[e]) {
      assert OnSource(s, e, source) ==> !s.enqueues[e].Inserted?;
      ForwardGrows(s.born, e, s.enqueues[e], id, b);
    }
  }

  lemma MarkLeadsOn(s: State, id: TaskId, a: EnqueueAct)
    requires EnqueuesForward(s.enqueues, s.born) && EnqueueEnabled(s, id, a)
    ensures var call := EnqueueCall(s, id, a);
            call.Transition? && call.move.Replace? ==> Later(s.born, call.id, call.move.newer)
  {
    if a.Mark? {
      assert CallForward(s.born, id, s.enqueues[id]) && s.enqueues[id].rest[0] in Rest(s.enqueues[id]);
    }
  }

  lemma EnqueueForward(s: State, id: TaskId, a: EnqueueAct)
    requires Forward(s) && EnqueueEnabled(s, id, a) && !a.Insert?
    ensures var s' := EnqueueStep(s, id, a); LinksForward(s'.files, s.born) && EnqueuesForward(s'.enqueues, s.born)
  {
    CallLinksForward(s, id, a);
    if !a.Finish? { TurnForward(s, id, a); }
  }

  lemma CallLinksForward(s: State, id: TaskId, a: EnqueueAct)
    requires SlotsOk(s.files, s.born, s.clock) && LinksForward(s.files, s.born)
    requires EnqueuesForward(s.enqueues, s.born) && EnqueueEnabled(s, id, a) && !a.Insert?
    ensures LinksForward(EnqueueStep(s, id, a).files, s.born)
  {
    MarkLeadsOn(s, id, a);
    LinksAfterCall(s.files, s.born, EnqueueCall(s, id, a), s.clock);
  }

  // The call's own list stays one of older tasks on its source.
  lemma TurnForward(s: State, id: TaskId, a: EnqueueAct)
    requires SlotsOk(s.files, s.born, s.clock) && EnqueueEnabled(s, id, a) && !a.Insert? && !a.Finish?
    requires CallForward(s.born, id, s.enqueues[id])
    ensures CallForward(s.born, id, EnqueueAfter(s, id, a))
  {
    match a
    case ReadQueue =>
      forall k | k in InDirectory(s.files, Queued) ensures k in s.born && NotNewer(s.born, k, id) {
        assert SlotOk(s.files[k], k, s.born, s.clock);
      }
    case ReadRecord(k) =>
      if Conflicts(s, id, k) {
        assert SlotOk(s.files[k], k, s.born, s.clock);
        assert k in Unread(s.enqueues[id]) && Beside(s.born, k, id);
      }
    case Found(order) =>
      forall k | k in order ensures Later(s.born, k, id) {
        assert k in (set x | x in order);
        assert k in Noted(s.enqueues[id]);
      }
    case Mark(_) => RestShrinks(s.born, id, s.enqueues[id].rest);
    case DropOld =>
    case Insert(_, _) =>
    case Finish =>
  }

  lemma RestShrinks(born: map<TaskId, Birth>, id: TaskId, rest: seq<TaskId>)
    requires rest != [] && forall k :: k in rest ==> Later(born, k, id)
    ensures forall k :: k in rest[1..] ==> Later(born, k, id)
  {
  }

  lemma TornForward(c: Config, s: State, id: TaskId, move: Move)
    requires EnqueuesForward(s.enqueues, s.born) && id in s.files && UnderWay(c, s, id, move)
    ensures move.Replace? ==> Later(s.born, id, move.newer)
  {
    if move.Replace? {
      assert CallForward(s.born, move.newer, s.enqueues[move.newer]) && id in Rest(s.enqueues[move.newer]);
    }
  }

  lemma CrashForward(c: Config, s: State, torn: map<TaskId, Move>)
    requires LinksForward(s.files, s.born) && EnqueuesForward(s.enqueues, s.born) && Enabled(c, s, Crash(torn))
    ensures LinksForward(AfterCrash(s.files, torn, s.clock), s.born)
  {
    forall id | id in torn ensures torn[id].Replace? ==> Later(s.born, id, torn[id].newer) {
      TornForward(c, s, id, torn[id]);
    }
    LinksAfterCrash(s.files, s.born, torn, s.clock);
  }

  lemma LinksAfterCrash(files: Files, born: map<TaskId, Birth>, torn: map<TaskId, Move>, clock: int)
    requires LinksForward(files, born)
    requires forall id :: id in torn ==> (torn[id].Replace? ==> Later(born, id, torn[id].newer))
    ensures LinksForward(AfterCrash(files, torn, clock), born)
  {
  }

  lemma OthersForward(c: Config, s: State, l: Label)
    requires SlotsOk(s.files, s.born, s.clock) && LinksForward(s.files, s.born) && Enabled(c, s, l)
    requires l.Main? || l.OfRun?
    ensures LinksForward(After(c, s, l).files, s.born)
  {
    var call := if l.Main? then MainCall(c, s, l.act) else RunCall(s, l.run, l.runAct);
    LinksAfterCall(s.files, s.born, call, s.clock);
  }

  lemma ForwardStep(c: Config, s: State, l: Label, s': State)
    requires Forward(s) && Next(c, s, l, s') && NoOverlap(s, l)
    ensures Forward(s')
  {
    WfStep(c, s, l, s');
    if l.Main? || l.OfRun? {
      OthersForward(c, s, l);
    } else if l.OfEnqueue? {
      if l.enqAct.Insert? { InsertForward(s, l.id, l.enqAct.source, l.enqAct.instruction); }
      else { EnqueueForward(s, l.id, l.enqAct); }
    } else if l.Crash? {
      CrashForward(c, s, l.torn);
    }
  }

  lemma {:induction false} ForwardAlong(c: Config, t: Trace, i: nat)
    requires Behavior(c, t) && i < |t.states| && Sequential(t, i)
    ensures Forward(t.states[i])
  {
    if i == 0 {
      WfInit(t.states[0]);
    } else {
      ForwardAlong(c, t, i - 1);
      ForwardStep(c, t.states[i - 1], t.labels[i - 1], t.states[i]);
    }
  }

  // If no enqueue inserts while another on its source has still to read queued/, every link leads to a
  // strictly later enqueue on the same source, so no call supersedes its own task.
  lemma LinksLeadToLater(c: Config, t: Trace, i: nat, id: TaskId)
    requires Behavior(c, t) && i < |t.states| && Sequential(t, i)
    requires id in t.states[i].files && t.states[i].files[id].task.supersededBy.Some?
    ensures Later(t.states[i].born, id, t.states[i].files[id].task.supersededBy.value)
  {
    ForwardAlong(c, t, i);
  }

  // Following the links from `id`. They only go up in serial number, so this ends.
  ghost function ChainEnd(s: State, id: TaskId): (end: TaskId)
    requires Forward(s) && id in s.born
    ensures end in s.born && s.born[end].source == s.born[id].source && s.born[id].serial <= s.born[end].serial
    ensures end in s.files ==> s.files[end].task.supersededBy.None?
    decreases s.serial - s.born[id].serial
  {
    if id in s.files && s.files[id].task.supersededBy.Some? then ChainEnd(s, s.files[id].task.supersededBy.value)
    else id
  }

  /* ---- Exactly when a link can lead back ---- */

  predicate NoInserts(w: Walk)
    decreases w
  {
    w.Then? ==> !IsInsert(w.via) && NoInserts(w.rest)
  }

  // Some continuation without further enqueues makes a link that leads to an earlier enqueue.
  ghost predicate CanLinkBack(c: Config, s: State) {
    exists w, u :: Leads(c, s, w, u) && NoInserts(w) && !LinksForward(u.files, u.born)
  }

  lemma {:induction false} ForwardWalk(c: Config, s: State, w: Walk, u: State)
    requires Forward(s) && Leads(c, s, w, u) && NoInserts(w)
    ensures Forward(u)
    decreases w
  {
    if w.Then? {
      ForwardStep(c, s, w.via, w.to);
      ForwardWalk(c, w.to, w.rest, u);
    }
  }

  lemma {:induction false} AsSeq(some: set<TaskId>) returns (q: seq<TaskId>)
    ensures (set k | k in q) == some && |q| == |some|
    decreases |some|
  {
    if some == {} {
      return [];
    }
    var k :| k in some;
    var rest := AsSeq(some - {k});
    q := [k] + rest;
    assert forall x :: x in rest <==> x in some - {k};
    assert forall x :: x in q <==> x in some;
  }

  // The conflicts in an order that has `first` at its head.
  lemma FirstOf(some: set<TaskId>, first: TaskId) returns (q: seq<TaskId>)
    requires first in some
    ensures (set k | k in q) == some && |q| == |some| && q[0] == first
  {
    var rest := AsSeq(some - {first});
    q := [first] + rest;
    assert forall x :: x in rest <==> x in some - {first};
    assert forall x :: x in q <==> x in some;
  }

  predicate CallsOnly(w: Walk)
    decreases w
  {
    w.Then? ==> w.via.OfEnqueue? && !w.via.enqAct.Insert? && CallsOnly(w.rest)
  }

  lemma {:induction false} CallsOnlyJoined(v: Walk, w: Walk)
    requires CallsOnly(v) && CallsOnly(w)
    ensures CallsOnly(Joined(v, w))
    decreases v
  {
    if v.Then? {
      CallsOnlyJoined(v.rest, w);
    }
  }

  lemma {:induction false} CallsDoNotInsert(w: Walk)
    requires CallsOnly(w)
    ensures NoInserts(w)
    decreases w
  {
    if w.Then? {
      CallsDoNotInsert(w.rest);
    }
  }

  // A turn of a call that has inserted its task.
  lemma CallTurn(c: Config, s: State, w: Walk, m: State, e: TaskId, a: EnqueueAct) returns (r: Walk, u: State)
    requires Leads(c, s, w, m) && CallsOnly(w) && EnqueueEnabled(m, e, a) && !a.Insert?
    ensures u == EnqueueStep(m, e, a) && Leads(c, s, r, u) && CallsOnly(r)
  {
    u := EnqueueStep(m, e, a);
    OneStep(c, m, OfEnqueue(e, a), u);
    var v := Then(OfEnqueue(e, a), u, Here);
    LeadsOn(c, s, w, m, v, u);
    CallsOnlyJoined(w, v);
    r := Joined(w, v);
  }

  function ConflictsIn(s: State, e: TaskId, unread: set<TaskId>): set<TaskId>
    requires e in s.born
  {
    set k | k in unread && Conflicts(s, e, k)
  }

  function At(s: State, e: TaskId, pc: EnqueuePc): State {
    s.(enqueues := s.enqueues[e := pc])
  }

  lemma ReadTurn(s: State, e: TaskId, k: TaskId)
    requires EnqueueEnabled(s, e, ReadRecord(k))
    ensures var pc := s.enqueues[e];
            var more := if Conflicts(s, e, k) then pc.found + {k} else pc.found;
            && EnqueueStep(s, e, ReadRecord(k)) == At(s, e, Reading(pc.unread - {k}, more))
            && more + ConflictsIn(s, e, pc.unread - {k}) == pc.found + ConflictsIn(s, e, pc.unread)
  {
  }

  lemma SameConflicts(s: State, e: TaskId, pc: EnqueuePc, unread: set<TaskId>)
    requires e in s.born
    ensures ConflictsIn(At(s, e, pc), e, unread) == ConflictsIn(s, e, unread)
    ensures forall q :: At(At(s, e, pc), e, q) == At(s, e, q)
  {
    forall q ensures At(At(s, e, pc), e, q) == At(s, e, q) {
      assert s.enqueues[e := pc][e := q] == s.enqueues[e := q];
    }
  }

  // What a reading call comes to find, if nobody else takes a step.
  function ReadOut(s: State, e: TaskId): State
    requires e in s.enqueues && s.enqueues[e].Reading? && e in s.born
  {
    At(s, e, Reading({}, s.enqueues[e].found + ConflictsIn(s, e, s.enqueues[e].unread)))
  }

  lemma ReadsOneMore(c: Config, s: State, w: Walk, m: State, e: TaskId, k: TaskId) returns (v: Walk, u: State)
    requires Leads(c, s, w, m) && CallsOnly(w) && e in m.enqueues && m.enqueues[e].Reading? && e in m.born
    requires k in m.enqueues[e].unread
    ensures Leads(c, s, v, u) && CallsOnly(v) && e in u.enqueues && e in u.born
    ensures u.enqueues[e].Reading? && u.enqueues[e].unread == m.enqueues[e].unread - {k}
    ensures ReadOut(u, e) == ReadOut(m, e)
  {
    ReadTurn(m, e, k);
    v, u := CallTurn(c, s, w, m, e, ReadRecord(k));
    SameConflicts(m, e, u.enqueues[e], m.enqueues[e].unread - {k});
  }

  // With nobody else taking a step, a call reads the files it has listed.
  lemma {:induction false} ReadsAll(c: Config, s: State, w: Walk, m: State, e: TaskId) returns (v: Walk, u: State)
    requires Leads(c, s, w, m) && CallsOnly(w) && e in m.enqueues && m.enqueues[e].Reading? && e in m.born
    ensures Leads(c, s, v, u) && CallsOnly(v) && u == ReadOut(m, e)
    decreases if e in m.enqueues && m.enqueues[e].Reading? then m.enqueues[e].unread else {}
  {
    if m.enqueues[e].unread == {} {
      NothingToRead(m, e);
      v, u := w, m;
    } else {
      var k :| k in m.enqueues[e].unread;
      v, u := ReadsOneMore(c, s, w, m, e, k);
      v, u := ReadsAll(c, s, v, u, e);
    }
  }

  lemma NothingToRead(m: State, e: TaskId)
    requires e in m.enqueues && m.enqueues[e].Reading? && m.enqueues[e].unread == {} && e in m.born
    ensures ReadOut(m, e) == m
  {
    assert m.enqueues[e].found + ConflictsIn(m, e, {}) == m.enqueues[e].found;
    assert m.enqueues[e := m.enqueues[e]] == m.enqueues;
  }

  // With nobody else taking a step, a call finds every conflict, in any order.
  lemma Finds(c: Config, s: State, e: TaskId, order: seq<TaskId>) returns (w: Walk, u: State)
    requires e in s.enqueues && s.enqueues[e].Inserted? && e in s.born
    requires (set k | k in order) == QueuedOnSource(s.files, s.born[e].source) - {e}
    requires |order| == |QueuedOnSource(s.files, s.born[e].source) - {e}|
    ensures Leads(c, s, w, u) && CallsOnly(w) && u == At(s, e, Superseding(order))
  {
    assert Leads(c, s, Here, s);
    w, u := CallTurn(c, s, Here, s, e, ReadQueue);
    AllConflicts(s, e);
    SameConflicts(s, e, u.enqueues[e], InDirectory(s.files, Queued));
    w, u := ReadsAll(c, s, w, u, e);
    w, u := CallTurn(c, s, w, u, e, Found(order));
    SameConflicts(s, e, Reading({}, QueuedOnSource(s.files, s.born[e].source) - {e}), {});
  }

  lemma AllConflicts(s: State, e: TaskId)
    requires e in s.enqueues && s.enqueues[e].Inserted? && e in s.born
    ensures EnqueueStep(s, e, ReadQueue) == At(s, e, Reading(InDirectory(s.files, Queued), {}))
    ensures {} + ConflictsIn(s, e, InDirectory(s.files, Queued)) == QueuedOnSource(s.files, s.born[e].source) - {e}
  {
  }

  // `e`, which has still to read queued/, supersedes the task `id` just inserted.
  lemma LinksBack(c: Config, s: State, e: TaskId, id: TaskId)
    requires e in s.enqueues && s.enqueues[e].Inserted? && Beside(s.born, id, e) && In(s.files, id, Queued)
    requires s.files[id].task.source == s.born[e].source && s.born[e].serial < s.born[id].serial
    ensures CanLinkBack(c, s)
  {
    var order := FirstOf(QueuedOnSource(s.files, s.born[e].source) - {e}, id);
    var w, m := Finds(c, s, e, order);
    var v, u := CallTurn(c, s, w, m, e, Mark(true));
    CallsDoNotInsert(v);
    assert u.files[id].task.supersededBy == Some(e) && !Later(u.born, id, e);
  }

  lemma InsertedBeside(s: State, e: TaskId, id: TaskId, source: Source, instruction: Instruction)
    requires SerialsOk(s) && OnSource(s, e, source) && s.enqueues[e].Inserted? && id !in s.born
    ensures var s' := EnqueueStep(s, id, Insert(source, instruction));
            && e in s'.enqueues && s'.enqueues[e].Inserted? && Beside(s'.born, id, e) && In(s'.files, id, Queued)
            && s'.files[id].task.source == s'.born[e].source == source && s'.born[e].serial < s'.born[id].serial
            && id in s'.enqueues && s'.enqueues[id].Inserted?
            && (e in s.files <==> e in s'.files) && (e in s.files ==> s'.files[e] == s.files[e])
  {
  }

  // An insert makes a link back possible exactly when another enqueue on the source has still to read
  // queued/.
  lemma ExactlyWhenLinkedBack(c: Config, t: Trace, i: nat)
    requires Behavior(c, t) && i < |t.labels| && Sequential(t, i) && IsInsert(t.labels[i])
    ensures CanLinkBack(c, t.states[i + 1]) <==> !NoOverlap(t.states[i], t.labels[i])
  {
    ForwardAlong(c, t, i);
    var s, l, s' := t.states[i], t.labels[i], t.states[i + 1];
    assert Next(c, s, l, s');
    if NoOverlap(s, l) {
      ForwardStep(c, s, l, s');
      forall w, u | Leads(c, s', w, u) && NoInserts(w) ensures LinksForward(u.files, u.born) {
        ForwardWalk(c, s', w, u);
      }
    } else {
      var e :| OnSource(s, e, l.enqAct.source) && s.enqueues[e].Inserted?;
      InsertedBeside(s, e, l.id, l.enqAct.source, l.enqAct.instruction);
      LinksBack(c, s', e, l.id);
    }
  }

  /* ---- Exactly when the link back closes a cycle ---- */

  predicate Cycle(files: Files, a: TaskId, b: TaskId) {
    && a in files && files[a].task.supersededBy == Some(b)
    && b in files && files[b].task.supersededBy == Some(a)
  }

  // Some continuation without further enqueues makes the two tasks supersede each other.
  ghost predicate CanCycle(c: Config, s: State, a: TaskId, b: TaskId) {
    exists w, u :: Leads(c, s, w, u) && NoInserts(w) && Cycle(u.files, a, b)
  }

  lemma {:induction false} NoInsertsJoined(v: Walk, w: Walk)
    requires NoInserts(v) && NoInserts(w)
    ensures NoInserts(Joined(v, w))
    decreases v
  {
    if v.Then? {
      NoInsertsJoined(v.rest, w);
    }
  }

  lemma CanCycleEarlier(c: Config, s: State, v: Walk, m: State, a: TaskId, b: TaskId)
    requires Leads(c, s, v, m) && NoInserts(v) && CanCycle(c, m, a, b)
    ensures CanCycle(c, s, a, b)
  {
    var w, u :| Leads(c, m, w, u) && NoInserts(w) && Cycle(u.files, a, b);
    LeadsOn(c, s, v, m, w, u);
    NoInsertsJoined(v, w);
  }

  lemma FoundBothMark(c: Config, s: State, w: Walk, m: State, a: TaskId, b: TaskId)
    requires Leads(c, s, w, m) && CallsOnly(w) && a != b && In(m.files, a, Queued) && In(m.files, b, Queued)
    requires a in m.enqueues && m.enqueues[a].Superseding? && m.enqueues[a].rest != [] && m.enqueues[a].rest[0] == b
    requires b in m.enqueues && m.enqueues[b].Superseding? && m.enqueues[b].rest != [] && m.enqueues[b].rest[0] == a
    ensures CanCycle(c, s, a, b)
  {
    BothMarked(m, a, b);
    var v, n := CallTurn(c, s, w, m, a, Mark(true));
    var r, u := CallTurn(c, s, v, n, b, Mark(true));
    CallsDoNotInsert(r);
  }

  lemma BothMarked(m: State, a: TaskId, b: TaskId)
    requires a != b && In(m.files, a, Queued) && In(m.files, b, Queued)
    requires a in m.enqueues && m.enqueues[a].Superseding? && m.enqueues[a].rest != [] && m.enqueues[a].rest[0] == b
    requires b in m.enqueues && m.enqueues[b].Superseding? && m.enqueues[b].rest != [] && m.enqueues[b].rest[0] == a
    ensures var n := EnqueueStep(m, a, Mark(true));
            EnqueueEnabled(n, b, Mark(true)) && Cycle(EnqueueStep(n, b, Mark(true)).files, a, b)
  {
  }

  lemma BothMark(c: Config, s: State, a: TaskId, b: TaskId)
    requires a in s.enqueues && s.enqueues[a].Inserted? && b in s.enqueues && s.enqueues[b].Inserted?
    requires Beside(s.born, a, b) && In(s.files, a, Queued) && In(s.files, b, Queued)
    requires s.files[a].task.source == s.files[b].task.source == s.born[a].source
    ensures CanCycle(c, s, a, b)
  {
    var fa := FirstOf(QueuedOnSource(s.files, s.born[a].source) - {a}, b);
    var w1, s1 := Finds(c, s, a, fa);
    var fb := FirstOf(QueuedOnSource(s.files, s.born[b].source) - {b}, a);
    var w2, s2 := Finds(c, s1, b, fb);
    LeadsOn(c, s, w1, s1, w2, s2);
    CallsOnlyJoined(w1, w2);
    FoundBothMark(c, s, Joined(w1, w2), s2, a, b);
  }

  /* ---- A task that can come to be queued ---- */

  // The run can still requeue its task.
  predicate MayRequeue(run: Run, e: TaskId) {
    run.task == e && (run.pc.Executing? || run.pc.Pausing? || run.pc.Reverting?)
  }

  // Queued, or running with a run that can still requeue it.
  ghost predicate CanBeQueued(s: State, e: TaskId) {
    In(s.files, e, Queued) || (In(s.files, e, Running) && exists r :: r in s.runs && MayRequeue(s.runs[r], e))
  }

  // A run that is pausing tools has some left to pause.
  ghost predicate PausingHasTools(runs: map<RunId, Run>) {
    forall r :: r in runs && runs[r].pc.Pausing? ==> runs[r].pc.tools != []
  }

  lemma PausingStep(c: Config, s: State, l: Label, s': State)
    requires PausingHasTools(s.runs) && Next(c, s, l, s')
    ensures PausingHasTools(s'.runs)
  {
    if l.OfRun? && !l.runAct.Settle? {
      assert s'.runs == s.runs[l.run := Run(s.runs[l.run].task, RunAfter(c, s, l.run, l.runAct))];
    }
  }

  lemma {:induction false} PausingAlong(c: Config, t: Trace, i: nat)
    requires Behavior(c, t) && i < |t.states|
    ensures PausingHasTools(t.states[i].runs)
  {
    if i > 0 {
      PausingAlong(c, t, i - 1);
      PausingStep(c, t.states[i - 1], t.labels[i - 1], t.states[i]);
    }
  }

  // A run's turn, after a walk without inserts.
  lemma RunTurn(c: Config, s: State, w: Walk, m: State, r: RunId, a: RunAct) returns (v: Walk, u: State)
    requires Leads(c, s, w, m) && NoInserts(w) && RunEnabled(m, r, a)
    ensures u == RunStep(c, m, r, a) && Leads(c, s, v, u) && NoInserts(v)
  {
    u := RunStep(c, m, r, a);
    OneStep(c, m, OfRun(r, a), u);
    LeadsOn(c, s, w, m, Then(OfRun(r, a), u, Here), u);
    NoInsertsJoined(w, Then(OfRun(r, a), u, Here));
    v := Joined(w, Then(OfRun(r, a), u, Here));
  }

  // What a run's pausing and requeueing leave alone.
  ghost predicate SameCalls(s: State, u: State) {
    u.enqueues == s.enqueues && u.born == s.born
  }

  lemma {:induction false} PausesOut(c: Config, s: State, w: Walk, m: State, r: RunId) returns (v: Walk, u: State)
    requires Leads(c, s, w, m) && NoInserts(w) && r in m.runs && m.runs[r].pc.Pausing? && m.runs[r].pc.tools != []
    ensures Leads(c, s, v, u) && NoInserts(v) && SameCalls(m, u) && u.files == m.files && u.clock == m.clock
    ensures r in u.runs && u.runs[r] == Run(m.runs[r].task, Reverting)
    decreases if r in m.runs && m.runs[r].pc.Pausing? then |m.runs[r].pc.tools| else 0
  {
    v, u := RunTurn(c, s, w, m, r, PauseNext(true));
    if u.runs[r].pc.Pausing? {
      v, u := PausesOut(c, s, v, u, r);
    }
  }

  // A live run that has not been given an outcome comes to requeueing its task.
  lemma Limits(c: Config, s: State, r: RunId) returns (w: Walk, u: State)
    requires r in s.runs && MayRequeue(s.runs[r], s.runs[r].task) && PausingHasTools(s.runs)
    ensures Leads(c, s, w, u) && NoInserts(w) && SameCalls(s, u) && u.files == s.files && u.clock == s.clock
    ensures r in u.runs && u.runs[r] == Run(s.runs[r].task, Reverting)
  {
    assert Leads(c, s, Here, s);
    if s.runs[r].pc.Executing? {
      w, u := RunTurn(c, s, Here, s, r, ReturnsRateLimited([Named(0)]));
      if u.runs[r].pc.Pausing? {
        w, u := PausesOut(c, s, w, u, r);
      }
    } else if s.runs[r].pc.Pausing? {
      w, u := PausesOut(c, s, Here, s, r);
    } else {
      w, u := Here, s;
    }
  }

  lemma Requeues(c: Config, s: State, r: RunId) returns (w: Walk, u: State)
    requires r in s.runs && MayRequeue(s.runs[r], s.runs[r].task) && In(s.files, s.runs[r].task, Running)
    requires PausingHasTools(s.runs)
    ensures Leads(c, s, w, u) && NoInserts(w) && SameCalls(s, u)
    ensures u.files == s.files[s.runs[r].task := Moved(s.files[s.runs[r].task], Requeue, s.clock)]
  {
    w, u := Limits(c, s, r);
    w, u := RunTurn(c, s, w, u, r, RevertTask(true));
  }

  lemma QueuedBothMark(c: Config, s: State, e: TaskId, id: TaskId)
    requires e in s.enqueues && s.enqueues[e].Inserted? && id in s.enqueues && s.enqueues[id].Inserted?
    requires SlotsOk(s.files, s.born, s.clock) && PausingHasTools(s.runs)
    requires Beside(s.born, id, e) && In(s.files, id, Queued) && CanBeQueued(s, e)
    ensures CanCycle(c, s, e, id)
  {
    assert SlotOk(s.files[e], e, s.born, s.clock) && SlotOk(s.files[id], id, s.born, s.clock);
    if In(s.files, e, Queued) {
      BothMark(c, s, e, id);
    } else {
      var r :| r in s.runs && MayRequeue(s.runs[r], e);
      var w, u := Requeues(c, s, r);
      BothMark(c, u, e, id);
      CanCycleEarlier(c, s, w, u, e, id);
    }
  }

  // Out of queued/ for good, and without a link to `id`.
  ghost predicate OutForGood(s: State, e: TaskId, id: TaskId) {
    && e in s.born && !CanBeQueued(s, e)
    && (e in s.files ==> s.files[e].task.supersededBy != Some(id))
  }

  lemma OutAfterCall(files: Files, born: map<TaskId, Birth>, call: StoreCall, clock: int, e: TaskId)
    requires !In(files, e, Queued) && e in born
    requires call.Put? ==> call.task.id !in born
    requires call.Transition? ==> In(files, call.id, From(call.move))
    requires call.Transition? && call.id == e ==> !call.move.Requeue?
    ensures !In(Performed(files, call, clock), e, Queued)
    ensures In(Performed(files, call, clock), e, Running) ==> In(files, e, Running)
    ensures e in Performed(files, call, clock) ==>
              e in files && Performed(files, call, clock)[e].task.supersededBy == files[e].task.supersededBy
  {
  }

  lemma NoNewRun(c: Config, s: State, l: Label, s': State, e: TaskId)
    requires Next(c, s, l, s') && !In(s.files, e, Queued)
    ensures forall r :: r in s'.runs && MayRequeue(s'.runs[r], e) ==> r in s.runs && MayRequeue(s.runs[r], e)
  {
  }

  lemma OutStep(c: Config, s: State, l: Label, s': State, e: TaskId, id: TaskId)
    requires OutForGood(s, e, id) && Hop(c, s, l, s')
    ensures OutForGood(s', e, id)
  {
    NoNewRun(c, s, l, s', e);
    OutFiles(c, s, l, s', e);
  }

  lemma OutFiles(c: Config, s: State, l: Label, s': State, e: TaskId)
    requires e in s.born && !CanBeQueued(s, e) && Hop(c, s, l, s')
    ensures e in s'.born && !In(s'.files, e, Queued) && (In(s'.files, e, Running) ==> In(s.files, e, Running))
    ensures e in s'.files ==> e in s.files && s'.files[e].task.supersededBy == s.files[e].task.supersededBy
  {
    match l
    case Main(a) => OutAfterCall(s.files, s.born, MainCall(c, s, a), s.clock, e);
    case OfRun(r, a) => OutAfterCall(s.files, s.born, RunCall(s, r, a), s.clock, e);
    case OfEnqueue(k, a) => OutAfterCall(s.files, s.born, EnqueueCall(s, k, a), s.clock, e);
    case _ =>
  }

  lemma {:induction false} OutAlong(c: Config, s: State, w: Walk, u: State, e: TaskId, id: TaskId)
    requires OutForGood(s, e, id) && Leads(c, s, w, u)
    ensures OutForGood(u, e, id)
    decreases w
  {
    if w.Then? {
      OutStep(c, s, w.via, w.to, e, id);
      OutAlong(c, w.to, w.rest, u, e, id);
    }
  }

  // When an insert of `id` makes a link back to `e` possible, a continuation without a crash or further
  // enqueues can close a cycle exactly when the task of `e` is queued, or is running with a run that
  // can still requeue it.
  lemma ExactlyWhenCycled(c: Config, t: Trace, i: nat, e: TaskId)
    requires Behavior(c, t) && i < |t.labels| && Sequential(t, i) && IsInsert(t.labels[i])
    requires OnSource(t.states[i], e, t.labels[i].enqAct.source) && t.states[i].enqueues[e].Inserted?
    ensures CanCycle(c, t.states[i + 1], e, t.labels[i].id) <==> CanBeQueued(t.states[i], e)
  {
    ForwardAlong(c, t, i);
    PausingAlong(c, t, i + 1);
    var s, l, s' := t.states[i], t.labels[i], t.states[i + 1];
    assert Next(c, s, l, s');
    WfStep(c, s, l, s');
    InsertedBeside(s, e, l.id, l.enqAct.source, l.enqAct.instruction);
    assert s'.runs == s.runs;
    if CanBeQueued(s, e) {
      QueuedBothMark(c, s', e, l.id);
    } else {
      assert OutForGood(s', e, l.id);
      forall w, u | Leads(c, s', w, u) && NoInserts(w) ensures !Cycle(u.files, e, l.id) {
        OutAlong(c, s', w, u, e, l.id);
      }
    }
  }

  // Two overlapping enqueues on one source can supersede each other.
  lemma OverlappingEnqueuesMakeACycle(c: Config, source: Source, s0: State) returns (w: Walk, s: State)
    requires Init(s0)
    ensures Leads(c, s0, w, s) && Cycle(s.files, 1, 2)
  {
    var s1 := EnqueueStep(s0, 1, Insert(source, 0));
    var s2 := EnqueueStep(s1, 2, Insert(source, 0));
    w := EnqueueTurn(c, s0, 1, Insert(source, 0), s1);
    var v := EnqueueTurn(c, s1, 2, Insert(source, 0), s2);
    w := And(c, s0, w, s1, v, s2);
    BothMark(c, s2, 1, 2);
    v, s :| Leads(c, s2, v, s) && NoInserts(v) && Cycle(s.files, 1, 2);
    w := And(c, s0, w, s2, v, s);
  }
}
