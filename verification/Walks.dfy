/**
 Finite continuations of a state, without a crash.
 */
module Walks {
  import opened Protocol

  datatype Walk = Here | Then(via: Label, to: State, rest: Walk)

  ghost predicate Hop(c: Config, s: State, l: Label, s': State) {
    Next(c, s, l, s') && !l.Crash?
  }

  // `w` leads from `s` to `s'`.
  ghost predicate Leads(c: Config, s: State, w: Walk, s': State)
    decreases w
  {
    match w
    case Here => s == s'
    case Then(l, m, rest) => Hop(c, s, l, m) && Leads(c, m, rest, s')
  }

  function Joined(v: Walk, w: Walk): Walk {
    if v.Here? then w else Then(v.via, v.to, Joined(v.rest, w))
  }

  lemma {:induction false} LeadsOn(c: Config, s: State, v: Walk, m: State, w: Walk, s': State)
    requires Leads(c, s, v, m) && Leads(c, m, w, s')
    ensures Leads(c, s, Joined(v, w), s')
    decreases v
  {
    if v.Then? {
      LeadsOn(c, v.to, v.rest, m, w, s');
    }
  }

  lemma And(c: Config, s: State, v: Walk, m: State, w: Walk, u: State) returns (r: Walk)
    requires Leads(c, s, v, m) && Leads(c, m, w, u)
    ensures Leads(c, s, r, u)
  {
    LeadsOn(c, s, v, m, w, u);
    r := Joined(v, w);
  }

  lemma OneStep(c: Config, s: State, l: Label, m: State)
    requires Next(c, s, l, m) && !l.Crash?
    ensures Leads(c, s, Then(l, m, Here), m)
  {
    assert Leads(c, m, Here, m);
  }

  lemma EnqueueTurn(c: Config, s: State, id: nat, a: EnqueueAct, m: State) returns (w: Walk)
    requires EnqueueEnabled(s, id, a) && EnqueueStep(s, id, a) == m
    ensures Leads(c, s, w, m)
  {
    OneStep(c, s, OfEnqueue(id, a), m);
    w := Then(OfEnqueue(id, a), m, Here);
  }
}
