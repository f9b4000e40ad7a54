/**
 The webhook delivery cache: an insertion-ordered map with expiry times and a cap.

 It is held to a log of all recordings ever made, never trimmed: a delivery counts as seen when it
 is among the last `maxEntries` of the recordings that have not expired.
 */
module DeliveryDedup {
  import opened Domain

  type DeliveryId = nat

  datatype Entry = Entry(id: DeliveryId, expiry: int)

  datatype Options = Options(maxEntries: nat, ttlMs: int)

  // Drops entries from the front up to the first live one.
  function Evicted(entries: seq<Entry>, now: int): seq<Entry> {
    if entries != [] && entries[0].expiry <= now then Evicted(entries[1..], now) else entries
  }

  function Lookup(entries: seq<Entry>, id: DeliveryId): Option<int> {
    if entries == [] then None
    else if entries[0].id == id then Some(entries[0].expiry)
    else Lookup(entries[1..], id)
  }

  function Without(entries: seq<Entry>, id: DeliveryId): seq<Entry> {
    if entries == [] then []
    else if entries[0].id == id then entries[1..]
    else [entries[0]] + Without(entries[1..], id)
  }

  function Capped(o: Options, entries: seq<Entry>): seq<Entry> {
    if |entries| > o.maxEntries then entries[1..] else entries
  }

  // One call's answer and the entries it leaves.
  function Marked(o: Options, entries: seq<Entry>, id: DeliveryId, now: int): (bool, seq<Entry>) {
    var kept := Evicted(entries, now);
    var expiry := Lookup(kept, id);
    if expiry.Some? && expiry.value > now then (true, kept)
    else (false, Capped(o, (if expiry.Some? then Without(kept, id) else kept) + [Entry(id, now + o.ttlMs)]))
  }

  class DeliveryDedupCache {
    const options: Options
    var entries: seq<Entry>

    constructor (options: Options)
      ensures this.options == options && entries == []
    {
      this.options := options;
      entries := [];
    }

    method MarkSeen(id: DeliveryId, now: int) returns (seen: bool)
      modifies this
      ensures (seen, entries) == Marked(options, old(entries), id, now)
    {
      EvictExpired(now);
      var expiry := Lookup(entries, id);
      if expiry.Some? && expiry.value > now {
        return true;
      }
      if expiry.Some? {
        entries := Without(entries, id);
      }
      entries := entries + [Entry(id, now + options.ttlMs)];
      if |entries| > options.maxEntries {
        entries := entries[1..];
      }
      seen := false;
    }

    method EvictExpired(now: int)
      modifies this
      ensures entries == Evicted(old(entries), now)
    {
      while entries != []
        invariant Evicted(entries, now) == Evicted(old(entries), now)
        decreases |entries|
      {
        if entries[0].expiry > now {
          return;
        }
        entries := entries[1..];
      }
    }
  }

  /* ---- The log ---- */

  datatype Recording = Recording(id: DeliveryId, at: int)

  function Last<T>(s: seq<T>, k: nat): seq<T>
    requires k <= |s|
  {
    s[|s| - k..]
  }

  predicate Unexpired(o: Options, r: Recording, now: int) {
    r.at + o.ttlMs > now
  }

  function UnexpiredCount(o: Options, log: seq<Recording>, now: int): (n: nat)
    ensures n <= |log|
  {
    if log == [] then 0
    else UnexpiredCount(o, log[..|log| - 1], now) + if Unexpired(o, log[|log| - 1], now) then 1 else 0
  }

  function Min(a: nat, b: nat): nat {
    if a < b then a else b
  }

  // The recordings that count.
  function Window(o: Options, log: seq<Recording>, now: int): seq<Recording> {
    Last(log, Min(o.maxEntries, UnexpiredCount(o, log, now)))
  }

  predicate SeenInLog(o: Options, log: seq<Recording>, id: DeliveryId, now: int) {
    exists r :: r in Window(o, log, now) && r.id == id
  }

  function Logged(o: Options, log: seq<Recording>, id: DeliveryId, now: int): seq<Recording> {
    if SeenInLog(o, log, id, now) then log else log + [Recording(id, now)]
  }

  datatype Call = Call(id: DeliveryId, now: int)

  // The log, and the cache, after a sequence of calls, and all the answers given.
  function LogAfter(o: Options, calls: seq<Call>): seq<Recording> {
    if calls == [] then []
    else Logged(o, LogAfter(o, calls[..|calls| - 1]), calls[|calls| - 1].id, calls[|calls| - 1].now)
  }

  function CacheAfter(o: Options, calls: seq<Call>): seq<Entry> {
    if calls == [] then []
    else Marked(o, CacheAfter(o, calls[..|calls| - 1]), calls[|calls| - 1].id, calls[|calls| - 1].now).1
  }

  predicate Monotone(calls: seq<Call>) {
    forall i, j :: 0 <= i < j < |calls| ==> calls[i].now <= calls[j].now
  }

  function EntriesOf(o: Options, log: seq<Recording>): (r: seq<Entry>)
    ensures |r| == |log|
    ensures forall i :: 0 <= i < |log| ==> r[i] == Entry(log[i].id, log[i].at + o.ttlMs)
  {
    seq(|log|, i requires 0 <= i < |log| => Entry(log[i].id, log[i].at + o.ttlMs))
  }

  /* ---- Eviction ---- */

  predicate Ascending(entries: seq<Entry>) {
    forall i, j :: 0 <= i < j < |entries| ==> entries[i].expiry <= entries[j].expiry
  }

  // When expiries do not decrease, stopping at the first live entry evicts exactly the expired ones.
  lemma {:induction false} EvictsExactlyTheExpired(entries: seq<Entry>, now: int)
    requires Ascending(entries)
    ensures forall e :: e in Evicted(entries, now) <==> e in entries && e.expiry > now
  {
    if entries != [] {
      if entries[0].expiry <= now {
        EvictsExactlyTheExpired(entries[1..], now);
        assert entries == [entries[0]] + entries[1..];
      } else {
        assert forall i :: 0 <= i < |entries| ==> entries[i].expiry > now;
      }
    }
  }

  predicate InTime(log: seq<Recording>, now: int) {
    && (forall i, j :: 0 <= i < j < |log| ==> log[i].at <= log[j].at)
    && (forall i :: 0 <= i < |log| ==> log[i].at <= now)
  }

  // The unexpired recordings are the last ones.
  lemma {:induction false} UnexpiredAreLast(o: Options, log: seq<Recording>, now: int, t: int)
    requires InTime(log, t)
    ensures forall i :: 0 <= i < |log| ==> (Unexpired(o, log[i], now) <==> i >= |log| - UnexpiredCount(o, log, now))
  {
    if log != [] {
      UnexpiredAreLast(o, log[..|log| - 1], now, t);
      if !Unexpired(o, log[|log| - 1], now) && UnexpiredCount(o, log[..|log| - 1], now) > 0 {
        assert Unexpired(o, log[..|log| - 1][|log| - 2], now);
      }
    }
  }

  lemma LastTail(log: seq<Recording>, k: nat)
    requires 0 < k <= |log|
    ensures Last(log, k)[1..] == Last(log, k - 1) && Last(log, k)[0] == log[|log| - k]
  {
  }

  lemma {:induction false} EvictsToUnexpired(o: Options, log: seq<Recording>, k: nat, now: int, t: int)
    requires InTime(log, t) && k <= |log|
    ensures Evicted(EntriesOf(o, Last(log, k)), now) == EntriesOf(o, Last(log, Min(k, UnexpiredCount(o, log, now))))
  {
    UnexpiredAreLast(o, log, now, t);
    if k > 0 {
      var entries := EntriesOf(o, Last(log, k));
      assert entries[0] == Entry(log[|log| - k].id, log[|log| - k].at + o.ttlMs);
      if entries[0].expiry <= now {
        EntriesTail(o, Last(log, k));
        LastTail(log, k);
        EvictsToUnexpired(o, log, k - 1, now, t);
      }
    }
  }

  /* ---- Refinement ---- */

  // Recordings before the last k are past the cap or expired.
  predicate Cut(o: Options, log: seq<Recording>, k: nat, now: int)
    requires k <= |log|
  {
    k == o.maxEntries || k == |log| || !Unexpired(o, log[|log| - k - 1], now)
  }

  // The cache holds the last k recordings, no two of which share an id.
  ghost predicate Holds(o: Options, log: seq<Recording>, k: nat, now: int) {
    && InTime(log, now) && k <= |log| && k <= o.maxEntries
    && Cut(o, log, k, now)
    && Distinct(Last(log, k))
  }

  predicate Distinct(log: seq<Recording>) {
    forall i, j :: 0 <= i < j < |log| ==> log[i].id != log[j].id
  }

  lemma WindowOfHeld(o: Options, log: seq<Recording>, k: nat, t: int, now: int)
    requires Holds(o, log, k, t) && t <= now
    ensures Min(k, UnexpiredCount(o, log, now)) == Min(o.maxEntries, UnexpiredCount(o, log, now))
  {
    UnexpiredAreLast(o, log, now, t);
  }

  lemma {:induction false} LookupOf(o: Options, log: seq<Recording>, id: DeliveryId)
    ensures match Lookup(EntriesOf(o, log), id)
            case None => forall r :: r in log ==> r.id != id
            case Some(expiry) => exists r :: r in log && r.id == id && expiry == r.at + o.ttlMs
  {
    if log != [] {
      EntriesTail(o, log);
      if log[0].id == id {
        assert log[0] in log;
      } else {
        LookupOf(o, log[1..], id);
        assert forall r :: r in log ==> r == log[0] || r in log[1..];
      }
    }
  }

  lemma WindowUnexpired(o: Options, log: seq<Recording>, now: int, t: int)
    requires InTime(log, t)
    ensures forall r :: r in Window(o, log, now) ==> Unexpired(o, r, now)
  {
    UnexpiredAreLast(o, log, now, t);
  }

  lemma CutAtWindow(o: Options, log: seq<Recording>, t: int, now: int)
    requires InTime(log, t)
    ensures Cut(o, log, Min(o.maxEntries, UnexpiredCount(o, log, now)), now)
  {
    UnexpiredAreLast(o, log, now, t);
  }

  lemma DistinctLast(log: seq<Recording>, k: nat, n: nat)
    requires n <= k <= |log| && Distinct(Last(log, k))
    ensures Distinct(Last(log, n))
  {
    assert Last(log, n) == Last(log, k)[k - n..];
  }

  lemma WindowHeld(o: Options, log: seq<Recording>, k: nat, t: int, now: int)
    requires Holds(o, log, k, t) && t <= now
    ensures Holds(o, log, Min(o.maxEntries, UnexpiredCount(o, log, now)), now)
  {
    WindowOfHeld(o, log, k, t, now);
    CutAtWindow(o, log, t, now);
    DistinctLast(log, k, Min(o.maxEntries, UnexpiredCount(o, log, now)));
  }

  lemma DistinctGrows(log: seq<Recording>, r: Recording)
    requires Distinct(log) && forall q :: q in log ==> q.id != r.id
    ensures Distinct(log + [r])
  {
    forall i, j | 0 <= i < j < |log + [r]| ensures (log + [r])[i].id != (log + [r])[j].id {
      assert log[i] in log;
    }
  }

  lemma EntriesGrow(o: Options, log: seq<Recording>, r: Recording)
    ensures EntriesOf(o, log + [r]) == EntriesOf(o, log) + [Entry(r.id, r.at + o.ttlMs)]
  {
  }

  lemma EntriesTail(o: Options, log: seq<Recording>)
    requires log != []
    ensures EntriesOf(o, log)[1..] == EntriesOf(o, log[1..])
  {
  }

  lemma LastGrows(log: seq<Recording>, r: Recording, n: nat)
    requires n <= |log|
    ensures Last(log + [r], n + 1) == Last(log, n) + [r]
    ensures Last(log + [r], n) == (Last(log, n) + [r])[1..]
  {
  }

  lemma Recorded(o: Options, log: seq<Recording>, n: nat, r: Recording)
    requires n <= |log| && n <= o.maxEntries
    ensures Capped(o, EntriesOf(o, Last(log, n)) + [Entry(r.id, r.at + o.ttlMs)])
         == EntriesOf(o, Last(log + [r], Min(n + 1, o.maxEntries)))
  {
    LastGrows(log, r, n);
    EntriesGrow(o, Last(log, n), r);
    EntriesTail(o, Last(log, n) + [r]);
  }

  lemma RecordedHeld(o: Options, log: seq<Recording>, n: nat, r: Recording)
    requires Holds(o, log, n, r.at) && forall q :: q in Last(log, n) ==> q.id != r.id
    ensures Holds(o, log + [r], Min(n + 1, o.maxEntries), r.at)
  {
    LastGrows(log, r, n);
    DistinctGrows(Last(log, n), r);
    DistinctLast(log + [r], n + 1, Min(n + 1, o.maxEntries));
  }

  // What eviction leaves of the cache is the window of the log.
  lemma KeepsTheWindow(o: Options, log: seq<Recording>, k: nat, t: int, now: int)
    requires Holds(o, log, k, t) && t <= now
    ensures Evicted(EntriesOf(o, Last(log, k)), now) == EntriesOf(o, Window(o, log, now))
  {
    WindowOfHeld(o, log, k, t, now);
    EvictsToUnexpired(o, log, k, now, t);
  }

  lemma FoundInWindow(o: Options, log: seq<Recording>, t: int, id: DeliveryId, now: int)
    requires InTime(log, t)
    ensures var expiry := Lookup(EntriesOf(o, Window(o, log, now)), id);
            (expiry.Some? <==> SeenInLog(o, log, id, now)) && (expiry.Some? ==> expiry.value > now)
  {
    LookupOf(o, Window(o, log, now), id);
    WindowUnexpired(o, log, now, t);
  }

  function WindowSize(o: Options, log: seq<Recording>, now: int): nat {
    Min(o.maxEntries, UnexpiredCount(o, log, now))
  }

  // How many recordings the cache holds after the call.
  function HeldAfter(o: Options, log: seq<Recording>, id: DeliveryId, now: int): nat {
    var n := WindowSize(o, log, now);
    if SeenInLog(o, log, id, now) then n else Min(n + 1, o.maxEntries)
  }

  lemma LoggedHeld(o: Options, log: seq<Recording>, k: nat, t: int, id: DeliveryId, now: int)
    requires Holds(o, log, k, t) && t <= now
    ensures Holds(o, Logged(o, log, id, now), HeldAfter(o, log, id, now), now)
  {
    WindowHeld(o, log, k, t, now);
    if !SeenInLog(o, log, id, now) {
      RecordedHeld(o, log, WindowSize(o, log, now), Recording(id, now));
    }
  }

  lemma MarkedKept(o: Options, entries: seq<Entry>, kept: seq<Entry>, id: DeliveryId, now: int)
    requires Evicted(entries, now) == kept && (Lookup(kept, id).Some? ==> Lookup(kept, id).value > now)
    ensures Marked(o, entries, id, now) ==
              if Lookup(kept, id).Some? then (true, kept) else (false, Capped(o, kept + [Entry(id, now + o.ttlMs)]))
  {
  }

  // One call: the cache answers what the log says and keeps the window, plus what it records.
  lemma MarkedRefines(o: Options, log: seq<Recording>, k: nat, t: int, id: DeliveryId, now: int)
    requires Holds(o, log, k, t) && t <= now
    ensures HeldAfter(o, log, id, now) <= |Logged(o, log, id, now)|
    ensures Marked(o, EntriesOf(o, Last(log, k)), id, now)
         == (SeenInLog(o, log, id, now), EntriesOf(o, Last(Logged(o, log, id, now), HeldAfter(o, log, id, now))))
  {
    KeepsTheWindow(o, log, k, t, now);
    FoundInWindow(o, log, t, id, now);
    MarkedKept(o, EntriesOf(o, Last(log, k)), EntriesOf(o, Window(o, log, now)), id, now);
    if !SeenInLog(o, log, id, now) {
      Recorded(o, log, WindowSize(o, log, now), Recording(id, now));
    }
  }

  lemma HeldLater(o: Options, log: seq<Recording>, k: nat, t: int, now: int)
    requires Holds(o, log, k, t) && t <= now
    ensures Holds(o, log, k, now)
  {
  }

  lemma {:induction false} CacheRefinesLog(o: Options, calls: seq<Call>, now: int) returns (k: nat)
    requires Monotone(calls) && (calls != [] ==> calls[|calls| - 1].now <= now)
    ensures Holds(o, LogAfter(o, calls), k, now)
    ensures CacheAfter(o, calls) == EntriesOf(o, Last(LogAfter(o, calls), k))
  {
    if calls == [] {
      k := 0;
    } else {
      var last := calls[|calls| - 1];
      var log := LogAfter(o, calls[..|calls| - 1]);
      var k0 := CacheRefinesLog(o, calls[..|calls| - 1], last.now);
      MarkedRefines(o, log, k0, last.now, last.id, last.now);
      LoggedHeld(o, log, k0, last.now, last.id, last.now);
      k := HeldAfter(o, log, last.id, last.now);
      HeldLater(o, Logged(o, log, last.id, last.now), k, last.now, now);
    }
  }

  lemma HeldAnswers(o: Options, log: seq<Recording>, k: nat, id: DeliveryId, now: int)
    requires Holds(o, log, k, now)
    ensures Marked(o, EntriesOf(o, Last(log, k)), id, now).0 == SeenInLog(o, log, id, now)
    ensures Evicted(EntriesOf(o, Last(log, k)), now) == EntriesOf(o, Window(o, log, now))
    ensures Distinct(Window(o, log, now))
  {
    MarkedRefines(o, log, k, now, id, now);
    KeepsTheWindow(o, log, k, now, now);
    WindowHeld(o, log, k, now, now);
  }

  // With a clock that does not go back, the next call answers true exactly for the deliveries in the
  // window of the log, and eviction leaves exactly that window, in order, without repetition.
  lemma AnswersWhatTheLogSays(o: Options, calls: seq<Call>, id: DeliveryId, now: int)
    requires Monotone(calls) && (calls != [] ==> calls[|calls| - 1].now <= now)
    ensures var log := LogAfter(o, calls);
            && Marked(o, CacheAfter(o, calls), id, now).0 == SeenInLog(o, log, id, now)
            && Evicted(CacheAfter(o, calls), now) == EntriesOf(o, Window(o, log, now))
            && Distinct(Window(o, log, now))
  {
    var k := CacheRefinesLog(o, calls, now);
    HeldAnswers(o, LogAfter(o, calls), k, id, now);
  }

  // The cache never exceeds its cap, and its expiries never decrease: eviction may stop at the first
  // live entry.
  lemma CappedAndAscending(o: Options, calls: seq<Call>, now: int)
    requires Monotone(calls) && (calls != [] ==> calls[|calls| - 1].now <= now)
    ensures |CacheAfter(o, calls)| <= o.maxEntries && Ascending(CacheAfter(o, calls))
  {
    var k := CacheRefinesLog(o, calls, now);
  }
}
