/**
 The GitHub fetch wrapper: two retry budgets, an exponential backoff, and the pauses it writes.

 The wrapper's calls to the outside (fetch, sleep, the pause sink) are threaded as a trace. The
 reference it is held to reads no counters: it says of the k-th reply, from the replies before it,
 whether the wrapper tries again.
 */
module GithubFetch {
  import opened Domain
  import opened Protocol

  // A header as the code reads it: absent, or present and perhaps a finite number or a date.
  datatype Header = Absent | Present(number: Option<real>, date: Option<real>)

  datatype Response = Response(status: int, remaining: Header, reset: Header, retryAfter: Header, body: string)

  datatype Reply = Throws(error: string) | Replies(response: Response)

  // The three places that read the clock, each at most once per reply.
  datatype Site = Proactive | Parsing | Throwing

  // The k-th fetch's reply, and the clock readings around it; both arbitrary.
  datatype World = World(reply: nat -> Reply, now: (nat, Site) -> real)

  datatype Config = Config(
    hasSink: bool,
    proactiveThreshold: real,
    inlineRetryThresholdMs: real,
    cooldownMs: real,
    transientRetryLimit: int,
    transientBackoffBaseMs: real)

  datatype Kind = Primary | Secondary

  datatype Outcome =
    | Returned(response: Response)
    | NetworkError(error: string)
    | GithubRateLimited(kind: Kind, retryAfterMs: real, pausedUntil: real)

  datatype Event = Fetch | Sleep(ms: real) | Pause(until: real)

  datatype Result = Result(trace: seq<Event>, outcome: Outcome)

  function Max(x: real, y: real): real {
    if x < y then y else x
  }

  function Power(base: real, n: nat): real {
    if n == 0 then 1.0 else base * Power(base, n - 1)
  }

  function NumberHeader(h: Header): Option<real> {
    if h.Present? then h.number else None
  }

  predicate IsTransientServerError(r: Response) {
    r.status == 500 || r.status == 502 || r.status == 503 || r.status == 504
  }

  predicate IsRateLimitResponse(r: Response) {
    r.status == 429 || (r.status == 403 && (NumberHeader(r.remaining) == Some(0.0) || r.retryAfter.Present?))
  }

  function InferKind(r: Response): Kind {
    if NumberHeader(r.remaining) == Some(0.0) then Primary else Secondary
  }

  // A wait given in seconds, which takes precedence.
  predicate GivesSeconds(h: Header) {
    h.Present? && h.number.Some? && h.number.value >= 0.0
  }

  // The wait lasts until then, or is none at all if that has passed.
  predicate WaitsUntil(now: real, ms: real, end: real) {
    now + ms >= end && (ms > 0.0 ==> now + ms == end)
  }

  // Never negative; seconds win; a wait until a point in time ends then, or at once if that has passed.
  function ParseRetryAfterMs(r: Response, now: real): (ms: real)
    ensures ms >= 0.0
    ensures match r.retryAfter
            case Present(Some(seconds), _) => seconds >= 0.0 ==> ms == seconds * 1000.0
            case _ => true
    ensures match r.retryAfter
            case Present(number, Some(date)) =>
              !(number.Some? && number.value >= 0.0) ==> WaitsUntil(now, ms, date)
            case _ => true
    ensures r.retryAfter.Absent? || (r.retryAfter.date.None? && !GivesSeconds(r.retryAfter)) ==>
              match r.reset
              case Present(Some(epoch), _) => WaitsUntil(now, ms, epoch * 1000.0)
              case _ => ms == 0.0
  {
    if r.retryAfter.Present? && r.retryAfter.number.Some? && r.retryAfter.number.value >= 0.0 then
      r.retryAfter.number.value * 1000.0
    else if r.retryAfter.Present? && r.retryAfter.date.Some? then
      Max(0.0, r.retryAfter.date.value - now)
    else match NumberHeader(r.reset)
      case Some(epoch) => Max(0.0, epoch * 1000.0 - now)
      case None => 0.0
  }

  function TransientBackoffMs(cfg: Config, transientAttempt: nat): real {
    cfg.transientBackoffBaseMs * Power(3.0, transientAttempt)
  }

  function SafePause(cfg: Config, until: real): seq<Event> {
    if cfg.hasSink then [Pause(until)] else []
  }

  predicate LowOnQuota(cfg: Config, r: Response) {
    NumberHeader(r.remaining).Some? && NumberHeader(r.remaining).value < cfg.proactiveThreshold
  }

  // At least the cooldown, and not before the quota is reset.
  function ProactiveUntil(cfg: Config, r: Response, now: real): (until: real)
    ensures until >= now + cfg.cooldownMs
    ensures r.reset.Present? && r.reset.number.Some? ==> until >= r.reset.number.value * 1000.0
    ensures until == now + cfg.cooldownMs
            || (r.reset.Present? && r.reset.number.Some? && until == r.reset.number.value * 1000.0)
  {
    match NumberHeader(r.reset)
    case Some(epoch) => Max(epoch * 1000.0, now + cfg.cooldownMs)
    case None => now + cfg.cooldownMs
  }

  function MaybeProactivePause(cfg: Config, r: Response, now: real): seq<Event> {
    if LowOnQuota(cfg, r) then SafePause(cfg, ProactiveUntil(cfg, r, now)) else []
  }

  function Later(first: seq<Event>, rest: Result): Result {
    Result(first + rest.trace, rest.outcome)
  }

  function Budget(cfg: Config): nat {
    if cfg.transientRetryLimit < 0 then 0 else cfg.transientRetryLimit
  }

  // `k` counts the fetches made so far.
  function DoRequest(w: World, cfg: Config, attempt: nat, transientAttempt: nat, k: nat): Result
    decreases Budget(cfg) - transientAttempt, 1 - attempt
  {
    match w.reply(k)
    case Throws(error) =>
      if transientAttempt < cfg.transientRetryLimit then
        Later([Fetch, Sleep(TransientBackoffMs(cfg, transientAttempt))],
              DoRequest(w, cfg, attempt, transientAttempt + 1, k + 1))
      else
        Result([Fetch], NetworkError(error))
    case Replies(r) =>
      if IsTransientServerError(r) && transientAttempt < cfg.transientRetryLimit then
        Later([Fetch, Sleep(TransientBackoffMs(cfg, transientAttempt))],
              DoRequest(w, cfg, attempt, transientAttempt + 1, k + 1))
      else
        var before := [Fetch] + MaybeProactivePause(cfg, r, w.now(k, Proactive));
        if !IsRateLimitResponse(r) then
          Result(before, Returned(r))
        else
          var retryAfterMs := ParseRetryAfterMs(r, w.now(k, Parsing));
          if retryAfterMs <= cfg.inlineRetryThresholdMs && attempt == 0 then
            Later(before + [Sleep(Max(retryAfterMs, 0.0))], DoRequest(w, cfg, attempt + 1, transientAttempt, k + 1))
          else
            var pausedUntil := w.now(k, Throwing) + Max(retryAfterMs, cfg.cooldownMs);
            Result(before + SafePause(cfg, pausedUntil), GithubRateLimited(InferKind(r), retryAfterMs, pausedUntil))
  }

  function Request(w: World, cfg: Config): Result {
    DoRequest(w, cfg, 0, 0, 0)
  }

  /* ---- The reference: what each reply means, from the replies before it ---- */

  predicate Flaky(reply: Reply) {
    reply.Throws? || IsTransientServerError(reply.response)
  }

  predicate Limited(reply: Reply) {
    reply.Replies? && IsRateLimitResponse(reply.response)
  }

  // How many of the first k replies were transient failures, and how many rate limits.
  function FlakyBefore(w: World, k: nat): nat {
    if k == 0 then 0 else FlakyBefore(w, k - 1) + if Flaky(w.reply(k - 1)) then 1 else 0
  }

  function LimitedBefore(w: World, k: nat): nat {
    if k == 0 then 0 else LimitedBefore(w, k - 1) + if Limited(w.reply(k - 1)) then 1 else 0
  }

  function WaitAsked(w: World, k: nat): real
    requires Limited(w.reply(k))
  {
    ParseRetryAfterMs(w.reply(k).response, w.now(k, Parsing))
  }

  // The k-th reply is followed by another fetch: a transient failure with budget left, or the
  // first rate limit if it asks for a short enough wait.
  predicate Retries(w: World, cfg: Config, k: nat) {
    if Flaky(w.reply(k)) then FlakyBefore(w, k) < cfg.transientRetryLimit
    else Limited(w.reply(k)) && LimitedBefore(w, k) == 0 && WaitAsked(w, k) <= cfg.inlineRetryThresholdMs
  }

  // What the k-th reply makes of the request when it is the last.
  function Verdict(w: World, cfg: Config, k: nat): Outcome {
    match w.reply(k)
    case Throws(error) => NetworkError(error)
    case Replies(r) =>
      if IsRateLimitResponse(r) then
        GithubRateLimited(InferKind(r), WaitAsked(w, k), w.now(k, Throwing) + Max(WaitAsked(w, k), cfg.cooldownMs))
      else Returned(r)
  }

  function WaitedInline(w: World, k: nat): real {
    if k == 0 then 0.0 else WaitedInline(w, k - 1) + if Limited(w.reply(k - 1)) then WaitAsked(w, k - 1) else 0.0
  }

  function Fetches(trace: seq<Event>): nat {
    if trace == [] then 0 else (if trace[0].Fetch? then 1 else 0) + Fetches(trace[1..])
  }

  function Slept(trace: seq<Event>): real {
    if trace == [] then 0.0 else (if trace[0].Sleep? then trace[0].ms else 0.0) + Slept(trace[1..])
  }

  // What the wrapper does around the k-th reply, by the reference.
  predicate PausesProactively(w: World, cfg: Config, k: nat) {
    w.reply(k).Replies? && LowOnQuota(cfg, w.reply(k).response) && !(Flaky(w.reply(k)) && Retries(w, cfg, k))
  }

  function RoundPauses(w: World, cfg: Config, k: nat): seq<Event> {
    if PausesProactively(w, cfg, k) then SafePause(cfg, ProactiveUntil(cfg, w.reply(k).response, w.now(k, Proactive)))
    else []
  }

  function Wait(w: World, cfg: Config, k: nat): real {
    if Limited(w.reply(k)) then WaitAsked(w, k) else TransientBackoffMs(cfg, FlakyBefore(w, k))
  }

  function ErrorPause(w: World, cfg: Config, k: nat): seq<Event> {
    if Limited(w.reply(k)) then SafePause(cfg, Verdict(w, cfg, k).pausedUntil) else []
  }

  // The counters the wrapper passes along are those the reference counts.
  predicate CountersRight(w: World, cfg: Config, attempt: nat, transientAttempt: nat, k: nat) {
    && attempt == LimitedBefore(w, k) <= 1 && transientAttempt == FlakyBefore(w, k) <= Budget(cfg)
    && k == attempt + transientAttempt
  }

  function At(w: World, cfg: Config, k: nat): Result {
    DoRequest(w, cfg, LimitedBefore(w, k), FlakyBefore(w, k), k)
  }

  predicate Counted(w: World, cfg: Config, k: nat) {
    CountersRight(w, cfg, LimitedBefore(w, k), FlakyBefore(w, k), k)
  }

  // One turn of the wrapper: a retried reply...
  lemma Retried(w: World, cfg: Config, k: nat)
    requires Counted(w, cfg, k) && Retries(w, cfg, k)
    ensures At(w, cfg, k).trace == [Fetch] + RoundPauses(w, cfg, k) + [Sleep(Wait(w, cfg, k))] + At(w, cfg, k + 1).trace
    ensures At(w, cfg, k).outcome == At(w, cfg, k + 1).outcome
    ensures Counted(w, cfg, k + 1)
  {
    if Flaky(w.reply(k)) {
      assert [Fetch] + [] + [Sleep(Wait(w, cfg, k))] == [Fetch, Sleep(Wait(w, cfg, k))];
    }
  }

  // ... or a final one.
  lemma Final(w: World, cfg: Config, k: nat)
    requires Counted(w, cfg, k) && !Retries(w, cfg, k)
    ensures At(w, cfg, k).trace == [Fetch] + RoundPauses(w, cfg, k) + ErrorPause(w, cfg, k)
    ensures At(w, cfg, k).outcome == Verdict(w, cfg, k)
  {
    if !Limited(w.reply(k)) {
      assert [Fetch] + RoundPauses(w, cfg, k) + [] == [Fetch] + RoundPauses(w, cfg, k);
    }
  }

  function RetriesLeft(w: World, cfg: Config, k: nat): nat
    requires Counted(w, cfg, k)
  {
    Budget(cfg) - FlakyBefore(w, k) + 1 - LimitedBefore(w, k)
  }

  // The first reply from the k-th on that is not retried.
  lemma {:induction false} FirstFinal(w: World, cfg: Config, k: nat) returns (last: nat)
    requires Counted(w, cfg, k)
    ensures k <= last && (forall i :: k <= i < last ==> Retries(w, cfg, i)) && !Retries(w, cfg, last)
    ensures forall i :: k <= i <= last ==> Counted(w, cfg, i)
    decreases RetriesLeft(w, cfg, k)
  {
    last := k;
    if Retries(w, cfg, k) {
      Retried(w, cfg, k);
      last := FirstFinal(w, cfg, k + 1);
    }
  }

  /* ---- Totals of a trace ---- */

  function OnlyPauses(trace: seq<Event>): seq<Event> {
    if trace == [] then [] else (if trace[0].Pause? then [trace[0]] else []) + OnlyPauses(trace[1..])
  }

  lemma {:induction false} PausesConcat(a: seq<Event>, b: seq<Event>)
    ensures OnlyPauses(a + b) == OnlyPauses(a) + OnlyPauses(b)
  {
    if a == [] {
      assert a + b == b;
    } else {
      PausesConcat(a[1..], b);
      assert (a + b)[1..] == a[1..] + b;
    }
  }

  lemma {:induction false} Concat(a: seq<Event>, b: seq<Event>)
    ensures Fetches(a + b) == Fetches(a) + Fetches(b)
    ensures Slept(a + b) == Slept(a) + Slept(b)
    ensures OnlyPauses(a + b) == OnlyPauses(a) + OnlyPauses(b)
  {
    PausesConcat(a, b);
    if a == [] {
      assert a + b == b;
    } else {
      Concat(a[1..], b);
      assert (a + b)[1..] == a[1..] + b;
    }
  }

  predicate NoneOrOnePause(events: seq<Event>) {
    events == [] || (|events| == 1 && events[0].Pause?)
  }

  lemma OfPauses(events: seq<Event>)
    requires NoneOrOnePause(events)
    ensures Fetches(events) == 0 && Slept(events) == 0.0 && OnlyPauses(events) == events
  {
    if events != [] {
      assert events[1..] == [];
    }
  }

  lemma OfRound(pauses: seq<Event>, ms: real, rest: seq<Event>)
    requires NoneOrOnePause(pauses)
    ensures var trace := [Fetch] + pauses + [Sleep(ms)] + rest;
            && Fetches(trace) == 1 + Fetches(rest) && Slept(trace) == ms + Slept(rest)
            && OnlyPauses(trace) == pauses + OnlyPauses(rest)
  {
    OfPauses(pauses);
    Concat([Fetch], pauses);
    Concat([Fetch] + pauses, [Sleep(ms)]);
    Concat([Fetch] + pauses + [Sleep(ms)], rest);
  }

  lemma OfFinalRound(pauses: seq<Event>, last: seq<Event>)
    requires NoneOrOnePause(pauses) && NoneOrOnePause(last)
    ensures var trace := [Fetch] + pauses + last;
            Fetches(trace) == 1 && Slept(trace) == 0.0 && OnlyPauses(trace) == pauses + last
  {
    OfPauses(pauses);
    OfPauses(last);
    Concat([Fetch], pauses);
    Concat([Fetch] + pauses, last);
  }

  function Waits(w: World, cfg: Config, k: nat, last: nat): real
    requires k <= last
    decreases last - k
  {
    if k == last then 0.0 else Wait(w, cfg, k) + Waits(w, cfg, k + 1, last)
  }

  // The pauses of rounds k to last, in order, and the error's own pause after them.
  function PausesFrom(w: World, cfg: Config, k: nat, last: nat): seq<Event>
    requires k <= last
    decreases last - k
  {
    RoundPauses(w, cfg, k) + if k < last then PausesFrom(w, cfg, k + 1, last) else ErrorPause(w, cfg, last)
  }

  lemma {:induction false} Accounting(w: World, cfg: Config, k: nat, last: nat)
    requires k <= last && (forall i :: k <= i < last ==> Retries(w, cfg, i)) && !Retries(w, cfg, last)
    requires forall i :: k <= i <= last ==> Counted(w, cfg, i)
    ensures var r := At(w, cfg, k);
            && r.outcome == Verdict(w, cfg, last) && Fetches(r.trace) == last - k + 1
            && Slept(r.trace) == Waits(w, cfg, k, last) && OnlyPauses(r.trace) == PausesFrom(w, cfg, k, last)
    decreases last - k
  {
    if k == last {
      Final(w, cfg, k);
      OfFinalRound(RoundPauses(w, cfg, k), ErrorPause(w, cfg, k));
    } else {
      Retried(w, cfg, k);
      Accounting(w, cfg, k + 1, last);
      OfRound(RoundPauses(w, cfg, k), Wait(w, cfg, k), At(w, cfg, k + 1).trace);
    }
  }

  // The sum of the first t backoffs.
  function BackoffTotal(cfg: Config, t: nat): real {
    if t == 0 then 0.0 else BackoffTotal(cfg, t - 1) + TransientBackoffMs(cfg, t - 1)
  }

  lemma {:induction false} GeometricSum(cfg: Config, t: nat)
    ensures BackoffTotal(cfg, t) == cfg.transientBackoffBaseMs * (Power(3.0, t) - 1.0) / 2.0
  {
    if t > 0 {
      GeometricSum(cfg, t - 1);
      assert Power(3.0, t) == 3.0 * Power(3.0, t - 1);
    }
  }

  lemma {:induction false} WaitsAddUp(w: World, cfg: Config, k: nat, last: nat)
    requires k <= last && forall i :: k <= i < last ==> Retries(w, cfg, i)
    ensures Waits(w, cfg, k, last) ==
              BackoffTotal(cfg, FlakyBefore(w, last)) - BackoffTotal(cfg, FlakyBefore(w, k))
              + WaitedInline(w, last) - WaitedInline(w, k)
    decreases last - k
  {
    if k < last {
      WaitsAddUp(w, cfg, k + 1, last);
      assert Retries(w, cfg, k);
    }
  }

  // The wrapper stops at the first reply the reference does not retry and answers what that reply
  // means. It has slept the geometric sum of the backoffs and the one short wait it was asked for,
  // and paused for the replies low on quota, in order, then for the error it throws, if any.
  lemma StopsAtFirstFinalReply(w: World, cfg: Config) returns (last: nat)
    ensures (forall i :: 0 <= i < last ==> Retries(w, cfg, i)) && !Retries(w, cfg, last)
    ensures Request(w, cfg).outcome == Verdict(w, cfg, last)
    ensures Fetches(Request(w, cfg).trace) == 1 + FlakyBefore(w, last) + LimitedBefore(w, last) == 1 + last
    ensures FlakyBefore(w, last) <= Budget(cfg) && LimitedBefore(w, last) <= 1
    ensures Slept(Request(w, cfg).trace) == BackoffTotal(cfg, FlakyBefore(w, last)) + WaitedInline(w, last)
    ensures OnlyPauses(Request(w, cfg).trace) == PausesFrom(w, cfg, 0, last)
  {
    last := FirstFinal(w, cfg, 0);
    Accounting(w, cfg, 0, last);
    WaitsAddUp(w, cfg, 0, last);
    assert Counted(w, cfg, last);
  }

  lemma {:induction false} InlineWaitBound(w: World, cfg: Config, k: nat)
    requires forall i :: 0 <= i < k ==> Retries(w, cfg, i)
    ensures LimitedBefore(w, k) <= 1
    ensures LimitedBefore(w, k) == 0 ==> WaitedInline(w, k) == 0.0
    ensures LimitedBefore(w, k) == 1 ==> 0.0 <= WaitedInline(w, k) <= cfg.inlineRetryThresholdMs
  {
    if k > 0 {
      InlineWaitBound(w, cfg, k - 1);
      assert Retries(w, cfg, k - 1);
    }
  }

  lemma {:induction false} BackoffGrows(cfg: Config, m: nat, n: nat)
    requires cfg.transientBackoffBaseMs >= 0.0 && m <= n
    ensures BackoffTotal(cfg, m) <= BackoffTotal(cfg, n)
  {
    if m < n {
      BackoffGrows(cfg, m, n - 1);
      PowerPositive(n - 1);
      assert TransientBackoffMs(cfg, n - 1) >= 0.0;
    }
  }

  lemma {:induction false} PowerPositive(n: nat)
    ensures Power(3.0, n) >= 1.0
  {
    if n > 0 {
      PowerPositive(n - 1);
    }
  }

  function SleepBound(cfg: Config): real {
    Max(cfg.inlineRetryThresholdMs, 0.0) + BackoffTotal(cfg, Budget(cfg))
  }

  // Whatever GitHub and the network do, a request makes at most limit + 2 fetches, and its total
  // sleep is bounded.
  lemma Bounded(w: World, cfg: Config)
    requires cfg.transientBackoffBaseMs >= 0.0
    ensures Fetches(Request(w, cfg).trace) <= Budget(cfg) + 2
    ensures Slept(Request(w, cfg).trace) <= SleepBound(cfg)
  {
    var last := StopsAtFirstFinalReply(w, cfg);
    InlineWaitBound(w, cfg, last);
    BackoffGrows(cfg, FlakyBefore(w, last), Budget(cfg));
  }

  /* ---- On statuses and headers ---- */

  predicate IsZero(h: Header) {
    h.Present? && h.number == Some(0.0)
  }

  // The fetch throws, or GitHub answers that it cannot just now; not 501.
  predicate SaysTransient(reply: Reply) {
    reply.Throws? || reply.response.status in {500, 502, 503, 504}
  }

  // A 429, or a 403 with the quota used up or a wait to observe.
  predicate SaysLimited(reply: Reply) {
    && reply.Replies?
    && (reply.response.status == 429
        || (reply.response.status == 403 && (IsZero(reply.response.remaining) || reply.response.retryAfter.Present?)))
  }

  function TransientsBefore(w: World, k: nat): set<nat> {
    set i: nat | i < k && SaysTransient(w.reply(i))
  }

  function LimitsBefore(w: World, k: nat): set<nat> {
    set i: nat | i < k && SaysLimited(w.reply(i))
  }

  lemma {:induction false} TransientsCount(w: World, k: nat)
    ensures |TransientsBefore(w, k)| == FlakyBefore(w, k)
  {
    if k > 0 {
      var i: nat := k - 1;
      TransientsCount(w, i);
      assert TransientsBefore(w, k) == TransientsBefore(w, i) + if SaysTransient(w.reply(i)) then {i} else {};
    }
  }

  lemma {:induction false} LimitsCount(w: World, k: nat)
    ensures |LimitsBefore(w, k)| == LimitedBefore(w, k)
  {
    if k > 0 {
      var i: nat := k - 1;
      LimitsCount(w, i);
      assert LimitsBefore(w, k) == LimitsBefore(w, i) + if SaysLimited(w.reply(i)) then {i} else {};
    }
  }

  lemma CountsSay(w: World, k: nat)
    ensures |TransientsBefore(w, k)| == FlakyBefore(w, k) && |LimitsBefore(w, k)| == LimitedBefore(w, k)
    ensures Flaky(w.reply(k)) <==> SaysTransient(w.reply(k))
    ensures Limited(w.reply(k)) <==> SaysLimited(w.reply(k))
  {
    TransientsCount(w, k);
    LimitsCount(w, k);
  }

  // What the caller may conclude from each outcome: no 429 and no 403 with the quota used up or a wait
  // to observe is ever returned, and a transient failure surfaces only once its budget is spent.
  lemma OutcomeMeans(w: World, cfg: Config) returns (last: nat)
    ensures last + 1 == Fetches(Request(w, cfg).trace)
    ensures match Request(w, cfg).outcome
            case Returned(r) =>
              && w.reply(last) == Replies(r)
              && r.status != 429 && !(r.status == 403 && (IsZero(r.remaining) || r.retryAfter.Present?))
              && (r.status in {500, 502, 503, 504} ==> |TransientsBefore(w, last)| == Budget(cfg))
            case NetworkError(error) => w.reply(last) == Throws(error) && |TransientsBefore(w, last)| == Budget(cfg)
            case GithubRateLimited(kind, ms, until) =>
              && SaysLimited(w.reply(last))
              && ms == ParseRetryAfterMs(w.reply(last).response, w.now(last, Parsing))
              && until == w.now(last, Throwing) + (if ms < cfg.cooldownMs then cfg.cooldownMs else ms)
              && (ms > cfg.inlineRetryThresholdMs || |LimitsBefore(w, last)| == 1)
              && (kind.Primary? <==> IsZero(w.reply(last).response.remaining))
  {
    last := StopsAtFirstFinalReply(w, cfg);
    CountsSay(w, last);
  }

  // Which replies are followed by another fetch: a thrown error, 500, 502, 503 or 504 with budget left,
  // and the first rate limit if it asks for a short enough wait.
  lemma RetriedExactly(w: World, cfg: Config, k: nat)
    requires k < Fetches(Request(w, cfg).trace)
    ensures k + 1 < Fetches(Request(w, cfg).trace) <==>
              if SaysTransient(w.reply(k)) then |TransientsBefore(w, k)| < cfg.transientRetryLimit
              else
                && SaysLimited(w.reply(k)) && LimitsBefore(w, k) == {}
                && ParseRetryAfterMs(w.reply(k).response, w.now(k, Parsing)) <= cfg.inlineRetryThresholdMs
  {
    var last := StopsAtFirstFinalReply(w, cfg);
    CountsSay(w, k);
    assert Retries(w, cfg, k) <==> k < last;
  }

  // The reply, which is not retried as a transient failure, shows the quota running low.
  predicate LowRound(w: World, cfg: Config, k: nat) {
    && w.reply(k).Replies? && w.reply(k).response.remaining.Present?
    && w.reply(k).response.remaining.number.Some?
    && w.reply(k).response.remaining.number.value < cfg.proactiveThreshold
    && !(SaysTransient(w.reply(k)) && |TransientsBefore(w, k)| < cfg.transientRetryLimit)
  }

  function LowRounds(w: World, cfg: Config, k: nat, n: nat): set<nat> {
    set i: nat | k <= i < n && LowRound(w, cfg, i)
  }

  lemma RoundPausesWhenLow(w: World, cfg: Config, k: nat)
    ensures |RoundPauses(w, cfg, k)| == if cfg.hasSink && LowRound(w, cfg, k) then 1 else 0
  {
    CountsSay(w, k);
  }

  lemma {:induction false} PauseCountFrom(w: World, cfg: Config, k: nat, last: nat)
    requires k <= last && cfg.hasSink
    ensures |PausesFrom(w, cfg, k, last)| ==
              |LowRounds(w, cfg, k, last + 1)| + if SaysLimited(w.reply(last)) then 1 else 0
    decreases last - k
  {
    RoundPausesWhenLow(w, cfg, k);
    assert LowRounds(w, cfg, k, last + 1) ==
             (if LowRound(w, cfg, k) then {k} else {}) + LowRounds(w, cfg, k + 1, last + 1);
    if k < last {
      PauseCountFrom(w, cfg, k + 1, last);
    } else {
      assert LowRounds(w, cfg, k + 1, last + 1) == {};
    }
  }

  // With a sink, the request writes one pause for each reply that shows the quota running low, save those
  // retried as transient, and one for the rate-limit error it throws, if any. Without, none.
  lemma OnePausePerLowReply(w: World, cfg: Config)
    ensures |OnlyPauses(Request(w, cfg).trace)| ==
              if cfg.hasSink
              then |LowRounds(w, cfg, 0, Fetches(Request(w, cfg).trace))|
                   + if Request(w, cfg).outcome.GithubRateLimited? then 1 else 0
              else 0
  {
    var last := StopsAtFirstFinalReply(w, cfg);
    if cfg.hasSink {
      PauseCountFrom(w, cfg, 0, last);
    } else {
      NoSinkNoPauses(w, cfg, 0, last);
    }
  }

  lemma {:induction false} NoSinkNoPauses(w: World, cfg: Config, k: nat, last: nat)
    requires k <= last && !cfg.hasSink
    ensures PausesFrom(w, cfg, k, last) == []
    decreases last - k
  {
    if k < last {
      NoSinkNoPauses(w, cfg, k + 1, last);
    }
  }

  /* ---- The bounds are reached ---- */

  function WorstReply(cfg: Config, k: nat): Reply {
    if k < Budget(cfg) then Throws("")
    else if k == Budget(cfg) then
      Replies(Response(429, Absent, Absent, Present(Some(cfg.inlineRetryThresholdMs / 1000.0), None), ""))
    else Replies(Response(200, Absent, Absent, Absent, ""))
  }

  function Worst(cfg: Config): World {
    World((k: nat) => WorstReply(cfg, k), (_: nat, _: Site) => 0.0)
  }

  lemma {:induction false} WorstCounts(cfg: Config, k: nat)
    requires cfg.inlineRetryThresholdMs >= 0.0 && k <= Budget(cfg) + 1
    ensures FlakyBefore(Worst(cfg), k) == (if k <= Budget(cfg) then k else Budget(cfg))
    ensures LimitedBefore(Worst(cfg), k) == (if k <= Budget(cfg) then 0 else 1)
    ensures WaitedInline(Worst(cfg), k) == if k <= Budget(cfg) then 0.0 else cfg.inlineRetryThresholdMs
  {
    if k > 0 {
      WorstCounts(cfg, k - 1);
    }
  }

  lemma BoundsAreReached(cfg: Config)
    requires cfg.inlineRetryThresholdMs >= 0.0
    ensures Fetches(Request(Worst(cfg), cfg).trace) == Budget(cfg) + 2
    ensures Slept(Request(Worst(cfg), cfg).trace) == SleepBound(cfg)
  {
    var w := Worst(cfg);
    var last := StopsAtFirstFinalReply(w, cfg);
    var n := Budget(cfg);
    if last <= n {
      WorstCounts(cfg, last);
      assert Retries(w, cfg, last);
      assert false;
    }
    WorstCounts(cfg, n + 1);
  }

  /* ---- The pauses it writes ---- */

  // The clock that pauses are compared with counts whole milliseconds, so a fractional time holds as
  // long as the next whole one.
  function WholeMs(t: real): int {
    -(-t).Floor
  }

  // The store's github pause after the wrapper's pauses have been merged into it one by one.
  function Stored(pauses: map<Tool, int>, trace: seq<Event>): map<Tool, int>
    decreases trace
  {
    if trace == [] then pauses
    else if trace[0].Pause? then Stored(MaxMerge(pauses, GitHub, WholeMs(trace[0].until)), trace[1..])
    else Stored(pauses, trace[1..])
  }

  predicate PausedFor(pauses: map<Tool, int>, until: real) {
    GitHub in pauses && pauses[GitHub] >= WholeMs(until)
  }

  lemma {:induction false} StoredKeeps(pauses: map<Tool, int>, trace: seq<Event>, until: real)
    requires PausedFor(pauses, until) || Pause(until) in trace
    ensures PausedFor(Stored(pauses, trace), until)
    decreases trace
  {
    if trace != [] {
      if trace[0].Pause? {
        StoredKeeps(MaxMerge(pauses, GitHub, WholeMs(trace[0].until)), trace[1..], until);
      } else {
        StoredKeeps(pauses, trace[1..], until);
      }
    }
  }

  lemma {:induction false} LastPause(w: World, cfg: Config, k: nat, last: nat)
    requires k <= last && cfg.hasSink && Limited(w.reply(last))
    ensures Pause(Verdict(w, cfg, last).pausedUntil) in PausesFrom(w, cfg, k, last)
    decreases last - k
  {
    if k < last {
      LastPause(w, cfg, k + 1, last);
    }
  }

  lemma {:induction false} PausesAreEvents(trace: seq<Event>)
    ensures forall e :: e in OnlyPauses(trace) ==> e in trace
  {
    if trace != [] {
      PausesAreEvents(trace[1..]);
    }
  }

  // A request that fails with a rate limit leaves github paused until at least the error's time,
  // which is the wait asked for or the cooldown, whichever is longer, past the moment of the throw.
  lemma RateLimitLeavesAPause(w: World, cfg: Config, pauses: map<Tool, int>) returns (last: nat)
    requires cfg.hasSink && Request(w, cfg).outcome.GithubRateLimited?
    ensures var r := Request(w, cfg);
            && last + 1 == Fetches(r.trace)
            && r.outcome.pausedUntil == w.now(last, Throwing) + Max(r.outcome.retryAfterMs, cfg.cooldownMs)
            && PausedFor(Stored(pauses, r.trace), r.outcome.pausedUntil)
  {
    var r := Request(w, cfg);
    last := StopsAtFirstFinalReply(w, cfg);
    LastPause(w, cfg, 0, last);
    PausesAreEvents(r.trace);
    StoredKeeps(pauses, r.trace, r.outcome.pausedUntil);
  }
}
