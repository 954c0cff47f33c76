/** The OpenRouter provider: one retry of the primary model, then a chain of fallback models against a deadline. */
module OpenRouter {
  import opened Prelude

  const RATE_LIMITED := 429
  const MAX_WAIT_MS := 30000.0
  const DEFAULT_WAIT_MS := 5000.0

  /** How a request ends: `fetch` or the body's JSON fails, a status that is not a success (`retryAfter` is absent when
      the body gives no number), a success whose text cannot be read at all, or a success with its analysis. */
  datatype Reply =
    | Broken
    | Refused(status: int, retryAfter: Option<real>)
    | Garbled
    | Answered(analysis: string)

  datatype Failure =
    | RequestFailed
    | ApiFailed(status: int)
    | FallbackTimedOut
    | ExhaustedAllModels
    | FailedAfterRetry
    | UnreadableText

  datatype Outcome = Success(analysis: string, model: string, latencyMs: int) | Failure(reason: Failure)

  /** The network and the clock: `reply(i)` ends the `i`-th request, `now(i)` is the `i`-th reading of the clock. */
  datatype World = World(reply: nat -> Reply, now: nat -> int)

  predicate Limited(r: Reply) { r.Refused? && r.status == RATE_LIMITED }

  function WaitMs(r: Reply): real
    requires r.Refused?
  {
    match r.retryAfter
    case Some(s) => if s > 0.0 then (if s * 1000.0 < MAX_WAIT_MS then s * 1000.0 else MAX_WAIT_MS) else DEFAULT_WAIT_MS
    case None => DEFAULT_WAIT_MS
  }

  lemma WaitBounds(r: Reply)
    requires r.Refused?
    ensures 0.0 < WaitMs(r) <= MAX_WAIT_MS
    ensures r.retryAfter.Some? && r.retryAfter.value > 30.0 ==> WaitMs(r) < r.retryAfter.value * 1000.0
  {
  }

  /** The wait is what the server asks for, up to half a minute, and five seconds if it asks for none. */
  lemma WaitMeaning(r: Reply, seconds: real)
    requires r.Refused?
    ensures r.retryAfter == None ==> WaitMs(r) == 5000.0
    ensures r.retryAfter == Some(seconds) && seconds <= 0.0 ==> WaitMs(r) == 5000.0
    ensures r.retryAfter == Some(seconds) && 0.0 < seconds <= 30.0 ==> WaitMs(r) == 1000.0 * seconds
    ensures r.retryAfter == Some(seconds) && seconds > 30.0 ==> WaitMs(r) == 30000.0
  {
  }

  /** What a caller sees of one call: the models asked in order, the waits between requests, the hops logged. */
  datatype Log = Log(models: seq<string>, waits: seq<real>, hops: seq<(string, string)>)

  function Plan(model: string, fallbacks: seq<string>): seq<string> { [model, model] + fallbacks }

  /** Reading 0 starts the call, readings 1 and 2 follow the two primary replies, reading 3 sets the deadline, and
      reading `i + 2` is taken before the plan's request `i`, if that is a fallback. */
  predicate InTime(w: World, timeoutMs: int, i: nat) { i < 2 || w.now(i + 2) < w.now(3) + timeoutMs }

  function Latency(w: World, n: nat): int { w.now(if n <= 2 then n else n + 2) - w.now(0) }

  /** How the call ends when its last request is the `n`-th of the plan. */
  function Verdict(plan: seq<string>, w: World, n: nat): Outcome
    requires 1 <= n <= |plan|
  {
    match w.reply(n - 1)
    case Broken => Failure(RequestFailed)
    case Garbled => Failure(UnreadableText)
    case Answered(analysis) => Success(analysis, plan[n - 1], Latency(w, n))
    case Refused(status, _) =>
      if status != RATE_LIMITED || |plan| == 2 then Failure(ApiFailed(status))
      else if n == |plan| then Failure(ExhaustedAllModels)
      else Failure(FallbackTimedOut)
  }

  /** Request `i` may be sent once request `i - 1` is known to have been rate limited. */
  predicate Due(w: World, timeoutMs: int, i: nat) { (i > 0 ==> Limited(w.reply(i - 1))) && InTime(w, timeoutMs, i) }

  /** Nothing stops the call before its first `n` requests are sent. */
  ghost predicate Reaches(w: World, timeoutMs: int, n: nat) {
    forall i: nat :: i < n ==> Due(w, timeoutMs, i)
  }

  function Hops(plan: seq<string>, n: nat): (hops: seq<(string, string)>)
    requires n <= |plan|
    ensures |hops| == if n <= 2 then 0 else n - 2
    ensures forall k :: 0 <= k < |hops| ==> hops[k] == (plan[k + 1], plan[k + 2])
  {
    if n <= 2 then [] else Hops(plan, n - 1) + [(plan[n - 2], plan[n - 1])]
  }

  lemma ReachesTwo(w: World, timeoutMs: int)
    requires Limited(w.reply(0))
    ensures Reaches(w, timeoutMs, 2)
  {
  }

  lemma NextRequest(plan: seq<string>, w: World, timeoutMs: int, n: nat)
    requires 2 <= n < |plan| && Reaches(w, timeoutMs, n) && Due(w, timeoutMs, n)
    ensures Reaches(w, timeoutMs, n + 1) && plan[..n + 1] == plan[..n] + [plan[n]]
    ensures Hops(plan, n + 1) == Hops(plan, n) + [(plan[n - 1], plan[n])]
  {
  }

  /** The contract of a call: it asks a prefix of the plan, each model only after a rate limit and each fallback only
      before the deadline, and goes on as long as the plan, the replies and the clock allow. */
  ghost predicate Lawful(plan: seq<string>, timeoutMs: int, w: World, outcome: Outcome, log: Log) {
    var n := |log.models|;
    && 1 <= n <= |plan|
    && log.models == plan[..n]
    && Reaches(w, timeoutMs, n)
    && (Limited(w.reply(n - 1)) ==> n == |plan| || !InTime(w, timeoutMs, n))
    && outcome == Verdict(plan, w, n)
    && log.hops == Hops(plan, n)
    && log.waits == if Limited(w.reply(0)) then [WaitMs(w.reply(0))] else []
  }

  /** The configured fallbacks without the primary model; a model configured twice stays twice. */
  function Without(model: string, configured: seq<string>): (r: seq<string>)
    ensures |r| <= |configured|
  {
    Filter(m => m != model, configured)
  }

  lemma WithoutMember(model: string, configured: seq<string>, m: string)
    ensures m in Without(model, configured) <==> m in configured && m != model
  {
    FilterMember(m => m != model, configured, m);
  }

  /** It keeps the order in which they are configured. */
  lemma WithoutAt(model: string, configured: seq<string>) returns (at: seq<nat>)
    ensures Enumerates(at, set k: nat | k < |configured| && configured[k] != model)
    ensures |Without(model, configured)| == |at|
    ensures forall j :: 0 <= j < |at| ==> at[j] < |configured| && Without(model, configured)[j] == configured[at[j]]
  {
    at := FilterAt(m => m != model, configured);
  }

  class OpenRouterProvider {
    const model: string
    const fallbackModels: seq<string>
    const fallbackTimeoutMs: int

    constructor (model: string, fallbackModels: seq<string>, fallbackTimeoutMs: int)
      ensures this.model == model && this.fallbackTimeoutMs == fallbackTimeoutMs
      ensures this.fallbackModels == Without(model, fallbackModels)
    {
      this.model := model;
      this.fallbackModels := Without(model, fallbackModels);
      this.fallbackTimeoutMs := fallbackTimeoutMs;
    }

    /** The two attempts on the primary model. */
    method Analyze(w: World) returns (outcome: Outcome, log: Log)
      ensures Lawful(Plan(model, fallbackModels), fallbackTimeoutMs, w, outcome, log)
    {
      log := Log([], [], []);
      ghost var plan := Plan(model, fallbackModels);
      var startMs := w.now(0);
      for attempt: nat := 0 to 2
        invariant attempt < 2 && log.hops == []
        invariant attempt == 0 ==> log.models == [] && log.waits == []
        invariant attempt == 1 ==> log.models == [model] && Limited(w.reply(0)) && log.waits == [WaitMs(w.reply(0))]
      {
        log := log.(models := log.models + [model]);
        assert log.models == plan[..attempt + 1];
        var res := w.reply(attempt);
        match res
        case Broken => return Failure(RequestFailed), log;
        case Refused(status, _) =>
          if status == RATE_LIMITED && attempt == 0 {
            log := log.(waits := log.waits + [WaitMs(res)]);
            continue;
          }
          if status == RATE_LIMITED {
            if |fallbackModels| > 0 {
              var deadlineMs := w.now(3) + fallbackTimeoutMs;
              outcome, log := AnalyzeFallback(w, deadlineMs, model, startMs, log);
              return;
            }
          }
          return Failure(ApiFailed(status)), log;
        case Garbled => return Failure(UnreadableText), log;
        case Answered(analysis) =>
          var latencyMs := w.now(attempt + 1) - startMs;
          return Success(analysis, model, latencyMs), log;
      }
      outcome := Failure(FailedAfterRetry);
    }

    /** The fallback chain; `from` is the model a hop leaves. */
    method AnalyzeFallback(w: World, deadlineMs: int, fromModel: string, startMs: int, sofar: Log)
      returns (outcome: Outcome, log: Log)
      requires fallbackModels != [] && fromModel == model && deadlineMs == w.now(3) + fallbackTimeoutMs
      requires startMs == w.now(0)
      requires Limited(w.reply(0)) && Limited(w.reply(1))
      requires sofar == Log([model, model], [WaitMs(w.reply(0))], [])
      ensures Lawful(Plan(model, fallbackModels), fallbackTimeoutMs, w, outcome, log)
    {
      ReachesTwo(w, fallbackTimeoutMs);
      hide WaitMs, Reaches, Hops, Limited;
      log := sofar;
      var from := fromModel;
      ghost var plan := Plan(model, fallbackModels);
      for k: nat := 0 to |fallbackModels|
        invariant log.models == plan[..k + 2] && from == plan[k + 1]
        invariant log.hops == Hops(plan, k + 2) && log.waits == sofar.waits
        invariant Reaches(w, fallbackTimeoutMs, k + 2) && Limited(w.reply(k + 1))
      {
        if w.now(k + 4) >= deadlineMs { return Failure(FallbackTimedOut), log; }
        var to := fallbackModels[k];
        NextRequest(plan, w, fallbackTimeoutMs, k + 2);
        log := log.(hops := log.hops + [(from, to)], models := log.models + [to]);
        var res := w.reply(k + 2);
        match res
        case Broken => return Failure(RequestFailed), log;
        case Refused(status, _) =>
          if status == RATE_LIMITED {
            from := to;
            continue;
          }
          return Failure(ApiFailed(status)), log;
        case Garbled => return Failure(UnreadableText), log;
        case Answered(analysis) =>
          var latencyMs := w.now(k + 5) - startMs;
          return Success(analysis, to, latencyMs), log;
      }
      outcome := Failure(ExhaustedAllModels);
    }
  }

  // ---------------------------------------------------------------- what the contract says

  /** The reply is a rate limit. */
  predicate TooMany(r: Reply) { r.Refused? && r.status == 429 }

  /** The requests of a call: the primary model, once more if it was rate limited, then the fallbacks one by one as
      long as each reply is a rate limit and the deadline has not come; and they do go on that long. */
  lemma RequestsMeaning(model: string, fallbacks: seq<string>, timeoutMs: int, w: World, outcome: Outcome, log: Log)
    requires Lawful(Plan(model, fallbacks), timeoutMs, w, outcome, log)
    ensures
      var n := |log.models|;
      && 1 <= n <= 2 + |fallbacks|
      && (forall i :: 0 <= i < n ==> log.models[i] == if i < 2 then model else fallbacks[i - 2])
      && (forall i: nat :: i < n - 1 ==> TooMany(w.reply(i)))
      && (forall k: nat :: 4 <= k < n + 2 ==> w.now(k) < w.now(3) + timeoutMs)
      && (TooMany(w.reply(n - 1)) ==> n == 2 + |fallbacks| || (n >= 2 && w.now(n + 2) >= w.now(3) + timeoutMs))
      && |log.hops| == (if n <= 2 then 0 else n - 2)
      && (forall k :: 0 <= k < |log.hops| ==> log.hops[k] == (log.models[k + 1], log.models[k + 2]))
      && log.waits == if TooMany(w.reply(0)) then [WaitMs(w.reply(0))] else []
  {
    var n := |log.models|;
    forall i: nat | i < n - 1 ensures TooMany(w.reply(i)) { assert Due(w, timeoutMs, i + 1); }
    forall k: nat | 4 <= k < n + 2 ensures w.now(k) < w.now(3) + timeoutMs { assert Due(w, timeoutMs, k - 2); }
    hide Verdict;
  }

  /** How a call ends, from the reply to its last request. */
  lemma OutcomeMeaning(model: string, fallbacks: seq<string>, timeoutMs: int, w: World, outcome: Outcome, log: Log)
    requires Lawful(Plan(model, fallbacks), timeoutMs, w, outcome, log)
    ensures
      var n := |log.models|;
      match w.reply(n - 1)
      case Answered(analysis) =>
        outcome == Success(analysis, log.models[n - 1], w.now(if n <= 2 then n else n + 2) - w.now(0))
      case Broken => outcome == Failure(RequestFailed)
      case Garbled => outcome == Failure(UnreadableText)
      case Refused(status, _) =>
        if status != 429 then outcome == Failure(ApiFailed(status))
        else if fallbacks == [] then outcome == Failure(ApiFailed(429))
        else if n == 2 + |fallbacks| then outcome == Failure(ExhaustedAllModels)
        else outcome == Failure(FallbackTimedOut)
  {
  }

  /** The contract leaves no choice: a world has one lawful outcome and one lawful log. */
  lemma LawfulUnique(plan: seq<string>, timeoutMs: int, w: World, o1: Outcome, l1: Log, o2: Outcome, l2: Log)
    requires Lawful(plan, timeoutMs, w, o1, l1) && Lawful(plan, timeoutMs, w, o2, l2)
    ensures o1 == o2 && l1 == l2
  {
    LawfulLength(plan, timeoutMs, w, o1, l1, o2, l2);
    LawfulLength(plan, timeoutMs, w, o2, l2, o1, l1);
  }

  lemma LawfulLength(plan: seq<string>, timeoutMs: int, w: World, o1: Outcome, l1: Log, o2: Outcome, l2: Log)
    requires Lawful(plan, timeoutMs, w, o1, l1) && Lawful(plan, timeoutMs, w, o2, l2)
    ensures |l2.models| <= |l1.models|
  {
    LastOne(plan, timeoutMs, w, o1, l1, |l2.models|);
  }

  lemma LastOne(plan: seq<string>, timeoutMs: int, w: World, outcome: Outcome, log: Log, n: nat)
    requires Lawful(plan, timeoutMs, w, outcome, log) && n <= |plan| && Reaches(w, timeoutMs, n)
    ensures n <= |log.models|
  {
    var m := |log.models|;
    assert m < n ==> Due(w, timeoutMs, m);
  }

  /** A call succeeds exactly when some request of the plan is answered, all before it were rate limited, and every
      fallback up to it comes before the deadline; it then reports the model asked last. */
  lemma SuccessIff(plan: seq<string>, timeoutMs: int, w: World, outcome: Outcome, log: Log)
    requires Lawful(plan, timeoutMs, w, outcome, log)
    ensures outcome.Success?
        <==> exists n: nat :: 0 < n <= |plan| && Reaches(w, timeoutMs, n) && w.reply(n - 1).Answered?
    ensures outcome.Success? ==> outcome.model == log.models[|log.models| - 1]
    ensures outcome != Failure(FailedAfterRetry)
  {
    if n: nat :| 0 < n <= |plan| && Reaches(w, timeoutMs, n) && w.reply(n - 1).Answered? {
      LastOne(plan, timeoutMs, w, outcome, log, n);
      assert n < |log.models| ==> Due(w, timeoutMs, n);
    }
  }

  /** Fallback models are asked only after two rate limits of the primary and before the deadline, and the primary is
      never among them. */
  lemma FallbackEntry(model: string, configured: seq<string>, timeoutMs: int, w: World, outcome: Outcome, log: Log,
      i: nat)
    requires Lawful(Plan(model, Without(model, configured)), timeoutMs, w, outcome, log)
    requires 2 <= i < |log.models|
    ensures Limited(w.reply(0)) && Limited(w.reply(1)) && w.now(i + 2) < w.now(3) + timeoutMs
    ensures log.models[i] != model && log.models[i] in configured
    ensures |log.models| <= 2 + |configured| && |log.waits| == 1
  {
    var fallbacks := Without(model, configured);
    assert log.models[i] == Plan(model, fallbacks)[i] == fallbacks[i - 2];
    WithoutMember(model, configured, log.models[i]);
    assert Due(w, timeoutMs, 1) && Due(w, timeoutMs, 2) && Due(w, timeoutMs, i);
  }

  /** The models asked as fallbacks. */
  function Asked(log: Log): seq<string> {
    if |log.models| <= 2 then [] else log.models[2..]
  }

  /** A world in which everything is rate limited and the deadline is never reached. */
  function AllLimited(timeoutMs: int): World {
    World((i: nat) => Refused(RATE_LIMITED, None), (i: nat) => if i == 3 then 1 - timeoutMs else 0)
  }

  lemma AllLimitedLaw(plan: seq<string>, timeoutMs: int) returns (outcome: Outcome, log: Log)
    requires |plan| >= 2
    ensures Lawful(plan, timeoutMs, AllLimited(timeoutMs), outcome, log) && log.models == plan
  {
    var w := AllLimited(timeoutMs);
    outcome := Verdict(plan, w, |plan|);
    log := Log(plan, [WaitMs(w.reply(0))], Hops(plan, |plan|));
    assert plan[..|plan|] == plan;
    forall i: nat ensures Due(w, timeoutMs, i) {}
  }

  /** In no run is a fallback model asked twice. */
  ghost predicate NeverTwice(model: string, configured: seq<string>, timeoutMs: int) {
    forall w, outcome, log :: Lawful(Plan(model, Without(model, configured)), timeoutMs, w, outcome, log) ==>
        Distinct(Asked(log))
  }

  /** A fallback is never asked twice exactly when, apart from the primary model, none is configured twice. */
  lemma NeverTwiceIff(model: string, configured: seq<string>, timeoutMs: int)
    ensures NeverTwice(model, configured, timeoutMs) <==> Distinct(Without(model, configured))
  {
    var fallbacks := Without(model, configured);
    var plan := Plan(model, fallbacks);
    if Distinct(fallbacks) {
      forall w, outcome, log | Lawful(plan, timeoutMs, w, outcome, log) ensures Distinct(Asked(log)) {
        AskedPrefix(model, fallbacks, log);
      }
    } else {
      var outcome, log := AllLimitedLaw(plan, timeoutMs);
      assert Asked(log) == fallbacks;
    }
  }

  lemma AskedPrefix(model: string, fallbacks: seq<string>, log: Log)
    requires log.models <= Plan(model, fallbacks)
    ensures Asked(log) <= fallbacks
  {
    var plan := Plan(model, fallbacks);
    assert forall i :: 0 <= i < |Asked(log)| ==> Asked(log)[i] == plan[i + 2] == fallbacks[i];
  }
}
