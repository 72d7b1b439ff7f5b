/**
 * The LLM client's pacing and retrying: the two rate limiters and the retry loop of `json_chat`.
 *
 * Time is explicit. A clock reading is a parameter; sleeping `d` seconds from the reading `t` wakes at
 * `t + d + overshoot` with `overshoot >= 0`, and reading the clock again without sleeping gives
 * `t + overshoot`. The jitter drawn by `random.uniform(0.05, 0.25)` is a parameter within those bounds.
 */
module LlmRetry {
  import opened Wrappers
  import opened Strings
  import opened LlmClient

  // ---------------------------------------------------------------- constants

  /** The default `gemini_min_interval_s` and `gemini_max_attempts`. */
  const DefaultMinInterval: real := 3.0
  const DefaultMaxAttempts: int := 3

  /** The rolling window: at most `RpmLimit` calls per `WindowSeconds`, and the deque keeps `HistoryLen` entries. */
  const RpmLimit: nat := 15
  const WindowSeconds: real := 60.0
  const HistoryLen: nat := 100

  predicate JitterOk(jitter: real) { 0.05 <= jitter <= 0.25 }

  predicate Sorted(h: seq<real>) {
    forall i, j :: 0 <= i < j < |h| ==> h[i] <= h[j]
  }

  /** What a call of `_acquire_slot` decides: when the call may proceed, and the limiter's new state. */
  datatype Slot = Slot(granted: real, history: seq<real>, nextAllowed: real)

  // ---------------------------------------------------------------- the live limiter

  /**
   * The `_acquire_slot` that is in force (the later definition in the class body replaces the earlier one):
   * wait until `nextAllowed`, then push `nextAllowed` to the clock plus the interval plus jitter. The history
   * is not touched.
   */
  function MinIntervalSlot(minInterval: real, nextAllowed: real, history: seq<real>,
                           now: real, overshoot: real, jitter: real): (r: Slot)
    requires overshoot >= 0.0 && JitterOk(jitter)
    ensures r.granted >= now && r.granted >= nextAllowed
    ensures r.history == history
    ensures r.granted + minInterval + 0.05 <= r.nextAllowed <= r.granted + minInterval + 0.25
    ensures now >= nextAllowed ==> r.granted == now + overshoot
  {
    var t := if now < nextAllowed then nextAllowed + overshoot else now + overshoot;
    Slot(t, history, t + minInterval + jitter)
  }

  /** One request to a limiter: the clock at entry, the overshoot of each sleep, and the jitter drawn. */
  datatype Request = Request(now: real, overshoot: real, overshoot2: real, jitter: real)

  predicate RequestOk(q: Request) {
    q.overshoot >= 0.0 && q.overshoot2 >= 0.0 && JitterOk(q.jitter)
  }

  /** The calls granted to a run of requests against the live limiter. */
  function LiveRun(minInterval: real, nextAllowed: real, reqs: seq<Request>): (gs: seq<real>)
    requires forall i :: 0 <= i < |reqs| ==> RequestOk(reqs[i])
    ensures |gs| == |reqs|
    ensures reqs != [] ==> gs[0] >= nextAllowed
    decreases |reqs|
  {
    if reqs == [] then []
    else
      var q := reqs[0];
      assert RequestOk(q);
      var s := MinIntervalSlot(minInterval, nextAllowed, [], q.now, q.overshoot, q.jitter);
      [s.granted] + LiveRun(minInterval, s.nextAllowed, reqs[1..])
  }

  /** With the default interval, consecutive calls through the live limiter are at least 3.05 seconds apart. */
  lemma DefaultSpacing(nextAllowed: real, reqs: seq<Request>, i: int)
    requires forall k :: 0 <= k < |reqs| ==> RequestOk(reqs[k])
    requires 0 <= i < |reqs| - 1
    ensures LiveRun(DefaultMinInterval, nextAllowed, reqs)[i + 1] >= LiveRun(DefaultMinInterval, nextAllowed, reqs)[i] + 3.05
  {
    LiveRunSpaced(DefaultMinInterval, nextAllowed, reqs, i);
  }

  /** Consecutive calls through the live limiter are at least the interval plus the least jitter apart. */
  lemma {:induction false} LiveRunSpaced(minInterval: real, nextAllowed: real, reqs: seq<Request>, i: int)
    requires forall k :: 0 <= k < |reqs| ==> RequestOk(reqs[k])
    requires 0 <= i < |reqs| - 1
    ensures LiveRun(minInterval, nextAllowed, reqs)[i + 1] >= LiveRun(minInterval, nextAllowed, reqs)[i] + minInterval + 0.05
    decreases i
  {
    var q := reqs[0];
    assert RequestOk(q);
    var s := MinIntervalSlot(minInterval, nextAllowed, [], q.now, q.overshoot, q.jitter);
    if i > 0 {
      LiveRunSpaced(minInterval, s.nextAllowed, reqs[1..], i - 1);
    }
  }

  // ---------------------------------------------------------------- the rolling-window limiter

  /** Drop the entries older than `cutoff` from the front, as the `popleft` loop does (strict `<`). */
  function Evict(h: seq<real>, cutoff: real): (r: seq<real>)
    ensures |r| <= |h|
    ensures r != [] ==> r[0] >= cutoff
    decreases |h|
  {
    if h != [] && h[0] < cutoff then Evict(h[1..], cutoff) else h
  }

  /** Eviction only removes entries from the front. */
  lemma {:induction false} EvictSuffix(h: seq<real>, cutoff: real)
    ensures Evict(h, cutoff) == h[|h| - |Evict(h, cutoff)|..]
    decreases |h|
  {
    if h != [] && h[0] < cutoff {
      EvictSuffix(h[1..], cutoff);
      assert h[1..][|h| - 1 - |Evict(h, cutoff)|..] == h[|h| - |Evict(h, cutoff)|..];
    }
  }

  /** After eviction of a sorted history every entry is within the window. */
  lemma {:induction false} EvictWithin(h: seq<real>, cutoff: real)
    requires Sorted(h)
    ensures forall i :: 0 <= i < |Evict(h, cutoff)| ==> Evict(h, cutoff)[i] >= cutoff
    decreases |h|
  {
    if h != [] && h[0] < cutoff {
      SortedSuffix(h, 1);
      EvictWithin(h[1..], cutoff);
    } else if h != [] {
      assert forall i :: 0 <= i < |h| ==> h[0] <= h[i];
    }
  }

  /**
   * On a sorted history eviction removes exactly the entries older than the cutoff: they form the prefix
   * that goes, and every entry at or after the cutoff stays.
   */
  lemma {:induction false} EvictExactly(h: seq<real>, cutoff: real)
    requires Sorted(h)
    ensures var k := |h| - |Evict(h, cutoff)|;
      Evict(h, cutoff) == h[k..] &&
      (forall i :: 0 <= i < k ==> h[i] < cutoff) &&
      (forall i :: k <= i < |h| ==> h[i] >= cutoff)
    decreases |h|
  {
    EvictSuffix(h, cutoff);
    EvictWithin(h, cutoff);
    var r := Evict(h, cutoff);
    var k := |h| - |r|;
    forall i | k <= i < |h| ensures h[i] >= cutoff {
      assert h[i] == r[i - k];
    }
    if h != [] && h[0] < cutoff {
      SortedSuffix(h, 1);
      EvictExactly(h[1..], cutoff);
      forall i | 1 <= i < k ensures h[i] < cutoff {
        assert h[i] == h[1..][i - 1];
      }
    }
  }

  /** The strict comparison keeps an entry that lies exactly at the cutoff. */
  lemma EvictKeepsBoundary(t: real)
    ensures Evict([t], t) == [t]
  {
  }

  /** `deque.append` on a deque of `maxlen=100`: the oldest entry goes when the deque is full. */
  function AppendBounded(h: seq<real>, t: real): (r: seq<real>)
    requires |h| <= HistoryLen
    ensures |r| <= HistoryLen && r != [] && r[|r| - 1] == t
    ensures |r| == Min(|h| + 1, HistoryLen)
  {
    if |h| == HistoryLen then h[1..] + [t] else h + [t]
  }

  lemma AppendBoundedSuffix(h: seq<real>, t: real)
    requires |h| <= HistoryLen
    ensures AppendBounded(h, t) == (h + [t])[|h| + 1 - |AppendBounded(h, t)|..]
  {
  }

  /**
   * The window check of the earlier `_acquire_slot`: evict, and with `RpmLimit` calls left in the window wait
   * until the oldest leaves it and evict again. The clock afterwards, and the history.
   */
  function WindowWait(history: seq<real>, now: real, overshoot1: real): (r: (real, seq<real>))
    requires overshoot1 >= 0.0
    ensures r.0 >= now
    ensures |r.1| <= |history|
    ensures var h := Evict(history, now - WindowSeconds);
      |h| >= RpmLimit ==> r.0 >= h[0] + WindowSeconds
    ensures r.1 != [] ==> r.1[0] >= r.0 - WindowSeconds
  {
    var h := Evict(history, now - WindowSeconds);
    if |h| >= RpmLimit && h[0] + WindowSeconds > now then
      var t1 := h[0] + WindowSeconds + overshoot1;
      (t1, Evict(h, t1 - WindowSeconds))
    else (now, h)
  }

  /** The window check only removes entries from the front of the history. */
  lemma WindowWaitSuffix(history: seq<real>, now: real, overshoot1: real)
    requires overshoot1 >= 0.0
    ensures var h := WindowWait(history, now, overshoot1).1; h == history[|history| - |h|..]
  {
    var h := Evict(history, now - WindowSeconds);
    EvictSuffix(history, now - WindowSeconds);
    if |h| >= RpmLimit && h[0] + WindowSeconds > now {
      var h' := Evict(h, h[0] + WindowSeconds + overshoot1 - WindowSeconds);
      EvictSuffix(h, h[0] + WindowSeconds + overshoot1 - WindowSeconds);
      SuffixOfSuffix(history, |history| - |h|, |h| - |h'|);
    }
  }

  /** After the window check every entry left is within the window ending at the clock. */
  lemma WindowWaitWithin(history: seq<real>, now: real, overshoot1: real)
    requires overshoot1 >= 0.0 && Sorted(history)
    ensures var (t, h) := WindowWait(history, now, overshoot1);
      Sorted(h) && forall i :: 0 <= i < |h| ==> h[i] >= t - WindowSeconds
  {
    var (t, h) := WindowWait(history, now, overshoot1);
    WindowWaitSuffix(history, now, overshoot1);
    SortedSuffix(history, |history| - |h|);
    if h != [] {
      assert forall i :: 0 <= i < |h| ==> h[0] <= h[i];
    }
  }

  /** The earlier `_acquire_slot`: rolling 60-second window of 15 calls, then the minimum interval. */
  function RollingWindowSlot(minInterval: real, nextAllowed: real, history: seq<real>,
                             now: real, overshoot1: real, overshoot2: real, jitter: real): (r: Slot)
    requires |history| <= HistoryLen
    requires overshoot1 >= 0.0 && overshoot2 >= 0.0 && JitterOk(jitter)
    ensures r.granted >= now && r.granted >= nextAllowed && r.granted >= WindowWait(history, now, overshoot1).0
    ensures r.history == AppendBounded(WindowWait(history, now, overshoot1).1, r.granted)
    ensures r.granted + minInterval + 0.05 <= r.nextAllowed <= r.granted + minInterval + 0.25
  {
    var (t, h) := WindowWait(history, now, overshoot1);
    var t2 := if t < nextAllowed then nextAllowed + overshoot2 else t;
    Slot(t2, AppendBounded(h, t2), t2 + minInterval + jitter)
  }

  /** With a full window the call waits until the oldest call in it is a window old. */
  lemma RollingWindowWaits(minInterval: real, nextAllowed: real, history: seq<real>,
                           now: real, overshoot1: real, overshoot2: real, jitter: real)
    requires |history| <= HistoryLen
    requires overshoot1 >= 0.0 && overshoot2 >= 0.0 && JitterOk(jitter)
    requires |Evict(history, now - WindowSeconds)| >= RpmLimit
    ensures RollingWindowSlot(minInterval, nextAllowed, history, now, overshoot1, overshoot2, jitter).granted >=
            Evict(history, now - WindowSeconds)[0] + WindowSeconds
  {
  }

  lemma SuffixOfSuffix(s: seq<real>, k: int, m: int)
    requires 0 <= k <= |s| && 0 <= m <= |s| - k
    ensures s[k..][m..] == s[k + m..]
  {
  }

  lemma SortedSuffix(h: seq<real>, k: int)
    requires Sorted(h) && 0 <= k <= |h|
    ensures Sorted(h[k..])
  {
    assert forall i :: 0 <= i < |h| - k ==> h[k..][i] == h[k + i];
  }

  lemma SortedAppendBounded(h: seq<real>, t: real)
    requires Sorted(h) && |h| <= HistoryLen && (h == [] || h[|h| - 1] <= t)
    ensures Sorted(AppendBounded(h, t))
  {
    var g := h + [t];
    assert Sorted(g) by {
      forall i, j | 0 <= i < j < |g| ensures g[i] <= g[j] {
        if j == |h| && i < |h| {
          assert h[i] <= h[|h| - 1];
        }
      }
    }
    AppendBoundedSuffix(h, t);
    SortedSuffix(g, |h| + 1 - |AppendBounded(h, t)|);
  }

  /** The history stays non-decreasing, provided the clock does not run backwards past the last call. */
  lemma RollingWindowSorted(minInterval: real, nextAllowed: real, history: seq<real>,
                            now: real, overshoot1: real, overshoot2: real, jitter: real)
    requires |history| <= HistoryLen && Sorted(history)
    requires history == [] || history[|history| - 1] <= now
    requires overshoot1 >= 0.0 && overshoot2 >= 0.0 && JitterOk(jitter)
    ensures Sorted(RollingWindowSlot(minInterval, nextAllowed, history, now, overshoot1, overshoot2, jitter).history)
  {
    var r := RollingWindowSlot(minInterval, nextAllowed, history, now, overshoot1, overshoot2, jitter);
    var (t, h) := WindowWait(history, now, overshoot1);
    WindowWaitWithin(history, now, overshoot1);
    WindowWaitSuffix(history, now, overshoot1);
    assert h == [] || h[|h| - 1] == history[|history| - 1];
    SortedAppendBounded(h, r.granted);
  }

  /**
   * The client's limiter state: the module globals `_NEXT_ALLOWED_TS` and `_CALL_HISTORY`, and the instance's
   * interval. The constructor gives the state at module load, not that of a new `LLMClient`: the agents build
   * a fresh client on every call, and all of them share the globals, so one `RateLimiter` serves the whole run.
   */
  class RateLimiter {
    var nextAllowed: real
    var history: seq<real>
    const minInterval: real

    ghost predicate Valid()
      reads this
    {
      |history| <= HistoryLen && Sorted(history)
    }

    constructor(minInterval: real)
      ensures Valid()
      ensures this.minInterval == minInterval && nextAllowed == 0.0 && history == []
    {
      this.minInterval := minInterval;
      nextAllowed := 0.0;
      history := [];
    }

    /** The live `_acquire_slot`. */
    method AcquireSlot(now: real, overshoot: real, jitter: real) returns (granted: real)
      requires overshoot >= 0.0 && JitterOk(jitter)
      modifies this`nextAllowed
      ensures MinIntervalSlot(minInterval, old(nextAllowed), history, now, overshoot, jitter) ==
              Slot(granted, history, nextAllowed)
    {
      var t := now;
      if t < nextAllowed {
        t := nextAllowed + overshoot;
      } else {
        t := t + overshoot;
      }
      granted := t;
      nextAllowed := t + minInterval + jitter;
    }

    /** Drop expired entries from the front of the history. */
    method EvictBefore(cutoff: real)
      requires Valid()
      modifies this`history
      ensures Valid()
      ensures history == Evict(old(history), cutoff)
    {
      while history != [] && history[0] < cutoff
        invariant Valid()
        invariant Evict(old(history), cutoff) == Evict(history, cutoff)
        decreases |history|
      {
        SortedSuffix(history, 1);
        history := history[1..];
      }
    }

    /** The window check: evict, and with a full window sleep until its oldest call leaves it, then evict again. */
    method WaitForWindow(now: real, overshoot1: real) returns (t: real)
      requires Valid() && overshoot1 >= 0.0
      modifies this`history
      ensures Valid()
      ensures t == WindowWait(old(history), now, overshoot1).0
      ensures history == WindowWait(old(history), now, overshoot1).1
    {
      ghost var h := Evict(history, now - WindowSeconds);
      t := now;
      EvictBefore(now - WindowSeconds);
      assert history == h;
      if |history| >= RpmLimit && history[0] + WindowSeconds > t {
        t := history[0] + WindowSeconds + overshoot1;
        EvictBefore(t - WindowSeconds);
        assert history == Evict(h, t - WindowSeconds);
      }
    }

    /** The rolling-window `_acquire_slot`, which the later definition replaces and nothing calls. */
    method AcquireSlotRollingWindow(now: real, overshoot1: real, overshoot2: real, jitter: real) returns (granted: real)
      requires Valid() && (history == [] || history[|history| - 1] <= now)
      requires overshoot1 >= 0.0 && overshoot2 >= 0.0 && JitterOk(jitter)
      modifies this`history, this`nextAllowed
      ensures Valid()
      ensures RollingWindowSlot(minInterval, old(nextAllowed), old(history), now, overshoot1, overshoot2, jitter) ==
              Slot(granted, history, nextAllowed)
    {
      RollingWindowSorted(minInterval, nextAllowed, history, now, overshoot1, overshoot2, jitter);
      var t := WaitForWindow(now, overshoot1);
      if t < nextAllowed {
        t := nextAllowed + overshoot2;
      }
      history := AppendBounded(history, t);
      nextAllowed := t + minInterval + jitter;
      granted := t;
    }
  }

  // ---------------------------------------------------------------- the retry loop

  /** What one model call gives back: a reply text (absent or empty for no text), or an error message. */
  datatype Reply = Answer(text: Option<string>) | Raised(message: string)

  /** What `json_chat` does visibly, in order. */
  datatype Event = AcquireCall(attempt: nat) | ModelCall(attempt: nat) | Sleep(attempt: nat, seconds: real)

  /** `json_chat` returns the parsed object, or raises carrying the last error (none when nothing was tried). */
  datatype ChatOutcome<V> = Parsed(value: V) | GaveUp(lastError: Option<string>)

  /** One attempt: the reply, its JSON text, and the parse; a raised call and a failed parse are both errors. */
  function AttemptResult<V>(reply: nat -> Reply, parse: string -> Result<V, string>, attempt: nat): Result<V, string> {
    match reply(attempt)
    case Raised(m) => Failure(m)
    case Answer(t) => parse(ExtractJsonText(t))
  }

  /** The wait after the failed attempt `attempt` with error `msg`. */
  function RetryDelay(msg: string, attempt: nat, jitter: real): (d: real)
    requires attempt >= 1
    ensures IsQuotaError(msg) ==> d >= 1.0
    ensures !IsQuotaError(msg) ==> d == Backoff(attempt, jitter)
    ensures IsQuotaError(msg) && ParseRetryDelaySeconds(msg).Some? ==> d == ParseRetryDelaySeconds(msg).value as real
    ensures IsQuotaError(msg) && ParseRetryDelaySeconds(msg).None? ==> d == QuotaDelay(attempt) as real
  {
    if IsQuotaError(msg) then
      match ParseRetryDelaySeconds(msg)
      case Some(s) => s as real
      case None => QuotaDelay(attempt) as real
    else Backoff(attempt, jitter)
  }

  /** The number of model calls in a trace. */
  function CallCount(trace: seq<Event>): (n: nat)
    ensures n <= |trace|
  {
    if trace == [] then 0 else (if trace[0].ModelCall? then 1 else 0) + CallCount(trace[1..])
  }

  lemma {:induction false} CallCountAppend(a: seq<Event>, b: seq<Event>)
    ensures CallCount(a + b) == CallCount(a) + CallCount(b)
    decreases |a|
  {
    if a == [] {
      assert a + b == b;
    } else {
      assert (a + b)[1..] == a[1..] + b;
      CallCountAppend(a[1..], b);
    }
  }

  /** The events of one attempt that failed with `m`: a slot, the call, the wait. */
  function FailedAttempt(a: nat, m: string, delay: (string, nat) -> real): seq<Event>
    requires a >= 1
  {
    [AcquireCall(a), ModelCall(a), Sleep(a, delay(m, a))]
  }

  lemma FailedAttemptCalls(a: nat, m: string, delay: (string, nat) -> real)
    requires a >= 1
    ensures CallCount(FailedAttempt(a, m, delay)) == 1
  {
    var es := FailedAttempt(a, m, delay);
    assert CallCount(es[2..]) == 0 by {
      assert es[2..][1..] == [];
    }
    assert es[1..][1..] == es[2..];
  }

  lemma SucceededAttemptCalls(a: nat)
    ensures CallCount([AcquireCall(a), ModelCall(a)]) == 1
  {
    assert [AcquireCall(a), ModelCall(a)][1..][1..] == [];
  }

  /** The attempts `a..maxAttempts` of the loop, given the error of the attempt before. */
  function ChatFrom<V>(tries: nat -> Result<V, string>, delay: (string, nat) -> real,
                       maxAttempts: int, a: nat, lastErr: Option<string>): (r: (ChatOutcome<V>, seq<Event>))
    requires a >= 1
    ensures CallCount(r.1) <= Max(0, maxAttempts - a + 1)
    decreases Max(0, maxAttempts - a + 1)
  {
    if a > maxAttempts then (GaveUp(lastErr), [])
    else
      match tries(a)
      case Success(v) => SucceededAttemptCalls(a); (Parsed(v), [AcquireCall(a), ModelCall(a)])
      case Failure(m) =>
        var rest := ChatFrom(tries, delay, maxAttempts, a + 1, Some(m));
        FailedAttemptCalls(a, m, delay);
        CallCountAppend(FailedAttempt(a, m, delay), rest.1);
        (rest.0, FailedAttempt(a, m, delay) + rest.1)
  }

  /** The attempts of `json_chat` as one function of the attempt number. */
  function Tries<V>(reply: nat -> Reply, parse: string -> Result<V, string>): nat -> Result<V, string> {
    (a: nat) => AttemptResult(reply, parse, a)
  }

  /** The wait after each failed attempt, with the jitter drawn for it. */
  function Delays(jitter: nat -> real): (string, nat) -> real {
    (m: string, a: nat) => if a >= 1 then RetryDelay(m, a, jitter(a)) else 0.0
  }

  /** What a call of `json_chat` with `max_attempts` gives: its outcome and its effects. */
  function Chat<V>(reply: nat -> Reply, parse: string -> Result<V, string>, jitter: nat -> real,
                   maxAttempts: int): (r: (ChatOutcome<V>, seq<Event>))
    ensures CallCount(r.1) <= Max(0, maxAttempts)
  {
    ChatFrom(Tries(reply, parse), Delays(jitter), maxAttempts, 1, None)
  }

  lemma ChatFromFailure<V>(tries: nat -> Result<V, string>, delay: (string, nat) -> real,
                           maxAttempts: int, a: nat, lastErr: Option<string>, m: string)
    requires 1 <= a <= maxAttempts && tries(a) == Failure(m)
    ensures var rest := ChatFrom(tries, delay, maxAttempts, a + 1, Some(m));
      ChatFrom(tries, delay, maxAttempts, a, lastErr) == (rest.0, FailedAttempt(a, m, delay) + rest.1)
  {
  }

  lemma ChatFromSuccess<V>(tries: nat -> Result<V, string>, delay: (string, nat) -> real,
                           maxAttempts: int, a: nat, lastErr: Option<string>, v: V)
    requires 1 <= a <= maxAttempts && tries(a) == Success(v)
    ensures ChatFrom(tries, delay, maxAttempts, a, lastErr) == (Parsed(v), [AcquireCall(a), ModelCall(a)])
  {
  }

  /** `json_chat`: the retry loop over attempts `1..max_attempts`. */
  method JsonChat<V>(reply: nat -> Reply, parse: string -> Result<V, string>, jitter: nat -> real,
                     maxAttempts: int) returns (outcome: ChatOutcome<V>, trace: seq<Event>)
    ensures (outcome, trace) == Chat(reply, parse, jitter, maxAttempts)
  {
    ghost var tries := Tries(reply, parse);
    ghost var delay := Delays(jitter);
    var lastErr: Option<string> := None;
    trace := [];
    var attempt := 1;
    ghost var chat := Chat(reply, parse, jitter, maxAttempts);
    assert chat.1 == trace + ChatFrom(tries, delay, maxAttempts, 1, None).1;
    while attempt <= maxAttempts
      invariant attempt >= 1
      invariant chat.0 == ChatFrom(tries, delay, maxAttempts, attempt, lastErr).0
      invariant chat.1 == trace + ChatFrom(tries, delay, maxAttempts, attempt, lastErr).1
      decreases maxAttempts - attempt
    {
      var result := AttemptResult(reply, parse, attempt);
      assert result == tries(attempt);
      if result.Success? {
        ChatFromSuccess(tries, delay, maxAttempts, attempt, lastErr, result.value);
        trace := trace + [AcquireCall(attempt), ModelCall(attempt)];
        return Parsed(result.value), trace;
      }
      var m := result.error;
      ChatFromFailure(tries, delay, maxAttempts, attempt, lastErr, m);
      ghost var rest := ChatFrom(tries, delay, maxAttempts, attempt + 1, Some(m)).1;
      AppendAssoc(trace, FailedAttempt(attempt, m, delay), rest);
      assert FailedAttempt(attempt, m, delay) == [AcquireCall(attempt), ModelCall(attempt), Sleep(attempt, RetryDelay(m, attempt, jitter(attempt)))];
      trace := trace + [AcquireCall(attempt), ModelCall(attempt), Sleep(attempt, RetryDelay(m, attempt, jitter(attempt)))];
      lastErr := Some(m);
      attempt := attempt + 1;
    }
    AppendNil(trace);
    outcome := GaveUp(lastErr);
  }

  lemma AppendAssoc<T>(a: seq<T>, b: seq<T>, c: seq<T>)
    ensures a + (b + c) == (a + b) + c
  {
  }

  lemma AppendNil<T>(a: seq<T>)
    ensures a + [] == a
  {
  }

  /** With no attempts allowed the model is never called and the error raised carries nothing. */
  lemma ChatNoAttempts<V>(reply: nat -> Reply, parse: string -> Result<V, string>, jitter: nat -> real, maxAttempts: int)
    requires maxAttempts <= 0
    ensures Chat(reply, parse, jitter, maxAttempts) == (GaveUp(None), [])
  {
  }

  /** Every model call in the trace comes right after the slot acquisition of the same attempt. */
  predicate CallsAfterSlots(t: seq<Event>) {
    (t != [] ==> !t[0].ModelCall?) &&
    forall i :: 0 < i < |t| && t[i].ModelCall? ==> t[i - 1] == AcquireCall(t[i].attempt)
  }

  /** Every model call comes right after its own slot acquisition. */
  lemma {:induction false} ChatCallsAfterSlot<V>(tries: nat -> Result<V, string>, delay: (string, nat) -> real,
                                                  maxAttempts: int, a: nat, lastErr: Option<string>)
    requires a >= 1
    ensures CallsAfterSlots(ChatFrom(tries, delay, maxAttempts, a, lastErr).1)
    decreases Max(0, maxAttempts - a + 1)
  {
    if a <= maxAttempts && tries(a).Failure? {
      var m := tries(a).error;
      ChatCallsAfterSlot(tries, delay, maxAttempts, a + 1, Some(m));
      var rest := ChatFrom(tries, delay, maxAttempts, a + 1, Some(m)).1;
      var t := FailedAttempt(a, m, delay) + rest;
      forall i | 0 < i < |t| && t[i].ModelCall? ensures t[i - 1] == AcquireCall(t[i].attempt) {
        if i > 3 {
          assert t[i] == rest[i - 3] && t[i - 1] == rest[i - 4];
        } else {
          assert t[0] == AcquireCall(a) && t[1] == ModelCall(a) && t[2].Sleep?;
        }
      }
    }
  }

  /** The first attempt that succeeds ends the loop with its parsed value, after one call per attempt so far. */
  lemma {:induction false} ChatFirstSuccess<V>(tries: nat -> Result<V, string>, delay: (string, nat) -> real,
                                               maxAttempts: int, a: nat, lastErr: Option<string>, k: nat)
    requires 1 <= a <= k <= maxAttempts
    requires tries(k).Success?
    requires forall j :: a <= j < k ==> tries(j).Failure?
    ensures ChatFrom(tries, delay, maxAttempts, a, lastErr).0 == Parsed(tries(k).value)
    ensures CallCount(ChatFrom(tries, delay, maxAttempts, a, lastErr).1) == k - a + 1
    decreases k - a
  {
    if a < k {
      var m := tries(a).error;
      ChatFirstSuccess(tries, delay, maxAttempts, a + 1, Some(m), k);
      FailedAttemptCalls(a, m, delay);
      CallCountAppend(FailedAttempt(a, m, delay), ChatFrom(tries, delay, maxAttempts, a + 1, Some(m)).1);
    } else {
      SucceededAttemptCalls(a);
    }
  }

  /** When every attempt fails the loop makes exactly `max_attempts` calls, waits after each, and gives up with the last error. */
  lemma {:induction false} ChatAllFail<V>(tries: nat -> Result<V, string>, delay: (string, nat) -> real,
                                          maxAttempts: int, a: nat, lastErr: Option<string>)
    requires 1 <= a <= maxAttempts
    requires forall j :: a <= j <= maxAttempts ==> tries(j).Failure?
    ensures var r := ChatFrom(tries, delay, maxAttempts, a, lastErr);
      r.0 == GaveUp(Some(tries(maxAttempts).error)) &&
      CallCount(r.1) == maxAttempts - a + 1 && r.1 != [] && r.1[|r.1| - 1].Sleep?
    decreases maxAttempts - a
  {
    var m := tries(a).error;
    var rest := ChatFrom(tries, delay, maxAttempts, a + 1, Some(m));
    FailedAttemptCalls(a, m, delay);
    CallCountAppend(FailedAttempt(a, m, delay), rest.1);
    if a < maxAttempts {
      ChatAllFail(tries, delay, maxAttempts, a + 1, Some(m));
    }
  }

  /** Giving up means every attempt failed; a parsed outcome is the value of some successful attempt. */
  lemma {:induction false} ChatOutcomeExplained<V>(tries: nat -> Result<V, string>, delay: (string, nat) -> real,
                                                   maxAttempts: int, a: nat, lastErr: Option<string>)
    requires a >= 1
    ensures var r := ChatFrom(tries, delay, maxAttempts, a, lastErr).0;
      (r.GaveUp? ==> forall j :: a <= j <= maxAttempts ==> tries(j).Failure?) &&
      (r.Parsed? ==> exists k :: a <= k <= maxAttempts && tries(k) == Success(r.value))
    decreases Max(0, maxAttempts - a + 1)
  {
    if a <= maxAttempts && tries(a).Failure? {
      ChatOutcomeExplained(tries, delay, maxAttempts, a + 1, Some(tries(a).error));
    }
  }

  /** With the default three attempts, a call whose every attempt fails calls the model three times and raises the third error. */
  lemma DefaultAllFail<V>(reply: nat -> Reply, parse: string -> Result<V, string>, jitter: nat -> real)
    requires forall j :: 1 <= j <= DefaultMaxAttempts ==> AttemptResult(reply, parse, j).Failure?
    ensures var r := Chat(reply, parse, jitter, DefaultMaxAttempts);
      r.0 == GaveUp(Some(AttemptResult(reply, parse, 3).error)) && CallCount(r.1) == 3
  {
    ChatAllFail(Tries(reply, parse), Delays(jitter), DefaultMaxAttempts, 1, None);
  }
}
