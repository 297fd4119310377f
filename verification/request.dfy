/**
 * `requestWithRetry` (bot.js:126-156): one logical HTTP call with a bounded number
 * of attempts, a multiplicative backoff between them, a fixed 30 s backoff after a
 * 429 and an immediate return on 400 or 404.
 *
 * The network is an oracle: `outcomes[i]` is what attempt `i` would get back from
 * axios. Backoff is a `real` so that `backoff *= 1.5` is exact. Every sleep is
 * recorded as the backoff value in milliseconds (`delay(backoff / 1000)` waits
 * that many milliseconds).
 */
module Request {
  import opened Common

  /** What one axios call produced: the response body, or an error with an optional
      HTTP status, an optional `response.data.message` and the error's own message. */
  datatype Outcome<D> = Ok(data: D) | Err(status: Option<int>, bodyMessage: Option<string>, message: string)

  /** The object `requestWithRetry` resolves to. */
  datatype Response<D> = Success(data: D) | Failure(message: string, status: Option<int>)

  /** The resolved value (`None` is `undefined`), how many attempts were made and
      the sleeps taken between them, in order. */
  datatype RetryRun<D> = RetryRun(result: Option<Response<D>>, attempts: nat, sleepsMs: seq<real>)

  const RateLimitBackoffMs: real := 30000.0
  const BackoffFactor: real := 1.5

  /** The next backoff: `backoff *= 1.5` (bot.js:151). */
  function Grow(ms: real): real {
    BackoffFactor * ms
  }

  /** ASCII lower-casing. For deciding equality with "get", "post" or "put" it agrees
      with `toLowerCase`: no non-ASCII character lower-cases to one of their letters. */
  function LowerAscii(s: string): (r: string)
    ensures |r| == |s|
  {
    seq(|s|, k requires 0 <= k < |s| => if 'A' <= s[k] <= 'Z' then (s[k] as int + 32) as char else s[k])
  }

  /** `verb` spells the lower-case word `m` with any of its letters in upper case. */
  predicate SpellsIgnoringCase(verb: string, m: string) {
    |verb| == |m| && forall k :: 0 <= k < |m| ==> verb[k] == m[k] || verb[k] as int == m[k] as int - 32
  }

  predicate LowerWord(m: string) {
    forall k :: 0 <= k < |m| ==> 'a' <= m[k] <= 'z'
  }

  /** Lower-casing gives the lower-case word `m` exactly when `verb` spells `m` in
      some mix of cases. */
  lemma LowerAsciiSpells(verb: string, m: string)
    requires LowerWord(m)
    ensures LowerAscii(verb) == m <==> SpellsIgnoringCase(verb, m)
  {
    var l := LowerAscii(verb);
    if SpellsIgnoringCase(verb, m) {
      assert forall k :: 0 <= k < |m| ==> l[k] == m[k];
    }
    if l == m {
      assert forall k :: 0 <= k < |m| ==> verb[k] == m[k] || verb[k] as int == m[k] as int - 32 by {
        forall k | 0 <= k < |m| ensures verb[k] == m[k] || verb[k] as int == m[k] as int - 32 {
          assert l[k] == m[k];
        }
      }
    }
  }

  /** The methods the request layer dispatches (bot.js:130-135): `get`, `post` and
      `put` in any mix of upper and lower case, and nothing else. */
  predicate Supported(verb: string)
    ensures Supported(verb) <==>
      SpellsIgnoringCase(verb, "get") || SpellsIgnoringCase(verb, "post") || SpellsIgnoringCase(verb, "put")
  {
    LowerAsciiSpells(verb, "get");
    LowerAsciiSpells(verb, "post");
    LowerAsciiSpells(verb, "put");
    var m := LowerAscii(verb);
    m == "get" || m == "post" || m == "put"
  }

  /** Some verbs dispatched and not dispatched. */
  lemma SupportedExamples()
    ensures Supported("GET") && Supported("Post") && Supported("pUt")
    ensures !Supported("HEAD") && !Supported("dele") && !Supported("patch") && !Supported("")
  {
    assert "HEAD"[0] == 'H' && "dele"[0] == 'd' && "post"[0] == 'p';
  }

  /** What attempt `i` sees: the network's answer, or the error thrown inside the
      `try` for an unsupported verb, which carries no HTTP status (bot.js:137). */
  function AttemptOutcome<D>(verb: string, outcomes: seq<Outcome<D>>, i: nat): (o: Outcome<D>)
    requires i < |outcomes|
    ensures Supported(verb) ==> o == outcomes[i]
    ensures !Supported(verb) ==>
      Retryable(o) && !RateLimited(o) && o.status == None && o.message == "Method " + verb + " not supported"
  {
    if Supported(verb) then outcomes[i]
    else Err(None, None, "Method " + verb + " not supported")
  }

  /** What every attempt sees, in order. */
  function Seen<D>(verb: string, outcomes: seq<Outcome<D>>): (seen: seq<Outcome<D>>)
    ensures |seen| == |outcomes|
    ensures forall i :: 0 <= i < |outcomes| ==> seen[i] == AttemptOutcome(verb, outcomes, i)
  {
    if Supported(verb) then outcomes
    else seq(|outcomes|, _ => Err(None, None, "Method " + verb + " not supported"))
  }

  predicate RateLimited<D>(o: Outcome<D>) {
    o.Err? && o.status == Some(429)
  }

  /** 400 and 404 end the call at once (bot.js:145-147). */
  predicate Terminal<D>(o: Outcome<D>) {
    o.Err? && (o.status == Some(400) || o.status == Some(404))
  }

  /** A failure that leads to another attempt while the budget lasts. */
  predicate Retryable<D>(o: Outcome<D>) {
    o.Err? && !Terminal(o)
  }

  /** `error.response?.data?.message || 'Bad request'`. */
  function BadRequestMessage(body: Option<string>): string {
    if Truthy(body) then body.value else "Bad request"
  }

  /** The backoff after an attempt that ended with `o` has been handled: a 429 resets
      it to 30 000 ms (bot.js:142-144), anything else leaves it as it was. */
  function Current<D>(o: Outcome<D>, backoff: real): real {
    if RateLimited(o) then RateLimitBackoffMs else backoff
  }

  /** The loop of bot.js:127-155 from iteration `i` over what the attempts see, with
      `backoff` the value in force when that iteration starts. */
  function RetryFrom<D>(seen: seq<Outcome<D>>, retries: int, i: nat, backoff: real): (run: RetryRun<D>)
    requires retries <= |seen|
    ensures run.result.None? <==> retries <= i
    ensures retries <= i ==> run.attempts == 0 && run.sleepsMs == []
    ensures i < retries ==> 1 <= run.attempts <= retries - i && |run.sleepsMs| == run.attempts - 1
    ensures i < retries ==>
      forall k :: i <= k < i + run.attempts - 1 ==> Retryable(seen[k])
    ensures i < retries ==>
      var last := seen[i + run.attempts - 1];
      && (last.Ok? ==> run.result == Some(Success(last.data)))
      && (Terminal(last) ==> run.result == Some(Failure(BadRequestMessage(last.bodyMessage), last.status)))
      && (Retryable(last) ==> i + run.attempts == retries && run.result == Some(Failure(last.message, last.status)))
    decreases retries - i
  {
    if retries <= i then RetryRun(None, 0, [])
    else
      match seen[i]
      case Ok(data) => RetryRun(Some(Success(data)), 1, [])
      case Err(status, bodyMessage, message) =>
        var current := Current(seen[i], backoff);
        if status == Some(400) || status == Some(404) then
          RetryRun(Some(Failure(BadRequestMessage(bodyMessage), status)), 1, [])
        else if i < retries - 1 then
          var rest := RetryFrom(seen, retries, i + 1, Grow(current));
          RetryRun(rest.result, 1 + rest.attempts, [current] + rest.sleepsMs)
        else
          RetryRun(Some(Failure(message, status)), 1, [])
  }

  /** The backoff slept after attempt `k`, as an independent schedule: 30 000 ms after
      a 429, otherwise the initial backoff grown by 1.5 per earlier sleep. */
  function ScheduledSleep<D>(seen: seq<Outcome<D>>, initial: real, k: nat): real
    requires k < |seen|
  {
    if RateLimited(seen[k]) then RateLimitBackoffMs
    else if k == 0 then initial
    else Grow(ScheduledSleep(seen, initial, k - 1))
  }

  /** `requestWithRetry(verb, url, payload, config, retries, backoff)`. */
  function RequestWithRetry<D>(verb: string, outcomes: seq<Outcome<D>>, retries: int, backoff: real): (run: RetryRun<D>)
    requires retries <= |outcomes|
    ensures run.result.None? <==> retries <= 0
    ensures run.attempts <= if retries < 0 then 0 else retries
    ensures 0 < retries ==> 1 <= run.attempts && |run.sleepsMs| == run.attempts - 1
    ensures retries <= 0 ==> run.sleepsMs == []
    ensures forall k :: 0 <= k < |run.sleepsMs| ==> run.sleepsMs[k] == ScheduledSleep(Seen(verb, outcomes), backoff, k)
  {
    SleepsFollowSchedule(Seen(verb, outcomes), retries, backoff);
    RetryFrom(Seen(verb, outcomes), retries, 0, backoff)
  }

  // ---------------------------------------------------------------------------
  // Properties

  /** A run that sleeps at all sleeps first for the current backoff (or 30 000 ms after a
      429), and then as the run from the next attempt with the backoff grown. */
  lemma SleepStep<D>(seen: seq<Outcome<D>>, retries: int, i: nat, backoff: real)
    requires retries <= |seen|
    requires RetryFrom(seen, retries, i, backoff).sleepsMs != []
    ensures i + 1 < retries && Retryable(seen[i])
    ensures RetryFrom(seen, retries, i, backoff).sleepsMs
      == [Current(seen[i], backoff)] + RetryFrom(seen, retries, i + 1, Grow(Current(seen[i], backoff))).sleepsMs
  {
  }

  /** Sleep `k` of the run from attempt `i` is the schedule's sleep after attempt `i + k`. */
  lemma {:induction false} SleepAt<D>(seen: seq<Outcome<D>>, retries: int, i: nat, backoff: real, initial: real, k: nat)
    requires retries <= |seen| && i <= |seen|
    requires backoff == if i == 0 then initial else Grow(ScheduledSleep(seen, initial, i - 1))
    requires k < |RetryFrom(seen, retries, i, backoff).sleepsMs|
    ensures i + k < |seen|
    ensures RetryFrom(seen, retries, i, backoff).sleepsMs[k] == ScheduledSleep(seen, initial, i + k)
    decreases retries - i
  {
    var current := Current(seen[i], backoff);
    SleepStep(seen, retries, i, backoff);
    var sleeps := RetryFrom(seen, retries, i, backoff).sleepsMs;
    var rest := RetryFrom(seen, retries, i + 1, Grow(current)).sleepsMs;
    assert current == ScheduledSleep(seen, initial, i);
    if k == 0 {
      assert sleeps[k] == current;
    } else {
      assert ScheduledSleep(seen, initial, i + 1 - 1) == current by {
        assert i + 1 - 1 == i;
      }
      SleepAt(seen, retries, i + 1, Grow(current), initial, k - 1);
      assert rest[k - 1] == ScheduledSleep(seen, initial, i + k) by {
        assert i + 1 + (k - 1) == i + k;
      }
      assert sleeps[k] == rest[k - 1];
    }
  }

  /** The sleeps `requestWithRetry` takes are exactly the independent schedule. */
  lemma SleepsFollowSchedule<D>(seen: seq<Outcome<D>>, retries: int, initial: real)
    requires retries <= |seen|
    ensures var run := RetryFrom(seen, retries, 0, initial);
      forall k :: 0 <= k < |run.sleepsMs| ==> run.sleepsMs[k] == ScheduledSleep(seen, initial, k)
  {
    var run := RetryFrom(seen, retries, 0, initial);
    forall k | 0 <= k < |run.sleepsMs|
      ensures run.sleepsMs[k] == ScheduledSleep(seen, initial, k)
    {
      SleepAt(seen, retries, 0, initial, initial, k);
    }
  }

  function Pow(x: real, k: nat): real {
    if k == 0 then 1.0 else x * Pow(x, k - 1)
  }

  /** Without a 429, the sleeps are b, 1.5 b, 2.25 b, ... */
  lemma {:induction false} GeometricWithoutRateLimit<D>(seen: seq<Outcome<D>>, initial: real, k: nat)
    requires k < |seen|
    requires forall j :: 0 <= j <= k ==> !RateLimited(seen[j])
    ensures ScheduledSleep(seen, initial, k) == initial * Pow(BackoffFactor, k)
  {
    if k > 0 {
      GeometricWithoutRateLimit(seen, initial, k - 1);
    }
  }

  /** A 429 at attempt j sets that attempt's sleep to 30 000 ms, and growth resumes from
      there: until the next 429 the sleeps are 30 000, 45 000, 67 500, ... */
  lemma {:induction false} RateLimitRestartsSchedule<D>(seen: seq<Outcome<D>>, initial: real, j: nat, k: nat)
    requires j <= k < |seen|
    requires RateLimited(seen[j])
    requires forall m :: j < m <= k ==> !RateLimited(seen[m])
    ensures ScheduledSleep(seen, initial, k) == RateLimitBackoffMs * Pow(BackoffFactor, k - j)
  {
    if k > j {
      RateLimitRestartsSchedule(seen, initial, j, k - 1);
    }
  }
  /** The sleep right after a 429 is 30 000 ms, and the next one is 45 000 ms unless
      that attempt is rate limited too. */
  lemma RateLimitThenGrowth<D>(verb: string, outcomes: seq<Outcome<D>>, retries: int, backoff: real, j: nat)
    requires retries <= |outcomes|
    requires j + 1 < |RequestWithRetry(verb, outcomes, retries, backoff).sleepsMs|
    requires RateLimited(AttemptOutcome(verb, outcomes, j))
    requires !RateLimited(AttemptOutcome(verb, outcomes, j + 1))
    ensures RequestWithRetry(verb, outcomes, retries, backoff).sleepsMs[j] == 30000.0
    ensures RequestWithRetry(verb, outcomes, retries, backoff).sleepsMs[j + 1] == 45000.0
  {
    RateLimitRestartsSchedule(Seen(verb, outcomes), backoff, j, j + 1);
  }

  /** A 400 or 404 ends the call at that attempt: no further attempt, no sleep after it,
      and the failure carries that status. */
  lemma TerminalStopsImmediately<D>(verb: string, outcomes: seq<Outcome<D>>, retries: int, backoff: real, k: nat)
    requires retries <= |outcomes| && k < retries
    requires forall j :: 0 <= j < k ==> Retryable(AttemptOutcome(verb, outcomes, j))
    requires Terminal(AttemptOutcome(verb, outcomes, k))
    ensures var run := RequestWithRetry(verb, outcomes, retries, backoff);
      var o := AttemptOutcome(verb, outcomes, k);
      && run.attempts == k + 1
      && |run.sleepsMs| == k
      && run.result == Some(Failure(BadRequestMessage(o.bodyMessage), o.status))
  {
  }

  /** When every attempt fails without a 400 or 404, exactly `retries` attempts are made,
      `retries - 1` sleeps are taken, and the failure carries the last error. */
  lemma ExhaustedRetries<D>(verb: string, outcomes: seq<Outcome<D>>, retries: int, backoff: real)
    requires 0 < retries <= |outcomes|
    requires forall j :: 0 <= j < retries ==> Retryable(AttemptOutcome(verb, outcomes, j))
    ensures var run := RequestWithRetry(verb, outcomes, retries, backoff);
      var o := AttemptOutcome(verb, outcomes, retries - 1);
      && run.attempts == retries
      && |run.sleepsMs| == retries - 1
      && run.result == Some(Failure(o.message, o.status))
  {
    var run := RetryFrom(Seen(verb, outcomes), retries, 0, backoff);
    assert Retryable(Seen(verb, outcomes)[run.attempts - 1]);
  }

  /** An unsupported method is not short-circuited: the error it throws has no status,
      so it is retried like a network failure until the budget is spent. */
  lemma UnsupportedMethodIsRetried<D>(verb: string, outcomes: seq<Outcome<D>>, retries: int, backoff: real)
    requires 0 < retries <= |outcomes|
    requires !Supported(verb)
    ensures var run := RequestWithRetry(verb, outcomes, retries, backoff);
      && run.attempts == retries
      && run.result == Some(Failure("Method " + verb + " not supported", None))
      && forall k :: 0 <= k < |run.sleepsMs| ==> run.sleepsMs[k] == backoff * Pow(BackoffFactor, k)
  {
    ExhaustedRetries(verb, outcomes, retries, backoff);
    var run := RequestWithRetry(verb, outcomes, retries, backoff);
    forall k | 0 <= k < |run.sleepsMs|
      ensures run.sleepsMs[k] == backoff * Pow(BackoffFactor, k)
    {
      GeometricWithoutRateLimit(Seen(verb, outcomes), backoff, k);
    }
  }

  /** With `retries = 0` the loop never runs and the call resolves to `undefined`. */
  lemma ZeroRetriesIsUndefined<D>(verb: string, outcomes: seq<Outcome<D>>, backoff: real)
    ensures RequestWithRetry(verb, outcomes, 0, backoff) == RetryRun(None, 0, [])
  {
  }

  /** The budget every API operation and the public-IP lookup pass to
      `requestWithRetry` (bot.js:162-298). */
  const GatewayRetries: int := 3
  const GatewayBackoffMs: real := 5000.0

  function Sum(xs: seq<real>): real {
    if xs == [] then 0.0 else xs[0] + Sum(xs[1..])
  }

  /** The gateway's budget of 3 attempts from 5 s always resolves to a defined response,
      and waits at most 75 s in backoff in total, whatever the server answers. */
  lemma GatewayBudgetBounds<D>(verb: string, outcomes: seq<Outcome<D>>)
    requires GatewayRetries <= |outcomes|
    ensures var run := RequestWithRetry(verb, outcomes, GatewayRetries, GatewayBackoffMs);
      && run.result.Some?
      && run.attempts <= 3
      && Sum(run.sleepsMs) <= 75000.0
  {
    var run := RequestWithRetry(verb, outcomes, GatewayRetries, GatewayBackoffMs);
    var s0 := ScheduledSleep(Seen(verb, outcomes), GatewayBackoffMs, 0);
    var s1 := ScheduledSleep(Seen(verb, outcomes), GatewayBackoffMs, 1);
    assert s0 <= 30000.0;
    assert s1 <= 45000.0;
    if |run.sleepsMs| == 2 {
      assert run.sleepsMs[0] == s0 && run.sleepsMs[1] == s1;
      assert run.sleepsMs[1..] == [s1];
      assert Sum([s1]) == s1 + Sum([]);
      assert Sum(run.sleepsMs) == s0 + s1;
    } else if |run.sleepsMs| == 1 {
      assert run.sleepsMs[1..] == [];
      assert Sum(run.sleepsMs) == s0;
    }
  }
}
