/**
 * `runCycle` (bot.js:539-557) and the configuration it reads (bot.js:29-48,
 * 352-371): the accounts of `bearer.txt` are visited in file order, account `i`
 * through proxy `i mod n` of the `n` entries of `proxy.txt` (or directly when there
 * are none), with a 5 s pause between consecutive accounts.
 *
 * What happens inside a visit is `Workflow.ProcessToken`; an exception it throws is
 * caught and the cycle goes on, so the schedule below does not depend on it.
 */
module Cycle {
  import opened Common
  import opened Lines

  const InterAccountDelaySeconds: nat := 5

  /** `readTokens` / `readProxies`: the file's entries, or none when it cannot be read
      (`None` is a failed `fs.readFile`). */
  function ReadEntries(file: Option<string>): (entries: seq<string>)
    ensures file.None? ==> entries == []
    ensures forall k :: 0 <= k < |entries| ==> entries[k] != [] && IsTrimmed(entries[k])
  {
    match file
    case None => []
    case Some(text) => ParseLines(text)
  }

  /** The account list and proxy list `initializeConfig` leaves behind;
      `globalUseProxy` is `proxies != []`. */
  datatype Config = Config(tokens: seq<string>, proxies: seq<string>)

  function InitializeConfig(tokenFile: Option<string>, proxyFile: Option<string>): (c: Config)
    ensures tokenFile.None? ==> c.tokens == []
    ensures proxyFile.None? ==> c.proxies == []
    ensures forall k :: 0 <= k < |c.tokens| ==> c.tokens[k] != [] && IsTrimmed(c.tokens[k])
    ensures forall k :: 0 <= k < |c.proxies| ==> c.proxies[k] != [] && IsTrimmed(c.proxies[k])
    ensures tokenFile.Some? ==> c.tokens == ParseLines(tokenFile.value)
    ensures proxyFile.Some? ==> c.proxies == ParseLines(proxyFile.value)
  {
    Config(ReadEntries(tokenFile), ReadEntries(proxyFile))
  }

  /** The proxy account `i` uses: `globalUseProxy ? globalProxies[i % n] : null`. */
  function ProxyFor(proxies: seq<string>, i: nat): (p: Option<string>)
    ensures p.None? <==> proxies == []
    ensures p.Some? ==> p.value in proxies
  {
    if proxies == [] then None else Some(proxies[i % |proxies|])
  }

  /** One step of a cycle: a call of `processToken` for account `account`, or a pause. */
  datatype Step = Visit(account: nat, token: string, proxy: Option<string>) | Pause(seconds: nat)

  /** The steps of the loop of bot.js:546-556 from account `i`. */
  function VisitsFrom(c: Config, i: nat): (steps: seq<Step>)
    requires i <= |c.tokens|
    ensures i == |c.tokens| ==> steps == []
    ensures i < |c.tokens| ==> |steps| == 2 * (|c.tokens| - i) - 1
    decreases |c.tokens| - i
  {
    if i == |c.tokens| then []
    else
      var visit := Visit(i, c.tokens[i], ProxyFor(c.proxies, i));
      var pause := if i < |c.tokens| - 1 then [Pause(InterAccountDelaySeconds)] else [];
      [visit] + pause + VisitsFrom(c, i + 1)
  }

  /** Step `m` of the run from account `i`: even steps visit account `i + m / 2`, odd
      steps pause. */
  lemma {:induction false} VisitsFromAt(c: Config, i: nat, m: nat)
    requires i <= |c.tokens| && m < |VisitsFrom(c, i)|
    ensures m % 2 == 0 ==>
      i + m / 2 < |c.tokens| &&
      VisitsFrom(c, i)[m] == Visit(i + m / 2, c.tokens[i + m / 2], ProxyFor(c.proxies, i + m / 2))
    ensures m % 2 == 1 ==> VisitsFrom(c, i)[m] == Pause(InterAccountDelaySeconds)
    decreases |c.tokens| - i
  {
    var visit := Visit(i, c.tokens[i], ProxyFor(c.proxies, i));
    var pause := if i < |c.tokens| - 1 then [Pause(InterAccountDelaySeconds)] else [];
    var rest := VisitsFrom(c, i + 1);
    var steps := VisitsFrom(c, i);
    assert steps == [visit] + pause + rest;
    if m >= 2 {
      assert pause != [];
      assert steps[m] == rest[m - 2];
      VisitsFromAt(c, i + 1, m - 2);
      assert (m - 2) % 2 == m % 2 && i + 1 + (m - 2) / 2 == i + m / 2;
    }
  }

  /** `runCycle`: nothing at all without tokens, otherwise visits and pauses alternating,
      starting and ending with a visit. */
  function RunCycle(c: Config): (steps: seq<Step>)
    ensures c.tokens == [] <==> steps == []
    ensures c.tokens != [] ==> |steps| == 2 * |c.tokens| - 1 && steps[0].Visit? && steps[|steps| - 1].Visit?
    ensures forall m :: 0 <= m < |steps| && m % 2 == 0 ==>
      steps[m] == Visit(m / 2, c.tokens[m / 2], ProxyFor(c.proxies, m / 2))
    ensures forall m :: 0 <= m < |steps| && m % 2 == 1 ==> steps[m] == Pause(InterAccountDelaySeconds)
  {
    var steps := VisitsFrom(c, 0);
    forall m | 0 <= m < |steps|
      ensures m % 2 == 0 ==> steps[m] == Visit(m / 2, c.tokens[m / 2], ProxyFor(c.proxies, m / 2))
      ensures m % 2 == 1 ==> steps[m] == Pause(InterAccountDelaySeconds)
    {
      VisitsFromAt(c, 0, m);
    }
    steps
  }

  /** The tokens of the visits among `steps`, in order. */
  function TokensVisited(steps: seq<Step>): seq<string> {
    if steps == [] then []
    else (if steps[0].Visit? then [steps[0].token] else []) + TokensVisited(steps[1..])
  }

  /** Total time paused in `steps`, in seconds. */
  function PausedSeconds(steps: seq<Step>): nat {
    if steps == [] then 0
    else (if steps[0].Pause? then steps[0].seconds else 0) + PausedSeconds(steps[1..])
  }

  // ---------------------------------------------------------------------------
  // Properties

  lemma {:induction false} TokensVisitedAppend(a: seq<Step>, b: seq<Step>)
    ensures TokensVisited(a + b) == TokensVisited(a) + TokensVisited(b)
    decreases |a|
  {
    if a == [] {
      assert a + b == b;
    } else {
      assert (a + b)[1..] == a[1..] + b;
      TokensVisitedAppend(a[1..], b);
    }
  }

  lemma {:induction false} PausedSecondsAppend(a: seq<Step>, b: seq<Step>)
    ensures PausedSeconds(a + b) == PausedSeconds(a) + PausedSeconds(b)
    decreases |a|
  {
    if a == [] {
      assert a + b == b;
    } else {
      assert (a + b)[1..] == a[1..] + b;
      PausedSecondsAppend(a[1..], b);
    }
  }

  /** One step of `VisitsFrom`: the visit of account `i`, a pause unless it is the last
      account, then the rest. */
  lemma VisitsFromStep(c: Config, i: nat)
    requires i < |c.tokens|
    ensures VisitsFrom(c, i)
      == [Visit(i, c.tokens[i], ProxyFor(c.proxies, i))]
         + (if i < |c.tokens| - 1 then [Pause(InterAccountDelaySeconds)] else [])
         + VisitsFrom(c, i + 1)
  {
  }

  lemma {:induction false} VisitsFromCoverTokens(c: Config, i: nat)
    requires i <= |c.tokens|
    ensures TokensVisited(VisitsFrom(c, i)) == c.tokens[i..]
    decreases |c.tokens| - i
  {
    if i < |c.tokens| {
      var visit := [Visit(i, c.tokens[i], ProxyFor(c.proxies, i))];
      var pause := if i < |c.tokens| - 1 then [Pause(InterAccountDelaySeconds)] else [];
      var rest := VisitsFrom(c, i + 1);
      VisitsFromStep(c, i);
      VisitsFromCoverTokens(c, i + 1);
      TokensVisitedAppend(visit + pause, rest);
      TokensVisitedAppend(visit, pause);
      assert visit[1..] == [];
      assert TokensVisited(visit) == [c.tokens[i]];
      if pause != [] {
        assert pause[1..] == [];
      }
      assert TokensVisited(pause) == [];
      assert c.tokens[i..] == [c.tokens[i]] + c.tokens[i + 1..];
    }
  }

  lemma {:induction false} VisitsFromPauses(c: Config, i: nat)
    requires i < |c.tokens|
    ensures PausedSeconds(VisitsFrom(c, i)) == InterAccountDelaySeconds * (|c.tokens| - i - 1)
    decreases |c.tokens| - i
  {
    var visit := [Visit(i, c.tokens[i], ProxyFor(c.proxies, i))];
    var pause := if i < |c.tokens| - 1 then [Pause(InterAccountDelaySeconds)] else [];
    var rest := VisitsFrom(c, i + 1);
    VisitsFromStep(c, i);
    PausedSecondsAppend(visit + pause, rest);
    PausedSecondsAppend(visit, pause);
    assert visit[1..] == [];
    assert PausedSeconds(visit) == 0;
    if pause != [] {
      assert pause[1..] == [];
      assert PausedSeconds(pause) == InterAccountDelaySeconds;
      VisitsFromPauses(c, i + 1);
    } else {
      assert rest == [];
    }
  }

  /** Every account of the file is visited exactly once, in file order, and the cycle
      pauses 5 s between consecutive accounts and nowhere else. */
  lemma EveryAccountVisitedOnce(c: Config)
    requires c.tokens != []
    ensures TokensVisited(RunCycle(c)) == c.tokens
    ensures PausedSeconds(RunCycle(c)) == InterAccountDelaySeconds * (|c.tokens| - 1)
  {
    VisitsFromCoverTokens(c, 0);
    VisitsFromPauses(c, 0);
  }

  /** Proxies are handed out round-robin: account `i` and account `i + n` share a proxy. */
  lemma ProxiesRotate(proxies: seq<string>, i: nat)
    ensures ProxyFor(proxies, i + |proxies|) == ProxyFor(proxies, i)
  {
    if proxies != [] {
      ModPeriod(i, |proxies|);
    }
  }

  lemma ModPeriod(i: nat, n: nat)
    requires 0 < n
    ensures (i + n) % n == i % n
  {
    var d := (i + n) / n - i / n - 1;
    assert n * d == i % n - (i + n) % n;
    if d >= 1 {
      MulAtLeast(n, d);
    } else if d <= -1 {
      MulAtLeast(n, -d);
    }
  }

  lemma MulAtLeast(n: nat, d: int)
    requires 0 < n && 1 <= d
    ensures n <= n * d
  {
  }

  /** The first `n` accounts get the `n` proxies in file order. */
  lemma FirstAccountsUseProxiesInOrder(proxies: seq<string>, i: nat)
    requires i < |proxies|
    ensures ProxyFor(proxies, i) == Some(proxies[i])
  {
  }

  /** With at least as many accounts as proxies, every proxy is used by some visit. */
  lemma EveryProxyUsed(c: Config, q: nat)
    requires q < |c.proxies| <= |c.tokens|
    ensures exists m :: 0 <= m < |RunCycle(c)| && RunCycle(c)[m] == Visit(q, c.tokens[q], Some(c.proxies[q]))
  {
    var steps := RunCycle(c);
    var m := 2 * q;
    assert m % 2 == 0 && m / 2 == q;
    FirstAccountsUseProxiesInOrder(c.proxies, q);
    assert steps[m] == Visit(q, c.tokens[q], Some(c.proxies[q]));
  }

  /** Two proxies and three accounts: accounts 1 and 3 go through the first proxy,
      account 2 through the second, with two 5 s pauses. */
  lemma ThreeAccountsTwoProxies()
    ensures RunCycle(Config(["t1", "t2", "t3"], ["p1", "p2"])) == [
      Visit(0, "t1", Some("p1")), Pause(5),
      Visit(1, "t2", Some("p2")), Pause(5),
      Visit(2, "t3", Some("p1"))]
  {
    var c := Config(["t1", "t2", "t3"], ["p1", "p2"]);
    var steps := RunCycle(c);
    assert steps[0] == Visit(0, "t1", Some("p1"));
    assert steps[2] == Visit(1, "t2", Some("p2"));
    assert steps[4] == Visit(2, "t3", Some("p1"));
  }

  /** A missing or blank token file makes the cycle do nothing. */
  lemma NoTokensNoCycle(tokenFile: Option<string>, proxyFile: Option<string>)
    requires tokenFile.Some? ==> AllSpace(tokenFile.value)
    ensures RunCycle(InitializeConfig(tokenFile, proxyFile)) == []
  {
    if tokenFile.Some? {
      BlankFileHasNoEntries(tokenFile.value);
    }
  }
}
