/** The sliding-window limiter of lib/token-rate-limiter.js. The clock is a parameter (`now`,
    in milliseconds) and every sleep is returned as a wait instead of being performed. */
module RateLimiter {

  /** One entry of the token log. */
  datatype Usage = Usage(time: int, tokens: int)

  /** A computed sleep length. `Infinite` is the value JavaScript computes when the log it
      takes `Math.min` of is empty (`Math.min()` is `Infinity`). */
  datatype Delay = Ms(ms: int) | Infinite

  /** A sleep performed by `waitIfNeeded`, for the request limit or for the token limit. */
  datatype Wait = RequestWait(delay: Delay) | TokenWait(delay: Delay)

  /** `waitTime > 0`. */
  predicate Positive(d: Delay) {
    d.Infinite? || d.ms > 0
  }

  /** `log.filter(time => now - time < timeWindow)`. */
  function Prune(log: seq<int>, now: int, timeWindow: int): (r: seq<int>)
    ensures |r| <= |log|
    ensures forall t :: t in r ==> t in log && now - t < timeWindow
    ensures forall t :: t in log && now - t < timeWindow ==> t in r
  {
    if log == [] then []
    else (if now - log[0] < timeWindow then [log[0]] else []) + Prune(log[1..], now, timeWindow)
  }

  /** The same filter on the token log. */
  function PruneUsage(log: seq<Usage>, now: int, timeWindow: int): (r: seq<Usage>)
    ensures forall u :: u in r ==> u in log && now - u.time < timeWindow
    ensures forall u :: u in log && now - u.time < timeWindow ==> u in r
  {
    if log == [] then []
    else (if now - log[0].time < timeWindow then [log[0]] else []) + PruneUsage(log[1..], now, timeWindow)
  }

  /** The timestamps of the token log, `log.map(u => u.time)`. */
  function Times(log: seq<Usage>): (r: seq<int>)
    ensures |r| == |log| && forall k :: 0 <= k < |log| ==> r[k] == log[k].time
  {
    if log == [] then [] else [log[0].time] + Times(log[1..])
  }

  /** `log.reduce((sum, u) => sum + u.tokens, 0)`. */
  function TotalTokens(log: seq<Usage>): int {
    if log == [] then 0 else log[0].tokens + TotalTokens(log[1..])
  }

  /** `Math.min(...s)` of a non-empty list. */
  function Min(s: seq<int>): (m: int)
    requires s != []
    ensures m in s && forall t :: t in s ==> m <= t
  {
    if |s| == 1 then s[0]
    else
      var rest := Min(s[1..]);
      assert forall t :: t in s ==> t == s[0] || t in s[1..];
      if s[0] <= rest then s[0] else rest
  }

  /** `timeWindow - (now - Math.min(...times)) + 1000`: the sleep ends one second after the
      oldest logged time leaves the window, the first moment any entry does; `Math.min()` of
      nothing is `Infinity`. */
  function WaitTime(times: seq<int>, now: int, timeWindow: int): (r: Delay)
    ensures r.Infinite? <==> times == []
    ensures r.Ms? ==> forall t :: t in times ==> now + r.ms <= t + timeWindow + 1000
    ensures r.Ms? ==> exists t :: t in times && now + r.ms == t + timeWindow + 1000
  {
    if times == [] then Infinite else Ms(timeWindow - (now - Min(times)) + 1000)
  }

  /** The sleeps `waitIfNeeded(estimatedTokens)` performs at time `now` on the logs
      `requests` and `tokenUsage`, before anything is recorded. */
  function Waits(requests: seq<int>, tokenUsage: seq<Usage>, now: int, estimatedTokens: int,
                 maxRequests: int, maxTokens: int, timeWindow: int): (r: seq<Wait>)
    ensures |r| <= 2
  {
    var recent := Prune(requests, now, timeWindow);
    var recentUsage := PruneUsage(tokenUsage, now, timeWindow);
    var requestDelay := WaitTime(recent, now, timeWindow);
    var tokenDelay := WaitTime(Times(recentUsage), now, timeWindow);
    (if |recent| >= maxRequests && Positive(requestDelay) then [RequestWait(requestDelay)] else [])
      + (if TotalTokens(recentUsage) + estimatedTokens > maxTokens && Positive(tokenDelay)
         then [TokenWait(tokenDelay)] else [])
  }

  /** A wait computed from a pruned log is longer than 1000 ms: every entry left is younger
      than the window. */
  lemma WaitTimeLong(times: seq<int>, now: int, timeWindow: int)
    requires times != [] && forall t :: t in times ==> now - t < timeWindow
    ensures WaitTime(times, now, timeWindow).ms > 1000
  {
    assert Min(times) in times;
  }

  /** A call sleeps at most twice, for the request limit first; a request wait happens
      exactly when the recent requests reach `maxRequests`, and a token wait exactly when the
      recent tokens plus the estimate exceed `maxTokens`. Each finite wait is longer than
      1000 ms. */
  lemma WaitsFacts(requests: seq<int>, tokenUsage: seq<Usage>, now: int, estimatedTokens: int,
                   maxRequests: int, maxTokens: int, timeWindow: int)
    ensures var waits := Waits(requests, tokenUsage, now, estimatedTokens, maxRequests, maxTokens, timeWindow);
      var recent := Prune(requests, now, timeWindow);
      var recentUsage := PruneUsage(tokenUsage, now, timeWindow);
      |waits| <= 2
      && (forall k :: 0 <= k < |waits| ==> waits[k].delay.Infinite? || waits[k].delay.ms > 1000)
      && ((exists k :: 0 <= k < |waits| && waits[k].RequestWait?) <==> |recent| >= maxRequests)
      && ((exists k :: 0 <= k < |waits| && waits[k].TokenWait?)
          <==> TotalTokens(recentUsage) + estimatedTokens > maxTokens)
      && (|waits| == 2 ==> waits[0].RequestWait? && waits[1].TokenWait?)
  {
    var recent := Prune(requests, now, timeWindow);
    var recentUsage := PruneUsage(tokenUsage, now, timeWindow);
    if recent != [] {
      WaitTimeLong(recent, now, timeWindow);
    }
    if recentUsage != [] {
      forall t | t in Times(recentUsage) ensures now - t < timeWindow {
        var k :| 0 <= k < |recentUsage| && Times(recentUsage)[k] == t;
        assert recentUsage[k] in recentUsage;
      }
      WaitTimeLong(Times(recentUsage), now, timeWindow);
    }
    var waits := Waits(requests, tokenUsage, now, estimatedTokens, maxRequests, maxTokens, timeWindow);
    if |recent| >= maxRequests {
      assert waits[0].RequestWait?;
    }
    if TotalTokens(recentUsage) + estimatedTokens > maxTokens {
      assert waits[|waits| - 1].TokenWait?;
    }
  }

  /** With a non-empty recent log the request wait is exactly
      `timeWindow - (now - oldest) + 1000`. */
  lemma RequestWaitLength(requests: seq<int>, tokenUsage: seq<Usage>, now: int, estimatedTokens: int,
                          maxRequests: int, maxTokens: int, timeWindow: int)
    requires |Prune(requests, now, timeWindow)| >= maxRequests && Prune(requests, now, timeWindow) != []
    ensures var oldest := Min(Prune(requests, now, timeWindow));
      Waits(requests, tokenUsage, now, estimatedTokens, maxRequests, maxTokens, timeWindow)[0]
        == RequestWait(Ms(timeWindow - (now - oldest) + 1000))
  {
    WaitTimeLong(Prune(requests, now, timeWindow), now, timeWindow);
  }

  /** With a non-empty recent token log the token wait, the last sleep, is exactly
      `timeWindow - (now - oldestToken) + 1000`. */
  lemma TokenWaitLength(requests: seq<int>, tokenUsage: seq<Usage>, now: int, estimatedTokens: int,
                        maxRequests: int, maxTokens: int, timeWindow: int)
    requires TotalTokens(PruneUsage(tokenUsage, now, timeWindow)) + estimatedTokens > maxTokens
    requires PruneUsage(tokenUsage, now, timeWindow) != []
    ensures var oldest := Min(Times(PruneUsage(tokenUsage, now, timeWindow)));
      var waits := Waits(requests, tokenUsage, now, estimatedTokens, maxRequests, maxTokens, timeWindow);
      waits != [] && waits[|waits| - 1] == TokenWait(Ms(timeWindow - (now - oldest) + 1000))
  {
    var recentUsage := PruneUsage(tokenUsage, now, timeWindow);
    assert recentUsage[0] in recentUsage;
    assert Times(recentUsage) != [];
    forall t | t in Times(recentUsage) ensures now - t < timeWindow {
      var k :| 0 <= k < |recentUsage| && Times(recentUsage)[k] == t;
      assert recentUsage[k] in recentUsage;
    }
    WaitTimeLong(Times(recentUsage), now, timeWindow);
  }

  /** Pruning the token log prunes its timestamps the same way, so the two logs stay in
      step. */
  lemma {:induction false} PruneTimes(log: seq<Usage>, now: int, timeWindow: int)
    ensures Times(PruneUsage(log, now, timeWindow)) == Prune(Times(log), now, timeWindow)
  {
    if log != [] {
      PruneTimes(log[1..], now, timeWindow);
      assert Times(log)[1..] == Times(log[1..]);
      var head: seq<Usage> := if now - log[0].time < timeWindow then [log[0]] else [];
      TimesAppend(head, PruneUsage(log[1..], now, timeWindow));
    }
  }

  lemma {:induction false} TimesAppend(a: seq<Usage>, b: seq<Usage>)
    ensures Times(a + b) == Times(a) + Times(b)
  {
    if a != [] {
      assert (a + b)[1..] == a[1..] + b;
      TimesAppend(a[1..], b);
    } else {
      assert a + b == b;
    }
  }

  /** Every entry of the token log records `tokens` tokens, as when every caller passes the
      same estimate. */
  predicate Uniform(log: seq<Usage>, tokens: int) {
    forall u :: u in log ==> u.tokens == tokens
  }

  lemma {:induction false} PruneUsageLength(log: seq<Usage>, now: int, timeWindow: int)
    ensures |PruneUsage(log, now, timeWindow)| <= |log|
  {
    if log != [] {
      PruneUsageLength(log[1..], now, timeWindow);
    }
  }

  /** A uniform log of `n` entries holds `tokens * n` tokens. */
  lemma {:induction false} UniformTotal(log: seq<Usage>, tokens: int)
    requires Uniform(log, tokens)
    ensures TotalTokens(log) == tokens * |log|
  {
    if log != [] {
      var rest := log[1..];
      assert log[0] in log;
      assert forall u :: u in rest ==> u in log;
      UniformTotal(rest, tokens);
      MulSucc(tokens, |rest|);
    }
  }

  lemma MulSucc(a: int, n: int)
    ensures a * (n + 1) == a * n + a
  {
  }

  /** Pruning a uniform log and recording one more call with the same estimate keeps it
      uniform and grows it by at most one entry. */
  lemma UniformStep(log: seq<Usage>, now: int, timeWindow: int, tokens: int)
    requires Uniform(log, tokens)
    ensures Uniform(PruneUsage(log, now, timeWindow) + [Usage(now, tokens)], tokens)
    ensures |PruneUsage(log, now, timeWindow) + [Usage(now, tokens)]| <= |log| + 1
  {
    PruneUsageLength(log, now, timeWindow);
  }

  /** A call on a uniform log does not sleep when the log, pruned or not, leaves room for one
      more request and for one more estimate of tokens: whatever the clock reads, a burst of
      calls that fits the limits runs without waiting. */
  lemma QuietCall(requests: seq<int>, tokenUsage: seq<Usage>, now: int, tokens: int,
                  maxRequests: int, maxTokens: int, timeWindow: int)
    requires requests == Times(tokenUsage) && Uniform(tokenUsage, tokens) && tokens >= 0
    requires |tokenUsage| < maxRequests && tokens * (|tokenUsage| + 1) <= maxTokens
    ensures Waits(requests, tokenUsage, now, tokens, maxRequests, maxTokens, timeWindow) == []
  {
    var recentUsage := PruneUsage(tokenUsage, now, timeWindow);
    PruneUsageLength(tokenUsage, now, timeWindow);
    UniformTotal(recentUsage, tokens);
    MulMonotone(tokens, |recentUsage| + 1, |tokenUsage| + 1);
  }

  lemma MulMonotone(a: int, b: int, c: int)
    requires 0 <= a && b <= c
    ensures a * b <= a * c
  {
  }

  class TokenRateLimiter {
    var requests: seq<int>
    var tokenUsage: seq<Usage>
    const maxRequests: int
    const maxTokens: int
    const timeWindow: int

    /** The request log and the token log's timestamps are the same list. */
    ghost predicate Valid()
      reads this
    {
      requests == Times(tokenUsage)
    }

    constructor (maxRequests: int, maxTokens: int, timeWindow: int)
      ensures this.maxRequests == maxRequests && this.maxTokens == maxTokens && this.timeWindow == timeWindow
      ensures requests == [] && tokenUsage == []
      ensures Valid()
    {
      this.maxRequests := maxRequests;
      this.maxTokens := maxTokens;
      this.timeWindow := timeWindow;
      requests := [];
      tokenUsage := [];
    }

    /** The constructor with its default arguments. */
    constructor Default()
      ensures maxRequests == 200 && maxTokens == 150000 && timeWindow == 60000
      ensures requests == [] && tokenUsage == []
      ensures Valid()
    {
      maxRequests := 200;
      maxTokens := 150000;
      timeWindow := 60000;
      requests := [];
      tokenUsage := [];
    }

    /** `waitIfNeeded(estimatedTokens)` with the clock reading `now`: prunes both logs,
        sleeps for the request limit and then for the token limit as needed (returned as
        `waits`), and records `now`, the time read on entry. */
    method WaitIfNeeded(now: int, estimatedTokens: int) returns (waits: seq<Wait>)
      modifies this
      ensures requests == Prune(old(requests), now, timeWindow) + [now]
      ensures tokenUsage == PruneUsage(old(tokenUsage), now, timeWindow) + [Usage(now, estimatedTokens)]
      ensures waits == Waits(old(requests), old(tokenUsage), now, estimatedTokens, maxRequests, maxTokens, timeWindow)
      ensures old(Valid()) ==> Valid()
    {
      PruneTimes(tokenUsage, now, timeWindow);
      requests := Prune(requests, now, timeWindow);
      tokenUsage := PruneUsage(tokenUsage, now, timeWindow);
      var currentTokens := TotalTokens(tokenUsage);
      waits := [];
      if |requests| >= maxRequests {
        var waitTime := WaitTime(requests, now, timeWindow);
        if Positive(waitTime) {
          waits := waits + [RequestWait(waitTime)];
        }
      }
      if currentTokens + estimatedTokens > maxTokens {
        var waitTime := WaitTime(Times(tokenUsage), now, timeWindow);
        if Positive(waitTime) {
          waits := waits + [TokenWait(waitTime)];
        }
      }
      TimesAppend(tokenUsage, [Usage(now, estimatedTokens)]);
      requests := requests + [now];
      tokenUsage := tokenUsage + [Usage(now, estimatedTokens)];
    }
  }
}
