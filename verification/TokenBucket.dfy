/**
 The token bucket of src/ratelimit/bucket.py.

 The Lua script keeps a fractional token count in a Redis hash that also has an
 expiry. `Redis.Script` follows it statement by statement over `real`; `Serve`
 is the specification it is proved against, exact in integers because every
 token count is a multiple of 1/refill_secs. Times are in milliseconds: Redis
 expires keys on that clock, while the script is given whole seconds.
 */
module TokenBucket {
  import opened Options
  import opened Rounding

  type Positive = x: int | x >= 1 witness 1

  datatype Limit = Limit(max: Positive, refill: Positive)

  /** What the bucket holds: `scaled / refill` tokens, counted at second `last`. */
  datatype Bucket = Bucket(scaled: int, last: int, expiresAt: int)

  datatype Answer = Granted(remaining: int) | Denied(retryAfter: int)

  function Sec(ms: nat): nat { ms / 1000 }

  /** `secs` seconds of refill, scaled: each second drips `max` units of 1/refill token. */
  function Drip(l: Limit, secs: int): int
    decreases if secs < 0 then -secs else secs
  {
    if secs == 0 then 0
    else if secs > 0 then l.max + Drip(l, secs - 1)
    else Drip(l, secs + 1) - l.max
  }

  /** A full bucket, scaled: what drips in over one refill period. */
  function Cap(l: Limit): int { Drip(l, l.refill) }

  /** How many whole tokens a scaled amount holds. */
  function WholeTokens(l: Limit, scaled: int): int
    decreases scaled
  {
    if scaled < l.refill then 0 else 1 + WholeTokens(l, scaled - l.refill)
  }

  /** How many seconds of drip cover a scaled deficit. */
  function SecondsFor(l: Limit, deficit: int): int
    decreases deficit
  {
    if deficit <= 0 then 0 else 1 + SecondsFor(l, deficit - l.max)
  }

  function Refilled(l: Limit, b: Bucket, now: int): int {
    Min(Cap(l), b.scaled + Drip(l, now - b.last))
  }

  /** Whether the hash is still there at `ms`; with `forever`, keys never expire. */
  predicate Live(e: Option<Bucket>, ms: nat, forever: bool) {
    e.Some? && (forever || ms < e.value.expiresAt)
  }

  /** Tokens the next caller finds, scaled: a missing key counts as a full bucket. */
  function Level(l: Limit, e: Option<Bucket>, ms: nat, forever: bool): int {
    if Live(e, ms, forever) then Refilled(l, e.value, Sec(ms)) else Cap(l)
  }

  function Serve(l: Limit, e: Option<Bucket>, ms: nat, forever: bool): (Bucket, Answer) {
    var level := Level(l, e, ms, forever);
    var expiresAt := ms + 2000 * l.refill;
    if level >= l.refill then
      (Bucket(level - l.refill, Sec(ms), expiresAt), Granted(WholeTokens(l, level - l.refill)))
    else
      (Bucket(level, Sec(ms), expiresAt), Denied(SecondsFor(l, l.refill - level)))
  }

  function Run(l: Limit, e: Option<Bucket>, times: seq<nat>, forever: bool): (answers: seq<Answer>)
    ensures |answers| == |times|
    decreases |times|
  {
    if times == [] then []
    else
      var (b, a) := Serve(l, e, times[0], forever);
      [a] + Run(l, Some(b), times[1..], forever)
  }

  function After(l: Limit, e: Option<Bucket>, times: seq<nat>, forever: bool): Option<Bucket>
    decreases |times|
  {
    if times == [] then e
    else After(l, Some(Serve(l, e, times[0], forever).0), times[1..], forever)
  }

  ghost predicate Ordered(times: seq<nat>) {
    forall i, j :: 0 <= i < j < |times| ==> times[i] <= times[j]
  }

  /** What every reachable bucket satisfies, seen from any moment at or after `ms`. */
  ghost predicate Good(l: Limit, e: Option<Bucket>, ms: nat) {
    e.Some? ==>
      && 0 <= e.value.scaled <= Cap(l)
      && e.value.last <= Sec(ms)
      && e.value.last * 1000 + 2000 * l.refill <= e.value.expiresAt
  }

  // ----- Arithmetic -----

  lemma {:induction false} DripSplits(l: Limit, a: int, b: nat)
    ensures Drip(l, a + b) == Drip(l, a) + Drip(l, b)
  {
    if b > 0 {
      DripSplits(l, a, b - 1);
    }
  }

  lemma {:induction false} DripAtLeast(l: Limit, secs: nat)
    ensures Drip(l, secs) >= secs
  {
    if secs > 0 {
      DripAtLeast(l, secs - 1);
    }
  }

  lemma DripMonotone(l: Limit, a: int, b: int)
    requires a <= b
    ensures Drip(l, a) <= Drip(l, b)
  {
    DripSplits(l, a, b - a);
    DripAtLeast(l, b - a);
  }

  lemma {:induction false} DripIsProduct(l: Limit, secs: nat)
    ensures Drip(l, secs) == secs * l.max
  {
    if secs > 0 {
      DripIsProduct(l, secs - 1);
    }
  }

  lemma ProductAtLeast(x: int, y: int, m: Positive)
    requires x < y
    ensures x * m + m <= y * m
  {
    assert (y - x - 1) * m >= 0;
  }

  lemma QuotientIsUnique(a: int, m: Positive, q: int)
    requires q * m <= a < q * m + m
    ensures a / m == q
  {
    var d := a / m;
    assert a == d * m + a % m;
    if d < q {
      ProductAtLeast(d, q, m);
    } else if q < d {
      ProductAtLeast(q, d, m);
    }
  }

  lemma QuotientStep(a: int, m: Positive)
    ensures a / m == 1 + (a - m) / m
  {
    var d := (a - m) / m;
    assert a - m == d * m + (a - m) % m;
    QuotientIsUnique(a, m, 1 + d);
  }

  lemma {:induction false} WholeTokensIsQuotient(l: Limit, scaled: nat)
    ensures WholeTokens(l, scaled) == scaled / l.refill
    decreases scaled
  {
    if scaled >= l.refill {
      WholeTokensIsQuotient(l, scaled - l.refill);
      QuotientStep(scaled, l.refill);
    } else {
      QuotientIsUnique(scaled, l.refill, 0);
    }
  }

  /** SecondsFor is the least whole number of seconds whose drip covers the deficit. */
  lemma {:induction false} SecondsForIsLeast(l: Limit, deficit: int, secs: nat)
    ensures SecondsFor(l, deficit) >= 0
    ensures Drip(l, secs) >= deficit <==> secs >= SecondsFor(l, deficit)
    decreases deficit
  {
    DripAtLeast(l, secs);
    if deficit > 0 {
      SecondsForIsLeast(l, deficit - l.max, if secs > 0 then secs - 1 else 0);
    }
  }

  lemma {:induction false} SecondsForIsCeiling(l: Limit, deficit: int)
    requires deficit >= 0
    ensures SecondsFor(l, deficit) == -((-deficit) / l.max)
    decreases deficit
  {
    if deficit > l.max {
      SecondsForIsCeiling(l, deficit - l.max);
      QuotientStep(l.max - deficit, l.max);
    } else if deficit > 0 {
      QuotientIsUnique(-deficit, l.max, -1);
    }
  }

  // ----- One call -----

  /** Redis's expiry never changes what a caller finds: by then the bucket has refilled. */
  lemma ExpiredMeansFull(l: Limit, e: Option<Bucket>, ms: nat)
    requires Good(l, e, ms)
    ensures Level(l, e, ms, false) == Level(l, e, ms, true)
  {
    if e.Some? && ms >= e.value.expiresAt {
      assert Sec(ms) - e.value.last >= 2 * l.refill;
      DripMonotone(l, l.refill, Sec(ms) - e.value.last);
    }
  }

  lemma LevelBounds(l: Limit, e: Option<Bucket>, ms: nat, forever: bool)
    requires Good(l, e, ms)
    ensures 0 <= Level(l, e, ms, forever) <= Cap(l)
    ensures Cap(l) >= l.refill
  {
    DripAtLeast(l, l.refill);
    if Live(e, ms, forever) {
      DripAtLeast(l, Sec(ms) - e.value.last);
    }
  }

  lemma {:induction false} WholeTokensBound(l: Limit, scaled: int, n: nat)
    requires 0 <= scaled && scaled + l.refill <= Drip(Limit(l.refill, l.max), n)
    ensures 0 <= WholeTokens(l, scaled) < n
    decreases n
  {
    if scaled >= l.refill {
      WholeTokensBound(l, scaled - l.refill, n - 1);
    }
  }

  /** `refill` drips of `max` and `max` drips of `refill` are the same amount. */
  lemma CapSymmetric(l: Limit)
    ensures Cap(l) == Drip(Limit(l.refill, l.max), l.max)
  {
    DripIsProduct(l, l.refill);
    DripIsProduct(Limit(l.refill, l.max), l.max);
  }

  /** Every call leaves a good bucket: under a token after a denial, room for one after a grant. */
  lemma ServeKeepsGood(l: Limit, e: Option<Bucket>, ms: nat, later: nat, forever: bool)
    requires Good(l, e, ms) && ms <= later
    ensures Good(l, Some(Serve(l, e, ms, forever).0), later)
    ensures var (b, a) := Serve(l, e, ms, forever);
            && b.last == Sec(ms)
            && if a.Granted? then 0 <= b.scaled <= Cap(l) - l.refill && 0 <= a.remaining < l.max
               else 0 <= b.scaled < l.refill && a.retryAfter >= 1
  {
    LevelBounds(l, e, ms, forever);
    var level := Level(l, e, ms, forever);
    CapSymmetric(l);
    hide Level, Cap;
    if level >= l.refill {
      WholeTokensBound(l, level - l.refill, l.max);
    } else {
      SecondsForIsLeast(l, l.refill - level, 0);
    }
  }

  /** Refilling over two stretches is refilling over their sum, cap included. */
  lemma RefillComposes(l: Limit, b: Bucket, mid: Bucket, now: int)
    requires b.last <= mid.last <= now
    requires mid.scaled == Refilled(l, b, mid.last)
    ensures Refilled(l, mid, now) == Refilled(l, b, now)
  {
    DripSplits(l, mid.last - b.last, now - mid.last);
    DripAtLeast(l, now - mid.last);
  }

  // ----- Whole traces -----

  lemma {:induction false} ExpiryInvisibleFrom(l: Limit, e: Option<Bucket>, times: seq<nat>)
    requires Ordered(times)
    requires times != [] ==> Good(l, e, times[0])
    ensures Run(l, e, times, false) == Run(l, e, times, true)
    decreases |times|
  {
    if times != [] {
      ExpiredMeansFull(l, e, times[0]);
      hide Level, Good;
      var b := Serve(l, e, times[0], true).0;
      if |times| > 1 {
        ServeKeepsGood(l, e, times[0], times[1], true);
      }
      ExpiryInvisibleFrom(l, Some(b), times[1..]);
    }
  }

  /** A never-expiring bucket filled at second `since`. */
  function FullBucket(l: Limit, since: nat): Bucket {
    Bucket(Cap(l), since, 1000 * since + 2000 * l.refill)
  }

  /** A bucket that starts absent answers like one that starts full. */
  lemma AbsentIsFull(l: Limit, since: nat, times: seq<nat>)
    requires Ordered(times) && (times != [] ==> since <= Sec(times[0]))
    ensures Run(l, None, times, true) == Run(l, Some(FullBucket(l, since)), times, true)
  {
    if times != [] {
      DripAtLeast(l, Sec(times[0]) - since);
    }
  }

  /** The expiring bucket of the source answers as a never-expiring one that starts full. */
  lemma ExpiryIsInvisible(l: Limit, since: nat, times: seq<nat>)
    requires Ordered(times) && (times != [] ==> since <= Sec(times[0]))
    ensures Run(l, None, times, false) == Run(l, Some(FullBucket(l, since)), times, true)
  {
    ExpiryInvisibleFrom(l, None, times);
    AbsentIsFull(l, since, times);
  }

  /** The calls of a trace that were granted, and their answers. */
  function GrantedTimes(times: seq<nat>, answers: seq<Answer>): (kept: seq<nat>)
    requires |times| == |answers|
    ensures forall t :: t in kept ==> t in times
  {
    if times == [] then []
    else
      var rest := GrantedTimes(times[1..], answers[1..]);
      if answers[0].Granted? then [times[0]] + rest else rest
  }

  function GrantedAnswers(answers: seq<Answer>): seq<Answer> {
    if answers == [] then []
    else
      var rest := GrantedAnswers(answers[1..]);
      if answers[0].Granted? then [answers[0]] + rest else rest
  }

  lemma {:induction false} GrantedTimesOrdered(times: seq<nat>, answers: seq<Answer>)
    requires |times| == |answers| && Ordered(times)
    ensures Ordered(GrantedTimes(times, answers))
  {
    if times != [] {
      var rest := GrantedTimes(times[1..], answers[1..]);
      GrantedTimesOrdered(times[1..], answers[1..]);
      forall k | 0 <= k < |rest|
        ensures times[0] <= rest[k]
      {
        assert rest[k] in times[1..];
      }
    }
  }

  /** `ahead` is `behind` brought forward by refilling alone. */
  ghost predicate Advanced(l: Limit, ahead: Bucket, behind: Bucket) {
    behind.last <= ahead.last && ahead.scaled == Refilled(l, behind, ahead.last)
  }

  /** Advanced buckets answer alike; after a grant they are equal, after a denial still advanced. */
  lemma AdvancedStep(l: Limit, ahead: Bucket, behind: Bucket, t: nat)
    requires Advanced(l, ahead, behind) && ahead.last <= Sec(t)
    ensures var (b, a) := Serve(l, Some(ahead), t, true);
            && b.last == Sec(t)
            && (a.Granted? ==> Serve(l, Some(behind), t, true) == (b, a) && Advanced(l, b, b))
            && (a.Denied? ==> Advanced(l, b, behind))
  {
    RefillComposes(l, behind, ahead, Sec(t));
  }

  lemma {:induction false} DeniedCallsAreFreeFrom(l: Limit, ahead: Bucket, behind: Bucket, times: seq<nat>)
    requires Ordered(times) && Advanced(l, ahead, behind)
    requires times != [] ==> ahead.last <= Sec(times[0])
    ensures var answers := Run(l, Some(ahead), times, true);
            Run(l, Some(behind), GrantedTimes(times, answers), true) == GrantedAnswers(answers)
    decreases |times|
  {
    hide Advanced, Serve;
    if times != [] {
      var answers := Run(l, Some(ahead), times, true);
      var (b, a) := Serve(l, Some(ahead), times[0], true);
      AdvancedStep(l, ahead, behind, times[0]);
      assert answers[1..] == Run(l, Some(b), times[1..], true);
      var rest := GrantedTimes(times[1..], answers[1..]);
      if a.Granted? {
        DeniedCallsAreFreeFrom(l, b, b, times[1..]);
        assert GrantedTimes(times, answers) == [times[0]] + rest;
        assert ([times[0]] + rest)[1..] == rest;
      } else {
        DeniedCallsAreFreeFrom(l, b, behind, times[1..]);
      }
    }
  }

  /** Deleting every denied call from a trace changes no other answer. */
  lemma DeniedCallsAreFree(l: Limit, times: seq<nat>)
    requires Ordered(times)
    ensures var answers := Run(l, None, times, false);
            Run(l, None, GrantedTimes(times, answers), false) == GrantedAnswers(answers)
  {
    var answers := Run(l, None, times, false);
    var kept := GrantedTimes(times, answers);
    GrantedTimesOrdered(times, answers);
    ExpiryIsInvisible(l, 0, times);
    ExpiryIsInvisible(l, 0, kept);
    DeniedCallsAreFreeFrom(l, FullBucket(l, 0), FullBucket(l, 0), times);
  }

  // ----- The window bound -----

  function Grants(answers: seq<Answer>): nat { |GrantedAnswers(answers)| }

  /** The scaled cost of the grants among `answers`. */
  function Spent(l: Limit, answers: seq<Answer>): int {
    if answers == [] then 0
    else (if answers[0].Granted? then l.refill else 0) + Spent(l, answers[1..])
  }

  lemma {:induction false} SpentCountsGrants(l: Limit, answers: seq<Answer>)
    ensures Spent(l, answers) == Grants(answers) * l.refill
  {
    if answers != [] {
      SpentCountsGrants(l, answers[1..]);
      if answers[0].Granted? {
        assert Grants(answers) == 1 + Grants(answers[1..]);
      } else {
        assert Grants(answers) == Grants(answers[1..]);
      }
    }
  }

  /** One call spends at most what it found, and refilling adds at most the drip. */
  lemma SpendAndRefill(l: Limit, e: Option<Bucket>, t: nat, next: nat, forever: bool)
    requires Good(l, e, t) && t <= next
    ensures var (b, a) := Serve(l, e, t, forever);
            && Good(l, Some(b), next)
            && 0 <= b.scaled
            && (if a.Granted? then l.refill else 0) + b.scaled == Level(l, e, t, forever)
            && Level(l, Some(b), next, forever) <= b.scaled + Drip(l, Sec(next) - Sec(t))
  {
    ServeKeepsGood(l, e, t, next, forever);
    ExpiredMeansFull(l, Some(Serve(l, e, t, forever).0), next);
  }

  lemma SecMonotone(a: nat, b: nat)
    requires a <= b
    ensures Sec(a) <= Sec(b)
  {
  }

  /** The first call of a run, split off. */
  lemma RunHead(l: Limit, e: Option<Bucket>, times: seq<nat>, forever: bool)
    requires times != []
    ensures var (b, a) := Serve(l, e, times[0], forever);
      && Spent(l, Run(l, e, times, forever))
           == (if a.Granted? then l.refill else 0) + Spent(l, Run(l, Some(b), times[1..], forever))
      && After(l, e, times, forever) == After(l, Some(b), times[1..], forever)
  {
    hide Serve;
    var (b, a) := Serve(l, e, times[0], forever);
    assert Run(l, e, times, forever)[1..] == Run(l, Some(b), times[1..], forever);
  }

  /** Conservation: what was handed out plus what is left never exceeds what was there plus the refill. */
  lemma {:induction false} WindowFrom(l: Limit, e: Option<Bucket>, times: seq<nat>, forever: bool)
    requires Ordered(times) && times != [] && Good(l, e, times[0])
    ensures var left := After(l, e, times, forever);
            && left.Some?
            && 0 <= left.value.scaled
            && Spent(l, Run(l, e, times, forever)) + left.value.scaled
               <= Level(l, e, times[0], forever) + Drip(l, Sec(times[|times| - 1]) - Sec(times[0]))
    decreases |times|
  {
    var (b, a) := Serve(l, e, times[0], forever);
    RunHead(l, e, times, forever);
    SpendAndRefill(l, e, times[0], times[if |times| > 1 then 1 else 0], forever);
    DripSplits(l, 0, 0);
    hide Serve, Level, Good, Drip, Sec;
    if |times| > 1 {
      WindowFrom(l, Some(b), times[1..], forever);
      SecMonotone(times[1], times[|times| - 1]);
      DripSplits(l, Sec(times[1]) - Sec(times[0]), Sec(times[|times| - 1]) - Sec(times[1]));
      hide Run, After, Spent;
    } else {
      assert times[1..] == [];
    }
  }

  /** The answers to the calls of `window`, made after those of `before`. */
  function Window(l: Limit, before: seq<nat>, window: seq<nat>): seq<Answer> {
    Run(l, None, before + window, false)[|before|..]
  }

  lemma {:induction false} RunSplits(l: Limit, e: Option<Bucket>, before: seq<nat>, window: seq<nat>, forever: bool)
    ensures Run(l, e, before + window, forever)[|before|..] == Run(l, After(l, e, before, forever), window, forever)
    decreases |before|
  {
    if before == [] {
      assert before + window == window;
    } else {
      var b := Serve(l, e, before[0], forever).0;
      assert (before + window)[1..] == before[1..] + window;
      RunSplits(l, Some(b), before[1..], window, forever);
    }
  }

  lemma {:induction false} ReachableIsGood(l: Limit, e: Option<Bucket>, times: seq<nat>, later: nat, forever: bool)
    requires Ordered(times + [later])
    requires Good(l, e, (times + [later])[0])
    ensures Good(l, After(l, e, times, forever), later)
    decreases |times|
  {
    if times != [] {
      var rest := times[1..] + [later];
      assert rest == (times + [later])[1..];
      ServeKeepsGood(l, e, times[0], rest[0], forever);
      ReachableIsGood(l, Some(Serve(l, e, times[0], forever).0), times[1..], later, forever);
    }
  }

  lemma OrderedParts(before: seq<nat>, window: seq<nat>)
    requires Ordered(before + window) && window != []
    ensures Ordered(window) && Ordered(before + [window[0]])
    ensures Sec(window[0]) <= Sec(window[|window| - 1])
  {
    var all := before + window;
    forall k | 0 <= k < |window|
      ensures window[k] == all[|before| + k]
    {
    }
    assert before + [window[0]] == all[..|before| + 1];
  }

  lemma LevelWithinCap(l: Limit, e: Option<Bucket>, ms: nat)
    ensures Level(l, e, ms, false) <= Cap(l)
  {
  }

  /** In any window of a run the grants fit in one full bucket plus the refill of the window. */
  lemma WindowBound(l: Limit, before: seq<nat>, window: seq<nat>)
    requires Ordered(before + window) && window != []
    ensures Spent(l, Window(l, before, window)) <= Cap(l) + Drip(l, Sec(window[|window| - 1]) - Sec(window[0]))
  {
    var e := After(l, None, before, false);
    RunSplits(l, None, before, window, false);
    OrderedParts(before, window);
    hide Serve, Level, Cap, Drip, Spent, Run, Ordered;
    ReachableIsGood(l, None, before, window[0], false);
    LevelWithinCap(l, e, window[0]);
    WindowFrom(l, e, window, false);
  }

  /** The same bound in tokens: grants times refill_secs against max_tokens and elapsed seconds. */
  lemma WindowBoundInTokens(l: Limit, before: seq<nat>, window: seq<nat>)
    requires Ordered(before + window) && window != []
    ensures Grants(Window(l, before, window)) * l.refill
            <= l.max * l.refill + (Sec(window[|window| - 1]) - Sec(window[0])) * l.max
  {
    OrderedParts(before, window);
    hide Window, Spent, Grants;
    WindowBound(l, before, window);
    SpentCountsGrants(l, Window(l, before, window));
    DripIsProduct(l, l.refill);
    DripIsProduct(l, Sec(window[|window| - 1]) - Sec(window[0]));
  }

  // ----- retry_after -----

  lemma {:induction false} DenialsOnlyAdvance(l: Limit, ahead: Bucket, behind: Bucket, mids: seq<nat>, later: nat)
    requires Ordered(mids + [later]) && Good(l, Some(ahead), (mids + [later])[0])
    requires Advanced(l, ahead, behind)
    requires forall a :: a in Run(l, Some(ahead), mids, false) ==> a.Denied?
    ensures Level(l, After(l, Some(ahead), mids, false), later, false) == Refilled(l, behind, Sec(later))
    decreases |mids|
  {
    if mids == [] {
      ExpiredMeansFull(l, Some(ahead), later);
      RefillComposes(l, behind, ahead, Sec(later));
    } else {
      var rest := mids[1..] + [later];
      assert rest == (mids + [later])[1..];
      var (n, a) := Serve(l, Some(ahead), mids[0], false);
      assert Run(l, Some(ahead), mids, false)[0] == a;
      assert Run(l, Some(ahead), mids, false)[1..] == Run(l, Some(n), mids[1..], false);
      ServeKeepsGood(l, Some(ahead), mids[0], rest[0], false);
      ExpiredMeansFull(l, Some(ahead), mids[0]);
      AdvancedStep(l, ahead, behind, mids[0]);
      hide Serve, Good, Advanced, Refilled, Level;
      DenialsOnlyAdvance(l, n, behind, mids[1..], later);
    }
  }

  lemma OrderedTail(times: seq<nat>)
    requires Ordered(times) && |times| > 1
    ensures Ordered(times[1..]) && times[0] <= times[1] && times[0] <= times[|times| - 1]
  {
  }

  lemma RunUnfolds(l: Limit, e: Option<Bucket>, t: nat, mids: seq<nat>)
    ensures var (b, a) := Serve(l, e, t, false);
            && Run(l, e, [t] + mids, false) == [a] + Run(l, Some(b), mids, false)
            && After(l, e, [t] + mids, false) == After(l, Some(b), mids, false)
  {
    assert ([t] + mids)[1..] == mids;
  }

  lemma GrantedAtLevel(l: Limit, e: Option<Bucket>, ms: nat)
    ensures Serve(l, e, ms, false).1.Granted? <==> Level(l, e, ms, false) >= l.refill
  {
  }

  /** `retryAfter` is where refilling alone first reaches one token. */
  lemma DenialThreshold(l: Limit, e: Option<Bucket>, ms: nat, now: int)
    requires Sec(ms) <= now
    requires Serve(l, e, ms, false).1.Denied?
    ensures var (b, a) := Serve(l, e, ms, false);
            && Advanced(l, b, b)
            && (Refilled(l, b, now) >= l.refill <==> now - Sec(ms) >= a.retryAfter)
  {
    var b := Serve(l, e, ms, false).0;
    DripAtLeast(l, l.refill);
    SecondsForIsLeast(l, l.refill - b.scaled, now - Sec(ms));
  }

  /** After a denial, and only denials since, a call is granted exactly from `retryAfter` seconds on. */
  lemma RetryAfterIsExact(l: Limit, e: Option<Bucket>, t: nat, mids: seq<nat>, later: nat)
    requires Ordered([t] + mids + [later]) && Good(l, e, t)
    requires forall a :: a in Run(l, e, [t] + mids, false) ==> a.Denied?
    ensures var r := Run(l, e, [t] + mids, false)[0].retryAfter;
            Serve(l, After(l, e, [t] + mids, false), later, false).1.Granted? <==> Sec(later) - Sec(t) >= r
  {
    hide *;
    var trace := [t] + mids;
    var b := Serve(l, e, t, false).0;
    RunUnfolds(l, e, t, mids);
    var rest := mids + [later];
    var whole := [t] + mids + [later];
    assert whole[0] == t && whole[1] == rest[0] && rest == whole[1..] && whole[|whole| - 1] == later;
    OrderedTail(whole);
    ServeKeepsGood(l, e, t, rest[0], false);
    SecMonotone(t, later);
    DenialThreshold(l, e, t, Sec(later));
    GrantedAtLevel(l, After(l, e, trace, false), later);
    DenialsOnlyAdvance(l, b, b, mids, later);
  }

  // ----- Bursts -----

  function Burst(ms: nat, n: nat): (times: seq<nat>)
    ensures |times| == n
  {
    if n == 0 then [] else [ms] + Burst(ms, n - 1)
  }

  /** `secs` is the least number of seconds whose refill brings `left` up to a token. */
  predicate IsWait(l: Limit, left: int, secs: int) {
    left + secs * l.max >= l.refill > left + (secs - 1) * l.max
  }

  /** The answer to call number `i` of a burst that finds `tokens` whole tokens, the rest being `level`. */
  predicate BurstAnswer(l: Limit, level: int, tokens: int, i: int, a: Answer) {
    if i < tokens then a == Granted(tokens - 1 - i)
    else a.Denied? && a.retryAfter >= 1 && IsWait(l, level - tokens * l.refill, a.retryAfter)
  }

  /** What a bucket holds later, if nobody calls: the refill added, up to full; expired or not. */
  lemma LevelLater(l: Limit, b: Bucket, ms: nat)
    requires Good(l, Some(b), ms)
    ensures Level(l, Some(b), ms, false) == Min(l.max * l.refill, b.scaled + (Sec(ms) - b.last) * l.max)
  {
    ExpiredMeansFull(l, Some(b), ms);
    DripIsProduct(l, l.refill);
    DripIsProduct(l, Sec(ms) - b.last);
  }

  lemma LevelAfterCall(l: Limit, e: Option<Bucket>, ms: nat)
    requires Good(l, e, ms)
    ensures var (b, a) := Serve(l, e, ms, false);
      && Good(l, Some(b), ms)
      && Level(l, Some(b), ms, false) == Level(l, e, ms, false) - if a.Granted? then l.refill else 0
  {
    ServeKeepsGood(l, e, ms, ms, false);
    LevelBounds(l, e, ms, false);
    hide WholeTokens, SecondsFor, Cap;
  }

  lemma WaitIs(l: Limit, left: int)
    requires 0 <= left < l.refill
    ensures SecondsFor(l, l.refill - left) >= 1 && IsWait(l, left, SecondsFor(l, l.refill - left))
  {
    var secs := SecondsFor(l, l.refill - left);
    SecondsForIsLeast(l, l.refill - left, 0);
    SecondsForIsLeast(l, l.refill - left, secs);
    SecondsForIsLeast(l, l.refill - left, secs - 1);
    DripIsProduct(l, secs);
    DripIsProduct(l, secs - 1);
    hide Drip, SecondsFor;
  }

  lemma ShiftAnswer(l: Limit, level: int, tokens: int, i: int, a: Answer)
    requires BurstAnswer(l, level - l.refill, tokens - 1, i - 1, a)
    ensures BurstAnswer(l, level, tokens, i, a)
  {
    hide IsWait;
    assert level - l.refill - (tokens - 1) * l.refill == level - tokens * l.refill;
  }

  lemma BurstHead(l: Limit, e: Option<Bucket>, ms: nat, n: nat)
    requires 0 < n
    ensures Run(l, e, Burst(ms, n), false)[0] == Serve(l, e, ms, false).1
  {
    hide Serve;
  }

  lemma BurstTail(l: Limit, e: Option<Bucket>, ms: nat, n: nat, i: nat)
    requires 0 < i < n
    ensures Run(l, e, Burst(ms, n), false)[i] == Run(l, Some(Serve(l, e, ms, false).0), Burst(ms, n - 1), false)[i - 1]
  {
    hide Serve;
    assert Burst(ms, n)[1..] == Burst(ms, n - 1);
  }

  lemma OneTokenLess(l: Limit, level: int)
    requires level >= l.refill
    ensures WholeTokens(l, level) == WholeTokens(l, level - l.refill) + 1
  {
  }

  lemma FirstOfBurst(l: Limit, e: Option<Bucket>, ms: nat)
    requires Good(l, e, ms)
    ensures var level := Level(l, e, ms, false);
      && BurstAnswer(l, level, WholeTokens(l, level), 0, Serve(l, e, ms, false).1)
      && (Serve(l, e, ms, false).1.Granted? <==> level >= l.refill)
  {
    LevelBounds(l, e, ms, false);
    var level := Level(l, e, ms, false);
    if level >= l.refill {
      OneTokenLess(l, level);
      WholeTokensIsQuotient(l, level - l.refill);
    } else {
      WaitIs(l, level);
    }
    hide Level, Cap, IsWait;
  }

  /**
   * Of calls made in one instant exactly as many are granted as there are whole tokens, counting down to
   * zero; each of the others is told the least wait after which there is a token.
   */
  lemma {:induction false} BurstFrom(l: Limit, e: Option<Bucket>, ms: nat, n: nat, i: nat)
    requires Good(l, e, ms) && i < n
    ensures var level := Level(l, e, ms, false);
      BurstAnswer(l, level, WholeTokens(l, level), i, Run(l, e, Burst(ms, n), false)[i])
    decreases n
  {
    var level := Level(l, e, ms, false);
    var (b, a) := Serve(l, e, ms, false);
    LevelBounds(l, e, ms, false);
    LevelAfterCall(l, e, ms);
    FirstOfBurst(l, e, ms);
    hide Serve, Level, Good, WholeTokens, SecondsFor, Cap, IsWait, BurstAnswer, Run, Burst;
    if i == 0 {
      BurstHead(l, e, ms, n);
    } else {
      BurstTail(l, e, ms, n, i);
      BurstFrom(l, Some(b), ms, n - 1, i - 1);
      if a.Granted? {
        OneTokenLess(l, level);
        ShiftAnswer(l, level, WholeTokens(l, level), i, Run(l, e, Burst(ms, n), false)[i]);
      }
    }
  }

  /** A fresh bucket grants exactly max_tokens calls at once, with max_tokens - 1 down to 0 left. */
  lemma {:induction false} FreshBurst(l: Limit, ms: nat, n: nat, i: nat)
    requires i < n
    ensures var a := Run(l, None, Burst(ms, n), false)[i];
      if i < l.max then a == Granted(l.max - 1 - i)
      else a.Denied? && a.retryAfter * l.max >= l.refill > (a.retryAfter - 1) * l.max
  {
    BurstFrom(l, None, ms, n, i);
    DripIsProduct(l, l.refill);
    WholeTokensIsQuotient(l, Cap(l));
    QuotientIsUnique(l.max * l.refill, l.refill, l.max);
    hide Run, WholeTokens, Drip;
  }

  /**
   * After any calls at all and some idle time, a burst is granted exactly min(max_tokens, left + refill)
   * in whole tokens, where `left` is what the last call left.
   */
  lemma {:induction false} BurstAfterIdleTime(l: Limit, b: Bucket, ms: nat, n: nat, i: nat)
    requires Good(l, Some(b), ms) && i < n
    ensures var level := Min(l.max * l.refill, b.scaled + (Sec(ms) - b.last) * l.max);
      BurstAnswer(l, level, level / l.refill, i, Run(l, Some(b), Burst(ms, n), false)[i])
  {
    BurstFrom(l, Some(b), ms, n, i);
    LevelLater(l, b, ms);
    LevelBounds(l, Some(b), ms, false);
    WholeTokensIsQuotient(l, Level(l, Some(b), ms, false));
    hide Run, WholeTokens, Level, BurstAnswer;
  }

  // ----- The script itself, over the fractional counts Redis stores -----

  datatype Hash = Hash(tokens: real, lastRefill: int, expiresAt: int)

  /** A fractional count, scaled. */
  function Scale(x: real, r: Positive): real { x * r as real }

  /** The stored hash `h` holds exactly the bucket `b`. */
  ghost predicate Holds(l: Limit, h: Hash, b: Bucket) {
    Scale(h.tokens, l.refill) == b.scaled as real && h.lastRefill == b.last && h.expiresAt == b.expiresAt
  }

  ghost predicate HoldsEntry(l: Limit, h: Option<Hash>, b: Option<Bucket>) {
    match (h, b)
    case (None, None) => true
    case (Some(hash), Some(bucket)) => Holds(l, hash, bucket)
    case _ => false
  }

  function CeilReal(x: real): int { -((-x).Floor) }

  function RefillRate(l: Limit): real { l.max as real / l.refill as real }

  /** Tokens that drip in over `secs` seconds. */
  function Dripped(l: Limit, secs: int): real { secs as real * RefillRate(l) }

  /** The script's count after refilling and capping. */
  function LuaRefill(l: Limit, h: Hash, now: int): real {
    var grown := h.tokens + Dripped(l, now - h.lastRefill);
    if grown <= l.max as real then grown else l.max as real
  }

  lemma ScaleAdd(x: real, y: real, r: Positive)
    ensures Scale(x + y, r) == Scale(x, r) + Scale(y, r)
  {
  }

  lemma ScaleInt(a: int, r: Positive)
    ensures Scale(a as real, r) == (a * r) as real
  {
  }

  lemma ScaleOrder(a: real, b: real, r: Positive)
    ensures a <= b <==> Scale(a, r) <= Scale(b, r)
  {
    if a <= b {
      assert (b - a) * r as real >= 0.0;
    } else {
      assert (a - b) * r as real > 0.0;
    }
  }

  lemma Rearrange(x: real, y: real, z: real)
    ensures x * y * z == x * (y * z)
  {
  }

  lemma ScaleRate(l: Limit)
    ensures RefillRate(l) > 0.0 && Scale(RefillRate(l), l.refill) == l.max as real
  {
  }

  lemma ScaleDrip(l: Limit, secs: int)
    requires secs >= 0
    ensures Scale(Dripped(l, secs), l.refill) == Drip(l, secs) as real
  {
    DripIsProduct(l, secs);
    ScaleRate(l);
    Rearrange(secs as real, RefillRate(l), l.refill as real);
  }

  lemma DivMulBounds(s: int, r: Positive)
    ensures (s / r) * r <= s < (s / r + 1) * r
  {
    assert s == r * (s / r) + s % r;
  }

  /** Flooring a fractional count is dividing its scaled form. */
  lemma ScaleFloor(x: real, s: int, r: Positive)
    requires Scale(x, r) == s as real
    ensures x.Floor == s / r
  {
    var q := s / r;
    DivMulBounds(s, r);
    ScaleInt(q, r);
    ScaleInt(q + 1, r);
    ScaleOrder(q as real, x, r);
    ScaleOrder((q + 1) as real, x, r);
    hide Scale;
  }

  lemma ScaleQuotient(deficit: real, rate: real, l: Limit)
    requires rate > 0.0 && Scale(rate, l.refill) == l.max as real
    ensures Scale(-(deficit / rate), l.max) == -Scale(deficit, l.refill)
  {
    var x := deficit / rate;
    assert x * rate == deficit;
    Rearrange(x, rate, l.refill as real);
  }

  /** The script's retry_after is the scaled deficit divided by the refill, rounded up. */
  lemma ScaleRetry(tokens: real, scaled: int, l: Limit)
    requires Scale(tokens, l.refill) == scaled as real && scaled <= l.refill
    ensures CeilReal((1.0 - tokens) / RefillRate(l)) == SecondsFor(l, l.refill - scaled)
  {
    SecondsForIsCeiling(l, l.refill - scaled);
    var deficit := 1.0 - tokens;
    ScaleRate(l);
    ScaleQuotient(deficit, RefillRate(l), l);
    ScaleAdd(deficit, tokens, l.refill);
    ScaleInt(1, l.refill);
    hide Scale;
    assert Scale(deficit, l.refill) == (l.refill - scaled) as real;
    ScaleFloor(-(deficit / RefillRate(l)), scaled - l.refill, l.max);
  }

  lemma HashRefill(l: Limit, h: Hash, b: Bucket, now: int)
    requires Holds(l, h, b) && b.last <= now
    ensures Scale(LuaRefill(l, h, now), l.refill) == Refilled(l, b, now) as real
    ensures LuaRefill(l, h, now) >= 1.0 <==> Refilled(l, b, now) >= l.refill
  {
    var elapsed := now - h.lastRefill;
    var dripped := Dripped(l, elapsed);
    ScaleDrip(l, elapsed);
    ScaleInt(l.max, l.refill);
    DripIsProduct(l, l.refill);
    assert l.max * l.refill == Cap(l);
    hide Scale, Drip, Cap, Dripped;
    ScaleAdd(h.tokens, dripped, l.refill);
    ScaleOrder(h.tokens + dripped, l.max as real, l.refill);
    ScaleInt(1, l.refill);
    ScaleOrder(1.0, LuaRefill(l, h, now), l.refill);
  }

  /** A first call leaves `max_tokens - 1`. */
  lemma FirstCallMatches(l: Limit, ms: nat, b: Option<Bucket>)
    requires !Live(b, ms, false)
    ensures var (after, answer) := Serve(l, b, ms, false);
            && answer == Granted(l.max - 1)
            && Holds(l, Hash((l.max - 1) as real, Sec(ms), ms + 2000 * l.refill), after)
  {
    DripAtLeast(l, l.refill);
    DripIsProduct(l, l.refill);
    ScaleInt(l.max - 1, l.refill);
    assert (l.max - 1) * l.refill == Cap(l) - l.refill;
    hide Scale, Cap;
    ScaleFloor((l.max - 1) as real, Cap(l) - l.refill, l.refill);
    WholeTokensIsQuotient(l, Cap(l) - l.refill);
  }

  /** A later call stores the refilled count, less one when it is granted. */
  lemma LaterCallMatches(l: Limit, h: Hash, b: Bucket, ms: nat)
    requires Holds(l, h, b) && Live(Some(b), ms, false) && b.last <= Sec(ms)
    ensures var (after, answer) := Serve(l, Some(b), ms, false);
            var newTokens := LuaRefill(l, h, Sec(ms));
            if newTokens >= 1.0 then
              && answer == Granted((newTokens - 1.0).Floor)
              && Holds(l, Hash(newTokens - 1.0, Sec(ms), ms + 2000 * l.refill), after)
            else
              && answer == Denied(CeilReal((1.0 - newTokens) / RefillRate(l)))
              && Holds(l, Hash(newTokens, Sec(ms), ms + 2000 * l.refill), after)
  {
    HashRefill(l, h, b, Sec(ms));
    var level := Refilled(l, b, Sec(ms));
    var newTokens := LuaRefill(l, h, Sec(ms));
    hide Refilled, LuaRefill, CeilReal, Scale, RefillRate;
    if newTokens >= 1.0 {
      ScaleAdd(newTokens - 1.0, 1.0, l.refill);
      ScaleInt(1, l.refill);
      ScaleFloor(newTokens - 1.0, level - l.refill, l.refill);
      WholeTokensIsQuotient(l, level - l.refill);
    } else {
      ScaleRetry(newTokens, level, l);
    }
  }

  class Redis {
    var hashes: map<string, Hash>

    /** HMGET: an expired key reads as absent. */
    function Read(key: string, ms: nat): Option<Hash>
      reads this
    {
      if key in hashes && ms < hashes[key].expiresAt then Some(hashes[key]) else None
    }

    /** The Lua script. `b` is the specification's view of the stored hash. */
    method Script(key: string, l: Limit, ms: nat, ghost b: Option<Bucket>)
      returns (remaining: int, retryAfter: int)
      requires HoldsEntry(l, Get(hashes, key), b) && Good(l, b, ms)
      modifies this
      ensures forall k :: k != key ==> Get(hashes, k) == old(Get(hashes, k))
      ensures key in hashes && hashes[key].lastRefill == ms / 1000 && hashes[key].expiresAt == ms + 2000 * l.refill
      ensures key !in old(hashes) || old(hashes)[key].expiresAt <= ms ==>
                remaining == l.max - 1 && retryAfter == 0 && hashes[key].tokens == (l.max - 1) as real
      ensures var (after, answer) := Serve(l, b, ms, false);
              && HoldsEntry(l, Get(hashes, key), Some(after))
              && match answer {
                case Granted(left) => remaining == left && left >= 0 && retryAfter == 0
                case Denied(wait) => remaining == -1 && retryAfter == wait && wait >= 1
              }
    {
      ServeKeepsGood(l, b, ms, ms, false);
      hide Serve, Level, Good, Refilled, CeilReal, Holds, Cap, LuaRefill, RefillRate;
      var now := Sec(ms);
      var bucket := Read(key, ms);
      var expiresAt := ms + 2000 * l.refill;
      if bucket.None? {
        FirstCallMatches(l, ms, b);
        hashes := hashes[key := Hash((l.max - 1) as real, now, expiresAt)];
        return l.max - 1, 0;
      }
      LaterCallMatches(l, bucket.value, b.value, ms);
      var newTokens := LuaRefill(l, bucket.value, now);
      if newTokens >= 1.0 {
        newTokens := newTokens - 1.0;
        hashes := hashes[key := Hash(newTokens, now, expiresAt)];
        return newTokens.Floor, 0;
      } else {
        var deficit := 1.0 - newTokens;
        ScaleRate(l);
        hashes := hashes[key := Hash(newTokens, now, expiresAt)];
        return -1, CeilReal(deficit / RefillRate(l));
      }
    }
  }

  // ----- RateLimiter.enforce -----

  function PerMinute(free: Positive, pro: Positive, enterprise: Positive, plan: string): Option<Limit> {
    match plan
    case "free" => Some(Limit(free, 60))
    case "pro" => Some(Limit(pro, 60))
    case "enterprise" => Some(Limit(enterprise, 60))
    case _ => None
  }

  function RateLimit(resource: string, plan: string): Option<Limit> {
    match resource
    case "apollo" => PerMinute(10, 100, 500, plan)
    case "clay" => PerMinute(5, 50, 200, plan)
    case "linkedin" => PerMinute(5, 30, 120, plan)
    case "email_send" => PerMinute(20, 200, 1000, plan)
    case "claude" => PerMinute(15, 150, 600, plan)
    case "api" => PerMinute(60, 300, 1000, plan)
    case _ => None
  }

  lemma OnlyListedAreLimited(resource: string, plan: string)
    ensures RateLimit(resource, plan).Some? ==>
              && resource in ["apollo", "clay", "linkedin", "email_send", "claude", "api"]
              && plan in ["free", "pro", "enterprise"] && RateLimit(resource, plan).value.refill == 60
  {
  }

  predicate Calls(resource: string, free: int, pro: int, enterprise: int) {
    && RateLimit(resource, "free").Some? && RateLimit(resource, "free").value.max == free
    && RateLimit(resource, "pro").Some? && RateLimit(resource, "pro").value.max == pro
    && RateLimit(resource, "enterprise").Some? && RateLimit(resource, "enterprise").value.max == enterprise
  }

  /** The limits in force, calls a minute. */
  lemma LimitsInForce()
    ensures Calls("apollo", 10, 100, 500) && Calls("clay", 5, 50, 200) && Calls("linkedin", 5, 30, 120)
    ensures Calls("email_send", 20, 200, 1000) && Calls("claude", 15, 150, 600) && Calls("api", 60, 300, 1000)
  {
  }

  function BucketKey(prefix: string, workspace: string, resource: string): string {
    prefix + workspace + ":ratelimit:" + resource
  }

  /** Equal keys whose resources differ in length put a colon inside the longer resource. */
  lemma ColonBefore(prefix: string, w1: string, r1: string, w2: string, r2: string)
    requires |r1| < |r2| && BucketKey(prefix, w1, r1) == BucketKey(prefix, w2, r2)
    ensures ':' in r2
  {
    var key := BucketKey(prefix, w1, r1);
    assert key[|key| - |r1| - 1] == ':';
    assert key[|key| - |r2|..] == r2;
    assert r2[|r2| - |r1| - 1] == ':';
  }

  /** No two workspace and resource pairs share a bucket, whatever the workspace names are. */
  lemma BucketsAreSeparate(prefix: string, w1: string, r1: string, w2: string, r2: string, p1: string, p2: string)
    requires RateLimit(r1, p1).Some? && RateLimit(r2, p2).Some?
    requires BucketKey(prefix, w1, r1) == BucketKey(prefix, w2, r2)
    ensures w1 == w2 && r1 == r2
  {
    if |r1| < |r2| {
      ColonBefore(prefix, w1, r1, w2, r2);
    } else if |r2| < |r1| {
      ColonBefore(prefix, w2, r2, w1, r1);
    } else {
      var key := BucketKey(prefix, w1, r1);
      assert key[|key| - |r1|..] == r1 && key[|key| - |r2|..] == r2;
      assert key[|prefix|..|key| - |r1| - 11] == w1;
      assert key[|prefix|..|key| - |r2| - 11] == w2;
    }
  }

  datatype Outcome = Allowed | Exceeded(retryAfter: int)

  class RateLimiter {
    const prefix: string
    const redis: Redis

    constructor (prefix: string, redis: Redis)
      ensures this.prefix == prefix && this.redis == redis
    {
      this.prefix := prefix;
      this.redis := redis;
    }

    /** Unknown resources and plans are not limited and touch no bucket. */
    method Enforce(workspace: string, resource: string, plan: string, ms: nat, ghost b: Option<Bucket>)
      returns (outcome: Outcome)
      requires var limit := RateLimit(resource, plan);
               limit.Some? ==> HoldsEntry(limit.value, Get(redis.hashes, BucketKey(prefix, workspace, resource)), b)
                               && Good(limit.value, b, ms)
      modifies redis
      ensures RateLimit(resource, plan).None? ==> outcome == Allowed && redis.hashes == old(redis.hashes)
      ensures forall k :: k != BucketKey(prefix, workspace, resource) ==>
                Get(redis.hashes, k) == old(Get(redis.hashes, k))
      ensures RateLimit(resource, plan).Some? ==>
                var l := RateLimit(resource, plan).value;
                var (after, answer) := Serve(l, b, ms, false);
                && HoldsEntry(l, Get(redis.hashes, BucketKey(prefix, workspace, resource)), Some(after))
                && outcome == if answer.Denied? then Exceeded(answer.retryAfter) else Allowed
    {
      var limit := RateLimit(resource, plan);
      if limit.None? {
        return Allowed;
      }
      var remaining, retryAfter := redis.Script(BucketKey(prefix, workspace, resource), limit.value, ms, b);
      if remaining < 0 {
        return Exceeded(retryAfter);
      }
      return Allowed;
    }
  }
}
