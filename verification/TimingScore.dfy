/** The timing score of src/scoring/timing_rules.py, over exact reals. */
module TimingScore {
  import opened Options
  import opened Rounding

  /** A signal by what scoring reads: its age in days, when dated, and its reliability. */
  datatype Signal = Signal(age: Option<int>, reliability: real)

  const FRESH := 14
  const STALE := 60
  const EXPIRED := 180

  function Recency(age: Option<int>): real {
    match age
    case None => 0.3
    case Some(days) =>
      if days <= FRESH then 1.0
      else if days <= STALE then 0.3 + 0.7 * (STALE - days) as real / (STALE - FRESH) as real
      else if days <= EXPIRED then 0.3 * (EXPIRED - days) as real / (EXPIRED - STALE) as real
      else 0.0
  }

  function RecencyOf(s: Signal): real { Recency(s.age) }

  function Weight(s: Signal): real {
    Recency(s.age) * if s.reliability >= 0.3 then s.reliability else 0.3
  }

  lemma RecencyInUnitInterval(age: Option<int>)
    ensures 0.0 <= Recency(age) <= 1.0
  {
  }

  /** Older is never more recent, across all the pieces. */
  lemma RecencyFalls(a: int, b: int)
    requires a <= b
    ensures Recency(Some(a)) >= Recency(Some(b))
  {
  }

  // ----- Stable sort by weight, descending -----

  function Insert(x: Signal, xs: seq<Signal>): (r: seq<Signal>)
    ensures |r| == |xs| + 1
  {
    if xs == [] || Weight(x) >= Weight(xs[0]) then [x] + xs else [xs[0]] + Insert(x, xs[1..])
  }

  function Sort(xs: seq<Signal>): (r: seq<Signal>)
    ensures |r| == |xs|
  {
    if xs == [] then [] else Insert(xs[0], Sort(xs[1..]))
  }

  ghost predicate Descending(xs: seq<Signal>) {
    forall i, j :: 0 <= i <= j < |xs| ==> Weight(xs[i]) >= Weight(xs[j])
  }

  function WithWeight(xs: seq<Signal>, w: real): seq<Signal> {
    if xs == [] then [] else (if Weight(xs[0]) == w then [xs[0]] else []) + WithWeight(xs[1..], w)
  }

  lemma {:induction false} InsertKeeps(x: Signal, xs: seq<Signal>)
    ensures multiset(Insert(x, xs)) == multiset(xs) + multiset{x}
  {
    hide Weight;
    if xs != [] && Weight(x) < Weight(xs[0]) {
      InsertKeeps(x, xs[1..]);
      assert xs == [xs[0]] + xs[1..];
    }
  }

  lemma {:induction false} InsertDescends(x: Signal, xs: seq<Signal>)
    requires Descending(xs)
    ensures Descending(Insert(x, xs))
  {
    hide Weight;
    if xs != [] && Weight(x) < Weight(xs[0]) {
      InsertDescends(x, xs[1..]);
      InsertKeeps(x, xs[1..]);
      var rest := Insert(x, xs[1..]);
      forall i | 0 <= i < |rest|
        ensures Weight(xs[0]) >= Weight(rest[i])
      {
        assert rest[i] in multiset(rest);
        assert rest[i] == x || rest[i] in multiset(xs[1..]);
      }
      hide Insert;
    }
  }

  lemma WithWeightOfOne(x: Signal, xs: seq<Signal>, w: real)
    ensures WithWeight([x] + xs, w) == (if Weight(x) == w then [x] else []) + WithWeight(xs, w)
  {
    assert ([x] + xs)[1..] == xs;
  }

  lemma {:induction false} InsertIsStable(x: Signal, xs: seq<Signal>, w: real)
    ensures WithWeight(Insert(x, xs), w) == (if Weight(x) == w then [x] else []) + WithWeight(xs, w)
  {
    hide Weight, WithWeight;
    if xs == [] || Weight(x) >= Weight(xs[0]) {
      WithWeightOfOne(x, xs, w);
    } else {
      InsertIsStable(x, xs[1..], w);
      WithWeightOfOne(xs[0], Insert(x, xs[1..]), w);
      WithWeightOfOne(xs[0], xs[1..], w);
      assert xs == [xs[0]] + xs[1..];
    }
  }

  /** The sort is descending, loses nothing, and keeps the order of equal weights. */
  lemma {:induction false} SortSorts(xs: seq<Signal>)
    ensures Descending(Sort(xs)) && multiset(Sort(xs)) == multiset(xs)
    ensures forall w :: WithWeight(Sort(xs), w) == WithWeight(xs, w)
  {
    hide Weight, Insert;
    if xs != [] {
      SortSorts(xs[1..]);
      InsertKeeps(xs[0], Sort(xs[1..]));
      InsertDescends(xs[0], Sort(xs[1..]));
      assert xs == [xs[0]] + xs[1..];
      forall w
        ensures WithWeight(Sort(xs), w) == WithWeight(xs, w)
      {
        InsertIsStable(xs[0], Sort(xs[1..]), w);
      }
    }
  }

  // ----- The score -----

  function Sum(xs: seq<Signal>, f: Signal -> real): real {
    if xs == [] then 0.0 else f(xs[0]) + Sum(xs[1..], f)
  }

  function Weighted(s: Signal): real { Weight(s) * RecencyOf(s) }

  function Reliability(s: Signal): real { s.reliability }

  /** Expired signals do not count. */
  function Unexpired(xs: seq<Signal>): (r: seq<Signal>)
    ensures |r| <= |xs| && forall s :: s in r ==> RecencyOf(s) > 0.0
  {
    if xs == [] then []
    else (if RecencyOf(xs[0]) <= 0.0 then [] else [xs[0]]) + Unexpired(xs[1..])
  }

  /** The five heaviest. */
  function Top(xs: seq<Signal>): seq<Signal> { Sort(xs)[..Min(5, |xs|)] }

  function Average(top: seq<Signal>): real {
    if Sum(top, Weight) > 0.0 then Sum(top, Weighted) / Sum(top, Weight) else 0.0
  }

  datatype Timing = Timing(score: int, confidence: real)

  function Scored(average: real, reliability: real, counted: nat): Timing {
    var confidence := 0.3 + counted as real * 0.1 + reliability * 0.3;
    Timing(Min(100, Percent(Round(average * 80.0 + 20.0)) + Min(15, 3 * counted)),
           if confidence <= 1.0 then confidence else 1.0)
  }

  function ScoreOf(signals: seq<Signal>): Timing {
    if signals == [] then Timing(30, 0.2)
    else
      var counted := Unexpired(signals);
      if counted == [] then Timing(20, 0.2)
      else
        var top := Top(counted);
        Scored(Average(top), Sum(top, Reliability) / |top| as real, |counted|)
  }

  lemma UnexpiredStep(xs: seq<Signal>, x: Signal)
    ensures Unexpired(xs + [x]) == Unexpired(xs) + if RecencyOf(x) <= 0.0 then [] else [x]
  {
    hide RecencyOf;
    if xs == [] {
      assert [] + [x] == [x] && Unexpired([x][1..]) == [];
    } else {
      assert (xs + [x])[1..] == xs[1..] + [x];
      UnexpiredStep(xs[1..], x);
    }
  }

  lemma WeightPositive(s: Signal)
    requires RecencyOf(s) > 0.0
    ensures Weight(s) > 0.0
  {
  }

  /** `n` is between `lo` and `hi` times `d`. */
  predicate Scaled(lo: real, n: real, d: real, hi: real) {
    lo * d <= n <= hi * d
  }

  lemma ScaledAddUp(w: real, r: real, m: real, v: real, n: real, lo: real, hi: real)
    requires w > 0.0 && lo <= r <= hi && m == w * r && Scaled(lo, n, v, hi)
    ensures Scaled(lo, m + n, w + v, hi)
  {
    assert lo * w <= m <= hi * w;
  }

  lemma SumFrom(xs: seq<Signal>)
    requires xs != []
    ensures Sum(xs, Weight) == Weight(xs[0]) + Sum(xs[1..], Weight)
    ensures Sum(xs, Weighted) == Weighted(xs[0]) + Sum(xs[1..], Weighted)
  {
  }

  lemma EmptySums(lo: real, hi: real)
    ensures Scaled(lo, Sum([], Weighted), Sum([], Weight), hi) && Sum([], Weight) == 0.0
  {
  }

  lemma {:induction false} SumBounds(xs: seq<Signal>, lo: real, hi: real)
    requires forall s :: s in xs ==> RecencyOf(s) > 0.0 && lo <= RecencyOf(s) <= hi
    ensures Scaled(lo, Sum(xs, Weighted), Sum(xs, Weight), hi)
    ensures if xs == [] then Sum(xs, Weight) == 0.0 else Sum(xs, Weight) > 0.0
  {
    hide Weight, RecencyOf, Sum, Scaled;
    if xs == [] {
      EmptySums(lo, hi);
    } else {
      SumFrom(xs);
      SumBounds(xs[1..], lo, hi);
      WeightPositive(xs[0]);
      ScaledAddUp(Weight(xs[0]), RecencyOf(xs[0]), Weighted(xs[0]), Sum(xs[1..], Weight), Sum(xs[1..], Weighted),
                  lo, hi);
    }
  }

  /** The average lies between any bounds on the recencies it averages. */
  lemma AverageBetween(top: seq<Signal>, lo: real, hi: real)
    requires top != [] && forall s :: s in top ==> RecencyOf(s) > 0.0 && lo <= RecencyOf(s) <= hi
    ensures lo <= Average(top) <= hi
  {
    hide Sum, Weight, RecencyOf;
    SumBounds(top, lo, hi);
    Quotient(Sum(top, Weighted), Sum(top, Weight), lo);
    Quotient(Sum(top, Weighted), Sum(top, Weight), hi);
  }

  lemma TopIsUnexpired(signals: seq<Signal>)
    ensures var top := Top(Unexpired(signals)); forall s :: s in top ==> RecencyOf(s) > 0.0
  {
    var counted := Unexpired(signals);
    SortSorts(counted);
    forall s | s in Top(counted)
      ensures RecencyOf(s) > 0.0
    {
      assert s in multiset(Sort(counted));
      assert s in counted;
    }
  }

  /** Any list of signals scores between 20 and 100; only the empty list scores 30 by default. */
  lemma ScoreInRange(signals: seq<Signal>)
    requires signals != []
    ensures 20 <= ScoreOf(signals).score <= 100
  {
    var counted := Unexpired(signals);
    if counted != [] {
      var top := Top(counted);
      TopIsUnexpired(signals);
      forall s | s in top
        ensures 0.0 <= RecencyOf(s) <= 1.0
      {
        RecencyInUnitInterval(s.age);
      }
      AverageBetween(top, 0.0, 1.0);
      RoundBetween(20, Average(top) * 80.0 + 20.0, 100);
    }
  }

  /** Full up to 14 days, then down to 0.3 at 60 and to nothing at 180, in straight lines; 0.3 without a date. */
  lemma RecencyIsPiecewiseLinear(days: int)
    ensures Recency(None) == 0.3
    ensures days <= 14 ==> Recency(Some(days)) == 1.0
    ensures 14 <= days <= 60 ==> 46.0 * (1.0 - Recency(Some(days))) == 0.7 * (days - 14) as real
    ensures 60 <= days <= 180 ==> 120.0 * Recency(Some(days)) == 0.3 * (180 - days) as real
    ensures days >= 180 ==> Recency(Some(days)) == 0.0
  {
  }

  /** Weight is recency times reliability, and a reliability below 0.3 counts as 0.3. */
  lemma WeightIs(s: Signal)
    ensures s.reliability >= 0.3 ==> Weight(s) == RecencyOf(s) * s.reliability
    ensures s.reliability <= 0.3 ==> Weight(s) == RecencyOf(s) * 0.3
    ensures Weighted(s) == Weight(s) * RecencyOf(s) && RecencyOf(s) == Recency(s.age)
  {
  }

  /** The score and confidence for `n` unexpired signals, by the quotients over the five chosen. */
  ghost predicate IsTiming(n: nat, average: real, reliability: real, score: int, confidence: real) {
    var bonus := if n >= 5 then 15 else 3 * n;
    var exact := 80.0 * average + 20.0;
    var sum := 0.3 + 0.1 * n as real + 0.3 * reliability;
    && (score < 100 ==>
          && -0.5 <= (score - bonus) as real - exact <= 0.5
          && ((score - bonus) as real - exact == 0.5 || (score - bonus) as real - exact == -0.5 ==>
                (score - bonus) % 2 == 0))
    && (score >= 100 ==> score == 100 && exact + bonus as real >= 99.5)
    && confidence == if sum >= 1.0 then 1.0 else sum
  }

  lemma ScoredIsTiming(average: real, reliability: real, n: nat)
    requires 0.0 <= average <= 1.0
    ensures var t := Scored(average, reliability, n); IsTiming(n, average, reliability, t.score, t.confidence)
  {
    var x := average * 80.0 + 20.0;
    RoundIsNearest(x);
    RoundBetween(20, x, 100);
    hide Round;
  }

  lemma TopIsThere(xs: seq<Signal>)
    requires xs != []
    ensures |Top(xs)| == if |xs| <= 5 then |xs| else 5
  {
  }

  lemma {:induction false} UnexpiredIffRecent(signals: seq<Signal>)
    ensures Unexpired(signals) == [] <==> forall s :: s in signals ==> Recency(s.age) <= 0.0
  {
    hide Recency;
    if signals != [] {
      UnexpiredIffRecent(signals[1..]);
      assert signals == [signals[0]] + signals[1..];
      assert RecencyOf(signals[0]) == Recency(signals[0].age);
    }
  }

  /**
   * The score is 80 times the weighted mean of the chosen recencies plus 20, to the nearest integer, plus 3
   * for each unexpired signal up to 15, and at most 100; and the confidence 0.3 plus 0.1 for each unexpired
   * signal plus 0.3 times the mean reliability of the chosen, and at most 1.
   */
  lemma TimingIs(signals: seq<Signal>)
    ensures signals == [] ==> ScoreOf(signals) == Timing(30, 0.2)
    ensures signals != [] && (forall s :: s in signals ==> Recency(s.age) <= 0.0) ==>
              ScoreOf(signals) == Timing(20, 0.2)
    ensures (exists s :: s in signals && Recency(s.age) > 0.0) ==>
              var counted := Unexpired(signals);
              var top := Top(counted);
              && counted != [] && |top| == (if |counted| <= 5 then |counted| else 5) && Sum(top, Weight) > 0.0
              && IsTiming(|counted|, Sum(top, Weighted) / Sum(top, Weight), Sum(top, Reliability) / |top| as real,
                          ScoreOf(signals).score, ScoreOf(signals).confidence)
  {
    UnexpiredIffRecent(signals);
    var counted := Unexpired(signals);
    if counted != [] {
      var top := Top(counted);
      TopIsThere(counted);
      TopIsUnexpired(signals);
      forall s | s in top
        ensures 0.0 <= RecencyOf(s) <= 1.0
      {
        RecencyInUnitInterval(s.age);
      }
      SumBounds(top, 0.0, 1.0);
      AverageBetween(top, 0.0, 1.0);
      ScoredIsTiming(Average(top), Sum(top, Reliability) / |top| as real, |counted|);
    }
    hide Unexpired, Sum, Top, Scored, IsTiming, Recency;
  }

  method ScoreTiming(signals: seq<Signal>) returns (score: int, confidence: real)
    ensures Timing(score, confidence) == ScoreOf(signals)
    ensures signals == [] ==> score == 30
    ensures signals != [] ==> 20 <= score <= 100
  {
    hide Weight, Weighted, Sum, Sort, Recency, Round;
    if signals == [] {
      return 30, 0.2;
    }
    var scored: seq<Signal> := [];
    for n := 0 to |signals|
      invariant scored == Unexpired(signals[..n])
    {
      assert signals[..n + 1] == signals[..n] + [signals[n]];
      UnexpiredStep(signals[..n], signals[n]);
      var recency := Recency(signals[n].age);
      if !(recency <= 0.0) {
        scored := scored + [signals[n]];
      }
    }
    assert signals[..|signals|] == signals;
    if scored == [] {
      return 20, 0.2;
    }
    var top := Sort(scored)[..Min(5, |scored|)];
    var totalWeight := Sum(top, Weight);
    var weightedSum := Sum(top, Weighted);
    var average := if totalWeight > 0.0 then weightedSum / totalWeight else 0.0;
    ScoreInRange(signals);
    score := Percent(Round(average * 80.0 + 20.0));
    var bonus := Min(15, |scored| * 3);
    score := Min(100, score + bonus);
    confidence := 0.3 + |scored| as real * 0.1 + Sum(top, Reliability) / |top| as real * 0.3;
    if confidence > 1.0 {
      confidence := 1.0;
    }
  }

  // ----- Properties -----

  /** Every chosen signal outweighs every signal left out. */
  lemma TopDominates(xs: seq<Signal>, i: nat, j: nat)
    requires i < |Top(xs)| <= j < |xs|
    ensures Weight(Top(xs)[i]) >= Weight(Sort(xs)[j])
    ensures multiset(Top(xs)) + multiset(Sort(xs)[|Top(xs)|..]) == multiset(xs)
  {
    SortSorts(xs);
    assert Sort(xs) == Top(xs) + Sort(xs)[|Top(xs)|..];
  }

  // ----- Order of the input -----

  function Without(xs: seq<Signal>, i: nat): seq<Signal>
    requires i < |xs|
  {
    xs[..i] + xs[i + 1..]
  }

  lemma {:induction false} SumWithout(xs: seq<Signal>, i: nat, f: Signal -> real)
    requires i < |xs|
    ensures Sum(xs, f) == f(xs[i]) + Sum(Without(xs, i), f)
  {
    if i == 0 {
      assert Without(xs, 0) == xs[1..];
    } else {
      SumWithout(xs[1..], i - 1, f);
      assert Without(xs, i) == [xs[0]] + Without(xs[1..], i - 1);
      assert ([xs[0]] + Without(xs[1..], i - 1))[1..] == Without(xs[1..], i - 1);
    }
  }

  lemma WithoutDropsOne(xs: seq<Signal>, i: nat)
    requires i < |xs|
    ensures multiset(Without(xs, i)) == multiset(xs) - multiset{xs[i]}
  {
    assert xs == xs[..i] + [xs[i]] + xs[i + 1..];
  }

  lemma WithoutIsShorter(xs: seq<Signal>, i: nat)
    requires i < |xs|
    ensures |Without(xs, i)| == |xs| - 1
  {
  }

  lemma SameSize(a: multiset<Signal>, b: multiset<Signal>)
    requires a <= b && |a| == |b|
    ensures a == b
  {
    assert b == a + (b - a);
  }

  lemma SurplusElement(a: multiset<Signal>, b: multiset<Signal>) returns (s: Signal)
    requires |a| == |b| && a != b
    ensures a[s] > b[s]
  {
    if forall s :: a[s] <= b[s] {
      SameSize(a, b);
    }
    s :| a[s] > b[s];
  }

  /** What the first list has more of is at most, under `f`, what the second has more of. */
  ghost predicate Dominated(xs: seq<Signal>, ys: seq<Signal>, f: Signal -> real) {
    forall s, t :: multiset(xs)[s] > multiset(ys)[s] && multiset(ys)[t] > multiset(xs)[t] ==> f(s) <= f(t)
  }

  /** A signal of the second list to pair with the head of the first. */
  lemma Partner(xs: seq<Signal>, ys: seq<Signal>, f: Signal -> real) returns (j: nat)
    requires xs != [] && |xs| == |ys| && Dominated(xs, ys, f)
    ensures j < |ys| && f(xs[0]) <= f(ys[j])
    ensures xs[0] == ys[j] || (multiset(ys)[ys[j]] > multiset(xs)[ys[j]] && xs[0] !in ys)
  {
    var x := xs[0];
    if x in multiset(ys) {
      j :| 0 <= j < |ys| && ys[j] == x;
    } else {
      assert multiset(xs)[x] > multiset(ys)[x];
      var y := SurplusElement(multiset(ys), multiset(xs));
      assert y in multiset(ys);
      j :| 0 <= j < |ys| && ys[j] == y;
    }
  }

  lemma CountWithout(xs: seq<Signal>, i: nat, s: Signal)
    requires i < |xs|
    ensures multiset(Without(xs, i))[s] == multiset(xs)[s] - (if s == xs[i] then 1 else 0)
  {
    hide Without;
    WithoutDropsOne(xs, i);
    assert xs[i] in multiset(xs);
  }

  lemma SurplusShrinks(xs: seq<Signal>, ys: seq<Signal>, j: nat, s: Signal)
    requires 0 < |xs| == |ys| && j < |ys|
    requires xs[0] == ys[j] || multiset(ys)[ys[j]] > multiset(xs)[ys[j]]
    ensures multiset(Without(xs, 0))[s] > multiset(Without(ys, j))[s] ==> multiset(xs)[s] > multiset(ys)[s]
    ensures multiset(Without(ys, j))[s] > multiset(Without(xs, 0))[s] ==>
              multiset(ys)[s] > multiset(xs)[s] || s == xs[0] != ys[j]
  {
    hide Without;
    CountWithout(xs, 0, s);
    CountWithout(ys, j, s);
  }

  lemma DropBoth(xs: seq<Signal>, ys: seq<Signal>, j: nat, f: Signal -> real)
    requires 0 < |xs| == |ys| && j < |ys| && Dominated(xs, ys, f)
    requires xs[0] == ys[j] || (multiset(ys)[ys[j]] > multiset(xs)[ys[j]] && xs[0] !in ys)
    ensures Dominated(Without(xs, 0), Without(ys, j), f)
    ensures |Without(xs, 0)| == |Without(ys, j)| == |xs| - 1
  {
    hide Without;
    WithoutIsShorter(xs, 0);
    WithoutIsShorter(ys, j);
    forall s, t | multiset(Without(xs, 0))[s] > multiset(Without(ys, j))[s]
               && multiset(Without(ys, j))[t] > multiset(Without(xs, 0))[t]
      ensures f(s) <= f(t)
    {
      SurplusShrinks(xs, ys, j, s);
      SurplusShrinks(xs, ys, j, t);
      if t == xs[0] != ys[j] {
        CountWithout(ys, j, t);
      }
      assert multiset(xs)[s] > multiset(ys)[s] && multiset(ys)[t] > multiset(xs)[t];
    }
  }

  lemma {:induction false} SumOfDominated(xs: seq<Signal>, ys: seq<Signal>, f: Signal -> real)
    requires |xs| == |ys| && Dominated(xs, ys, f)
    ensures Sum(xs, f) <= Sum(ys, f)
    decreases |xs|
  {
    hide Sum, Without, Dominated;
    if xs == [] {
      assert ys == [];
    } else {
      var j := Partner(xs, ys, f);
      SumWithout(xs, 0, f);
      SumWithout(ys, j, f);
      DropBoth(xs, ys, j, f);
      SumOfDominated(Without(xs, 0), Without(ys, j), f);
    }
  }

  /** Lists of one length that differ only in signals of one value have one sum. */
  lemma SumOfSimilar(xs: seq<Signal>, ys: seq<Signal>, f: Signal -> real, v: real)
    requires |xs| == |ys| && forall s :: multiset(xs)[s] != multiset(ys)[s] ==> f(s) == v
    ensures Sum(xs, f) == Sum(ys, f)
  {
    hide Sum;
    SumOfDominated(xs, ys, f);
    SumOfDominated(ys, xs, f);
  }

  lemma UnexpiredHead(xs: seq<Signal>, s: Signal)
    requires xs != []
    ensures multiset(xs)[s] == multiset(xs[1..])[s] + if s == xs[0] then 1 else 0
    ensures multiset(Unexpired(xs))[s]
         == multiset(Unexpired(xs[1..]))[s] + if s == xs[0] && RecencyOf(s) > 0.0 then 1 else 0
  {
    hide RecencyOf;
    assert xs == [xs[0]] + xs[1..];
  }

  lemma {:induction false} UnexpiredCounts(xs: seq<Signal>, s: Signal)
    ensures multiset(Unexpired(xs))[s] == if RecencyOf(s) <= 0.0 then 0 else multiset(xs)[s]
  {
    if xs != [] {
      UnexpiredCounts(xs[1..], s);
      UnexpiredHead(xs, s);
    }
    hide RecencyOf, Unexpired;
  }

  /** The cut after the fifth signal does not fall between two of the same weight. */
  predicate CutIsClear(xs: seq<Signal>) {
    |xs| > 5 ==> Weight(Sort(xs)[4]) > Weight(Sort(xs)[5])
  }

  /** All signals as heavy as the fifth have one value under `f`. */
  ghost predicate OneValueAtCut(xs: seq<Signal>, f: Signal -> real) {
    |xs| > 5 ==>
      forall s :: s in xs && Weight(s) == Weight(Sort(xs)[4]) ==> f(s) == f(Sort(xs)[4])
  }

  /** Every arrangement of the list puts the same sum into its five heaviest. */
  ghost predicate TopSumIsFixed(xs: seq<Signal>, f: Signal -> real) {
    forall ys :: multiset(ys) == multiset(xs) ==> Sum(Top(ys), f) == Sum(Top(xs), f)
  }

  lemma Displaced(a: multiset<Signal>, c: multiset<Signal>, b: multiset<Signal>, d: multiset<Signal>, s: Signal)
    requires a + c == b + d && a[s] > b[s]
    ensures s in a && s in d
  {
    assert (a + c)[s] == a[s] + c[s] && (b + d)[s] == b[s] + d[s];
  }

  lemma Positions(p: seq<Signal>, n: nat, s: Signal, t: Signal)
    requires n <= |p| && s in multiset(p[..n]) && t in multiset(p[n..]) && Descending(p)
    ensures 0 < n < |p| && Weight(s) >= Weight(p[n - 1]) >= Weight(p[n]) >= Weight(t)
  {
    hide Weight;
    var i :| 0 <= i < n && p[i] == s;
    var j :| n <= j < |p| && p[j] == t;
  }

  lemma Sizes(p: seq<Signal>, q: seq<Signal>, n: nat)
    requires n <= |p| == |q|
    ensures |multiset(p[..n])| == n == |multiset(q[..n])|
  {
  }

  lemma Split(p: seq<Signal>, n: nat)
    requires n <= |p|
    ensures multiset(p[..n]) + multiset(p[n..]) == multiset(p)
  {
    assert p == p[..n] + p[n..];
  }

  /** A signal that one descending arrangement puts before the cut and another behind weighs as much as both sides. */
  lemma SurplusIsTied(p: seq<Signal>, q: seq<Signal>, n: nat, s: Signal)
    requires n <= |p| == |q| && Descending(p) && Descending(q) && multiset(p) == multiset(q)
    requires multiset(p[..n])[s] != multiset(q[..n])[s]
    ensures 0 < n < |p| && Weight(s) == Weight(p[n - 1]) == Weight(p[n])
  {
    hide Weight, Descending;
    var a, b := multiset(p[..n]), multiset(q[..n]);
    Split(p, n);
    Split(q, n);
    Sizes(p, q, n);
    var more := SurplusElement(a, b);
    var less := SurplusElement(b, a);
    if a[s] > b[s] {
      more := s;
    } else {
      less := s;
    }
    Displaced(a, multiset(p[n..]), b, multiset(q[n..]), more);
    Displaced(b, multiset(q[n..]), a, multiset(p[n..]), less);
    Positions(p, n, more, less);
    Positions(q, n, less, more);
  }

  lemma SomewhereIn(p: seq<Signal>, q: seq<Signal>, n: nat, s: Signal)
    requires n <= |p| == |q| && multiset(p) == multiset(q) && multiset(p[..n])[s] != multiset(q[..n])[s]
    ensures s in multiset(p)
  {
    Split(p, n);
    Split(q, n);
  }

  lemma {:induction false} TopSumIsFixedIf(xs: seq<Signal>, ys: seq<Signal>, f: Signal -> real)
    requires multiset(xs) == multiset(ys) && (CutIsClear(xs) || OneValueAtCut(xs, f))
    ensures |Top(xs)| == |Top(ys)| && Sum(Top(xs), f) == Sum(Top(ys), f)
  {
    hide Weight, Sum, Sort, Descending;
    assert |multiset(xs)| == |xs| && |multiset(ys)| == |ys|;
    SortSorts(xs);
    SortSorts(ys);
    var p, q, n := Sort(xs), Sort(ys), |Top(xs)|;
    var v := if |xs| > 5 then f(p[4]) else 0.0;
    forall s | multiset(p[..n])[s] != multiset(q[..n])[s]
      ensures f(s) == v
    {
      SurplusIsTied(p, q, n, s);
      Split(p, n);
      assert s in multiset(p) by { SomewhereIn(p, q, n, s); }
      assert s in multiset(xs);
    }
    SumOfSimilar(p[..n], q[..n], f, v);
  }

  // ----- Swapping two tied signals across the cut -----

  lemma {:induction false} SortOfSorted(p: seq<Signal>)
    requires Descending(p)
    ensures Sort(p) == p
  {
    hide Weight;
    if p != [] {
      SortOfSorted(p[1..]);
      assert p == [p[0]] + p[1..];
    }
  }

  function Swapped(p: seq<Signal>, i: nat, j: nat): (q: seq<Signal>)
    requires i < j < |p|
    ensures |q| == |p|
  {
    p[..i] + [p[j]] + p[i + 1..j] + [p[i]] + p[j + 1..]
  }

  lemma SwappedAt(p: seq<Signal>, i: nat, j: nat, k: nat)
    requires i < j < |p| && k < |p|
    ensures Swapped(p, i, j)[k] == p[if k == i then j else if k == j then i else k]
  {
  }

  lemma SwappedIsArrangement(p: seq<Signal>, i: nat, j: nat)
    requires i < j < |p|
    ensures multiset(Swapped(p, i, j)) == multiset(p)
  {
    assert p == p[..i] + [p[i]] + p[i + 1..j] + [p[j]] + p[j + 1..];
  }

  lemma SwappedDescends(p: seq<Signal>, i: nat, j: nat)
    requires i < j < |p| && Descending(p) && Weight(p[i]) == Weight(p[j])
    ensures Descending(Swapped(p, i, j))
  {
    hide Weight, Swapped;
    var q := Swapped(p, i, j);
    forall k | 0 <= k < |p|
      ensures Weight(q[k]) == Weight(p[k])
    {
      SwappedAt(p, i, j, k);
    }
  }

  lemma SwappedSum(p: seq<Signal>, i: nat, j: nat, n: nat, f: Signal -> real)
    requires i < n <= j < |p|
    ensures Sum(Swapped(p, i, j)[..n], f) == Sum(p[..n], f) - f(p[i]) + f(p[j])
  {
    hide Sum, Swapped;
    var q := Swapped(p, i, j);
    SumWithout(p[..n], i, f);
    SumWithout(q[..n], i, f);
    SwappedAt(p, i, j, i);
    forall k | 0 <= k < n && k != i
      ensures q[k] == p[k]
    {
      SwappedAt(p, i, j, k);
    }
    assert Without(p[..n], i) == Without(q[..n], i);
  }

  lemma SwapAcrossCut(xs: seq<Signal>, i: nat, j: nat, f: Signal -> real)
    requires i <= 4 && 5 <= j < |xs|
    requires Weight(Sort(xs)[i]) == Weight(Sort(xs)[j]) && f(Sort(xs)[i]) != f(Sort(xs)[j])
    ensures !TopSumIsFixed(xs, f)
  {
    hide Weight, Swapped, Sum, Sort, Descending;
    var p := Sort(xs);
    SortSorts(xs);
    var q := Swapped(p, i, j);
    SwappedIsArrangement(p, i, j);
    SwappedDescends(p, i, j);
    SortOfSorted(q);
    SwappedSum(p, i, j, 5, f);
    assert multiset(q) == multiset(xs) && Sum(Top(q), f) != Sum(Top(xs), f);
  }

  lemma TiedBetween(p: seq<Signal>, i: nat, m: nat, j: nat)
    requires i <= m <= j < |p| && Descending(p) && Weight(p[i]) == Weight(p[j])
    ensures Weight(p[m]) == Weight(p[i])
  {
  }

  lemma TiedAtCut(p: seq<Signal>)
    requires Descending(p) && |p| > 5 && Weight(p[4]) <= Weight(p[5])
    ensures Weight(p[4]) == Weight(p[5])
  {
  }

  lemma {:induction false} TopSumVaries(xs: seq<Signal>, f: Signal -> real)
    requires !CutIsClear(xs) && !OneValueAtCut(xs, f)
    ensures !TopSumIsFixed(xs, f)
  {
    hide Weight, Sum, Sort, Descending, TopSumIsFixed;
    SortSorts(xs);
    var p := Sort(xs);
    TiedAtCut(p);
    var s :| s in xs && Weight(s) == Weight(p[4]) && f(s) != f(p[4]);
    assert s in multiset(p);
    var m :| 0 <= m < |p| && p[m] == s;
    if m >= 5 {
      SwapAcrossCut(xs, 4, m, f);
    } else if f(p[4]) != f(p[5]) {
      SwapAcrossCut(xs, 4, 5, f);
    } else {
      SwapAcrossCut(xs, m, 5, f);
    }
  }

  /** The five heaviest have one sum in all arrangements if and only if at most one value is tied at the cut. */
  lemma {:induction false} TopSumIsFixedIff(xs: seq<Signal>, f: Signal -> real)
    ensures TopSumIsFixed(xs, f) <==> CutIsClear(xs) || OneValueAtCut(xs, f)
  {
    hide Sum, Top, CutIsClear, OneValueAtCut;
    if CutIsClear(xs) || OneValueAtCut(xs, f) {
      forall ys | multiset(ys) == multiset(xs)
        ensures Sum(Top(ys), f) == Sum(Top(xs), f)
      {
        TopSumIsFixedIf(xs, ys, f);
      }
    } else {
      TopSumVaries(xs, f);
    }
  }

  // ----- When the order of the signals matters -----

  /** Every arrangement of these signals averages to the same recency. */
  ghost predicate AverageIsFixed(xs: seq<Signal>) {
    forall ys :: multiset(ys) == multiset(xs) ==> Average(Top(ys)) == Average(Top(xs))
  }

  lemma RecencyBounds(s: Signal)
    ensures 0.0 <= RecencyOf(s) <= 1.0
  {
    RecencyInUnitInterval(s.age);
  }

  lemma TopWeight(xs: seq<Signal>, ys: seq<Signal>)
    requires multiset(xs) == multiset(ys)
    requires forall s :: s in xs ==> RecencyOf(s) > 0.0
    ensures Sum(Top(xs), Weight) == Sum(Top(ys), Weight)
    ensures xs != [] ==> Sum(Top(xs), Weight) > 0.0
  {
    hide Sum, RecencyOf;
    TopSumIsFixedIf(xs, ys, Weight);
    SortSorts(xs);
    forall s | s in Top(xs)
      ensures RecencyOf(s) > 0.0 && 0.0 <= RecencyOf(s) <= 1.0
    {
      assert s in multiset(Sort(xs));
      assert s in multiset(xs);
      RecencyBounds(s);
    }
    SumBounds(Top(xs), 0.0, 1.0);
  }

  lemma SameQuotient(m: real, n: real, d: real)
    requires d > 0.0
    ensures m / d == n / d <==> m == n
  {
    Quotient(m, d, n / d);
    Quotient(n, d, n / d);
  }

  lemma SameProduct(w: real, a: real, m: real, b: real, n: real)
    requires w > 0.0 && m == w * a && n == w * b
    ensures m == n <==> a == b
  {
    Scaling(a, b, w);
    Scaling(b, a, w);
  }

  lemma TiedWeighted(s: Signal, t: Signal)
    requires Weight(s) == Weight(t) && RecencyOf(t) > 0.0
    ensures Weighted(s) == Weighted(t) <==> RecencyOf(s) == RecencyOf(t)
  {
    hide Weight, RecencyOf;
    WeightPositive(t);
    SameProduct(Weight(t), RecencyOf(s), Weighted(s), RecencyOf(t), Weighted(t));
  }

  lemma OneRecencyAtCut(xs: seq<Signal>)
    requires forall s :: s in xs ==> RecencyOf(s) > 0.0
    ensures OneValueAtCut(xs, Weighted) <==> OneValueAtCut(xs, RecencyOf)
  {
    if |xs| > 5 {
      hide Weight, RecencyOf, Sort, Weighted;
      SortSorts(xs);
      var t := Sort(xs)[4];
      assert t in multiset(Sort(xs));
      assert t in multiset(xs);
      forall s | s in xs && Weight(s) == Weight(t)
        ensures Weighted(s) == Weighted(t) <==> RecencyOf(s) == RecencyOf(t)
      {
        TiedWeighted(s, t);
      }
    }
  }

  /**
   * The weighted average does not depend on the order of the unexpired signals if and only if the cut
   * is clear or all signals as heavy as the fifth are equally recent.
   */
  lemma {:induction false} AverageIsFixedIff(xs: seq<Signal>)
    requires forall s :: s in xs ==> RecencyOf(s) > 0.0
    ensures AverageIsFixed(xs) <==> CutIsClear(xs) || OneValueAtCut(xs, RecencyOf)
  {
    hide Sum, Top, CutIsClear, OneValueAtCut, RecencyOf, Weight;
    OneRecencyAtCut(xs);
    TopSumIsFixedIff(xs, Weighted);
    forall ys | multiset(ys) == multiset(xs)
      ensures Average(Top(ys)) == Average(Top(xs)) <==> Sum(Top(ys), Weighted) == Sum(Top(xs), Weighted)
    {
      TopWeight(xs, ys);
      if xs == [] {
        assert |multiset(ys)| == |ys|;
      } else {
        SameQuotient(Sum(Top(ys), Weighted), Sum(Top(xs), Weighted), Sum(Top(xs), Weight));
      }
    }
  }

  lemma SameUnexpired(xs: seq<Signal>, ys: seq<Signal>)
    requires multiset(xs) == multiset(ys)
    ensures multiset(Unexpired(xs)) == multiset(Unexpired(ys))
    ensures |xs| == |ys| && |Unexpired(xs)| == |Unexpired(ys)|
  {
    hide Unexpired, RecencyOf;
    var a, b := Unexpired(xs), Unexpired(ys);
    forall s
      ensures multiset(a)[s] == multiset(b)[s]
    {
      UnexpiredCounts(xs, s);
      UnexpiredCounts(ys, s);
    }
    assert multiset(a) == multiset(b);
    assert |multiset(xs)| == |xs| && |multiset(ys)| == |ys|;
    assert |multiset(a)| == |a| && |multiset(b)| == |b|;
  }

  /**
   * So the score does not depend on the order of the list when the cut is clear, in particular with at
   * most five unexpired signals, or when what is tied there is equally recent; nor does the confidence,
   * when what is tied there is equally reliable.
   */
  lemma {:induction false} OrderDoesNotMatter(xs: seq<Signal>, ys: seq<Signal>)
    requires multiset(xs) == multiset(ys)
    ensures CutIsClear(Unexpired(xs)) || OneValueAtCut(Unexpired(xs), RecencyOf) ==>
              ScoreOf(xs).score == ScoreOf(ys).score
    ensures CutIsClear(Unexpired(xs)) || OneValueAtCut(Unexpired(xs), Reliability) ==>
              ScoreOf(xs).confidence == ScoreOf(ys).confidence
  {
    hide Sum, Unexpired, CutIsClear, Sort, Round, Average, Weight, RecencyOf, OneValueAtCut;
    SameUnexpired(xs, ys);
    var a, b := Unexpired(xs), Unexpired(ys);
    AverageIsFixedIff(a);
    if CutIsClear(a) || OneValueAtCut(a, Reliability) {
      TopSumIsFixedIf(a, b, Reliability);
    }
  }

  // ----- The two extreme orders -----

  function InsertBy(x: Signal, xs: seq<Signal>, g: Signal -> real): (r: seq<Signal>) {
    if xs == [] || g(x) <= g(xs[0]) then [x] + xs else [xs[0]] + InsertBy(x, xs[1..], g)
  }

  function SortBy(xs: seq<Signal>, g: Signal -> real): seq<Signal> {
    if xs == [] then [] else InsertBy(xs[0], SortBy(xs[1..], g), g)
  }

  function Staleness(s: Signal): real { -RecencyOf(s) }

  function LeastRecentFirst(xs: seq<Signal>): seq<Signal> { SortBy(xs, RecencyOf) }

  function MostRecentFirst(xs: seq<Signal>): seq<Signal> { SortBy(xs, Staleness) }

  ghost predicate Ascending(xs: seq<Signal>, g: Signal -> real) {
    forall i, j :: 0 <= i < j < |xs| ==> g(xs[i]) <= g(xs[j])
  }

  lemma {:induction false} InsertByKeeps(x: Signal, xs: seq<Signal>, g: Signal -> real)
    ensures multiset(InsertBy(x, xs, g)) == multiset(xs) + multiset{x}
  {
    if xs != [] && g(x) > g(xs[0]) {
      InsertByKeeps(x, xs[1..], g);
      assert xs == [xs[0]] + xs[1..];
    }
  }

  lemma {:induction false} InsertByAscends(x: Signal, xs: seq<Signal>, g: Signal -> real)
    requires Ascending(xs, g)
    ensures Ascending(InsertBy(x, xs, g), g)
  {
    if xs != [] && g(x) > g(xs[0]) {
      InsertByAscends(x, xs[1..], g);
      InsertByKeeps(x, xs[1..], g);
      var rest := InsertBy(x, xs[1..], g);
      forall i | 0 <= i < |rest|
        ensures g(xs[0]) <= g(rest[i])
      {
        assert rest[i] in multiset(rest);
        assert rest[i] == x || rest[i] in multiset(xs[1..]);
      }
    }
  }

  lemma {:induction false} SortBySorts(xs: seq<Signal>, g: Signal -> real)
    ensures Ascending(SortBy(xs, g), g) && multiset(SortBy(xs, g)) == multiset(xs)
  {
    hide InsertBy;
    if xs != [] {
      SortBySorts(xs[1..], g);
      InsertByKeeps(xs[0], SortBy(xs[1..], g), g);
      InsertByAscends(xs[0], SortBy(xs[1..], g), g);
      assert xs == [xs[0]] + xs[1..];
    }
  }

  lemma {:induction false} UnexpiredIsPart(xs: seq<Signal>, s: Signal)
    requires s in Unexpired(xs)
    ensures s in xs
  {
    hide RecencyOf;
    if s != xs[0] {
      UnexpiredIsPart(xs[1..], s);
    }
  }

  lemma PrependAscends(x: Signal, rest: seq<Signal>, g: Signal -> real)
    requires Ascending(rest, g) && forall y :: y in rest ==> g(x) <= g(y)
    ensures Ascending([x] + rest, g)
  {
  }

  lemma {:induction false} UnexpiredAscends(xs: seq<Signal>, g: Signal -> real)
    requires Ascending(xs, g)
    ensures Ascending(Unexpired(xs), g)
  {
    hide RecencyOf;
    if xs != [] {
      UnexpiredAscends(xs[1..], g);
      var rest := Unexpired(xs[1..]);
      forall y | y in rest
        ensures g(xs[0]) <= g(y)
      {
        UnexpiredIsPart(xs[1..], y);
        assert y in xs[1..];
      }
      PrependAscends(xs[0], rest, g);
    }
  }

  /** Signals of equal weight stand in the order of `g`. */
  ghost predicate TiesAscend(p: seq<Signal>, g: Signal -> real) {
    forall i, j :: 0 <= i < j < |p| && Weight(p[i]) == Weight(p[j]) ==> g(p[i]) <= g(p[j])
  }

  lemma {:induction false} InsertKeepsTies(x: Signal, xs: seq<Signal>, g: Signal -> real)
    requires TiesAscend(xs, g) && forall y :: y in xs ==> g(x) <= g(y)
    ensures TiesAscend(Insert(x, xs), g)
  {
    hide Weight;
    if xs != [] && Weight(x) < Weight(xs[0]) {
      InsertKeepsTies(x, xs[1..], g);
      InsertKeeps(x, xs[1..]);
      var rest := Insert(x, xs[1..]);
      forall i | 0 <= i < |rest| && Weight(xs[0]) == Weight(rest[i])
        ensures g(xs[0]) <= g(rest[i])
      {
        assert rest[i] in multiset(rest);
        assert rest[i] in multiset(xs[1..]);
      }
    }
  }

  /** The stable sort by weight leaves ties in the order they came in. */
  lemma {:induction false} SortKeepsTies(xs: seq<Signal>, g: Signal -> real)
    requires Ascending(xs, g)
    ensures TiesAscend(Sort(xs), g)
  {
    hide Weight, Insert;
    if xs != [] {
      SortKeepsTies(xs[1..], g);
      SortSorts(xs[1..]);
      forall y | y in Sort(xs[1..])
        ensures g(xs[0]) <= g(y)
      {
        assert y in multiset(Sort(xs[1..]));
        assert y in multiset(xs[1..]);
      }
      InsertKeepsTies(xs[0], Sort(xs[1..]), g);
    }
  }

  /** What one descending arrangement puts before the cut and another behind comes first by `g` in the former. */
  lemma SurplusComesFirst(p: seq<Signal>, q: seq<Signal>, n: nat, s: Signal, t: Signal, g: Signal -> real)
    requires n <= |p| == |q| && Descending(p) && Descending(q) && multiset(p) == multiset(q) && TiesAscend(p, g)
    requires multiset(p[..n])[s] > multiset(q[..n])[s] && multiset(q[..n])[t] > multiset(p[..n])[t]
    ensures Weight(s) == Weight(t) && g(s) <= g(t) && s in p && t in p
  {
    hide Weight, Descending;
    SurplusIsTied(p, q, n, s);
    SurplusIsTied(p, q, n, t);
    Split(p, n);
    Split(q, n);
    Displaced(multiset(p[..n]), multiset(p[n..]), multiset(q[..n]), multiset(q[n..]), s);
    Displaced(multiset(q[..n]), multiset(q[n..]), multiset(p[..n]), multiset(p[n..]), t);
    var i :| 0 <= i < n && p[i] == s;
    var j :| n <= j < |p| && p[j] == t;
  }

  lemma TiedWeightedOrder(s: Signal, t: Signal)
    requires Weight(s) == Weight(t) && RecencyOf(s) > 0.0 && RecencyOf(s) <= RecencyOf(t)
    ensures Weighted(s) <= Weighted(t)
  {
    hide Weight, RecencyOf;
    WeightPositive(s);
    Scaling(RecencyOf(s), RecencyOf(t), Weight(s));
  }

  lemma LeastSum(p: seq<Signal>, q: seq<Signal>, n: nat)
    requires n <= |p| == |q| && Descending(p) && Descending(q) && multiset(p) == multiset(q)
    requires TiesAscend(p, RecencyOf) && forall s :: s in p ==> RecencyOf(s) > 0.0
    ensures Sum(p[..n], Weighted) <= Sum(q[..n], Weighted)
  {
    hide Weight, Weighted, RecencyOf, Sum, Descending, TiesAscend;
    forall s, t | multiset(p[..n])[s] > multiset(q[..n])[s] && multiset(q[..n])[t] > multiset(p[..n])[t]
      ensures Weighted(s) <= Weighted(t)
    {
      SurplusComesFirst(p, q, n, s, t, RecencyOf);
      TiedWeightedOrder(s, t);
    }
    SumOfDominated(p[..n], q[..n], Weighted);
  }

  lemma GreatestSum(p: seq<Signal>, q: seq<Signal>, n: nat)
    requires n <= |p| == |q| && Descending(p) && Descending(q) && multiset(p) == multiset(q)
    requires TiesAscend(p, Staleness) && forall s :: s in p ==> RecencyOf(s) > 0.0
    ensures Sum(q[..n], Weighted) <= Sum(p[..n], Weighted)
  {
    hide Weight, Weighted, RecencyOf, Sum, Descending, TiesAscend;
    forall s, t | multiset(q[..n])[s] > multiset(p[..n])[s] && multiset(p[..n])[t] > multiset(q[..n])[t]
      ensures Weighted(s) <= Weighted(t)
    {
      SurplusComesFirst(p, q, n, t, s, Staleness);
      TiedWeightedOrder(s, t);
    }
    SumOfDominated(q[..n], p[..n], Weighted);
  }

  lemma QuotientMonotone(m: real, n: real, d: real)
    requires d > 0.0 && m <= n
    ensures m / d <= n / d
  {
    Quotient(n, d, m / d);
    Quotient(m, d, m / d);
  }

  /** The least recent first make the least average of all arrangements, the most recent first the greatest. */
  lemma ExtremeAverages(xs: seq<Signal>, ys: seq<Signal>)
    requires multiset(xs) == multiset(ys) && forall s :: s in xs ==> RecencyOf(s) > 0.0
    ensures Ascending(xs, RecencyOf) ==> Average(Top(xs)) <= Average(Top(ys))
    ensures Ascending(xs, Staleness) ==> Average(Top(ys)) <= Average(Top(xs))
  {
    hide Weight, Weighted, RecencyOf, Sum, Sort, Descending, TiesAscend, Ascending;
    assert |multiset(xs)| == |xs| && |multiset(ys)| == |ys|;
    SortSorts(xs);
    SortSorts(ys);
    TopWeight(xs, ys);
    var p, q := Sort(xs), Sort(ys);
    forall s | s in p
      ensures RecencyOf(s) > 0.0
    {
      assert s in multiset(p);
      assert s in multiset(xs);
    }
    if xs == [] {
      assert ys == [];
    } else {
      if Ascending(xs, RecencyOf) {
        SortKeepsTies(xs, RecencyOf);
        LeastSum(p, q, |Top(xs)|);
        QuotientMonotone(Sum(Top(xs), Weighted), Sum(Top(ys), Weighted), Sum(Top(xs), Weight));
      }
      if Ascending(xs, Staleness) {
        SortKeepsTies(xs, Staleness);
        GreatestSum(p, q, |Top(xs)|);
        QuotientMonotone(Sum(Top(ys), Weighted), Sum(Top(xs), Weighted), Sum(Top(xs), Weight));
      }
    }
  }

  lemma ScoredMonotone(a: real, b: real, reliability: real, other: real, counted: nat)
    requires a <= b
    ensures Scored(a, reliability, counted).score <= Scored(b, other, counted).score
  {
    RoundMonotone(a * 80.0 + 20.0, b * 80.0 + 20.0);
    hide Round;
  }

  lemma ScoreFollowsAverage(xs: seq<Signal>, ys: seq<Signal>)
    requires multiset(xs) == multiset(ys)
    requires Average(Top(Unexpired(xs))) <= Average(Top(Unexpired(ys)))
    ensures ScoreOf(xs).score <= ScoreOf(ys).score
  {
    hide Average, Top, Unexpired, Scored, Sum;
    SameUnexpired(xs, ys);
    var a, b := Unexpired(xs), Unexpired(ys);
    if a != [] {
      TopIsThere(a);
      TopIsThere(b);
      ScoredMonotone(Average(Top(a)), Average(Top(b)), Sum(Top(a), Reliability) / |Top(a)| as real,
                     Sum(Top(b), Reliability) / |Top(b)| as real, |a|);
    }
  }

  /** Every arrangement scores between the least recent first and the most recent first. */
  lemma {:induction false} ScoreIsBetweenExtremes(xs: seq<Signal>, ys: seq<Signal>)
    requires multiset(xs) == multiset(ys)
    ensures ScoreOf(LeastRecentFirst(xs)).score <= ScoreOf(ys).score <= ScoreOf(MostRecentFirst(xs)).score
  {
    hide Average, Top, Unexpired, ScoreOf, SortBy, RecencyOf, Ascending;
    var low, high := LeastRecentFirst(xs), MostRecentFirst(xs);
    SortBySorts(xs, RecencyOf);
    SortBySorts(xs, Staleness);
    UnexpiredAscends(low, RecencyOf);
    UnexpiredAscends(high, Staleness);
    SameUnexpired(low, ys);
    SameUnexpired(high, ys);
    ExtremeAverages(Unexpired(low), Unexpired(ys));
    ExtremeAverages(Unexpired(high), Unexpired(ys));
    ScoreFollowsAverage(low, ys);
    ScoreFollowsAverage(ys, high);
  }

  /** Every arrangement of the list has its score. */
  ghost predicate ScoreIsFixed(xs: seq<Signal>) {
    forall ys :: multiset(ys) == multiset(xs) ==> ScoreOf(ys).score == ScoreOf(xs).score
  }

  /**
   * The exact condition for the score, rounding included: its order is irrelevant if and only if the list
   * scores the same with the least recent signals first as with the most recent first.
   */
  lemma {:induction false} ScoreIsFixedIff(xs: seq<Signal>)
    ensures ScoreIsFixed(xs) <==> ScoreOf(LeastRecentFirst(xs)).score == ScoreOf(MostRecentFirst(xs)).score
  {
    hide ScoreOf, SortBy;
    SortBySorts(xs, RecencyOf);
    SortBySorts(xs, Staleness);
    ScoreIsBetweenExtremes(xs, xs);
    if ScoreOf(LeastRecentFirst(xs)).score == ScoreOf(MostRecentFirst(xs)).score {
      forall ys | multiset(ys) == multiset(xs)
        ensures ScoreOf(ys).score == ScoreOf(xs).score
      {
        ScoreIsBetweenExtremes(xs, ys);
      }
    }
  }

  // ----- Examples -----

  const LATE := Signal(Some(60), 0.5)
  const OLD := Signal(Some(120), 1.0)

  predicate Tied(s: Signal) { Weight(s) == 0.15 && RecencyOf(s) > 0.0 }

  lemma {:induction false} AlreadySorted(xs: seq<Signal>)
    requires forall s :: s in xs ==> Tied(s)
    ensures Sort(xs) == xs
  {
    hide Weight;
    if xs != [] {
      assert Tied(xs[0]) && (|xs| > 1 ==> Tied(xs[1]));
      AlreadySorted(xs[1..]);
      assert xs == [xs[0]] + xs[1..];
    }
  }

  lemma {:induction false} UnexpiredAll(xs: seq<Signal>)
    requires forall s :: s in xs ==> Tied(s)
    ensures Unexpired(xs) == xs
  {
    hide RecencyOf;
    if xs != [] {
      assert Tied(xs[0]);
      UnexpiredAll(xs[1..]);
      assert xs == [xs[0]] + xs[1..];
    }
  }

  lemma SumOfFive(a: Signal, b: Signal, c: Signal, d: Signal, e: Signal)
    requires Tied(a) && Tied(b) && Tied(c) && Tied(d) && Tied(e)
    ensures Average([a, b, c, d, e])
         == (Weighted(a) + Weighted(b) + Weighted(c) + Weighted(d) + Weighted(e)) / 0.75
  {
    hide Weight, Weighted;
    SumFrom([a, b, c, d, e]);
    SumFrom([b, c, d, e]);
    SumFrom([c, d, e]);
    SumFrom([d, e]);
    SumFrom([e]);
  }

  function Average5Reliability(a: Signal, b: Signal, c: Signal, d: Signal, e: Signal): real {
    Sum([a, b, c, d, e], Reliability) / 5.0
  }

  lemma ScoreAt(n: real, d: real, reliability: real)
    ensures n == 0.225 && d == 0.75 ==> Scored(n / d, reliability, 6).score == 59
    ensures n == 0.2025 && d == 0.75 ==> Scored(n / d, reliability, 6).score == 57
  {
  }

  lemma TiedScore(a: Signal, b: Signal, c: Signal, d: Signal, e: Signal, f: Signal)
    requires Tied(a) && Tied(b) && Tied(c) && Tied(d) && Tied(e) && Tied(f)
    ensures ScoreOf([a, b, c, d, e, f])
         == Scored((Weighted(a) + Weighted(b) + Weighted(c) + Weighted(d) + Weighted(e)) / 0.75,
                   Average5Reliability(a, b, c, d, e), 6)
  {
    hide Weighted, Weight, Scored, RecencyOf, Sum, Average, Reliability;
    var xs := [a, b, c, d, e, f];
    assert forall s :: s in xs ==> Tied(s);
    AlreadySorted(xs);
    UnexpiredAll(xs);
    assert xs[..5] == [a, b, c, d, e];
    SumOfFive(a, b, c, d, e);
    assert Top(xs) == [a, b, c, d, e];
  }

  lemma Rearranged(a: Signal, b: Signal)
    ensures multiset([a, a, a, a, a, b]) == multiset([b, a, a, a, a, a])
  {
  }

  lemma WeightsTie()
    ensures Tied(LATE) && Weighted(LATE) == 0.045
    ensures Tied(OLD) && Weighted(OLD) == 0.0225
  {
  }

  /** Six signals of one weight: which five are averaged depends on the order given. */
  lemma OrderCanMatter()
    ensures multiset([LATE, LATE, LATE, LATE, LATE, OLD]) == multiset([OLD, LATE, LATE, LATE, LATE, LATE])
    ensures ScoreOf([LATE, LATE, LATE, LATE, LATE, OLD]).score == 59
    ensures ScoreOf([OLD, LATE, LATE, LATE, LATE, LATE]).score == 57
  {
    WeightsTie();
    hide *;
    Rearranged(LATE, OLD);
    TiedScore(LATE, LATE, LATE, LATE, LATE, OLD);
    TiedScore(OLD, LATE, LATE, LATE, LATE, LATE);
    ScoreAt(0.225, 0.75, Average5Reliability(LATE, LATE, LATE, LATE, LATE));
    ScoreAt(0.2025, 0.75, Average5Reliability(OLD, LATE, LATE, LATE, LATE));
  }

  const NEAR := Signal(Some(61), 60.0 / 119.0)
  const BLURRED := [LATE, LATE, LATE, LATE, LATE, NEAR]

  lemma NearTie()
    ensures Tied(NEAR) && RecencyOf(NEAR) == 0.2975 && Tied(LATE) && RecencyOf(LATE) == 0.3
  {
    assert 0.2975 * (60.0 / 119.0) == 0.15;
  }

  predicate Near(s: Signal) { Tied(s) && 0.2975 <= RecencyOf(s) <= 0.3 }

  lemma BlurredMembers(ys: seq<Signal>)
    requires multiset(ys) == multiset(BLURRED)
    ensures |ys| == 6 && forall s :: s in ys ==> Near(s)
  {
    NearTie();
    hide RecencyOf, Tied;
    assert |multiset(ys)| == |ys| && |BLURRED| == 6;
    forall s | s in ys
      ensures Near(s)
    {
      assert s in multiset(ys);
      assert s == LATE || s == NEAR;
    }
  }

  lemma ScoreNear(average: real, reliability: real)
    requires 0.2975 <= average <= 0.3
    ensures Scored(average, reliability, 6).score == 59
  {
    RoundMonotone(43.8, average * 80.0 + 20.0);
    RoundMonotone(average * 80.0 + 20.0, 44.0);
    assert Round(43.8) == 44 && Round(44.0) == 44;
    hide Round;
  }

  lemma BlurredScore(ys: seq<Signal>)
    requires multiset(ys) == multiset(BLURRED)
    ensures ScoreOf(ys).score == 59
  {
    hide RecencyOf, Weight, Average, Sort, Scored, Sum;
    BlurredMembers(ys);
    UnexpiredAll(ys);
    AlreadySorted(ys);
    var top := ys[..5];
    forall s | s in top
      ensures Near(s)
    {
      assert s in ys;
    }
    AverageBetween(top, 0.2975, 0.3);
    assert Top(ys) == top;
    ScoreNear(Average(top), Sum(top, Reliability) / |top| as real);
  }

  /** For the score alone the condition is not necessary: rounding can hide that the average varies. */
  lemma RoundingHidesOrder()
    ensures !AverageIsFixed(BLURRED)
    ensures forall ys :: multiset(ys) == multiset(BLURRED) ==> ScoreOf(ys).score == 59
  {
    NearTie();
    AlreadySorted(BLURRED);
    AverageIsFixedIff(BLURRED);
    assert NEAR in BLURRED && BLURRED[4] == LATE && BLURRED[5] == NEAR;
    hide RecencyOf, Weight, AverageIsFixed, Sort, ScoreOf;
    forall ys | multiset(ys) == multiset(BLURRED)
      ensures ScoreOf(ys).score == 59
    {
      BlurredScore(ys);
    }
  }
}
