/** ICP fit and overall priority: src/scoring/icp_rules.py and src/agent/nodes/icp_scorer.py. */
module IcpScore {
  import opened Options
  import opened Rounding
  import TimingScore

  /** The outcome of comparing a text field with the target list, when both are present. */
  datatype Match = Unknown | Hit | Miss

  /** A missing `max` is infinity. */
  datatype Range = Range(min: real, max: Option<real>)

  /** An entry of the account's metadata signals, with which lists it matches. */
  datatype MetaSignal = MetaSignal(text: string, positive: bool, negative: bool)

  /** Disqualify rules; the scorer checks only the first three. */
  datatype Rule = BelowTwenty | PreRevenue | ExistingCustomer | Unchecked

  datatype Facts = Facts(
    industry: Match, employees: Option<int>, revenue: Option<real>, geography: Match,
    isCustomer: bool, signals: seq<MetaSignal>)

  datatype Criteria = Criteria(size: Range, revenue: Range, rules: seq<Rule>)

  /** `signals` is monetization_complexity + growth_stage + enterprise_sales_motion. */
  datatype Weights = Weights(industry: real, size: real, revenue: real, geography: real, signals: real)

  const DEFAULT_WEIGHTS := Weights(0.15, 0.10, 0.10, 0.05, 0.35)

  datatype Statement = Industry | Size | Revenue | Geography
                     | PositiveSignal(text: string) | NegativeSignal(text: string)
                     | RuleBroken(rule: Rule) | FromPainScorer(text: string)

  datatype Evidence = Evidence(statement: Statement, confidence: real)

  datatype Dimension = Dimension(score: int, evidence: Option<Evidence>)

  datatype Scorer = Scorer(weight: real, dimension: Dimension)

  /** A piece of evidence and the list it is filed under. */
  datatype Reason = Reason(evidence: Evidence, forFit: bool)

  datatype Fit = Fit(
    score: int, fits: seq<Evidence>, others: seq<Evidence>, broken: Option<Rule>, confidence: real)

  // ----- Dimensions -----

  function Distance(range: Range, x: real): real
    requires range.max.Some?
  {
    var max := range.max.value;
    if max > range.min then
      (if x >= (range.min + max) / 2.0 then x - (range.min + max) / 2.0 else (range.min + max) / 2.0 - x)
      / (max - range.min)
    else 0.0
  }

  predicate Within(range: Range, x: real) {
    range.min <= x && (range.max.Some? ==> x <= range.max.value)
  }

  /** Within an unbounded range the distance is inf / inf, and int(nan) raises: None. */
  function WithinScore(range: Range, x: real): Option<int> {
    if range.max.None? then None else Some(Truncate(100.0 - Distance(range, x) * 40.0))
  }

  function PartialCredit(part: real, whole: real): int {
    var ratio := if whole > 0.0 then part / whole else 0.0;
    Truncate(if ratio * 40.0 > 0.0 then ratio * 40.0 else 0.0)
  }

  function SizeScore(range: Range, count: int): Option<int> {
    var x := count as real;
    if Within(range, x) then WithinScore(range, x)
    else if x < range.min then Some(PartialCredit(x, range.min))
    else Some(PartialCredit(range.max.value, x))
  }

  function SizeDimension(range: Range, employees: Option<int>): Option<Dimension> {
    match employees
    case None => Some(Dimension(50, None))
    case Some(count) =>
      match SizeScore(range, count)
      case None => None
      case Some(score) =>
        Some(Dimension(score, Some(Evidence(Size, if Within(range, count as real) then 0.95 else 0.90))))
  }

  function RevenueDimension(range: Range, revenue: Option<real>): Option<Dimension> {
    match revenue
    case None => Some(Dimension(50, None))
    case Some(x) =>
      if Within(range, x) then
        match WithinScore(range, x)
        case None => None
        case Some(score) => Some(Dimension(score, Some(Evidence(Revenue, 0.85))))
      else Some(Dimension(15, Some(Evidence(Revenue, 0.85))))
  }

  function MatchDimension(m: Match, statement: Statement, miss: int, missConfidence: real): Dimension {
    match m
    case Unknown => Dimension(50, None)
    case Hit => Dimension(100, Some(Evidence(statement, 0.95)))
    case Miss => Dimension(miss, Some(Evidence(statement, missConfidence)))
  }

  function Scorers(f: Facts, c: Criteria, w: Weights): Option<seq<Scorer>> {
    match (SizeDimension(c.size, f.employees), RevenueDimension(c.revenue, f.revenue))
    case (Some(size), Some(revenue)) =>
      Some([Scorer(w.industry, MatchDimension(f.industry, Industry, 10, 0.90)),
            Scorer(w.size, size),
            Scorer(w.revenue, revenue),
            Scorer(w.geography, MatchDimension(f.geography, Geography, 20, 0.85))])
    case _ => None
  }

  // ----- Metadata signals -----

  function SignalStep(score: int, s: MetaSignal): int {
    var raised := if s.positive then Min(100, score + 15) else score;
    if s.negative then (if raised - 25 > 0 then raised - 25 else 0) else raised
  }

  function SignalWalk(start: int, signals: seq<MetaSignal>): int {
    if signals == [] then start
    else SignalStep(SignalWalk(start, signals[..|signals| - 1]), signals[|signals| - 1])
  }

  function SignalScore(signals: seq<MetaSignal>): int { SignalWalk(50, signals) }

  function EvidenceOfOne(s: MetaSignal): seq<Evidence> {
    (if s.positive then [Evidence(PositiveSignal(s.text), 0.80)] else [])
    + (if s.negative then [Evidence(NegativeSignal(s.text), 0.80)] else [])
  }

  function SignalEvidence(signals: seq<MetaSignal>): seq<Evidence> {
    if signals == [] then []
    else SignalEvidence(signals[..|signals| - 1]) + EvidenceOfOne(signals[|signals| - 1])
  }

  method ScoreMetadataSignals(signals: seq<MetaSignal>) returns (score: int, evidence: seq<Evidence>)
    ensures score == SignalScore(signals) && 0 <= score <= 100
    ensures evidence == SignalEvidence(signals)
  {
    score, evidence := 50, [];
    for n := 0 to |signals|
      invariant score == SignalScore(signals[..n]) && 0 <= score <= 100
      invariant evidence == SignalEvidence(signals[..n])
    {
      var s := signals[n];
      assert signals[..n + 1][..n] == signals[..n];
      ghost var before := evidence;
      if s.positive {
        score := Min(100, score + 15);
        evidence := evidence + [Evidence(PositiveSignal(s.text), 0.80)];
      }
      if s.negative {
        score := if score - 25 > 0 then score - 25 else 0;
        evidence := evidence + [Evidence(NegativeSignal(s.text), 0.80)];
      }
      assert evidence == before + EvidenceOfOne(s);
    }
    assert signals[..|signals|] == signals;
  }

  // ----- Disqualify rules -----

  predicate Breaks(f: Facts, rule: Rule) {
    match rule
    case BelowTwenty => f.employees.Some? && f.employees.value < 20
    case PreRevenue => f.revenue.Some? && f.revenue.value <= 0.0
    case ExistingCustomer => f.isCustomer
    case Unchecked => false
  }

  function FirstBroken(f: Facts, rules: seq<Rule>): (r: Option<Rule>)
    ensures r.None? <==> forall rule :: rule in rules ==> !Breaks(f, rule)
    ensures r.Some? ==>
      exists k :: 0 <= k < |rules| && rules[k] == r.value && Breaks(f, rules[k])
               && forall j :: 0 <= j < k ==> !Breaks(f, rules[j])
  {
    if rules == [] then None
    else if Breaks(f, rules[0]) then Some(rules[0])
    else
      var r := FirstBroken(f, rules[1..]);
      assert r.Some? ==> forall k :: 0 <= k < |rules| - 1 ==> rules[1..][k] == rules[k + 1];
      r
  }

  method CheckDisqualify(f: Facts, rules: seq<Rule>) returns (r: Option<Rule>)
    ensures r == FirstBroken(f, rules)
  {
    for n := 0 to |rules|
      invariant FirstBroken(f, rules) == FirstBroken(f, rules[n..])
    {
      assert rules[n..][1..] == rules[n + 1..];
      if Breaks(f, rules[n]) {
        return Some(rules[n]);
      }
    }
    return None;
  }

  // ----- ICP fit -----

  function WeightedSum(xs: seq<Scorer>): real {
    if xs == [] then 0.0
    else
      var last := xs[|xs| - 1];
      WeightedSum(xs[..|xs| - 1]) + last.dimension.score as real * last.weight
  }

  function WeightSum(xs: seq<Scorer>): real {
    if xs == [] then 0.0 else WeightSum(xs[..|xs| - 1]) + xs[|xs| - 1].weight
  }

  function ConfidenceSum(xs: seq<Reason>): real {
    if xs == [] then 0.0 else ConfidenceSum(xs[..|xs| - 1]) + xs[|xs| - 1].evidence.confidence
  }

  /** Known dimensions count for the fit from 60 points on. */
  function DimensionReasons(xs: seq<Scorer>): seq<Reason> {
    if xs == [] then []
    else
      var d := xs[|xs| - 1].dimension;
      DimensionReasons(xs[..|xs| - 1])
      + if d.evidence.Some? then [Reason(d.evidence.value, d.score >= 60)] else []
  }

  predicate StartsAt(text: string, word: string, i: nat) {
    i + |word| <= |text| && text[i..i + |word|] == word
  }

  predicate HasWord(text: string, word: string) {
    exists i :: 0 <= i <= |text| - |word| && StartsAt(text, word, i)
  }

  /** Signal evidence is filed by the word "Positive" in its statement, quoted text included. */
  predicate SaysPositive(s: Statement) {
    match s
    case PositiveSignal(_) => true
    case NegativeSignal(text) => HasWord(text, "Positive")
    case _ => false
  }

  function SignalReasons(evidence: seq<Evidence>): seq<Reason> {
    if evidence == [] then []
    else
      var last := evidence[|evidence| - 1];
      SignalReasons(evidence[..|evidence| - 1]) + [Reason(last, SaysPositive(last.statement))]
  }

  function Filed(xs: seq<Reason>, forFit: bool): seq<Evidence> {
    if xs == [] then []
    else
      var last := xs[|xs| - 1];
      Filed(xs[..|xs| - 1], forFit) + if last.forFit == forFit then [last.evidence] else []
  }

  function Reasons(xs: seq<Scorer>, f: Facts): seq<Reason> {
    DimensionReasons(xs) + SignalReasons(SignalEvidence(f.signals))
  }

  /** Weight that no dimension claims counts as a neutral 50. */
  function Total(xs: seq<Scorer>, signalScore: int, signalWeight: real): real {
    var total := WeightedSum(xs) + signalScore as real * signalWeight;
    var remaining := 1.0 - (WeightSum(xs) + signalWeight);
    if remaining > 0.0 then total + 50.0 * remaining else total
  }

  function Confidence(reasons: seq<Reason>): real {
    if reasons == [] then 0.3 else ConfidenceSum(reasons) / |reasons| as real
  }

  /** The result of scoring, or None where it raises. */
  function FitOf(f: Facts, c: Criteria, w: Weights): Option<Fit> {
    var broken := FirstBroken(f, c.rules);
    if broken.Some? then Some(Fit(0, [], [Evidence(RuleBroken(broken.value), 0.95)], broken, 0.95))
    else
      match Scorers(f, c, w)
      case None => None
      case Some(xs) =>
        var reasons := Reasons(xs, f);
        Some(Fit(Percent(Round(Total(xs, SignalScore(f.signals), w.signals))),
                 Filed(reasons, true), Filed(reasons, false), None, Confidence(reasons)))
  }

  lemma FiledStep(xs: seq<Reason>, x: Reason, forFit: bool)
    ensures Filed(xs + [x], forFit) == Filed(xs, forFit) + if x.forFit == forFit then [x.evidence] else []
  {
    assert (xs + [x])[..|xs|] == xs;
  }

  lemma ConfidenceStep(xs: seq<Reason>, x: Reason)
    ensures ConfidenceSum(xs + [x]) == ConfidenceSum(xs) + x.evidence.confidence
  {
    assert (xs + [x])[..|xs|] == xs;
  }

  /** The evidence gathered so far. */
  datatype Tally = Tally(fits: seq<Evidence>, others: seq<Evidence>, confidenceSum: real, count: nat)

  function Add(t: Tally, x: Reason): Tally {
    Tally(if x.forFit then t.fits + [x.evidence] else t.fits,
          if x.forFit then t.others else t.others + [x.evidence],
          t.confidenceSum + x.evidence.confidence, t.count + 1)
  }

  function TallyOf(reasons: seq<Reason>): Tally {
    Tally(Filed(reasons, true), Filed(reasons, false), ConfidenceSum(reasons), |reasons|)
  }

  lemma TallyStep(reasons: seq<Reason>, x: Reason)
    ensures TallyOf(reasons + [x]) == Add(TallyOf(reasons), x)
  {
    FiledStep(reasons, x, true);
    FiledStep(reasons, x, false);
    ConfidenceStep(reasons, x);
  }

  method TallyDimensions(xs: seq<Scorer>) returns (t: Tally, weightedTotal: real, totalWeight: real)
    ensures t == TallyOf(DimensionReasons(xs))
    ensures weightedTotal == WeightedSum(xs) && totalWeight == WeightSum(xs)
  {
    t, weightedTotal, totalWeight := Tally([], [], 0.0, 0), 0.0, 0.0;
    for n := 0 to |xs|
      invariant weightedTotal == WeightedSum(xs[..n]) && totalWeight == WeightSum(xs[..n])
      invariant t == TallyOf(DimensionReasons(xs[..n]))
    {
      assert xs[..n + 1][..n] == xs[..n];
      hide TallyOf, Add;
      var Scorer(weight, d) := xs[n];
      weightedTotal := weightedTotal + d.score as real * weight;
      totalWeight := totalWeight + weight;
      if d.evidence.Some? {
        TallyStep(DimensionReasons(xs[..n]), Reason(d.evidence.value, d.score >= 60));
        t := Add(t, Reason(d.evidence.value, d.score >= 60));
      } else {
        assert DimensionReasons(xs[..n + 1]) == DimensionReasons(xs[..n]);
      }
    }
    assert xs[..|xs|] == xs;
  }

  method TallySignals(start: Tally, evidence: seq<Evidence>, ghost known: seq<Reason>) returns (t: Tally)
    requires start == TallyOf(known)
    ensures t == TallyOf(known + SignalReasons(evidence))
  {
    t := start;
    assert known + [] == known;
    for n := 0 to |evidence|
      invariant t == TallyOf(known + SignalReasons(evidence[..n]))
    {
      assert evidence[..n + 1][..n] == evidence[..n];
      hide TallyOf, Add, SaysPositive;
      var x := Reason(evidence[n], SaysPositive(evidence[n].statement));
      ghost var sofar := SignalReasons(evidence[..n]);
      TallyStep(known + sofar, x);
      assert known + sofar + [x] == known + (sofar + [x]);
      t := Add(t, x);
    }
    assert evidence[..|evidence|] == evidence;
  }

  /** The last two steps, for the totals that the loops leave. */
  lemma FitFromTotals(f: Facts, c: Criteria, w: Weights, xs: seq<Scorer>, signalScore: int, total: real, t: Tally)
    requires FirstBroken(f, c.rules).None? && Scorers(f, c, w) == Some(xs)
    requires signalScore == SignalScore(f.signals) && t == TallyOf(Reasons(xs, f))
    requires total == WeightedSum(xs) + signalScore as real * w.signals
    ensures var remaining := 1.0 - (WeightSum(xs) + w.signals);
      FitOf(f, c, w) == Some(Fit(
        Percent(Round(if remaining > 0.0 then total + 50.0 * remaining else total)), t.fits, t.others, None,
        if t.count > 0 then t.confidenceSum / t.count as real else 0.3))
  {
    hide FirstBroken, Scorers, SignalScore, Reasons, WeightedSum, WeightSum, Round, Filed, ConfidenceSum;
    var reasons := Reasons(xs, f);
    assert t.count == |reasons|;
    assert Confidence(reasons) == if t.count > 0 then t.confidenceSum / t.count as real else 0.3;
    assert Total(xs, signalScore, w.signals)
        == var remaining := 1.0 - (WeightSum(xs) + w.signals);
           if remaining > 0.0 then total + 50.0 * remaining else total;
  }

  method ScoreIcpFit(f: Facts, c: Criteria, w: Weights) returns (r: Option<Fit>)
    ensures r == FitOf(f, c, w)
  {
    hide Filed, ConfidenceSum, Scorers, FirstBroken, SignalEvidence, SignalReasons, DimensionReasons, Round,
         TallyOf, Total, Confidence, WeightedSum, WeightSum;
    var broken := CheckDisqualify(f, c.rules);
    if broken.Some? {
      return Some(Fit(0, [], [Evidence(RuleBroken(broken.value), 0.95)], broken, 0.95));
    }
    var scorers := Scorers(f, c, w);
    if scorers.None? {
      return None;
    }
    var xs := scorers.value;
    var known, weightedTotal, totalWeight := TallyDimensions(xs);
    var signalScore, signalEvidence := ScoreMetadataSignals(f.signals);
    weightedTotal := weightedTotal + signalScore as real * w.signals;
    totalWeight := totalWeight + w.signals;
    var t := TallySignals(known, signalEvidence, DimensionReasons(xs));
    FitFromTotals(f, c, w, xs, signalScore, weightedTotal, t);
    var remaining := 1.0 - totalWeight;
    if remaining > 0.0 {
      weightedTotal := weightedTotal + 50.0 * remaining;
    }
    var confidence := if t.count > 0 then t.confidenceSum / t.count as real else 0.3;
    return Some(Fit(Percent(Round(weightedTotal)), t.fits, t.others, None, confidence));
  }

  // ----- What the scores can be -----

  lemma RatioBetween(n: real, d: real, most: real)
    requires n >= 0.0 && d > 0.0 && n <= most * d
    ensures 0.0 <= n / d <= most
  {
    Quotient(n, d, 0.0);
    Quotient(n, d, most);
  }

  lemma DistanceIsHalfAtMost(range: Range, x: real)
    requires range.max.Some? && Within(range, x)
    ensures 0.0 <= Distance(range, x) <= 0.5
  {
    var max := range.max.value;
    if max > range.min {
      var mid := (range.min + max) / 2.0;
      var gap := if x >= mid then x - mid else mid - x;
      RatioBetween(gap, max - range.min, 0.5);
    }
  }

  lemma CreditBelowForty(part: real, whole: real)
    requires part < whole
    ensures 0 <= PartialCredit(part, whole) < 40
  {
    if whole > 0.0 {
      Quotient(part, whole, 1.0);
    }
  }

  /** Inside the range a size scores from 80 up, where the comment promises 60 up; outside below 40. */
  lemma SizeScoreBands(range: Range, count: int)
    requires range.max.Some?
    ensures SizeScore(range, count).Some?
    ensures Within(range, count as real) <==> SizeScore(range, count).value >= 80
    ensures Within(range, count as real) <==> SizeScore(range, count).value >= 40
    ensures 0 <= SizeScore(range, count).value <= 100
  {
    hide Distance;
    var x := count as real;
    if Within(range, x) {
      DistanceIsHalfAtMost(range, x);
    } else if x < range.min {
      CreditBelowForty(x, range.min);
    } else {
      CreditBelowForty(range.max.value, x);
    }
  }

  /** Scoring raises exactly when a known value lies in a range that has no upper end. */
  lemma RaisesIff(f: Facts, c: Criteria, w: Weights)
    ensures FitOf(f, c, w).None? <==>
      && FirstBroken(f, c.rules).None?
      && (|| (c.size.max.None? && f.employees.Some? && c.size.min <= f.employees.value as real)
          || (c.revenue.max.None? && f.revenue.Some? && c.revenue.min <= f.revenue.value))
  {
    hide Total, Reasons, Confidence, Filed, MatchDimension, Truncate, Round, Distance, PartialCredit;
  }

  lemma {:induction false} WalkMonotone(a: int, b: int, signals: seq<MetaSignal>)
    requires a <= b
    ensures SignalWalk(a, signals) <= SignalWalk(b, signals)
  {
    if signals != [] {
      WalkMonotone(a, b, signals[..|signals| - 1]);
    }
  }

  lemma {:induction false} WalkInRange(start: int, signals: seq<MetaSignal>)
    requires 0 <= start <= 100
    ensures 0 <= SignalWalk(start, signals) <= 100
  {
    if signals != [] {
      WalkInRange(start, signals[..|signals| - 1]);
    }
  }

  lemma {:induction false} WalkJoins(start: int, xs: seq<MetaSignal>, ys: seq<MetaSignal>)
    ensures SignalWalk(start, xs + ys) == SignalWalk(SignalWalk(start, xs), ys)
  {
    if ys == [] {
      assert xs + [] == xs;
    } else {
      var n := |ys| - 1;
      assert (xs + ys)[..|xs + ys| - 1] == xs + ys[..n];
      WalkJoins(start, xs, ys[..n]);
    }
  }

  /** One more purely positive signal, anywhere in the list, never lowers the score, nor a negative one raises it. */
  lemma SignalsPullTheirWay(xs: seq<MetaSignal>, s: MetaSignal, ys: seq<MetaSignal>)
    ensures s.positive && !s.negative ==> SignalScore(xs + [s] + ys) >= SignalScore(xs + ys)
    ensures s.negative && !s.positive ==> SignalScore(xs + [s] + ys) <= SignalScore(xs + ys)
  {
    var before := SignalWalk(50, xs);
    WalkInRange(50, xs);
    assert (xs + [s])[..|xs|] == xs;
    var after := SignalWalk(50, xs + [s]);
    assert after == SignalStep(before, s);
    WalkJoins(50, xs, ys);
    WalkJoins(50, xs + [s], ys);
    hide SignalWalk;
    if after >= before {
      WalkMonotone(before, after, ys);
    }
    if after <= before {
      WalkMonotone(after, before, ys);
    }
  }

  // ----- When the order of the signals matters -----

  datatype Kind = Up | Down | Mixed | Idle

  function KindOf(s: MetaSignal): Kind {
    if s.positive then (if s.negative then Mixed else Up) else if s.negative then Down else Idle
  }

  function CountOf(xs: seq<MetaSignal>, kind: Kind): nat {
    if xs == [] then 0
    else CountOf(xs[..|xs| - 1], kind) + if KindOf(xs[|xs| - 1]) == kind then 1 else 0
  }

  /** No arrangement of so many purely positive, purely negative and mixed signals is cut at 0 or 100. */
  predicate NeverCut(ups: nat, downs: nat, mixed: nat) {
    ups <= (if mixed == 0 then 3 else 2) && 10 * mixed + 25 * downs <= 50
  }

  /** One list is never cut, or all cuts are at the same end. */
  predicate OrderFree(xs: seq<MetaSignal>) {
    var ups, downs, mixed := CountOf(xs, Up), CountOf(xs, Down), CountOf(xs, Mixed);
    ups == 0 || downs + mixed == 0 || NeverCut(ups, downs, mixed)
  }

  /** What every arrangement of an order-free list scores. */
  function FreeScore(xs: seq<MetaSignal>): int {
    Percent(50 + 15 * CountOf(xs, Up) - 25 * CountOf(xs, Down) - 10 * CountOf(xs, Mixed))
  }

  lemma {:induction false} FreeScoreIsScore(xs: seq<MetaSignal>)
    requires OrderFree(xs)
    ensures SignalScore(xs) == FreeScore(xs)
  {
    if xs != [] {
      FreeScoreIsScore(xs[..|xs| - 1]);
    }
  }

  function Only(xs: seq<MetaSignal>, kind: Kind): seq<MetaSignal> {
    if xs == [] then []
    else Only(xs[..|xs| - 1], kind) + if KindOf(xs[|xs| - 1]) == kind then [xs[|xs| - 1]] else []
  }

  lemma {:induction false} OnlyOfKind(xs: seq<MetaSignal>, kind: Kind)
    ensures |Only(xs, kind)| == CountOf(xs, kind)
    ensures forall i :: 0 <= i < |Only(xs, kind)| ==> KindOf(Only(xs, kind)[i]) == kind
  {
    if xs != [] {
      OnlyOfKind(xs[..|xs| - 1], kind);
    }
  }

  lemma {:induction false} OccurrencesOfKind(xs: seq<MetaSignal>, kind: Kind, s: MetaSignal)
    ensures multiset(Only(xs, kind))[s] == if KindOf(s) == kind then multiset(xs)[s] else 0
  {
    hide KindOf;
    if xs != [] {
      OccurrencesOfKind(xs[..|xs| - 1], kind, s);
      assert xs == xs[..|xs| - 1] + [xs[|xs| - 1]];
    }
  }

  lemma KindsMakeTheList(xs: seq<MetaSignal>)
    ensures multiset(xs)
         == multiset(Only(xs, Up)) + multiset(Only(xs, Down)) + multiset(Only(xs, Mixed)) + multiset(Only(xs, Idle))
  {
    hide Only;
    forall s
      ensures forall kind :: multiset(Only(xs, kind))[s] == if KindOf(s) == kind then multiset(xs)[s] else 0
    {
      forall kind
        ensures multiset(Only(xs, kind))[s] == if KindOf(s) == kind then multiset(xs)[s] else 0
      {
        OccurrencesOfKind(xs, kind, s);
      }
    }
  }

  lemma CountInMultiset(xs: seq<MetaSignal>, ys: seq<MetaSignal>, kind: Kind)
    requires multiset(xs) == multiset(ys)
    ensures CountOf(xs, kind) == CountOf(ys, kind)
  {
    hide Only;
    forall s
      ensures multiset(Only(xs, kind))[s] == multiset(Only(ys, kind))[s]
    {
      OccurrencesOfKind(xs, kind, s);
      OccurrencesOfKind(ys, kind, s);
    }
    assert multiset(Only(xs, kind)) == multiset(Only(ys, kind));
    assert |multiset(Only(xs, kind))| == |Only(xs, kind)| && |multiset(Only(ys, kind))| == |Only(ys, kind)|;
    OnlyOfKind(xs, kind);
    OnlyOfKind(ys, kind);
  }

  /** Where a stretch of signals of one kind takes the score. */
  function Stretch(start: int, kind: Kind, n: nat): int {
    match kind
    case Up => Percent(start + 15 * n)
    case Down => Percent(start - 25 * n)
    case Mixed => if n == 0 then start else Percent(Min(start, 85) - 10 * n)
    case Idle => start
  }

  lemma {:induction false} WalkOfKind(start: int, xs: seq<MetaSignal>, kind: Kind)
    requires 0 <= start <= 100 && forall i :: 0 <= i < |xs| ==> KindOf(xs[i]) == kind
    ensures SignalWalk(start, xs) == Stretch(start, kind, |xs|)
  {
    if xs != [] {
      WalkOfKind(start, xs[..|xs| - 1], kind);
    }
  }

  lemma WalkOfFour(a: seq<MetaSignal>, b: seq<MetaSignal>, c: seq<MetaSignal>, d: seq<MetaSignal>)
    ensures SignalScore(a + b + c + d)
         == SignalWalk(SignalWalk(SignalWalk(SignalWalk(50, a), b), c), d)
  {
    WalkJoins(50, a + b + c, d);
    WalkJoins(50, a + b, c);
    WalkJoins(50, a, b);
  }

  /** All positive signals first. */
  function RiseFirst(xs: seq<MetaSignal>): seq<MetaSignal> {
    Only(xs, Up) + Only(xs, Mixed) + Only(xs, Down) + Only(xs, Idle)
  }

  /** All positive signals last. */
  function FallFirst(xs: seq<MetaSignal>): seq<MetaSignal> {
    Only(xs, Mixed) + Only(xs, Down) + Only(xs, Up) + Only(xs, Idle)
  }

  lemma ExtremeScores(xs: seq<MetaSignal>)
    ensures var ups, downs, mixed := CountOf(xs, Up), CountOf(xs, Down), CountOf(xs, Mixed);
      && SignalScore(RiseFirst(xs)) == Stretch(Stretch(Stretch(50, Up, ups), Mixed, mixed), Down, downs)
      && SignalScore(FallFirst(xs)) == Stretch(Stretch(Stretch(50, Mixed, mixed), Down, downs), Up, ups)
  {
    hide Only, SignalWalk, CountOf, SignalScore;
    var u, d, m, i := Only(xs, Up), Only(xs, Down), Only(xs, Mixed), Only(xs, Idle);
    OnlyOfKind(xs, Up);
    OnlyOfKind(xs, Down);
    OnlyOfKind(xs, Mixed);
    OnlyOfKind(xs, Idle);
    WalkOfFour(u, m, d, i);
    WalkOfKind(50, u, Up);
    WalkOfKind(Stretch(50, Up, |u|), m, Mixed);
    WalkOfKind(Stretch(Stretch(50, Up, |u|), Mixed, |m|), d, Down);
    WalkOfKind(Stretch(Stretch(Stretch(50, Up, |u|), Mixed, |m|), Down, |d|), i, Idle);
    WalkOfFour(m, d, u, i);
    WalkOfKind(50, m, Mixed);
    WalkOfKind(Stretch(50, Mixed, |m|), d, Down);
    WalkOfKind(Stretch(Stretch(50, Mixed, |m|), Down, |d|), u, Up);
    WalkOfKind(Stretch(Stretch(Stretch(50, Mixed, |m|), Down, |d|), Up, |u|), i, Idle);
  }

  lemma ExtremesDiffer(ups: nat, downs: nat, mixed: nat)
    requires ups > 0 && downs + mixed > 0 && !NeverCut(ups, downs, mixed)
    ensures Stretch(Stretch(Stretch(50, Up, ups), Mixed, mixed), Down, downs)
          < Stretch(Stretch(Stretch(50, Mixed, mixed), Down, downs), Up, ups)
  {
  }

  /** Every arrangement of the list scores the same. */
  ghost predicate OrderIsIrrelevant(xs: seq<MetaSignal>) {
    forall ys :: multiset(ys) == multiset(xs) ==> SignalScore(ys) == SignalScore(xs)
  }

  lemma ExtremesAreArrangements(xs: seq<MetaSignal>)
    ensures multiset(RiseFirst(xs)) == multiset(xs) == multiset(FallFirst(xs))
  {
    KindsMakeTheList(xs);
    hide Only;
  }

  /**
   * The order of the signals is irrelevant exactly when the list has no purely positive signal, or
   * nothing but those and idle ones, or too few of each kind to be cut in any order.
   */
  lemma {:induction false} OrderIsIrrelevantIff(xs: seq<MetaSignal>)
    ensures OrderIsIrrelevant(xs) <==> OrderFree(xs)
  {
    hide SignalScore, RiseFirst, FallFirst, Stretch, Only, CountOf;
    if OrderFree(xs) {
      FreeScoreIsScore(xs);
      forall ys | multiset(ys) == multiset(xs)
        ensures SignalScore(ys) == SignalScore(xs)
      {
        CountInMultiset(xs, ys, Up);
        CountInMultiset(xs, ys, Down);
        CountInMultiset(xs, ys, Mixed);
        FreeScoreIsScore(ys);
      }
    } else {
      ExtremesAreArrangements(xs);
      ExtremeScores(xs);
      ExtremesDiffer(CountOf(xs, Up), CountOf(xs, Down), CountOf(xs, Mixed));
    }
  }

  const GOOD := MetaSignal("expansion", true, false)
  const BAD := MetaSignal("bankruptcy", false, true)

  lemma Unroll(start: int, a: MetaSignal, b: MetaSignal, c: MetaSignal, d: MetaSignal)
    ensures SignalWalk(start, [a, b, c, d])
         == SignalStep(SignalStep(SignalStep(SignalStep(start, a), b), c), d)
  {
    hide SignalStep;
    assert [a][..0] == [];
    assert SignalWalk(start, [a]) == SignalStep(start, a);
    assert [a, b][..1] == [a];
    assert SignalWalk(start, [a, b]) == SignalStep(SignalStep(start, a), b);
    assert [a, b, c][..2] == [a, b];
    assert SignalWalk(start, [a, b, c]) == SignalStep(SignalStep(SignalStep(start, a), b), c);
    assert [a, b, c, d][..3] == [a, b, c];
  }

  /** Four signals whose order matters. */
  lemma SignalOrderMatters()
    ensures SignalScore([GOOD, BAD, BAD, BAD]) == 0
    ensures SignalScore([BAD, BAD, BAD, GOOD]) == 15
  {
    Unroll(50, GOOD, BAD, BAD, BAD);
    Unroll(50, BAD, BAD, BAD, GOOD);
  }

  /** The total of four scored dimensions under the default weights. */
  lemma DefaultTotal(f: Facts, c: Criteria, signalScore: int)
    requires Scorers(f, c, DEFAULT_WEIGHTS).Some?
    ensures var xs := Scorers(f, c, DEFAULT_WEIGHTS).value;
      |xs| == 4 &&
      Total(xs, signalScore, DEFAULT_WEIGHTS.signals)
        == 0.15 * xs[0].dimension.score as real + 0.10 * xs[1].dimension.score as real
         + 0.10 * xs[2].dimension.score as real + 0.05 * xs[3].dimension.score as real
         + 0.35 * signalScore as real + 12.5
  {
    var xs := Scorers(f, c, DEFAULT_WEIGHTS).value;
    hide SizeDimension, RevenueDimension, MatchDimension;
    assert xs[..1][..0] == [];
    assert WeightedSum(xs[..1]) == 0.15 * xs[0].dimension.score as real && WeightSum(xs[..1]) == 0.15;
    assert xs[..2][..1] == xs[..1];
    assert WeightedSum(xs[..2]) == WeightedSum(xs[..1]) + 0.10 * xs[1].dimension.score as real;
    assert WeightSum(xs[..2]) == 0.25;
    assert xs[..3][..2] == xs[..2];
    assert WeightedSum(xs[..3]) == WeightedSum(xs[..2]) + 0.10 * xs[2].dimension.score as real;
    assert WeightSum(xs[..3]) == 0.35;
    assert xs[..|xs| - 1] == xs[..3];
  }

  lemma DimensionBounds(f: Facts, c: Criteria, w: Weights)
    requires Scorers(f, c, w).Some?
    ensures var xs := Scorers(f, c, w).value;
      && 10 <= xs[0].dimension.score <= 100 && 0 <= xs[1].dimension.score <= 100
      && 15 <= xs[2].dimension.score <= 100 && 20 <= xs[3].dimension.score <= 100
  {
    if f.employees.Some? {
      var x := f.employees.value as real;
      if c.size.max.Some? {
        SizeScoreBands(c.size, f.employees.value);
      } else if x < c.size.min {
        CreditBelowForty(x, c.size.min);
      }
    }
    if f.revenue.Some? && c.revenue.max.Some? && Within(c.revenue, f.revenue.value) {
      DistanceIsHalfAtMost(c.revenue, f.revenue.value);
    }
    hide Distance, Within, PartialCredit;
  }

  /**
   * With default weights an account that is not disqualified fits between 16 and 88, not 0 to 100,
   * for any criteria under which scoring does not raise.
   */
  lemma FitIsBetween16And88(f: Facts, c: Criteria)
    requires FitOf(f, c, DEFAULT_WEIGHTS).Some?
    ensures var fit := FitOf(f, c, DEFAULT_WEIGHTS).value;
      if FirstBroken(f, c.rules).Some? then fit.score == 0 else 16 <= fit.score <= 88
  {
    if FirstBroken(f, c.rules).None? {
      DimensionBounds(f, c, DEFAULT_WEIGHTS);
      DefaultTotal(f, c, SignalScore(f.signals));
      WalkInRange(50, f.signals);
      var total := Total(Scorers(f, c, DEFAULT_WEIGHTS).value, SignalScore(f.signals), DEFAULT_WEIGHTS.signals);
      hide Scorers, Total, SignalScore, SignalWalk;
      assert 16.5 <= total <= 87.5;
      RoundMonotone(16.5, total);
      RoundMonotone(total, 87.5);
      assert Round(16.5) == 16 && Round(87.5) == 88;
    }
  }

  const BEST := Facts(Hit, Some(100), Some(100.0), Hit, false, [GOOD, GOOD, GOOD, GOOD])
  const WORST := Facts(Miss, Some(0), Some(0.0), Miss, false, [BAD, BAD, BAD, BAD])
  const AROUND := Criteria(Range(50.0, Some(150.0)), Range(50.0, Some(150.0)), [])

  /** Both ends are reached. */
  lemma FitReaches88()
    ensures FitOf(BEST, AROUND, DEFAULT_WEIGHTS).Some?
    ensures FitOf(BEST, AROUND, DEFAULT_WEIGHTS).value.score == 88
  {
    DefaultTotal(BEST, AROUND, 100);
    Unroll(50, GOOD, GOOD, GOOD, GOOD);
    var scorers := Scorers(BEST, AROUND, DEFAULT_WEIGHTS).value;
    assert scorers[1].dimension.score == 100 && scorers[2].dimension.score == 100;
    hide Total, SignalWalk, Reasons;
  }

  lemma FitReaches16()
    ensures FitOf(WORST, AROUND, DEFAULT_WEIGHTS).Some?
    ensures FitOf(WORST, AROUND, DEFAULT_WEIGHTS).value.score == 16
  {
    DefaultTotal(WORST, AROUND, 0);
    Unroll(50, BAD, BAD, BAD, BAD);
    var scorers := Scorers(WORST, AROUND, DEFAULT_WEIGHTS).value;
    assert scorers[1].dimension.score == 0 && scorers[2].dimension.score == 15;
    hide Total, SignalWalk, Reasons;
  }

  lemma TruncateMonotone(x: real, y: real)
    requires 0.0 <= x <= y
    ensures Truncate(x) <= Truncate(y)
  {
  }

  function Off(range: Range, x: real): real
    requires range.max.Some?
  {
    var mid := (range.min + range.max.value) / 2.0;
    if x >= mid then x - mid else mid - x
  }

  lemma DividedBack(n: real, d: real)
    requires d > 0.0
    ensures n / d * d == n
  {
  }

  /** Within the range, nearer to the middle never scores less, on either side. */
  lemma MiddleIsFavoured(range: Range, a: int, b: int)
    requires range.max.Some? && Within(range, a as real) && Within(range, b as real)
    requires Off(range, a as real) <= Off(range, b as real)
    ensures SizeScore(range, a).Some? && SizeScore(range, b).Some?
    ensures SizeScore(range, a).value >= SizeScore(range, b).value
  {
    var p, q := Distance(range, a as real), Distance(range, b as real);
    DistanceIsHalfAtMost(range, a as real);
    DistanceIsHalfAtMost(range, b as real);
    var width := range.max.value - range.min;
    if width > 0.0 {
      Quotient(Off(range, a as real), width, q);
      DividedBack(Off(range, b as real), width);
    }
    TruncateMonotone(100.0 - q * 40.0, 100.0 - p * 40.0);
  }

  function Occurrences(xs: seq<Reason>, e: Evidence): nat {
    if xs == [] then 0
    else Occurrences(xs[..|xs| - 1], e) + if xs[|xs| - 1].evidence == e then 1 else 0
  }

  /** Filing loses no evidence and files none twice. */
  lemma {:induction false} FilingIsAPartition(xs: seq<Reason>)
    ensures |Filed(xs, true)| + |Filed(xs, false)| == |xs|
    ensures forall e :: multiset(Filed(xs, true))[e] + multiset(Filed(xs, false))[e] == Occurrences(xs, e)
  {
    if xs != [] {
      FilingIsAPartition(xs[..|xs| - 1]);
    }
  }

  predicate Confident(e: Evidence) { 0.80 <= e.confidence <= 0.95 }

  lemma {:induction false} ReasonsAreConfident(xs: seq<Reason>)
    requires forall x :: x in xs ==> Confident(x.evidence)
    ensures 0.80 * |xs| as real <= ConfidenceSum(xs) <= 0.95 * |xs| as real
  {
    if xs != [] {
      ReasonsAreConfident(xs[..|xs| - 1]);
      assert Confident(xs[|xs| - 1].evidence);
    }
  }

  lemma {:induction false} SignalsAreConfident(signals: seq<MetaSignal>)
    ensures forall e :: e in SignalEvidence(signals) ==> Confident(e)
  {
    if signals != [] {
      SignalsAreConfident(signals[..|signals| - 1]);
    }
  }

  lemma {:induction false} SignalReasonsAreConfident(evidence: seq<Evidence>)
    requires forall e :: e in evidence ==> Confident(e)
    ensures forall x :: x in SignalReasons(evidence) ==> Confident(x.evidence)
  {
    if evidence != [] {
      SignalReasonsAreConfident(evidence[..|evidence| - 1]);
    }
  }

  predicate Assured(x: Scorer) {
    x.dimension.evidence.Some? ==> Confident(x.dimension.evidence.value)
  }

  lemma {:induction false} DimensionReasonsAreConfident(xs: seq<Scorer>)
    requires forall x :: x in xs ==> Assured(x)
    ensures forall x :: x in DimensionReasons(xs) ==> Confident(x.evidence)
  {
    if xs != [] {
      DimensionReasonsAreConfident(xs[..|xs| - 1]);
      assert Assured(xs[|xs| - 1]);
    }
  }

  lemma {:induction false} NoDimensionReasons(xs: seq<Scorer>)
    ensures DimensionReasons(xs) == [] <==> forall i :: 0 <= i < |xs| ==> xs[i].dimension.evidence.None?
  {
    if xs != [] {
      NoDimensionReasons(xs[..|xs| - 1]);
    }
  }

  lemma {:induction false} NoSignalReasons(signals: seq<MetaSignal>)
    ensures SignalReasons(SignalEvidence(signals)) == [] <==>
              forall i :: 0 <= i < |signals| ==> KindOf(signals[i]) == Idle
  {
    if signals != [] {
      NoSignalReasons(signals[..|signals| - 1]);
    }
  }

  /** Something is known: a dimension, or a metadata signal that is on one of the lists. */
  predicate SomethingKnown(f: Facts) {
    || f.industry != Unknown || f.employees.Some? || f.revenue.Some? || f.geography != Unknown
    || exists i :: 0 <= i < |f.signals| && KindOf(f.signals[i]) != Idle
  }

  lemma ReasonsIffKnown(f: Facts, c: Criteria, w: Weights)
    requires Scorers(f, c, w).Some?
    ensures Reasons(Scorers(f, c, w).value, f) != [] <==> SomethingKnown(f)
  {
    var xs := Scorers(f, c, w).value;
    NoDimensionReasons(xs);
    NoSignalReasons(f.signals);
    assert |xs| == 4;
    assert xs[0].dimension.evidence.None? <==> f.industry == Unknown;
    assert xs[1].dimension.evidence.None? <==> f.employees.None?;
    assert xs[2].dimension.evidence.None? <==> f.revenue.None?;
    assert xs[3].dimension.evidence.None? <==> f.geography == Unknown;
    hide Scorers, DimensionReasons, SignalReasons, SignalEvidence, KindOf;
  }

  /** ICP confidence is 0.3 exactly when nothing is known of the account, and from 0.80 to 0.95 otherwise. */
  lemma FitConfidence(f: Facts, c: Criteria, w: Weights)
    requires FitOf(f, c, w).Some?
    ensures var fit := FitOf(f, c, w).value;
      if fit.broken.None? && !SomethingKnown(f) then fit.confidence == 0.3 else 0.80 <= fit.confidence <= 0.95
  {
    if FirstBroken(f, c.rules).None? {
      var xs := Scorers(f, c, w).value;
      assert forall x :: x in xs ==> Assured(x);
      ReasonsIffKnown(f, c, w);
      hide Scorers, Total, Filed, SomethingKnown;
      DimensionReasonsAreConfident(xs);
      SignalsAreConfident(f.signals);
      SignalReasonsAreConfident(SignalEvidence(f.signals));
      var reasons := Reasons(xs, f);
      ReasonsAreConfident(reasons);
      if reasons != [] {
        Quotient(ConfidenceSum(reasons), |reasons| as real, 0.80);
        Quotient(ConfidenceSum(reasons), |reasons| as real, 0.95);
      }
    }
  }

  // ----- Where signal evidence is filed -----

  lemma {:induction false} FiledIff(xs: seq<Reason>, forFit: bool, e: Evidence)
    ensures e in Filed(xs, forFit) <==> Reason(e, forFit) in xs
  {
    if xs != [] {
      FiledIff(xs[..|xs| - 1], forFit, e);
      assert xs == xs[..|xs| - 1] + [xs[|xs| - 1]];
    }
  }

  lemma {:induction false} SignalReasonIff(evidence: seq<Evidence>, x: Reason)
    ensures x in SignalReasons(evidence) <==> x.evidence in evidence && x.forFit == SaysPositive(x.evidence.statement)
  {
    hide SaysPositive;
    if evidence != [] {
      SignalReasonIff(evidence[..|evidence| - 1], x);
      assert evidence == evidence[..|evidence| - 1] + [evidence[|evidence| - 1]];
    }
  }

  predicate Yields(s: MetaSignal, e: Evidence) {
    || (e == Evidence(PositiveSignal(s.text), 0.80) && s.positive)
    || (e == Evidence(NegativeSignal(s.text), 0.80) && s.negative)
  }

  lemma {:induction false} SignalEvidenceIff(signals: seq<MetaSignal>, e: Evidence)
    ensures e in SignalEvidence(signals) <==> exists s :: s in signals && Yields(s, e)
  {
    if signals != [] {
      var last := signals[|signals| - 1];
      SignalEvidenceIff(signals[..|signals| - 1], e);
      assert signals == signals[..|signals| - 1] + [last];
      assert e in EvidenceOfOne(last) <==> Yields(last, e);
      hide Yields;
    }
  }

  predicate FromSignal(e: Evidence) { e.statement.PositiveSignal? || e.statement.NegativeSignal? }

  lemma {:induction false} DimensionsAreNoSignals(xs: seq<Scorer>)
    requires forall x :: x in xs ==> x.dimension.evidence.Some? ==> !FromSignal(x.dimension.evidence.value)
    ensures forall r :: r in DimensionReasons(xs) ==> !FromSignal(r.evidence)
  {
    if xs != [] {
      DimensionsAreNoSignals(xs[..|xs| - 1]);
    }
  }

  /** For an account that is not disqualified, signal evidence is filed by the word in its statement alone. */
  lemma SignalEvidenceIsFiledByWord(f: Facts, c: Criteria, w: Weights, e: Evidence)
    requires FitOf(f, c, w).Some? && FitOf(f, c, w).value.broken.None? && FromSignal(e)
    ensures e in FitOf(f, c, w).value.fits <==>
              SaysPositive(e.statement) && exists s :: s in f.signals && Yields(s, e)
    ensures e in FitOf(f, c, w).value.others <==>
              !SaysPositive(e.statement) && exists s :: s in f.signals && Yields(s, e)
  {
    var xs := Scorers(f, c, w).value;
    DimensionsAreNoSignals(xs);
    hide Scorers, Total, Confidence, SaysPositive, Yields;
    var evidence := SignalEvidence(f.signals);
    FiledIff(Reasons(xs, f), true, e);
    FiledIff(Reasons(xs, f), false, e);
    SignalReasonIff(evidence, Reason(e, true));
    SignalReasonIff(evidence, Reason(e, false));
    SignalEvidenceIff(f.signals, e);
  }

  /**
   * Hence a negative signal is a reason for the fit exactly when its own text has the word "Positive",
   * and a reason against it exactly when it has not.
   */
  lemma NegativeSignalIsFiledByText(f: Facts, c: Criteria, w: Weights, text: string)
    requires FitOf(f, c, w).Some? && FitOf(f, c, w).value.broken.None?
    ensures Evidence(NegativeSignal(text), 0.80) in FitOf(f, c, w).value.fits <==>
              HasWord(text, "Positive") && exists s :: s in f.signals && s.negative && s.text == text
    ensures Evidence(NegativeSignal(text), 0.80) in FitOf(f, c, w).value.others <==>
              !HasWord(text, "Positive") && exists s :: s in f.signals && s.negative && s.text == text
  {
    var e := Evidence(NegativeSignal(text), 0.80);
    SignalEvidenceIsFiledByWord(f, c, w, e);
    hide FitOf, HasWord;
    assert forall s :: Yields(s, e) <==> s.negative && s.text == text;
  }

  const WITHDRAWN := MetaSignal("Positive outlook withdrawn", false, true)

  lemma OneSignal(s: MetaSignal)
    ensures SignalScore([s]) == SignalStep(50, s) && SignalScore([]) == 50
  {
    assert [s][..|[s]| - 1] == [];
    assert SignalWalk(50, []) == 50;
  }

  lemma UnknownScores(c: Criteria, signals: seq<MetaSignal>)
    requires c.rules == [] && 0 <= SignalScore(signals) <= 100
    ensures var f := Facts(Unknown, None, None, Unknown, false, signals);
      && FitOf(f, c, DEFAULT_WEIGHTS).Some? && FitOf(f, c, DEFAULT_WEIGHTS).value.broken.None?
      && FitOf(f, c, DEFAULT_WEIGHTS).value.score == Round(32.5 + 0.35 * SignalScore(signals) as real)
  {
    var f := Facts(Unknown, None, None, Unknown, false, signals);
    DefaultTotal(f, c, SignalScore(signals));
    hide SignalScore, Reasons, Filed, Confidence, Total;
  }

  lemma SaysPositiveInText()
    ensures HasWord(WITHDRAWN.text, "Positive")
  {
    assert StartsAt(WITHDRAWN.text, "Positive", 0);
  }

  /** A signal that lowers the score of an account of which nothing else is known is a reason for its fit. */
  lemma NegativeSignalCanSpeakForFit(c: Criteria)
    requires c.rules == []
    ensures var f := Facts(Unknown, None, None, Unknown, false, [WITHDRAWN]);
      && FitOf(f, c, DEFAULT_WEIGHTS).Some? && FitOf(f.(signals := []), c, DEFAULT_WEIGHTS).Some?
      && FitOf(f, c, DEFAULT_WEIGHTS).value.score < FitOf(f.(signals := []), c, DEFAULT_WEIGHTS).value.score
      && Evidence(NegativeSignal(WITHDRAWN.text), 0.80) in FitOf(f, c, DEFAULT_WEIGHTS).value.fits
  {
    hide FitOf, SignalScore, HasWord;
    OneSignal(WITHDRAWN);
    UnknownScores(c, [WITHDRAWN]);
    UnknownScores(c, []);
    SaysPositiveInText();
    var f := Facts(Unknown, None, None, Unknown, false, [WITHDRAWN]);
    assert WITHDRAWN in f.signals;
    NegativeSignalIsFiledByText(f, c, DEFAULT_WEIGHTS, WITHDRAWN.text);
  }

  // ----- The scores, without the functions that compute them -----

  lemma FloorOfQuotient(n: real, d: real)
    requires n >= 0.0 && d > 0.0
    ensures Truncate(n / d) as real * d <= n < (Truncate(n / d) + 1) as real * d
  {
    TruncateIs(n / d);
    Quotient(n, d, 0.0);
    Quotient(n, d, Truncate(n / d) as real);
    Quotient(n, d, (Truncate(n / d) + 1) as real);
    hide Truncate;
  }

  /** 100 less 40 parts of the distance from the middle in widths of the range, cut to an integer. */
  predicate IsWithinScore(min: real, max: real, x: real, score: int) {
    var twice := if 2.0 * x >= min + max then 2.0 * x - (min + max) else min + max - 2.0 * x;
    if max > min then
      score as real * (max - min) <= 100.0 * (max - min) - 20.0 * twice < (score + 1) as real * (max - min)
    else score == 100
  }

  /** 40 parts of `part` in `whole`, cut to an integer; nothing if either is not positive. */
  predicate IsPartialScore(part: real, whole: real, score: int) {
    if part > 0.0 && whole > 0.0 then score as real * whole <= 40.0 * part < (score + 1) as real * whole
    else score == 0
  }

  lemma QuotientIs(q: real, d: real, n: real)
    requires d > 0.0 && n == q * d
    ensures n / d == q
  {
    Quotient(n, d, q);
  }

  lemma SameQuotientScaled(off: real, width: real, twice: real)
    requires width > 0.0 && twice == 2.0 * off
    ensures 100.0 - off / width * 40.0 == (100.0 * width - 20.0 * twice) / width
  {
    var q := off / width;
    assert q * width == off;
    QuotientIs(100.0 - q * 40.0, width, 100.0 * width - 20.0 * twice);
  }

  lemma WithinScoreIs(range: Range, x: real)
    requires range.max.Some? && Within(range, x)
    ensures WithinScore(range, x).Some? && IsWithinScore(range.min, range.max.value, x, WithinScore(range, x).value)
  {
    var max, width := range.max.value, range.max.value - range.min;
    var twice := if 2.0 * x >= range.min + max then 2.0 * x - (range.min + max) else range.min + max - 2.0 * x;
    if width > 0.0 {
      SameQuotientScaled(Off(range, x), width, twice);
      FloorOfQuotient(100.0 * width - 20.0 * twice, width);
      hide Truncate;
    }
  }

  lemma ScaledQuotient(part: real, whole: real)
    requires whole > 0.0
    ensures part / whole * 40.0 == 40.0 * part / whole
  {
  }

  lemma PartialCreditIs(part: real, whole: real)
    ensures IsPartialScore(part, whole, PartialCredit(part, whole))
  {
    if whole > 0.0 {
      Quotient(part, whole, 0.0);
      if part > 0.0 {
        ScaledQuotient(part, whole);
        FloorOfQuotient(40.0 * part, whole);
        hide Truncate;
      }
    }
  }

  /** The points for a known size: within the range, below it or above it. */
  lemma SizeScoreIs(range: Range, count: int)
    requires SizeScore(range, count).Some?
    ensures var x, score := count as real, SizeScore(range, count).value;
      if x < range.min then IsPartialScore(x, range.min, score)
      else
        && range.max.Some?
        && if x > range.max.value then IsPartialScore(range.max.value, x, score)
           else IsWithinScore(range.min, range.max.value, x, score)
  {
    var x := count as real;
    if x < range.min {
      PartialCreditIs(x, range.min);
    } else if !Within(range, x) {
      PartialCreditIs(range.max.value, x);
    } else {
      WithinScoreIs(range, x);
    }
    hide PartialCredit, WithinScore, IsPartialScore, IsWithinScore;
  }

  function SizePoints(f: Facts, c: Criteria): int
    requires f.employees.Some? ==> SizeScore(c.size, f.employees.value).Some?
  {
    if f.employees.None? then 50 else SizeScore(c.size, f.employees.value).value
  }

  /** Revenue within the range scores as size does, outside 15. */
  predicate IsRevenueScore(revenue: Option<real>, range: Range, score: int) {
    match revenue
    case None => score == 50
    case Some(x) =>
      if range.min <= x && (range.max.None? || x <= range.max.value) then
        range.max.Some? && IsWithinScore(range.min, range.max.value, x, score)
      else score == 15
  }

  /** Nearest integer to `hundredths` / 100, of two the even one. */
  predicate IsRounded(score: int, hundredths: int) {
    var off := 100 * score - hundredths;
    -50 <= off <= 50 && (off == 50 || off == -50 ==> score % 2 == 0)
  }

  lemma RevenueDimensionIs(range: Range, revenue: Option<real>)
    requires RevenueDimension(range, revenue).Some?
    ensures IsRevenueScore(revenue, range, RevenueDimension(range, revenue).value.score)
  {
    if revenue.Some? && Within(range, revenue.value) {
      WithinScoreIs(range, revenue.value);
    }
    hide IsWithinScore, WithinScore;
  }

  /**
   * With default weights the fit of an account that breaks no rule is 15 % industry, 10 % size, 10 % revenue,
   * 5 % geography and 35 % metadata signals, plus 12.5 for what is not measured, to the nearest integer.
   */
  lemma {:induction false} FitIsMix(f: Facts, c: Criteria)
    requires FitOf(f, c, DEFAULT_WEIGHTS).Some? && FirstBroken(f, c.rules).None?
    ensures f.employees.Some? ==> SizeScore(c.size, f.employees.value).Some?
    ensures exists revenue ::
      && IsRevenueScore(f.revenue, c.revenue, revenue)
      && IsRounded(FitOf(f, c, DEFAULT_WEIGHTS).value.score,
                   15 * (match f.industry case Hit => 100 case Miss => 10 case Unknown => 50)
                   + 10 * SizePoints(f, c) + 10 * revenue
                   + 5 * (match f.geography case Hit => 100 case Miss => 20 case Unknown => 50)
                   + 35 * SignalScore(f.signals) + 1250)
  {
    var xs := Scorers(f, c, DEFAULT_WEIGHTS).value;
    var revenue := xs[2].dimension.score;
    RevenueDimensionIs(c.revenue, f.revenue);
    DefaultTotal(f, c, SignalScore(f.signals));
    DimensionBounds(f, c, DEFAULT_WEIGHTS);
    WalkInRange(50, f.signals);
    assert xs[0].dimension.score == (match f.industry case Hit => 100 case Miss => 10 case Unknown => 50);
    assert xs[1].dimension.score == SizePoints(f, c);
    assert xs[3].dimension.score == (match f.geography case Hit => 100 case Miss => 20 case Unknown => 50);
    var total := Total(xs, SignalScore(f.signals), DEFAULT_WEIGHTS.signals);
    hide Scorers, Total, SignalScore, SignalWalk, SizeScore, SizeDimension, RevenueDimension, IsRevenueScore, Reasons;
    RoundIsNearest(total);
    RoundBetween(0, total, 100);
    hide Round;
    assert IsRevenueScore(f.revenue, c.revenue, revenue);
  }

  /** A rule is broken exactly by a known size below 20, a known revenue of nothing, or being a customer. */
  lemma BrokenIff(f: Facts, rules: seq<Rule>)
    ensures FirstBroken(f, rules).Some? <==>
      || (BelowTwenty in rules && f.employees.Some? && f.employees.value < 20)
      || (PreRevenue in rules && f.revenue.Some? && f.revenue.value <= 0.0)
      || (ExistingCustomer in rules && f.isCustomer)
  {
    hide FirstBroken;
    assert forall rule :: rule in rules && Breaks(f, rule) ==>
      rule == BelowTwenty || rule == PreRevenue || rule == ExistingCustomer;
    assert Breaks(f, BelowTwenty) <==> f.employees.Some? && f.employees.value < 20;
    assert Breaks(f, PreRevenue) <==> f.revenue.Some? && f.revenue.value <= 0.0;
    assert Breaks(f, ExistingCustomer) <==> f.isCustomer;
    hide Breaks;
  }

  lemma {:induction false} DimensionReasonIff(xs: seq<Scorer>, x: Reason)
    ensures x in DimensionReasons(xs) <==>
              exists i :: 0 <= i < |xs| && xs[i].dimension.evidence == Some(x.evidence)
                && x.forFit == (xs[i].dimension.score >= 60)
  {
    if xs != [] {
      var n := |xs| - 1;
      DimensionReasonIff(xs[..n], x);
      assert forall i :: 0 <= i < n ==> xs[..n][i] == xs[i];
      if x in DimensionReasons(xs) && x !in DimensionReasons(xs[..n]) {
        assert xs[n].dimension.evidence == Some(x.evidence);
      }
    }
  }

  lemma {:induction false} NoDimensionInSignals(signals: seq<MetaSignal>, x: Reason)
    requires x in SignalReasons(SignalEvidence(signals))
    ensures FromSignal(x.evidence)
  {
    hide SignalReasons, SignalEvidence;
    SignalReasonIff(SignalEvidence(signals), x);
    SignalEvidenceIff(signals, x.evidence);
  }

  lemma DimensionEvidenceIff(f: Facts, c: Criteria, w: Weights, e: Evidence, forFit: bool)
    requires FitOf(f, c, w).Some? && FitOf(f, c, w).value.broken.None? && !FromSignal(e)
    ensures Scorers(f, c, w).Some?
    ensures var xs, fit := Scorers(f, c, w).value, FitOf(f, c, w).value;
      e in (if forFit then fit.fits else fit.others) <==>
        exists i :: 0 <= i < |xs| && xs[i].dimension.evidence == Some(e) && forFit == (xs[i].dimension.score >= 60)
  {
    var xs := Scorers(f, c, w).value;
    hide Scorers, Total, Confidence, Filed, DimensionReasons, SignalReasons, SignalEvidence, FromSignal;
    FiledIff(Reasons(xs, f), forFit, e);
    DimensionReasonIff(xs, Reason(e, forFit));
    if Reason(e, forFit) in SignalReasons(SignalEvidence(f.signals)) {
      NoDimensionInSignals(f.signals, Reason(e, forFit));
    }
  }

  predicate HasEvidence(xs: seq<Scorer>, e: Evidence, forFit: bool) {
    exists i :: 0 <= i < |xs| && xs[i].dimension.evidence == Some(e) && forFit == (xs[i].dimension.score >= 60)
  }

  lemma HasOneOfFour(xs: seq<Scorer>, e: Evidence)
    requires |xs| == 4
    ensures forall forFit :: HasEvidence(xs, e, forFit) <==>
      || (xs[0].dimension.evidence == Some(e) && forFit == (xs[0].dimension.score >= 60))
      || (xs[1].dimension.evidence == Some(e) && forFit == (xs[1].dimension.score >= 60))
      || (xs[2].dimension.evidence == Some(e) && forFit == (xs[2].dimension.score >= 60))
      || (xs[3].dimension.evidence == Some(e) && forFit == (xs[3].dimension.score >= 60))
  {
  }

  lemma SizeSides(f: Facts, c: Criteria, w: Weights)
    requires Scorers(f, c, w).Some? && f.employees.Some?
    ensures |Scorers(f, c, w).value| == 4
    ensures Scorers(f, c, w).value[1].dimension.score >= 60 <==> Within(c.size, f.employees.value as real)
  {
    var x := f.employees.value as real;
    if c.size.max.Some? {
      SizeScoreBands(c.size, f.employees.value);
    } else if x < c.size.min {
      CreditBelowForty(x, c.size.min);
    }
    hide Within, PartialCredit, Distance;
  }

  lemma RevenueSides(f: Facts, c: Criteria, w: Weights)
    requires Scorers(f, c, w).Some? && f.revenue.Some?
    ensures |Scorers(f, c, w).value| == 4
    ensures Scorers(f, c, w).value[2].dimension.score >= 60 <==> Within(c.revenue, f.revenue.value)
  {
    if Within(c.revenue, f.revenue.value) && c.revenue.max.Some? {
      DistanceIsHalfAtMost(c.revenue, f.revenue.value);
    }
    hide Within, Distance;
  }

  lemma EvidenceOfFour(f: Facts, c: Criteria, w: Weights, confidence: real)
    requires Scorers(f, c, w).Some?
    ensures var xs := Scorers(f, c, w).value;
      && (HasEvidence(xs, Evidence(Industry, confidence), true) <==> f.industry == Hit && confidence == 0.95)
      && (HasEvidence(xs, Evidence(Industry, confidence), false) <==> f.industry == Miss && confidence == 0.90)
      && (HasEvidence(xs, Evidence(Geography, confidence), true) <==> f.geography == Hit && confidence == 0.95)
      && (HasEvidence(xs, Evidence(Geography, confidence), false) <==> f.geography == Miss && confidence == 0.85)
      && (HasEvidence(xs, Evidence(Size, confidence), true) <==>
            f.employees.Some? && Within(c.size, f.employees.value as real) && confidence == 0.95)
      && (HasEvidence(xs, Evidence(Size, confidence), false) <==>
            f.employees.Some? && !Within(c.size, f.employees.value as real) && confidence == 0.90)
      && (HasEvidence(xs, Evidence(Revenue, confidence), true) <==>
            f.revenue.Some? && Within(c.revenue, f.revenue.value) && confidence == 0.85)
      && (HasEvidence(xs, Evidence(Revenue, confidence), false) <==>
            f.revenue.Some? && !Within(c.revenue, f.revenue.value) && confidence == 0.85)
  {
    var xs := Scorers(f, c, w).value;
    assert |xs| == 4;
    if f.employees.Some? {
      SizeSides(f, c, w);
    }
    if f.revenue.Some? {
      RevenueSides(f, c, w);
    }
    HasOneOfFour(xs, Evidence(Industry, confidence));
    HasOneOfFour(xs, Evidence(Size, confidence));
    HasOneOfFour(xs, Evidence(Revenue, confidence));
    HasOneOfFour(xs, Evidence(Geography, confidence));
    hide HasEvidence, SizeScore, Within, WithinScore;
  }

  /** Known dimensions give one piece of evidence each: with which confidence, and for or against the fit. */
  lemma {:induction false} DimensionEvidenceIs(f: Facts, c: Criteria, w: Weights, confidence: real)
    requires FitOf(f, c, w).Some? && FitOf(f, c, w).value.broken.None?
    ensures var fit := FitOf(f, c, w).value;
      && (Evidence(Industry, confidence) in fit.fits <==> f.industry == Hit && confidence == 0.95)
      && (Evidence(Industry, confidence) in fit.others <==> f.industry == Miss && confidence == 0.90)
      && (Evidence(Geography, confidence) in fit.fits <==> f.geography == Hit && confidence == 0.95)
      && (Evidence(Geography, confidence) in fit.others <==> f.geography == Miss && confidence == 0.85)
      && (Evidence(Size, confidence) in fit.fits <==>
            f.employees.Some? && Within(c.size, f.employees.value as real) && confidence == 0.95)
      && (Evidence(Size, confidence) in fit.others <==>
            f.employees.Some? && !Within(c.size, f.employees.value as real) && confidence == 0.90)
      && (Evidence(Revenue, confidence) in fit.fits <==>
            f.revenue.Some? && Within(c.revenue, f.revenue.value) && confidence == 0.85)
      && (Evidence(Revenue, confidence) in fit.others <==>
            f.revenue.Some? && !Within(c.revenue, f.revenue.value) && confidence == 0.85)
  {
    forall statement, forFit
      | statement == Industry || statement == Geography || statement == Size || statement == Revenue
      ensures var fit := FitOf(f, c, w).value;
        Evidence(statement, confidence) in (if forFit then fit.fits else fit.others) <==>
          HasEvidence(Scorers(f, c, w).value, Evidence(statement, confidence), forFit)
    {
      DimensionEvidenceIff(f, c, w, Evidence(statement, confidence), forFit);
    }
    EvidenceOfFour(f, c, w, confidence);
    hide FitOf, Scorers, HasEvidence, Within;
  }

  function ConfidenceOf(evidence: seq<Evidence>): real {
    if evidence == [] then 0.0
    else ConfidenceOf(evidence[..|evidence| - 1]) + evidence[|evidence| - 1].confidence
  }

  lemma {:induction false} ConfidenceIsFiled(xs: seq<Reason>)
    ensures ConfidenceSum(xs) == ConfidenceOf(Filed(xs, true)) + ConfidenceOf(Filed(xs, false))
  {
    if xs != [] {
      ConfidenceIsFiled(xs[..|xs| - 1]);
      var x := xs[|xs| - 1];
      var kept := Filed(xs[..|xs| - 1], x.forFit);
      assert (kept + [x.evidence])[..|kept|] == kept;
      assert Filed(xs[..|xs| - 1], !x.forFit) + [] == Filed(xs[..|xs| - 1], !x.forFit);
    }
  }

  lemma FitParts(f: Facts, c: Criteria, w: Weights)
    requires FitOf(f, c, w).Some? && FitOf(f, c, w).value.broken.None?
    ensures Scorers(f, c, w).Some?
    ensures var fit, reasons := FitOf(f, c, w).value, Reasons(Scorers(f, c, w).value, f);
      fit.fits == Filed(reasons, true) && fit.others == Filed(reasons, false) && fit.confidence == Confidence(reasons)
  {
    hide Scorers, Reasons, Total, Filed, Confidence, FirstBroken;
  }

  lemma FiledSizes(xs: seq<Reason>)
    ensures |Filed(xs, true)| + |Filed(xs, false)| == |xs|
  {
    FilingIsAPartition(xs);
  }

  lemma MeanOf(reasons: seq<Reason>)
    requires reasons != []
    ensures Confidence(reasons) * |reasons| as real == ConfidenceSum(reasons)
  {
    hide ConfidenceSum;
    DividedBack(ConfidenceSum(reasons), |reasons| as real);
  }

  lemma MeanOfReasons(reasons: seq<Reason>, fits: seq<Evidence>, others: seq<Evidence>, mean: real)
    requires fits == Filed(reasons, true) && others == Filed(reasons, false) && mean == Confidence(reasons)
    ensures |fits| + |others| > 0 ==> mean * (|fits| + |others|) as real == ConfidenceOf(fits) + ConfidenceOf(others)
  {
    hide Filed, ConfidenceOf, ConfidenceSum, Confidence;
    FiledSizes(reasons);
    ConfidenceIsFiled(reasons);
    if reasons != [] {
      MeanOf(reasons);
    }
  }

  /** The confidence of a fit is the mean over all its evidence. */
  lemma {:induction false} ConfidenceIsMean(f: Facts, c: Criteria, w: Weights)
    requires FitOf(f, c, w).Some? && FitOf(f, c, w).value.broken.None?
    ensures var fit := FitOf(f, c, w).value;
      |fit.fits| + |fit.others| > 0 ==>
        fit.confidence * (|fit.fits| + |fit.others|) as real == ConfidenceOf(fit.fits) + ConfidenceOf(fit.others)
  {
    hide *;
    FitParts(f, c, w);
    var fit := FitOf(f, c, w).value;
    MeanOfReasons(Reasons(Scorers(f, c, w).value, f), fit.fits, fit.others, fit.confidence);
  }

  // ----- Account score -----

  /** What the pain scorer's answer yielded before anything in it failed to parse. */
  datatype Pain = Pain(score: Option<int>, confidence: Option<real>, evidence: seq<Evidence>)

  datatype AccountScore = AccountScore(
    icp: int, pain: int, timing: int, overall: int,
    fits: seq<Evidence>, others: seq<Evidence>, confidence: real, broken: Option<Rule>)

  function Priority(icp: int, pain: int, timing: int): int {
    Percent(Round(icp as real * 0.35 + pain as real * 0.35 + timing as real * 0.30))
  }

  /** round(x, 3). */
  function Thousandths(x: real): real { Round(x * 1000.0) as real / 1000.0 }

  function AccountScoreOf(f: Facts, c: Criteria, signals: seq<TimingScore.Signal>, pain: Pain): Option<AccountScore> {
    match FitOf(f, c, DEFAULT_WEIGHTS)
    case None => None
    case Some(fit) =>
      if fit.broken.Some? then
        Some(AccountScore(0, 0, 0, 0, fit.fits, fit.others, fit.confidence, fit.broken))
      else
        var timing := TimingScore.ScoreOf(signals);
        var painScore := Percent(pain.score.GetOr(50));
        Some(AccountScore(
          fit.score, painScore, timing.score, Priority(fit.score, painScore, timing.score),
          fit.fits + (if painScore >= 50 then pain.evidence else []),
          fit.others + (if painScore >= 50 then [] else pain.evidence),
          Thousandths(fit.confidence * 0.35 + pain.confidence.GetOr(0.3) * 0.35 + timing.confidence * 0.30),
          None))
  }

  /** 35 % ICP fit, 35 % pain and 30 % timing, to the nearest integer, ties to even. */
  predicate OverallIsMix(s: AccountScore) {
    var off := 100 * s.overall - (35 * s.icp + 35 * s.pain + 30 * s.timing);
    -50 <= off <= 50 && (off == 50 || off == -50 ==> s.overall % 2 == 0)
  }

  /** The same mix of the three confidences, 0.3 for one that is missing, to the nearest thousandth. */
  predicate ConfidenceIsMix(s: AccountScore, icp: real, pain: Option<real>, timing: real) {
    var mix := 0.35 * icp + 0.35 * (match pain case None => 0.3 case Some(x) => x) + 0.30 * timing;
    -0.0005 <= s.confidence - mix <= 0.0005
  }

  /** The pain score answered, 50 without one, cut to 0 and 100. */
  predicate PainIsClamped(s: AccountScore, pain: Pain) {
    match pain.score
    case None => s.pain == 50
    case Some(n) => if n <= 0 then s.pain == 0 else if n >= 100 then s.pain == 100 else s.pain == n
  }

  lemma PriorityIsMix(icp: int, pain: int, timing: int)
    requires 0 <= icp <= 100 && 0 <= pain <= 100 && 0 <= timing <= 100
    ensures var off := 100 * Priority(icp, pain, timing) - (35 * icp + 35 * pain + 30 * timing);
      -50 <= off <= 50 && (off == 50 || off == -50 ==> Priority(icp, pain, timing) % 2 == 0)
  {
    var x := icp as real * 0.35 + pain as real * 0.35 + timing as real * 0.30;
    RoundIsNearest(x);
    RoundBetween(0, x, 100);
    hide Round;
  }

  lemma ThousandthsIsNearest(x: real)
    ensures -0.0005 <= Thousandths(x) - x <= 0.0005
  {
    RoundIsNearest(x * 1000.0);
    hide Round;
  }

  lemma TimingIsPercent(signals: seq<TimingScore.Signal>)
    ensures 0 <= TimingScore.ScoreOf(signals).score <= 100
  {
    if signals != [] {
      TimingScore.ScoreInRange(signals);
    }
  }

  lemma BrokenMeansZero(f: Facts, c: Criteria)
    requires FitOf(f, c, DEFAULT_WEIGHTS).Some?
    ensures var fit := FitOf(f, c, DEFAULT_WEIGHTS).value;
      && (fit.broken.None? <==> FirstBroken(f, c.rules).None?)
      && (fit.broken.Some? ==> fit.score == 0 && fit.confidence == 0.95)
  {
    hide Scorers, Total, Reasons, Filed, Confidence, FirstBroken;
  }

  /** Of every account that is not disqualified. */
  lemma ScoresAreMixed(f: Facts, c: Criteria, signals: seq<TimingScore.Signal>, pain: Pain)
    requires AccountScoreOf(f, c, signals, pain).Some?
    ensures var s := AccountScoreOf(f, c, signals, pain).value;
      && FitOf(f, c, DEFAULT_WEIGHTS).Some?
      && (s.broken.None? ==>
            var fit, timing := FitOf(f, c, DEFAULT_WEIGHTS).value, TimingScore.ScoreOf(signals);
            && s.icp == fit.score && s.timing == timing.score
            && OverallIsMix(s) && PainIsClamped(s, pain)
            && ConfidenceIsMix(s, fit.confidence, pain.confidence, timing.confidence))
  {
    FitIsBetween16And88(f, c);
    BrokenMeansZero(f, c);
    hide FitOf, TimingScore.ScoreOf, Priority, Thousandths;
    var fit, timing := FitOf(f, c, DEFAULT_WEIGHTS).value, TimingScore.ScoreOf(signals);
    TimingIsPercent(signals);
    if fit.broken.None? {
      PriorityIsMix(fit.score, Percent(pain.score.GetOr(50)), timing.score);
      ThousandthsIsNearest(
        fit.confidence * 0.35 + pain.confidence.GetOr(0.3) * 0.35 + timing.confidence * 0.30);
    }
  }

  method ScoreAccount(f: Facts, c: Criteria, signals: seq<TimingScore.Signal>, pain: Pain)
    returns (r: Option<AccountScore>)
    ensures r == AccountScoreOf(f, c, signals, pain)
    ensures r.Some? && r.value.broken.None? ==> OverallIsMix(r.value) && PainIsClamped(r.value, pain)
    ensures r.Some? && r.value.broken.None? ==>
              var fit, timing := FitOf(f, c, DEFAULT_WEIGHTS).value, TimingScore.ScoreOf(signals);
              && r.value.icp == fit.score && r.value.timing == timing.score
              && ConfidenceIsMix(r.value, fit.confidence, pain.confidence, timing.confidence)
    ensures r.Some? && r.value.broken.Some? ==>
              r.value.icp == r.value.pain == r.value.timing == r.value.overall == 0 && r.value.confidence == 0.95
  {
    hide FitOf, TimingScore.ScoreOf, Priority, Thousandths, OverallIsMix, ConfidenceIsMix, PainIsClamped;
    if AccountScoreOf(f, c, signals, pain).Some? {
      ScoresAreMixed(f, c, signals, pain);
      BrokenMeansZero(f, c);
    }
    var scored := ScoreIcpFit(f, c, DEFAULT_WEIGHTS);
    if scored.None? {
      return None;
    }
    var Fit(icp, fits, others, broken, icpConfidence) := scored.value;
    if broken.Some? {
      return Some(AccountScore(0, 0, 0, 0, fits, others, icpConfidence, broken));
    }
    var timing, timingConfidence := TimingScore.ScoreTiming(signals);
    var painScore := Percent(pain.score.GetOr(50));
    var painConfidence := pain.confidence.GetOr(0.3);
    var overall := Priority(icp, painScore, timing);
    var confidence := icpConfidence * 0.35 + painConfidence * 0.35 + timingConfidence * 0.30;
    for n := 0 to |pain.evidence|
      invariant painScore >= 50 ==> fits == scored.value.fits + pain.evidence[..n] && others == scored.value.others
      invariant painScore < 50 ==> others == scored.value.others + pain.evidence[..n] && fits == scored.value.fits
    {
      if painScore >= 50 {
        fits := fits + [pain.evidence[n]];
      } else {
        others := others + [pain.evidence[n]];
      }
    }
    assert pain.evidence[..|pain.evidence|] == pain.evidence;
    return Some(AccountScore(icp, painScore, timing, overall, fits, others, Thousandths(confidence), None));
  }

  lemma PriorityMonotone(a: int, b: int, p: int, q: int, s: int, t: int)
    requires a <= b && p <= q && s <= t
    ensures Priority(a, p, s) <= Priority(b, q, t)
  {
    RoundMonotone(a as real * 0.35 + p as real * 0.35 + s as real * 0.30,
                  b as real * 0.35 + q as real * 0.35 + t as real * 0.30);
  }

  /** Scored without signals, no account gets past 75, whatever the pain scorer answers. */
  lemma NoSignalsNoHighPriority(f: Facts, c: Criteria, pain: Pain)
    requires AccountScoreOf(f, c, [], pain).Some?
    ensures var score := AccountScoreOf(f, c, [], pain).value;
      0 <= score.overall <= 75 && (score.broken.None? ==> score.timing == 30)
  {
    FitIsBetween16And88(f, c);
    var fit := FitOf(f, c, DEFAULT_WEIGHTS).value;
    var painScore := Percent(pain.score.GetOr(50));
    hide FitOf;
    if fit.broken.None? {
      PriorityMonotone(fit.score, 88, painScore, 100, 30, 30);
      assert Round(88.0 * 0.35 + 100.0 * 0.35 + 30.0 * 0.30) == 75;
      assert Priority(88, 100, 30) == 75;
    }
  }

  /** 75 is reached. */
  lemma SeventyFiveIsReached(pain: Pain)
    requires pain.score == Some(100)
    ensures AccountScoreOf(BEST, AROUND, [], pain).Some?
    ensures AccountScoreOf(BEST, AROUND, [], pain).value.overall == 75
  {
    FitReaches88();
    assert FitOf(BEST, AROUND, DEFAULT_WEIGHTS).value.broken.None?;
    hide FitOf;
    assert Round(88.0 * 0.35 + 100.0 * 0.35 + 30.0 * 0.30) == 75;
  }
}
