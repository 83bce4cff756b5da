/** The next-best-action rules of src/scoring/action_rules.py. */
module ActionRules {
  import opened Options
  import opened Rounding
  import opened IcpScore
  import TimingScore

  datatype Action = PursueNow | Nurture | Disqualify | HumanReview

  datatype RankedContact = RankedContact(id: string, relevance: int)

  /** A pain hypothesis, as far as its confidence. */
  datatype Hypothesis = Hypothesis(score: int, confidence: real)

  datatype Recommendation = Recommendation(
    action: Action, firstContact: Option<RankedContact>, multiThreading: bool, managerApproval: bool,
    confidence: real)

  const PRIORITY := 60
  const RELEVANCE := 70
  const PAIN := 0.50
  const FIT := 50
  const TIMING := 50
  const MISFIT := 30
  const CONFIDENCE := 0.50

  /** max(confidences, default=0.0): the default counts only when there is no hypothesis. */
  function TopPain(hypotheses: seq<Hypothesis>): (r: real)
    ensures hypotheses == [] ==> r == 0.0
    ensures hypotheses != [] ==> exists h :: h in hypotheses && h.confidence == r
    ensures forall h :: h in hypotheses ==> h.confidence <= r
  {
    if hypotheses == [] then 0.0
    else if |hypotheses| == 1 then hypotheses[0].confidence
    else
      var rest := TopPain(hypotheses[1..]);
      if hypotheses[0].confidence >= rest then hypotheses[0].confidence else rest
  }

  function TopRelevance(contact: Option<RankedContact>): int {
    match contact
    case None => 0
    case Some(c) => c.relevance
  }

  function Recommend(score: AccountScore, contact: Option<RankedContact>, hypotheses: seq<Hypothesis>): Recommendation {
    var pain := TopPain(hypotheses);
    var relevance := TopRelevance(contact);
    if score.broken.Some? then
      Recommendation(Disqualify, None, false, false, 0.95)
    else if score.confidence < CONFIDENCE then
      Recommendation(HumanReview, contact, false, false, score.confidence)
    else if score.overall >= PRIORITY && relevance >= RELEVANCE && pain >= PAIN then
      Recommendation(PursueNow, contact, contact.Some? && |hypotheses| > 1 && relevance >= 70, false,
                     if score.confidence <= pain then score.confidence else pain)
    else if score.icp >= FIT && (score.timing < TIMING || pain < PAIN) then
      Recommendation(Nurture, contact, false, false, score.confidence * 0.8)
    else if score.icp < MISFIT then
      Recommendation(Disqualify, None, false, false, score.confidence)
    else
      Recommendation(HumanReview, contact, false, false, score.confidence * 0.7)
  }

  /** An account is pursued only on a scored, confident, high-priority account with a named contact and a pain. */
  lemma PursuedIff(score: AccountScore, contact: Option<RankedContact>, hypotheses: seq<Hypothesis>)
    ensures Recommend(score, contact, hypotheses).action == PursueNow <==>
      && score.broken.None? && score.confidence >= 0.50 && score.overall >= 60
      && contact.Some? && contact.value.relevance >= 70
      && exists h :: h in hypotheses && h.confidence >= 0.50
  {
    var pain := TopPain(hypotheses);
    if hypotheses != [] {
      var h :| h in hypotheses && h.confidence == pain;
    }
  }

  /** The three conditions for a pursuit: priority, a contact and a pain. */
  ghost predicate Pursuable(score: AccountScore, contact: Option<RankedContact>, hypotheses: seq<Hypothesis>) {
    && score.overall >= 60 && contact.Some? && contact.value.relevance >= 70
    && exists h :: h in hypotheses && h.confidence >= 0.50
  }

  lemma TopPainIsAttained(hypotheses: seq<Hypothesis>)
    ensures hypotheses != [] ==> exists h :: h in hypotheses && h.confidence == TopPain(hypotheses)
  {
    var top := TopPain(hypotheses);
  }

  lemma TopPainReaches(hypotheses: seq<Hypothesis>, bound: real)
    requires bound > 0.0
    ensures TopPain(hypotheses) >= bound <==> exists h :: h in hypotheses && h.confidence >= bound
  {
    TopPainIsAttained(hypotheses);
    var top := TopPain(hypotheses);
  }

  /** Which of the four actions it is, for all inputs: the order of the tests does not show. */
  lemma ActionIs(score: AccountScore, contact: Option<RankedContact>, hypotheses: seq<Hypothesis>)
    ensures var action := Recommend(score, contact, hypotheses).action;
      var decidable := score.broken.None? && score.confidence >= 0.50;
      var pursued := decidable && Pursuable(score, contact, hypotheses);
      var weak := score.timing < 50 || !exists h :: h in hypotheses && h.confidence >= 0.50;
      && (action == PursueNow <==> pursued)
      && (action == Nurture <==> decidable && !pursued && score.icp >= 50 && weak)
      && (action == Disqualify <==> score.broken.Some? || (decidable && !pursued && score.icp < 30))
      && (action == HumanReview <==>
            score.broken.None? && (decidable ==> !pursued && score.icp >= 30 && !(score.icp >= 50 && weak)))
  {
    TopPainReaches(hypotheses, 0.50);
    hide TopPain;
  }

  /**
   * How sure a recommendation is: a pursuit as sure as the weaker of the score and its best hypothesis, a broken
   * rule 0.95, a nurture at 4/5 of the score and an undecided case at 7/10; else as sure as the score.
   */
  lemma ConfidenceIs(score: AccountScore, contact: Option<RankedContact>, hypotheses: seq<Hypothesis>)
    ensures var r := Recommend(score, contact, hypotheses);
      match r.action
      case PursueNow =>
        && r.confidence <= score.confidence
        && (exists h :: h in hypotheses && h.confidence >= r.confidence)
        && (r.confidence < score.confidence ==> forall h :: h in hypotheses ==> h.confidence <= r.confidence)
      case Nurture => 5.0 * r.confidence == 4.0 * score.confidence
      case Disqualify => r.confidence == if score.broken.Some? then 0.95 else score.confidence
      case HumanReview =>
        if score.confidence < 0.50 then r.confidence == score.confidence
        else 10.0 * r.confidence == 7.0 * score.confidence
  {
    TopPainReaches(hypotheses, 0.50);
    TopPainIsAttained(hypotheses);
    hide TopPain;
  }

  /** Only a disqualified account loses its contact, and several threads are advised on several hypotheses only. */
  lemma ContactIsKeptIff(score: AccountScore, contact: Option<RankedContact>, hypotheses: seq<Hypothesis>)
    ensures var r := Recommend(score, contact, hypotheses);
      && r.firstContact == (if r.action == Disqualify then None else contact)
      && (r.multiThreading <==> r.action == PursueNow && |hypotheses| >= 2)
  {
    hide TopPain;
  }

  /** Better evidence never turns a pursuit into anything else. */
  lemma PursuitIsUpwardClosed(
    a: AccountScore, b: AccountScore, c: RankedContact, d: RankedContact,
    hypotheses: seq<Hypothesis>, more: seq<Hypothesis>)
    requires Recommend(a, Some(c), hypotheses).action == PursueNow
    requires b.broken.None? && b.confidence >= a.confidence && b.overall >= a.overall
    requires d.relevance >= c.relevance
    ensures Recommend(b, Some(d), hypotheses + more).action == PursueNow
  {
    hide Recommend;
    PursuedIff(a, Some(c), hypotheses);
    var h :| h in hypotheses && h.confidence >= 0.50;
    assert h in hypotheses + more;
    PursuedIff(b, Some(d), hypotheses + more);
  }

  /** No recommendation asks for manager approval, so the second test in brief_reviewer never fails. */
  lemma ManagerIsNeverAsked(score: AccountScore, contact: Option<RankedContact>, hypotheses: seq<Hypothesis>)
    ensures !Recommend(score, contact, hypotheses).managerApproval
  {
    hide TopPain, TopRelevance;
  }

  /**
   * For scores made without signals, as in the wired qualification graph, timing is always weak:
   * an account that is not pursued falls into one of three bands of ICP fit.
   */
  lemma WithoutSignalsFitDecides(
    f: Facts, c: Criteria, pain: Pain, contact: Option<RankedContact>, hypotheses: seq<Hypothesis>)
    requires AccountScoreOf(f, c, [], pain).Some?
    ensures var score := AccountScoreOf(f, c, [], pain).value;
      var action := Recommend(score, contact, hypotheses).action;
      && (score.broken.Some? ==> action == Disqualify)
      && (score.broken.None? && score.confidence < 0.50 ==> action == HumanReview)
      && (score.broken.None? && score.confidence >= 0.50 && action != PursueNow ==>
            action == if score.icp >= 50 then Nurture else if score.icp >= 30 then HumanReview else Disqualify)
  {
    hide FitOf, TopPain, TopRelevance, Priority, Thousandths;
  }

  lemma ThousandthsBound(x: real, k: int)
    requires x * 1000.0 <= k as real
    ensures Thousandths(x) <= k as real / 1000.0
  {
    RoundMonotone(x * 1000.0, k as real);
    RoundOfInt(k);
  }

  /**
   * When the pain answer gives no usable confidence its default of 0.3 is so low that, without
   * signals, the account always goes to a human: total confidence stays below one half.
   */
  lemma FailedPainScoringGoesToHuman(
    f: Facts, c: Criteria, pain: Pain, contact: Option<RankedContact>, hypotheses: seq<Hypothesis>)
    requires AccountScoreOf(f, c, [], pain).Some? && pain.confidence.None?
    ensures var score := AccountScoreOf(f, c, [], pain).value;
      score.broken.None? ==> score.confidence < 0.50 && Recommend(score, contact, hypotheses).action == HumanReview
  {
    FitConfidence(f, c, DEFAULT_WEIGHTS);
    var confidence := FitOf(f, c, DEFAULT_WEIGHTS).value.confidence;
    ThousandthsBound(confidence * 0.35 + 0.3 * 0.35 + 0.2 * 0.30, 498);
    hide FitOf, Priority, Thousandths, TopPain, TopRelevance;
  }

  const SURE := Pain(Some(100), Some(1.0), [])

  lemma BestIsNotDisqualified()
    ensures FirstBroken(BEST, AROUND.rules).None?
  {
  }

  lemma BestIsKnown()
    ensures FitOf(BEST, AROUND, DEFAULT_WEIGHTS).Some? && FitOf(BEST, AROUND, DEFAULT_WEIGHTS).value.broken.None?
  {
  }

  /** Yet pursuit is within reach without signals. */
  lemma PursuitIsReachable()
    ensures AccountScoreOf(BEST, AROUND, [], SURE).Some?
    ensures var score := AccountScoreOf(BEST, AROUND, [], SURE).value;
      Recommend(score, Some(RankedContact("c", 70)), [Hypothesis(80, 0.5)]).action == PursueNow
  {
    SeventyFiveIsReached(SURE);
    FitConfidence(BEST, AROUND, DEFAULT_WEIGHTS);
    BestIsNotDisqualified();
    BestIsKnown();
    var score := AccountScoreOf(BEST, AROUND, [], SURE).value;
    var fit := FitOf(BEST, AROUND, DEFAULT_WEIGHTS).value;
    hide FitOf;
    var raw := fit.confidence * 0.35 + 1.0 * 0.35 + 0.2 * 0.30;
    assert score.confidence == Thousandths(raw);
    RoundMonotone(500.0, raw * 1000.0);
    RoundOfInt(500);
    hide Recommend;
    assert Hypothesis(80, 0.5) in [Hypothesis(80, 0.5)];
    PursuedIff(score, Some(RankedContact("c", 70)), [Hypothesis(80, 0.5)]);
  }
}
