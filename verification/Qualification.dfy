/** The qualification graph as a step machine: src/agent/qualification_graph.py and its nodes. */
module Qualification {
  import opened Options
  import opened Accounts
  import opened IcpScore
  import opened ActionRules
  import opened AutoOutboundGate
  import TimingScore

  type Signal = TimingScore.Signal

  datatype ValueProp = ValueProp(hook: string)
  datatype Draft = Draft(contactId: string, subject: string, body: string)

  datatype Brief = Brief(
    risks: seq<string>, pains: seq<Hypothesis>, contacts: seq<RankedContact>, angles: seq<ValueProp>,
    action: Action, signals: seq<Signal>, scoring: Option<AccountScore>)

  /** The state keys of one account, as `select_next_account` clears them. */
  datatype Work = Work(
    signals: seq<Signal>, pains: seq<Hypothesis>, valueProps: seq<ValueProp>, ranked: seq<RankedContact>,
    score: Option<AccountScore>, brief: Option<Brief>, recommendation: Option<Recommendation>)

  const BLANK := Work([], [], [], [], None, None, None)

  /** `approval`, `triggered` and `drafts` are never cleared between accounts. */
  datatype State = State(
    current: Option<Account>, work: Work, approval: Option<string>, triggered: bool, drafts: seq<Draft>,
    shouldContinue: bool)

  /** The state keys that no node of the loop writes, and the campaign's criteria. */
  datatype Batch = Batch(accounts: seq<Account>, contacts: seq<Contact>, criteria: Criteria)

  datatype Node = SelectNextAccount | IcpScorer | SignalDetector | ContactRanker | PainInferrer | ValuePropMatcher
                | ActionRecommender | BriefBuilder | BriefReviewer | CrmWriter | ZohoWriter | TaskCreator
                | OutboundGate | DraftEmailGenerator | End

  /** What brief_builder puts into its prompt. */
  datatype BriefInput = BriefInput(account: Account, work: Work)

  /**
   * What the outside world answers during one node, as a function of everything that the node reads,
   * so that equal prompts get equal answers within one step but not across steps.
   */
  datatype Answer = Answer(
    raises: bool,
    scorePain: (Account, seq<Signal>) -> Pain,
    detect: Account -> seq<Signal>,
    rank: (Account, seq<Contact>, seq<Hypothesis>) -> seq<RankedContact>,
    infer: (Account, seq<Signal>) -> seq<Hypothesis>,
    matchProps: (Account, seq<Hypothesis>, seq<RankedContact>) -> seq<ValueProp>,
    risks: BriefInput -> Option<seq<string>>,
    guards: Guards,
    write: (Account, seq<Contact>, Work) -> seq<Draft>)

  datatype Config = Config(node: Node, state: State)

  // ----- Nodes -----

  function SelectNext(b: Batch, s: State): State {
    if b.accounts == [] then s.(shouldContinue := false)
    else if s.current.None? then s.(current := Some(b.accounts[0]), work := BLANK)
    else if CurrentIndex(b.accounts, s.current) < |b.accounts| - 1 then
      s.(current := Some(b.accounts[CurrentIndex(b.accounts, s.current) + 1]), work := BLANK)
    else s.(shouldContinue := false)
  }

  /** None where scoring raises. */
  function Score(b: Batch, account: Account, work: Work, a: Answer): Option<Work> {
    match AccountScoreOf(account.facts, b.criteria, work.signals, a.scorePain(account, work.signals))
    case None => None
    case Some(score) => Some(work.(score := Some(score)))
  }

  function RecommendFor(work: Work): Recommendation {
    if work.score.None? then Recommendation(HumanReview, None, false, false, 0.0)
    else Recommend(work.score.value, if work.ranked == [] then None else Some(work.ranked[0]), work.pains)
  }

  /** No brief when the model call fails. */
  function BuildBrief(account: Account, work: Work, a: Answer): Option<Brief> {
    match a.risks(BriefInput(account, work))
    case None => None
    case Some(risks) =>
      Some(Brief(risks, work.pains, if |work.ranked| <= 3 then work.ranked else work.ranked[..3], work.valueProps,
                 if work.recommendation.Some? then work.recommendation.value.action else HumanReview,
                 work.signals, work.score))
  }

  function Review(recommendation: Option<Recommendation>): string {
    if recommendation.Some? && recommendation.value.action == PursueNow && !recommendation.value.managerApproval
    then "auto_approved"
    else "pending_review"
  }

  function ViewOf(work: Work): View {
    View(work.score, work.recommendation, work.ranked, work.pains, |work.signals|,
         if work.brief.Some? then |work.brief.value.risks| else 0)
  }

  function WriteDrafts(b: Batch, s: State, a: Answer): seq<Draft> {
    if s.current.None? || s.work.recommendation.None? || s.work.recommendation.value.action != PursueNow
       || s.work.ranked == []
    then []
    else a.write(s.current.value, b.contacts, s.work)
  }

  /** The nodes that work on the current account; without one they only set an error. None where a node raises. */
  function WorkOn(b: Batch, node: Node, account: Account, work: Work, a: Answer): Option<Work> {
    match node
    case IcpScorer => Score(b, account, work, a)
    case SignalDetector => Some(work.(signals := a.detect(account)))
    case ContactRanker =>
      Some(work.(ranked := if b.contacts == [] then [] else a.rank(account, b.contacts, work.pains)))
    case PainInferrer => Some(work.(pains := a.infer(account, work.signals)))
    case ValuePropMatcher => Some(work.(valueProps := a.matchProps(account, work.pains, work.ranked)))
    case ActionRecommender => Some(work.(recommendation := Some(RecommendFor(work))))
    case BriefBuilder => Some(work.(brief := BuildBrief(account, work, a)))
    case _ => Some(work)
  }

  /** The state after a node; None where it raises. */
  function Execute(b: Batch, node: Node, s: State, a: Answer): Option<State> {
    match node
    case SelectNextAccount => Some(SelectNext(b, s))
    case BriefReviewer => Some(s.(approval := Some(Review(s.work.recommendation))))
    case OutboundGate => Some(s.(triggered := Decide(ViewOf(s.work), a.guards).triggered))
    case DraftEmailGenerator => Some(s.(drafts := WriteDrafts(b, s, a)))
    case _ =>
      if s.current.None? then Some(s)
      else
        match WorkOn(b, node, s.current.value, s.work, a)
        case None => None
        case Some(work) => Some(s.(work := work))
  }

  // ----- Edges -----

  predicate Pursued(work: Work) {
    work.recommendation.Some? && work.recommendation.value.action == PursueNow
  }

  function AfterDraftEmail(b: Batch, s: State): Node {
    if s.current.Some? && b.accounts != [] && CurrentIndex(b.accounts, s.current) < |b.accounts| - 1
    then SelectNextAccount else End
  }

  function AfterAutoOutbound(b: Batch, s: State): Node {
    if s.triggered || Pursued(s.work) then DraftEmailGenerator else AfterDraftEmail(b, s)
  }

  function Follow(b: Batch, node: Node, s: State): Node {
    match node
    case SelectNextAccount => IcpScorer
    case IcpScorer =>
      if s.work.score.Some? && s.work.score.value.broken.Some? then ActionRecommender else SignalDetector
    case SignalDetector => ContactRanker
    case ContactRanker => PainInferrer
    case PainInferrer => ValuePropMatcher
    case ValuePropMatcher => ActionRecommender
    case ActionRecommender => BriefBuilder
    case BriefBuilder => BriefReviewer
    case BriefReviewer => if s.approval == Some("pending_review") then End else CrmWriter
    case CrmWriter => ZohoWriter
    case ZohoWriter => TaskCreator
    case TaskCreator => OutboundGate
    case OutboundGate => AfterAutoOutbound(b, s)
    case DraftEmailGenerator => AfterDraftEmail(b, s)
    case End => End
  }

  function Step(b: Batch, c: Config, a: Answer): Config {
    if c.node == End || a.raises then c.(node := End)
    else
      match Execute(b, c.node, c.state, a)
      case None => c.(node := End)
      case Some(s) => Config(Follow(b, c.node, s), s)
  }

  function Run(b: Batch, c: Config, answers: seq<Answer>): Config {
    if answers == [] then c
    else Step(b, Run(b, c, answers[..|answers| - 1]), answers[|answers| - 1])
  }

  /** Ingestion leaves no account current and nothing worked out. */
  predicate Initial(c: Config) {
    c.node == SelectNextAccount && c.state.current.None? && c.state.work == BLANK && !c.state.triggered
  }

  // ----- What every run keeps -----

  /** The score of an account that was scored, as always here, before its signals were detected. */
  ghost predicate ScoredBlind(b: Batch, account: Account, score: AccountScore) {
    exists pain :: AccountScoreOf(account.facts, b.criteria, [], pain) == Some(score)
  }

  predicate Reviewed(node: Node) {
    || node == CrmWriter || node == ZohoWriter || node == TaskCreator || node == OutboundGate
    || node == DraftEmailGenerator
  }

  predicate Recommended(node: Node) {
    node == BriefBuilder || node == BriefReviewer || Reviewed(node)
  }

  ghost predicate Inv(b: Batch, c: Config) {
    var s := c.state;
    && !s.triggered
    && (s.current.None? ==> s.work == BLANK)
    && (c.node == SelectNextAccount ==> s.current.None? || CurrentIndex(b.accounts, s.current) < |b.accounts| - 1)
    && (c.node == IcpScorer ==> s.work == BLANK)
    && (s.work.score.Some? ==> s.current.Some? && ScoredBlind(b, s.current.value, s.work.score.value))
    && (Recommended(c.node) && s.current.Some? ==> s.work.recommendation == Some(RecommendFor(s.work)))
    && (Reviewed(c.node) ==> Pursued(s.work))
  }

  lemma BlindScoreIsLow(b: Batch, account: Account, work: Work)
    requires work.score.Some? ==> ScoredBlind(b, account, work.score.value)
    ensures !StrictlyGood(ViewOf(work))
    ensures work.score.Some? && work.score.value.broken.None? ==> work.score.value.overall <= 75
  {
    if work.score.Some? {
      var pain :| AccountScoreOf(account.facts, b.criteria, [], pain) == Some(work.score.value);
      NoSignalsNoHighPriority(account.facts, b.criteria, pain);
      hide AccountScoreOf;
    }
  }

  lemma GateNeverFires(b: Batch, s: State, guards: Guards)
    requires s.current.None? ==> s.work == BLANK
    requires s.work.score.Some? ==> s.current.Some? && ScoredBlind(b, s.current.value, s.work.score.value)
    ensures !Decide(ViewOf(s.work), guards).triggered && !Decide(ViewOf(s.work), guards).slotTaken
    ensures !Decide(ViewOf(s.work), guards).queued
  {
    hide ScoredBlind, Decide;
    TriggersIffAllClear(ViewOf(s.work), guards);
    if s.current.Some? {
      BlindScoreIsLow(b, s.current.value, s.work);
    }
  }

  lemma ScorerScoresBlind(b: Batch, account: Account, work: Work, a: Answer)
    requires work.signals == [] && Score(b, account, work, a).Some?
    ensures Score(b, account, work, a).value.score.Some?
    ensures ScoredBlind(b, account, Score(b, account, work, a).value.score.value)
    ensures Score(b, account, work, a).value == work.(score := Score(b, account, work, a).value.score)
  {
    hide AccountScoreOf;
    assert AccountScoreOf(account.facts, b.criteria, [], a.scorePain(account, work.signals)).Some?;
  }

  /** A review lets pass exactly the pursued accounts: no recommendation asks for a manager. */
  lemma ReviewPassesPursued(work: Work)
    requires work.recommendation.Some? ==> work.recommendation == Some(RecommendFor(work))
    ensures Review(work.recommendation) == if Pursued(work) then "auto_approved" else "pending_review"
  {
    hide Recommend;
    if work.score.Some? {
      ManagerIsNeverAsked(work.score.value, if work.ranked == [] then None else Some(work.ranked[0]), work.pains);
    }
  }

  lemma ScorerKeepsInv(b: Batch, c: Config, a: Answer)
    requires Inv(b, c) && c.node == IcpScorer
    ensures Inv(b, Step(b, c, a))
  {
    hide IndexOf, ScoredBlind, Score, RecommendFor;
    var s := c.state;
    if s.current.Some? && Score(b, s.current.value, s.work, a).Some? {
      ScorerScoresBlind(b, s.current.value, s.work, a);
    }
  }

  lemma ControlKeepsInv(b: Batch, c: Config, a: Answer)
    requires Inv(b, c) && (c.node == OutboundGate || c.node == BriefReviewer)
    ensures Inv(b, Step(b, c, a))
  {
    hide IndexOf, Decide, ScoredBlind, RecommendFor, Review, ViewOf;
    GateNeverFires(b, c.state, a.guards);
    ReviewPassesPursued(c.state.work);
  }

  lemma BriefDoesNotCount(work: Work)
    ensures forall brief :: RecommendFor(work.(brief := brief)) == RecommendFor(work)
    ensures forall r :: RecommendFor(work.(recommendation := r)) == RecommendFor(work)
  {
  }

  lemma OthersKeepInv(b: Batch, c: Config, a: Answer)
    requires Inv(b, c) && c.node != IcpScorer && c.node != OutboundGate && c.node != BriefReviewer
    ensures Inv(b, Step(b, c, a))
  {
    hide IndexOf, Decide, ScoredBlind, Score, BuildBrief, RecommendFor, Review;
    BriefDoesNotCount(c.state.work);
  }

  lemma {:induction false} StepKeepsInv(b: Batch, c: Config, a: Answer)
    requires Inv(b, c)
    ensures Inv(b, Step(b, c, a))
  {
    hide *;
    if c.node == IcpScorer {
      ScorerKeepsInv(b, c, a);
    } else if c.node == OutboundGate || c.node == BriefReviewer {
      ControlKeepsInv(b, c, a);
    } else {
      OthersKeepInv(b, c, a);
    }
  }

  lemma InitialInv(b: Batch, c: Config)
    requires Initial(c)
    ensures Inv(b, c)
  {
  }

  lemma {:induction false} RunKeepsInv(b: Batch, c: Config, answers: seq<Answer>)
    requires Initial(c)
    ensures Inv(b, Run(b, c, answers))
  {
    hide Inv, Step;
    if answers == [] {
      InitialInv(b, c);
    } else {
      RunKeepsInv(b, c, answers[..|answers| - 1]);
      StepKeepsInv(b, Run(b, c, answers[..|answers| - 1]), answers[|answers| - 1]);
    }
  }

  // ----- Automatic outbound never happens -----

  predicate TakesSlot(c: Config, a: Answer) {
    c.node == OutboundGate && !a.raises && Decide(ViewOf(c.state.work), a.guards).slotTaken
  }

  /** The send cap slots that the gate has taken. */
  function Slots(b: Batch, c: Config, answers: seq<Answer>): nat {
    if answers == [] then 0
    else
      var n := |answers| - 1;
      Slots(b, c, answers[..n]) + if TakesSlot(Run(b, c, answers[..n]), answers[n]) then 1 else 0
  }

  /**
   * No run of the graph as it is wired triggers automatic outbound or takes a send slot, whatever
   * the accounts, the criteria and all answers: scores are made without signals, so they stay at
   * 75 or below, and the gate asks for 80.
   */
  lemma {:induction false} NothingIsSentAutomatically(b: Batch, c: Config, answers: seq<Answer>)
    requires Initial(c)
    ensures !Run(b, c, answers).state.triggered && Slots(b, c, answers) == 0
    ensures var work := Run(b, c, answers).state.work;
      work.score.Some? && work.score.value.broken.None? ==> work.score.value.overall <= 75
  {
    hide Step, Decide, ViewOf, IndexOf;
    RunKeepsInv(b, c, answers);
    var end := Run(b, c, answers);
    if end.state.current.Some? {
      BlindScoreIsLow(b, end.state.current.value, end.state.work);
    }
    if answers != [] {
      var n := |answers| - 1;
      NothingIsSentAutomatically(b, c, answers[..n]);
      RunKeepsInv(b, c, answers[..n]);
      GateNeverFires(b, Run(b, c, answers[..n]).state, answers[n].guards);
    }
  }

  // ----- What reaches the CRM -----

  ghost predicate PainWasAnswered(b: Batch, account: Account, score: AccountScore) {
    exists pain :: AccountScoreOf(account.facts, b.criteria, [], pain) == Some(score) && pain.confidence.Some?
  }

  lemma NotBroken(f: Facts, c: Criteria, pain: Pain)
    requires AccountScoreOf(f, c, [], pain).Some?
    ensures AccountScoreOf(f, c, [], pain).value.broken == FirstBroken(f, c.rules)
  {
    hide FirstBroken, Scorers, Reasons, Total, Filed, Confidence, Priority, Thousandths, TimingScore.ScoreOf;
  }

  lemma PursuedWork(b: Batch, account: Account, work: Work)
    requires work.recommendation == Some(RecommendFor(work)) && Pursued(work)
    requires work.score.Some? ==> ScoredBlind(b, account, work.score.value)
    ensures work.score.Some? && 60 <= work.score.value.overall <= 75 && work.score.value.confidence >= 0.50
    ensures FirstBroken(account.facts, b.criteria.rules).None?
    ensures work.ranked != [] && work.ranked[0].relevance >= 70
    ensures exists h :: h in work.pains && h.confidence >= 0.50
    ensures PainWasAnswered(b, account, work.score.value)
  {
    hide Recommend;
    var contact := if work.ranked == [] then None else Some(work.ranked[0]);
    assert work.score.Some?;
    PursuedIff(work.score.value, contact, work.pains);
    BlindScoreIsLow(b, account, work);
    var pain :| AccountScoreOf(account.facts, b.criteria, [], pain) == Some(work.score.value);
    NotBroken(account.facts, b.criteria, pain);
    if pain.confidence.None? {
      FailedPainScoringGoesToHuman(account.facts, b.criteria, pain, contact, work.pains);
    }
  }

  /**
   * An account on its way to the CRM breaks no disqualify rule, has a priority from 60 to 75 and a
   * confidence of at least one half, a contact of relevance 70 or more, and a pain hypothesis of at
   * least one half; and its pain scoring did answer with a confidence.
   */
  lemma {:induction false} OnlyPursuedReachCrm(b: Batch, c: Config, answers: seq<Answer>)
    requires Initial(c) && Reviewed(Run(b, c, answers).node)
    ensures var s := Run(b, c, answers).state;
      && s.current.Some? && s.work.score.Some?
      && FirstBroken(s.current.value.facts, b.criteria.rules).None?
      && 60 <= s.work.score.value.overall <= 75 && s.work.score.value.confidence >= 0.50
      && s.work.ranked != [] && s.work.ranked[0].relevance >= 70
      && (exists h :: h in s.work.pains && h.confidence >= 0.50)
      && PainWasAnswered(b, s.current.value, s.work.score.value)
  {
    RunKeepsInv(b, c, answers);
    var s := Run(b, c, answers).state;
    hide Run, Step, Recommend;
    PursuedWork(b, s.current.value, s.work);
  }

  ghost predicate BriefMatches(work: Work) {
    work.brief.Some? ==>
      && work.recommendation.Some? && work.brief.value.action == work.recommendation.value.action
      && work.brief.value.scoring == work.score && work.brief.value.signals == work.signals
      && work.brief.value.pains == work.pains && work.brief.value.angles == work.valueProps
      && work.brief.value.contacts <= work.ranked
      && |work.brief.value.contacts| == if |work.ranked| < 3 then |work.ranked| else 3
  }

  ghost predicate BriefInv(c: Config) {
    && (c.node != SelectNextAccount ==> BriefMatches(c.state.work))
    && (!Recommended(c.node) && c.node != SelectNextAccount && c.node != End ==> c.state.work.brief.None?)
    && (c.node == BriefBuilder ==> c.state.work.brief.None?)
  }

  lemma StepKeepsBrief(b: Batch, c: Config, a: Answer)
    requires Inv(b, c) && BriefInv(c) && (c.node == SelectNextAccount ==> BriefMatches(c.state.work))
    ensures BriefInv(Step(b, c, a)) && BriefMatches(Step(b, c, a).state.work)
  {
    hide IndexOf, RecommendFor, Decide, ScoredBlind, AccountScoreOf, ViewOf, WriteDrafts;
  }

  /** A brief that reaches Slack or the CRM was made from the very work at hand. */
  lemma {:induction false} BriefIsFromThisAccount(b: Batch, c: Config, answers: seq<Answer>)
    requires Initial(c)
    ensures BriefMatches(Run(b, c, answers).state.work) && BriefInv(Run(b, c, answers))
  {
    hide Step, Inv;
    if answers != [] {
      var n := |answers| - 1;
      BriefIsFromThisAccount(b, c, answers[..n]);
      RunKeepsInv(b, c, answers[..n]);
      StepKeepsBrief(b, Run(b, c, answers[..n]), answers[n]);
    }
  }

  // ----- Order of the accounts -----

  ghost predicate Placed(b: Batch, c: Config) {
    var i := CurrentIndex(b.accounts, c.state.current);
    && b.accounts != [] && Distinct(b.accounts)
    && (c.node == SelectNextAccount ==> i < |b.accounts| - 1 && (c.state.current.Some? ==> i >= 0))
    && (c.node != SelectNextAccount && c.node != End ==> c.state.current.Some? && i >= 0)
  }

  /** Only the selector changes which account is current. */
  lemma OthersKeepCurrent(b: Batch, c: Config, a: Answer)
    requires c.node != SelectNextAccount
    ensures Step(b, c, a).state.current == c.state.current
    ensures CurrentIndex(b.accounts, Step(b, c, a).state.current) == CurrentIndex(b.accounts, c.state.current)
  {
    hide IndexOf, Decide, ViewOf, WorkOn, Review;
  }

  lemma SelectorTakesNext(b: Batch, c: Config, a: Answer)
    requires Placed(b, c) && c.node == SelectNextAccount && !a.raises
    ensures var next := CurrentIndex(b.accounts, c.state.current) + 1;
      var after := Step(b, c, a);
      && 0 <= next < |b.accounts| && after.node == IcpScorer && CurrentIndex(b.accounts, after.state.current) == next
      && after.state.current == Some(b.accounts[next]) && after.state.work == BLANK
  {
  }

  lemma StepKeepsPlaced(b: Batch, c: Config, a: Answer)
    requires Placed(b, c)
    ensures Placed(b, Step(b, c, a))
  {
    if c.node == SelectNextAccount {
      if !a.raises {
        SelectorTakesNext(b, c, a);
      }
    } else {
      OthersKeepCurrent(b, c, a);
    }
    hide IndexOf, CurrentIndex, Distinct, Execute;
  }

  lemma InitiallyPlaced(b: Batch, c: Config)
    requires Initial(c) && b.accounts != [] && Distinct(b.accounts)
    ensures Placed(b, c)
  {
  }

  lemma {:induction false} RunKeepsPlaced(b: Batch, c: Config, answers: seq<Answer>)
    requires Initial(c) && b.accounts != [] && Distinct(b.accounts)
    ensures Placed(b, Run(b, c, answers))
  {
    hide Placed, Step;
    if answers == [] {
      InitiallyPlaced(b, c);
    } else {
      RunKeepsPlaced(b, c, answers[..|answers| - 1]);
      StepKeepsPlaced(b, Run(b, c, answers[..|answers| - 1]), answers[|answers| - 1]);
    }
  }

  // ----- The batch stops at the first account that is not pursued -----

  datatype Decision = Decision(id: string, action: Action)

  predicate Raises(b: Batch, c: Config, a: Answer) {
    c.node != End && (a.raises || Execute(b, c.node, c.state, a).None?)
  }

  /** What the recommender decides in this step, if it is its turn. */
  function Decides(b: Batch, c: Config, a: Answer): seq<Decision> {
    if c.node == ActionRecommender && c.state.current.Some? && !a.raises
    then [Decision(c.state.current.value.id, RecommendFor(c.state.work).action)]
    else []
  }

  function Decisions(b: Batch, c: Config, answers: seq<Answer>): seq<Decision> {
    if answers == [] then []
    else
      var n := |answers| - 1;
      Decisions(b, c, answers[..n]) + Decides(b, Run(b, c, answers[..n]), answers[n])
  }

  function Writes(c: Config, a: Answer): seq<string> {
    if c.node == CrmWriter && c.state.current.Some? && !a.raises then [c.state.current.value.id] else []
  }

  /** The ids of the accounts written to the CRM. */
  function Written(b: Batch, c: Config, answers: seq<Answer>): seq<string> {
    if answers == [] then []
    else
      var n := |answers| - 1;
      Written(b, c, answers[..n]) + Writes(Run(b, c, answers[..n]), answers[n])
  }

  ghost predicate NothingRaises(b: Batch, c: Config, answers: seq<Answer>) {
    forall k :: 0 <= k < |answers| ==> !Raises(b, Run(b, c, answers[..k]), answers[k])
  }

  /** Decisions and writes follow the list, and every account written was to be pursued. */
  ghost predicate Ordered(b: Batch, decisions: seq<Decision>, written: seq<string>) {
    && |written| <= |decisions| <= |b.accounts|
    && (forall i :: 0 <= i < |decisions| ==> decisions[i].id == b.accounts[i].id)
    && (forall i :: 0 <= i < |written| ==> written[i] == b.accounts[i].id && decisions[i].action == PursueNow)
  }

  predicate Matches(work: Work, decision: Decision) {
    work.recommendation.Some? && work.recommendation.value.action == decision.action
  }

  ghost predicate Progress(b: Batch, c: Config, decisions: seq<Decision>, written: seq<string>) {
    var i, d, w := CurrentIndex(b.accounts, c.state.current), |decisions|, |written|;
    && Ordered(b, decisions, written)
    && (match c.node
        case SelectNextAccount => d == w == i + 1
        case BriefBuilder => d == i + 1 && w == i && Matches(c.state.work, decisions[i])
        case BriefReviewer => d == i + 1 && w == i && Matches(c.state.work, decisions[i])
        case CrmWriter => d == i + 1 && w == i && decisions[i].action == PursueNow
        case ZohoWriter => d == w == i + 1
        case TaskCreator => d == w == i + 1
        case OutboundGate => d == w == i + 1
        case DraftEmailGenerator => d == w == i + 1
        case End => (d == w == |b.accounts|) || (d == w + 1 && decisions[w].action != PursueNow)
        case _ => d == w == i)
  }

  lemma SelectorProgress(b: Batch, c: Config, a: Answer, decisions: seq<Decision>, written: seq<string>)
    requires Placed(b, c) && Progress(b, c, decisions, written) && !Raises(b, c, a) && c.node == SelectNextAccount
    ensures Progress(b, Step(b, c, a), decisions, written)
  {
    SelectorTakesNext(b, c, a);
    hide IndexOf, CurrentIndex, Distinct, Execute;
  }

  lemma DecisionProgress(b: Batch, c: Config, a: Answer, decisions: seq<Decision>, written: seq<string>)
    requires Placed(b, c) && Progress(b, c, decisions, written) && !Raises(b, c, a) && c.node == ActionRecommender
    ensures Progress(b, Step(b, c, a), decisions + Decides(b, c, a), written)
  {
    OthersKeepCurrent(b, c, a);
    CurrentIsListed(b.accounts, c.state.current);
    hide IndexOf, CurrentIndex, Distinct, RecommendFor;
  }

  lemma WriteProgress(b: Batch, c: Config, a: Answer, decisions: seq<Decision>, written: seq<string>)
    requires Placed(b, c) && Progress(b, c, decisions, written) && !Raises(b, c, a) && c.node == CrmWriter
    ensures Progress(b, Step(b, c, a), decisions, written + Writes(c, a))
  {
    OthersKeepCurrent(b, c, a);
    CurrentIsListed(b.accounts, c.state.current);
    hide IndexOf, CurrentIndex, Distinct, RecommendFor;
  }

  predicate Early(node: Node) {
    || node == IcpScorer || node == SignalDetector || node == ContactRanker || node == PainInferrer
    || node == ValuePropMatcher || node == ActionRecommender
  }

  lemma EarlyEdges(b: Batch, c: Config, a: Answer)
    requires !Raises(b, c, a) && Early(c.node) && c.node != ActionRecommender
    ensures Early(Step(b, c, a).node)
  {
    hide IndexOf, WorkOn;
  }

  lemma BriefEdge(b: Batch, c: Config, a: Answer)
    requires !Raises(b, c, a) && c.node == BriefBuilder
    ensures Step(b, c, a).node == BriefReviewer
    ensures Step(b, c, a).state.work.recommendation == c.state.work.recommendation
  {
    hide IndexOf, BuildBrief;
  }

  lemma ReviewEdge(b: Batch, c: Config, a: Answer)
    requires Inv(b, c) && !Raises(b, c, a) && c.node == BriefReviewer
    ensures Step(b, c, a).node == if Pursued(c.state.work) then CrmWriter else End
    ensures Step(b, c, a).state.work == c.state.work
  {
    hide IndexOf, Review, RecommendFor, ScoredBlind;
    ReviewPassesPursued(c.state.work);
  }

  lemma LateEdges(b: Batch, c: Config, a: Answer)
    requires !Raises(b, c, a) && Reviewed(c.node)
    ensures Step(b, c, a).state.work == c.state.work
    ensures var node := Step(b, c, a).node;
      match c.node
      case CrmWriter => node == ZohoWriter
      case ZohoWriter => node == TaskCreator
      case TaskCreator => node == OutboundGate
      case OutboundGate => node == DraftEmailGenerator || node == AfterDraftEmail(b, Step(b, c, a).state)
      case _ => node == AfterDraftEmail(b, Step(b, c, a).state)
  {
    hide IndexOf, Decide, ViewOf, WriteDrafts, AfterDraftEmail;
  }

  lemma StepOfEnd(b: Batch, c: Config, a: Answer)
    requires c.node == End
    ensures Step(b, c, a) == c
  {
  }

  /** What the remaining nodes leave alone. */
  lemma OtherProgress(b: Batch, c: Config, a: Answer, decisions: seq<Decision>, written: seq<string>)
    requires Placed(b, c) && Inv(b, c) && Progress(b, c, decisions, written) && !Raises(b, c, a)
    requires c.node != SelectNextAccount && c.node != ActionRecommender && c.node != CrmWriter
    ensures Progress(b, Step(b, c, a), decisions, written)
  {
    hide Step, IndexOf, CurrentIndex, Distinct, Raises, Inv;
    if c.node != End {
      OthersKeepCurrent(b, c, a);
      if Early(c.node) {
        EarlyEdges(b, c, a);
      } else if c.node == BriefBuilder {
        BriefEdge(b, c, a);
      } else if c.node == BriefReviewer {
        ReviewEdge(b, c, a);
      } else {
        LateEdges(b, c, a);
      }
    } else {
      StepOfEnd(b, c, a);
    }
  }

  lemma StepProgress(b: Batch, c: Config, a: Answer, decisions: seq<Decision>, written: seq<string>)
    requires Placed(b, c) && Inv(b, c) && Progress(b, c, decisions, written) && !Raises(b, c, a)
    ensures Progress(b, Step(b, c, a), decisions + Decides(b, c, a), written + Writes(c, a))
  {
    hide Placed, Inv, Progress, Step, Raises, RecommendFor;
    assert decisions + [] == decisions && written + [] == written;
    if c.node == SelectNextAccount {
      SelectorProgress(b, c, a, decisions, written);
    } else if c.node == ActionRecommender {
      DecisionProgress(b, c, a, decisions, written);
    } else if c.node == CrmWriter {
      WriteProgress(b, c, a, decisions, written);
    } else {
      OtherProgress(b, c, a, decisions, written);
    }
  }

  lemma RaisesNot(b: Batch, c: Config, answers: seq<Answer>, n: nat)
    requires NothingRaises(b, c, answers) && n < |answers|
    ensures NothingRaises(b, c, answers[..n]) && !Raises(b, Run(b, c, answers[..n]), answers[n])
  {
    hide Run, Raises;
    forall k | 0 <= k < n
      ensures !Raises(b, Run(b, c, answers[..n][..k]), answers[..n][k])
    {
      assert answers[..n][..k] == answers[..k];
    }
  }

  lemma InitialProgress(b: Batch, c: Config)
    requires Initial(c)
    ensures Progress(b, c, [], [])
  {
  }

  lemma {:induction false} RunProgress(b: Batch, c: Config, answers: seq<Answer>)
    requires Initial(c) && b.accounts != [] && Distinct(b.accounts) && NothingRaises(b, c, answers)
    ensures Progress(b, Run(b, c, answers), Decisions(b, c, answers), Written(b, c, answers))
  {
    hide Placed, Inv, Progress, Step, Raises;
    if answers == [] {
      InitialProgress(b, c);
    } else {
      var n := |answers| - 1;
      RaisesNot(b, c, answers, n);
      RunProgress(b, c, answers[..n]);
      RunKeepsPlaced(b, c, answers[..n]);
      RunKeepsInv(b, c, answers[..n]);
      StepProgress(b, Run(b, c, answers[..n]), answers[n], Decisions(b, c, answers[..n]), Written(b, c, answers[..n]));
    }
  }

  lemma ProgressMade(b: Batch, c: Config, decisions: seq<Decision>, written: seq<string>)
    requires Progress(b, c, decisions, written)
    ensures Ordered(b, decisions, written)
    ensures c.node == End ==>
      || |written| == |decisions| == |b.accounts|
      || (|decisions| == |written| + 1 && decisions[|written|].action != PursueNow)
  {
    hide Ordered, CurrentIndex, IndexOf, Matches;
  }

  /**
   * The accounts written to the CRM are the longest prefix of the list in which every
   * recommendation is to pursue, each written once and in order; the run is over at the first other
   * account, disqualified ones included, or at the end of the list.
   */
  lemma {:induction false} WrittenIsPursuedPrefix(b: Batch, c: Config, answers: seq<Answer>)
    requires Initial(c) && b.accounts != [] && Distinct(b.accounts) && NothingRaises(b, c, answers)
    ensures var decisions, written := Decisions(b, c, answers), Written(b, c, answers);
      && Ordered(b, decisions, written)
      && (Run(b, c, answers).node == End ==>
            || |written| == |decisions| == |b.accounts|
            || (|decisions| == |written| + 1 && decisions[|written|].action != PursueNow))
  {
    hide *;
    RunProgress(b, c, answers);
    ProgressMade(b, Run(b, c, answers), Decisions(b, c, answers), Written(b, c, answers));
  }

  // ----- What follows a write to the CRM -----

  /** Up to the next selection, the nodes after the review change neither the account nor its work. */
  lemma LateStep(b: Batch, c: Config, a: Answer)
    requires Inv(b, c) && !Raises(b, c, a) && Reviewed(c.node)
    ensures var d := Step(b, c, a);
      && d.state.current == c.state.current && d.state.work == c.state.work
      && match c.node
         case CrmWriter => d.node == ZohoWriter
         case ZohoWriter => d.node == TaskCreator
         case TaskCreator => d.node == OutboundGate
         case OutboundGate => d.node == DraftEmailGenerator
         case _ => d.node == AfterDraftEmail(b, d.state)
  {
    hide IndexOf, CurrentIndex, ViewOf, WriteDrafts, ScoredBlind, RecommendFor;
    hide AfterDraftEmail;
  }

  lemma RunStep(b: Batch, c: Config, answers: seq<Answer>, k: nat)
    requires k < |answers|
    ensures Run(b, c, answers[..k + 1]) == Step(b, Run(b, c, answers[..k]), answers[k])
  {
    assert answers[..k + 1][..k] == answers[..k];
  }

  lemma {:induction false} LateStepOfRun(b: Batch, c: Config, answers: seq<Answer>, k: nat)
    requires Initial(c) && NothingRaises(b, c, answers) && k < |answers| && Reviewed(Run(b, c, answers[..k]).node)
    ensures var before, after := Run(b, c, answers[..k]), Run(b, c, answers[..k + 1]);
      && after.state.current == before.state.current && after.state.work == before.state.work
      && match before.node
         case CrmWriter => after.node == ZohoWriter
         case ZohoWriter => after.node == TaskCreator
         case TaskCreator => after.node == OutboundGate
         case OutboundGate => after.node == DraftEmailGenerator
         case _ => after.node == AfterDraftEmail(b, after.state)
  {
    hide Run, Step, Inv, Raises, AfterDraftEmail;
    RunKeepsInv(b, c, answers[..k]);
    RunStep(b, c, answers, k);
    LateStep(b, Run(b, c, answers[..k]), answers[k]);
  }

  lemma DraftsAreWritten(b: Batch, c: Config, a: Answer)
    requires Inv(b, c) && c.node == DraftEmailGenerator && !a.raises
    ensures var s := c.state;
      && s.current.Some?
      && Step(b, c, a).state.drafts == if s.work.ranked == [] then [] else a.write(s.current.value, b.contacts, s.work)
  {
    hide IndexOf, CurrentIndex, ScoredBlind, RecommendFor;
  }

  /**
   * An account written to the CRM also goes to Zoho, has its task created and its e-mails drafted, all from
   * the same work, before the next account is selected; the drafts are those of the generator's own step.
   */
  lemma {:induction false} WrittenAccountIsFollowedUp(b: Batch, c: Config, answers: seq<Answer>, k: nat)
    requires Initial(c) && NothingRaises(b, c, answers)
    requires k + 5 <= |answers| && Run(b, c, answers[..k]).node == CrmWriter
    ensures Run(b, c, answers[..k + 1]).node == ZohoWriter
    ensures Run(b, c, answers[..k + 2]).node == TaskCreator
    ensures Run(b, c, answers[..k + 3]).node == OutboundGate
    ensures Run(b, c, answers[..k + 4]).node == DraftEmailGenerator
    ensures Run(b, c, answers[..k + 5]).node == SelectNextAccount || Run(b, c, answers[..k + 5]).node == End
    ensures var s, t := Run(b, c, answers[..k]).state, Run(b, c, answers[..k + 5]).state;
      && s.current.Some? && t.current == s.current && t.work == s.work
      && t.drafts == if s.work.ranked == [] then [] else answers[k + 4].write(s.current.value, b.contacts, s.work)
  {
    hide Run, Step, Inv, CurrentIndex;
    LateStepOfRun(b, c, answers, k);
    LateStepOfRun(b, c, answers, k + 1);
    LateStepOfRun(b, c, answers, k + 2);
    LateStepOfRun(b, c, answers, k + 3);
    LateStepOfRun(b, c, answers, k + 4);
    RunKeepsInv(b, c, answers[..k + 4]);
    RunStep(b, c, answers, k + 4);
    assert !Raises(b, Run(b, c, answers[..k + 4]), answers[k + 4]);
    DraftsAreWritten(b, Run(b, c, answers[..k + 4]), answers[k + 4]);
  }

  // ----- Termination -----

  /** The place of a node in the fourteen nodes of one account, counted from the end. */
  function NodesLeft(node: Node): nat {
    match node
    case SelectNextAccount => 0
    case IcpScorer => 13
    case SignalDetector => 12
    case ContactRanker => 11
    case PainInferrer => 10
    case ValuePropMatcher => 9
    case ActionRecommender => 8
    case BriefBuilder => 7
    case BriefReviewer => 6
    case CrmWriter => 5
    case ZohoWriter => 4
    case TaskCreator => 3
    case OutboundGate => 2
    case DraftEmailGenerator => 1
    case End => 0
  }

  function Rank(b: Batch, c: Config): int {
    if c.node == End then 0 else 14 * (|b.accounts| - 1 - CurrentIndex(b.accounts, c.state.current)) + NodesLeft(c.node)
  }

  lemma StepLowersRank(b: Batch, c: Config, a: Answer)
    requires Placed(b, c) && c.node != End
    ensures 0 <= Rank(b, Step(b, c, a)) < Rank(b, c)
  {
    if c.node == SelectNextAccount {
      if !a.raises {
        SelectorTakesNext(b, c, a);
      }
    } else {
      OthersKeepCurrent(b, c, a);
      CurrentIsListed(b.accounts, c.state.current);
    }
    hide IndexOf, CurrentIndex, Distinct, Execute;
  }

  lemma RankIsPositive(b: Batch, c: Config)
    requires Placed(b, c) && c.node != End
    ensures Rank(b, c) > 0
  {
  }

  lemma EndStays(b: Batch, c: Config, a: Answer)
    ensures c.node == End ==> Step(b, c, a).node == End
  {
  }

  /** With distinct ids a run of n accounts takes at most 14 n nodes. */
  lemma {:induction false} RunTerminates(b: Batch, c: Config, answers: seq<Answer>)
    requires Initial(c) && b.accounts != [] && Distinct(b.accounts)
    ensures 0 <= Rank(b, Run(b, c, answers))
    ensures Run(b, c, answers).node == End || Rank(b, Run(b, c, answers)) + |answers| <= 14 * |b.accounts|
    ensures |answers| >= 14 * |b.accounts| ==> Run(b, c, answers).node == End
  {
    hide Placed, Step;
    RunKeepsPlaced(b, c, answers);
    if answers != [] {
      var n := |answers| - 1;
      RunTerminates(b, c, answers[..n]);
      RunKeepsPlaced(b, c, answers[..n]);
      EndStays(b, Run(b, c, answers[..n]), answers[n]);
      if Run(b, c, answers[..n]).node != End {
        StepLowersRank(b, Run(b, c, answers[..n]), answers[n]);
      }
    }
    if Run(b, c, answers).node != End {
      RankIsPositive(b, Run(b, c, answers));
    }
  }

  lemma EmptyStep(b: Batch, c: Config, a: Answer)
    requires b.accounts == [] && c.state.current.None? && c.state.work == BLANK
    requires c.node == SelectNextAccount || NodesLeft(c.node) >= 6 || c.node == End
    ensures var after := Step(b, c, a);
      && after.state.current.None? && after.state.work == BLANK
      && (after.node == End
          || (c.node == SelectNextAccount && NodesLeft(after.node) == 13)
          || (NodesLeft(c.node) > 6 && NodesLeft(after.node) == NodesLeft(c.node) - 1))
  {
    hide IndexOf, WorkOn, Decide, WriteDrafts;
  }

  /** An empty batch runs through to a review of nothing and is over after nine nodes, with nothing written. */
  lemma {:induction false} EmptyBatchEnds(b: Batch, c: Config, answers: seq<Answer>)
    requires Initial(c) && b.accounts == []
    ensures Run(b, c, answers).state.current.None? && Run(b, c, answers).state.work == BLANK
    ensures Written(b, c, answers) == []
    ensures var node := Run(b, c, answers).node;
      if answers == [] then node == SelectNextAccount
      else node == End || (1 <= |answers| <= 8 && NodesLeft(node) == 14 - |answers|)
  {
    hide Step;
    if answers != [] {
      var n := |answers| - 1;
      EmptyBatchEnds(b, c, answers[..n]);
      EmptyStep(b, Run(b, c, answers[..n]), answers[n]);
    }
  }

  // ----- What a decision rests on -----

  /** Each node that asks stores the answer of that very step, for the current account, and nothing else. */
  lemma NodesStoreTheirAnswers(b: Batch, c: Config, a: Answer)
    requires c.state.current.Some? && !a.raises
    ensures var account, work, after := c.state.current.value, c.state.work, Step(b, c, a).state;
      && (c.node != SelectNextAccount ==> after.current == c.state.current)
      && (c.node == SignalDetector ==> after.work == work.(signals := a.detect(account)))
      && (c.node == ContactRanker && b.contacts != [] ==>
            after.work == work.(ranked := a.rank(account, b.contacts, work.pains)))
      && (c.node == ContactRanker && b.contacts == [] ==> after.work == work.(ranked := []))
      && (c.node == PainInferrer ==> after.work == work.(pains := a.infer(account, work.signals)))
      && (c.node == ValuePropMatcher ==>
            after.work == work.(valueProps := a.matchProps(account, work.pains, work.ranked)))
      && (c.node == BriefBuilder ==>
            && after.work == work.(brief := after.work.brief)
            && (after.work.brief.None? <==> a.risks(BriefInput(account, work)).None?)
            && (after.work.brief.Some? ==> Some(after.work.brief.value.risks) == a.risks(BriefInput(account, work))))
      && (c.node == DraftEmailGenerator && Pursued(work) ==>
            after.drafts == if work.ranked == [] then [] else a.write(account, b.contacts, work))
      && (c.node == DraftEmailGenerator && !Pursued(work) ==> after.drafts == [])
  {
    hide IndexOf, CurrentIndex, Decide, RecommendFor, Score;
  }

  lemma ScorerStoresItsAnswer(b: Batch, c: Config, a: Answer)
    requires c.state.current.Some? && c.node == IcpScorer && c.state.work == BLANK && Step(b, c, a).node != End
    ensures var account, after := c.state.current.value, Step(b, c, a);
      var score := AccountScoreOf(account.facts, b.criteria, [], a.scorePain(account, []));
      && after.state.current == c.state.current && score.Some? && after.state.work == BLANK.(score := score)
      && after.node == if score.value.broken.Some? then ActionRecommender else SignalDetector
  {
    hide IndexOf, CurrentIndex, AccountScoreOf;
  }

  function OwnScore(b: Batch, account: Account, a: Answer): Work {
    BLANK.(score := AccountScoreOf(account.facts, b.criteria, [], a.scorePain(account, [])))
  }

  function OwnRanking(b: Batch, account: Account, a: Answer): seq<RankedContact> {
    if b.contacts == [] then [] else a.rank(account, b.contacts, [])
  }

  /** While an account goes through, its work is made of the answers of the steps just before. */
  ghost predicate Own(b: Batch, c: Config, answers: seq<Answer>) {
    var end, n := Run(b, c, answers), |answers|;
    var work := end.state.work;
    end.state.current.Some? ==>
      var account := end.state.current.value;
      match end.node
      case IcpScorer => work == BLANK
      case SignalDetector => n >= 1 && work == OwnScore(b, account, answers[n - 1])
      case ContactRanker =>
        n >= 2 && work == OwnScore(b, account, answers[n - 2]).(signals := answers[n - 1].detect(account))
      case PainInferrer =>
        n >= 3 && work == OwnScore(b, account, answers[n - 3]).(
                            signals := answers[n - 2].detect(account), ranked := OwnRanking(b, account, answers[n - 1]))
      case ValuePropMatcher =>
        n >= 4 && work == OwnScore(b, account, answers[n - 4]).(
                            signals := answers[n - 3].detect(account), ranked := OwnRanking(b, account, answers[n - 2]),
                            pains := answers[n - 1].infer(account, work.signals))
      case ActionRecommender =>
        if work.score.Some? && work.score.value.broken.Some? then
          n >= 1 && work == OwnScore(b, account, answers[n - 1])
        else
          n >= 5 && work == OwnScore(b, account, answers[n - 5]).(
                              signals := answers[n - 4].detect(account),
                              ranked := OwnRanking(b, account, answers[n - 3]),
                              pains := answers[n - 2].infer(account, work.signals),
                              valueProps := answers[n - 1].matchProps(account, work.pains, work.ranked))
      case _ => true
  }

  /** The order of the nodes that ask. */
  lemma AskingEdges(b: Batch, c: Config, a: Answer)
    ensures var after := Step(b, c, a).node;
      && (after == IcpScorer ==> c.node == SelectNextAccount)
      && (after == SignalDetector ==> c.node == IcpScorer)
      && (after == ContactRanker ==> c.node == SignalDetector)
      && (after == PainInferrer ==> c.node == ContactRanker)
      && (after == ValuePropMatcher ==> c.node == PainInferrer)
      && (after == ActionRecommender ==> c.node == ValuePropMatcher || c.node == IcpScorer)
      && (after != End ==> !a.raises && c.node != End)
  {
    hide IndexOf, CurrentIndex, Decide, WorkOn;
  }

  /** Past the scorer, an account that goes on to be asked about breaks no rule. */
  ghost predicate AskedAbout(c: Config) {
    c.node == SignalDetector || c.node == ContactRanker || c.node == PainInferrer || c.node == ValuePropMatcher ==>
      c.state.work.score.Some? ==> c.state.work.score.value.broken.None?
  }

  lemma StepKeepsAsked(b: Batch, c: Config, a: Answer)
    requires AskedAbout(c)
    ensures AskedAbout(Step(b, c, a))
  {
    hide IndexOf, CurrentIndex, Decide, RecommendFor, AccountScoreOf;
  }

  lemma InitiallyAsked(c: Config)
    requires Initial(c)
    ensures AskedAbout(c)
  {
  }

  lemma {:induction false} RunKeepsAsked(b: Batch, c: Config, answers: seq<Answer>)
    requires Initial(c)
    ensures AskedAbout(Run(b, c, answers))
  {
    hide AskedAbout, Step;
    if answers == [] {
      InitiallyAsked(c);
    } else {
      RunKeepsAsked(b, c, answers[..|answers| - 1]);
      StepKeepsAsked(b, Run(b, c, answers[..|answers| - 1]), answers[|answers| - 1]);
    }
  }

  lemma BlankAtScorer(b: Batch, c: Config)
    requires Inv(b, c)
    ensures c.node == IcpScorer ==> c.state.work == BLANK
  {
  }

  lemma {:induction false} WorkIsOwn(b: Batch, c: Config, answers: seq<Answer>)
    requires Initial(c)
    ensures Own(b, c, answers)
  {
    hide Step, Inv, AccountScoreOf, IndexOf, CurrentIndex;
    if answers != [] {
      var n := |answers| - 1;
      var before := Run(b, c, answers[..n]);
      WorkIsOwn(b, c, answers[..n]);
      RunKeepsInv(b, c, answers);
      RunKeepsInv(b, c, answers[..n]);
      RunKeepsAsked(b, c, answers[..n]);
      AskingEdges(b, before, answers[n]);
      BlankAtScorer(b, before);
      BlankAtScorer(b, Run(b, c, answers));
      if before.state.current.Some? && Run(b, c, answers).node != End {
        if before.node == IcpScorer {
          ScorerStoresItsAnswer(b, before, answers[n]);
        } else {
          NodesStoreTheirAnswers(b, before, answers[n]);
        }
      }
      if before.node != SelectNextAccount {
        OthersKeepCurrent(b, before, answers[n]);
      }
    }
  }

  /**
   * Whatever is recommended for an account rests on the answers of the steps just before, given for this
   * account: its score, and unless a rule disqualifies it, its signals, contacts, pains and value propositions.
   */
  lemma {:induction false} DecisionRestsOnOwnAnswers(b: Batch, c: Config, answers: seq<Answer>)
    requires Initial(c) && Run(b, c, answers).node == ActionRecommender && Run(b, c, answers).state.current.Some?
    ensures var s, n := Run(b, c, answers).state, |answers|;
      var account, work := s.current.value, s.work;
      if work.score.Some? && work.score.value.broken.Some? then
        && n >= 1 && work.score == AccountScoreOf(account.facts, b.criteria, [], answers[n - 1].scorePain(account, []))
        && work.signals == [] && work.ranked == [] && work.pains == [] && work.valueProps == []
      else
        && n >= 5 && work.score == AccountScoreOf(account.facts, b.criteria, [], answers[n - 5].scorePain(account, []))
        && work.signals == answers[n - 4].detect(account)
        && work.ranked == (if b.contacts == [] then [] else answers[n - 3].rank(account, b.contacts, []))
        && work.pains == answers[n - 2].infer(account, answers[n - 4].detect(account))
        && work.valueProps == answers[n - 1].matchProps(account, work.pains, work.ranked)
  {
    hide Run, AccountScoreOf;
    WorkIsOwn(b, c, answers);
  }

  // ----- Nothing carries over from one account to the next -----

  function Rest(b: Batch, c: Config): seq<Account> {
    var next := CurrentIndex(b.accounts, c.state.current) + 1;
    if 0 <= next <= |b.accounts| then b.accounts[next..] else []
  }

  /** Two batches of one campaign: the accounts may differ. */
  predicate SameCampaign(b: Batch, d: Batch) {
    b.contacts == d.contacts && b.criteria == d.criteria
  }

  /** Two runs in step: same node, same accounts ahead and, between selections, the same account and work. */
  predicate InStep(b: Batch, c: Config, d: Batch, e: Config) {
    && c.node == e.node
    && (c.node != End ==> Rest(b, c) == Rest(d, e))
    && (c.node != End && c.node != SelectNextAccount ==>
          c.state.current == e.state.current && c.state.work == e.state.work)
    && (Reviewed(c.node) ==> c.state.approval == e.state.approval)
    && (c.node == DraftEmailGenerator ==> c.state.triggered == e.state.triggered)
  }

  lemma SameScore(b: Batch, d: Batch, account: Account, work: Work, a: Answer, node: Node)
    requires SameCampaign(b, d)
    ensures WorkOn(b, node, account, work, a) == WorkOn(d, node, account, work, a)
  {
    hide AccountScoreOf, BuildBrief, RecommendFor;
  }

  lemma SelectorTakesHead(b: Batch, c: Config, a: Answer)
    requires Placed(b, c) && c.node == SelectNextAccount && !a.raises
    ensures Rest(b, c) != []
    ensures var after := Step(b, c, a);
      && after.node == IcpScorer && Rest(b, after) == Rest(b, c)[1..]
      && after.state.current == Some(Rest(b, c)[0]) && after.state.work == BLANK
  {
    SelectorTakesNext(b, c, a);
    var next := CurrentIndex(b.accounts, c.state.current) + 1;
    assert b.accounts[next..][1..] == b.accounts[next + 1..];
    hide Step, IndexOf, CurrentIndex, Distinct;
  }

  lemma RaisingStep(b: Batch, c: Config, a: Answer)
    requires a.raises
    ensures Step(b, c, a).node == End
  {
  }

  lemma SelectorInStep(b: Batch, c: Config, d: Batch, e: Config, a: Answer)
    requires Placed(b, c) && Placed(d, e) && InStep(b, c, d, e) && c.node == SelectNextAccount
    ensures InStep(b, Step(b, c, a), d, Step(d, e, a))
  {
    hide Step, Rest, Placed;
    if a.raises {
      RaisingStep(b, c, a);
      RaisingStep(d, e, a);
    } else {
      SelectorTakesHead(b, c, a);
      SelectorTakesHead(d, e, a);
    }
  }

  lemma OthersKeepRest(b: Batch, c: Config, a: Answer)
    requires c.node != SelectNextAccount
    ensures Rest(b, Step(b, c, a)) == Rest(b, c)
  {
    OthersKeepCurrent(b, c, a);
    hide Step, IndexOf, CurrentIndex;
  }

  /** Whether accounts are left shows in the rest of the list alone. */
  lemma ExitShowsInRest(b: Batch, c: Config)
    requires c.state.current.Some? && CurrentIndex(b.accounts, c.state.current) >= 0
    ensures AfterDraftEmail(b, c.state) == if Rest(b, c) == [] then End else SelectNextAccount
  {
    hide IndexOf;
  }

  predicate Works(node: Node) {
    Early(node) || node == BriefBuilder || node == CrmWriter || node == ZohoWriter || node == TaskCreator
  }

  /** What two runs on the same account and work share after the same answer. */
  predicate Agree(c: Config, e: Config, after: Config, other: Config) {
    && after.node == other.node && after.state.work == other.state.work
    && after.state.approval == c.state.approval && other.state.approval == e.state.approval
    && after.node != SelectNextAccount && after.node != DraftEmailGenerator
    && (Reviewed(after.node) ==> Reviewed(c.node))
  }

  lemma WorkerStep(b: Batch, c: Config, a: Answer)
    requires c.state.current.Some? && (Early(c.node) || c.node == BriefBuilder)
    ensures var next := WorkOn(b, c.node, c.state.current.value, c.state.work, a);
      Step(b, c, a) ==
        if a.raises || next.None? then c.(node := End)
        else
          var s := c.state.(work := next.value);
          Config(Follow(b, c.node, s), s)
  {
    hide IndexOf, WorkOn, Follow;
  }

  lemma SameFollow(b: Batch, d: Batch, node: Node, s: State, t: State)
    requires (Early(node) || node == BriefBuilder) && s.work == t.work
    ensures Follow(b, node, s) == Follow(d, node, t)
    ensures var next := Follow(b, node, s);
      next != SelectNextAccount && !Reviewed(next)
  {
  }

  lemma EarlyWorkersAgree(b: Batch, c: Config, d: Batch, e: Config, a: Answer)
    requires SameCampaign(b, d) && c.state.current.Some? && (Early(c.node) || c.node == BriefBuilder)
    requires c.node == e.node && c.state.current == e.state.current && c.state.work == e.state.work
    ensures Agree(c, e, Step(b, c, a), Step(d, e, a))
  {
    hide Step, Follow, WorkOn, SameCampaign, IndexOf;
    SameScore(b, d, c.state.current.value, c.state.work, a, c.node);
    WorkerStep(b, c, a);
    WorkerStep(d, e, a);
    SameFollow(b, d, c.node, Step(b, c, a).state, Step(d, e, a).state);
  }

  lemma LateWorkersAgree(b: Batch, c: Config, d: Batch, e: Config, a: Answer)
    requires c.node == CrmWriter || c.node == ZohoWriter || c.node == TaskCreator
    requires c.node == e.node && c.state.work == e.state.work
    ensures Agree(c, e, Step(b, c, a), Step(d, e, a))
  {
    hide IndexOf;
  }

  lemma WorkersInStep(b: Batch, c: Config, d: Batch, e: Config, a: Answer)
    requires SameCampaign(b, d) && c.state.current.Some? && InStep(b, c, d, e) && Works(c.node)
    ensures InStep(b, Step(b, c, a), d, Step(d, e, a))
  {
    hide Step, Rest, SameCampaign, CurrentIndex;
    OthersKeepRest(b, c, a);
    OthersKeepRest(d, e, a);
    OthersKeepCurrent(b, c, a);
    OthersKeepCurrent(d, e, a);
    if Reviewed(c.node) {
      LateWorkersAgree(b, c, d, e, a);
    } else {
      EarlyWorkersAgree(b, c, d, e, a);
    }
  }

  lemma ReviewersAgree(b: Batch, c: Config, a: Answer)
    requires c.node == BriefReviewer && !a.raises
    ensures var after := Step(b, c, a);
      && after.state == c.state.(approval := Some(Review(c.state.work.recommendation)))
      && after.node == if Review(c.state.work.recommendation) == "pending_review" then End else CrmWriter
  {
    hide IndexOf, Review;
  }

  lemma ReviewerInStep(b: Batch, c: Config, d: Batch, e: Config, a: Answer)
    requires InStep(b, c, d, e) && c.node == BriefReviewer
    ensures InStep(b, Step(b, c, a), d, Step(d, e, a))
  {
    hide Step, Rest, CurrentIndex, Review;
    OthersKeepRest(b, c, a);
    OthersKeepRest(d, e, a);
    if a.raises {
      RaisingStep(b, c, a);
      RaisingStep(d, e, a);
    } else {
      ReviewersAgree(b, c, a);
      ReviewersAgree(d, e, a);
    }
  }

  lemma ExitsInStep(b: Batch, c: Config, d: Batch, e: Config, a: Answer)
    requires Placed(b, c) && Placed(d, e) && InStep(b, c, d, e)
    requires c.node == OutboundGate || c.node == DraftEmailGenerator
    ensures InStep(b, Step(b, c, a), d, Step(d, e, a))
  {
    OthersKeepRest(b, c, a);
    OthersKeepRest(d, e, a);
    OthersKeepCurrent(b, c, a);
    OthersKeepCurrent(d, e, a);
    ExitShowsInRest(b, Step(b, c, a));
    ExitShowsInRest(d, Step(d, e, a));
    hide IndexOf, CurrentIndex, Rest, Decide, ViewOf, AfterDraftEmail, WriteDrafts, Distinct;
  }

  lemma OthersInStep(b: Batch, c: Config, d: Batch, e: Config, a: Answer)
    requires SameCampaign(b, d) && Placed(b, c) && Placed(d, e) && InStep(b, c, d, e)
    requires c.node != SelectNextAccount && c.node != End
    ensures InStep(b, Step(b, c, a), d, Step(d, e, a))
  {
    hide InStep, Step, Rest, SameCampaign, CurrentIndex, Distinct;
    if c.node == BriefReviewer {
      ReviewerInStep(b, c, d, e, a);
    } else if c.node == OutboundGate || c.node == DraftEmailGenerator {
      ExitsInStep(b, c, d, e, a);
    } else {
      WorkersInStep(b, c, d, e, a);
    }
  }

  lemma {:induction false} StepInStep(b: Batch, c: Config, d: Batch, e: Config, a: Answer)
    requires SameCampaign(b, d) && Placed(b, c) && Placed(d, e) && InStep(b, c, d, e)
    ensures InStep(b, Step(b, c, a), d, Step(d, e, a))
  {
    if c.node == SelectNextAccount {
      SelectorInStep(b, c, d, e, a);
    } else if c.node != End {
      OthersInStep(b, c, d, e, a);
    } else {
      StepOfEnd(b, c, a);
      StepOfEnd(d, e, a);
    }
    hide Placed, Rest, Step;
  }

  lemma {:induction false} RunInStep(b: Batch, c: Config, d: Batch, e: Config, answers: seq<Answer>)
    requires SameCampaign(b, d) && Placed(b, c) && Placed(d, e) && InStep(b, c, d, e)
    ensures InStep(b, Run(b, c, answers), d, Run(d, e, answers))
    ensures Placed(b, Run(b, c, answers)) && Placed(d, Run(d, e, answers))
  {
    hide Placed, InStep, Step, SameCampaign;
    if answers != [] {
      var n := |answers| - 1;
      RunInStep(b, c, d, e, answers[..n]);
      StepInStep(b, Run(b, c, answers[..n]), d, Run(d, e, answers[..n]), answers[n]);
      StepKeepsPlaced(b, Run(b, c, answers[..n]), answers[n]);
      StepKeepsPlaced(d, Run(d, e, answers[..n]), answers[n]);
    }
  }

  lemma {:induction false} RunOfBoth(b: Batch, c: Config, xs: seq<Answer>, ys: seq<Answer>)
    ensures Run(b, c, xs + ys) == Run(b, Run(b, c, xs), ys)
  {
    hide Step;
    if ys == [] {
      assert xs + [] == xs;
    } else {
      var n := |ys| - 1;
      assert (xs + ys)[..|xs + ys| - 1] == xs + ys[..n];
      RunOfBoth(b, c, xs, ys[..n]);
    }
  }

  /** The run comes to the selector just before account number `k`. */
  predicate Reaches(b: Batch, c: Config, answers: seq<Answer>, k: nat) {
    var end := Run(b, c, answers);
    end.node == SelectNextAccount && CurrentIndex(b.accounts, end.state.current) == k - 1
  }

  lemma SelectorsInStep(
    b: Batch, c: Config, before: seq<Answer>, d: Batch, e: Config, earlier: seq<Answer>, k: nat, l: nat)
    requires k <= |b.accounts| && l <= |d.accounts| && b.accounts[k..] == d.accounts[l..]
    requires Reaches(b, c, before, k) && Reaches(d, e, earlier, l)
    ensures InStep(b, Run(b, c, before), d, Run(d, e, earlier))
  {
    hide CurrentIndex, IndexOf, Run;
  }

  /**
   * Isolation. Two batches of one campaign end in the same accounts, and two runs, of any lengths and
   * with any answers so far, come to the selector just before those. From then on, given the same
   * answers, the runs stay in step: same nodes, same accounts, same signals, contacts, pains, score,
   * recommendation and brief. Nothing that was worked out for an earlier account is ever read.
   */
  lemma {:induction false} NothingCarriesOver(
    b: Batch, c: Config, before: seq<Answer>, d: Batch, e: Config, earlier: seq<Answer>, k: nat, l: nat,
    answers: seq<Answer>)
    requires SameCampaign(b, d) && Initial(c) && Initial(e)
    requires b.accounts != [] && Distinct(b.accounts) && d.accounts != [] && Distinct(d.accounts)
    requires k <= |b.accounts| && l <= |d.accounts| && b.accounts[k..] == d.accounts[l..]
    requires Reaches(b, c, before, k) && Reaches(d, e, earlier, l)
    ensures InStep(b, Run(b, c, before + answers), d, Run(d, e, earlier + answers))
  {
    hide *;
    RunKeepsPlaced(b, c, before);
    RunKeepsPlaced(d, e, earlier);
    RunOfBoth(b, c, before, answers);
    RunOfBoth(d, e, earlier, answers);
    SelectorsInStep(b, c, before, d, e, earlier, k, l);
    RunInStep(b, Run(b, c, before), d, Run(d, e, earlier), answers);
  }

  lemma DraftsAgree(b: Batch, c: Config, d: Batch, e: Config, a: Answer)
    requires SameCampaign(b, d) && InStep(b, c, d, e) && c.node == DraftEmailGenerator && !a.raises
    ensures Step(b, c, a).state.drafts == Step(d, e, a).state.drafts
  {
    hide IndexOf, Rest;
  }

  /** The same for the draft e-mails, whenever the generator has its turn. */
  lemma {:induction false} NothingCarriesOverIntoDrafts(
    b: Batch, c: Config, before: seq<Answer>, d: Batch, e: Config, earlier: seq<Answer>, k: nat, l: nat,
    answers: seq<Answer>, a: Answer)
    requires SameCampaign(b, d) && Initial(c) && Initial(e)
    requires b.accounts != [] && Distinct(b.accounts) && d.accounts != [] && Distinct(d.accounts)
    requires k <= |b.accounts| && l <= |d.accounts| && b.accounts[k..] == d.accounts[l..]
    requires Reaches(b, c, before, k) && Reaches(d, e, earlier, l)
    requires Run(b, c, before + answers).node == DraftEmailGenerator && !a.raises
    ensures Step(b, Run(b, c, before + answers), a).state.drafts
         == Step(d, Run(d, e, earlier + answers), a).state.drafts
  {
    hide *;
    NothingCarriesOver(b, c, before, d, e, earlier, k, l, answers);
    DraftsAgree(b, Run(b, c, before + answers), d, Run(d, e, earlier + answers), a);
  }

  // ----- Repeated ids -----

  predicate Keen(b: Batch, c: Config, a: Answer) {
    !Raises(b, c, a) && (c.node == ActionRecommender ==> RecommendFor(c.state.work).action == PursueNow)
  }

  /** Nothing raises and every recommendation is to pursue. */
  ghost predicate AllPursued(b: Batch, c: Config, answers: seq<Answer>) {
    forall k :: 0 <= k < |answers| ==> Keen(b, Run(b, c, answers[..k]), answers[k])
  }

  predicate BeforeDuplicate(b: Batch, c: Config, j: nat) {
    && CurrentIndex(b.accounts, c.state.current) < j
    && c.node != End
    && (c.node != SelectNextAccount ==> c.state.current.Some? && CurrentIndex(b.accounts, c.state.current) >= 0)
    && (Recommended(c.node) ==> Pursued(c.state.work))
  }

  lemma EarlyStaysPursued(b: Batch, c: Config, a: Answer)
    requires Keen(b, c, a) && Early(c.node) && c.state.current.Some?
    ensures if c.node == ActionRecommender
            then Step(b, c, a).node == BriefBuilder && Pursued(Step(b, c, a).state.work)
            else Early(Step(b, c, a).node)
  {
    hide IndexOf, RecommendFor, Score;
  }

  lemma StaysInAccount(b: Batch, c: Config, a: Answer, j: nat)
    requires Inv(b, c) && BeforeDuplicate(b, c, j) && Keen(b, c, a) && c.node != SelectNextAccount
    requires j < |b.accounts|
    ensures BeforeDuplicate(b, Step(b, c, a), j)
  {
    hide Step, Inv, Raises, IndexOf, CurrentIndex, RecommendFor;
    OthersKeepCurrent(b, c, a);
    if Early(c.node) {
      EarlyStaysPursued(b, c, a);
    } else if c.node == BriefBuilder {
      BriefEdge(b, c, a);
    } else if c.node == BriefReviewer {
      ReviewEdge(b, c, a);
    } else {
      LateEdges(b, c, a);
    }
  }

  lemma SelectorSelects(b: Batch, c: Config, a: Answer)
    requires c.node == SelectNextAccount && !a.raises
    requires -1 <= CurrentIndex(b.accounts, c.state.current) < |b.accounts| - 1
    ensures var after := Step(b, c, a);
      && after.node == IcpScorer
      && after.state.current == Some(b.accounts[CurrentIndex(b.accounts, c.state.current) + 1])
  {
    hide IndexOf;
  }

  lemma SelectsBeforeDuplicate(b: Batch, c: Config, a: Answer, i: nat, j: nat)
    requires i < j < |b.accounts| && b.accounts[i].id == b.accounts[j].id
    requires BeforeDuplicate(b, c, j) && c.node == SelectNextAccount && !a.raises
    ensures BeforeDuplicate(b, Step(b, c, a), j)
  {
    hide Step, IndexOf, CurrentIndex;
    CurrentIndexAtLeast(b.accounts, c.state.current);
    SearchStaysBefore(b.accounts, CurrentIndex(b.accounts, c.state.current) + 1, i, j);
    SelectorSelects(b, c, a);
  }

  lemma KeenDoesNotRaise(b: Batch, c: Config, a: Answer)
    requires Keen(b, c, a) && c.node != End
    ensures !a.raises
  {
  }

  lemma StaysBeforeDuplicate(b: Batch, c: Config, a: Answer, i: nat, j: nat)
    requires i < j < |b.accounts| && b.accounts[i].id == b.accounts[j].id
    requires Inv(b, c) && BeforeDuplicate(b, c, j) && Keen(b, c, a)
    ensures BeforeDuplicate(b, Step(b, c, a), j)
  {
    hide Step, Inv, BeforeDuplicate, IndexOf;
    if c.node == SelectNextAccount {
      KeenDoesNotRaise(b, c, a);
      SelectsBeforeDuplicate(b, c, a, i, j);
    } else {
      StaysInAccount(b, c, a, j);
    }
  }

  lemma PursuedBefore(b: Batch, c: Config, answers: seq<Answer>, n: nat)
    requires AllPursued(b, c, answers) && n < |answers|
    ensures AllPursued(b, c, answers[..n]) && Keen(b, Run(b, c, answers[..n]), answers[n])
  {
    hide Run, Keen;
    forall k | 0 <= k < n
      ensures Keen(b, Run(b, c, answers[..n][..k]), answers[..n][k])
    {
      assert answers[..n][..k] == answers[..k];
    }
  }

  lemma InitiallyBeforeDuplicate(b: Batch, c: Config, j: nat)
    requires Initial(c) && 0 < j
    ensures BeforeDuplicate(b, c, j)
  {
  }

  /** With two equal ids a run of pursued accounts goes back to the first of them for ever. */
  lemma {:induction false} DuplicateIdsNeverEnd(b: Batch, c: Config, answers: seq<Answer>, i: nat, j: nat)
    requires Initial(c) && i < j < |b.accounts| && b.accounts[i].id == b.accounts[j].id
    requires AllPursued(b, c, answers)
    ensures BeforeDuplicate(b, Run(b, c, answers), j)
  {
    hide Step, BeforeDuplicate, Inv, Keen;
    if answers == [] {
      InitiallyBeforeDuplicate(b, c, j);
    } else {
      var n := |answers| - 1;
      PursuedBefore(b, c, answers, n);
      DuplicateIdsNeverEnd(b, c, answers[..n], i, j);
      RunKeepsInv(b, c, answers[..n]);
      StaysBeforeDuplicate(b, Run(b, c, answers[..n]), answers[n], i, j);
    }
  }

  /** When every account is pursued and nothing raises, a long enough run is over exactly if no id is repeated. */
  lemma {:induction false} RunEndsIffDistinct(b: Batch, c: Config, answers: seq<Answer>)
    requires Initial(c) && b.accounts != [] && AllPursued(b, c, answers) && |answers| >= 14 * |b.accounts|
    ensures Run(b, c, answers).node == End <==> Distinct(b.accounts)
  {
    hide Run, Step, AllPursued;
    if Distinct(b.accounts) {
      RunTerminates(b, c, answers);
    } else {
      var i, j :| 0 <= i < j < |b.accounts| && b.accounts[i].id == b.accounts[j].id;
      DuplicateIdsNeverEnd(b, c, answers, i, j);
    }
  }

  // ----- When all answers are favourable -----

  predicate Promising(score: Option<AccountScore>) {
    && score.Some? && score.value.broken.None? && score.value.overall >= 60 && score.value.confidence >= 0.50
  }

  predicate Reachable(ranked: seq<RankedContact>) { ranked != [] && ranked[0].relevance >= 70 }

  predicate Pained(pains: seq<Hypothesis>) { exists h :: h in pains && h.confidence >= 0.50 }

  /** The answer of no step stands in the way of any account of the batch. */
  ghost predicate Favourable(b: Batch, a: Answer) {
    && !a.raises
    && (forall account :: account in b.accounts ==>
          Promising(AccountScoreOf(account.facts, b.criteria, [], a.scorePain(account, []))))
    && (forall account, pains :: account in b.accounts ==> Reachable(a.rank(account, b.contacts, pains)))
    && (forall account, signals :: account in b.accounts ==> Pained(a.infer(account, signals)))
  }

  ghost predicate OnCourse(b: Batch, c: Config) {
    var work := c.state.work;
    && (c.node != SelectNextAccount ==> c.state.current.Some? && c.state.current.value in b.accounts)
    && (Early(c.node) && c.node != IcpScorer ==> Promising(work.score))
    && (c.node == PainInferrer || c.node == ValuePropMatcher || c.node == ActionRecommender ==> Reachable(work.ranked))
    && (c.node == ValuePropMatcher || c.node == ActionRecommender ==> Pained(work.pains))
  }

  lemma PursuedOnCourse(work: Work)
    requires Promising(work.score) && Reachable(work.ranked) && Pained(work.pains)
    ensures RecommendFor(work).action == PursueNow
  {
    hide Recommend;
    PursuedIff(work.score.value, Some(work.ranked[0]), work.pains);
  }

  lemma PromisingIsUnbroken(score: Option<AccountScore>)
    requires Promising(score)
    ensures score.Some? && score.value.broken.None?
  {
  }

  lemma AskingStaysOnCourse(b: Batch, c: Config, a: Answer)
    requires OnCourse(b, c) && Inv(b, c) && Favourable(b, a) && b.contacts != []
    requires Early(c.node) && c.node != ActionRecommender
    ensures OnCourse(b, Step(b, c, a)) && !Raises(b, c, a)
  {
    hide IndexOf, CurrentIndex, AccountScoreOf, Promising, Reachable, Pained, RecommendFor, ScoredBlind;
    var account := c.state.current.value;
    assert Promising(AccountScoreOf(account.facts, b.criteria, [], a.scorePain(account, [])));
    PromisingIsUnbroken(AccountScoreOf(account.facts, b.criteria, [], a.scorePain(account, [])));
    assert Reachable(a.rank(account, b.contacts, c.state.work.pains));
    assert Pained(a.infer(account, c.state.work.signals));
  }

  lemma RestStaysOnCourse(b: Batch, c: Config, a: Answer)
    requires OnCourse(b, c) && Placed(b, c) && !a.raises
    requires !Early(c.node) || c.node == ActionRecommender
    ensures OnCourse(b, Step(b, c, a)) && !Raises(b, c, a)
  {
    hide IndexOf, Promising, Reachable, Pained, RecommendFor, Decide, ViewOf, Review, BuildBrief, WriteDrafts;
    if c.node == SelectNextAccount {
      SelectorTakesNext(b, c, a);
    } else {
      OthersKeepCurrent(b, c, a);
    }
    hide CurrentIndex, Distinct;
  }

  lemma InitiallyOnCourse(b: Batch, c: Config)
    requires Initial(c)
    ensures OnCourse(b, c)
  {
  }

  lemma FavourableStep(b: Batch, c: Config, a: Answer)
    requires OnCourse(b, c) && Inv(b, c) && Placed(b, c) && Favourable(b, a) && b.contacts != []
    ensures OnCourse(b, Step(b, c, a)) && Keen(b, c, a)
  {
    hide Step, Inv, Placed, Raises, RecommendFor;
    if Early(c.node) && c.node != ActionRecommender {
      AskingStaysOnCourse(b, c, a);
    } else {
      RestStaysOnCourse(b, c, a);
      if c.node == ActionRecommender {
        PursuedOnCourse(c.state.work);
      }
    }
  }

  lemma {:induction false} FavourableRun(b: Batch, c: Config, answers: seq<Answer>)
    requires Initial(c) && b.accounts != [] && Distinct(b.accounts) && b.contacts != []
    requires forall a :: a in answers ==> Favourable(b, a)
    ensures OnCourse(b, Run(b, c, answers)) && AllPursued(b, c, answers)
  {
    hide Step, OnCourse, Favourable, Inv, Placed, Keen;
    if answers == [] {
      InitiallyOnCourse(b, c);
    } else {
      var n := |answers| - 1;
      var before := Run(b, c, answers[..n]);
      assert answers[n] in answers;
      FavourableRun(b, c, answers[..n]);
      RunKeepsInv(b, c, answers[..n]);
      RunKeepsPlaced(b, c, answers[..n]);
      FavourableStep(b, before, answers[n]);
      forall k | 0 <= k < |answers|
        ensures Keen(b, Run(b, c, answers[..k]), answers[k])
      {
        if k < n {
          assert answers[..n][..k] == answers[..k];
          assert Keen(b, Run(b, c, answers[..n][..k]), answers[..n][k]);
        }
      }
    }
  }

  lemma {:induction false} PursuedDecisions(b: Batch, c: Config, answers: seq<Answer>)
    requires AllPursued(b, c, answers)
    ensures forall i :: 0 <= i < |Decisions(b, c, answers)| ==> Decisions(b, c, answers)[i].action == PursueNow
    ensures NothingRaises(b, c, answers)
  {
    hide Run, RecommendFor, Raises;
    if answers != [] {
      var n := |answers| - 1;
      PursuedBefore(b, c, answers, n);
      PursuedDecisions(b, c, answers[..n]);
    }
  }

  /**
   * The graph does its work: when no rule is broken and every step's answers are good enough, every
   * account of the batch is written to the CRM, once and in order, and the run is over after 14 n nodes.
   */
  lemma {:induction false} EveryFavouredAccountIsWritten(b: Batch, c: Config, answers: seq<Answer>)
    requires Initial(c) && b.accounts != [] && Distinct(b.accounts) && b.contacts != []
    requires forall a :: a in answers ==> Favourable(b, a)
    requires |answers| >= 14 * |b.accounts|
    ensures Run(b, c, answers).node == End
    ensures |Written(b, c, answers)| == |b.accounts|
    ensures forall i :: 0 <= i < |b.accounts| ==> Written(b, c, answers)[i] == b.accounts[i].id
  {
    hide Run, Favourable, Decisions, Written, AllPursued, NothingRaises, Distinct;
    FavourableRun(b, c, answers);
    PursuedDecisions(b, c, answers);
    RunTerminates(b, c, answers);
    WrittenIsPursuedPrefix(b, c, answers);
  }

  /** Such answers exist, for any number of accounts. */
  lemma FavourableAnswersExist(b: Batch) returns (a: Answer)
    requires b.criteria == AROUND && forall account :: account in b.accounts ==> account.facts == BEST
    ensures Favourable(b, a)
  {
    PursuitIsReachable();
    a := Answer(
      false, (account, signals) => SURE, account => [], (account, contacts, pains) => [RankedContact("c", 70)],
      (account, signals) => [Hypothesis(80, 0.5)], (account, pains, ranked) => [], input => Some([]),
      Guards(Passes, Passes, Passes, Done, true, Done), (account, contacts, work) => []);
    var score := AccountScoreOf(BEST, AROUND, [], SURE);
    hide AccountScoreOf, Recommend;
    PursuedIff(score.value, Some(RankedContact("c", 70)), [Hypothesis(80, 0.5)]);
    assert Hypothesis(80, 0.5) in [Hypothesis(80, 0.5)];
    assert Promising(score) && Reachable([RankedContact("c", 70)]) && Pained([Hypothesis(80, 0.5)]);
  }
}
