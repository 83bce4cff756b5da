/** The outbound graph as a step machine: src/agent/graph.py and the state updates of its nodes. */
module Outbound {
  import opened Options
  import opened Accounts

  datatype Enrichment = Enrichment(summary: string)
  datatype Draft = Draft(subject: string, body: string)
  datatype Message = Message(id: string, contactId: string, subject: string, body: string, stage: int)
  datatype Intent = Positive | Negative | Neutral | Unsubscribe

  /** The state keys that no node of the graph writes. */
  datatype Batch = Batch(accounts: seq<Account>, contacts: seq<Contact>, maxStages: int)

  datatype State = State(
    current: Option<Account>, contact: Option<Contact>, enrichment: Option<Enrichment>, draft: Option<Draft>,
    approval: Option<string>, sent: seq<Message>, reply: Option<Intent>, stage: int,
    error: Option<string>, shouldContinue: bool)

  datatype Node = AccountSelector | Researcher | EnrichmentRetry | Personaliser | ApprovalGate | Sender
                | ReplyMonitor | Router | NotifySales | UnsubscribeHandler | MemoryUpdater | End

  datatype Research = Found(enrichment: Enrichment) | Failed(error: string)
  datatype Delivery = Delivered(messageId: string) | Refused

  /** What the outside world answers during one node: each node reads only its own field. */
  datatype Answer = Answer(
    raises: bool, research: Research, draft: Draft, approval: string, delivery: Delivery, reply: Option<Intent>)

  /** `failures` counts the failed attempts of the researcher since the last account was selected. */
  datatype Config = Config(node: Node, state: State, failures: nat)

  const MAX_RETRIES := 3

  // ----- Nodes -----

  /** The earliest contact listed for the account, and none only if none is listed. */
  ghost predicate IsFirstContact(contacts: seq<Contact>, id: string, r: Option<Contact>) {
    match r
    case None => forall i :: 0 <= i < |contacts| ==> contacts[i].accountId != id
    case Some(contact) =>
      exists i :: 0 <= i < |contacts| && contacts[i] == contact && contact.accountId == id
        && forall j :: 0 <= j < i ==> contacts[j].accountId != id
  }

  /** The first contact of the account. */
  function PrimaryContact(contacts: seq<Contact>, id: string): (r: Option<Contact>)
    ensures IsFirstContact(contacts, id, r)
  {
    if contacts == [] then None
    else if contacts[0].accountId == id then Some(contacts[0])
    else
      var r := PrimaryContact(contacts[1..], id);
      assert IsFirstContact(contacts[1..], id, r);
      assert r.Some? ==> forall i :: 0 <= i < |contacts| - 1 ==> contacts[1..][i] == contacts[i + 1];
      r
  }

  function SelectAccount(b: Batch, s: State): State {
    var next := CurrentIndex(b.accounts, s.current) + 1;
    if next >= |b.accounts| then s.(shouldContinue := false)
    else
      var account := b.accounts[next];
      State(Some(account), PrimaryContact(b.contacts, account.id), None, None, None, s.sent, None, 1, None, true)
  }

  function DoResearch(s: State, research: Research): State {
    if s.current.None? then s.(error := Some("No current_account set"))
    else
      match research
      case Found(e) => s.(enrichment := Some(e))
      case Failed(error) => s.(error := Some(error), enrichment := None)
  }

  function RetryEnrichment(s: State): State {
    var count := (match s.current case None => 0 case Some(account) => account.retries) + 1;
    if count > MAX_RETRIES then
      s.(error := Some("Enrichment failed after 3 retries"), enrichment := None, shouldContinue := false)
    else
      s.(error := None, enrichment := None,
         current := match s.current case None => None case Some(account) => Some(account.(retries := count)))
  }

  function Personalise(s: State, draft: Draft): State {
    if s.current.None? then s.(error := Some("No current_account set")) else s.(draft := Some(draft))
  }

  function AskApproval(s: State, status: string): State {
    if s.current.None? then s.(approval := Some("rejected"), error := Some("No current_account set"))
    else if s.draft.None? then s.(approval := Some("rejected"), error := Some("No draft email to approve"))
    else s.(approval := Some(status))
  }

  function Send(s: State, delivery: Delivery): State {
    if s.current.None? then s.(error := Some("No current_account set"))
    else if s.draft.None? || s.contact.None? then s.(error := Some("Missing draft or contact for sending"))
    else
      match delivery
      case Refused => s.(error := Some("Email send failed"))
      case Delivered(id) =>
        s.(sent := s.sent + [Message(id, s.contact.value.id, s.draft.value.subject, s.draft.value.body, s.stage)])
  }

  function MonitorReply(s: State, reply: Option<Intent>): State {
    if s.current.None? || s.contact.None? || reply.None? then s else s.(reply := reply)
  }

  predicate Terminal(reply: Option<Intent>) {
    reply.Some? && reply.value != Neutral
  }

  function Route(b: Batch, s: State): State {
    if Terminal(s.reply) then s.(shouldContinue := false)
    else if s.stage < b.maxStages then s.(shouldContinue := true, stage := s.stage + 1, reply := None)
    else s.(shouldContinue := false)
  }

  function UpdateMemory(s: State): State {
    s.(contact := None, enrichment := None, draft := None, approval := None, reply := None, error := None,
       shouldContinue := true)
  }

  function Execute(b: Batch, node: Node, s: State, a: Answer): State {
    match node
    case AccountSelector => SelectAccount(b, s)
    case Researcher => DoResearch(s, a.research)
    case EnrichmentRetry => RetryEnrichment(s)
    case Personaliser => Personalise(s, a.draft)
    case ApprovalGate => AskApproval(s, a.approval)
    case Sender => Send(s, a.delivery)
    case ReplyMonitor => MonitorReply(s, a.reply)
    case Router => Route(b, s)
    case UnsubscribeHandler => s.(shouldContinue := false)
    case MemoryUpdater => UpdateMemory(s)
    case _ => s
  }

  // ----- Edges -----

  function AfterResearcher(s: State): Node {
    if s.error.Some? && s.error.value != "" && s.enrichment.None? then EnrichmentRetry else Personaliser
  }

  function AfterRouter(b: Batch, s: State): Node {
    if s.reply == Some(Positive) then NotifySales
    else if s.reply == Some(Unsubscribe) then UnsubscribeHandler
    else if s.stage < b.maxStages && s.shouldContinue then Personaliser
    else MemoryUpdater
  }

  function AfterMemoryUpdater(b: Batch, s: State): Node {
    if s.current.Some? && b.accounts != [] && CurrentIndex(b.accounts, s.current) < |b.accounts| - 1
    then AccountSelector else End
  }

  function Follow(b: Batch, node: Node, s: State): Node {
    match node
    case AccountSelector => Researcher
    case Researcher => AfterResearcher(s)
    case EnrichmentRetry => Researcher
    case Personaliser => ApprovalGate
    case ApprovalGate => if s.approval == Some("approved") then Sender else End
    case Sender => ReplyMonitor
    case ReplyMonitor => Router
    case Router => AfterRouter(b, s)
    case NotifySales => MemoryUpdater
    case UnsubscribeHandler => MemoryUpdater
    case MemoryUpdater => AfterMemoryUpdater(b, s)
    case End => End
  }

  function Step(b: Batch, c: Config, a: Answer): Config {
    if c.node == End || a.raises then c.(node := End)
    else
      var s := Execute(b, c.node, c.state, a);
      Config(Follow(b, c.node, s), s,
             if c.node == AccountSelector then 0
             else if c.node == Researcher && a.research.Failed? then c.failures + 1
             else c.failures)
  }

  function Run(b: Batch, c: Config, answers: seq<Answer>): Config {
    if answers == [] then c
    else Step(b, Run(b, c, answers[..|answers| - 1]), answers[|answers| - 1])
  }

  /** A run starts at the selector; whatever else the state holds, no account is current. */
  predicate Initial(c: Config) {
    c.node == AccountSelector && c.state.current.None? && c.failures == 0
  }

  // ----- Invariant -----

  predicate BeforeSend(node: Node) {
    node == Researcher || node == EnrichmentRetry || node == Personaliser || node == ApprovalGate || node == Sender
  }

  predicate InSequence(node: Node) {
    node == Personaliser || node == ApprovalGate || node == Sender || node == ReplyMonitor || node == Router
  }

  /** What holds of any list of accounts while an account is current. */
  ghost predicate Local(b: Batch, c: Config) {
    var s := c.state;
    && (c.node == AccountSelector ==> s.current.None? || CurrentIndex(b.accounts, s.current) < |b.accounts| - 1)
    && (s.current.Some? ==>
          && (BeforeSend(c.node) || c.node == ReplyMonitor ==> s.reply.None?)
          && (c.node == Researcher || c.node == EnrichmentRetry ==> s.stage == 1)
          && (InSequence(c.node) ==> s.stage == 1 || 1 < s.stage < b.maxStages)
          && (BeforeSend(c.node) || InSequence(c.node) ==>
                s.contact == PrimaryContact(b.contacts, s.current.value.id)))
    && (c.node == Sender ==> s.current.Some? && s.draft.Some?)
  }

  /** Moreover, with distinct ids the run stands at the account that the search finds. */
  ghost predicate Inv(b: Batch, c: Config) {
    var s := c.state;
    var i := CurrentIndex(b.accounts, s.current);
    && Local(b, c)
    && b.accounts != [] && Distinct(b.accounts)
    && (c.node == AccountSelector ==> i < |b.accounts| - 1 && (s.current.Some? ==> i >= 0))
    && (c.node != AccountSelector && c.node != End ==> s.current.Some? && i >= 0)
  }

  /** Only the selector changes which account is current. */
  lemma OthersKeepIndex(b: Batch, c: Config, a: Answer)
    requires c.node != AccountSelector
    ensures CurrentIndex(b.accounts, Step(b, c, a).state.current) == CurrentIndex(b.accounts, c.state.current)
  {
    hide IndexOf, PrimaryContact;
  }

  /** The selector moves to the next account of the list and starts its sequence. */
  lemma SelectorTakesNext(b: Batch, c: Config, a: Answer)
    requires Inv(b, c) && c.node == AccountSelector && !a.raises
    ensures var next := CurrentIndex(b.accounts, c.state.current) + 1;
      && 0 <= next < |b.accounts| && CurrentIndex(b.accounts, Step(b, c, a).state.current) == next
      && Step(b, c, a).node == Researcher && Step(b, c, a).failures == 0
      && var s := Step(b, c, a).state;
      && s.current == Some(b.accounts[next]) && s.contact == PrimaryContact(b.contacts, b.accounts[next].id)
      && IsFirstContact(b.contacts, b.accounts[next].id, s.contact)
      && s.enrichment == None && s.draft == None && s.approval == None && s.reply == None && s.error == None
      && s.stage == 1 && s.sent == c.state.sent && s.shouldContinue
  {
    hide PrimaryContact;
  }

  /** Between the selector and the router the stage stands still, and only the monitor finds replies. */
  lemma OthersKeepStage(b: Batch, c: Config, a: Answer)
    requires c.node != Router && (c.node == AccountSelector ==> a.raises)
    ensures var s := Step(b, c, a).state;
      && s.stage == c.state.stage
      && (c.node != ReplyMonitor && c.node != MemoryUpdater ==> s.reply == c.state.reply)
  {
    hide PrimaryContact, IndexOf, CurrentIndex;
  }

  /** Where the nodes other than selector and router lead. */
  lemma OthersEdge(b: Batch, c: Config, a: Answer)
    requires c.node != Router && c.node != AccountSelector
    ensures var d := Step(b, c, a);
      d.node == End ||
      match c.node
      case End => false
      case Researcher =>
        d.node == Personaliser
        || (d.node == EnrichmentRetry && (c.state.current.Some? ==> d.failures == c.failures + 1))
      case EnrichmentRetry => d.node == Researcher && d.failures == c.failures
      case Personaliser => d.node == ApprovalGate
      case ApprovalGate => d.node == Sender
      case Sender => d.node == ReplyMonitor
      case ReplyMonitor => d.node == Router
      case MemoryUpdater => d.node == AccountSelector && CurrentIndex(b.accounts, d.state.current) < |b.accounts| - 1
      case _ => d.node == MemoryUpdater
  {
    hide IndexOf, PrimaryContact, CurrentIndex;
  }

  /** Up to the memory updater the contact stays, and the current account but for its retry counter. */
  lemma OthersKeepContact(b: Batch, c: Config, a: Answer)
    requires c.node != AccountSelector && c.node != MemoryUpdater
    ensures var s := Step(b, c, a).state;
      && s.contact == c.state.contact && s.current.Some? == c.state.current.Some?
      && (s.current.Some? ==> s.current.value.id == c.state.current.value.id)
  {
    hide IndexOf, PrimaryContact, CurrentIndex;
  }

  lemma SelectorKeepsLocal(b: Batch, c: Config, a: Answer)
    requires Local(b, c) && c.node == AccountSelector
    ensures Local(b, Step(b, c, a))
  {
    CurrentIndexAtLeast(b.accounts, c.state.current);
    hide PrimaryContact, IndexOf, CurrentIndex;
  }

  lemma RouterKeepsLocal(b: Batch, c: Config, a: Answer)
    requires Local(b, c) && c.node == Router
    ensures Local(b, Step(b, c, a))
  {
    hide PrimaryContact, IndexOf, CurrentIndex;
  }

  /** The gate lets nothing pass without an account and a draft. */
  lemma GateNeedsDraft(b: Batch, c: Config, a: Answer)
    requires c.node == ApprovalGate && Step(b, c, a).node == Sender
    ensures Step(b, c, a).state.current.Some? && Step(b, c, a).state.draft.Some?
  {
    hide PrimaryContact, IndexOf, CurrentIndex;
  }

  lemma OthersKeepLocal(b: Batch, c: Config, a: Answer)
    requires Local(b, c) && c.node != AccountSelector && c.node != Router
    ensures Local(b, Step(b, c, a))
  {
    hide Step, PrimaryContact, IndexOf, CurrentIndex;
    OthersEdge(b, c, a);
    OthersKeepStage(b, c, a);
    if c.node != MemoryUpdater {
      OthersKeepContact(b, c, a);
    }
    if c.node == ApprovalGate && Step(b, c, a).node == Sender {
      GateNeedsDraft(b, c, a);
    }
  }

  lemma StepKeepsLocal(b: Batch, c: Config, a: Answer)
    requires Local(b, c)
    ensures Local(b, Step(b, c, a))
  {
    hide Local, Step;
    if c.node == AccountSelector {
      SelectorKeepsLocal(b, c, a);
    } else if c.node == Router {
      RouterKeepsLocal(b, c, a);
    } else {
      OthersKeepLocal(b, c, a);
    }
  }

  lemma InitiallyLocal(b: Batch, c: Config)
    requires Initial(c)
    ensures Local(b, c)
  {
  }

  lemma {:induction false} RunKeepsLocal(b: Batch, c: Config, answers: seq<Answer>)
    requires Initial(c)
    ensures Local(b, Run(b, c, answers))
  {
    hide Local, Step;
    if answers == [] {
      InitiallyLocal(b, c);
    } else {
      RunKeepsLocal(b, c, answers[..|answers| - 1]);
      StepKeepsLocal(b, Run(b, c, answers[..|answers| - 1]), answers[|answers| - 1]);
    }
  }

  lemma RouterEdge(b: Batch, c: Config, a: Answer)
    requires c.node == Router
    ensures var d := Step(b, c, a);
      || d.node == End || d.node == NotifySales || d.node == UnsubscribeHandler || d.node == MemoryUpdater
      || (d.node == Personaliser && d.state.stage == c.state.stage + 1 < b.maxStages)
  {
    hide IndexOf, CurrentIndex;
  }

  lemma StepKeepsInv(b: Batch, c: Config, a: Answer)
    requires Inv(b, c)
    ensures Inv(b, Step(b, c, a))
  {
    StepKeepsLocal(b, c, a);
    if c.node == AccountSelector {
      if !a.raises {
        SelectorTakesNext(b, c, a);
      }
    } else {
      OthersKeepIndex(b, c, a);
      if c.node == Router {
        RouterEdge(b, c, a);
      } else {
        OthersEdge(b, c, a);
      }
      if c.node != MemoryUpdater {
        OthersKeepContact(b, c, a);
      }
    }
    hide Step, Local, PrimaryContact, IndexOf, Distinct, CurrentIndex;
  }

  lemma InitialInv(b: Batch, c: Config)
    requires Initial(c) && b.accounts != [] && Distinct(b.accounts)
    ensures Inv(b, c)
  {
  }

  lemma {:induction false} RunKeepsInv(b: Batch, c: Config, answers: seq<Answer>)
    requires Initial(c) && b.accounts != [] && Distinct(b.accounts)
    ensures Inv(b, Run(b, c, answers))
  {
    hide Inv, Step;
    if answers == [] {
      InitialInv(b, c);
    } else {
      RunKeepsInv(b, c, answers[..|answers| - 1]);
      StepKeepsInv(b, Run(b, c, answers[..|answers| - 1]), answers[|answers| - 1]);
    }
  }

  lemma RunStep(b: Batch, c: Config, answers: seq<Answer>, k: nat)
    requires k < |answers|
    ensures Run(b, c, answers[..k + 1]) == Step(b, Run(b, c, answers[..k]), answers[k])
  {
    assert answers[..k + 1][..k] == answers[..k];
  }

  // ----- Approval before every send -----

  /** The contact written to in this state is the first contact of its account, and the text the draft at hand. */
  predicate Carries(b: Batch, s: State, m: Message) {
    && s.current.Some? && s.draft.Some?
    && var contact := PrimaryContact(b.contacts, s.current.value.id);
    && contact.Some? && m.contactId == contact.value.id
    && m.subject == s.draft.value.subject && m.body == s.draft.value.body && m.stage == s.stage
  }

  predicate Sends(b: Batch, c: Config, a: Answer) {
    Step(b, c, a).state.sent != c.state.sent
  }

  /** Messages are only appended, one at a time and by the sender. */
  lemma SendAppends(b: Batch, c: Config, a: Answer)
    requires Local(b, c) && Sends(b, c, a)
    ensures c.node == Sender
    ensures exists m :: Step(b, c, a).state.sent == c.state.sent + [m] && Carries(b, c.state, m)
  {
    hide PrimaryContact, IndexOf, CurrentIndex;
    var sent := Step(b, c, a).state.sent;
    assert sent == c.state.sent + [sent[|sent| - 1]];
  }

  lemma OnlySenderSends(b: Batch, c: Config, a: Answer)
    requires Sends(b, c, a)
    ensures c.node == Sender
  {
    hide PrimaryContact, IndexOf, CurrentIndex;
  }

  /** The two nodes before a sender are always the personaliser and an approving gate, on the same state. */
  lemma BackFromSender(b: Batch, c: Config, write: Answer, ask: Answer)
    requires c.node != End
    requires Step(b, Step(b, c, write), ask).node == Sender
    ensures c.node == Personaliser && Step(b, c, write).node == ApprovalGate
    ensures ask.approval == "approved"
    ensures var s := Step(b, Step(b, c, write), ask).state;
      s == Step(b, c, write).state.(approval := Some("approved")) && s.draft == Some(write.draft)
  {
    hide IndexOf, PrimaryContact;
  }

  lemma NotEndBefore(b: Batch, c: Config, a: Answer)
    requires Step(b, c, a).node != End
    ensures c.node != End
  {
  }

  lemma SenderIsThird(b: Batch, c: Config, answers: seq<Answer>, k: nat)
    requires Initial(c) && k <= |answers| && Run(b, c, answers[..k]).node == Sender
    ensures k >= 2
  {
    hide IndexOf, PrimaryContact;
    if k == 1 {
      RunStep(b, c, answers, 0);
    }
  }

  /**
   * Whenever a run comes to the sender, of whatever list and even if the step then raises with the mail
   * gone out, the draft at hand is the one that the personaliser wrote two steps earlier and the gate had
   * approved in the step just before, and the contact is the first one of the current account.
   */
  lemma {:induction false} EverySenderStepIsApproved(b: Batch, c: Config, answers: seq<Answer>, k: nat)
    requires Initial(c) && k <= |answers| && Run(b, c, answers[..k]).node == Sender
    ensures k >= 2
    ensures Run(b, c, answers[..k - 2]).node == Personaliser && Run(b, c, answers[..k - 1]).node == ApprovalGate
    ensures answers[k - 1].approval == "approved"
    ensures var s := Run(b, c, answers[..k]).state;
      && s == Run(b, c, answers[..k - 1]).state.(approval := Some("approved"))
      && s.draft == Some(answers[k - 2].draft)
      && s.current.Some? && IsFirstContact(b.contacts, s.current.value.id, s.contact)
  {
    hide Step;
    RunKeepsLocal(b, c, answers[..k]);
    SenderIsThird(b, c, answers, k);
    RunStep(b, c, answers, k - 1);
    RunStep(b, c, answers, k - 2);
    NotEndBefore(b, Run(b, c, answers[..k - 1]), answers[k - 1]);
    NotEndBefore(b, Run(b, c, answers[..k - 2]), answers[k - 2]);
    BackFromSender(b, Run(b, c, answers[..k - 2]), answers[k - 2], answers[k - 1]);
    hide Run, PrimaryContact, CurrentIndex;
  }

  /** In particular every message ever recorded carries that draft, for that contact. */
  lemma {:induction false} EveryMessageWasApproved(b: Batch, c: Config, answers: seq<Answer>, k: nat)
    requires Initial(c) && k < |answers| && Sends(b, Run(b, c, answers[..k]), answers[k])
    ensures k >= 2
    ensures Run(b, c, answers[..k - 2]).node == Personaliser && Run(b, c, answers[..k - 1]).node == ApprovalGate
    ensures answers[k - 1].approval == "approved"
    ensures var s := Run(b, c, answers[..k]).state;
      && s == Run(b, c, answers[..k - 1]).state.(approval := Some("approved"))
      && s.draft == Some(answers[k - 2].draft)
      && exists m :: Run(b, c, answers[..k + 1]).state.sent == s.sent + [m] && Carries(b, s, m)
  {
    hide Step, Local, Sends;
    RunStep(b, c, answers, k);
    RunKeepsLocal(b, c, answers[..k]);
    SendAppends(b, Run(b, c, answers[..k]), answers[k]);
    EverySenderStepIsApproved(b, c, answers, k);
  }

  // ----- What a sequence rests on -----

  /** The answer of the last researcher step since an account was selected. */
  function LastResearch(b: Batch, c: Config, answers: seq<Answer>): Option<Research> {
    if answers == [] then None
    else
      var n := |answers| - 1;
      var before := Run(b, c, answers[..n]);
      if before.node == AccountSelector then None
      else if before.node == Researcher && !answers[n].raises then Some(answers[n].research)
      else LastResearch(b, c, answers[..n])
  }

  /** The enrichment is the one just found; there is none before that, or when the error was empty. */
  predicate RestsOn(c: Config, last: Option<Research>) {
    c.state.current.Some? ==>
      && (c.node == Researcher || c.node == EnrichmentRetry ==> c.state.enrichment.None?)
      && (InSequence(c.node) ==>
            && last.Some?
            && match last.value
               case Found(e) => c.state.enrichment == Some(e)
               case Failed(error) => error == "" && c.state.enrichment.None?)
  }

  lemma SelectorClears(b: Batch, c: Config, a: Answer)
    requires Local(b, c) && c.node == AccountSelector
    ensures RestsOn(Step(b, c, a), None)
  {
    hide IndexOf, PrimaryContact, CurrentIndex;
  }

  lemma ResearchIsStored(b: Batch, c: Config, a: Answer)
    requires RestsOn(c, None) && c.node == Researcher
    ensures RestsOn(Step(b, c, a), Some(a.research))
  {
  }

  lemma OthersKeepResearch(b: Batch, c: Config, a: Answer, last: Option<Research>)
    requires RestsOn(c, last) && c.node != AccountSelector && c.node != Researcher
    ensures RestsOn(Step(b, c, a), last)
  {
    hide IndexOf, PrimaryContact, CurrentIndex;
  }

  lemma RaisingEnds(b: Batch, c: Config, a: Answer)
    requires a.raises
    ensures Step(b, c, a).node == End
  {
  }

  /**
   * On every run of any list, all that is written, approved, sent and answered for an account rests on the
   * last answer of the researcher since its selection, through all stages of its sequence.
   */
  lemma {:induction false} SequenceRestsOnOwnResearch(b: Batch, c: Config, answers: seq<Answer>)
    requires Initial(c)
    ensures RestsOn(Run(b, c, answers), LastResearch(b, c, answers))
  {
    hide Step;
    if answers != [] {
      var n := |answers| - 1;
      var before := Run(b, c, answers[..n]);
      SequenceRestsOnOwnResearch(b, c, answers[..n]);
      RunKeepsLocal(b, c, answers[..n]);
      hide Local;
      if before.node == AccountSelector {
        SelectorClears(b, before, answers[n]);
      } else if answers[n].raises {
        RaisingEnds(b, before, answers[n]);
      } else if before.node == Researcher {
        ResearchIsStored(b, before, answers[n]);
      } else {
        OthersKeepResearch(b, before, answers[n], LastResearch(b, c, answers[..n]));
      }
    }
  }

  /** A retry starts the next attempt without the error, except that the fourth and later ones report giving up. */
  lemma RetryClearsError(b: Batch, c: Config, a: Answer)
    requires c.node == EnrichmentRetry && !a.raises && c.state.current.Some?
    ensures var s := Step(b, c, a).state;
      if c.state.current.value.retries < 3 then s.error == None && s.shouldContinue == c.state.shouldContinue
      else s.error == Some("Enrichment failed after 3 retries") && !s.shouldContinue
  {
  }

  /** The stored counter after so many failures: it stops at 3, or where it stood if that is more. */
  function Capped(retries: int, failures: int): int {
    if retries >= 3 then retries else if retries + failures <= 3 then retries + failures else 3
  }

  predicate CountsFor(account: Account, c: Config) {
    && c.state.current.Some?
    && var retries := c.state.current.value.retries;
    && c.state.current.value == account.(retries := retries)
    && (c.node == Researcher ==> retries == Capped(account.retries, c.failures))
    && (c.node == EnrichmentRetry ==> c.failures >= 1 && retries == Capped(account.retries, c.failures - 1))
  }

  /** The current account is one of the list, but for the counter. */
  ghost predicate Counted(b: Batch, c: Config) {
    c.state.current.Some? ==> exists account :: account in b.accounts && CountsFor(account, c)
  }

  lemma OthersCount(b: Batch, c: Config, a: Answer, account: Account)
    requires CountsFor(account, c) && c.node != AccountSelector
    ensures CountsFor(account, Step(b, c, a))
  {
    hide IndexOf, PrimaryContact, CurrentIndex;
  }

  lemma OthersKeepNone(b: Batch, c: Config, a: Answer)
    requires c.node != AccountSelector && c.state.current.None?
    ensures Step(b, c, a).state.current.None?
  {
    hide IndexOf, PrimaryContact, CurrentIndex;
  }

  lemma SelectorCounts(b: Batch, c: Config, a: Answer)
    requires Counted(b, c) && Local(b, c) && c.node == AccountSelector
    ensures Counted(b, Step(b, c, a))
  {
    var next := CurrentIndex(b.accounts, c.state.current) + 1;
    CurrentIndexAtLeast(b.accounts, c.state.current);
    if !a.raises && next < |b.accounts| {
      assert CountsFor(b.accounts[next], Step(b, c, a));
    } else if c.state.current.Some? {
      var account :| account in b.accounts && CountsFor(account, c);
      assert CountsFor(account, Step(b, c, a));
    }
    hide IndexOf, PrimaryContact, CurrentIndex;
  }

  /**
   * On every run of any list the account at hand is an account of the list, but for its retry counter, and
   * that has counted each failed attempt since the selection, up to 3.
   */
  lemma {:induction false} FailuresAreCounted(b: Batch, c: Config, answers: seq<Answer>)
    requires Initial(c)
    ensures Counted(b, Run(b, c, answers))
  {
    hide Step, CountsFor;
    if answers != [] {
      var n := |answers| - 1;
      var before := Run(b, c, answers[..n]);
      FailuresAreCounted(b, c, answers[..n]);
      RunKeepsLocal(b, c, answers[..n]);
      hide Local;
      if before.node == AccountSelector {
        SelectorCounts(b, before, answers[n]);
      } else if before.state.current.None? {
        OthersKeepNone(b, before, answers[n]);
      } else {
        var account :| account in b.accounts && CountsFor(account, before);
        OthersCount(b, before, answers[n], account);
      }
    }
  }

  /** The router stops on a terminal reply or at the last stage, leaving both as they are; else it starts the next. */
  lemma RouterStopsIff(b: Batch, c: Config, a: Answer)
    requires c.node == Router && !a.raises
    ensures var s, t := c.state, Step(b, c, a).state;
      var last := s.stage >= b.maxStages || (s.reply.Some? && s.reply.value != Neutral);
      t == s.(shouldContinue := !last, stage := if last then s.stage else s.stage + 1,
              reply := if last then s.reply else None)
  {
    hide IndexOf, PrimaryContact, CurrentIndex;
  }

  /** What is over is forgotten: only the account, the stage and the messages survive the memory updater. */
  predicate Forgotten(s: State) {
    && s.contact == None && s.enrichment == None && s.draft == None && s.approval == None && s.reply == None
    && s.error == None && s.shouldContinue
  }

  lemma MemoryIsCleared(b: Batch, c: Config, a: Answer)
    requires c.node == MemoryUpdater && !a.raises
    ensures var s, t := c.state, Step(b, c, a).state;
      Forgotten(t) && t.current == s.current && t.stage == s.stage && t.sent == s.sent
  {
    hide IndexOf, PrimaryContact, CurrentIndex;
  }

  lemma OnlyMemoryUpdaterGoesBack(b: Batch, c: Config, a: Answer)
    requires Step(b, c, a).node == AccountSelector
    ensures c.node == MemoryUpdater && !a.raises
  {
    hide IndexOf, PrimaryContact, CurrentIndex;
  }

  /** No run, of any list, comes back to the selector with anything of the last account's sequence left. */
  lemma {:induction false} NothingIsLeftAtSelector(b: Batch, c: Config, answers: seq<Answer>)
    requires answers != [] && Run(b, c, answers).node == AccountSelector
    ensures Forgotten(Run(b, c, answers).state)
  {
    hide Step;
    var n := |answers| - 1;
    OnlyMemoryUpdaterGoesBack(b, Run(b, c, answers[..n]), answers[n]);
    MemoryIsCleared(b, Run(b, c, answers[..n]), answers[n]);
  }

  // ----- Order of the sends -----

  /** Where a run stands: the account, whether that account is done, and twice the stage, plus one once sent. */
  datatype Place = Place(index: int, closed: bool, turn: int)

  predicate Closed(c: Config) {
    || Terminal(c.state.reply)
    || c.node == NotifySales || c.node == UnsubscribeHandler || c.node == MemoryUpdater
    || c.node == AccountSelector || c.node == End
  }

  function PlaceOf(b: Batch, c: Config): Place {
    Place(CurrentIndex(b.accounts, c.state.current), Closed(c),
          if Closed(c) then 0
          else if c.node == ReplyMonitor || c.node == Router then 2 * c.state.stage + 1
          else 2 * c.state.stage)
  }

  predicate AtMost(p: Place, q: Place) {
    p.index < q.index
    || (p.index == q.index && ((!p.closed && q.closed) || (p.closed == q.closed && p.turn <= q.turn)))
  }

  lemma RouterAdvances(b: Batch, c: Config, a: Answer)
    requires Inv(b, c) && c.node == Router
    ensures AtMost(PlaceOf(b, c), PlaceOf(b, Step(b, c, a)))
  {
    OthersKeepIndex(b, c, a);
    hide PrimaryContact, IndexOf, CurrentIndex, Distinct;
  }

  lemma OthersAdvance(b: Batch, c: Config, a: Answer)
    requires Inv(b, c) && c.node != Router && (c.node == AccountSelector ==> a.raises)
    ensures AtMost(PlaceOf(b, c), PlaceOf(b, Step(b, c, a)))
    ensures c.node == Sender ==> PlaceOf(b, c) != PlaceOf(b, Step(b, c, a))
  {
    if c.node != AccountSelector {
      OthersKeepIndex(b, c, a);
    }
    OthersKeepStage(b, c, a);
    hide PrimaryContact, IndexOf, CurrentIndex, Distinct, Execute, AfterRouter;
  }

  lemma StepAdvances(b: Batch, c: Config, a: Answer)
    requires Inv(b, c)
    ensures AtMost(PlaceOf(b, c), PlaceOf(b, Step(b, c, a)))
    ensures c.node == Sender ==> PlaceOf(b, c) != PlaceOf(b, Step(b, c, a))
  {
    if c.node == AccountSelector && !a.raises {
      SelectorTakesNext(b, c, a);
    } else if c.node == Router {
      RouterAdvances(b, c, a);
    } else {
      OthersAdvance(b, c, a);
    }
    hide Step, PrimaryContact, IndexOf, CurrentIndex, Inv;
  }

  lemma {:induction false} RunAdvances(b: Batch, c: Config, answers: seq<Answer>, j: nat, k: nat)
    requires Initial(c) && b.accounts != [] && Distinct(b.accounts)
    requires j <= k <= |answers|
    ensures AtMost(PlaceOf(b, Run(b, c, answers[..j])), PlaceOf(b, Run(b, c, answers[..k])))
    decreases k
  {
    hide Inv, Step, PlaceOf;
    if j < k {
      RunAdvances(b, c, answers, j, k - 1);
      RunStep(b, c, answers, k - 1);
      RunKeepsInv(b, c, answers[..k - 1]);
      StepAdvances(b, Run(b, c, answers[..k - 1]), answers[k - 1]);
    }
  }

  function StageAt(b: Batch, c: Config, answers: seq<Answer>): int { Run(b, c, answers).state.stage }

  function IndexAt(b: Batch, c: Config, answers: seq<Answer>): int {
    CurrentIndex(b.accounts, Run(b, c, answers).state.current)
  }

  /**
   * The sender has its turns in strictly increasing order of account, then of stage; stages start at 1
   * and stay below max_stages unless that is below 2.
   */
  lemma {:induction false} SenderStepsAreInOrder(b: Batch, c: Config, answers: seq<Answer>, j: nat, k: nat)
    requires Initial(c) && b.accounts != [] && Distinct(b.accounts)
    requires j < k <= |answers|
    requires Run(b, c, answers[..j]).node == Sender && Run(b, c, answers[..k]).node == Sender
    ensures || IndexAt(b, c, answers[..j]) < IndexAt(b, c, answers[..k])
            || (IndexAt(b, c, answers[..j]) == IndexAt(b, c, answers[..k])
                && StageAt(b, c, answers[..j]) < StageAt(b, c, answers[..k]))
  {
    var p, q := Run(b, c, answers[..j]), Run(b, c, answers[..k]);
    RunKeepsInv(b, c, answers[..j]);
    RunKeepsInv(b, c, answers[..k]);
    RunStep(b, c, answers, j);
    StepAdvances(b, p, answers[j]);
    RunAdvances(b, c, answers, j + 1, k);
    hide Step, Run, IndexOf, PrimaryContact;
  }

  /** The stages sent, of any list of accounts. */
  lemma {:induction false} SenderStagesAreInRange(b: Batch, c: Config, answers: seq<Answer>)
    requires Initial(c) && Run(b, c, answers).node == Sender
    ensures 1 <= StageAt(b, c, answers)
    ensures if b.maxStages >= 2 then StageAt(b, c, answers) < b.maxStages else StageAt(b, c, answers) == 1
  {
    RunKeepsLocal(b, c, answers);
    hide Run, IndexOf, PrimaryContact;
  }

  /** So the messages recorded are in that order and range. */
  lemma {:induction false} SendsAreInOrder(b: Batch, c: Config, answers: seq<Answer>, j: nat, k: nat)
    requires Initial(c) && b.accounts != [] && Distinct(b.accounts)
    requires j < k < |answers|
    requires Sends(b, Run(b, c, answers[..j]), answers[j]) && Sends(b, Run(b, c, answers[..k]), answers[k])
    ensures || IndexAt(b, c, answers[..j]) < IndexAt(b, c, answers[..k])
            || (IndexAt(b, c, answers[..j]) == IndexAt(b, c, answers[..k])
                && StageAt(b, c, answers[..j]) < StageAt(b, c, answers[..k]))
    ensures 1 <= StageAt(b, c, answers[..k])
    ensures if b.maxStages >= 2 then StageAt(b, c, answers[..k]) < b.maxStages else StageAt(b, c, answers[..k]) == 1
  {
    hide *;
    OnlySenderSends(b, Run(b, c, answers[..j]), answers[j]);
    OnlySenderSends(b, Run(b, c, answers[..k]), answers[k]);
    SenderStepsAreInOrder(b, c, answers, j, k);
    SenderStagesAreInRange(b, c, answers[..k]);
  }

  // ----- Nothing after a terminal reply -----

  predicate RepliesTerminally(b: Batch, c: Config, a: Answer) {
    c.node == ReplyMonitor && Terminal(Step(b, c, a).state.reply)
  }

  ghost predicate ContactsHaveOneAccount(contacts: seq<Contact>) {
    forall x, y :: x in contacts && y in contacts && x.id == y.id ==> x.accountId == y.accountId
  }

  lemma DifferentIndexDifferentAccount(b: Batch, s: State, t: State)
    requires CurrentIndex(b.accounts, s.current) != CurrentIndex(b.accounts, t.current)
    requires s.current.Some? && t.current.Some?
    ensures s.current.value.id != t.current.value.id
  {
  }

  lemma StaysOnAccount(b: Batch, c: Config, a: Answer)
    requires c.node == ReplyMonitor
    ensures Step(b, c, a).state.current == c.state.current
  {
  }

  /**
   * After a positive, negative or unsubscribe reply the sender never again has its turn with that account
   * or that contact, so nothing more goes out to them, recorded or not.
   */
  lemma {:induction false} NothingFollowsATerminalReply(b: Batch, c: Config, answers: seq<Answer>, j: nat, k: nat)
    requires Initial(c) && b.accounts != [] && Distinct(b.accounts) && ContactsHaveOneAccount(b.contacts)
    requires j < k <= |answers|
    requires RepliesTerminally(b, Run(b, c, answers[..j]), answers[j])
    requires Run(b, c, answers[..k]).node == Sender
    ensures var s, t := Run(b, c, answers[..j]).state, Run(b, c, answers[..k]).state;
      && s.current.Some? && t.current.Some? && s.current.value.id != t.current.value.id
      && (s.contact.Some? && t.contact.Some? ==> s.contact.value.id != t.contact.value.id)
  {
    var p, q := Run(b, c, answers[..j]), Run(b, c, answers[..k]);
    RunKeepsInv(b, c, answers[..j]);
    RunKeepsInv(b, c, answers[..k]);
    RunStep(b, c, answers, j);
    var r := Step(b, p, answers[j]);
    assert r == Run(b, c, answers[..j + 1]);
    StaysOnAccount(b, p, answers[j]);
    RunAdvances(b, c, answers, j + 1, k);
    hide Step, Run, IndexOf, PrimaryContact;
    assert CurrentIndex(b.accounts, p.state.current) < CurrentIndex(b.accounts, q.state.current);
    DifferentIndexDifferentAccount(b, p.state, q.state);
  }

  lemma SenderContact(b: Batch, c: Config)
    requires Local(b, c) && c.node == Sender
    ensures c.state.current.Some? && c.state.contact == PrimaryContact(b.contacts, c.state.current.value.id)
  {
  }

  /** In particular no message to them is recorded. */
  lemma {:induction false} NoMessageFollowsATerminalReply(
    b: Batch, c: Config, answers: seq<Answer>, j: nat, k: nat)
    requires Initial(c) && b.accounts != [] && Distinct(b.accounts) && ContactsHaveOneAccount(b.contacts)
    requires j < k < |answers|
    requires RepliesTerminally(b, Run(b, c, answers[..j]), answers[j])
    requires Sends(b, Run(b, c, answers[..k]), answers[k])
    ensures var s, t := Run(b, c, answers[..j]).state, Run(b, c, answers[..k]).state;
      && s.current.Some? && t.current.Some? && s.current.value.id != t.current.value.id
      && exists m :: Run(b, c, answers[..k + 1]).state.sent == t.sent + [m]
           && (s.contact.Some? ==> m.contactId != s.contact.value.id)
  {
    hide Step, Sends, Local, Run, RepliesTerminally, IndexOf, PrimaryContact, CurrentIndex, Distinct;
    hide ContactsHaveOneAccount;
    var q := Run(b, c, answers[..k]);
    RunStep(b, c, answers, k);
    RunKeepsLocal(b, c, answers[..k]);
    SendAppends(b, q, answers[k]);
    NothingFollowsATerminalReply(b, c, answers, j, k);
    SenderContact(b, q);
  }

  /** After a terminal reply, or at the end of what the account is due. */
  predicate Done(c: Config) {
    || c.node == NotifySales || c.node == UnsubscribeHandler || c.node == MemoryUpdater || c.node == End
    || (c.node == Router && Terminal(c.state.reply))
  }

  lemma StaysDone(b: Batch, c: Config, a: Answer)
    requires Done(c)
    ensures Done(Step(b, c, a)) || Step(b, c, a).node == AccountSelector
  {
    hide IndexOf, PrimaryContact, CurrentIndex;
  }

  lemma DoneAfterReply(b: Batch, c: Config, a: Answer)
    requires RepliesTerminally(b, c, a)
    ensures Done(Step(b, c, a))
  {
    hide IndexOf, PrimaryContact, CurrentIndex;
  }

  /** Of any list, repeated ids included: after a terminal reply the sender waits at least for the selector. */
  lemma {:induction false} SelectionComesFirst(b: Batch, c: Config, answers: seq<Answer>, j: nat, k: nat)
    requires j < k <= |answers| && RepliesTerminally(b, Run(b, c, answers[..j]), answers[j])
    ensures Done(Run(b, c, answers[..k])) || exists i :: j < i <= k && Run(b, c, answers[..i]).node == AccountSelector
    decreases k
  {
    hide Run, Step, Done;
    RunStep(b, c, answers, k - 1);
    if k == j + 1 {
      DoneAfterReply(b, Run(b, c, answers[..j]), answers[j]);
    } else {
      SelectionComesFirst(b, c, answers, j, k - 1);
      if Done(Run(b, c, answers[..k - 1])) {
        StaysDone(b, Run(b, c, answers[..k - 1]), answers[k - 1]);
      }
    }
  }

  /**
   * A reply that the monitor finds is handled two nodes later, for the same account and contact: sales
   * hears of a positive one, an unsubscribe is recorded, and a negative one closes the account.
   */
  lemma RepliesAreHandled(b: Batch, c: Config, found: Answer, next: Answer)
    requires c.node == ReplyMonitor && c.state.current.Some? && c.state.contact.Some?
    requires !found.raises && !next.raises && found.reply.Some?
    ensures var d := Step(b, Step(b, c, found), next);
      && d.state.current == c.state.current && d.state.contact == c.state.contact && d.state.sent == c.state.sent
      && (d.node == NotifySales <==> found.reply.value == Positive)
      && (d.node == UnsubscribeHandler <==> found.reply.value == Unsubscribe)
      && (d.node == Personaliser <==> found.reply.value == Neutral && c.state.stage + 1 < b.maxStages)
      && (Terminal(found.reply) ==> d.state.reply == found.reply && d.state.stage == c.state.stage)
  {
    hide IndexOf, PrimaryContact;
  }

  // ----- Termination -----

  function AtLeastOne(n: int): nat { if n >= 1 then n else 1 }

  /** The most nodes that one account can take with `f` failures of the researcher. */
  function PerAccount(b: Batch, f: nat): nat { 2 * f + 4 + 5 * AtLeastOne(b.maxStages - 1) }

  function Times(n: nat, m: nat): nat {
    if n == 0 then 0 else Times(n - 1, m) + m
  }

  /** Steps still possible, when the researcher fails at most `f` times per account. */
  function Rank(b: Batch, f: nat, c: Config): int {
    var left := |b.accounts| - 1 - CurrentIndex(b.accounts, c.state.current);
    var later := Times(if left >= 0 then left else 0, PerAccount(b, f));
    var stages := 5 * AtLeastOne(b.maxStages - c.state.stage);
    match c.node
    case AccountSelector => later
    case Researcher => later + 2 * (f - c.failures) + 3 + stages
    case EnrichmentRetry => later + 2 * (f - c.failures) + 4 + stages
    case Personaliser => later + stages + 2
    case ApprovalGate => later + stages + 1
    case Sender => later + stages
    case ReplyMonitor => later + stages - 1
    case Router => later + stages - 2
    case NotifySales => later + 2
    case UnsubscribeHandler => later + 2
    case MemoryUpdater => later + 1
    case End => 0
  }

  lemma OthersLowerRank(b: Batch, f: nat, c: Config, a: Answer)
    requires Inv(b, c) && c.node != End && c.node != AccountSelector && c.node != Router
    requires Step(b, c, a).failures <= f && c.failures <= f
    ensures 0 <= Rank(b, f, Step(b, c, a)) < Rank(b, f, c)
  {
    hide Step, PrimaryContact, IndexOf, CurrentIndex, Distinct, Times, PerAccount;
    OthersKeepIndex(b, c, a);
    OthersEdge(b, c, a);
    OthersKeepStage(b, c, a);
  }

  lemma SelectorLowersRank(b: Batch, f: nat, c: Config, a: Answer)
    requires Inv(b, c) && c.node == AccountSelector
    ensures 0 <= Rank(b, f, Step(b, c, a)) < Rank(b, f, c)
  {
    hide PrimaryContact, IndexOf, CurrentIndex, Distinct, Step;
    var left := |b.accounts| - 1 - CurrentIndex(b.accounts, c.state.current);
    assert Times(left, PerAccount(b, f)) == Times(left - 1, PerAccount(b, f)) + PerAccount(b, f);
    if a.raises {
      RaisingEnds(b, c, a);
    } else {
      SelectorTakesNext(b, c, a);
    }
  }

  lemma RouterLowersRank(b: Batch, f: nat, c: Config, a: Answer)
    requires Inv(b, c) && c.node == Router
    ensures 0 <= Rank(b, f, Step(b, c, a)) < Rank(b, f, c)
  {
    hide Step, PrimaryContact, IndexOf, CurrentIndex, Distinct, Times, PerAccount;
    OthersKeepIndex(b, c, a);
    RouterEdge(b, c, a);
  }

  lemma StepLowersRank(b: Batch, f: nat, c: Config, a: Answer)
    requires Inv(b, c) && c.node != End && Step(b, c, a).failures <= f && c.failures <= f
    ensures 0 <= Rank(b, f, Step(b, c, a)) < Rank(b, f, c)
  {
    hide *;
    if c.node == AccountSelector {
      SelectorLowersRank(b, f, c, a);
    } else if c.node == Router {
      RouterLowersRank(b, f, c, a);
    } else {
      OthersLowerRank(b, f, c, a);
    }
  }

  /** At every moment of the run the researcher has failed at most `f` times on the account at hand. */
  ghost predicate FailsAtMost(b: Batch, c: Config, answers: seq<Answer>, f: nat) {
    forall k :: 0 <= k <= |answers| ==> Run(b, c, answers[..k]).failures <= f
  }

  lemma EndStays(b: Batch, c: Config, a: Answer)
    ensures c.node == End ==> Step(b, c, a).node == End
  {
  }

  lemma {:induction false} RankAfter(b: Batch, f: nat, c: Config, answers: seq<Answer>, k: nat)
    requires Initial(c) && b.accounts != [] && Distinct(b.accounts) && FailsAtMost(b, c, answers, f)
    requires k <= |answers|
    ensures var end := Run(b, c, answers[..k]);
      end.node == End || (0 <= Rank(b, f, end) && Rank(b, f, end) + k <= Times(|b.accounts|, PerAccount(b, f)))
  {
    hide Inv, Step;
    if k > 0 {
      RankAfter(b, f, c, answers, k - 1);
      RunStep(b, c, answers, k - 1);
      RunKeepsInv(b, c, answers[..k - 1]);
      var before := Run(b, c, answers[..k - 1]);
      EndStays(b, before, answers[k - 1]);
      if before.node != End {
        StepLowersRank(b, f, before, answers[k - 1]);
      }
    }
  }

  lemma {:induction false} TimesIsProduct(n: nat, m: nat)
    ensures Times(n, m) == n * m
  {
    if n > 0 {
      TimesIsProduct(n - 1, m);
    }
  }

  /**
   * With a non-empty list of distinct ids and at most `f` research failures per account, the run is
   * over after n * (2 f + 4 + 5 max(1, max_stages - 1)) nodes.
   */
  lemma {:induction false} RunTerminates(b: Batch, f: nat, c: Config, answers: seq<Answer>)
    requires Initial(c) && b.accounts != [] && Distinct(b.accounts) && FailsAtMost(b, c, answers, f)
    requires |answers| >= Times(|b.accounts|, PerAccount(b, f))
    ensures Run(b, c, answers).node == End
  {
    var end := Run(b, c, answers);
    assert answers[..|answers|] == answers;
    assert end.failures <= f;
    RankAfter(b, f, c, answers, |answers|);
    RunKeepsInv(b, c, answers);
    var raising := Answer(true, Failed(""), Draft("", ""), "", Refused, None);
    hide Run, Inv, Rank;
    if end.node != End {
      StepLowersRank(b, f, end, raising);
    }
    hide Step;
  }

  // ----- Selections -----

  function Ids(accounts: seq<Account>): seq<string> {
    if accounts == [] then [] else Ids(accounts[..|accounts| - 1]) + [accounts[|accounts| - 1].id]
  }

  /** The ids of the accounts that the run selects, in order. */
  function Selected(b: Batch, c: Config, answers: seq<Answer>): seq<string> {
    if answers == [] then []
    else
      var before := Run(b, c, answers[..|answers| - 1]);
      var after := Step(b, before, answers[|answers| - 1]).state;
      Selected(b, c, answers[..|answers| - 1])
      + if before.node == AccountSelector && after.current != before.state.current && after.current.Some?
        then [after.current.value.id] else []
  }

  lemma SelectionStep(b: Batch, c: Config, a: Answer)
    requires Inv(b, c)
    ensures var after := Step(b, c, a).state;
      var i, j := CurrentIndex(b.accounts, c.state.current), CurrentIndex(b.accounts, after.current);
      if c.node == AccountSelector && after.current != c.state.current && after.current.Some?
      then j == i + 1 && 0 <= j < |b.accounts| && after.current.value.id == b.accounts[j].id
      else j == i
  {
    if c.node == AccountSelector {
      if !a.raises {
        SelectorTakesNext(b, c, a);
        assert Step(b, c, a).state.current != c.state.current;
      }
    } else {
      OthersKeepIndex(b, c, a);
    }
    hide IndexOf, PrimaryContact;
  }

  /** Accounts are selected in list order, without gaps or repetitions. */
  lemma {:induction false} SelectedInOrder(b: Batch, c: Config, answers: seq<Answer>)
    requires Initial(c) && b.accounts != [] && Distinct(b.accounts)
    ensures 0 <= IndexAt(b, c, answers) + 1 <= |b.accounts|
    ensures Selected(b, c, answers) == Ids(b.accounts[..IndexAt(b, c, answers) + 1])
  {
    hide Step, IndexOf, Inv;
    if answers != [] {
      var n := |answers| - 1;
      SelectedInOrder(b, c, answers[..n]);
      RunKeepsInv(b, c, answers[..n]);
      SelectionStep(b, Run(b, c, answers[..n]), answers[n]);
      var i := IndexAt(b, c, answers[..n]) + 1;
      if i < |b.accounts| {
        assert b.accounts[..i + 1][..i] == b.accounts[..i];
      }
    }
  }

  // ----- How many messages -----

  function SendCount(b: Batch, c: Config, answers: seq<Answer>, i: int): nat {
    if answers == [] then 0
    else
      var n := |answers| - 1;
      SendCount(b, c, answers[..n], i)
      + if Sends(b, Run(b, c, answers[..n]), answers[n]) && IndexAt(b, c, answers[..n]) == i then 1 else 0
  }

  /** How often the sender had its turn with account `i`. */
  function SenderCount(b: Batch, c: Config, answers: seq<Answer>, i: int): nat {
    if answers == [] then 0
    else
      var n := |answers| - 1;
      SenderCount(b, c, answers[..n], i)
      + if Run(b, c, answers[..n]).node == Sender && IndexAt(b, c, answers[..n]) == i then 1 else 0
  }

  /** The most messages that account `i` can have been sent so far. */
  function Quota(b: Batch, p: Place, i: int): int {
    if p.index < i then 0
    else if p.index == i && !p.closed then p.turn / 2 - (if p.turn % 2 == 0 then 1 else 0)
    else AtLeastOne(b.maxStages - 1)
  }

  lemma QuotaGrows(b: Batch, p: Place, q: Place, i: int)
    requires AtMost(p, q)
    requires !p.closed ==> 2 <= p.turn <= 2 * AtLeastOne(b.maxStages - 1) + 1
    requires !q.closed ==> 2 <= q.turn <= 2 * AtLeastOne(b.maxStages - 1) + 1
    ensures Quota(b, p, i) <= Quota(b, q, i)
    ensures p.index == q.index == i && !p.closed && p.turn % 2 == 0 && p != q ==> Quota(b, p, i) < Quota(b, q, i)
  {
  }

  lemma TurnInRange(b: Batch, c: Config)
    requires Inv(b, c)
    ensures var p := PlaceOf(b, c); !p.closed ==> 2 <= p.turn <= 2 * AtLeastOne(b.maxStages - 1) + 1
    ensures c.node == Sender ==> !PlaceOf(b, c).closed && PlaceOf(b, c).turn % 2 == 0
  {
    hide IndexOf, PrimaryContact;
  }

  lemma SenderKeepsIndex(b: Batch, c: Config, a: Answer)
    requires c.node == Sender
    ensures PlaceOf(b, c).index == CurrentIndex(b.accounts, c.state.current) == PlaceOf(b, Step(b, c, a)).index
  {
    OthersKeepIndex(b, c, a);
  }

  lemma QuotaInRange(b: Batch, c: Config, i: nat)
    requires Inv(b, c)
    ensures 0 <= Quota(b, PlaceOf(b, c), i) <= AtLeastOne(b.maxStages - 1)
  {
    TurnInRange(b, c);
    hide IndexOf, PrimaryContact, Inv, PlaceOf;
  }

  /** With no account the sender has more than max(1, max_stages - 1) turns. */
  lemma {:induction false} SenderStepsAreBounded(b: Batch, c: Config, answers: seq<Answer>, i: nat)
    requires Initial(c) && b.accounts != [] && Distinct(b.accounts)
    ensures SenderCount(b, c, answers, i) <= Quota(b, PlaceOf(b, Run(b, c, answers)), i) <= AtLeastOne(b.maxStages - 1)
  {
    hide Step, IndexOf, Inv, PlaceOf, Quota;
    RunKeepsInv(b, c, answers);
    QuotaInRange(b, Run(b, c, answers), i);
    if answers != [] {
      var n := |answers| - 1;
      var before := Run(b, c, answers[..n]);
      SenderStepsAreBounded(b, c, answers[..n], i);
      RunKeepsInv(b, c, answers[..n]);
      TurnInRange(b, before);
      TurnInRange(b, Run(b, c, answers));
      StepAdvances(b, before, answers[n]);
      QuotaGrows(b, PlaceOf(b, before), PlaceOf(b, Run(b, c, answers)), i);
      if before.node == Sender {
        SenderKeepsIndex(b, before, answers[n]);
      }
    }
  }

  lemma {:induction false} EverySendIsATurn(b: Batch, c: Config, answers: seq<Answer>, i: int)
    ensures SendCount(b, c, answers, i) <= SenderCount(b, c, answers, i)
  {
    hide Run, Sends, IndexAt;
    if answers != [] {
      var n := |answers| - 1;
      EverySendIsATurn(b, c, answers[..n], i);
      if Sends(b, Run(b, c, answers[..n]), answers[n]) {
        OnlySenderSends(b, Run(b, c, answers[..n]), answers[n]);
      }
    }
  }

  /** So no account has more than max(1, max_stages - 1) messages recorded. */
  lemma {:induction false} SendsAreBounded(b: Batch, c: Config, answers: seq<Answer>, i: nat)
    requires Initial(c) && b.accounts != [] && Distinct(b.accounts)
    ensures SendCount(b, c, answers, i) <= Quota(b, PlaceOf(b, Run(b, c, answers)), i) <= AtLeastOne(b.maxStages - 1)
  {
    hide *;
    EverySendIsATurn(b, c, answers, i);
    SenderStepsAreBounded(b, c, answers, i);
  }

  // ----- Runs in which all goes well -----

  predicate HasMail(s: State) { s.current.Some? && s.draft.Some? && s.contact.Some? }

  /** Nothing raises and every draft is approved. */
  predicate Cooperative(a: Answer) { !a.raises && a.approval == "approved" }

  /** Research succeeds, drafts are approved, mails are delivered and nobody replies. */
  predicate Lucky(a: Answer) {
    Cooperative(a) && a.research.Found? && a.delivery.Delivered? && a.reply.None?
  }

  ghost predicate LuckyInv(b: Batch, c: Config) {
    && c.failures == 0
    && c.node != NotifySales && c.node != UnsubscribeHandler && c.node != EnrichmentRetry
    && (c.node != AccountSelector ==> c.state.reply.None?)
    && (c.node == ApprovalGate || c.node == Sender ==> c.state.draft.Some?)
    && (c.node == End ==> CurrentIndex(b.accounts, c.state.current) == |b.accounts| - 1)
  }

  lemma LuckyStep(b: Batch, c: Config, a: Answer)
    requires Inv(b, c) && LuckyInv(b, c) && Lucky(a)
    ensures LuckyInv(b, Step(b, c, a))
  {
    if c.node == AccountSelector {
      SelectorTakesNext(b, c, a);
    } else {
      OthersKeepIndex(b, c, a);
    }
    hide IndexOf, PrimaryContact, CurrentIndex, Distinct;
  }

  lemma SenderDelivers(b: Batch, c: Config, a: Answer)
    requires c.node == Sender && Lucky(a) && HasMail(c.state)
    ensures var after := Step(b, c, a);
      after == Config(ReplyMonitor, c.state.(sent := after.state.sent), c.failures) && after.state.sent != c.state.sent
  {
    hide IndexOf, PrimaryContact;
    var after := Step(b, c, a);
    assert |after.state.sent| == |c.state.sent| + 1;
  }

  lemma SenderGoesOn(b: Batch, c: Config, a: Answer)
    requires c.node == Sender && !a.raises
    ensures var after := Step(b, c, a);
      after.node == ReplyMonitor && after.state.stage == c.state.stage && after.state.reply == c.state.reply
  {
    hide IndexOf, PrimaryContact;
  }

  lemma LuckySend(b: Batch, c: Config, a: Answer, i: nat)
    requires Inv(b, c) && LuckyInv(b, c) && Lucky(a) && c.node == Sender
    requires i < |b.accounts| && PrimaryContact(b.contacts, b.accounts[i].id).Some?
    ensures Quota(b, PlaceOf(b, Step(b, c, a)), i)
         == Quota(b, PlaceOf(b, c), i)
            + if Sends(b, c, a) && CurrentIndex(b.accounts, c.state.current) == i then 1 else 0
  {
    hide IndexOf, PrimaryContact, CurrentIndex, Distinct, Step;
    CurrentIsListed(b.accounts, c.state.current);
    if HasMail(c.state) {
      SenderDelivers(b, c, a);
    } else {
      OthersKeepIndex(b, c, a);
      SenderGoesOn(b, c, a);
    }
  }

  lemma LuckyRoute(b: Batch, c: Config, a: Answer, i: nat)
    requires Inv(b, c) && LuckyInv(b, c) && Lucky(a) && c.node == Router
    ensures Quota(b, PlaceOf(b, Step(b, c, a)), i) == Quota(b, PlaceOf(b, c), i) && !Sends(b, c, a)
  {
    OthersKeepIndex(b, c, a);
    hide IndexOf, PrimaryContact, CurrentIndex, Distinct;
  }

  lemma LuckyRest(b: Batch, c: Config, a: Answer, i: nat)
    requires Inv(b, c) && LuckyInv(b, c) && Lucky(a) && c.node != Router && c.node != Sender
    ensures Quota(b, PlaceOf(b, Step(b, c, a)), i) == Quota(b, PlaceOf(b, c), i) && !Sends(b, c, a)
  {
    if c.node == AccountSelector {
      SelectorTakesNext(b, c, a);
    } else {
      OthersKeepIndex(b, c, a);
    }
    hide IndexOf, PrimaryContact, CurrentIndex, Distinct;
  }

  lemma LuckyQuota(b: Batch, c: Config, a: Answer, i: nat)
    requires Inv(b, c) && LuckyInv(b, c) && Lucky(a)
    requires i < |b.accounts| && PrimaryContact(b.contacts, b.accounts[i].id).Some?
    ensures Quota(b, PlaceOf(b, Step(b, c, a)), i)
         == Quota(b, PlaceOf(b, c), i)
            + if Sends(b, c, a) && CurrentIndex(b.accounts, c.state.current) == i then 1 else 0
  {
    hide *;
    if c.node == Sender {
      LuckySend(b, c, a, i);
    } else if c.node == Router {
      LuckyRoute(b, c, a, i);
    } else {
      LuckyRest(b, c, a, i);
    }
  }

  lemma LuckyInitially(b: Batch, c: Config, i: nat)
    requires Initial(c)
    ensures LuckyInv(b, c) && Quota(b, PlaceOf(b, c), i) == 0
  {
  }

  lemma {:induction false} LuckyRun(b: Batch, c: Config, answers: seq<Answer>, i: nat)
    requires Initial(c) && b.accounts != [] && Distinct(b.accounts)
    requires forall a :: a in answers ==> Lucky(a)
    requires i < |b.accounts| && PrimaryContact(b.contacts, b.accounts[i].id).Some?
    ensures LuckyInv(b, Run(b, c, answers))
    ensures SendCount(b, c, answers, i) == Quota(b, PlaceOf(b, Run(b, c, answers)), i)
  {
    hide Step, Inv, PrimaryContact, IndexOf, Sends, LuckyInv;
    if answers == [] {
      LuckyInitially(b, c, i);
    } else {
      var n := |answers| - 1;
      LuckyRun(b, c, answers[..n], i);
      assert answers[n] in answers;
      RunKeepsInv(b, c, answers[..n]);
      LuckyStep(b, Run(b, c, answers[..n]), answers[n]);
      LuckyQuota(b, Run(b, c, answers[..n]), answers[n], i);
    }
  }

  lemma LuckyNeverFails(b: Batch, c: Config, answers: seq<Answer>, i: nat)
    requires Initial(c) && b.accounts != [] && Distinct(b.accounts)
    requires forall a :: a in answers ==> Lucky(a)
    requires i < |b.accounts| && PrimaryContact(b.contacts, b.accounts[i].id).Some?
    ensures FailsAtMost(b, c, answers, 0)
  {
    forall k | 0 <= k <= |answers|
      ensures Run(b, c, answers[..k]).failures <= 0
    {
      LuckyRun(b, c, answers[..k], i);
    }
  }

  /**
   * The bounds are met: when all goes well every account with a contact is sent exactly
   * max(1, max_stages - 1) messages, so the last stage never goes out.
   */
  lemma {:induction false} EveryAccountGetsItsSequence(b: Batch, c: Config, answers: seq<Answer>, i: nat)
    requires Initial(c) && b.accounts != [] && Distinct(b.accounts)
    requires forall a :: a in answers ==> Lucky(a)
    requires i < |b.accounts| && PrimaryContact(b.contacts, b.accounts[i].id).Some?
    requires |answers| >= Times(|b.accounts|, PerAccount(b, 0))
    ensures Run(b, c, answers).node == End
    ensures SendCount(b, c, answers, i) == AtLeastOne(b.maxStages - 1)
  {
    hide Run, Step, PrimaryContact, IndexOf, CurrentIndex, SendCount;
    LuckyNeverFails(b, c, answers, i);
    RunTerminates(b, 0, c, answers);
    LuckyRun(b, c, answers, i);
  }

  // ----- Runs without an approval -----

  ghost predicate Unapproved(b: Batch, c: Config, sent: seq<Message>) {
    && c.state.sent == sent
    && (|| c.node == AccountSelector || c.node == Researcher || c.node == EnrichmentRetry || c.node == Personaliser
        || c.node == ApprovalGate || c.node == End)
    && (c.node == AccountSelector ==> c.state.current.None?)
    && (c.state.current.Some? ==> b.accounts != [] && c.state.current.value.id == b.accounts[0].id)
  }

  lemma StaysUnapproved(b: Batch, c: Config, a: Answer, sent: seq<Message>)
    requires Unapproved(b, c, sent) && a.approval != "approved"
    ensures Unapproved(b, Step(b, c, a), sent)
  {
    hide IndexOf, PrimaryContact;
  }

  lemma InitiallyUnapproved(b: Batch, c: Config)
    requires Initial(c)
    ensures Unapproved(b, c, c.state.sent)
  {
  }

  lemma UnapprovedEnds(b: Batch, c: Config, a: Answer)
    requires a.approval != "approved"
    ensures c.node == ApprovalGate ==> Step(b, c, a).node == End
  {
    hide IndexOf, PrimaryContact, CurrentIndex;
  }

  /**
   * While every approval request is answered otherwise, as "pending" or "error" are the answers of the
   * Slack tool itself, a run never comes to the sender, records nothing, never gets past the first
   * account and is over after its first gate.
   */
  lemma {:induction false} NothingIsSentUnapproved(b: Batch, c: Config, answers: seq<Answer>)
    requires Initial(c) && forall a :: a in answers ==> a.approval != "approved"
    ensures Unapproved(b, Run(b, c, answers), c.state.sent)
    ensures answers != [] && Run(b, c, answers[..|answers| - 1]).node == ApprovalGate ==> Run(b, c, answers).node == End
  {
    hide Unapproved, Step;
    if answers == [] {
      InitiallyUnapproved(b, c);
    } else {
      var n := |answers| - 1;
      assert answers[n] in answers;
      NothingIsSentUnapproved(b, c, answers[..n]);
      StaysUnapproved(b, Run(b, c, answers[..n]), answers[n], c.state.sent);
      UnapprovedEnds(b, Run(b, c, answers[..n]), answers[n]);
    }
  }

  // ----- Runs that do not end -----

  /** The counter is at most 3, or still the one the account came with. */
  ghost predicate RetriesInRange(b: Batch, s: State) {
    s.current.Some? ==>
      s.current.value.retries <= MAX_RETRIES || s.current.value in b.accounts
  }

  lemma StepCapsRetries(b: Batch, c: Config, a: Answer)
    requires RetriesInRange(b, c.state)
    ensures RetriesInRange(b, Step(b, c, a).state)
  {
    hide IndexOf, PrimaryContact;
    CurrentIndexAtLeast(b.accounts, c.state.current);
    hide CurrentIndex;
  }

  lemma NoCounterYet(b: Batch, c: Config)
    requires Initial(c)
    ensures RetriesInRange(b, c.state)
  {
  }

  /**
   * No retry takes the stored counter past 3, on any run of any list: a larger one can only be an
   * account's own from the start.
   */
  lemma {:induction false} RetryCounterIsCapped(b: Batch, c: Config, answers: seq<Answer>)
    requires Initial(c)
    ensures RetriesInRange(b, Run(b, c, answers).state)
  {
    hide Step, RetriesInRange;
    if answers == [] {
      NoCounterYet(b, c);
    } else {
      RetryCounterIsCapped(b, c, answers[..|answers| - 1]);
      StepCapsRetries(b, Run(b, c, answers[..|answers| - 1]), answers[|answers| - 1]);
    }
  }

  /** Yet a researcher that keeps failing is retried for ever. */
  lemma {:induction false} FailingResearcherNeverEnds(b: Batch, c: Config, answers: seq<Answer>)
    requires Initial(c) && b.accounts != []
    requires forall a :: a in answers ==> !a.raises && a.research.Failed? && a.research.error != ""
    ensures var end := Run(b, c, answers);
      && (end.node == AccountSelector || end.node == Researcher || end.node == EnrichmentRetry)
      && (end.node == AccountSelector <==> answers == [])
      && (answers != [] ==> end.state.current.Some?)
  {
    hide IndexOf, PrimaryContact;
    if answers != [] {
      assert answers[|answers| - 1] in answers;
      FailingResearcherNeverEnds(b, c, answers[..|answers| - 1]);
    }
  }

  /** An empty list of accounts is never finished: without an account the researcher fails for ever. */
  lemma {:induction false} EmptyBatchNeverEnds(b: Batch, c: Config, answers: seq<Answer>)
    requires Initial(c) && b.accounts == [] && c.state.enrichment.None?
    requires forall a :: a in answers ==> !a.raises
    ensures var end := Run(b, c, answers);
      && (end.node == AccountSelector || end.node == Researcher || end.node == EnrichmentRetry)
      && end.state.current.None? && end.state.enrichment.None?
  {
    if answers != [] {
      assert answers[|answers| - 1] in answers;
      EmptyBatchNeverEnds(b, c, answers[..|answers| - 1]);
    }
  }

  predicate BeforeDuplicate(b: Batch, c: Config, j: nat) {
    && CurrentIndex(b.accounts, c.state.current) < j
    && c.node != End
    && (c.node != AccountSelector ==> c.state.current.Some? && CurrentIndex(b.accounts, c.state.current) >= 0)
    && (c.node == ApprovalGate ==> c.state.draft.Some?)
  }

  lemma StaysInAccount(b: Batch, c: Config, a: Answer, j: nat)
    requires BeforeDuplicate(b, c, j) && Cooperative(a) && c.node != AccountSelector && j < |b.accounts|
    ensures BeforeDuplicate(b, Step(b, c, a), j)
  {
    OthersKeepIndex(b, c, a);
    hide IndexOf, PrimaryContact, CurrentIndex;
  }

  lemma SelectorSelects(b: Batch, c: Config, a: Answer)
    requires c.node == AccountSelector && !a.raises
    requires CurrentIndex(b.accounts, c.state.current) < |b.accounts| - 1
    ensures var after := Step(b, c, a);
      && after.node == Researcher
      && var next := CurrentIndex(b.accounts, c.state.current) + 1;
      && 0 <= next && after.state.current == Some(b.accounts[next])
  {
    CurrentIndexAtLeast(b.accounts, c.state.current);
    hide IndexOf, CurrentIndex, PrimaryContact;
  }

  lemma StaysBeforeDuplicate(b: Batch, c: Config, a: Answer, i: nat, j: nat)
    requires i < j < |b.accounts| && b.accounts[i].id == b.accounts[j].id
    requires BeforeDuplicate(b, c, j) && Cooperative(a)
    ensures BeforeDuplicate(b, Step(b, c, a), j)
  {
    hide Step, IndexOf, CurrentIndex;
    if c.node == AccountSelector {
      SelectorSelects(b, c, a);
      SearchStaysBefore(b.accounts, CurrentIndex(b.accounts, c.state.current) + 1, i, j);
    } else {
      StaysInAccount(b, c, a, j);
    }
  }

  lemma InitiallyBeforeDuplicate(b: Batch, c: Config, j: nat)
    requires Initial(c) && 0 < j
    ensures BeforeDuplicate(b, c, j)
  {
  }

  /** With two equal ids the run goes back to the first of them for ever, unless something stops it. */
  lemma {:induction false} DuplicateIdsNeverEnd(b: Batch, c: Config, answers: seq<Answer>, i: nat, j: nat)
    requires Initial(c) && i < j < |b.accounts| && b.accounts[i].id == b.accounts[j].id
    requires forall a :: a in answers ==> Cooperative(a)
    ensures BeforeDuplicate(b, Run(b, c, answers), j)
  {
    hide Step, BeforeDuplicate;
    if answers == [] {
      InitiallyBeforeDuplicate(b, c, j);
    } else {
      var n := |answers| - 1;
      DuplicateIdsNeverEnd(b, c, answers[..n], i, j);
      assert answers[n] in answers;
      StaysBeforeDuplicate(b, Run(b, c, answers[..n]), answers[n], i, j);
    }
  }

  /**
   * When nothing raises, all drafts are approved and the researcher fails at most `f` times per
   * account, a long enough run is over exactly if the list is not empty and its ids are distinct.
   */
  lemma {:induction false} RunEndsIffDistinct(b: Batch, f: nat, c: Config, answers: seq<Answer>)
    requires Initial(c) && c.state.enrichment.None? && FailsAtMost(b, c, answers, f)
    requires forall a :: a in answers ==> Cooperative(a)
    requires |answers| >= Times(|b.accounts|, PerAccount(b, f))
    ensures Run(b, c, answers).node == End <==> b.accounts != [] && Distinct(b.accounts)
  {
    hide Run, Step;
    if b.accounts == [] {
      EmptyBatchNeverEnds(b, c, answers);
    } else if Distinct(b.accounts) {
      RunTerminates(b, f, c, answers);
    } else {
      var i, j :| 0 <= i < j < |b.accounts| && b.accounts[i].id == b.accounts[j].id;
      DuplicateIdsNeverEnd(b, c, answers, i, j);
    }
  }

  // ----- Sending -----

  datatype Mail = Mail(to: string, contactId: string, subject: string, body: string, stage: int)

  /** The last two raise: before the mail was accepted, or after, when the answer is lost. */
  datatype Webhook = Accepts | Rejects | Unreachable | Unconfirmed

  predicate Posts(webhook: Webhook) { webhook == Accepts || webhook == Unconfirmed }

  function MailOf(s: State): Mail
    requires HasMail(s)
  {
    Mail(s.contact.value.email, s.contact.value.id, s.draft.value.subject, s.draft.value.body, s.stage)
  }

  /** The transaction that saves the message: committed, failed, or committed with its answer lost. */
  datatype Saving = Saved(id: string) | Unsaved | Lost(id: string)

  function MessageOf(s: State, id: string): Message
    requires HasMail(s)
  {
    Message(id, s.contact.value.id, s.draft.value.subject, s.draft.value.body, s.stage)
  }

  /** The mails that the webhook accepted and the messages saved in the database. */
  class Outbox {
    var posted: seq<Mail>
    var saved: seq<Message>

    constructor ()
      ensures posted == [] && saved == []
    {
      posted, saved := [], [];
    }

    /**
     * The sender: post, then save, then append to the state. A mail that went out is missing from the
     * state exactly when an answer was lost or saving failed, and from the database exactly when the
     * webhook's answer was lost or saving failed.
     */
    method SendDraft(s: State, webhook: Webhook, saving: Saving) returns (r: Option<State>)
      modifies this
      ensures r.None? <==>
        HasMail(s) && (webhook == Unreachable || webhook == Unconfirmed || (webhook == Accepts && !saving.Saved?))
      ensures r.Some? ==>
        r.value == Send(s, if webhook == Accepts && saving.Saved? then Delivered(saving.id) else Refused)
      ensures posted == old(posted) + if HasMail(s) && Posts(webhook) then [MailOf(s)] else []
      ensures saved == old(saved) + if HasMail(s) && webhook == Accepts && saving != Unsaved
                                    then [MessageOf(s, saving.id)] else []
    {
      if s.current.None? {
        return Some(s.(error := Some("No current_account set")));
      }
      if s.draft.None? || s.contact.None? {
        return Some(s.(error := Some("Missing draft or contact for sending")));
      }
      if Posts(webhook) {
        posted := posted + [MailOf(s)];
      }
      if webhook == Unreachable || webhook == Unconfirmed {
        return None;
      }
      if webhook == Rejects {
        return Some(s.(error := Some("Email send failed")));
      }
      if saving == Unsaved {
        return None;
      }
      saved := saved + [MessageOf(s, saving.id)];
      if saving.Lost? {
        return None;
      }
      return Some(s.(sent := s.sent + [MessageOf(s, saving.id)]));
    }
  }

  // ----- Unsubscribe -----

  ghost predicate SentTo(sent: seq<Message>, id: string, contactId: string) {
    exists m :: m in sent && m.id == id && m.contactId == contactId
  }

  /** The database raises while updating message number `failsAt`. */
  predicate UpdateRaises(sent: seq<Message>, contactId: string, failsAt: Option<nat>) {
    failsAt.Some? && failsAt.value < |sent| && sent[failsAt.value].contactId == contactId
  }

  /** How the transaction ends: in its last two cases the commit raises, undone or done with its answer lost. */
  datatype Commit = Committed | RolledBack | Uncertain

  datatype Row = Row(workspace: string, status: string)

  /** `after` is `before` with the workspace's rows of the messages to the contact marked. */
  ghost predicate Marked(
    before: map<string, Row>, after: map<string, Row>, sent: seq<Message>, contactId: string, workspace: string)
  {
    && after.Keys == before.Keys
    && forall x :: x in after ==>
         after[x] == if SentTo(sent, x, contactId) && before[x].workspace == workspace
                     then Row(workspace, "unsubscribed") else before[x]
  }

  lemma SentToStep(sent: seq<Message>, m: Message, contactId: string)
    ensures forall id :: SentTo(sent + [m], id, contactId) <==>
              SentTo(sent, id, contactId) || (m.id == id && m.contactId == contactId)
  {
    assert m in sent + [m];
    forall id | SentTo(sent, id, contactId)
      ensures SentTo(sent + [m], id, contactId)
    {
      var n :| n in sent && n.id == id && n.contactId == contactId;
      assert n in sent + [m];
    }
  }

  /** The stored messages: their workspace and delivery status. */
  class MessageStore {
    var rows: map<string, Row>

    constructor (rows: map<string, Row>)
      ensures this.rows == rows
    {
      this.rows := rows;
    }

    /** An update reaches the row with the id only within its own workspace. */
    method UpdateStatus(id: string, workspace: string, status: string)
      modifies this
      ensures rows.Keys == old(rows.Keys)
      ensures forall x :: x in rows ==>
        rows[x] == if x == id && old(rows[x]).workspace == workspace then Row(workspace, status) else old(rows[x])
    {
      if id in rows && rows[id].workspace == workspace {
        rows := rows[id := Row(workspace, status)];
      }
    }

    /**
     * Marks exactly the workspace's messages recorded for the contact: all of them or, when an update
     * raises or the commit is undone, none. That the commit raises is caught, so its lost answer does not show.
     */
    method HandleUnsubscribe(
      sent: seq<Message>, contact: Option<Contact>, workspace: string, failsAt: Option<nat>, commit: Commit)
      modifies this
      ensures contact.None? || commit == RolledBack || UpdateRaises(sent, contact.value.id, failsAt) ==>
        rows == old(rows)
      ensures contact.Some? && commit != RolledBack && !UpdateRaises(sent, contact.value.id, failsAt) ==>
        Marked(old(rows), rows, sent, contact.value.id, workspace)
    {
      if contact.None? {
        return;
      }
      var before := rows;
      for n := 0 to |sent|
        invariant Marked(before, rows, sent[..n], contact.value.id, workspace)
        invariant !UpdateRaises(sent[..n], contact.value.id, failsAt)
      {
        var m := sent[n];
        assert sent[..n + 1] == sent[..n] + [m];
        SentToStep(sent[..n], m, contact.value.id);
        hide SentTo;
        if m.contactId == contact.value.id {
          if failsAt == Some(n) {
            rows := before;
            return;
          }
          UpdateStatus(m.id, workspace, "unsubscribed");
        }
      }
      assert sent[..|sent|] == sent;
      if commit == RolledBack {
        rows := before;
      }
    }
  }
}
