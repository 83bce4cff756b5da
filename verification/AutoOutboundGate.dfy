/** The automatic outbound gate: src/agent/nodes/auto_outbound_gate.py. */
module AutoOutboundGate {
  import opened Options
  import opened IcpScore
  import opened ActionRules

  /** What a guardrail answers: go on, stop, or an exception, which the gate catches. */
  datatype Check = Passes | Stops | Raises

  /** What becomes of a change asked for: done, refused, failed undone, or done with its answer lost. */
  datatype Effect = Done | Refused | Failed | Unconfirmed

  /** The answers of the outside world, in the order in which the gate asks. */
  datatype Guards = Guards(
    automation: Check, killSwitch: Check, blocklist: Check, caps: Effect, draftOnly: bool, queue: Effect)

  datatype Shortfall = NoScore | LowPriority | LowConfidence | NoContacts | LowRelevance | NoHypotheses | LowPain
                     | FewSignals | ManyUnknowns

  datatype Reason = AutomationDisabled | AutomationError | KillSwitchActive | KillSwitchError | NotPursueNow
                  | BelowThreshold(shortfall: Shortfall) | Blocklisted | BlocklistError
                  | CapExceeded | CapError | EnqueueError

  /** `slotTaken`: the send cap counters were incremented. `queued`: an outbound job was queued. */
  datatype Outcome = Outcome(triggered: bool, reason: Option<Reason>, slotTaken: bool, queued: bool)

  /** What the gate reads of the account at hand. */
  datatype View = View(
    score: Option<AccountScore>, recommendation: Option<Recommendation>, ranked: seq<RankedContact>,
    pains: seq<Hypothesis>, signals: nat, unknowns: nat)

  /** The first threshold that is missed, in the order of the tests. */
  function MissedThreshold(v: View): Option<Shortfall> {
    if v.score.None? then Some(NoScore)
    else if v.score.value.overall < 80 then Some(LowPriority)
    else if v.score.value.confidence < 0.80 then Some(LowConfidence)
    else if v.ranked == [] then Some(NoContacts)
    else if v.ranked[0].relevance < 85 then Some(LowRelevance)
    else if |v.pains| < 1 then Some(NoHypotheses)
    else if TopPain(v.pains) < 0.70 then Some(LowPain)
    else if v.signals < 2 then Some(FewSignals)
    else if v.unknowns > 3 then Some(ManyUnknowns)
    else None
  }

  function Skip(reason: Reason): Outcome { Outcome(false, Some(reason), false, false) }

  function Decide(v: View, g: Guards): Outcome {
    if g.automation == Stops then Skip(AutomationDisabled)
    else if g.automation == Raises then Skip(AutomationError)
    else if g.killSwitch == Stops then Skip(KillSwitchActive)
    else if g.killSwitch == Raises then Skip(KillSwitchError)
    else if v.recommendation.None? || v.recommendation.value.action != PursueNow then Skip(NotPursueNow)
    else if MissedThreshold(v).Some? then Skip(BelowThreshold(MissedThreshold(v).value))
    else if g.blocklist == Stops then Skip(Blocklisted)
    else if g.blocklist == Raises then Skip(BlocklistError)
    else if g.caps == Refused then Skip(CapExceeded)
    else if g.caps != Done then Outcome(false, Some(CapError), g.caps == Unconfirmed, false)
    else if g.draftOnly then Outcome(true, None, true, false)
    else if g.queue != Done then Outcome(false, Some(EnqueueError), true, g.queue == Unconfirmed)
    else Outcome(true, None, true, true)
  }

  predicate StrictlyGood(v: View) {
    && v.score.Some? && v.score.value.overall >= 80 && v.score.value.confidence >= 0.80
    && v.ranked != [] && v.ranked[0].relevance >= 85
    && (exists h :: h in v.pains && h.confidence >= 0.70)
    && v.signals >= 2 && v.unknowns <= 3
  }

  lemma NoThresholdMissedIff(v: View)
    ensures MissedThreshold(v).None? <==> StrictlyGood(v)
  {
    var top := TopPain(v.pains);
    if v.pains != [] {
      var h :| h in v.pains && h.confidence == top;
    }
  }

  /** Everything the gate tests before it touches the send caps. */
  predicate AllClear(v: View, g: Guards) {
    && g.automation == Passes && g.killSwitch == Passes && g.blocklist == Passes
    && v.recommendation.Some? && v.recommendation.value.action == PursueNow && StrictlyGood(v)
  }

  /**
   * The order of the tests does not show in the result: the gate takes a send slot exactly when every
   * guard passes, every threshold is met and the counters are incremented, and triggers when moreover
   * no answer is lost and no job is needed or one is queued.
   */
  lemma TriggersIffAllClear(v: View, g: Guards)
    ensures Decide(v, g).slotTaken <==> AllClear(v, g) && (g.caps == Done || g.caps == Unconfirmed)
    ensures Decide(v, g).triggered <==> AllClear(v, g) && g.caps == Done && (g.draftOnly || g.queue == Done)
    ensures Decide(v, g).queued <==>
              AllClear(v, g) && g.caps == Done && !g.draftOnly && (g.queue == Done || g.queue == Unconfirmed)
    ensures Decide(v, g).triggered <==> Decide(v, g).reason.None?
  {
    NoThresholdMissedIff(v);
    hide StrictlyGood, MissedThreshold;
  }

  /** The recorded reason tells which obstacle stood in the way, and that all before it did not. */
  lemma ReasonIs(v: View, g: Guards)
    ensures var r := Decide(v, g).reason;
      var guarded := g.automation == Passes && g.killSwitch == Passes;
      var wanted := guarded && v.recommendation.Some? && v.recommendation.value.action == PursueNow;
      && (r == Some(AutomationDisabled) <==> g.automation == Stops)
      && (r == Some(AutomationError) <==> g.automation == Raises)
      && (r == Some(KillSwitchActive) <==> g.automation == Passes && g.killSwitch == Stops)
      && (r == Some(KillSwitchError) <==> g.automation == Passes && g.killSwitch == Raises)
      && (r == Some(NotPursueNow) <==> guarded && !wanted)
      && (r.Some? && r.value.BelowThreshold? <==> wanted && !StrictlyGood(v))
      && (r == Some(Blocklisted) <==> wanted && StrictlyGood(v) && g.blocklist == Stops)
      && (r == Some(BlocklistError) <==> wanted && StrictlyGood(v) && g.blocklist == Raises)
      && (r == Some(CapExceeded) <==> AllClear(v, g) && g.caps == Refused)
      && (r == Some(CapError) <==> AllClear(v, g) && (g.caps == Failed || g.caps == Unconfirmed))
      && (r == Some(EnqueueError) <==> AllClear(v, g) && g.caps == Done && !g.draftOnly && g.queue != Done)
  {
    NoThresholdMissedIff(v);
    hide StrictlyGood, MissedThreshold;
  }

  /**
   * A slot is lost, taken without anything being triggered, exactly when the answer to the increment
   * is lost, or the queue does not confirm the job.
   */
  lemma SlotIsLostIff(v: View, g: Guards)
    ensures Decide(v, g).slotTaken && !Decide(v, g).triggered <==>
              AllClear(v, g) && (g.caps == Unconfirmed || (g.caps == Done && !g.draftOnly && g.queue != Done))
  {
    hide Decide;
    TriggersIffAllClear(v, g);
  }

  /** A job can be queued that the state knows nothing of: exactly when the queue's confirmation is lost. */
  lemma JobIsUnknownIff(v: View, g: Guards)
    ensures Decide(v, g).queued && !Decide(v, g).triggered <==>
              AllClear(v, g) && g.caps == Done && !g.draftOnly && g.queue == Unconfirmed
  {
    hide Decide;
    TriggersIffAllClear(v, g);
  }

  /** Whatever passes the gate's thresholds would also be pursued by the manual rules. */
  lemma StricterThanManual(v: View)
    requires StrictlyGood(v) && v.score.value.broken.None?
    ensures Recommend(v.score.value, Some(v.ranked[0]), v.pains).action == PursueNow
  {
    hide Recommend;
    var h :| h in v.pains && h.confidence >= 0.70;
    PursuedIff(v.score.value, Some(v.ranked[0]), v.pains);
  }
}
