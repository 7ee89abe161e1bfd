/** The amount-tiered outage policy in front of the fraud service. */
module FraudClient {

  // Every decision other than these three reads as a denial.
  datatype Decision = Approve | StepUp | Review | Deny

  datatype FraudReply = Scored(decision: Decision, score: int) | Outage

  datatype Verdict = Verdict(proceed: bool, requiresAction: bool, riskScore: int, failedOpen: bool)

  /**
   * Outages fail open, flagged and with the score of -1, below the limit only, and closed from it on;
   * replies are taken at their word, and an unknown decision as a denial.
   */
  function Screen(r: FraudReply, amount: int, failOpenLimit: int): (v: Verdict)
    ensures v.proceed <==> (r.Scored? && r.decision == Approve) || (r.Outage? && amount < failOpenLimit)
    ensures v.requiresAction <==> r.Scored? && r.decision in {StepUp, Review}
    ensures v.failedOpen <==> r.Outage? && amount < failOpenLimit
    ensures r.Scored? ==> v.riskScore == r.score
    ensures r.Outage? ==> v.riskScore == if amount < failOpenLimit then -1 else 0
  {
    match r
    case Outage =>
      if amount < failOpenLimit
      then Verdict(true, false, -1, true)
      else Verdict(false, false, 0, false)
    case Scored(Approve, score) => Verdict(true, false, score, false)
    case Scored(StepUp, score) => Verdict(false, true, score, false)
    case Scored(Review, score) => Verdict(false, true, score, false)
    case Scored(Deny, score) => Verdict(false, false, score, false)
  }

  /** An approval, or an outage for an amount small enough to risk. */
  predicate LetsThrough(r: FraudReply, amount: int, failOpenLimit: int) {
    (r.Scored? && r.decision == Approve) || (r.Outage? && amount < failOpenLimit)
  }

  /** A request for a second factor or a manual review. */
  predicate AsksStepUp(r: FraudReply) {
    r.Scored? && (r.decision == StepUp || r.decision == Review)
  }
}
