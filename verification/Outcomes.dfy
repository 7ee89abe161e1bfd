/** Where an attempt on a new payment ends: an independent table over the services' answers. */
module Outcomes {
  import opened Wrappers
  import opened Payments
  import opened FraudClient
  import opened Driver
  import opened Attempts

  /** The whole of one pass: from the row, through a call and its write, back to the row. */
  lemma Pass2(t: Terms, ans: Answers, c: Core, write: Pc, c1: Core, c2: Core)
    requires var d := Dispatch(t, Load(c.row));
             !d.Idle? && Does(t, ans, c, d) == (c1, write) && !write.Idle? && !write.Start?
             && Does(t, ans, c1, write) == (c2, Start)
    ensures Advance(t, ans, c, []) == Advance(t, ans, c2, [])
  {
    var d := Dispatch(t, Load(c.row));
    Unfold(t, ans, c, Start, d);
    assert Hop(t, ans, Point(c, d, [])) == Point(c1, write, []);
    assert Hop(t, ans, Point(c1, write, [])) == Point(c2, Start, []);
    AdvanceIsRest(t, ans, c);
  }

  /** A pass that ends the attempt at the given place. */
  lemma PassEnds(t: Terms, ans: Answers, c: Core, last: Pc, c1: Core, c2: Core)
    requires var d := Dispatch(t, Load(c.row));
             !d.Idle? && Does(t, ans, c, d) == (c1, last) && !last.Idle? && !last.Start?
             && Does(t, ans, c1, last) == (c2, Idle)
    ensures Advance(t, ans, c, []) == c2
  {
    var d := Dispatch(t, Load(c.row));
    Unfold(t, ans, c, Start, d);
    assert Hop(t, ans, Point(c, d, [])) == Point(c1, last, []);
    assert Hop(t, ans, Point(c1, last, [])) == Point(c2, Idle, []);
    AdvanceIsRest(t, ans, c);
  }

  /**
   * What compensation makes of a payment: the hold the row knows is given back, unless the
   * account-service cannot be reached, and an open payment is failed and its event written in any
   * case.
   */
  function Failing(ans: Answers, c: Core, code: FailureCode): Core {
    var released := if c.row.holdId.Some? && Reached(ans) then ReleaseHold(c, c.row.holdId.value) else c;
    if c.row.status != Processing then released
    else
      var row := c.row.(status := Failed, step := Done, failureCode := Some(code), version := c.row.version + 1);
      released.(row := row, outbox := c.outbox + [PaymentFailed(code)])
  }

  /** A release takes effect, whether or not its reply arrives. */
  predicate Reached(ans: Answers) {
    ans.release.ReleaseDone? || ans.release.ReleaseLost?
  }

  lemma CompensationPass(t: Terms, ans: Answers, c: Core, code: FailureCode)
    ensures Burst(t, ans, Point(c, Compensate(Load(c.row), code), [])) == Point(Failing(ans, c, code), Idle, [])
  {
    var begin := Compensate(Load(c.row), code);
    var write := WriteFailed(Load(c.row), code);
    var released := if c.row.holdId.Some? && Reached(ans) then ReleaseHold(c, c.row.holdId.value) else c;
    if begin != write {
      assert Hop(t, ans, Point(c, begin, [])) == Point(released, write, []);
    }
    assert Hop(t, ans, Point(released, write, [])) == Point(Failing(ans, c, code), Idle, []);
  }

  /** A pass whose verdict compensates. */
  lemma PassFails(t: Terms, ans: Answers, c: Core, code: FailureCode)
    requires var d := Dispatch(t, Load(c.row));
             && !d.Idle?
             && (d == Compensate(Load(c.row), code) || Does(t, ans, c, d) == (c, Compensate(Load(c.row), code)))
    ensures Advance(t, ans, c, []) == Failing(ans, c, code)
  {
    var d := Dispatch(t, Load(c.row));
    var begin := Compensate(Load(c.row), code);
    Unfold(t, ans, c, Start, d);
    if d != begin {
      Unfold(t, ans, c, d, begin);
    }
    CompensationPass(t, ans, c, code);
    AdvanceIsRest(t, ans, c);
  }

  /** The row moved on to a step, with what it learns there. */
  function Moved(c: Core, step: Step, extra: Extra): Core {
    c.(row := WithExtra(c.row.(step := step, version := c.row.version + 1), extra))
  }

  /** Where an undisturbed attempt on a new payment ends, as a table over the services' answers. */
  function Outcome(t: Terms, ans: Answers): Core {
    var c := Created();
    if AsksStepUp(ans.fraud) then
      Moved(c.(row := c.row.(status := RequiresAction)), FraudScreened, SetRisk(ans.fraud.score))
    else if !LetsThrough(ans.fraud, t.amount, t.failOpenLimit) then Failing(ans, c, FraudDenied)
    else HoldOutcome(t, ans, Moved(c, FraudScreened, SetRisk(if ans.fraud.Outage? then -1 else ans.fraud.score)))
  }

  function HoldOutcome(t: Terms, ans: Answers, c: Core): Core {
    match ans.hold
    case HoldGranted(id) => SubmitOutcome(t, ans, Moved(c, FundsHeld, SetHold(id)).(hold := Hold(id, Active)))
    case HoldRefused => Failing(ans, c, InsufficientFunds)
    case _ => c
  }

  function SubmitOutcome(t: Terms, ans: Answers, c: Core): Core {
    if t.via.OtherMethod? then Failing(ans, c, GatewayDeclined)
    else match ans.auth
      case Approved =>
        var c' := Moved(c, Submitted, SetPspRef(t.pspRef));
        CaptureOutcome(t, ans, c'.(outbox := c.outbox + [PaymentAuthorized(c.row.holdId, t.pspRef)]))
      case Pending => Moved(c, Submitted, Nothing)
      case Declined => Failing(ans, c, GatewayDeclined)
      case Rejected => Failing(ans, c, GatewayDeclined)
      case _ => c
  }

  function CaptureOutcome(t: Terms, ans: Answers, c: Core): Core {
    match ans.capture
    case CaptureDone => LedgerOutcome(t, ans, Moved(c, PspCaptured, Nothing).(settled := true))
    case CaptureRefused => Failing(ans, c, GatewayCaptureFailed)
    case _ => c
  }

  function LedgerOutcome(t: Terms, ans: Answers, c: Core): Core {
    if ans.ledger != LedgerDone || c.hold.NoHold? then c
    else
      var c' := Moved(c.(row := c.row.(status := Succeeded)), Captured, Nothing);
      c'.(hold := Hold(c.hold.id, Taken), outbox := c.outbox + [PaymentCaptured(c.row.holdId, c.row.pspRef)])
  }

  lemma LedgerPass(t: Terms, ans: Answers, c: Core)
    requires c.row.status == Processing && c.row.step == PspCaptured && c.row.failureCode.None?
    requires c.hold.Hold? && c.hold.state == Active && c.row.holdId == Some(c.hold.id)
    ensures Advance(t, ans, c, []) == LedgerOutcome(t, ans, c)
  {
    var p := Load(c.row);
    if ans.ledger.LedgerDone? {
      var end := LedgerOutcome(t, ans, c);
      Pass2(t, ans, c, WriteCaptured(p), c.(hold := Hold(c.hold.id, Taken)), end);
      assert Hop(t, ans, Point(end, Start, [])) == Point(end, Idle, []);
    } else {
      PassEnds(t, ans, c, Touch, c, c);
    }
  }

  lemma CapturePass(t: Terms, ans: Answers, c: Core)
    requires c.row.status == Processing && c.row.step == Submitted && c.row.failureCode.None?
    requires c.row.pspRef.Some? && !t.via.OtherMethod? && !c.settled
    requires c.hold.Hold? && c.hold.state == Active && c.row.holdId == Some(c.hold.id)
    ensures Advance(t, ans, c, []) == CaptureOutcome(t, ans, c)
  {
    var p := Load(c.row);
    if ans.capture.CaptureDone? {
      var c' := Moved(c, PspCaptured, Nothing).(settled := true);
      Pass2(t, ans, c, WritePspCaptured(p), c.(settled := true), c');
      LedgerPass(t, ans, c');
    } else if ans.capture.CaptureRefused? {
      PassFails(t, ans, c, GatewayCaptureFailed);
    } else {
      PassEnds(t, ans, c, Touch, c, c);
    }
  }

  lemma SubmitPass(t: Terms, ans: Answers, c: Core)
    requires c.row.status == Processing && c.row.step == FundsHeld && c.row.failureCode.None?
    requires c.row.pspRef.None? && !c.settled
    requires c.hold.Hold? && c.hold.state == Active && c.row.holdId == Some(c.hold.id)
    ensures Advance(t, ans, c, []) == SubmitOutcome(t, ans, c)
  {
    var p := Load(c.row);
    if t.via.OtherMethod? || ans.auth.Declined? || ans.auth.Rejected? {
      PassFails(t, ans, c, GatewayDeclined);
    } else if ans.auth.Approved? {
      var c' := Moved(c, Submitted, SetPspRef(t.pspRef));
      c' := c'.(outbox := c.outbox + [PaymentAuthorized(c.row.holdId, t.pspRef)]);
      Pass2(t, ans, c, WriteSubmitted(p, Some(t.pspRef)), c, c');
      CapturePass(t, ans, c');
    } else if ans.auth.Pending? {
      PassEnds(t, ans, c, WriteSubmitted(p, None), c, Moved(c, Submitted, Nothing));
    } else {
      PassEnds(t, ans, c, Touch, c, c);
    }
  }

  lemma HoldPass(t: Terms, ans: Answers, c: Core)
    requires c.row.status == Processing && c.row.step == FraudScreened && c.row.failureCode.None?
    requires c.row.pspRef.None? && !c.settled && c.hold.NoHold? && c.row.holdId.None?
    ensures Advance(t, ans, c, []) == HoldOutcome(t, ans, c)
  {
    var p := Load(c.row);
    if ans.hold.HoldGranted? {
      var c' := Moved(c, FundsHeld, SetHold(ans.hold.id)).(hold := Hold(ans.hold.id, Active));
      Pass2(t, ans, c, WriteHeld(p, ans.hold.id), c.(hold := Hold(ans.hold.id, Active)), c');
      SubmitPass(t, ans, c');
    } else if ans.hold.HoldRefused? {
      PassFails(t, ans, c, InsufficientFunds);
    } else {
      Unfold(t, ans, c, Start, CallHold(p));
      assert Hop(t, ans, Point(c, CallHold(p), [])) == Point(c, Idle, []);
      AdvanceIsRest(t, ans, c);
    }
  }

  /** An undisturbed attempt on a new payment comes to what the table says. */
  lemma OutcomeOfAttempt(t: Terms, ans: Answers)
    ensures Advance(t, ans, Created(), []) == Outcome(t, ans)
  {
    var c := Created();
    var p := Load(c.row);
    var v := Screen(ans.fraud, t.amount, t.failOpenLimit);
    if AsksStepUp(ans.fraud) {
      PassEnds(t, ans, c, WriteScreened(p, v), c, Outcome(t, ans));
    } else if !LetsThrough(ans.fraud, t.amount, t.failOpenLimit) {
      PassFails(t, ans, c, FraudDenied);
    } else {
      var c' := Moved(c, FraudScreened, SetRisk(v.riskScore));
      Pass2(t, ans, c, WriteScreened(p, v), c, c');
      HoldPass(t, ans, c');
    }
  }

  predicate AllAgree(t: Terms, ans: Answers) {
    && LetsThrough(ans.fraud, t.amount, t.failOpenLimit)
    && ans.hold.HoldGranted? && !t.via.OtherMethod?
    && ans.auth.Approved? && ans.capture.CaptureDone? && ans.ledger.LedgerDone?
  }

  /** The money agrees with the verdict: taken on success, given back on failure if the release got through. */
  predicate Consistent(ans: Answers, c: Core) {
    && (c.row.status == Succeeded ==> c.settled && c.hold.Hold? && c.hold.state == Taken)
    && (c.row.status == Failed ==>
          !c.settled && (c.hold.NoHold? || c.hold.state == if Reached(ans) then Released else Active))
  }

  lemma SubmitMeaning(t: Terms, ans: Answers, c: Core)
    requires c.row.status == Processing && !c.settled && c.hold.Hold? && c.hold.state == Active
    requires c.row.holdId == Some(c.hold.id)
    ensures var c' := SubmitOutcome(t, ans, c);
            && Consistent(ans, c')
            && (c'.row.status == Succeeded <==>
                  !t.via.OtherMethod? && ans.auth.Approved? && ans.capture.CaptureDone? && ans.ledger.LedgerDone?)
  {
    if !t.via.OtherMethod? && ans.auth.Approved? {
      var c' := Moved(c, Submitted, SetPspRef(t.pspRef));
      c' := c'.(outbox := c.outbox + [PaymentAuthorized(c.row.holdId, t.pspRef)]);
      assert SubmitOutcome(t, ans, c) == CaptureOutcome(t, ans, c');
    }
  }

  /**
   * Any history of interrupted attempts on a new payment, followed by one that runs through, ends
   * as the table says: with success exactly when every party says yes, and with the hold taken on
   * success and given back on failure, or left to the failed event if the release errors.
   */
  lemma EventualOutcome(t: Terms, ans: Answers, attempts: seq<seq<Fault>>)
    ensures var c := Advance(t, ans, Attempt(t, ans, Created(), attempts), []);
            && c == Outcome(t, ans)
            && (c.row.status == Succeeded <==> AllAgree(t, ans))
            && Consistent(ans, c)
  {
    CrashTransparency(t, ans, Created(), attempts);
    OutcomeOfAttempt(t, ans);
    OutcomeMeaning(t, ans);
  }

  lemma OutcomeMeaning(t: Terms, ans: Answers)
    ensures Consistent(ans, Outcome(t, ans))
    ensures Outcome(t, ans).row.status == Succeeded <==> AllAgree(t, ans)
  {
    if !AsksStepUp(ans.fraud) && LetsThrough(ans.fraud, t.amount, t.failOpenLimit) && ans.hold.HoldGranted? {
      var c := Moved(Created(), FraudScreened, SetRisk(if ans.fraud.Outage? then -1 else ans.fraud.score));
      SubmitMeaning(t, ans, Moved(c, FundsHeld, SetHold(ans.hold.id)).(hold := Hold(ans.hold.id, Active)));
    }
  }

  /** An expiry sweep compensates whatever it reloads: it fails the payment only if it is still open. */
  lemma SweepCompensates(t: Terms, ans: Answers, c: Core, code: FailureCode)
    ensures Swept(t, ans, c, code) == Failing(ans, c, code)
  {
    assert Hop(t, ans, Point(c, SweepLoad(code), [])) == Point(c, Compensate(Load(c.row), code), []);
    CompensationPass(t, ans, c, code);
  }
}
