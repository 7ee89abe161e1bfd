/**
 * The drivers that do not begin with Advance: what a gateway completion and a step-up resume make of
 * a payment, said of its columns.
 */
module Entries {
  import opened Wrappers
  import opened Payments
  import opened FraudClient
  import opened Driver
  import opened Attempts
  import O = Outcomes
  import Redelivery

  // ---------------------------------------------------------------- a declined completion

  /**
   * An undisturbed decline fails a payment at the gateway as gateway_declined, tells its subscribers,
   * and gives back the hold it knows; any other payment it leaves alone.
   */
  lemma DeclineCompensates(t: Terms, ans: Answers, c: Core)
    ensures var c' := Drive(t, ans, c, CompletionLoad(false), []);
            if Redelivery.Acts(c) then
              && c' == O.Failing(ans, c, GatewayDeclined)
              && c'.row.status == Failed && c'.row.failureCode == Some(GatewayDeclined)
              && c'.outbox == c.outbox + [PaymentFailed(GatewayDeclined)]
              && (c.hold.Hold? && c.hold.state == Active && c.row.holdId == Some(c.hold.id) && O.Reached(ans) ==>
                    c'.hold == Hold(c.hold.id, Released))
            else c' == c
  {
    var at := Point(c, CompletionLoad(false), []);
    var begin := Compensate(Load(c.row), GatewayDeclined);
    if Redelivery.Acts(c) {
      assert Hop(t, ans, at) == Point(c, begin, []);
      O.CompensationPass(t, ans, c, GatewayDeclined);
      assert Burst(t, ans, at) == Burst(t, ans, Point(c, begin, []));
    } else {
      assert Hop(t, ans, at) == Point(c, Idle, []);
    }
  }

  /** A compensation that is cut has failed the payment as it should, or not at all. */
  lemma CompensationCut(t: Terms, ans: Answers, c: Core, code: FailureCode, faults: seq<Fault>)
    ensures var b, whole := Burst(t, ans, Point(c, Compensate(Load(c.row), code), faults)), O.Failing(ans, c, code);
            && b.pc.Idle?
            && ((b.c.row == c.row && b.c.outbox == c.outbox) || (b.c.row == whole.row && b.c.outbox == whole.outbox))
  {
    var at := Point(c, Compensate(Load(c.row), code), faults);
    var h := Hop(t, ans, at);
    if at.pc.CallRelease? {
      ReleaseKeepsRow(t, ans, c, code, faults);
      if !h.pc.Idle? {
        assert Burst(t, ans, at) == Hop(t, ans, h);
        FailureCut(t, ans, c, h, code);
      }
    } else {
      FailureCut(t, ans, c, at, code);
    }
  }

  lemma ReleaseKeepsRow(t: Terms, ans: Answers, c: Core, code: FailureCode, faults: seq<Fault>)
    ensures var h := Hop(t, ans, Point(c, CallRelease(Load(c.row), code), faults));
            h.c.row == c.row && h.c.outbox == c.outbox && (h.pc.Idle? || h.pc == WriteFailed(Load(c.row), code))
  {
  }

  lemma FailureCut(t: Terms, ans: Answers, c: Core, at: Point, code: FailureCode)
    requires at.c.row == c.row && at.c.outbox == c.outbox && at.pc == WriteFailed(Load(c.row), code)
    ensures var h, whole := Hop(t, ans, at), O.Failing(ans, c, code);
            && h.pc.Idle?
            && ((h.c.row == c.row && h.c.outbox == c.outbox) || (h.c.row == whole.row && h.c.outbox == whole.outbox))
  {
    var c' := Does(t, ans, at.c, at.pc).0;
    assert c.row.status != Processing ==> c' == at.c;
  }

  /** However it is cut, a decline leaves the row as it was, or failed as gateway_declined with its event. */
  lemma DeclineIsAllOrNothing(t: Terms, ans: Answers, c: Core, faults: seq<Fault>)
    ensures var c', whole := Drive(t, ans, c, CompletionLoad(false), faults), O.Failing(ans, c, GatewayDeclined);
            || (c'.row == c.row && c'.outbox == c.outbox)
            || (Redelivery.Acts(c) && c'.row == whole.row && c'.outbox == whole.outbox)
    ensures !Redelivery.Acts(c) ==> Drive(t, ans, c, CompletionLoad(false), faults) == c
  {
    var at := Point(c, CompletionLoad(false), faults);
    var h := Hop(t, ans, at);
    DeclineLoads(t, ans, c, faults);
    if !h.pc.Idle? {
      CompensationCut(t, ans, c, GatewayDeclined, h.faults);
      assert Burst(t, ans, at) == Burst(t, ans, h);
    }
  }

  lemma DeclineLoads(t: Terms, ans: Answers, c: Core, faults: seq<Fault>)
    ensures var h := Hop(t, ans, Point(c, CompletionLoad(false), faults));
            && h.c == c
            && (h.pc.Idle? || (Redelivery.Acts(c) && h.pc == Compensate(Load(c.row), GatewayDeclined)))
  {
  }

  // ---------------------------------------------------------------- an approved completion

  /** An undisturbed approval writes the reference and goes on as Advance does. */
  lemma ApprovalContinues(t: Terms, ans: Answers, c: Core)
    ensures var c' := Drive(t, ans, c, CompletionLoad(true), []);
            if Redelivery.Acts(c) then
              c' == Advance(t, ans, c.(row := c.row.(pspRef := Some(t.pspRef), version := c.row.version + 1)), [])
            else c' == c
  {
    Redelivery.CompletionCases(t, ans, c, []);
  }

  /** Both outcomes together: undisturbed, and for a payment that is not at the gateway. */
  lemma CompletionMeans(t: Terms, ans: Answers, c: Core, approved: bool, faults: seq<Fault>)
    ensures var c' := Drive(t, ans, c, CompletionLoad(approved), faults);
            && (!Redelivery.Acts(c) ==> c' == c)
            && (Redelivery.Acts(c) && faults == [] ==>
                  c' == if approved then Advance(t, ans, Redelivery.Stamped(t, c), [])
                        else O.Failing(ans, c, GatewayDeclined))
  {
    if approved {
      Redelivery.CompletionCases(t, ans, c, faults);
    } else {
      DeclineIsAllOrNothing(t, ans, c, faults);
      DeclineCompensates(t, ans, c);
    }
  }

  // ---------------------------------------------------------------- the owner's resume

  /** The row a resume writes: open again, at the step after the screen it need not repeat. */
  function Resumed(c: Core): Core {
    c.(row := c.row.(status := Processing, step := FraudScreened, version := c.row.version + 1))
  }

  /** An undisturbed resume of a parked payment by its owner reopens it and goes on as Advance does. */
  lemma ResumeContinues(t: Terms, ans: Answers, c: Core, user: string)
    ensures var c' := Drive(t, ans, c, ResumeLoad(user), []);
            if c.row.status == RequiresAction && user == t.user then c' == Advance(t, ans, Resumed(c), [])
            else c' == c
  {
    var at := Point(c, ResumeLoad(user), []);
    if c.row.status == RequiresAction && user == t.user {
      var write := Point(c, WriteResumed(Load(c.row)), []);
      assert Hop(t, ans, at) == write;
      assert Hop(t, ans, write) == Point(Resumed(c), Start, []);
      assert Burst(t, ans, at) == Point(Resumed(c), Start, []);
    } else {
      assert Hop(t, ans, at) == Point(c, Idle, []);
    }
  }

  /** So a payment parked before any hold ends as one that was let through at once, but for its score. */
  lemma ResumeIsLettingThrough(t: Terms, ans: Answers, c: Core)
    requires c.row.status == RequiresAction && c.row.step == FraudScreened && c.row.failureCode.None?
    requires c.row.pspRef.None? && c.row.holdId.None? && c.hold.NoHold? && !c.settled
    ensures Drive(t, ans, c, ResumeLoad(t.user), []) == O.HoldOutcome(t, ans, Resumed(c))
  {
    ResumeContinues(t, ans, c, t.user);
    O.HoldPass(t, ans, Resumed(c));
  }

  // ---------------------------------------------------------------- who may begin

  /**
   * A pass, a completion and a resume may begin at any payment; the sweeps pick payments at the
   * gateway, those of captures only with a reference; and nothing else begins.
   */
  lemma MayBegin(row: Row, entry: Pc)
    ensures MayStart(row, entry) <==>
              || entry == Start || entry.CompletionLoad? || entry.ResumeLoad?
              || (&& entry == SweepLoad(GatewayUnavailable)
                  && row.status == Processing && row.step == FundsHeld)
              || (&& entry == SweepLoad(GatewayCaptureFailed)
                  && row.status == Processing && row.step == Submitted && row.pspRef.Some?)
  {
  }

  // ---------------------------------------------------------------- replies that are lost

  /**
   * A reply that is lost is a death right after the effect: the service has done what it would have
   * answered, the row is not written, and the driver ends, or merely touches the row, or, for a
   * release, goes on to the failure.
   */
  lemma LostReplies(t: Terms, c: Core, p: Payment, id: nat, code: FailureCode)
    ensures Fits(c, CallHold(p), HoldLost(id)) ==>
              Exec(t, c, CallHold(p), HoldLost(id)) == (Exec(t, c, CallHold(p), HoldGranted(id)).0, Idle)
    ensures Exec(t, c, CallCapture(p), CaptureLost) == (c.(settled := true), Touch)
    ensures Fits(c, CallLedger(p), LedgerLost) ==>
              Exec(t, c, CallLedger(p), LedgerLost) == (Exec(t, c, CallLedger(p), LedgerDone).0, Touch)
    ensures Exec(t, c, CallRelease(p, code), ReleaseLost) == Exec(t, c, CallRelease(p, code), ReleaseDone)
  {
  }

  /** A service that does not answer changes nothing, and nothing is written for it but a timestamp. */
  lemma NoReply(t: Terms, c: Core, p: Payment, code: FailureCode)
    ensures Exec(t, c, CallHold(p), Unavailable) == (c, Idle)
    ensures Exec(t, c, CallAuthorize(p), Unavailable) == (c, Touch)
    ensures Exec(t, c, CallCapture(p), Unavailable) == (c, Touch)
    ensures Exec(t, c, CallLedger(p), Unavailable) == (c, Touch)
    ensures Exec(t, c, CallRelease(p, code), Unavailable) == (c, WriteFailed(p, code))
    ensures Exec(t, c, Touch, Stored) == (c, Idle)
  {
  }
}
