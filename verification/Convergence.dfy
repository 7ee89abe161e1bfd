/**
 * Attempts do not only keep the payment safe, they finish it: once the services answer, one attempt
 * that nothing disturbs leaves no payment in between, wherever crashes had left it.
 */
module Convergence {
  import opened Wrappers
  import opened Payments
  import opened Driver
  import opened Attempts
  import H = Histories
  import I = Interleaved
  import O = Outcomes
  import Redelivery
  import S = Serial

  /** Every service answers, one way or the other, and the ledger books what it can. */
  predicate Answering(ans: Answers) {
    && (ans.hold.HoldGranted? || ans.hold.HoldRefused?)
    && (ans.auth.Approved? || ans.auth.Pending? || ans.auth.Declined? || ans.auth.Rejected?)
    && (ans.capture.CaptureDone? || ans.capture.CaptureRefused?)
    && ans.ledger.LedgerDone?
  }

  /** Collected by the processor, with the hold the ledger should capture already released. */
  predicate Unbookable(c: Core) {
    c.row.status == Processing && c.row.step == PspCaptured && c.hold.Hold? && c.hold.state == Released
  }

  /** Nothing is left for an attempt to do. */
  predicate Over(c: Core) {
    c.row.status != Processing || Redelivery.Waiting(c) || Unbookable(c)
  }

  /** Submitted once more as pending, with the reference of an earlier submission. */
  predicate Resubmitted(c: Core) {
    c.row.status == Processing && c.row.step == Submitted && c.row.pspRef.Some?
  }

  /** What every run, interleaved or serial, guarantees of an open payment. */
  predicate Open(c: Core) {
    && c.row.status == Processing
    && I.Coupled(c.row.status, c.row.step)
    && HoldKnown(c)
  }

  predicate HoldKnown(c: Core) {
    I.Holding(c.row.step) ==> c.hold.Hold? && c.row.holdId == Some(c.hold.id)
  }

  /** How a pass may end: at a reload, or for good, or at a submission that is pending again. */
  predicate Ends(ans: Answers, c: Core, b: Point) {
    if b.pc.Start? then
      b.c.row.status == Processing ==> Open(b.c)
    else
      Over(b.c) || (Resubmitted(b.c) && Open(b.c) && ans.auth.Pending? && !Sound(c))
  }

  lemma FailingEnds(t: Terms, ans: Answers, c: Core, code: FailureCode)
    requires c.row.status == Processing
    ensures var b := Burst(t, ans, Point(c, Compensate(Load(c.row), code), []));
            b.pc.Idle? && b.c.row.status == Failed
  {
    O.CompensationPass(t, ans, c, code);
  }

  lemma WriteEnds(t: Terms, ans: Answers, c: Core, write: Pc)
    requires Rank(write) == 3 && !write.WriteCompletion? && !write.WriteResumed? && write.p == Load(c.row)
    requires c.row.status == Processing && HoldKnown(c) && OnStep(c, write)
    requires write.WriteHeld? ==> c.hold.Hold? && c.hold.id == write.id
    requires write.WriteSubmitted? && write.ref.None? ==> ans.auth.Pending?
    ensures Ends(ans, c, Burst(t, ans, Point(c, write, [])))
  {
    var h := Hop(t, ans, Point(c, write, []));
    assert Does(t, ans, c, write) == (h.c, h.pc);
  }

  /** One call and what follows it, up to the next reload or the end of the attempt. */
  lemma CallEnds(t: Terms, ans: Answers, c: Core, d: Pc)
    requires Open(c) && Answering(ans) && d == Dispatch(t, Load(c.row)) && Rank(d) == 4
    ensures Ends(ans, c, Burst(t, ans, Point(c, d, [])))
  {
    var p := Load(c.row);
    var (c1, next) := Does(t, ans, c, d);
    assert Hop(t, ans, Point(c, d, [])) == Point(c1, next, []);
    CallLeads(t, ans, c, d, c1, next);
    if next.Touch? {
      assert Hop(t, ans, Point(c1, next, [])) == Point(c1, Idle, []);
    } else if Rank(next) == 3 {
      WriteEnds(t, ans, c1, next);
    } else {
      FailingEnds(t, ans, c1, next.code);
    }
  }

  lemma CallLeads(t: Terms, ans: Answers, c: Core, d: Pc, c1: Core, next: Pc)
    requires Open(c) && Answering(ans) && d == Dispatch(t, Load(c.row)) && Rank(d) == 4
    requires Does(t, ans, c, d) == (c1, next)
    ensures c1.row == c.row && HoldKnown(c1)
    ensures || (next.Touch? && Unbookable(c1))
            || (Rank(next) == 3 && next.p == Load(c.row) && OnStep(c1, next) && !next.WriteCompletion? &&
                !next.WriteResumed?)
            || ((next.CallRelease? || next.WriteFailed?) && next == Compensate(Load(c.row), next.code))
    ensures next.WriteHeld? ==> c1.hold.Hold? && c1.hold.id == next.id
    ensures next.WriteSubmitted? && next.ref.None? ==> ans.auth.Pending?
  {
  }

  lemma PassEnds(t: Terms, ans: Answers, c: Core)
    requires Open(c) && Answering(ans)
    ensures Ends(ans, c, Burst(t, ans, Point(c, Start, [])))
  {
    var d := Dispatch(t, Load(c.row));
    assert Hop(t, ans, Point(c, Start, [])) == Point(c, d, []);
    if !d.Idle? {
      Unfold(t, ans, c, Start, d);
      if Rank(d) == 4 {
        CallEnds(t, ans, c, d);
      } else {
        FailingEnds(t, ans, c, GatewayDeclined);
      }
    }
  }

  lemma DoneStaysDone(t: Terms, ans: Answers, c: Core)
    requires c.row.status != Processing
    ensures Advance(t, ans, c, []) == c
  {
    assert Hop(t, ans, Point(c, Start, [])) == Point(c, Idle, []);
    AdvanceIsRest(t, ans, c);
  }

  /**
   * An attempt leaves nothing to do, unless its submission is pending although an earlier one, since
   * undone by a stale step-up verdict, has left its reference behind.
   */
  lemma {:induction false} AttemptEnds(t: Terms, ans: Answers, c: Core)
    requires Open(c) && Answering(ans)
    ensures var c' := Advance(t, ans, c, []);
            Over(c') || (Resubmitted(c') && Open(c') && ans.auth.Pending? && !Sound(c))
    decreases 6 - StepRank(c.row.step)
  {
    var at := Point(c, Start, []);
    var b := Burst(t, ans, at);
    PassEnds(t, ans, c);
    BurstProgress(t, ans, at);
    AdvanceIsRest(t, ans, c);
    if b.pc.Start? {
      if Sound(c) {
        BurstTransparent(t, ans, c, Start, []);
      }
      if b.c.row.status == Processing {
        AttemptEnds(t, ans, b.c);
      } else {
        DoneStaysDone(t, ans, b.c);
      }
    }
  }

  /** From a submission with its reference on, no further one is made. */
  lemma ResubmittedEnds(t: Terms, ans: Answers, c: Core)
    requires Open(c) && Resubmitted(c) && Answering(ans)
    ensures Over(Advance(t, ans, c, []))
  {
    AttemptEnds(t, ans, c);
  }

  // ---------------------------------------------------------------- under full interleaving

  lemma InterleavedOpen(t: Terms, now: nat, acts: seq<I.Timed>)
    ensures var c := I.Run(I.Initial(t, now), acts).c; c.row.status == Processing ==> Open(c)
  {
    I.InitialInv(t, now);
    I.RunKeeps(I.Initial(t, now), acts);
  }

  /**
   * Convergence under full interleaving: whatever races and crashes have made of a payment, even a
   * row that a stale step-up verdict has pulled back, once its drivers are gone two attempts against
   * services that answer end it, or leave it waiting for the processor's completion, or, its hold
   * being lost, at psp_captured. One is enough, unless the payment had been submitted before it was
   * pulled back and the processor now answers that it is pending.
   */
  lemma EveryRaceEnds(t: Terms, ans: Answers, now: nat, acts: seq<I.Timed>)
    requires Answering(ans)
    ensures var c := I.Run(I.Initial(t, now), acts).c;
            var once := Advance(t, ans, c, []);
            && (Over(once) || (Resubmitted(once) && ans.auth.Pending? && !Sound(c)))
            && Over(Advance(t, ans, once, []))
  {
    var c := I.Run(I.Initial(t, now), acts).c;
    InterleavedOpen(t, now, acts);
    if c.row.status == Processing {
      AttemptEnds(t, ans, c);
    } else {
      DoneStaysDone(t, ans, c);
    }
    var once := Advance(t, ans, c, []);
    if Resubmitted(once) && Open(once) {
      ResubmittedEnds(t, ans, once);
    } else {
      OverStaysOver(t, ans, once);
    }
  }

  lemma OverStaysOver(t: Terms, ans: Answers, c: Core)
    requires Over(c)
    ensures Over(Advance(t, ans, c, []))
  {
    var d := Dispatch(t, Load(c.row));
    assert Hop(t, ans, Point(c, Start, [])) == Point(c, d, []);
    AdvanceIsRest(t, ans, c);
    if !d.Idle? {
      Unfold(t, ans, c, Start, d);
      assert Hop(t, ans, Point(c, d, [])) == Point(c, Touch, []);
      assert Hop(t, ans, Point(c, Touch, [])) == Point(c, Idle, []);
      Unfold(t, ans, c, d, Touch);
    }
  }

  // ---------------------------------------------------------------- no attempt of its own makes a payment unbookable

  /** Nobody dies, and no hold lapses. */
  predicate Undisturbed(acts: seq<S.Action>) {
    forall a :: a in acts ==> !a.Die? && !a.HoldLapses?
  }

  lemma {:induction false} BurstUndisturbed(t: Terms, ans: Answers, c: Core, pc: Pc)
    requires !pc.Idle?
    ensures Undisturbed(H.BurstActs(t, ans, Point(c, pc, [])))
    decreases Rank(pc)
  {
    var at := Point(c, pc, []);
    var h := Hop(t, ans, at);
    HopDescends(t, ans, at);
    if !h.pc.Idle? && !h.pc.Start? {
      BurstUndisturbed(t, ans, h.c, h.pc);
    }
  }

  lemma {:induction false} AdvanceUndisturbed(t: Terms, ans: Answers, c: Core)
    ensures Undisturbed(H.AdvanceActs(t, ans, c, []))
    decreases 6 - StepRank(c.row.step)
  {
    var at := Point(c, Start, []);
    var b := Burst(t, ans, at);
    BurstProgress(t, ans, at);
    BurstUndisturbed(t, ans, c, Start);
    if b.pc.Start? {
      AdvanceUndisturbed(t, ans, b.c);
    }
  }

  lemma {:induction false} UndisturbedKeepsHold(t: Terms, s: S.Solo, acts: seq<S.Action>)
    requires Undisturbed(acts)
    ensures !S.Torn(t, s, acts) && !S.Lapsed(t, s, acts)
    decreases |acts|
  {
    if acts != [] {
      assert acts[0] in acts;
      UndisturbedKeepsHold(t, S.Next(t, s, acts[0]), acts[1..]);
    }
  }

  lemma AttemptKeepsHold(t: Terms, ans: Answers, c: Core)
    requires c.row.status == Processing && S.RowOk(S.Solo(c, Idle, false, false))
    requires !(c.hold.Hold? && c.hold.state == Released)
    ensures !Unbookable(Advance(t, ans, c, []))
  {
    var s, acts := S.Solo(c, Start, false, false), H.AdvanceActs(t, ans, c, []);
    H.AdvanceIsSerial(t, ans, c, [], s, true);
    AdvanceUndisturbed(t, ans, c);
    UndisturbedKeepsHold(t, s, acts);
    S.HoldKeptRun(t, s, acts);
  }

  /**
   * Convergence: in whatever state any serial run has left a payment, one attempt against services
   * that answer ends it, or leaves it waiting for the processor's completion, or, only if some
   * compensation was torn apart or the hold had lapsed, at psp_captured without its hold. Nothing
   * else stays in processing.
   */
  lemma EveryPaymentEnds(t: Terms, ans: Answers, acts: seq<S.Action>)
    requires Answering(ans) && S.Run(t, S.Initial(), acts).pc.Idle?
    ensures var c := Advance(t, ans, S.Run(t, S.Initial(), acts).c, []);
            && (c.row.status == Processing ==> Redelivery.Waiting(c) || Unbookable(c))
            && (Unbookable(c) ==> S.Torn(t, S.Initial(), acts) || S.Lapsed(t, S.Initial(), acts))
  {
    var s := S.Run(t, S.Initial(), acts);
    S.RunKeeps(t, S.Initial(), acts);
    H.SoundRun(t, S.Initial(), acts);
    if s.c.row.status == Processing {
      AttemptEnds(t, ans, s.c);
      if !S.Torn(t, S.Initial(), acts) && !S.Lapsed(t, S.Initial(), acts) {
        S.HoldKeptRun(t, S.Initial(), acts);
        AttemptKeepsHold(t, ans, s.c);
      }
    } else {
      DoneStaysDone(t, ans, s.c);
    }
  }
}
