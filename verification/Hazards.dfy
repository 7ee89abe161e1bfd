/**
 * When a race can still undo a payment: exact conditions on its present drivers, under full
 * interleaving, for the two races of which Races gives runs.
 */
module Hazards {
  import opened Wrappers
  import opened Payments
  import opened FraudClient
  import opened Driver
  import I = Interleaved

  /** The driver may yet fail, or park, whatever payment it finds. */
  predicate Dangerous(pc: Pc) {
    || pc.CallFraud? || (pc.WriteScreened? && pc.v.requiresAction)
    || pc.CallAuthorize? || pc.CallCapture?
    || pc.SweepLoad? || pc.CallRelease? || pc.WriteFailed?
  }

  predicate Endangered(s: I.Saga) {
    exists w :: w in s.workers && Dangerous(s.workers[w])
  }

  /** The row says that the processor has the money. */
  predicate Committed(s: I.Saga) {
    (s.c.row.step == PspCaptured && s.c.row.status == Processing) || s.c.row.status == Succeeded
  }

  // ---------------------------------------------------------------- no danger, no way back

  predicate Calm(s: I.Saga) {
    I.Inv(s) && Committed(s) && !Endangered(s)
  }

  lemma CalmMove(s: I.Saga, w: nat, r: Reply, now: nat)
    requires Calm(s) && w in s.workers && Fits(s.c, s.workers[w], r)
    ensures var (c', pc') := Exec(s.t, s.c, s.workers[w], r);
            !Dangerous(pc') && (c'.row == s.c.row || (c'.row.status == Succeeded && c'.row.step == Captured))
  {
    assert I.WorkerOk(s, s.workers[w]);
    assert !Dangerous(s.workers[w]);
  }

  lemma CalmStep(s: I.Saga, a: I.Action, now: nat)
    requires Calm(s)
    ensures Calm(I.Next(s, a, now))
  {
    var s' := I.Next(s, a, now);
    I.NextKeeps(s, a, now);
    if a.Move? && a.w in s.workers && Fits(s.c, s.workers[a.w], a.r) {
      CalmMove(s, a.w, a.r, now);
    }
    forall w | w in s'.workers ensures !Dangerous(s'.workers[w]) {
      assert w in s.workers ==> !Dangerous(s.workers[w]);
    }
  }

  lemma {:induction false} CalmRun(s: I.Saga, acts: seq<I.Timed>)
    requires Calm(s)
    ensures Calm(I.Run(s, acts))
    decreases |acts|
  {
    if acts != [] {
      CalmStep(s, acts[0].a, acts[0].now);
      CalmRun(I.Next(s, acts[0].a, acts[0].now), acts[1..]);
    }
  }

  // ---------------------------------------------------------------- danger, and a way back

  /** The next reply that brings the driver closer to failing the payment. */
  function Bad(pc: Pc): Reply {
    match pc
    case CallFraud(_) => Screened(Scored(StepUp, 0))
    case CallAuthorize(_) => Declined
    case CallCapture(_) => CaptureRefused
    case CallRelease(_, _) => ReleaseDone
    case _ => Stored
  }

  /** How many such replies it takes. */
  function Distance(pc: Pc): nat {
    match pc
    case WriteFailed(_, _) | WriteScreened(_, _) => 1
    case CallRelease(_, _) | CallFraud(_) => 2
    case _ => 3
  }

  lemma BadStep(s: I.Saga, pc: Pc, c': Core, pc': Pc)
    requires I.WorkerOk(s, pc) && s.c.row.status == Processing && Dangerous(pc)
    requires Fits(s.c, pc, Bad(pc)) && Exec(s.t, s.c, pc, Bad(pc)) == (c', pc')
    ensures if pc.WriteFailed? then c'.row.status == Failed
            else if pc.WriteScreened? then c'.row.status == RequiresAction
            else
              && c'.row == s.c.row && Dangerous(pc') && Distance(pc') < Distance(pc)
              && (pc.CallFraud? ==> pc'.WriteScreened?)
  {
  }

  lemma BadMove(s: I.Saga, w: nat)
    requires I.Inv(s) && s.c.row.status == Processing && w in s.workers && Dangerous(s.workers[w])
    ensures Fits(s.c, s.workers[w], Bad(s.workers[w]))
    ensures var pc, s' := s.workers[w], I.Next(s, I.Move(w, Bad(s.workers[w])), 0);
            if pc.WriteFailed? then s'.c.row.status == Failed
            else if pc.WriteScreened? then s'.c.row.status == RequiresAction
            else
              && s'.c.row == s.c.row && w in s'.workers
              && Dangerous(s'.workers[w]) && Distance(s'.workers[w]) < Distance(pc)
              && (pc.CallFraud? ==> s'.workers[w].WriteScreened?)
  {
    var pc := s.workers[w];
    var (c', pc') := Exec(s.t, s.c, pc, Bad(pc));
    BadStep(s, pc, c', pc');
  }

  lemma Prepend(s: I.Saga, a: I.Action, acts: seq<I.Timed>)
    ensures I.Run(s, [I.At(a, 0)] + acts) == I.Run(I.Next(s, a, 0), acts)
  {
    assert ([I.At(a, 0)] + acts)[1..] == acts;
  }

  lemma {:induction false} DangerFails(s: I.Saga, w: nat) returns (acts: seq<I.Timed>)
    requires I.Inv(s) && s.c.row.status == Processing && w in s.workers && Dangerous(s.workers[w])
    ensures I.Run(s, acts).c.row.status == Failed
    ensures s.workers[w].CallFraud? || s.workers[w].WriteScreened? ==>
              I.Run(s, acts).c.row.failureCode == Some(StepUpExpired)
    decreases Distance(s.workers[w])
  {
    var pc := s.workers[w];
    var move := I.Move(w, Bad(pc));
    var s' := I.Next(s, move, 0);
    BadMove(s, w);
    I.NextKeeps(s, move, 0);
    if pc.WriteFailed? {
      acts := [];
    } else if pc.WriteScreened? {
      Prepend(s', I.StepUpExpires, []);
      acts := [I.At(I.StepUpExpires, 0)] + [];
    } else {
      acts := DangerFails(s', w);
    }
    Prepend(s, move, acts);
    acts := [I.At(move, 0)] + acts;
  }

  lemma Reached(t: Terms, now: nat, acts: seq<I.Timed>)
    ensures I.Inv(I.Run(I.Initial(t, now), acts))
  {
    I.InitialInv(t, now);
    I.RunKeeps(I.Initial(t, now), acts);
  }

  /**
   * The point of no return under full interleaving: a payment at psp_captured can no longer fail,
   * and no driver will release its hold, if and only if no driver that was under way when it got
   * there is still at a call that may be turned down, at a step-up verdict, or in a compensation.
   */
  lemma NoReturnExactly(t: Terms, now: nat, acts: seq<I.Timed>)
    requires var row := I.Run(I.Initial(t, now), acts).c.row; row.step == PspCaptured && row.status == Processing
    ensures var s := I.Run(I.Initial(t, now), acts);
            && ((forall more :: I.Run(s, more).c.row.status != Failed) <==> !Endangered(s))
            && (!Endangered(s) ==>
                  forall more, w :: w in I.Run(s, more).workers ==> !I.Run(s, more).workers[w].CallRelease?)
  {
    var s := I.Run(I.Initial(t, now), acts);
    Reached(t, now, acts);
    if Endangered(s) {
      var w :| w in s.workers && Dangerous(s.workers[w]);
      var more := DangerFails(s, w);
    } else {
      forall more ensures Calm(I.Run(s, more)) {
        CalmRun(s, more);
      }
      forall more, w | w in I.Run(s, more).workers ensures !I.Run(s, more).workers[w].CallRelease? {
        assert Calm(I.Run(s, more));
        assert !Dangerous(I.Run(s, more).workers[w]);
      }
    }
  }

  // ---------------------------------------------------------------- step-up expiry over a hold

  /** A driver that screens, or has been told to ask for the second factor. */
  predicate Screens(pc: Pc) {
    pc.CallFraud? || (pc.WriteScreened? && pc.v.requiresAction)
  }

  predicate Screening(s: I.Saga) {
    exists w :: w in s.workers && Screens(s.workers[w])
  }

  /** Who holds funds, or is about to, does so for a payment that has left its first step for good. */
  predicate Begun(s: I.Saga) {
    && (s.c.hold.Hold? ==> s.c.row.step != Requested)
    && (s.c.row.step == Requested ==> s.c.row.status == Processing)
    && (forall w :: w in s.workers && s.workers[w].CallHold? ==> s.c.row.step != Requested)
  }

  lemma BegunStep(s: I.Saga, a: I.Action, now: nat)
    requires I.Inv(s) && Begun(s)
    ensures Begun(I.Next(s, a, now))
  {
    if a.Move? && a.w in s.workers && Fits(s.c, s.workers[a.w], a.r) {
      assert I.WorkerOk(s, s.workers[a.w]);
      LeavesRequested(s, s.workers[a.w], a.r);
    }
  }

  lemma LeavesRequested(s: I.Saga, pc: Pc, r: Reply)
    requires I.RowOk(s) && I.WorkerOk(s, pc) && Fits(s.c, pc, r)
    ensures var (c', pc') := Exec(s.t, s.c, pc, r);
            && (s.c.row.step != Requested ==> c'.row.step != Requested)
            && (c'.row.step == Requested && s.c.row.status == Processing ==> c'.row.status == Processing)
            && (pc'.CallHold? ==> c'.row.step != Requested)
            && (c'.hold.Hold? && !pc.CallHold? ==> s.c.hold.Hold?)
            && (pc.CallHold? ==> c'.row == s.c.row)
  {
  }

  lemma {:induction false} BegunRun(s: I.Saga, acts: seq<I.Timed>)
    requires I.Inv(s) && Begun(s)
    ensures I.Inv(I.Run(s, acts)) && Begun(I.Run(s, acts))
    decreases |acts|
  {
    if acts != [] {
      BegunStep(s, acts[0].a, acts[0].now);
      I.NextKeeps(s, acts[0].a, acts[0].now);
      BegunRun(I.Next(s, acts[0].a, acts[0].now), acts[1..]);
    }
  }

  /** The expiry statement may still take the payment away. */
  predicate Exposed(s: I.Saga) {
    || s.c.row.status == RequiresAction
    || s.c.row.failureCode == Some(StepUpExpired)
    || (s.c.row.status == Processing && Screening(s))
  }

  predicate Sheltered(s: I.Saga) {
    I.Inv(s) && Begun(s) && s.c.hold.Hold? && !Exposed(s)
  }

  /** What a driver's step may make of a payment whose funds are held. */
  predicate KeepsShelter(c: Core, c': Core, pc': Pc) {
    && c'.hold.Hold?
    && c'.row.status != RequiresAction && c'.row.failureCode != Some(StepUpExpired)
    && (c'.row.status == Processing ==> c.row.status == Processing && !Screens(pc'))
  }

  predicate Unexposed(c: Core, pc: Pc) {
    && c.hold.Hold? && c.row.step != Requested
    && c.row.status != RequiresAction && c.row.failureCode != Some(StepUpExpired)
    && (c.row.status == Processing ==> !Screens(pc))
  }

  lemma ShelteredCall(s: I.Saga, pc: Pc, r: Reply, c': Core, pc': Pc)
    requires I.RowOk(s) && I.WorkerOk(s, pc) && Unexposed(s.c, pc)
    requires Fits(s.c, pc, r) && Exec(s.t, s.c, pc, r) == (c', pc')
    requires pc.CallFraud? || pc.CallHold? || pc.CallAuthorize? || pc.CallCapture? || pc.CallLedger? || pc.CallRelease?
    ensures KeepsShelter(s.c, c', pc')
  {
  }

  lemma ShelteredWrite(s: I.Saga, pc: Pc, r: Reply, c': Core, pc': Pc)
    requires I.RowOk(s) && I.WorkerOk(s, pc) && Unexposed(s.c, pc)
    requires Fits(s.c, pc, r) && Exec(s.t, s.c, pc, r) == (c', pc')
    requires pc.WriteScreened? || pc.WriteHeld? || pc.WriteSubmitted? || pc.WritePspCaptured? || pc.WriteCaptured? ||
               pc.WriteFailed?
    ensures KeepsShelter(s.c, c', pc')
  {
  }

  lemma ShelteredEntry(s: I.Saga, pc: Pc, r: Reply, c': Core, pc': Pc)
    requires I.RowOk(s) && I.WorkerOk(s, pc) && Unexposed(s.c, pc)
    requires Fits(s.c, pc, r) && Exec(s.t, s.c, pc, r) == (c', pc')
    requires pc.Start? || pc.Touch? || pc.SweepLoad? || pc.CompletionLoad? || pc.WriteCompletion? ||
               pc.ResumeLoad? || pc.WriteResumed?
    ensures KeepsShelter(s.c, c', pc')
  {
  }

  lemma ShelteredMove(s: I.Saga, pc: Pc, r: Reply, c': Core, pc': Pc)
    requires I.RowOk(s) && I.WorkerOk(s, pc) && Unexposed(s.c, pc)
    requires Fits(s.c, pc, r) && Exec(s.t, s.c, pc, r) == (c', pc')
    ensures KeepsShelter(s.c, c', pc')
  {
    if pc.CallFraud? || pc.CallHold? || pc.CallAuthorize? || pc.CallCapture? || pc.CallLedger? || pc.CallRelease? {
      ShelteredCall(s, pc, r, c', pc');
    } else if pc.WriteScreened? || pc.WriteHeld? || pc.WriteSubmitted? || pc.WritePspCaptured? ||
        pc.WriteCaptured? || pc.WriteFailed? {
      ShelteredWrite(s, pc, r, c', pc');
    } else {
      ShelteredEntry(s, pc, r, c', pc');
    }
  }

  lemma ShelteredStep(s: I.Saga, a: I.Action, now: nat)
    requires Sheltered(s)
    ensures Sheltered(I.Next(s, a, now))
  {
    var s' := I.Next(s, a, now);
    I.NextKeeps(s, a, now);
    BegunStep(s, a, now);
    if a.Move? && a.w in s.workers && Fits(s.c, s.workers[a.w], a.r) {
      var pc := s.workers[a.w];
      assert s.c.row.status == Processing ==> !Screens(pc);
      ShelteredMove(s, pc, a.r, s'.c, s'.workers[a.w]);
    }
    if s'.c.row.status == Processing {
      forall w | w in s'.workers ensures !Screens(s'.workers[w]) {
        assert w in s.workers ==> !Screens(s.workers[w]);
      }
    }
  }

  lemma {:induction false} ShelteredRun(s: I.Saga, acts: seq<I.Timed>)
    requires Sheltered(s)
    ensures Sheltered(I.Run(s, acts))
    decreases |acts|
  {
    if acts != [] {
      ShelteredStep(s, acts[0].a, acts[0].now);
      ShelteredRun(I.Next(s, acts[0].a, acts[0].now), acts[1..]);
    }
  }

  lemma ExposureExpires(s: I.Saga) returns (acts: seq<I.Timed>)
    requires I.Inv(s) && Exposed(s)
    ensures I.Run(s, acts).c.row.failureCode == Some(StepUpExpired)
  {
    if s.c.row.failureCode == Some(StepUpExpired) {
      acts := [];
    } else if s.c.row.status == RequiresAction {
      acts := [I.At(I.StepUpExpires, 0)] + [];
      Prepend(s, I.StepUpExpires, []);
    } else {
      var w :| w in s.workers && Screens(s.workers[w]);
      acts := DangerFails(s, w);
    }
  }

  /**
   * Step-up expiry cannot take a payment whose funds are held if and only if the payment is not
   * parked already and, while it is open, no driver from before the hold is still screening it.
   */
  lemma HeldFundsExpireExactly(t: Terms, now: nat, acts: seq<I.Timed>)
    requires I.Run(I.Initial(t, now), acts).c.hold.Hold?
    ensures var s := I.Run(I.Initial(t, now), acts);
            (forall more :: I.Run(s, more).c.row.failureCode != Some(StepUpExpired)) <==> !Exposed(s)
  {
    var s := I.Run(I.Initial(t, now), acts);
    I.InitialInv(t, now);
    BegunRun(I.Initial(t, now), acts);
    if Exposed(s) {
      var more := ExposureExpires(s);
    } else {
      forall more ensures I.Run(s, more).c.row.failureCode != Some(StepUpExpired) {
        ShelteredRun(s, more);
      }
    }
  }

  // ---------------------------------------------------------------- a hold on a failed payment

  predicate Holds(s: I.Saga) {
    exists w :: w in s.workers && s.workers[w].CallHold?
  }

  /** Nothing is held, and nothing can come to be. */
  predicate GivenBack(s: I.Saga) {
    if s.c.hold.NoHold? then !Holds(s) else s.c.hold.state != Active
  }

  predicate Held(c: Core) {
    c.hold.Hold? && c.hold.state == Active
  }

  predicate HeldAfter(s: I.Saga, acts: seq<I.Timed>) {
    Held(I.Run(s, acts).c)
  }

  lemma FailedStep(s: I.Saga, pc: Pc, r: Reply, c': Core, pc': Pc)
    requires I.WorkerOk(s, pc) && s.c.row.status == Failed && s.c.row.step == Done
    requires Fits(s.c, pc, r) && Exec(s.t, s.c, pc, r) == (c', pc')
    ensures !pc'.CallHold?
    ensures s.c.hold.NoHold? && !pc.CallHold? ==> c'.hold.NoHold?
    ensures s.c.hold.Hold? ==> c'.hold.Hold? && (c'.hold.state == Active ==> s.c.hold.state == Active)
  {
  }

  lemma NoNewHolder(s: I.Saga, a: I.Action, now: nat)
    requires I.Inv(s) && s.c.row.status == Failed && !Holds(s)
    ensures !Holds(I.Next(s, a, now))
  {
    var s' := I.Next(s, a, now);
    if a.Move? && a.w in s.workers && Fits(s.c, s.workers[a.w], a.r) {
      assert I.WorkerOk(s, s.workers[a.w]);
      FailedStep(s, s.workers[a.w], a.r, Exec(s.t, s.c, s.workers[a.w], a.r).0, s'.workers[a.w]);
    }
    forall w | w in s'.workers ensures !s'.workers[w].CallHold? {
      assert w in s.workers ==> !s.workers[w].CallHold?;
    }
  }

  lemma GivenBackStep(s: I.Saga, a: I.Action, now: nat)
    requires I.Inv(s) && s.c.row.status == Failed && GivenBack(s)
    ensures var s' := I.Next(s, a, now); I.Inv(s') && s'.c.row.status == Failed && GivenBack(s')
  {
    var s' := I.Next(s, a, now);
    I.NextKeeps(s, a, now);
    I.TerminalStep(s, a, now);
    if a.Move? && a.w in s.workers && Fits(s.c, s.workers[a.w], a.r) {
      assert I.WorkerOk(s, s.workers[a.w]);
      assert s.c.hold.NoHold? ==> !s.workers[a.w].CallHold?;
      FailedStep(s, s.workers[a.w], a.r, s'.c, s'.workers[a.w]);
    }
    if s.c.hold.NoHold? {
      NoNewHolder(s, a, now);
    }
  }

  lemma {:induction false} GivenBackRun(s: I.Saga, acts: seq<I.Timed>)
    requires I.Inv(s) && s.c.row.status == Failed && GivenBack(s)
    ensures !Held(I.Run(s, acts).c)
    decreases |acts|
  {
    if acts != [] {
      GivenBackStep(s, acts[0].a, acts[0].now);
      GivenBackRun(I.Next(s, acts[0].a, acts[0].now), acts[1..]);
    }
  }

  /**
   * Compensation under full interleaving: a failed payment has and will have no active hold if and
   * only if it has none now and, where it has no hold at all, no driver is still asking for one.
   */
  lemma CompensationExactly(t: Terms, now: nat, acts: seq<I.Timed>)
    requires I.Run(I.Initial(t, now), acts).c.row.status == Failed
    ensures var s := I.Run(I.Initial(t, now), acts);
            (forall more :: !HeldAfter(s, more)) <==> GivenBack(s)
  {
    var s := I.Run(I.Initial(t, now), acts);
    Reached(t, now, acts);
    if GivenBack(s) {
      forall more ensures !HeldAfter(s, more) {
        GivenBackRun(s, more);
      }
    } else {
      var more := HoldArrives(s);
      assert HeldAfter(s, more);
    }
  }

  lemma HoldArrives(s: I.Saga) returns (acts: seq<I.Timed>)
    requires !GivenBack(s)
    ensures Held(I.Run(s, acts).c)
  {
    if s.c.hold.Hold? {
      acts := [];
    } else {
      var w :| w in s.workers && s.workers[w].CallHold?;
      var move := I.Move(w, HoldGranted(0));
      Prepend(s, move, []);
      acts := [I.At(move, 0)] + [];
    }
  }
}
