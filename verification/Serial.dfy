/**
 * One payment with its drivers serialised: one at a time, from its scan or load to its last write,
 * though any of them may die between two effects, any remote reply may be lost, and the
 * account-service may let a hold lapse at any moment.
 */
module Serial {
  import opened Wrappers
  import opened Payments
  import opened Driver
  import I = Interleaved

  /**
   * The durable state, the one driver there is, whether the release of its own compensation
   * errored, and whether the compensation that failed the payment was one whose release errored.
   */
  datatype Solo = Solo(c: Core, pc: Pc, errored: bool, excused: bool)

  datatype Action = Begin(entry: Pc) | Go(r: Reply) | Die | StepUpExpires | HoldLapses

  function Initial(): Solo {
    Solo(Created(), Idle, false, false)
  }

  function Next(t: Terms, s: Solo, a: Action): Solo {
    match a
    case Begin(entry) =>
      if s.pc.Idle? && MayStart(s.c.row, entry) then s.(pc := entry, errored := false) else s
    case Go(r) =>
      if Fits(s.c, s.pc, r) then
        var (c', pc') := Exec(t, s.c, s.pc, r);
        Solo(c', pc',
             if s.pc.CallRelease? then !r.ReleaseDone? else s.errored,
             if s.pc.WriteFailed? && s.c.row.status == Processing then s.errored else s.excused)
      else s
    case Die => s.(pc := Idle)
    case StepUpExpires => if s.pc.Idle? then s.(c := ExpireStepUp(s.c)) else s
    case HoldLapses => if s.c.hold.Hold? then s.(c := ReleaseHold(s.c, s.c.hold.id)) else s
  }

  function Run(t: Terms, s: Solo, acts: seq<Action>): Solo
    decreases |acts|
  {
    if acts == [] then s else Run(t, Next(t, s, acts[0]), acts[1..])
  }

  lemma {:induction false} Concatenated(t: Terms, s: Solo, xs: seq<Action>, ys: seq<Action>)
    ensures Run(t, s, xs + ys) == Run(t, Run(t, s, xs), ys)
    decreases |xs|
  {
    if xs == [] {
      assert xs + ys == ys;
    } else {
      assert (xs + ys)[1..] == xs[1..] + ys;
      Concatenated(t, Next(t, s, xs[0]), xs[1..], ys);
    }
  }

  /** How far the money can have gone at each step. */
  predicate RowOk(s: Solo) {
    var row, hold := s.c.row, s.c.hold;
    && I.Coupled(row.status, row.step)
    && (row.step == Requested || row.status == RequiresAction ==> hold.NoHold? && row.holdId.None?)
    && (row.step == FraudScreened ==> row.holdId.None?)
    && (I.Holding(row.step) ==> hold.Hold? && row.holdId == Some(hold.id))
    && (row.step == PspCaptured || row.step == Captured ==> s.c.settled)
    && (hold.Hold? && hold.state == Taken ==> row.step == PspCaptured || row.step == Captured)
    && (row.status == Failed ==> GivenBack(s.c.hold, s.excused))
    && (row.failureCode == Some(StepUpExpired) ==> hold.NoHold?)
    && (row.status == Failed <==> row.failureCode.Some?)
    && (s.excused ==> row.status == Failed)
    && (row.status == Failed && row.failureCode != Some(StepUpExpired) ==>
        PaymentFailed(row.failureCode.value) in s.c.outbox)
  }

  /** No hold, or none left active except by a release that errored. */
  predicate GivenBack(hold: HoldView, errored: bool) {
    hold.NoHold? || hold.state == Released || (hold.state == Active && errored)
  }

  /** Before the processor has the money. */
  predicate Early(step: Step) {
    step == Requested || step == FraudScreened || step == FundsHeld || step == Submitted
  }

  /** The driver's snapshot is the row: nobody else writes it meanwhile. */
  predicate DriverOk(s: Solo) {
    var row := s.c.row;
    match s.pc
    case CallFraud(p) => p == Load(row) && row.status == Processing && row.step == Requested
    case WriteScreened(p, _) => p == Load(row) && row.status == Processing && row.step == Requested
    case CallHold(p) => p == Load(row) && row.status == Processing && row.step == FraudScreened
    case WriteHeld(p, id) =>
      p == Load(row) && row.status == Processing && row.step == FraudScreened && s.c.hold.Hold? && s.c.hold.id == id
    case CallAuthorize(p) => p == Load(row) && row.step == FundsHeld
    case WriteSubmitted(p, _) => p == Load(row) && row.step == FundsHeld
    case CallCapture(p) => p == Load(row) && row.step == Submitted
    case WritePspCaptured(p) => p == Load(row) && row.step == Submitted && s.c.settled
    case CallLedger(p) => p == Load(row) && row.step == PspCaptured
    case WriteCaptured(p) => p == Load(row) && row.step == PspCaptured && s.c.hold.Hold? && s.c.hold.state == Taken
    case SweepLoad(code) => row.status == Processing && Early(row.step) && code != StepUpExpired && row.holdId.Some?
    case CallRelease(p, code) =>
      p == Load(row) && row.status == Processing && Early(row.step) && code != StepUpExpired && p.holdId.Some?
    case WriteFailed(p, code) =>
      p == Load(row) && row.status == Processing && Early(row.step) && code != StepUpExpired &&
          GivenBack(s.c.hold, s.errored)
    case WriteCompletion(p) => p == Load(row) && row.step == Submitted
    case WriteResumed(p) => p == Load(row) && row.status == RequiresAction
    case _ => true
  }

  predicate Inv(s: Solo) {
    RowOk(s) && DriverOk(s)
  }

  lemma LoadKeeps(t: Terms, s: Solo, r: Reply, s': Solo)
    requires Inv(s) && Fits(s.c, s.pc, r) && s' == Next(t, s, Go(r))
    requires s.pc.Start? || s.pc.SweepLoad? || s.pc.CompletionLoad? || s.pc.ResumeLoad? || s.pc.Touch?
    ensures Inv(s')
  {
  }

  lemma CallKeeps(t: Terms, s: Solo, r: Reply, s': Solo)
    requires Inv(s) && Fits(s.c, s.pc, r) && s' == Next(t, s, Go(r))
    requires s.pc.CallFraud? || s.pc.CallHold? || s.pc.CallAuthorize? || s.pc.CallCapture? || s.pc.CallLedger? ||
               s.pc.CallRelease?
    ensures Inv(s')
  {
  }

  lemma ForwardKeeps(t: Terms, s: Solo, r: Reply, s': Solo)
    requires Inv(s) && Fits(s.c, s.pc, r) && s' == Next(t, s, Go(r))
    requires s.pc.WriteScreened? || s.pc.WriteHeld? || s.pc.WriteSubmitted? || s.pc.WritePspCaptured?
    ensures Inv(s')
  {
  }

  lemma OtherWriteKeeps(t: Terms, s: Solo, r: Reply, s': Solo)
    requires Inv(s) && Fits(s.c, s.pc, r) && s' == Next(t, s, Go(r))
    requires s.pc.WriteCaptured? || s.pc.WriteFailed? || s.pc.WriteCompletion? || s.pc.WriteResumed?
    ensures Inv(s')
  {
  }

  lemma NextKeeps(t: Terms, s: Solo, a: Action)
    requires Inv(s)
    ensures Inv(Next(t, s, a))
  {
    if a.Go? && Fits(s.c, s.pc, a.r) {
      var pc, s' := s.pc, Next(t, s, a);
      if pc.Start? || pc.SweepLoad? || pc.CompletionLoad? || pc.ResumeLoad? || pc.Touch? {
        LoadKeeps(t, s, a.r, s');
      } else if pc.WriteScreened? || pc.WriteHeld? || pc.WriteSubmitted? || pc.WritePspCaptured? {
        ForwardKeeps(t, s, a.r, s');
      } else if pc.WriteCaptured? || pc.WriteFailed? || pc.WriteCompletion? || pc.WriteResumed? {
        OtherWriteKeeps(t, s, a.r, s');
      } else {
        CallKeeps(t, s, a.r, s');
      }
    }
  }

  lemma {:induction false} RunKeeps(t: Terms, s: Solo, acts: seq<Action>)
    requires Inv(s)
    ensures Inv(Run(t, s, acts))
    decreases |acts|
  {
    if acts != [] {
      NextKeeps(t, s, acts[0]);
      RunKeeps(t, Next(t, s, acts[0]), acts[1..]);
    }
  }

  /**
   * Compensation is complete: a failed payment has no hold or a released one, unless the release of
   * the very compensation that failed it errored, and then a failed event with its code is in the
   * outbox for the account-service to act on; and a payment whose step-up expired never had a hold,
   * even if a driver died between the hold and writing it down.
   */
  lemma CompensationIsComplete(t: Terms, acts: seq<Action>)
    ensures var s := Run(t, Initial(), acts);
            var row, hold := s.c.row, s.c.hold;
            row.status == Failed ==>
              && row.failureCode.Some?
              && (if row.failureCode == Some(StepUpExpired) then hold.NoHold?
                  else
                    && PaymentFailed(row.failureCode.value) in s.c.outbox
                    && (hold.NoHold? || hold.state == Released || (hold.state == Active && s.excused)))
  {
    RunKeeps(t, Initial(), acts);
  }

  lemma FailedStep(t: Terms, s: Solo, a: Action)
    requires Inv(s) && s.c.row.status == Failed
    ensures var s' := Next(t, s, a); s'.c.row.status == Failed && s'.excused == s.excused
  {
  }

  /** What failed a payment is settled once and for all. */
  lemma {:induction false} FailedRun(t: Terms, s: Solo, acts: seq<Action>)
    requires Inv(s) && s.c.row.status == Failed
    ensures var s' := Run(t, s, acts); s'.c.row.status == Failed && s'.excused == s.excused
    decreases |acts|
  {
    if acts != [] {
      FailedStep(t, s, acts[0]);
      NextKeeps(t, s, acts[0]);
      FailedRun(t, Next(t, s, acts[0]), acts[1..]);
    }
  }

  /** The processor has the money and the row says so. */
  predicate Committed(s: Solo) {
    s.c.row.step == PspCaptured || s.c.row.step == Captured
  }

  predicate AtMostCaptured(h: HoldView, h': HoldView) {
    h' == h || (h.Hold? && h.state == Active && h' == Hold(h.id, Taken))
  }

  lemma CommittedStep(t: Terms, s: Solo, a: Action)
    requires Inv(s) && Committed(s)
    ensures Committed(Next(t, s, a))
    ensures !a.HoldLapses? ==> AtMostCaptured(s.c.hold, Next(t, s, a).c.hold)
  {
  }

  lemma {:induction false} CommittedRun(t: Terms, s: Solo, acts: seq<Action>)
    requires Inv(s) && Committed(s)
    ensures Inv(Run(t, s, acts)) && Committed(Run(t, s, acts))
    ensures !Lapsed(t, s, acts) ==> AtMostCaptured(s.c.hold, Run(t, s, acts).c.hold)
    decreases |acts|
  {
    if acts != [] {
      NextKeeps(t, s, acts[0]);
      CommittedStep(t, s, acts[0]);
      CommittedRun(t, Next(t, s, acts[0]), acts[1..]);
    }
  }

  /**
   * The point of no return: from the moment the row records psp_captured, no driver is ever about
   * to release the hold or to fail the payment, whatever the engine does to the hold is capturing
   * it, and the only status the payment can still end in is succeeded. An active hold can be lost
   * only to its own lapse at the account-service, and then it is.
   */
  lemma PspCapturedIsCommitment(t: Terms, acts: seq<Action>, more: seq<Action>)
    requires Committed(Run(t, Initial(), acts))
    ensures var s, s' := Run(t, Initial(), acts), Run(t, Run(t, Initial(), acts), more);
            && !s'.pc.CallRelease? && !s'.pc.WriteFailed?
            && (forall a: Action :: !a.HoldLapses? ==> AtMostCaptured(s'.c.hold, Next(t, s', a).c.hold))
            && s.c.hold.Hold? && s'.c.hold.Hold?
            && (s.c.hold.state == Active ==> (s'.c.hold.state == Released <==> Lapsed(t, s, more)))
            && (s'.c.row.status == Processing || s'.c.row.status == Succeeded)
            && (Terminal(s'.c.row.status) ==> s'.c.row.status == Succeeded)
  {
    var s := Run(t, Initial(), acts);
    RunKeeps(t, Initial(), acts);
    CommittedRun(t, s, more);
    var s' := Run(t, s, more);
    forall a: Action | !a.HoldLapses? ensures AtMostCaptured(s'.c.hold, Next(t, s', a).c.hold) {
      CommittedStep(t, s', a);
    }
    if Lapsed(t, s, more) {
      LostRun(t, s, more);
    }
  }

  // ---------------------------------------------------------------- what becomes of the hold

  /** Somewhere in the run the account-service lets the active hold lapse. */
  predicate Lapsed(t: Terms, s: Solo, acts: seq<Action>)
    decreases |acts|
  {
    acts != [] && (LapsesAt(s, acts[0]) || Lapsed(t, Next(t, s, acts[0]), acts[1..]))
  }

  predicate LapsesAt(s: Solo, a: Action) {
    a.HoldLapses? && s.c.hold.Hold? && s.c.hold.state == Active
  }

  /** Somewhere in the run a driver dies after its release and before the failure write that follows. */
  predicate Torn(t: Terms, s: Solo, acts: seq<Action>)
    decreases |acts|
  {
    acts != [] && (TearsAt(s, acts[0]) || Torn(t, Next(t, s, acts[0]), acts[1..]))
  }

  predicate TearsAt(s: Solo, a: Action) {
    a.Die? && s.pc.WriteFailed? && s.c.hold.Hold? && s.c.hold.state == Released
  }

  /** While the payment is open its hold is not released, except under a driver about to fail it. */
  predicate HoldKept(s: Solo) {
    s.c.row.status == Processing && s.c.hold.Hold? && s.c.hold.state == Released ==> s.pc.WriteFailed?
  }

  lemma HoldKeptStep(t: Terms, s: Solo, a: Action)
    requires Inv(s) && HoldKept(s) && !TearsAt(s, a) && !LapsesAt(s, a)
    ensures HoldKept(Next(t, s, a))
  {
  }

  lemma {:induction false} HoldKeptRun(t: Terms, s: Solo, acts: seq<Action>)
    requires Inv(s) && HoldKept(s) && !Torn(t, s, acts) && !Lapsed(t, s, acts)
    ensures Inv(Run(t, s, acts)) && HoldKept(Run(t, s, acts))
    decreases |acts|
  {
    if acts != [] {
      NextKeeps(t, s, acts[0]);
      HoldKeptStep(t, s, acts[0]);
      HoldKeptRun(t, Next(t, s, acts[0]), acts[1..]);
    }
  }

  predicate Lost(s: Solo) {
    s.c.hold.Hold? && s.c.hold.state == Released
  }

  lemma LostStays(t: Terms, s: Solo, a: Action)
    requires Inv(s) && (Lost(s) || TearsAt(s, a) || LapsesAt(s, a))
    ensures Lost(Next(t, s, a))
  {
  }

  lemma {:induction false} LostRun(t: Terms, s: Solo, acts: seq<Action>)
    requires Inv(s) && (Torn(t, s, acts) || Lapsed(t, s, acts) || Lost(s))
    ensures Lost(Run(t, s, acts))
    decreases |acts|
  {
    if acts != [] {
      NextKeeps(t, s, acts[0]);
      if Lost(s) || TearsAt(s, acts[0]) || LapsesAt(s, acts[0]) {
        LostStays(t, s, acts[0]);
      }
      LostRun(t, Next(t, s, acts[0]), acts[1..]);
    }
  }

  /**
   * A payment whose money the processor has taken has lost the hold it should capture exactly if
   * some driver died between a compensating release and its failure write, or the account-service
   * let the hold lapse.
   */
  lemma CapturedMoneyLostItsHold(t: Terms, acts: seq<Action>)
    requires Run(t, Initial(), acts).c.row.step == PspCaptured
    ensures var hold := Run(t, Initial(), acts).c.hold;
            hold.Hold? && (hold.state == Released <==> Torn(t, Initial(), acts) || Lapsed(t, Initial(), acts))
  {
    RunKeeps(t, Initial(), acts);
    if Torn(t, Initial(), acts) || Lapsed(t, Initial(), acts) {
      LostRun(t, Initial(), acts);
    } else {
      HoldKeptRun(t, Initial(), acts);
    }
  }

  // ---------------------------------------------------------------- serial runs are interleaved runs

  function Lift(s: Solo, a: Action): seq<I.Timed> {
    match a
    case Begin(entry) =>
      if s.pc.Idle? && MayStart(s.c.row, entry) then [I.At(I.Crash(0), 0), I.At(I.Spawn(0, entry), 0)] else []
    case Go(r) => [I.At(I.Move(0, r), 0)]
    case Die => [I.At(I.Crash(0), 0)]
    case StepUpExpires => if s.pc.Idle? then [I.At(I.StepUpExpires, 0)] else []
    case HoldLapses => [I.At(I.HoldLapses, 0)]
  }

  function LiftRun(t: Terms, s: Solo, acts: seq<Action>): seq<I.Timed>
    decreases |acts|
  {
    if acts == [] then [] else Lift(s, acts[0]) + LiftRun(t, Next(t, s, acts[0]), acts[1..])
  }

  /** The same durable state, and driver 0 of the one where the driver of the other is. */
  predicate Agree(t: Terms, s: Solo, g: I.Saga) {
    && g.t == t
    && g.c == s.c
    && (if 0 in g.workers then g.workers[0] == s.pc else s.pc.Idle?)
  }

  lemma RunTwo(g: I.Saga, x: I.Timed, y: I.Timed)
    ensures I.Run(g, [x]) == I.Next(g, x.a, x.now)
    ensures I.Run(g, [x, y]) == I.Next(I.Next(g, x.a, x.now), y.a, y.now)
  {
    assert I.Run(g, [x]) == I.Run(I.Next(g, x.a, x.now), []);
    assert [x, y][1..] == [y];
    var g' := I.Next(g, x.a, x.now);
    assert I.Run(g, [x, y]) == I.Run(g', [y]);
    assert I.Run(g', [y]) == I.Run(I.Next(g', y.a, y.now), []);
  }

  lemma LiftBegin(t: Terms, s: Solo, entry: Pc, g: I.Saga)
    requires Agree(t, s, g)
    ensures Agree(t, Next(t, s, Begin(entry)), I.Run(g, Lift(s, Begin(entry))))
  {
    if s.pc.Idle? && MayStart(s.c.row, entry) {
      RunTwo(g, I.At(I.Crash(0), 0), I.At(I.Spawn(0, entry), 0));
    }
  }

  lemma LiftStep(t: Terms, s: Solo, a: Action, g: I.Saga)
    requires Agree(t, s, g)
    ensures Agree(t, Next(t, s, a), I.Run(g, Lift(s, a)))
  {
    var acts := Lift(s, a);
    if a.Begin? {
      LiftBegin(t, s, a.entry, g);
    } else if |acts| == 1 {
      RunTwo(g, acts[0], acts[0]);
    }
  }

  lemma {:induction false} RunAppend(g: I.Saga, xs: seq<I.Timed>, ys: seq<I.Timed>)
    ensures I.Run(g, xs + ys) == I.Run(I.Run(g, xs), ys)
    decreases |xs|
  {
    if xs == [] {
      assert xs + ys == ys;
    } else {
      assert (xs + ys)[1..] == xs[1..] + ys;
      RunAppend(I.Next(g, xs[0].a, xs[0].now), xs[1..], ys);
    }
  }

  /** Every serial run is one of the interleaved runs, so all that those guarantee holds here too. */
  lemma {:induction false} SerialIsInterleaved(t: Terms, s: Solo, acts: seq<Action>, g: I.Saga)
    requires Agree(t, s, g)
    ensures Agree(t, Run(t, s, acts), I.Run(g, LiftRun(t, s, acts)))
    decreases |acts|
  {
    if acts != [] {
      var first := Lift(s, acts[0]);
      LiftStep(t, s, acts[0], g);
      SerialIsInterleaved(t, Next(t, s, acts[0]), acts[1..], I.Run(g, first));
      RunAppend(g, first, LiftRun(t, Next(t, s, acts[0]), acts[1..]));
    }
  }

  lemma LiftKeepsOne(t: Terms, s: Solo, a: Action, g: I.Saga)
    requires Agree(t, s, g) && g.workers.Keys <= {0}
    ensures I.Run(g, Lift(s, a)).workers.Keys <= {0}
  {
    var acts := Lift(s, a);
    if |acts| > 0 {
      RunTwo(g, acts[0], acts[|acts| - 1]);
    }
  }

  lemma {:induction false} OneDriver(t: Terms, s: Solo, acts: seq<Action>, g: I.Saga)
    requires Agree(t, s, g) && g.workers.Keys <= {0}
    ensures I.Run(g, LiftRun(t, s, acts)).workers.Keys <= {0}
    decreases |acts|
  {
    if acts != [] {
      var first := Lift(s, acts[0]);
      LiftStep(t, s, acts[0], g);
      LiftKeepsOne(t, s, acts[0], g);
      OneDriver(t, Next(t, s, acts[0]), acts[1..], I.Run(g, first));
      RunAppend(g, first, LiftRun(t, Next(t, s, acts[0]), acts[1..]));
    }
  }
}
