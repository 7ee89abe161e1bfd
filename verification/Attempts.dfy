/**
 * Whole attempts of a driver, cut off at arbitrary points by crashes and outages while the outside
 * services keep giving the same answers, and the proof that the cuts leave no trace.
 */
module Attempts {
  import opened Wrappers
  import opened Payments
  import opened FraudClient
  import opened Driver

  /** What each service answers, every time it is asked about this payment. */
  datatype Answers = Answers(fraud: FraudReply, hold: Reply, auth: Reply, capture: Reply, ledger: Reply, release: Reply)

  /**
   * What befalls one effect: it passes, or the attempt ends there, with the effect in place or
   * not. A crash before or after the effect, an unavailable service, a reply that is lost, and a
   * transaction that fails all end the attempt this way.
   */
  datatype Fault = Pass | Cut(applied: bool)

  /** Where an attempt stands, with the faults still to come. */
  datatype Point = Point(c: Core, pc: Pc, faults: seq<Fault>)

  /** The service's answer, with what it owes by idempotency: a hold it granted or money it took stays so. */
  function Answer(ans: Answers, c: Core, pc: Pc): (r: Reply)
    requires !pc.Idle?
    ensures Fits(c, pc, r)
  {
    match pc
    case CallFraud(_) => Screened(ans.fraud)
    case CallHold(_) =>
      if c.hold.Hold? && (ans.hold.HoldGranted? || ans.hold.HoldRefused?) then HoldGranted(c.hold.id)
      else if c.hold.NoHold? && (ans.hold.HoldGranted? || ans.hold.HoldRefused?) then ans.hold
      else Unavailable
    case CallAuthorize(_) =>
      if ans.auth.Approved? || ans.auth.Pending? || ans.auth.Declined? || ans.auth.Rejected? then ans.auth
          else Unavailable
    case CallCapture(_) =>
      if ans.capture.CaptureDone? || (ans.capture.CaptureRefused? && c.settled) then CaptureDone
      else if ans.capture.CaptureRefused? then CaptureRefused
      else Unavailable
    case CallLedger(p) => if ans.ledger.LedgerDone? && Capturable(c, p) then LedgerDone else Unavailable
    case CallRelease(_, _) => if ans.release.ReleaseDone? || ans.release.ReleaseLost? then ans.release else Unavailable
    case _ => Stored
  }

  function Does(t: Terms, ans: Answers, c: Core, pc: Pc): (Core, Pc)
    requires !pc.Idle?
  {
    Exec(t, c, pc, Answer(ans, c, pc))
  }

  /** One effect of the driver. */
  function Hop(t: Terms, ans: Answers, at: Point): Point
    requires !at.pc.Idle?
  {
    var (c', pc') := Does(t, ans, at.c, at.pc);
    if at.faults == [] then Point(c', pc', [])
    else if at.faults[0].Pass? then Point(c', pc', at.faults[1..])
    else Point(if at.faults[0].applied then c' else at.c, Idle, at.faults[1..])
  }

  /** A driver that is cut is gone, after the effect or before it; one that is not goes on to its next effect. */
  lemma FaultsMean(t: Terms, ans: Answers, c: Core, pc: Pc, rest: seq<Fault>)
    requires !pc.Idle?
    ensures Hop(t, ans, Point(c, pc, [Cut(false)] + rest)) == Point(c, Idle, rest)
    ensures var (c', next) := Does(t, ans, c, pc);
            && Hop(t, ans, Point(c, pc, [Cut(true)] + rest)) == Point(c', Idle, rest)
            && Hop(t, ans, Point(c, pc, [Pass] + rest)) == Point(c', next, rest)
            && Hop(t, ans, Point(c, pc, [])) == Point(c', next, [])
  {
  }

  function Rank(pc: Pc): nat {
    match pc
    case Idle => 0
    case Touch | WriteFailed(_, _) => 1
    case CallRelease(_, _) => 2
    case WriteScreened(_, _) | WriteHeld(_, _) | WriteSubmitted(_, _) | WritePspCaptured(_) | WriteCaptured(_) => 3
    case WriteCompletion(_) | WriteResumed(_) => 3
    case CallFraud(_) | CallHold(_) | CallAuthorize(_) | CallCapture(_) | CallLedger(_) => 4
    case Start | SweepLoad(_) | CompletionLoad(_) | ResumeLoad(_) => 5
  }

  lemma HopDescends(t: Terms, ans: Answers, at: Point)
    requires !at.pc.Idle?
    ensures Hop(t, ans, at).pc.Start? || Rank(Hop(t, ans, at).pc) < Rank(at.pc)
  {
  }

  /** The effects of one pass: up to the next reload of the row, or to the driver's end. */
  function Burst(t: Terms, ans: Answers, at: Point): (b: Point)
    requires !at.pc.Idle?
    ensures b.pc.Start? || b.pc.Idle?
    ensures at.faults == [] ==> b.faults == []
    decreases Rank(at.pc)
  {
    var h := Hop(t, ans, at);
    HopDescends(t, ans, at);
    if h.pc.Idle? || h.pc.Start? then h else Burst(t, ans, h)
  }

  function StepRank(step: Step): nat
    ensures StepRank(step) <= 6
  {
    match step
    case Requested => 0
    case FraudScreened => 1
    case FundsHeld => 2
    case Submitted => 3
    case PspCaptured => 4
    case Captured => 5
    case Done => 6
  }

  /** The pass works on the row's present step. */
  predicate OnStep(c: Core, pc: Pc) {
    match pc
    case CallFraud(p) => p.step == c.row.step == Requested
    case WriteScreened(p, _) => p.step == c.row.step == Requested
    case CallHold(p) => p.step == c.row.step == FraudScreened
    case WriteHeld(p, _) => p.step == c.row.step == FraudScreened
    case CallAuthorize(p) => p.step == c.row.step == FundsHeld
    case WriteSubmitted(p, _) => p.step == c.row.step == FundsHeld
    case CallCapture(p) => p.step == c.row.step == Submitted
    case WritePspCaptured(p) => p.step == c.row.step == Submitted
    case CallLedger(p) => p.step == c.row.step == PspCaptured
    case WriteCaptured(p) => p.step == c.row.step == PspCaptured
    case CallRelease(_, _) | WriteFailed(_, _) | Touch | Idle => true
    case _ => false
  }

  lemma HopStaysOnStep(t: Terms, ans: Answers, at: Point)
    requires at.pc.Start? || (OnStep(at.c, at.pc) && !at.pc.Idle?)
    ensures var h := Hop(t, ans, at);
            if h.pc.Start? then StepRank(h.c.row.step) > StepRank(at.c.row.step)
            else OnStep(h.c, h.pc) && (h.pc.Idle? || h.c.row.step == at.c.row.step)
  {
    var (c', pc') := Does(t, ans, at.c, at.pc);
    DoesStaysOnStep(t, ans, at.c, at.pc, c', pc');
  }

  lemma DoesStaysOnStep(t: Terms, ans: Answers, c: Core, pc: Pc, c': Core, pc': Pc)
    requires (pc.Start? || OnStep(c, pc)) && !pc.Idle?
    requires Does(t, ans, c, pc) == (c', pc')
    ensures if pc'.Start? then StepRank(c'.row.step) > StepRank(c.row.step)
            else OnStep(c', pc') && (pc'.Idle? || c'.row.step == c.row.step)
  {
  }

  lemma {:induction false} BurstProgress(t: Terms, ans: Answers, at: Point)
    requires at.pc.Start? || (OnStep(at.c, at.pc) && !at.pc.Idle?)
    ensures var b := Burst(t, ans, at); b.pc.Start? ==> StepRank(b.c.row.step) > StepRank(at.c.row.step)
    decreases Rank(at.pc)
  {
    var h := Hop(t, ans, at);
    HopStaysOnStep(t, ans, at);
    HopDescends(t, ans, at);
    if !h.pc.Idle? && !h.pc.Start? {
      BurstProgress(t, ans, h);
    }
  }

  /** One attempt: passes from reload to reload, until the payment waits or ends, or a fault cuts. */
  function Advance(t: Terms, ans: Answers, c: Core, faults: seq<Fault>): Core
    decreases 6 - StepRank(c.row.step)
  {
    var b := Burst(t, ans, Point(c, Start, faults));
    BurstProgress(t, ans, Point(c, Start, faults));
    if b.pc.Start? then Advance(t, ans, b.c, b.faults) else b.c
  }

  /** The rest of an uninterrupted attempt. */
  function Rest(t: Terms, ans: Answers, b: Point): Core {
    if b.pc.Start? then Advance(t, ans, b.c, []) else b.c
  }

  lemma AdvanceIsRest(t: Terms, ans: Answers, c: Core)
    ensures Advance(t, ans, c, []) == Rest(t, ans, Burst(t, ans, Point(c, Start, [])))
  {
  }

  /** A driver from its entry on: its own first pass, and the Advance loop it may go over to. */
  function Drive(t: Terms, ans: Answers, c: Core, entry: Pc, faults: seq<Fault>): Core
    requires !entry.Idle?
  {
    var b := Burst(t, ans, Point(c, entry, faults));
    if b.pc.Start? then Advance(t, ans, b.c, b.faults) else b.c
  }

  /** What an undisturbed expiry sweep makes of a payment it has scanned. */
  function Swept(t: Terms, ans: Answers, c: Core, code: FailureCode): Core {
    Burst(t, ans, Point(c, SweepLoad(code), [])).c
  }

  /** Attempts one after another, each with its own faults. */
  function Attempt(t: Terms, ans: Answers, c: Core, attempts: seq<seq<Fault>>): Core
    decreases |attempts|
  {
    if attempts == [] then c else Attempt(t, ans, Advance(t, ans, c, attempts[0]), attempts[1..])
  }

  /** The processor's reference is written with the submission, never before it. */
  predicate Sound(c: Core) {
    c.row.step == Requested || c.row.step == FraudScreened || c.row.step == FundsHeld ==> c.row.pspRef.None?
  }

  /** The verdict of the call this pass makes is one that compensates, with this code. */
  predicate Condemned(t: Terms, ans: Answers, c: Core, p: Payment, code: FailureCode) {
    var d := Dispatch(t, Load(c.row));
    p == Load(c.row) &&
    match d
    case CallFraud(_) => code == FraudDenied && Does(t, ans, c, d).1 == Compensate(p, code)
    case CallHold(_) => code == InsufficientFunds && c.hold.NoHold? && ans.hold.HoldRefused?
    case CallAuthorize(_) => code == GatewayDeclined && (ans.auth.Declined? || ans.auth.Rejected?)
    case CallCapture(_) => code == GatewayCaptureFailed && ans.capture.CaptureRefused? && !c.settled
    case CallRelease(_, x) => code == x == GatewayDeclined
    case WriteFailed(_, x) => code == x == GatewayDeclined
    case _ => false
  }

  /** A fresh driver would come to the same place without changing anything. */
  predicate Ready(t: Terms, ans: Answers, c: Core, pc: Pc) {
    var d := Dispatch(t, Load(c.row));
    match pc
    case CallFraud(_) | CallHold(_) | CallAuthorize(_) | CallCapture(_) | CallLedger(_) => pc == d
    case WriteScreened(p, v) => d == CallFraud(p) && pc == Does(t, ans, c, d).1
    case WriteHeld(p, id) => d == CallHold(p) && c.hold.Hold? && pc == Does(t, ans, c, d).1
    case WriteSubmitted(p, ref) => d == CallAuthorize(p) && pc == Does(t, ans, c, d).1
    case WritePspCaptured(p) => d == CallCapture(p) && c.settled && pc == Does(t, ans, c, d).1
    case WriteCaptured(p) =>
      d == CallLedger(p) && c.hold.Hold? && c.hold.state == Taken && pc == Does(t, ans, c, d).1
    case Touch => !d.Idle? && Rank(d) == 4 && Does(t, ans, c, d) == (c, Touch)
    case CallRelease(p, code) => Condemned(t, ans, c, p, code) && p.holdId.Some?
    case WriteFailed(p, code) =>
      Condemned(t, ans, c, p, code) && (p.holdId.Some? ==> Does(t, ans, c, CallRelease(p, code)).0 == c)
    case _ => false
  }

  lemma DispatchReady(t: Terms, ans: Answers, c: Core)
    requires Sound(c)
    ensures var d := Dispatch(t, Load(c.row)); d.Idle? || Ready(t, ans, c, d)
  {
  }

  lemma Unfold(t: Terms, ans: Answers, c: Core, pc: Pc, pc': Pc)
    requires !pc.Idle? && Does(t, ans, c, pc) == (c, pc')
    requires !pc'.Idle? && !pc'.Start?
    ensures Burst(t, ans, Point(c, pc, [])) == Burst(t, ans, Point(c, pc', []))
  {
    assert Hop(t, ans, Point(c, pc, [])) == Point(c, pc', []);
  }

  /** Going on from a place is the same as starting over from the row. */
  lemma Restart(t: Terms, ans: Answers, c: Core, pc: Pc)
    requires Ready(t, ans, c, pc)
    ensures Burst(t, ans, Point(c, pc, [])) == Burst(t, ans, Point(c, Start, []))
  {
    var d := Dispatch(t, Load(c.row));
    Unfold(t, ans, c, Start, d);
    if pc != d {
      var next := RestartCall(t, ans, c, pc);
      Unfold(t, ans, c, d, next);
      if pc != next {
        Unfold(t, ans, c, next, pc);
      }
    }
  }

  /** Repeating the pass's first effect repeats its answer and changes nothing. */
  lemma RestartCall(t: Terms, ans: Answers, c: Core, pc: Pc) returns (next: Pc)
    requires Ready(t, ans, c, pc) && pc != Dispatch(t, Load(c.row))
    ensures var d := Dispatch(t, Load(c.row)); !d.Idle? && !d.Start? && Does(t, ans, c, d) == (c, next)
    ensures next == pc || (next.CallRelease? && pc.WriteFailed? && Does(t, ans, c, next) == (c, pc))
    ensures !next.Idle? && !next.Start?
  {
    next := Does(t, ans, c, Dispatch(t, Load(c.row))).1;
  }

  /** Each effect leads to the end of the pass, or to another place a fresh driver would come to. */
  lemma ReadyHop(t: Terms, ans: Answers, c: Core, pc: Pc)
    requires Sound(c) && Ready(t, ans, c, pc)
    ensures var (c', pc') := Does(t, ans, c, pc);
            Sound(c') && (pc'.Start? || pc'.Idle? || Ready(t, ans, c', pc'))
  {
    if Rank(pc) == 4 {
      ReadyCall(t, ans, c, pc);
    }
  }

  lemma ReadyCall(t: Terms, ans: Answers, c: Core, pc: Pc)
    requires Sound(c) && Ready(t, ans, c, pc) && Rank(pc) == 4
    ensures var (c', pc') := Does(t, ans, c, pc);
            Sound(c') && (pc'.Idle? || Ready(t, ans, c', pc'))
  {
  }

  /** Where a pass ends for good, a fresh attempt does nothing. */
  lemma Quiet(t: Terms, ans: Answers, c: Core, pc: Pc)
    requires Sound(c) && Ready(t, ans, c, pc) && Does(t, ans, c, pc).1.Idle?
    ensures var c' := Does(t, ans, c, pc).0; Advance(t, ans, c', []) == c'
  {
    var c' := Does(t, ans, c, pc).0;
    var d := Dispatch(t, Load(c'.row));
    assert Hop(t, ans, Point(c', Start, [])) == Point(c', d, []);
    if pc.Touch? {
      Unfold(t, ans, c, d, Touch);
    }
    if !d.Idle? {
      Unfold(t, ans, c', Start, d);
      if pc.CallHold? {
        assert Hop(t, ans, Point(c', d, [])) == Point(c', Idle, []);
      } else {
        assert pc.Touch?;
        assert Hop(t, ans, Point(c', Touch, [])) == Point(c', Idle, []);
      }
    }
  }

  /** Cutting one pass anywhere leaves the payment where a fresh, uninterrupted attempt makes good. */
  lemma {:induction false} BurstTransparent(t: Terms, ans: Answers, c: Core, pc: Pc, faults: seq<Fault>)
    requires Sound(c) && (pc.Start? || Ready(t, ans, c, pc))
    ensures var b := Burst(t, ans, Point(c, pc, faults));
            && Sound(b.c)
            && Advance(t, ans, b.c, []) == Rest(t, ans, Burst(t, ans, Point(c, pc, [])))
    decreases Rank(pc)
  {
    var (c', pc') := Does(t, ans, c, pc);
    HopDescends(t, ans, Point(c, pc, []));
    if pc.Start? {
      DispatchReady(t, ans, c);
    } else {
      ReadyHop(t, ans, c, pc);
      Restart(t, ans, c, pc);
    }
    assert Hop(t, ans, Point(c, pc, [])) == Point(c', pc', []);
    if faults != [] && faults[0].Cut? {
      assert Burst(t, ans, Point(c, pc, faults)).c == if faults[0].applied then c' else c;
      AdvanceIsRest(t, ans, c);
      if faults[0].applied {
        CutAfter(t, ans, c, pc);
      }
    } else if pc'.Idle? || pc'.Start? {
      CutAfter(t, ans, c, pc);
    } else {
      BurstTransparent(t, ans, c', pc', if faults == [] then [] else faults[1..]);
    }
  }

  /** The case of a cut right after the effect. */
  lemma CutAfter(t: Terms, ans: Answers, c: Core, pc: Pc)
    requires Sound(c) && (pc.Start? || Ready(t, ans, c, pc))
    ensures Advance(t, ans, Does(t, ans, c, pc).0, []) == Rest(t, ans, Burst(t, ans, Point(c, pc, [])))
  {
    var (c', pc') := Does(t, ans, c, pc);
    assert Hop(t, ans, Point(c, pc, [])) == Point(c', pc', []);
    AdvanceIsRest(t, ans, c');
    if pc.Start? {
      if !pc'.Idle? {
        AdvanceIsRest(t, ans, c);
      }
    } else if pc'.Idle? {
      Quiet(t, ans, c, pc);
    } else if !pc'.Start? {
      ReadyHop(t, ans, c, pc);
      Restart(t, ans, c', pc');
    }
  }

  /** One attempt with any faults, then an uninterrupted one, is the uninterrupted one. */
  lemma {:induction false} AdvanceTransparent(t: Terms, ans: Answers, c: Core, faults: seq<Fault>)
    requires Sound(c)
    ensures Sound(Advance(t, ans, c, faults))
    ensures Advance(t, ans, Advance(t, ans, c, faults), []) == Advance(t, ans, c, [])
    decreases 6 - StepRank(c.row.step)
  {
    var b := Burst(t, ans, Point(c, Start, faults));
    BurstTransparent(t, ans, c, Start, faults);
    AdvanceIsRest(t, ans, c);
    if b.pc.Start? {
      BurstProgress(t, ans, Point(c, Start, faults));
      assert Advance(t, ans, c, faults) == Advance(t, ans, b.c, b.faults);
      AdvanceTransparent(t, ans, b.c, b.faults);
    } else {
      assert Advance(t, ans, c, faults) == b.c;
    }
  }

  /**
   * Crash transparency: however many attempts are cut off, wherever crashes, outages and lost
   * replies cut them, one uninterrupted attempt afterwards ends in the same row, the same outbox
   * and the same hold and processor state as if it had been the only one.
   */
  lemma {:induction false} CrashTransparency(t: Terms, ans: Answers, c: Core, attempts: seq<seq<Fault>>)
    requires Sound(c)
    ensures Advance(t, ans, Attempt(t, ans, c, attempts), []) == Advance(t, ans, c, [])
    decreases |attempts|
  {
    if attempts != [] {
      AdvanceTransparent(t, ans, c, attempts[0]);
      CrashTransparency(t, ans, Advance(t, ans, c, attempts[0]), attempts[1..]);
    }
  }
}
