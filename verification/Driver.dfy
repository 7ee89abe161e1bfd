/**
 * The drivers of a saga, cut at every point where another process can intervene: one SQL
 * transaction or one remote call per step.
 */
module Driver {
  import opened Wrappers
  import opened Payments
  import opened FraudClient

  /** Where a driver stands: the effect it performs next, with the snapshot it carries. */
  datatype Pc =
    | Idle
    | Start                                            // the top of the Advance loop
    | CallFraud(p: Payment)
    | WriteScreened(p: Payment, v: Verdict)
    | CallHold(p: Payment)
    | WriteHeld(p: Payment, id: nat)
    | CallAuthorize(p: Payment)
    | WriteSubmitted(p: Payment, ref: Option<string>)  // no reference: the outcome is pending
    | CallCapture(p: Payment)
    | WritePspCaptured(p: Payment)
    | CallLedger(p: Payment)
    | WriteCaptured(p: Payment)
    | Touch
    | CallRelease(p: Payment, code: FailureCode)
    | WriteFailed(p: Payment, code: FailureCode)
    | SweepLoad(code: FailureCode)                     // an expiry sweep has scanned the payment
    | CompletionLoad(approved: bool)                   // a gateway completion event has arrived
    | WriteCompletion(p: Payment)
    | ResumeLoad(user: string)                         // a step-up resume request has arrived
    | WriteResumed(p: Payment)

  /** What comes back. The Lost replies took effect at the service, but the caller saw an error. */
  datatype Reply =
    | Stored
    | Screened(fraud: FraudReply)
    | HoldGranted(id: nat) | HoldLost(id: nat) | HoldRefused
    | Approved | Pending | Declined | Rejected
    | CaptureDone | CaptureLost | CaptureRefused
    | LedgerDone | LedgerLost
    | ReleaseDone | ReleaseLost
    | Unavailable

  /**
   * The replies the outside services may give. Account-service: one hold per payment, replayed on
   * every repeat, and no capture of a released hold. Processor: anything, even a refusal of what
   * it has captured, since any 4xx to a repeated capture reads as refused.
   */
  predicate Fits(c: Core, pc: Pc, r: Reply) {
    match pc
    case Idle => false
    case CallFraud(_) => r.Screened?
    case CallHold(_) =>
      ((r.HoldGranted? || r.HoldLost?) && (c.hold.NoHold? || c.hold.id == r.id))
      || (r.HoldRefused? && c.hold.NoHold?) || r.Unavailable?
    case CallAuthorize(_) => r.Approved? || r.Pending? || r.Declined? || r.Rejected? || r.Unavailable?
    case CallCapture(_) => r.CaptureDone? || r.CaptureLost? || r.CaptureRefused? || r.Unavailable?
    case CallLedger(p) =>
      ((r.LedgerDone? || r.LedgerLost?) && Capturable(c, p)) || r.Unavailable?
    case CallRelease(_, _) => r.ReleaseDone? || r.ReleaseLost? || r.Unavailable?
    case _ => r.Stored?
  }

  predicate Capturable(c: Core, p: Payment) {
    p.holdId.Some? && c.hold.Hold? && c.hold.id == p.holdId.value && c.hold.state != Released
  }

  /** How compensation begins: by releasing the hold the snapshot knows, if it knows one. */
  function Compensate(p: Payment, code: FailureCode): Pc {
    if p.holdId.Some? then CallRelease(p, code) else WriteFailed(p, code)
  }

  /** The switch at the head of the Advance loop. */
  function Dispatch(t: Terms, p: Payment): Pc {
    if p.status != Processing then Idle
    else match p.step
      case Requested => CallFraud(p)
      case FraudScreened => CallHold(p)
      case FundsHeld => if t.via.OtherMethod? then Compensate(p, GatewayDeclined) else CallAuthorize(p)
      case Submitted =>
        if p.pspRef.None? then Idle
        else if t.via.OtherMethod? then Compensate(p, GatewayDeclined) else CallCapture(p)
      case PspCaptured => CallLedger(p)
      case _ => Idle
  }

  /** The outcome of a guarded update: go on to next if it wrote, stop if it did not. */
  function Written(c: Core, w: Option<Core>, next: Pc): (Core, Pc) {
    if w.Some? then (w.value, next) else (c, Idle)
  }

  // Where each call's reply takes the driver.

  function AfterScreen(p: Payment, v: Verdict): Pc {
    if v.requiresAction || v.proceed then WriteScreened(p, v) else Compensate(p, FraudDenied)
  }

  function AfterHold(p: Payment, r: Reply): Pc {
    if r.HoldGranted? then WriteHeld(p, r.id)
    else if r.HoldRefused? then Compensate(p, InsufficientFunds)
    else Idle
  }

  /** Unreachable is not declined: only an outcome, or a refusal of the request, compensates. */
  function AfterAuthorize(t: Terms, p: Payment, r: Reply): Pc {
    if r.Approved? then WriteSubmitted(p, Some(t.pspRef))
    else if r.Pending? then WriteSubmitted(p, None)
    else if r.Unavailable? then Touch
    else Compensate(p, GatewayDeclined)
  }

  function AfterCapture(p: Payment, r: Reply): Pc {
    if r.CaptureDone? then WritePspCaptured(p)
    else if r.CaptureRefused? then Compensate(p, GatewayCaptureFailed)
    else Touch
  }

  function AfterLedger(p: Payment, r: Reply): Pc {
    if r.LedgerDone? then WriteCaptured(p) else Touch
  }

  /** One atomic step of a driver: the effect on the durable state, and where the driver goes. */
  function Exec(t: Terms, c: Core, pc: Pc, r: Reply): (Core, Pc)
    requires Fits(c, pc, r)
  {
    match pc
    case Start => (c, Dispatch(t, Load(c.row)))
    case CallFraud(p) =>
      (c, AfterScreen(p, Screen(r.fraud, t.amount, t.failOpenLimit)))
    case WriteScreened(p, v) =>
      if v.requiresAction
      then Written(c, TransitionWith(c, FraudScreened, RequiresAction, None, Some(v.riskScore), None), Idle)
      else Written(c, Transition(c, p, FraudScreened, Processing, SetRisk(v.riskScore), None), Start)
    case CallHold(p) =>
      var held := if c.hold.NoHold? && (r.HoldGranted? || r.HoldLost?) then c.(hold := Hold(r.id, Active)) else c;
      (held, AfterHold(p, r))
    case WriteHeld(p, id) =>
      Written(c, Transition(c, p, FundsHeld, Processing, SetHold(id), None), Start)
    case CallAuthorize(p) =>
      (c, AfterAuthorize(t, p, r))
    case WriteSubmitted(p, None) =>
      Written(c, Transition(c, p, Submitted, Processing, Nothing, None), Idle)
    case WriteSubmitted(p, Some(ref)) =>
      Written(c, Transition(c, p, Submitted, Processing, SetPspRef(ref), Some(PaymentAuthorized(p.holdId, ref))), Start)
    case CallCapture(p) =>
      (if r.CaptureDone? || r.CaptureLost? then c.(settled := true) else c, AfterCapture(p, r))
    case WritePspCaptured(p) =>
      Written(c, Transition(c, p, PspCaptured, Processing, Nothing, None), Start)
    case CallLedger(p) =>
      (if r.LedgerDone? || r.LedgerLost? then c.(hold := Hold(c.hold.id, Taken)) else c, AfterLedger(p, r))
    case WriteCaptured(p) =>
      Written(c, TransitionWith(c, Captured, Succeeded, None, None, Some(PaymentCaptured(p.holdId, p.pspRef))), Start)
    case Touch => (c, Idle)
    case CallRelease(p, code) =>
      (if r.Unavailable? || p.holdId.None? then c else ReleaseHold(c, p.holdId.value), WriteFailed(p, code))
    case WriteFailed(p, code) =>
      Written(c, TransitionWith(c, Done, Failed, Some(code), None, Some(PaymentFailed(code))), Idle)
    case SweepLoad(code) => (c, Compensate(Load(c.row), code))
    case CompletionLoad(approved) =>
      var p := Load(c.row);
      (c, if p.status != Processing || p.step != Submitted then Idle
          else if approved then WriteCompletion(p) else Compensate(p, GatewayDeclined))
    case WriteCompletion(p) =>
      Written(c, Transition(c, p, Submitted, Processing, SetPspRef(t.pspRef), None), Start)
    case ResumeLoad(user) =>
      var p := Load(c.row);
      (c, if p.status != RequiresAction || user != t.user then Idle else WriteResumed(p))
    case WriteResumed(p) =>
      Written(c, Transition(c, p, FraudScreened, Processing, Nothing, None), Start)
  }

  /** A release is followed by the failure write, whatever its reply. */
  lemma ReleaseThenFail(t: Terms, c: Core, p: Payment, code: FailureCode, r: Reply)
    requires Fits(c, CallRelease(p, code), r)
    ensures Exec(t, c, CallRelease(p, code), r).1 == WriteFailed(p, code)
  {
  }

  /** The drivers that can be started, with the condition their scan checks. */
  predicate MayStart(row: Row, entry: Pc) {
    match entry
    case Start => true
    case CompletionLoad(_) => true
    case ResumeLoad(_) => true
    case SweepLoad(GatewayUnavailable) => row.status == Processing && row.step == FundsHeld
    case SweepLoad(GatewayCaptureFailed) => row.status == Processing && row.step == Submitted && row.pspRef.Some?
    case _ => false
  }
}
