/** The saga aggregate: the payments row, its outbox, and the two guarded updates that write it. */
module Payments {
  import opened Wrappers

  datatype Method = Card | Wallet | OtherMethod

  datatype Status = Processing | RequiresAction | Succeeded | Failed

  datatype Step = Requested | FraudScreened | FundsHeld | Submitted | PspCaptured | Captured | Done

  datatype FailureCode =
    | FraudDenied
    | InsufficientFunds
    | GatewayDeclined
    | GatewayUnavailable
    | GatewayCaptureFailed
    | StepUpExpired

  /**
   * The columns no statement ever updates, with two facts about the outside: the one reference
   * the processor gives this payment, and the configured fail-open limit.
   */
  datatype Terms = Terms(id: string, user: string, account: string, amount: nat, via: Method,
                         pspRef: string, failOpenLimit: int)

  datatype Row = Row(status: Status, step: Step, holdId: Option<nat>, pspRef: Option<string>,
                     failureCode: Option<FailureCode>, riskScore: Option<int>, version: nat)

  /** What a driver keeps of the row once it has loaded it. */
  datatype Payment = Payment(status: Status, step: Step, holdId: Option<nat>, pspRef: Option<string>)

  datatype Event =
    | PaymentRequested
    | PaymentAuthorized(holdId: Option<nat>, reference: string)
    | PaymentCaptured(holdId: Option<nat>, pspRef: Option<string>)
    | PaymentFailed(code: FailureCode)

  datatype HoldState = Active | Released | Taken

  /** The account-service's hold for the payment: request ids allow at most one. */
  datatype HoldView = NoHold | Hold(id: nat, state: HoldState)

  /**
   * Everything durable about one payment, timestamps apart: its row, its outbox rows in order,
   * its hold, and whether the processor has taken the money.
   */
  datatype Core = Core(row: Row, outbox: seq<Event>, hold: HoldView, settled: bool)

  /** The aggregate as the create request inserts it, with its first event. */
  function Created(): Core {
    Core(Row(Processing, Requested, None, None, None, None, 0), [PaymentRequested], NoHold, false)
  }

  function Load(row: Row): Payment {
    Payment(row.status, row.step, row.holdId, row.pspRef)
  }

  /** The further writes a transition makes in its own transaction. */
  datatype Extra = Nothing | SetRisk(score: int) | SetHold(id: nat) | SetPspRef(ref: string)

  function WithExtra(row: Row, extra: Extra): Row {
    match extra
    case Nothing => row
    case SetRisk(score) => row.(riskScore := Some(score))
    case SetHold(id) => row.(holdId := Some(id))
    case SetPspRef(ref) => row.(pspRef := Some(ref))
  }

  function Emit(outbox: seq<Event>, e: Option<Event>): seq<Event> {
    if e.Some? then outbox + [e.value] else outbox
  }

  /**
   * The step-guarded update. None is the rolled-back transaction: no row had the step of the
   * snapshot. The status is not looked at.
   */
  function Transition(c: Core, p: Payment, step: Step, status: Status, extra: Extra,
          emit: Option<Event>): Option<Core> {
    if c.row.step != p.step then None
    else
      var row := c.row.(step := step, status := status, version := c.row.version + 1);
      Some(c.(row := WithExtra(row, extra), outbox := Emit(c.outbox, emit)))
  }

  /** The status-guarded update. The step is not looked at. */
  function TransitionWith(c: Core, step: Step, status: Status, code: Option<FailureCode>, risk: Option<int>,
                          emit: Option<Event>): Option<Core> {
    if c.row.status != Processing then None
    else
      var row := c.row.(step := step, status := status, failureCode := code,
                        riskScore := if risk.Some? then risk else c.row.riskScore,
                        version := c.row.version + 1);
      Some(c.(row := row, outbox := Emit(c.outbox, emit)))
  }

  /** A committed step-guarded update, column by column: what it is not asked to write stays. */
  lemma TransitionMeans(c: Core, p: Payment, step: Step, status: Status, extra: Extra, emit: Option<Event>)
    ensures var w := Transition(c, p, step, status, extra, emit);
            && (w.Some? <==> c.row.step == p.step)
            && (w.Some? ==>
                  var row := w.value.row;
                  && row.step == step && row.status == status && row.version == c.row.version + 1
                  && row.failureCode == c.row.failureCode
                  && row.riskScore == (if extra.SetRisk? then Some(extra.score) else c.row.riskScore)
                  && row.holdId == (if extra.SetHold? then Some(extra.id) else c.row.holdId)
                  && row.pspRef == (if extra.SetPspRef? then Some(extra.ref) else c.row.pspRef)
                  && w.value.outbox == (if emit.None? then c.outbox else c.outbox + [emit.value])
                  && w.value.hold == c.hold && w.value.settled == c.settled)
  {
  }

  /** And a committed status-guarded one, whose failure code is written even when there is none. */
  lemma TransitionWithMeans(c: Core, step: Step, status: Status, code: Option<FailureCode>, risk: Option<int>,
                            emit: Option<Event>)
    ensures var w := TransitionWith(c, step, status, code, risk, emit);
            && (w.Some? <==> c.row.status == Processing)
            && (w.Some? ==>
                  var row := w.value.row;
                  && row.step == step && row.status == status && row.version == c.row.version + 1
                  && row.failureCode == code
                  && row.riskScore == (if risk.Some? then risk else c.row.riskScore)
                  && row.holdId == c.row.holdId && row.pspRef == c.row.pspRef
                  && w.value.outbox == (if emit.None? then c.outbox else c.outbox + [emit.value])
                  && w.value.hold == c.hold && w.value.settled == c.settled)
  {
  }

  /** The one-statement expiry of an unanswered step-up: guarded by status, and it emits nothing. */
  function ExpireStepUp(c: Core): Core {
    if c.row.status != RequiresAction then c
    else c.(row := c.row.(status := Failed, step := Done, failureCode := Some(StepUpExpired)))
  }

  /** Releasing hold h: only an active hold changes, so release and capture exclude each other. */
  function ReleaseHold(c: Core, h: nat): Core {
    if c.hold == Hold(h, Active) then c.(hold := Hold(h, Released)) else c
  }

  predicate Terminal(status: Status) {
    status == Failed || status == Succeeded
  }
}
