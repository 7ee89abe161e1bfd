/**
 * One payment under full interleaving: any number of drivers with arbitrarily stale snapshots,
 * each advancing by one SQL transaction or remote call at a time, any of which may die anywhere.
 */
module Interleaved {
  import opened Wrappers
  import opened Payments
  import opened FraudClient
  import opened Driver

  /**
   * The durable state, the live drivers, the two timestamps others read, and a history: whether a
   * fraud reply ever let the payment through, whether one ever asked for a step-up, whether the
   * owner resumed the payment, whether a hold was ever requested.
   */
  datatype Saga = Saga(t: Terms, c: Core, workers: map<nat, Pc>, updatedAt: nat, settledAt: nat,
                       passed: bool, challenged: bool, resumed: bool, holdAsked: bool)

  datatype Action =
    | Spawn(w: nat, entry: Pc)
    | Move(w: nat, r: Reply)
    | Crash(w: nat)
    | StepUpExpires
    | HoldLapses               // the account-service releases the hold on its own account

  datatype Timed = At(a: Action, now: nat)

  function Initial(t: Terms, now: nat): Saga {
    Saga(t, Created(), map[], now, 0, false, false, false, false)
  }

  /** The state after one action; an action that is not enabled changes nothing. */
  function Next(s: Saga, a: Action, now: nat): Saga {
    match a
    case Spawn(w, entry) =>
      if w !in s.workers && MayStart(s.c.row, entry) then s.(workers := s.workers[w := entry]) else s
    case Move(w, r) =>
      if w in s.workers && Fits(s.c, s.workers[w], r) then
        var pc := s.workers[w];
        Acted(s, pc, r, now).(workers := s.workers[w := Exec(s.t, s.c, pc, r).1])
      else s
    case Crash(w) => s.(workers := s.workers - {w})
    case StepUpExpires =>
      if s.c.row.status == RequiresAction then s.(c := ExpireStepUp(s.c), updatedAt := now) else s
    case HoldLapses =>
      if s.c.hold.Hold? then s.(c := ReleaseHold(s.c, s.c.hold.id)) else s
  }

  /** What one step of a driver at pc makes of the state, the table of drivers apart. */
  function Acted(s: Saga, pc: Pc, r: Reply, now: nat): Saga
    requires Fits(s.c, pc, r)
  {
    var c' := Exec(s.t, s.c, pc, r).0;
    Saga(s.t, c', s.workers,
         if c'.row != s.c.row || pc.Touch? then now else s.updatedAt,
         if c'.settled && !s.c.settled then now else s.settledAt,
         s.passed || (pc.CallFraud? && LetsThrough(r.fraud, s.t.amount, s.t.failOpenLimit)),
         s.challenged || (pc.CallFraud? && AsksStepUp(r.fraud)),
         s.resumed || (pc.WriteResumed? && c'.row != s.c.row),
         s.holdAsked || pc.CallHold?)
  }

  function Run(s: Saga, acts: seq<Timed>): Saga
    decreases |acts|
  {
    if acts == [] then s else Run(Next(s, acts[0].a, acts[0].now), acts[1..])
  }

  /** What must have happened before money may be held. */
  predicate Cleared(s: Saga) {
    s.passed || (s.resumed && s.challenged)
  }

  /** Each status goes with its own steps. */
  predicate Coupled(status: Status, step: Step) {
    && (status == Succeeded <==> step == Captured)
    && (status == Failed <==> step == Done)
    && (status == RequiresAction ==> step == FraudScreened)
  }

  predicate Holding(step: Step) {
    step == FundsHeld || step == Submitted || step == PspCaptured || step == Captured
  }

  /** What holds of a snapshot however stale: everything it claims is still so. */
  predicate SnapshotOk(s: Saga, p: Payment) {
    && Coupled(p.status, p.step)
    && (Holding(p.step) ==> p.holdId.Some?)
    && (p.step == PspCaptured || p.step == Captured ==> s.c.settled && p.pspRef.Some?)
    && (p.holdId.Some? ==> s.c.hold.Hold? && s.c.hold.id == p.holdId.value && s.c.row.holdId == p.holdId)
    && (p.pspRef.Some? ==> p.pspRef.value == s.t.pspRef && s.c.row.pspRef == p.pspRef)
    && (p.status == Processing && p.step != Requested ==> Cleared(s))
    && (p.status == RequiresAction ==> s.challenged)
  }

  /** The row ends its outbox with a terminal event, unless it failed by step-up expiry. */
  predicate EndsOutbox(row: Row) {
    row.status == Succeeded || (row.status == Failed && row.failureCode != Some(StepUpExpired))
  }

  predicate Matches(row: Row, e: Event) {
    if row.status == Succeeded then e.PaymentCaptured?
    else row.failureCode.Some? && e == PaymentFailed(row.failureCode.value)
  }

  predicate History(row: Row, outbox: seq<Event>) {
    var open := |outbox| - if EndsOutbox(row) then 1 else 0;
    && 1 <= open
    && outbox[0] == PaymentRequested
    && (forall i :: 0 < i < open ==> outbox[i].PaymentAuthorized?)
    && (EndsOutbox(row) ==> Matches(row, outbox[open]))
  }

  predicate RowOk(s: Saga) {
    && SnapshotOk(s, Load(s.c.row))
    && (s.c.row.status == Succeeded ==> s.c.hold.Hold? && s.c.hold.state == Taken)
    && (s.c.hold.Hold? && s.c.hold.state == Taken ==> s.c.settled)
    && (s.c.row.status == Failed <==> s.c.row.failureCode.Some?)
    && (s.c.hold.Hold? ==> s.holdAsked)
    && (s.holdAsked ==> Cleared(s))
  }

  predicate WorkerOk(s: Saga, pc: Pc) {
    match pc
    case CallFraud(p) => SnapshotOk(s, p) && p.status == Processing && p.step == Requested
    case WriteScreened(p, v) =>
      && SnapshotOk(s, p) && p.step == Requested
      && (if v.requiresAction then s.challenged else s.passed)
    case CallHold(p) => SnapshotOk(s, p) && p.status == Processing && p.step == FraudScreened
    case WriteHeld(p, id) =>
      SnapshotOk(s, p) && p.status == Processing && p.step == FraudScreened && s.c.hold.Hold? && s.c.hold.id == id
    case CallAuthorize(p) => SnapshotOk(s, p) && p.step == FundsHeld
    case WriteSubmitted(p, ref) =>
      SnapshotOk(s, p) && p.step == FundsHeld && (ref.Some? ==> ref.value == s.t.pspRef)
    case CallCapture(p) => SnapshotOk(s, p) && p.step == Submitted && p.pspRef.Some?
    case WritePspCaptured(p) => SnapshotOk(s, p) && p.step == Submitted && p.pspRef.Some? && s.c.settled
    case CallLedger(p) => SnapshotOk(s, p) && p.step == PspCaptured
    case WriteCaptured(p) =>
      SnapshotOk(s, p) && p.step == PspCaptured && s.c.hold.Hold? && s.c.hold.state == Taken
    case CallRelease(p, code) => SnapshotOk(s, p) && p.holdId.Some? && code != StepUpExpired
    case WriteFailed(p, code) => SnapshotOk(s, p) && code != StepUpExpired
    case SweepLoad(code) => code != StepUpExpired
    case WriteCompletion(p) => SnapshotOk(s, p) && p.step == Submitted
    case WriteResumed(p) => SnapshotOk(s, p) && p.status == RequiresAction
    case _ => true
  }

  predicate Inv(s: Saga) {
    RowOk(s) && History(s.c.row, s.c.outbox) && forall w :: w in s.workers ==> WorkerOk(s, s.workers[w])
  }

  /** What no action takes back, and so what a stale snapshot may rely on. */
  predicate Grows(s: Saga, s': Saga) {
    && s'.t == s.t
    && (s.passed ==> s'.passed)
    && (s.challenged ==> s'.challenged)
    && (s.resumed ==> s'.resumed)
    && (s.holdAsked ==> s'.holdAsked)
    && (s.c.settled ==> s'.c.settled && s'.settledAt == s.settledAt)
    && (s.c.hold.Hold? ==> s'.c.hold.Hold? && s'.c.hold.id == s.c.hold.id)
    && (s.c.hold.Hold? && s.c.hold.state == Taken ==> s'.c.hold.state == Taken)
    && (s.c.row.holdId.Some? ==> s'.c.row.holdId == s.c.row.holdId)
    && (s.c.row.pspRef.Some? ==> s'.c.row.pspRef == s.c.row.pspRef)
  }

  lemma WorkerGrows(s: Saga, s': Saga, pc: Pc)
    requires Grows(s, s') && WorkerOk(s, pc)
    ensures WorkerOk(s', pc)
  {
  }

  /** A step of the driver at pc leads to s', and takes the driver to pc'. */
  predicate Steps(s: Saga, pc: Pc, r: Reply, now: nat, s': Saga, pc': Pc) {
    Fits(s.c, pc, r) && s' == Acted(s, pc, r, now) && pc' == Exec(s.t, s.c, pc, r).1
  }

  lemma LoadsKeep(s: Saga, pc: Pc, r: Reply, now: nat, s': Saga, pc': Pc)
    requires RowOk(s) && WorkerOk(s, pc) && Steps(s, pc, r, now, s', pc')
    requires pc.Start? || pc.Touch? || pc.SweepLoad? || pc.CompletionLoad? || pc.ResumeLoad?
    ensures Grows(s, s') && RowOk(s') && WorkerOk(s', pc')
  {
  }

  lemma ScreenKeeps(s: Saga, pc: Pc, r: Reply, now: nat, s': Saga, pc': Pc)
    requires RowOk(s) && WorkerOk(s, pc) && Steps(s, pc, r, now, s', pc')
    requires pc.CallFraud? || pc.WriteScreened?
    ensures Grows(s, s') && RowOk(s') && WorkerOk(s', pc')
  {
  }

  lemma HoldKeeps(s: Saga, pc: Pc, r: Reply, now: nat, s': Saga, pc': Pc)
    requires RowOk(s) && WorkerOk(s, pc) && Steps(s, pc, r, now, s', pc')
    requires pc.CallHold? || pc.WriteHeld?
    ensures Grows(s, s') && RowOk(s') && WorkerOk(s', pc')
  {
  }

  lemma SubmitKeeps(s: Saga, pc: Pc, r: Reply, now: nat, s': Saga, pc': Pc)
    requires RowOk(s) && WorkerOk(s, pc) && Steps(s, pc, r, now, s', pc')
    requires pc.CallAuthorize? || pc.WriteSubmitted?
    ensures Grows(s, s') && RowOk(s') && WorkerOk(s', pc')
  {
  }

  lemma EntryKeeps(s: Saga, pc: Pc, r: Reply, now: nat, s': Saga, pc': Pc)
    requires RowOk(s) && WorkerOk(s, pc) && Steps(s, pc, r, now, s', pc')
    requires pc.WriteCompletion? || pc.WriteResumed?
    ensures Grows(s, s') && RowOk(s') && WorkerOk(s', pc')
  {
  }

  lemma CaptureKeeps(s: Saga, pc: Pc, r: Reply, now: nat, s': Saga, pc': Pc)
    requires RowOk(s) && WorkerOk(s, pc) && Steps(s, pc, r, now, s', pc')
    requires pc.CallCapture? || pc.WritePspCaptured? || pc.CallLedger? || pc.WriteCaptured?
    ensures Grows(s, s') && RowOk(s') && WorkerOk(s', pc')
  {
  }

  lemma FailureKeeps(s: Saga, pc: Pc, r: Reply, now: nat, s': Saga, pc': Pc)
    requires RowOk(s) && WorkerOk(s, pc) && Steps(s, pc, r, now, s', pc')
    requires pc.CallRelease? || pc.WriteFailed?
    ensures Grows(s, s') && RowOk(s') && WorkerOk(s', pc')
  {
  }

  lemma DriverKeeps(s: Saga, pc: Pc, r: Reply, now: nat, s': Saga, pc': Pc)
    requires RowOk(s) && WorkerOk(s, pc) && Steps(s, pc, r, now, s', pc')
    ensures Grows(s, s') && RowOk(s') && WorkerOk(s', pc')
  {
    if pc.Start? || pc.Touch? || pc.SweepLoad? || pc.CompletionLoad? || pc.ResumeLoad? {
      LoadsKeep(s, pc, r, now, s', pc');
    } else if pc.CallFraud? || pc.WriteScreened? {
      ScreenKeeps(s, pc, r, now, s', pc');
    } else if pc.CallHold? || pc.WriteHeld? {
      HoldKeeps(s, pc, r, now, s', pc');
    } else if pc.CallAuthorize? || pc.WriteSubmitted? {
      SubmitKeeps(s, pc, r, now, s', pc');
    } else if pc.WriteCompletion? || pc.WriteResumed? {
      EntryKeeps(s, pc, r, now, s', pc');
    } else if pc.CallCapture? || pc.WritePspCaptured? || pc.CallLedger? || pc.WriteCaptured? {
      CaptureKeeps(s, pc, r, now, s', pc');
    } else {
      FailureKeeps(s, pc, r, now, s', pc');
    }
  }

  lemma EndingKeepsHistory(s: Saga, pc: Pc, r: Reply, c': Core)
    requires RowOk(s) && WorkerOk(s, pc) && Fits(s.c, pc, r) && History(s.c.row, s.c.outbox)
    requires (pc.WriteCaptured? || pc.WriteFailed?) && c' == Exec(s.t, s.c, pc, r).0
    ensures History(c'.row, c'.outbox)
  {
  }

  lemma OpenKeepsHistory(s: Saga, pc: Pc, r: Reply, c': Core)
    requires RowOk(s) && WorkerOk(s, pc) && Fits(s.c, pc, r) && History(s.c.row, s.c.outbox)
    requires !pc.WriteCaptured? && !pc.WriteFailed? && c' == Exec(s.t, s.c, pc, r).0
    ensures History(c'.row, c'.outbox)
  {
  }

  /** The outbox history is kept because no driver writes a row that has reached its end. */
  lemma HistoryKeeps(s: Saga, pc: Pc, r: Reply)
    requires RowOk(s) && WorkerOk(s, pc) && Fits(s.c, pc, r) && History(s.c.row, s.c.outbox)
    ensures var c' := Exec(s.t, s.c, pc, r).0; History(c'.row, c'.outbox)
  {
    var c' := Exec(s.t, s.c, pc, r).0;
    if pc.WriteCaptured? || pc.WriteFailed? {
      EndingKeepsHistory(s, pc, r, c');
    } else {
      OpenKeepsHistory(s, pc, r, c');
    }
  }

  lemma NextKeeps(s: Saga, a: Action, now: nat)
    requires Inv(s)
    ensures Inv(Next(s, a, now)) && Grows(s, Next(s, a, now))
  {
    if a.Move? && a.w in s.workers && Fits(s.c, s.workers[a.w], a.r) {
      MoveKeeps(s, a.w, a.r, now);
    } else {
      StillKeeps(s, a, now);
    }
  }

  lemma MoveKeeps(s: Saga, w: nat, r: Reply, now: nat)
    requires Inv(s) && w in s.workers && Fits(s.c, s.workers[w], r)
    ensures var s' := Next(s, Move(w, r), now); Inv(s') && Grows(s, s')
  {
    var s' := Next(s, Move(w, r), now);
    var pc := s.workers[w];
    DriverKeeps(s, pc, r, now, Acted(s, pc, r, now), Exec(s.t, s.c, pc, r).1);
    HistoryKeeps(s, pc, r);
    WorkersOnly(Acted(s, pc, r, now), s'.workers);
    forall v | v in s'.workers ensures WorkerOk(s', s'.workers[v]) {
      if v != w {
        WorkerGrows(s, s', s.workers[v]);
      }
    }
  }

  /** The invariants of the row and of a snapshot do not look at the table of drivers. */
  lemma WorkersOnly(s: Saga, workers: map<nat, Pc>)
    ensures var s' := s.(workers := workers);
            && (RowOk(s) ==> RowOk(s'))
            && forall pc :: WorkerOk(s, pc) ==> WorkerOk(s', pc)
  {
  }

  /** The writes of no driver: the step-up expiry and the account-service's own release. */
  lemma ExpiryKeepsRow(s: Saga, now: nat, s': Saga)
    requires RowOk(s) && History(s.c.row, s.c.outbox) && s' == Next(s, StepUpExpires, now)
    ensures Grows(s, s') && RowOk(s') && History(s'.c.row, s'.c.outbox)
  {
  }

  lemma LapseKeepsRow(s: Saga, now: nat, s': Saga)
    requires RowOk(s) && History(s.c.row, s.c.outbox) && s' == Next(s, HoldLapses, now)
    ensures Grows(s, s') && RowOk(s') && History(s'.c.row, s'.c.outbox)
  {
  }

  lemma OutsideKeeps(s: Saga, a: Action, now: nat)
    requires Inv(s) && (a.StepUpExpires? || a.HoldLapses?)
    ensures Inv(Next(s, a, now)) && Grows(s, Next(s, a, now))
  {
    var s' := Next(s, a, now);
    if a.StepUpExpires? {
      ExpiryKeepsRow(s, now, s');
    } else {
      LapseKeepsRow(s, now, s');
    }
    forall v | v in s'.workers ensures WorkerOk(s', s'.workers[v]) {
      WorkerGrows(s, s', s.workers[v]);
    }
  }

  /** Drivers come and go without touching anything else. */
  lemma ComingAndGoingKeeps(s: Saga, a: Action, now: nat)
    requires Inv(s) && !a.StepUpExpires? && !a.HoldLapses?
    requires a.Move? ==> a.w !in s.workers || !Fits(s.c, s.workers[a.w], a.r)
    ensures Inv(Next(s, a, now)) && Grows(s, Next(s, a, now))
  {
    WorkersOnly(s, Next(s, a, now).workers);
  }

  /** The actions that are no driver's step. */
  lemma StillKeeps(s: Saga, a: Action, now: nat)
    requires Inv(s) && (a.Move? ==> a.w !in s.workers || !Fits(s.c, s.workers[a.w], a.r))
    ensures Inv(Next(s, a, now)) && Grows(s, Next(s, a, now))
  {
    if a.StepUpExpires? || a.HoldLapses? {
      OutsideKeeps(s, a, now);
    } else {
      ComingAndGoingKeeps(s, a, now);
    }
  }

  lemma GrowsTransitive(s0: Saga, s1: Saga, s2: Saga)
    requires Grows(s0, s1) && Grows(s1, s2)
    ensures Grows(s0, s2)
  {
  }

  lemma {:induction false} RunKeeps(s: Saga, acts: seq<Timed>)
    requires Inv(s)
    ensures Inv(Run(s, acts)) && Grows(s, Run(s, acts))
    decreases |acts|
  {
    if acts != [] {
      var s' := Next(s, acts[0].a, acts[0].now);
      NextKeeps(s, acts[0].a, acts[0].now);
      RunKeeps(s', acts[1..]);
      GrowsTransitive(s, s', Run(s, acts));
    }
  }

  lemma InitialInv(t: Terms, now: nat)
    ensures Inv(Initial(t, now))
  {
  }

  // ---------------------------------------------------------------- what every run guarantees

  /**
   * The books never run ahead of the processor: whatever drivers race, stall or die, the ledger
   * has captured only if the processor has, and a payment has succeeded only if both have.
   */
  lemma LedgerAfterProcessor(t: Terms, now: nat, acts: seq<Timed>)
    ensures var s := Run(Initial(t, now), acts);
            && (s.c.hold.Hold? && s.c.hold.state == Taken ==> s.c.settled)
            && (s.c.row.status == Succeeded ==> s.c.settled && s.c.hold.Hold? && s.c.hold.state == Taken)
  {
    InitialInv(t, now);
    RunKeeps(Initial(t, now), acts);
  }

  lemma TerminalStep(s: Saga, a: Action, now: nat)
    requires Inv(s) && Terminal(s.c.row.status)
    ensures Next(s, a, now).c.row == s.c.row && Next(s, a, now).c.outbox == s.c.outbox
  {
    if a.Move? && a.w in s.workers && Fits(s.c, s.workers[a.w], a.r) {
      assert WorkerOk(s, s.workers[a.w]);
    }
  }

  lemma {:induction false} TerminalRun(s: Saga, acts: seq<Timed>)
    requires Inv(s) && Terminal(s.c.row.status)
    ensures Run(s, acts).c.row == s.c.row && Run(s, acts).c.outbox == s.c.outbox
    decreases |acts|
  {
    if acts != [] {
      TerminalStep(s, acts[0].a, acts[0].now);
      NextKeeps(s, acts[0].a, acts[0].now);
      TerminalRun(Next(s, acts[0].a, acts[0].now), acts[1..]);
    }
  }

  /**
   * A final status is final: once a payment has failed or succeeded, no later action changes any
   * column of its row or adds to its outbox, although the step-guarded update ignores the status.
   */
  lemma TerminalIsFinal(t: Terms, now: nat, acts: seq<Timed>, more: seq<Timed>)
    ensures var s := Run(Initial(t, now), acts);
            Terminal(s.c.row.status) ==>
              Run(s, more).c.row == s.c.row && Run(s, more).c.outbox == s.c.outbox
  {
    InitialInv(t, now);
    RunKeeps(Initial(t, now), acts);
    if Terminal(Run(Initial(t, now), acts).c.row.status) {
      TerminalRun(Run(Initial(t, now), acts), more);
    }
  }

  predicate EndsSaga(e: Event) {
    e.PaymentCaptured? || e.PaymentFailed?
  }

  /**
   * What the subscribers see of one payment: requested first and once, at most one ending and
   * nothing after it, captured exactly when it succeeded, failed exactly when it failed for a
   * reason other than step-up expiry, and then with the reason the row has.
   */
  lemma OutboxHistory(t: Terms, now: nat, acts: seq<Timed>)
    ensures var s := Run(Initial(t, now), acts);
            var row, outbox := s.c.row, s.c.outbox;
            && (forall i :: 0 <= i < |outbox| ==> (outbox[i] == PaymentRequested <==> i == 0))
            && |outbox| > 0
            && (forall i :: 0 <= i < |outbox| && EndsSaga(outbox[i]) ==> i == |outbox| - 1)
            && ((exists i :: 0 <= i < |outbox| && outbox[i].PaymentCaptured?) <==> row.status == Succeeded)
            && (forall code :: PaymentFailed(code) in outbox <==>
                  row.status == Failed && row.failureCode == Some(code) && code != StepUpExpired)
  {
    InitialInv(t, now);
    RunKeeps(Initial(t, now), acts);
    var s := Run(Initial(t, now), acts);
    var outbox := s.c.outbox;
    var open := |outbox| - if EndsOutbox(s.c.row) then 1 else 0;
    assert forall i :: 0 <= i < open ==> !EndsSaga(outbox[i]);
    if EndsOutbox(s.c.row) {
      assert outbox[open] in outbox;
    }
  }

  /**
   * No hold is ever requested, and so no money is ever taken, for a payment that no screen let
   * through, unless its owner resumed it after a screen had asked for the second factor.
   */
  lemma MoneyIsCleared(t: Terms, now: nat, acts: seq<Timed>)
    ensures var s := Run(Initial(t, now), acts);
            s.holdAsked || s.c.hold.Hold? || s.c.row.status == Succeeded ==>
              s.passed || (s.resumed && s.challenged)
  {
    InitialInv(t, now);
    RunKeeps(Initial(t, now), acts);
  }

  /**
   * The pointers the steps follow are set: the row has its hold from funds_held on and its
   * processor reference at psp_captured, and every driver about to capture or release carries
   * the hold and the reference that belong to this payment.
   */
  lemma DereferencesAreSafe(t: Terms, now: nat, acts: seq<Timed>, w: nat)
    ensures var s := Run(Initial(t, now), acts);
            && (Holding(s.c.row.step) ==> s.c.row.holdId.Some? && s.c.hold.Hold? && s.c.hold.id == s.c.row.holdId.value)
            && (s.c.row.step == PspCaptured || s.c.row.step == Captured ==> s.c.row.pspRef == Some(t.pspRef))
            && (w in s.workers ==>
                  match s.workers[w]
                  case CallCapture(p) => p.pspRef == Some(t.pspRef)
                  case CallLedger(p) => s.c.hold.Hold? && p.holdId == Some(s.c.hold.id)
                  case CallRelease(p, _) => s.c.hold.Hold? && p.holdId == Some(s.c.hold.id)
                  case _ => true)
  {
    InitialInv(t, now);
    RunKeeps(Initial(t, now), acts);
    var s := Run(Initial(t, now), acts);
    if w in s.workers {
      assert WorkerOk(s, s.workers[w]);
    }
  }

  // ---------------------------------------------------------------- timestamps

  /** The timestamps lie in the past, and a booked row was written after the processor captured. */
  predicate ClockOk(s: Saga, now: nat) {
    && s.updatedAt <= now
    && s.settledAt <= now
    && (s.c.row.step == Captured ==> s.settledAt <= s.updatedAt)
  }

  lemma ClockKeeps(s: Saga, a: Action, before: nat, now: nat)
    requires Inv(s) && ClockOk(s, before) && before <= now
    ensures ClockOk(Next(s, a, now), now)
  {
    if a.Move? && a.w in s.workers && Fits(s.c, s.workers[a.w], a.r) {
      assert WorkerOk(s, s.workers[a.w]);
    }
  }

  /** A clock that never goes back. */
  predicate Monotone(before: nat, acts: seq<Timed>)
    decreases |acts|
  {
    acts == [] || (before <= acts[0].now && Monotone(acts[0].now, acts[1..]))
  }

  function LastTime(before: nat, acts: seq<Timed>): nat
    decreases |acts|
  {
    if acts == [] then before else LastTime(acts[0].now, acts[1..])
  }

  lemma {:induction false} ClockRun(s: Saga, acts: seq<Timed>, before: nat)
    requires Inv(s) && ClockOk(s, before) && Monotone(before, acts)
    ensures ClockOk(Run(s, acts), LastTime(before, acts))
    decreases |acts|
  {
    if acts != [] {
      ClockKeeps(s, acts[0].a, before, acts[0].now);
      NextKeeps(s, acts[0].a, acts[0].now);
      ClockRun(Next(s, acts[0].a, acts[0].now), acts[1..], acts[0].now);
    }
  }

  /** Over every run: the timestamps lie in the past, and money is booked after it is collected. */
  lemma BookedAfterCollected(t: Terms, now: nat, acts: seq<Timed>)
    requires Monotone(now, acts)
    ensures var s := Run(Initial(t, now), acts);
            && s.updatedAt <= LastTime(now, acts) && s.settledAt <= LastTime(now, acts)
            && (s.c.row.status == Succeeded ==> s.settledAt <= s.updatedAt)
  {
    InitialInv(t, now);
    RunKeeps(Initial(t, now), acts);
    ClockRun(Initial(t, now), acts, now);
  }
}
