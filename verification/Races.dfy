/** Concrete runs that show where serialisation, or an undisturbed compensation, is really needed. */
module Races {
  import opened Wrappers
  import opened Payments
  import opened FraudClient
  import opened Driver
  import I = Interleaved
  import S = Serial

  // ---------------------------------------------------------------- building runs action by action

  /** An interleaved run reaches these durable facts with these drivers. */
  predicate Reaches(t: Terms, acts: seq<I.Timed>, c: Core, workers: map<nat, Pc>) {
    var s := I.Run(I.Initial(t, 0), acts); s.t == t && s.c == c && s.workers == workers
  }

  lemma Snoc(t: Terms, acts: seq<I.Timed>, a: I.Action)
    ensures I.Run(I.Initial(t, 0), acts + [I.At(a, 0)]) == I.Next(I.Run(I.Initial(t, 0), acts), a, 0)
  {
    var s := I.Run(I.Initial(t, 0), acts);
    S.RunAppend(I.Initial(t, 0), acts, [I.At(a, 0)]);
    assert I.Run(s, [I.At(a, 0)]) == I.Run(I.Next(s, a, 0), []);
  }

  lemma Spawns(t: Terms, acts: seq<I.Timed>, c: Core, workers: map<nat, Pc>, w: nat, entry: Pc)
    returns (acts': seq<I.Timed>)
    requires Reaches(t, acts, c, workers) && w !in workers && MayStart(c.row, entry)
    ensures acts <= acts' && Reaches(t, acts', c, workers[w := entry])
  {
    acts' := acts + [I.At(I.Spawn(w, entry), 0)];
    Snoc(t, acts, I.Spawn(w, entry));
  }

  lemma Moves(t: Terms, acts: seq<I.Timed>, c: Core, workers: map<nat, Pc>, w: nat, r: Reply, c': Core, pc': Pc)
    returns (acts': seq<I.Timed>)
    requires Reaches(t, acts, c, workers) && w in workers && Fits(c, workers[w], r)
    requires Exec(t, c, workers[w], r) == (c', pc')
    ensures acts <= acts' && Reaches(t, acts', c', workers[w := pc'])
  {
    acts' := acts + [I.At(I.Move(w, r), 0)];
    Snoc(t, acts, I.Move(w, r));
  }

  lemma SerialSnoc(t: Terms, s: S.Solo, acts: seq<S.Action>, a: S.Action)
    ensures S.Run(t, s, acts + [a]) == S.Next(t, S.Run(t, s, acts), a)
  {
    S.Concatenated(t, s, acts, [a]);
    assert S.Run(t, S.Run(t, s, acts), [a]) == S.Run(t, S.Next(t, S.Run(t, s, acts), a), []);
  }

  predicate ReachesAlone(t: Terms, acts: seq<S.Action>, c: Core, pc: Pc) {
    var s := S.Run(t, S.Initial(), acts); s.c == c && s.pc == pc
  }

  /** No driver dies. */
  predicate Deathless(acts: seq<S.Action>) {
    forall a :: a in acts ==> !a.Die?
  }

  lemma Begins(t: Terms, acts: seq<S.Action>, c: Core, pc: Pc, entry: Pc) returns (acts': seq<S.Action>)
    requires ReachesAlone(t, acts, c, pc) && MayStart(c.row, entry)
    ensures ReachesAlone(t, acts', c, entry)
    ensures Deathless(acts) && pc.Idle? ==> Deathless(acts')
  {
    var free := if pc.Idle? then acts else acts + [S.Die];
    SerialSnoc(t, S.Initial(), acts, S.Die);
    acts' := free + [S.Begin(entry)];
    SerialSnoc(t, S.Initial(), free, S.Begin(entry));
  }

  lemma Goes(t: Terms, acts: seq<S.Action>, c: Core, pc: Pc, r: Reply, c': Core, pc': Pc) returns (acts': seq<S.Action>)
    requires ReachesAlone(t, acts, c, pc) && Fits(c, pc, r) && Exec(t, c, pc, r) == (c', pc')
    ensures ReachesAlone(t, acts', c', pc')
    ensures Deathless(acts) ==> Deathless(acts')
  {
    acts' := acts + [S.Go(r)];
    SerialSnoc(t, S.Initial(), acts, S.Go(r));
  }

  // ---------------------------------------------------------------- the states on the way

  function Screened1(): Core {
    Core(Row(Processing, FraudScreened, None, None, None, Some(5), 1), [PaymentRequested], NoHold, false)
  }

  function Holding1(): Core {
    Screened1().(hold := Hold(1, Active))
  }

  function Held1(): Core {
    Core(Row(Processing, FundsHeld, Some(1), None, None, Some(5), 2), [PaymentRequested], Hold(1, Active), false)
  }

  /** Submitted and approved, from a hold in the given state. */
  function Submitted1(t: Terms, hold: HoldState): Core {
    Core(Row(Processing, Submitted, Some(1), Some(t.pspRef), None, Some(5), 3),
         [PaymentRequested, PaymentAuthorized(Some(1), t.pspRef)], Hold(1, hold), false)
  }

  function Captured1(t: Terms, hold: HoldState): Core {
    var c := Submitted1(t, hold);
    c.(row := c.row.(step := PspCaptured, version := 4), settled := true)
  }

  const PASS := Verdict(true, false, 5, false)

  lemma ScreensAlone(t: Terms) returns (acts: seq<S.Action>)
    ensures ReachesAlone(t, acts, Screened1(), Start) && Deathless(acts)
  {
    var p := Load(Created().row);
    acts := [];
    acts := Begins(t, acts, Created(), Idle, Start);
    acts := Goes(t, acts, Created(), Start, Stored, Created(), CallFraud(p));
    acts := Goes(t, acts, Created(), CallFraud(p), Screened(Scored(Approve, 5)), Created(), WriteScreened(p, PASS));
    acts := Goes(t, acts, Created(), WriteScreened(p, PASS), Stored, Screened1(), Start);
  }

  lemma HoldsAlone(t: Terms) returns (acts: seq<S.Action>)
    ensures ReachesAlone(t, acts, Held1(), Start) && Deathless(acts)
  {
    var p := Load(Screened1().row);
    acts := ScreensAlone(t);
    acts := Goes(t, acts, Screened1(), Start, Stored, Screened1(), CallHold(p));
    acts := Goes(t, acts, Screened1(), CallHold(p), HoldGranted(1), Holding1(), WriteHeld(p, 1));
    acts := Goes(t, acts, Holding1(), WriteHeld(p, 1), Stored, Held1(), Start);
  }

  /** A card payment submits and captures at the processor, whatever the state of its hold. */
  lemma SubmitsAlone(t: Terms, before: seq<S.Action>, hold: HoldState) returns (acts: seq<S.Action>)
    requires t.via.Card?
    requires ReachesAlone(t, before, Held1().(hold := Hold(1, hold)), Start)
    ensures ReachesAlone(t, acts, Captured1(t, hold), Start)
    ensures Deathless(before) ==> Deathless(acts)
  {
    var c := Held1().(hold := Hold(1, hold));
    var p := Load(c.row);
    acts := Goes(t, before, c, Start, Stored, c, CallAuthorize(p));
    acts := Goes(t, acts, c, CallAuthorize(p), Approved, c, WriteSubmitted(p, Some(t.pspRef)));
    assert c.outbox + [PaymentAuthorized(Some(1), t.pspRef)] == Submitted1(t, hold).outbox;
    acts := Goes(t, acts, c, WriteSubmitted(p, Some(t.pspRef)), Stored, Submitted1(t, hold), Start);
    acts := CapturesAlone(t, acts, hold);
  }

  lemma CapturesAlone(t: Terms, before: seq<S.Action>, hold: HoldState) returns (acts: seq<S.Action>)
    requires t.via.Card?
    requires ReachesAlone(t, before, Submitted1(t, hold), Start)
    ensures ReachesAlone(t, acts, Captured1(t, hold), Start)
    ensures Deathless(before) ==> Deathless(acts)
  {
    var c := Submitted1(t, hold);
    var p := Load(c.row);
    acts := Goes(t, before, c, Start, Stored, c, CallCapture(p));
    acts := Goes(t, acts, c, CallCapture(p), CaptureDone, c.(settled := true), WritePspCaptured(p));
    acts := Goes(t, acts, c.(settled := true), WritePspCaptured(p), Stored, Captured1(t, hold), Start);
  }

  /** Driver 0 works while driver 1 stays where it is. */
  predicate ReachesBeside(t: Terms, acts: seq<I.Timed>, c: Core, pc: Pc, other: Pc) {
    Reaches(t, acts, c, map[0 := pc, 1 := other])
  }

  lemma GoesBeside(t: Terms, acts: seq<I.Timed>, c: Core, pc: Pc, other: Pc, r: Reply, c': Core, pc': Pc)
    returns (acts': seq<I.Timed>)
    requires ReachesBeside(t, acts, c, pc, other) && Fits(c, pc, r) && Exec(t, c, pc, r) == (c', pc')
    ensures ReachesBeside(t, acts', c', pc', other)
  {
    var w := map[0 := pc, 1 := other];
    acts' := Moves(t, acts, c, w, 0, r, c', pc');
    assert w[0 := pc'] == map[0 := pc', 1 := other];
  }

  // ---------------------------------------------------------------- what goes wrong

  /**
   * Even with the drivers serialised: the submission sweep releases the hold and dies before its
   * failure write; the next driver submits, captures at the processor, and has no hold to capture.
   */
  lemma TornCompensationStrandsMoney(t: Terms)
    requires t.via.Card?
    ensures exists acts :: var c := S.Run(t, S.Initial(), acts).c;
              c.row.step == PspCaptured && c.row.status == Processing && c.hold == Hold(1, Released)
  {
    var c := Held1();
    var p := Load(c.row);
    var acts := HoldsAlone(t);
    acts := Begins(t, acts, c, Start, SweepLoad(GatewayUnavailable));
    acts := Goes(t, acts, c, SweepLoad(GatewayUnavailable), Stored, c, CallRelease(p, GatewayUnavailable));
    var released := c.(hold := Hold(1, Released));
    acts := Goes(t, acts, c, CallRelease(p, GatewayUnavailable), ReleaseDone, released,
        WriteFailed(p, GatewayUnavailable));
    acts := Begins(t, acts, released, WriteFailed(p, GatewayUnavailable), Start);
    acts := SubmitsAlone(t, acts, Released);
  }

  /**
   * No race and no death is needed if the account-service lets the hold lapse after the submission:
   * the one driver captures at the processor, and has no hold to capture.
   */
  lemma LapseStrandsMoney(t: Terms)
    requires t.via.Card?
    ensures exists acts :: var c := S.Run(t, S.Initial(), acts).c;
              && c.row.step == PspCaptured && c.row.status == Processing && c.hold == Hold(1, Released)
              && Deathless(acts)
  {
    var acts := HoldsAlone(t);
    SerialSnoc(t, S.Initial(), acts, S.HoldLapses);
    var end := SubmitsAlone(t, acts + [S.HoldLapses], Released);
  }

  /** Driver 0 stands at psp_captured; a sweep that scanned earlier has yet to reload. */
  lemma SweepWaits(t: Terms) returns (acts: seq<I.Timed>)
    requires t.via.Card?
    ensures Reaches(t, acts, Captured1(t, Active), map[0 := Start, 1 := SweepLoad(GatewayCaptureFailed)])
  {
    var alone := HoldsAlone(t);
    var c := Held1();
    var p := Load(c.row);
    alone := Goes(t, alone, c, Start, Stored, c, CallAuthorize(p));
    alone := Goes(t, alone, c, CallAuthorize(p), Approved, c, WriteSubmitted(p, Some(t.pspRef)));
    assert c.outbox + [PaymentAuthorized(Some(1), t.pspRef)] == Submitted1(t, Active).outbox;
    alone := Goes(t, alone, c, WriteSubmitted(p, Some(t.pspRef)), Stored, Submitted1(t, Active), Start);
    acts := FromSerial(t, alone, Submitted1(t, Active), Start);
    acts := ScanThenCapture(t, acts);
  }

  lemma ScanThenCapture(t: Terms, before: seq<I.Timed>) returns (acts: seq<I.Timed>)
    requires t.via.Card? && Reaches(t, before, Submitted1(t, Active), map[0 := Start])
    ensures Reaches(t, acts, Captured1(t, Active), map[0 := Start, 1 := SweepLoad(GatewayCaptureFailed)])
  {
    var c := Submitted1(t, Active);
    var p := Load(c.row);
    var sweep := SweepLoad(GatewayCaptureFailed);
    acts := Spawns(t, before, c, map[0 := Start], 1, sweep);
    assert map[0 := Start][1 := sweep] == map[0 := Start, 1 := sweep];
    acts := GoesBeside(t, acts, c, Start, sweep, Stored, c, CallCapture(p));
    acts := GoesBeside(t, acts, c, CallCapture(p), sweep, CaptureDone, c.(settled := true), WritePspCaptured(p));
    acts := GoesBeside(t, acts, c.(settled := true), WritePspCaptured(p), sweep, Stored, Captured1(t, Active), Start);
  }

  lemma FromSerial(t: Terms, alone: seq<S.Action>, c: Core, pc: Pc) returns (acts: seq<I.Timed>)
    requires ReachesAlone(t, alone, c, pc) && !pc.Idle?
    ensures Reaches(t, acts, c, map[0 := pc])
  {
    acts := S.LiftRun(t, S.Initial(), alone);
    S.SerialIsInterleaved(t, S.Initial(), alone, I.Initial(t, 0));
    S.OneDriver(t, S.Initial(), alone, I.Initial(t, 0));
  }

  /**
   * A sweep scans the payment at submitted_to_gateway; before it reloads, the saga records
   * psp_captured; the sweep does not check again, releases the hold and fails the payment.
   */
  lemma SweepUndoesCapturedMoney(t: Terms)
    requires t.via.Card?
    ensures exists acts, more ::
              && I.Run(I.Initial(t, 0), acts).c.row.step == PspCaptured
              && acts <= more
              && var c := I.Run(I.Initial(t, 0), more).c;
                 c.row.status == Failed && c.settled && c.hold == Hold(1, Released)
  {
    var sweep := SweepLoad(GatewayCaptureFailed);
    var acts := SweepWaits(t);
    var c := Captured1(t, Active);
    var p := Load(c.row);
    var w := map[0 := Start, 1 := sweep];
    var more := Moves(t, acts, c, w, 1, Stored, c, CallRelease(p, GatewayCaptureFailed));
    w := w[1 := CallRelease(p, GatewayCaptureFailed)];
    more := Moves(t, more, c, w, 1, ReleaseDone, Captured1(t, Released), WriteFailed(p, GatewayCaptureFailed));
    w := w[1 := WriteFailed(p, GatewayCaptureFailed)];
    var end := Exec(t, Captured1(t, Released), WriteFailed(p, GatewayCaptureFailed), Stored);
    more := Moves(t, more, Captured1(t, Released), w, 1, Stored, end.0, end.1);
  }

  const DOUBT := Verdict(false, true, 70, false)

  /** Driver 1 has had a verdict on the new payment; driver 0 is about to begin. */
  lemma VerdictArises(t: Terms, d: Decision, other: Pc) returns (acts: seq<I.Timed>)
    requires other == AfterScreen(Load(Created().row), Screen(Scored(d, 70), t.amount, t.failOpenLimit))
    ensures ReachesBeside(t, acts, Created(), Start, other)
  {
    var p := Load(Created().row);
    acts := Spawns(t, [], Created(), map[], 1, Start);
    acts := Moves(t, acts, Created(), map[][1 := Start], 1, Stored, Created(), CallFraud(p));
    var w := map[1 := CallFraud(p)];
    assert map[][1 := Start][1 := CallFraud(p)] == w;
    acts := Moves(t, acts, Created(), w, 1, Screened(Scored(d, 70)), Created(), other);
    assert w[1 := other] == map[1 := other];
    acts := Spawns(t, acts, Created(), map[1 := other], 0, Start);
    assert map[1 := other][0 := Start] == map[0 := Start, 1 := other];
  }

  lemma ScreensBeside(t: Terms, before: seq<I.Timed>, other: Pc) returns (acts: seq<I.Timed>)
    requires ReachesBeside(t, before, Created(), Start, other)
    ensures ReachesBeside(t, acts, Screened1(), CallHold(Load(Screened1().row)), other)
  {
    var c := Created();
    var p, q := Load(c.row), Load(Screened1().row);
    acts := GoesBeside(t, before, c, Start, other, Stored, c, CallFraud(p));
    acts := GoesBeside(t, acts, c, CallFraud(p), other, Screened(Scored(Approve, 5)), c, WriteScreened(p, PASS));
    acts := GoesBeside(t, acts, c, WriteScreened(p, PASS), other, Stored, Screened1(), Start);
    acts := GoesBeside(t, acts, Screened1(), Start, other, Stored, Screened1(), CallHold(q));
  }

  lemma HoldsBeside(t: Terms, before: seq<I.Timed>, other: Pc) returns (acts: seq<I.Timed>)
    requires ReachesBeside(t, before, Created(), Start, other)
    ensures ReachesBeside(t, acts, Holding1(), WriteHeld(Load(Screened1().row), 1), other)
  {
    var q := Load(Screened1().row);
    acts := ScreensBeside(t, before, other);
    acts := GoesBeside(t, acts, Screened1(), CallHold(q), other, HoldGranted(1), Holding1(), WriteHeld(q, 1));
  }

  lemma CapturesBeside(t: Terms, before: seq<I.Timed>, other: Pc) returns (acts: seq<I.Timed>)
    requires t.via.Card? && ReachesBeside(t, before, Holding1(), WriteHeld(Load(Screened1().row), 1), other)
    ensures ReachesBeside(t, acts, Captured1(t, Active), Start, other)
  {
    var c, c' := Held1(), Submitted1(t, Active);
    var p, q := Load(c.row), Load(c'.row);
    acts := GoesBeside(t, before, Holding1(), WriteHeld(Load(Screened1().row), 1), other, Stored, c, Start);
    acts := GoesBeside(t, acts, c, Start, other, Stored, c, CallAuthorize(p));
    acts := GoesBeside(t, acts, c, CallAuthorize(p), other, Approved, c, WriteSubmitted(p, Some(t.pspRef)));
    assert c.outbox + [PaymentAuthorized(Some(1), t.pspRef)] == c'.outbox;
    acts := GoesBeside(t, acts, c, WriteSubmitted(p, Some(t.pspRef)), other, Stored, c', Start);
    acts := GoesBeside(t, acts, c', Start, other, Stored, c', CallCapture(q));
    acts := GoesBeside(t, acts, c', CallCapture(q), other, CaptureDone, c'.(settled := true), WritePspCaptured(q));
    acts := GoesBeside(t, acts, c'.(settled := true), WritePspCaptured(q), other, Stored, Captured1(t, Active), Start);
  }

  /** Driver 1 writes its old verdict over whatever the row has become, and the step-up expires. */
  lemma DoubtPrevails(t: Terms, before: seq<I.Timed>, c: Core, pc: Pc) returns (acts: seq<I.Timed>)
    requires ReachesBeside(t, before, c, pc, WriteScreened(Load(Created().row), DOUBT)) && c.row.status == Processing
    ensures var c' := I.Run(I.Initial(t, 0), acts).c;
            && c'.row.failureCode == Some(StepUpExpired)
            && c'.hold == c.hold && c'.outbox == c.outbox && c'.settled == c.settled
  {
    var verdict := WriteScreened(Load(Created().row), DOUBT);
    var end := Exec(t, c, verdict, Stored);
    acts := Moves(t, before, c, map[0 := pc, 1 := verdict], 1, Stored, end.0, end.1);
    Snoc(t, acts, I.StepUpExpires);
    acts := acts + [I.At(I.StepUpExpires, 0)];
  }

  /**
   * Two drivers screen the same payment and get different verdicts: one holds the funds while the
   * other parks the payment, whose step-up then expires over an active hold with no failed event.
   */
  lemma ExpiryStrandsHold(t: Terms)
    ensures exists acts :: var c := I.Run(I.Initial(t, 0), acts).c;
              && c.row.failureCode == Some(StepUpExpired)
              && c.hold == Hold(1, Active)
              && c.outbox == [PaymentRequested]
  {
    var acts := VerdictArises(t, StepUp, WriteScreened(Load(Created().row), DOUBT));
    acts := HoldsBeside(t, acts, WriteScreened(Load(Created().row), DOUBT));
    acts := DoubtPrevails(t, acts, Holding1(), WriteHeld(Load(Screened1().row), 1));
  }

  /**
   * And later still: the old verdict is written over psp_captured. The processor has the money, the
   * hold is active, the payment is failed as step_up_expired, and subscribers hear of no ending.
   */
  lemma ExpiryUndoesCapturedMoney(t: Terms)
    requires t.via.Card?
    ensures exists acts :: var c := I.Run(I.Initial(t, 0), acts).c;
              && c.row.failureCode == Some(StepUpExpired)
              && c.settled && c.hold == Hold(1, Active)
              && c.outbox == [PaymentRequested, PaymentAuthorized(Some(1), t.pspRef)]
  {
    var verdict := WriteScreened(Load(Created().row), DOUBT);
    var acts := VerdictArises(t, StepUp, WriteScreened(Load(Created().row), DOUBT));
    acts := HoldsBeside(t, acts, verdict);
    acts := CapturesBeside(t, acts, verdict);
    acts := DoubtPrevails(t, acts, Captured1(t, Active), Start);
  }

  /**
   * Nobody dies and no release errs: one driver is told to deny the payment, the other to go ahead.
   * The first fails the payment, which has no hold to give back; then the second one's hold arrives.
   */
  lemma LateHoldOutlivesFailure(t: Terms)
    ensures exists acts :: var c := I.Run(I.Initial(t, 0), acts).c;
              && c.row.status == Failed && c.row.failureCode == Some(FraudDenied)
              && c.hold == Hold(1, Active)
              && c.outbox == [PaymentRequested, PaymentFailed(FraudDenied)]
  {
    var p, q := Load(Created().row), Load(Screened1().row);
    var denial := WriteFailed(p, FraudDenied);
    var acts := VerdictArises(t, Deny, denial);
    acts := ScreensBeside(t, acts, denial);
    var w := map[0 := CallHold(q), 1 := denial];
    var failed := Exec(t, Screened1(), denial, Stored).0;
    acts := Moves(t, acts, Screened1(), w, 1, Stored, failed, Idle);
    var end := failed.(hold := Hold(1, Active));
    acts := Moves(t, acts, failed, w[1 := Idle], 0, HoldGranted(1), end, WriteHeld(q, 1));
  }
}
