/**
 * A reachable world in which the reconciler reports a booking without money although the money is
 * there: captured at the processor before the report's coverage begins, booked after.
 */
module Straddling {
  import opened Wrappers
  import opened Payments
  import opened FraudClient
  import opened Driver
  import A = AccountService
  import I = Interleaved
  import R = Reconciler
  import S = Settlement
  import W = World

  /** The world's one payment with its one driver. */
  datatype Spot = Spot(c: Core, pc: Pc, bank: A.Bank, now: nat, updatedAt: nat, settledAt: nat)

  function Funded(t: Terms): W.World {
    W.Opening(map[t.account := t.amount])
  }

  predicate Reaches(t: Terms, acts: seq<W.Action>, x: Spot) {
    var w := W.Run(Funded(t), acts);
    && w.now == x.now && w.bank == x.bank && w.sagas.Keys == {t.id}
    && var s := w.sagas[t.id];
       && s.t == t && s.c == x.c && s.workers == map[0 := x.pc]
       && s.updatedAt == x.updatedAt && s.settledAt == x.settledAt
  }

  lemma {:induction false} RunAppend(w: W.World, xs: seq<W.Action>, ys: seq<W.Action>)
    ensures W.Run(w, xs + ys) == W.Run(W.Run(w, xs), ys)
    decreases |xs|
  {
    if xs == [] {
      assert xs + ys == ys;
    } else {
      assert (xs + ys)[1..] == xs[1..] + ys;
      RunAppend(W.Next(w, xs[0]), xs[1..], ys);
    }
  }

  lemma Snoc(w: W.World, acts: seq<W.Action>, a: W.Action)
    ensures W.Run(w, acts + [a]) == W.Next(W.Run(w, acts), a)
  {
    RunAppend(w, acts, [a]);
    assert W.Run(W.Run(w, acts), [a]) == W.Run(W.Next(W.Run(w, acts), a), []);
  }

  lemma Goes(t: Terms, acts: seq<W.Action>, x: Spot, r: Reply, c: Core, pc: Pc, bank: A.Bank)
    returns (acts': seq<W.Action>, y: Spot)
    requires Reaches(t, acts, x) && Fits(x.c, x.pc, r) && Exec(t, x.c, x.pc, r) == (c, pc)
    requires W.BankStep(x.bank, t, x.pc, r) == Some(bank)
    ensures Reaches(t, acts', y)
    ensures y == Spot(c, pc, bank, x.now, if c.row != x.c.row || x.pc.Touch? then x.now else x.updatedAt,
                      if c.settled && !x.c.settled then x.now else x.settledAt)
  {
    var a := W.Act(t.id, I.Move(0, r));
    Snoc(Funded(t), acts, a);
    acts' := acts + [a];
    y := Spot(c, pc, bank, x.now, if c.row != x.c.row || x.pc.Touch? then x.now else x.updatedAt,
              if c.settled && !x.c.settled then x.now else x.settledAt);
    assert map[0 := x.pc][0 := pc] == map[0 := pc];
  }

  lemma Waits(t: Terms, acts: seq<W.Action>, x: Spot) returns (acts': seq<W.Action>)
    requires Reaches(t, acts, x)
    ensures Reaches(t, acts', x.(now := x.now + 1))
  {
    Snoc(Funded(t), acts, W.Tick(1));
    acts' := acts + [W.Tick(1)];
  }

  lemma Starts(t: Terms) returns (acts: seq<W.Action>)
    requires t.amount > 0
    ensures Reaches(t, acts, Spot(Created(), Start, Funded(t).bank, 0, 0, 0))
  {
    var w := Funded(t);
    var spawn := W.Act(t.id, I.Spawn(0, Start));
    Snoc(w, [], W.Create(t));
    assert W.Run(w, []) == w && [] + [W.Create(t)] == [W.Create(t)];
    Snoc(w, [W.Create(t)], spawn);
    acts := [W.Create(t)] + [spawn];
    assert map[][0 := Start] == map[0 := Start];
  }

  const PASS := Verdict(true, false, 5, false)

  function Screened0(): Core {
    Core(Row(Processing, FraudScreened, None, None, None, Some(5), 1), [PaymentRequested], NoHold, false)
  }

  function Held0(): Core {
    Core(Row(Processing, FundsHeld, Some(0), None, None, Some(5), 2), [PaymentRequested], Hold(0, Active), false)
  }

  function Submitted0(t: Terms): Core {
    Core(Row(Processing, Submitted, Some(0), Some(t.pspRef), None, Some(5), 3),
         [PaymentRequested, PaymentAuthorized(Some(0), t.pspRef)], Hold(0, Active), false)
  }

  function Collected0(t: Terms): Core {
    var c := Submitted0(t);
    c.(row := c.row.(step := PspCaptured, version := 4), settled := true)
  }

  function Booked0(t: Terms): Core {
    var c := Collected0(t);
    Core(c.row.(step := Captured, status := Succeeded, version := 5),
         c.outbox + [PaymentCaptured(Some(0), Some(t.pspRef))], Hold(0, Taken), true)
  }

  function HoldBank(t: Terms): A.Bank {
    A.HoldFunds(Funded(t).bank, W.HoldRequest(t.id), t.account, t.id, t.amount).0
  }

  lemma Holds(t: Terms) returns (acts: seq<W.Action>)
    requires t.amount > 0
    ensures Reaches(t, acts, Spot(Held0(), Start, HoldBank(t), 0, 0, 0))
  {
    var b, b' := Funded(t).bank, HoldBank(t);
    var p, q := Load(Created().row), Load(Screened0().row);
    var x := Spot(Created(), Start, b, 0, 0, 0);
    acts := Starts(t);
    acts, x := Goes(t, acts, x, Stored, Created(), CallFraud(p), b);
    acts, x := Goes(t, acts, x, Screened(Scored(Approve, 5)), Created(), WriteScreened(p, PASS), b);
    acts, x := Goes(t, acts, x, Stored, Screened0(), Start, b);
    acts, x := Goes(t, acts, x, Stored, Screened0(), CallHold(q), b);
    acts, x := Goes(t, acts, x, HoldGranted(0), Screened0().(hold := Hold(0, Active)), WriteHeld(q, 0), b');
    acts, x := Goes(t, acts, x, Stored, Held0(), Start, b');
  }

  lemma Collects(t: Terms) returns (acts: seq<W.Action>)
    requires t.amount > 0 && t.via.Card?
    ensures Reaches(t, acts, Spot(Collected0(t), Start, HoldBank(t), 0, 0, 0))
  {
    var b := HoldBank(t);
    var c, c' := Held0(), Submitted0(t);
    var p, q := Load(c.row), Load(c'.row);
    var x := Spot(c, Start, b, 0, 0, 0);
    acts := Holds(t);
    acts, x := Goes(t, acts, x, Stored, c, CallAuthorize(p), b);
    acts, x := Goes(t, acts, x, Approved, c, WriteSubmitted(p, Some(t.pspRef)), b);
    assert c.outbox + [PaymentAuthorized(Some(0), t.pspRef)] == c'.outbox;
    acts, x := Goes(t, acts, x, Stored, c', Start, b);
    acts, x := Goes(t, acts, x, Stored, c', CallCapture(q), b);
    acts, x := Goes(t, acts, x, CaptureDone, c'.(settled := true), WritePspCaptured(q), b);
    acts, x := Goes(t, acts, x, Stored, Collected0(t), Start, b);
  }

  /** Collected at time 0, booked at time 1. */
  lemma Books(t: Terms) returns (acts: seq<W.Action>, bank: A.Bank)
    requires t.amount > 0 && t.via.Card?
    ensures Reaches(t, acts, Spot(Booked0(t), Start, bank, 1, 1, 0))
  {
    var b := HoldBank(t);
    var c := Collected0(t);
    var p := Load(c.row);
    var x := Spot(c, Start, b, 0, 0, 0);
    acts := Collects(t);
    acts := Waits(t, acts, x);
    x := x.(now := 1);
    acts, x := Goes(t, acts, x, Stored, c, CallLedger(p), b);
    W.RequestsDiffer(t.id, t.id);
    bank := A.CaptureFunds(b, W.CaptureRequest(t.id), 0, t.amount).0;
    acts, x := Goes(t, acts, x, LedgerDone, c.(hold := Hold(0, Taken)), WriteCaptured(p), bank);
    acts, x := Goes(t, acts, x, Stored, Booked0(t), Start, bank);
  }

  /** Report and rows of this world are right, and the reconciler finds a booking without money. */
  ghost predicate FalseAlarm(w: W.World, since: nat, captures: seq<R.Entry>, rows: seq<R.BookedRow>, cutoff: int) {
    && S.Lists(w, since, captures) && S.Reads(w, rows)
    && (forall id :: id in w.sagas ==> w.sagas[id].c.settled)
    && R.Compared(captures, since, rows, cutoff).bookedNotSettled == 1
    && R.Compared(captures, since, rows, cutoff).status == R.DriftDetected
  }

  /**
   * Straddling happens: a run after which the report covers the time from 1 on and rightly lists
   * nothing, the rows rightly show the booking of time 1, all money booked is collected, and yet
   * the reconciler counts one booking that was never settled.
   */
  lemma StraddlingHappens(t: Terms, cutoff: int)
    requires t.amount > 0 && t.via.Card?
    ensures exists acts, rows :: FalseAlarm(W.Run(Funded(t), acts), 1, [], rows, cutoff)
  {
    var acts, bank := Books(t);
    var w := W.Run(Funded(t), acts);
    var row := R.BookedRow(t.pspRef, 1);
    var rows := [row];
    assert row in rows;
    assert S.RowOf(w.sagas[t.id]) == row;
    assert forall id :: id in w.sagas ==> id == t.id;
    assert R.Booked(rows, 1) - R.Reported([]) == {t.pspRef};
    assert FalseAlarm(w, 1, [], rows, cutoff);
  }
}
