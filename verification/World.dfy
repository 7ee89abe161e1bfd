/**
 * Any number of payments together: each under full interleaving, all against one account-service,
 * with a clock that never goes back.
 */
module World {
  import opened Wrappers
  import opened Payments
  import opened Driver
  import opened AccountService
  import I = Interleaved

  datatype World = World(now: nat, sagas: map<string, I.Saga>, bank: Bank)

  datatype Action =
    | Tick(elapsed: nat)
    | Create(t: Terms)
    | Act(id: string, a: I.Action)

  function HoldRequest(id: string): string { "hold:" + id }
  function CaptureRequest(id: string): string { "capture:" + id }
  function ReleaseRequest(id: string): string { "release:" + id }
  function LapseRequest(id: string): string { "lapse:" + id }

  /**
   * The account-service's part in a driver's step: the request the client derives from the
   * payment, and the bank after it. None: the service does not answer this request that way.
   */
  function BankStep(b: Bank, t: Terms, pc: Pc, r: Reply): Option<Bank> {
    match pc
    case CallHold(_) =>
      var (b', x) := HoldFunds(b, HoldRequest(t.id), t.account, t.id, t.amount);
      if r.Unavailable? then Some(b)
      else if r.HoldRefused? && x.FailedPrecondition? then Some(b)
      else if (r.HoldGranted? || r.HoldLost?) && x == Ok(r.id) then Some(b')
      else None
    case CallLedger(p) =>
      if r.Unavailable? then Some(b)
      else if (r.LedgerDone? || r.LedgerLost?) && p.holdId.Some? then
        var (b', x) := CaptureFunds(b, CaptureRequest(t.id), p.holdId.value, t.amount);
        if x.Ok? then Some(b') else None
      else None
    case CallRelease(p, _) =>
      if r.Unavailable? then Some(b)
      else if (r.ReleaseDone? || r.ReleaseLost?) && p.holdId.Some? then
        // a hold already released or captured is no error
        Some(ReleaseFunds(b, ReleaseRequest(t.id), p.holdId.value).0)
      else None
    case _ => Some(b)
  }

  /** The reference the processor gives a payment belongs to no other. */
  predicate NewReference(w: World, ref: string) {
    forall id :: id in w.sagas ==> w.sagas[id].t.pspRef != ref
  }

  function Next(w: World, a: Action): World {
    match a
    case Tick(elapsed) => w.(now := w.now + elapsed)
    case Create(t) =>
      if t.id !in w.sagas && t.amount > 0 && NewReference(w, t.pspRef)
      then w.(sagas := w.sagas[t.id := I.Initial(t, w.now)]) else w
    case Act(id, x) => if id in w.sagas then Acted(w, id, x) else w
  }

  function Acted(w: World, id: string, a: I.Action): World
    requires id in w.sagas
  {
    var s := w.sagas[id];
    var bank :=
      if a.Move? && a.w in s.workers then BankStep(w.bank, s.t, s.workers[a.w], a.r)
      else if a.HoldLapses? && s.c.hold.Hold? then Some(ReleaseFunds(w.bank, LapseRequest(id), s.c.hold.id).0)
      else Some(w.bank);
    if bank.None? then w
    else World(w.now, w.sagas[id := I.Next(s, a, w.now)], bank.value)
  }

  function Run(w: World, acts: seq<Action>): World
    decreases |acts|
  {
    if acts == [] then w else Run(Next(w, acts[0]), acts[1..])
  }

  function Opening(available: map<string, nat>): World {
    World(0, map[], Bank(available, [], [], map[]))
  }

  // ---------------------------------------------------------------- conservation

  lemma StepConserves(w: World, a: Action, account: string)
    ensures Total(Next(w, a).bank, account) == Total(w.bank, account)
  {
    if a.Act? && a.id in w.sagas {
      var s := w.sagas[a.id];
      if a.a.Move? && a.a.w in s.workers {
        var pc := s.workers[a.a.w];
        HoldConserves(w.bank, HoldRequest(s.t.id), s.t.account, s.t.id, s.t.amount, account);
        if pc.CallLedger? && pc.p.holdId.Some? {
          CaptureConserves(w.bank, CaptureRequest(s.t.id), pc.p.holdId.value, s.t.amount, account);
        }
        if pc.CallRelease? && pc.p.holdId.Some? {
          ReleaseConserves(w.bank, ReleaseRequest(s.t.id), pc.p.holdId.value, account);
        }
      } else if s.c.hold.Hold? {
        ReleaseConserves(w.bank, LapseRequest(a.id), s.c.hold.id, account);
      }
    }
  }

  /** No run of any drivers on any payments makes or loses money: available plus held plus captured. */
  lemma {:induction false} FundsAreConserved(w: World, acts: seq<Action>, account: string)
    ensures Total(Run(w, acts).bank, account) == Total(w.bank, account)
    decreases |acts|
  {
    if acts != [] {
      StepConserves(w, acts[0], account);
      FundsAreConserved(Next(w, acts[0]), acts[1..], account);
    }
  }

  // ---------------------------------------------------------------- one hold and one booking

  lemma RequestsDiffer(x: string, y: string)
    ensures HoldRequest(x) == HoldRequest(y) ==> x == y
    ensures CaptureRequest(x) == CaptureRequest(y) ==> x == y
    ensures ReleaseRequest(x) == ReleaseRequest(y) ==> x == y
    ensures LapseRequest(x) == LapseRequest(y) ==> x == y
    ensures HoldRequest(x) != CaptureRequest(y) && HoldRequest(x) != ReleaseRequest(y) &&
              HoldRequest(x) != LapseRequest(y)
    ensures CaptureRequest(x) != ReleaseRequest(y) && CaptureRequest(x) != LapseRequest(y)
    ensures ReleaseRequest(x) != LapseRequest(y)
  {
    assert HoldRequest(x)[5..] == x && HoldRequest(y)[5..] == y;
    assert CaptureRequest(x)[8..] == x && CaptureRequest(y)[8..] == y;
    assert ReleaseRequest(x)[8..] == x && ReleaseRequest(y)[8..] == y;
    assert LapseRequest(x)[6..] == x && LapseRequest(y)[6..] == y;
    assert HoldRequest(x)[0] == 'h' && CaptureRequest(x)[0] == 'c' && ReleaseRequest(x)[0] == 'r';
    assert CaptureRequest(y)[0] == 'c' && ReleaseRequest(y)[0] == 'r' && LapseRequest(y)[0] == 'l';
  }

  /** The bank knows of the payment's hold what the payment's own state machine says of it. */
  predicate Linked(b: Bank, t: Terms, hold: HoldView) {
    && (hold.Hold? <==> HoldRequest(t.id) in b.answered)
    && (hold.Hold? ==>
          && b.answered[HoldRequest(t.id)] == Held(hold.id)
          && hold.id < |b.holds|
          && b.holds[hold.id] == HoldRecord(t.account, t.id, t.amount, hold.state))
    && (CaptureRequest(t.id) in b.answered <==> hold.Hold? && hold.state == Taken)
    && (ReleaseRequest(t.id) in b.answered || LapseRequest(t.id) in b.answered ==> hold.Hold? && hold.state == Released)
  }

  /** Every hold belongs to one payment, and every booking to one captured hold, for its amount. */
  ghost predicate BankOk(w: World) {
    var b := w.bank;
    && (forall h :: 0 <= h < |b.holds| ==> HoldOwned(w, h))
    && (forall id :: id !in w.sagas ==> Unasked(b, id))
    && BookingsOk(b)
  }

  predicate HoldOwned(w: World, h: nat)
    requires h < |w.bank.holds|
  {
    var payment := w.bank.holds[h].payment;
    payment in w.sagas && w.sagas[payment].c.hold.Hold? && w.sagas[payment].c.hold.id == h
  }

  predicate Unasked(b: Bank, id: string) {
    && HoldRequest(id) !in b.answered && CaptureRequest(id) !in b.answered
    && ReleaseRequest(id) !in b.answered && LapseRequest(id) !in b.answered
  }

  predicate BookingsOk(b: Bank) {
    && (forall i :: 0 <= i < |b.bookings| ==>
          && b.bookings[i].hold < |b.holds|
          && b.holds[b.bookings[i].hold].state == Taken
          && b.holds[b.bookings[i].hold].amount == b.bookings[i].amount)
    && (forall i, j :: 0 <= i < j < |b.bookings| ==> b.bookings[i].hold != b.bookings[j].hold)
  }

  predicate SagaOk(s: I.Saga, id: string, now: nat) {
    s.t.id == id && I.Inv(s) && I.ClockOk(s, now)
  }

  ghost predicate SagasOk(w: World) {
    && (forall id :: id in w.sagas ==> SagaOk(w.sagas[id], id, w.now))
    && (forall x, y :: x in w.sagas && y in w.sagas && w.sagas[x].t.pspRef == w.sagas[y].t.pspRef ==> x == y)
  }

  predicate LinksOk(w: World) {
    forall id :: id in w.sagas ==> Linked(w.bank, w.sagas[id].t, w.sagas[id].c.hold)
  }

  ghost predicate Inv(w: World) {
    SagasOk(w) && LinksOk(w) && BankOk(w)
  }

  /** The only changes to the bank are under the payment's own request ids and to its own hold. */
  ghost predicate Local(b: Bank, b': Bank, id: string) {
    && (forall k :: k in b.answered ==> k in b'.answered && b'.answered[k] == b.answered[k])
    && (forall k :: k in b'.answered && k !in b.answered ==>
          k == HoldRequest(id) || k == CaptureRequest(id) || k == ReleaseRequest(id) || k == LapseRequest(id))
    && |b.holds| <= |b'.holds|
    && (forall h :: 0 <= h < |b.holds| ==> b'.holds[h] == b.holds[h] || b.holds[h].payment == b'.holds[h].payment == id)
    && (forall h :: |b.holds| <= h < |b'.holds| ==> b'.holds[h].payment == id)
  }

  /** A hold the bank adds is the payment's. */
  predicate Added(b: Bank, b': Bank, hold: HoldView) {
    |b'.holds| == |b.holds| || (|b'.holds| == |b.holds| + 1 && hold == Hold(|b.holds|, Active))
  }

  lemma LocalKeepsOthers(b: Bank, b': Bank, id: string, t: Terms, hold: HoldView)
    requires Local(b, b', id) && Linked(b, t, hold) && t.id != id
    ensures Linked(b', t, hold)
  {
    RequestsDiffer(id, t.id);
    RequestsDiffer(t.id, id);
  }

  lemma LocalKeepsUnasked(b: Bank, b': Bank, id: string, other: string)
    requires Local(b, b', id) && Unasked(b, other) && other != id
    ensures Unasked(b', other)
  {
    RequestsDiffer(id, other);
    RequestsDiffer(other, id);
  }

  lemma HoldFits(b: Bank, t: Terms, c: Core, pc: Pc, r: Reply, b': Bank)
    requires Linked(b, t, c.hold) && pc.CallHold? && BankStep(b, t, pc, r) == Some(b')
    ensures Fits(c, pc, r) && Local(b, b', t.id) && Linked(b', t, Exec(t, c, pc, r).0.hold)
    ensures Added(b, b', Exec(t, c, pc, r).0.hold)
  {
    RequestsDiffer(t.id, t.id);
  }

  lemma LedgerFits(b: Bank, t: Terms, c: Core, pc: Pc, r: Reply, b': Bank)
    requires Linked(b, t, c.hold) && pc.CallLedger? && c.hold.Hold? && pc.p.holdId == Some(c.hold.id)
    requires BankStep(b, t, pc, r) == Some(b')
    ensures Fits(c, pc, r) && Local(b, b', t.id) && Linked(b', t, Exec(t, c, pc, r).0.hold)
  {
    RequestsDiffer(t.id, t.id);
  }

  lemma FreeingLinks(b: Bank, t: Terms, c: Core, request: string)
    requires Linked(b, t, c.hold) && c.hold.Hold? && (request == ReleaseRequest(t.id) || request == LapseRequest(t.id))
    ensures var b' := ReleaseFunds(b, request, c.hold.id).0;
            Local(b, b', t.id) && Linked(b', t, ReleaseHold(c, c.hold.id).hold)
  {
    RequestsDiffer(t.id, t.id);
  }

  lemma ReleaseFits(b: Bank, t: Terms, c: Core, pc: Pc, r: Reply, b': Bank)
    requires Linked(b, t, c.hold) && pc.CallRelease? && c.hold.Hold? && pc.p.holdId == Some(c.hold.id)
    requires BankStep(b, t, pc, r) == Some(b')
    ensures Fits(c, pc, r) && Local(b, b', t.id) && Linked(b', t, Exec(t, c, pc, r).0.hold)
  {
    if !r.Unavailable? {
      FreeingLinks(b, t, c, ReleaseRequest(t.id));
    }
  }

  /** No other step of a driver changes the hold. */
  lemma OtherStepsKeepHold(t: Terms, c: Core, pc: Pc, r: Reply)
    requires Fits(c, pc, r) && !pc.CallHold? && !pc.CallLedger? && !pc.CallRelease?
    ensures Exec(t, c, pc, r).0.hold == c.hold
  {
  }

  predicate AsksBank(pc: Pc) {
    pc.CallHold? || pc.CallLedger? || pc.CallRelease?
  }

  /**
   * The bank's answer to a driver is always one its payment's state machine expects, and the two
   * stay in step: the table of request ids implements the one hold of each payment.
   */
  lemma BankFits(b: Bank, s: I.Saga, pc: Pc, r: Reply, b': Bank)
    requires Linked(b, s.t, s.c.hold) && I.WorkerOk(s, pc) && BankStep(b, s.t, pc, r) == Some(b')
    ensures AsksBank(pc) ==> Fits(s.c, pc, r)
    ensures Local(b, b', s.t.id)
    ensures var hold' := if Fits(s.c, pc, r) then Exec(s.t, s.c, pc, r).0.hold else s.c.hold;
            Linked(b', s.t, hold') && Added(b, b', hold')
  {
    if pc.CallHold? {
      HoldFits(b, s.t, s.c, pc, r, b');
    } else if pc.CallLedger? {
      LedgerFits(b, s.t, s.c, pc, r, b');
    } else if pc.CallRelease? {
      ReleaseFits(b, s.t, s.c, pc, r, b');
    } else if Fits(s.c, pc, r) {
      OtherStepsKeepHold(s.t, s.c, pc, r);
    }
  }

  /**
   * And the bank gives every answer the driver must be ready for: a capture or a release is answered in just
   * the ways the state machine admits, a repeated hold request as the first, and a new one by the money there is.
   */
  lemma BankAnswersExactly(b: Bank, s: I.Saga, pc: Pc, r: Reply)
    requires Linked(b, s.t, s.c.hold) && I.WorkerOk(s, pc) && AsksBank(pc)
    ensures !pc.CallHold? ==> (BankStep(b, s.t, pc, r).Some? <==> Fits(s.c, pc, r))
    ensures pc.CallHold? && s.c.hold.Hold? ==> (BankStep(b, s.t, pc, r).Some? <==> Fits(s.c, pc, r))
    ensures pc.CallHold? && s.c.hold.NoHold? ==>
              (BankStep(b, s.t, pc, r).Some? <==>
                || r.Unavailable?
                || (r.HoldRefused? && Available(b, s.t.account) < s.t.amount)
                || (r in {HoldGranted(|b.holds|), HoldLost(|b.holds|)} && s.t.amount <= Available(b, s.t.account)))
  {
    RequestsDiffer(s.t.id, s.t.id);
  }

  lemma LapseFrees(b: Bank, t: Terms, hold: HoldView)
    requires Linked(b, t, hold) && hold.Hold?
    ensures var b' := ReleaseFunds(b, LapseRequest(t.id), hold.id).0;
            && b'.bookings == b.bookings
            && (hold.state == Active ==>
                  Available(b', t.account) == Available(b, t.account) + t.amount)
            && (hold.state != Active ==> b'.holds == b.holds && b'.available == b.available)
  {
  }

  /** A lapse gives an active hold's money back to its account; a hold that has gone its way stays as it is. */
  lemma LapseGivesBack(w: World, id: string)
    requires Inv(w) && id in w.sagas && w.sagas[id].c.hold.Hold?
    ensures var w', s, hold := Next(w, Act(id, I.HoldLapses)), w.sagas[id], w.sagas[id].c.hold;
            if hold.state == Active then
              && w'.sagas == w.sagas[id := s.(c := s.c.(hold := Hold(hold.id, Released)))]
              && Available(w'.bank, s.t.account) == Available(w.bank, s.t.account) + s.t.amount
              && w'.bank.bookings == w.bank.bookings
            else w'.sagas == w.sagas && w'.bank.holds == w.bank.holds && w'.bank.available == w.bank.available
  {
    var s := w.sagas[id];
    assert SagaOk(s, id, w.now) && Linked(w.bank, s.t, s.c.hold);
    LapseFrees(w.bank, s.t, s.c.hold);
    assert Next(w, Act(id, I.HoldLapses)) == Acted(w, id, I.HoldLapses);
    assert s.c.hold.state != Active ==> w.sagas[id := s] == w.sagas;
  }

  lemma BookingsKeep(b: Bank, t: Terms, pc: Pc, r: Reply)
    requires BookingsOk(b) && BankStep(b, t, pc, r).Some?
    ensures BookingsOk(BankStep(b, t, pc, r).value)
  {
  }

  lemma ReleaseKeepsBookings(b: Bank, request: string, hold: nat)
    requires BookingsOk(b)
    ensures BookingsOk(ReleaseFunds(b, request, hold).0)
  {
  }

  /** The bank's part of an action of one payment, and the payment's own. */
  predicate InStep(w: World, id: string, a: I.Action, w': World)
    requires id in w.sagas
  {
    && w'.now == w.now
    && (w'.sagas == w.sagas || w'.sagas == w.sagas[id := I.Next(w.sagas[id], a, w.now)])
    && id in w'.sagas && w'.sagas[id].t == w.sagas[id].t
    && Linked(w'.bank, w'.sagas[id].t, w'.sagas[id].c.hold)
    && Added(w.bank, w'.bank, w'.sagas[id].c.hold)
    && BookingsOk(w'.bank)
  }

  lemma MoveInStep(w: World, id: string, a: I.Action)
    requires Inv(w) && id in w.sagas && a.Move? && a.w in w.sagas[id].workers
    ensures InStep(w, id, a, Acted(w, id, a)) && Local(w.bank, Acted(w, id, a).bank, id)
  {
    var s := w.sagas[id];
    var pc := s.workers[a.w];
    assert SagaOk(s, id, w.now) && I.WorkerOk(s, pc);
    var bank := BankStep(w.bank, s.t, pc, a.r);
    if bank.Some? {
      BankFits(w.bank, s, pc, a.r, bank.value);
      BookingsKeep(w.bank, s.t, pc, a.r);
    }
  }

  lemma StillInStep(w: World, id: string, a: I.Action)
    requires Inv(w) && id in w.sagas && (a.Move? ==> a.w !in w.sagas[id].workers)
    ensures InStep(w, id, a, Acted(w, id, a)) && Local(w.bank, Acted(w, id, a).bank, id)
  {
    var s := w.sagas[id];
    assert SagaOk(s, id, w.now);
    if a.HoldLapses? && s.c.hold.Hold? {
      FreeingLinks(w.bank, s.t, s.c, LapseRequest(id));
      ReleaseKeepsBookings(w.bank, LapseRequest(id), s.c.hold.id);
    }
  }

  /** Payments stay, and each one only grows. */
  predicate Grows(w: World, w': World) {
    w.now <= w'.now && forall id :: id in w.sagas ==> id in w'.sagas && I.Grows(w.sagas[id], w'.sagas[id])
  }

  lemma SagasKeep(w: World, id: string, a: I.Action, w': World)
    requires SagasOk(w) && id in w.sagas && InStep(w, id, a, w')
    ensures SagasOk(w') && Grows(w, w')
  {
    OwnSagaKeeps(w.sagas[id], id, a, w.now);
    forall x | x in w'.sagas ensures SagaOk(w'.sagas[x], x, w'.now) {
      assert SagaOk(w.sagas[x], x, w.now);
    }
  }

  lemma OwnSagaKeeps(s: I.Saga, id: string, a: I.Action, now: nat)
    requires SagaOk(s, id, now)
    ensures SagaOk(I.Next(s, a, now), id, now) && I.Grows(s, I.Next(s, a, now))
    ensures I.Next(s, a, now).t == s.t && I.Grows(s, s)
  {
    I.NextKeeps(s, a, now);
    I.ClockKeeps(s, a, now, now);
  }

  lemma LinksKeep(w: World, id: string, a: I.Action, w': World)
    requires Inv(w) && id in w.sagas && InStep(w, id, a, w') && Local(w.bank, w'.bank, id)
    ensures LinksOk(w') && BankOk(w')
  {
    forall x | x in w'.sagas ensures Linked(w'.bank, w'.sagas[x].t, w'.sagas[x].c.hold) {
      assert SagaOk(w.sagas[x], x, w.now);
      if x != id {
        LocalKeepsOthers(w.bank, w'.bank, id, w.sagas[x].t, w.sagas[x].c.hold);
      }
    }
    forall x | x !in w'.sagas ensures Unasked(w'.bank, x) {
      LocalKeepsUnasked(w.bank, w'.bank, id, x);
    }
    HoldsKeep(w, id, a, w');
  }

  /** The bank's records keep pointing at the payments whose hold they are. */
  lemma HoldsKeep(w: World, id: string, a: I.Action, w': World)
    requires SagasOk(w) && BankOk(w) && id in w.sagas && InStep(w, id, a, w') && Local(w.bank, w'.bank, id)
    ensures forall h :: 0 <= h < |w'.bank.holds| ==> HoldOwned(w', h)
  {
    assert SagaOk(w.sagas[id], id, w.now);
    I.NextKeeps(w.sagas[id], a, w.now);
    OwnHolds(w, id, w');
  }

  lemma OwnHolds(w: World, id: string, w': World)
    requires BankOk(w) && id in w.sagas && id in w'.sagas && Local(w.bank, w'.bank, id)
    requires w'.sagas == w.sagas[id := w'.sagas[id]] && w'.sagas[id].t.id == id
    requires w.sagas[id].c.hold.Hold? ==>
               w'.sagas[id].c.hold.Hold? && w'.sagas[id].c.hold.id == w.sagas[id].c.hold.id
    requires Linked(w'.bank, w'.sagas[id].t, w'.sagas[id].c.hold)
    requires Added(w.bank, w'.bank, w'.sagas[id].c.hold)
    ensures forall h :: 0 <= h < |w'.bank.holds| ==> HoldOwned(w', h)
  {
    forall h | 0 <= h < |w'.bank.holds| ensures HoldOwned(w', h) {
      if h < |w.bank.holds| {
        assert HoldOwned(w, h);
      }
    }
  }

  lemma NewSagaOk(b: Bank, t: Terms, now: nat)
    requires Unasked(b, t.id)
    ensures SagaOk(I.Initial(t, now), t.id, now)
    ensures Linked(b, t, I.Initial(t, now).c.hold)
  {
    I.InitialInv(t, now);
  }

  lemma CreateKeeps(w: World, t: Terms)
    requires Inv(w)
    ensures Inv(Next(w, Create(t))) && Grows(w, Next(w, Create(t)))
  {
    var w' := Next(w, Create(t));
    if w' != w {
      assert Unasked(w.bank, t.id);
      NewSagaOk(w.bank, t, w.now);
      OthersStay(w, t.id, I.Initial(t, w.now), w');
    }
  }

  /** Adding a payment disturbs none that is there. */
  lemma OthersStay(w: World, id: string, s: I.Saga, w': World)
    requires Inv(w) && id !in w.sagas && w' == w.(sagas := w.sagas[id := s])
    requires SagaOk(s, id, w.now) && Linked(w.bank, s.t, s.c.hold) && NewReference(w, s.t.pspRef)
    ensures Inv(w') && Grows(w, w')
  {
    SagasStay(w, id, s, w');
    HoldsStay(w, w');
    LinksStay(w, id, s, w');
    StaysGrows(w, id, s, w');
  }

  lemma LinksStay(w: World, id: string, s: I.Saga, w': World)
    requires LinksOk(w) && id !in w.sagas && w' == w.(sagas := w.sagas[id := s]) && Linked(w.bank, s.t, s.c.hold)
    ensures LinksOk(w')
  {
  }

  lemma StaysGrows(w: World, id: string, s: I.Saga, w': World)
    requires id !in w.sagas && w' == w.(sagas := w.sagas[id := s])
    ensures Grows(w, w')
  {
  }

  lemma SagasStay(w: World, id: string, s: I.Saga, w': World)
    requires SagasOk(w) && id !in w.sagas && w' == w.(sagas := w.sagas[id := s])
    requires SagaOk(s, id, w.now) && NewReference(w, s.t.pspRef)
    ensures SagasOk(w')
  {
  }

  /** The bank's records are of payments that were there. */
  lemma HoldsStay(w: World, w': World)
    requires BankOk(w) && w'.bank == w.bank
    requires forall x :: x in w.sagas ==> x in w'.sagas && w'.sagas[x].c.hold == w.sagas[x].c.hold
    ensures BankOk(w')
  {
    forall h | 0 <= h < |w'.bank.holds| ensures HoldOwned(w', h) {
      assert HoldOwned(w, h);
    }
  }

  lemma TickKeeps(w: World, elapsed: nat)
    requires Inv(w)
    ensures Inv(Next(w, Tick(elapsed))) && Grows(w, Next(w, Tick(elapsed)))
  {
    var w' := Next(w, Tick(elapsed));
    forall id | id in w.sagas ensures SagaOk(w'.sagas[id], id, w'.now) {
      assert SagaOk(w.sagas[id], id, w.now);
    }
    HoldsStay(w, w');
  }

  lemma NextKeeps(w: World, a: Action)
    requires Inv(w)
    ensures Inv(Next(w, a)) && Grows(w, Next(w, a))
  {
    match a
    case Tick(elapsed) => TickKeeps(w, elapsed);
    case Create(t) => CreateKeeps(w, t);
    case Act(id, x) =>
      if id in w.sagas {
        if x.Move? && x.w in w.sagas[id].workers {
          MoveInStep(w, id, x);
        } else {
          StillInStep(w, id, x);
        }
        SagasKeep(w, id, x, Next(w, a));
        LinksKeep(w, id, x, Next(w, a));
      }
  }

  lemma GrowsTransitive(w0: World, w1: World, w2: World)
    requires Grows(w0, w1) && Grows(w1, w2)
    ensures Grows(w0, w2)
  {
    forall id | id in w0.sagas ensures I.Grows(w0.sagas[id], w2.sagas[id]) {
      I.GrowsTransitive(w0.sagas[id], w1.sagas[id], w2.sagas[id]);
    }
  }

  lemma {:induction false} RunKeeps(w: World, acts: seq<Action>)
    requires Inv(w)
    ensures Inv(Run(w, acts)) && Grows(w, Run(w, acts))
    decreases |acts|
  {
    if acts != [] {
      NextKeeps(w, acts[0]);
      RunKeeps(Next(w, acts[0]), acts[1..]);
      GrowsTransitive(w, Next(w, acts[0]), Run(w, acts));
    }
  }

  lemma OpeningInv(available: map<string, nat>)
    ensures Inv(Opening(available))
  {
  }

  /** Every captured hold is booked, for its amount. */
  predicate TakenBooked(b: Bank) {
    forall h :: 0 <= h < |b.holds| && b.holds[h].state == Taken ==> Booking(h, b.holds[h].amount) in b.bookings
  }

  lemma StepBooks(b: Bank, t: Terms, pc: Pc, r: Reply)
    requires TakenBooked(b) && BankStep(b, t, pc, r).Some?
    ensures TakenBooked(BankStep(b, t, pc, r).value)
  {
    var b' := BankStep(b, t, pc, r).value;
    assert forall x :: x in b.bookings ==> x in b'.bookings;
    if pc.CallLedger? && b' != b {
      assert b'.bookings[|b.bookings|] in b'.bookings;
    }
  }

  lemma {:induction false} RunBooks(w: World, acts: seq<Action>)
    requires TakenBooked(w.bank)
    ensures TakenBooked(Run(w, acts).bank)
    decreases |acts|
  {
    if acts != [] {
      var a := acts[0];
      if a.Act? && a.id in w.sagas && a.a.Move? && a.a.w in w.sagas[a.id].workers {
        var s := w.sagas[a.id];
        if BankStep(w.bank, s.t, s.workers[a.a.w], a.a.r).Some? {
          StepBooks(w.bank, s.t, s.workers[a.a.w], a.a.r);
        }
      }
      RunBooks(Next(w, a), acts[1..]);
    }
  }

  /**
   * Whatever runs, each payment has at most one hold and at most one booking at the
   * account-service, both for exactly its amount and on its account; and a hold is captured if and
   * only if it is booked.
   */
  lemma OneHoldOneBooking(available: map<string, nat>, acts: seq<Action>)
    ensures var w := Run(Opening(available), acts);
            var b := w.bank;
            && (forall h :: 0 <= h < |b.holds| ==> HoldExact(w, h))
            && (forall h, k :: 0 <= h < k < |b.holds| ==> b.holds[h].payment != b.holds[k].payment)
            && BookingsOk(b)
            && (forall h :: 0 <= h < |b.holds| ==>
                  (b.holds[h].state == Taken <==> Booking(h, b.holds[h].amount) in b.bookings))
  {
    OpeningInv(available);
    RunKeeps(Opening(available), acts);
    RunBooks(Opening(available), acts);
    var w := Run(Opening(available), acts);
    forall h | 0 <= h < |w.bank.holds| ensures HoldExact(w, h) {
      HoldIsExact(w, h);
    }
    forall h, k | 0 <= h < k < |w.bank.holds| ensures w.bank.holds[h].payment != w.bank.holds[k].payment {
      assert HoldExact(w, h) && HoldExact(w, k);
    }
  }

  predicate HoldExact(w: World, h: nat)
    requires h < |w.bank.holds|
  {
    var hold := w.bank.holds[h];
    && hold.payment in w.sagas
    && hold.amount == w.sagas[hold.payment].t.amount
    && hold.account == w.sagas[hold.payment].t.account
    && w.sagas[hold.payment].c.hold == Hold(h, hold.state)
  }

  lemma HoldIsExact(w: World, h: nat)
    requires Inv(w) && h < |w.bank.holds|
    ensures HoldExact(w, h)
  {
    var payment := w.bank.holds[h].payment;
    assert HoldOwned(w, h);
    assert SagaOk(w.sagas[payment], payment, w.now);
    assert Linked(w.bank, w.sagas[payment].t, w.sagas[payment].c.hold);
  }
}
