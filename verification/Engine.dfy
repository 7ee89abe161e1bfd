/**
 * The engine itself, method by method, over the payments table. The services give fixed answers;
 * the faults of a run say at which of its effects the process dies or loses its connection.
 */
module Engine {
  import opened Wrappers
  import opened Payments
  import opened FraudClient
  import opened Driver
  import opened Attempts
  import Entries
  import Outcomes
  import Redelivery

  const SCAN_LIMIT := 20

  predicate Cuts(faults: seq<Fault>) {
    faults != [] && faults[0].Cut?
  }

  /** The effect at the head of these faults takes place. */
  predicate Lands(faults: seq<Fault>) {
    Cuts(faults) ==> faults[0].applied
  }

  /** Where stepSubmit and stepPSPCapture begin: no processor serves an unknown method. */
  function Submission(t: Terms, p: Payment): Pc {
    if t.via.OtherMethod? then Compensate(p, GatewayDeclined) else CallAuthorize(p)
  }

  function Capturing(t: Terms, p: Payment): Pc {
    if t.via.OtherMethod? then Compensate(p, GatewayDeclined) else CallCapture(p)
  }

  /** A row of the table: the payment's durable state and its updated_at. */
  datatype Entry = Entry(core: Core, updatedAt: nat)

  /** The timestamp is now if the row was written, and otherwise as before or now. */
  predicate Stamped(was: Entry, cur: Entry, now: nat) {
    && (cur.updatedAt == was.updatedAt || cur.updatedAt == now)
    && (cur.core.row != was.core.row ==> cur.updatedAt == now)
  }

  /** Nothing but this payment's entry has changed, and its timestamp with it. */
  predicate Only(was: map<string, Entry>, cur: map<string, Entry>, id: string, now: nat) {
    id in was && id in cur && cur == was[id := cur[id]] && Stamped(was[id], cur[id], now)
  }

  /** What a resumed attempt makes of a payment: all of it, if nothing disturbs, or else up to some cut. */
  ghost predicate Advanced(t: Terms, ans: Answers, was: Entry, cur: Entry, now: nat, smooth: bool) {
    && Stamped(was, cur, now)
    && if smooth then cur.core == Attempts.Advance(t, ans, was.core, [])
       else exists faults :: cur.core == Attempts.Advance(t, ans, was.core, faults)
  }

  /** What a sweep makes of a payment it has scanned, likewise. */
  ghost predicate Expired(t: Terms, ans: Answers, was: Entry, code: FailureCode, cur: Entry, now: nat, smooth: bool) {
    && Stamped(was, cur, now)
    && if smooth then cur.core == Swept(t, ans, was.core, code)
       else exists faults :: cur.core == Burst(t, ans, Point(was.core, SweepLoad(code), faults)).c
  }

  /** As many of those due as the scan limit lets through. */
  predicate Chosen(picked: set<string>, due: set<string>) {
    picked <= due && |picked| == if |due| < 20 then |due| else 20
  }

  method Limit(due: set<string>) returns (ids: seq<string>, ghost picked: set<string>)
    ensures Chosen(picked, due)
    ensures forall id :: id in ids <==> id in picked
    ensures forall i, j :: 0 <= i < j < |ids| ==> ids[i] != ids[j]
  {
    var left := due;
    ids, picked := [], {};
    while left != {} && |ids| < SCAN_LIMIT
      invariant left !! picked && left + picked == due
      invariant |picked| == |ids| <= SCAN_LIMIT
      invariant forall id :: id in ids <==> id in picked
      invariant forall i, j :: 0 <= i < j < |ids| ==> ids[i] != ids[j]
      decreases left
    {
      var id :| id in left;
      left := left - {id};
      ids := ids + [id];
      picked := picked + {id};
    }
    assert |due| == |left| + |picked|;
  }

  function Tail(faults: seq<Fault>): seq<Fault> {
    if faults == [] then [] else faults[1..]
  }

  /** A pass from the given place, and the Advance loop if the pass goes over to it. */
  function Continued(t: Terms, ans: Answers, at: Point): Core
    requires !at.pc.Idle?
  {
    var b := Burst(t, ans, at);
    if b.pc.Start? then Attempts.Advance(t, ans, b.c, b.faults) else b.c
  }

  class Engine {
    const terms: map<string, Terms>
    const ans: map<string, Answers>
    const now: nat
    var table: map<string, Entry>
    var faults: seq<Fault>

    ghost predicate Valid()
      reads this
    {
      table.Keys == terms.Keys == ans.Keys
    }

    constructor (terms: map<string, Terms>, ans: map<string, Answers>, table: map<string, Entry>, now: nat,
                 faults: seq<Fault>)
      requires table.Keys == terms.Keys == ans.Keys
      ensures Valid() && this.terms == terms && this.ans == ans && this.table == table
      ensures this.now == now && this.faults == faults
    {
      this.terms, this.ans, this.table := terms, ans, table;
      this.now, this.faults := now, faults;
    }

    method NextFault() returns (cut: bool, applied: bool)
      modifies this`faults
      ensures cut == Cuts(old(faults)) && (!cut || applied) == Lands(old(faults))
      ensures faults == Tail(old(faults))
    {
      cut, applied := false, true;
      if faults != [] {
        if faults[0].Cut? {
          cut, applied := true, faults[0].applied;
        }
        faults := faults[1..];
      }
    }

    method Store(id: string, c: Core)
      requires Valid() && id in table
      modifies this`table
      ensures Valid() && table == old(table)[id := Entry(c, now)]
    {
      table := table[id := Entry(c, now)];
    }

    /** The step-guarded update in its transaction. */
    method Transition(id: string, p: Payment, step: Step, status: Status, extra: Extra, emit: Option<Event>)
      returns (ok: bool)
      requires Valid() && id in table
      modifies this`table, this`faults
      ensures Valid() && faults == Tail(old(faults))
      ensures var w := Payments.Transition(old(table[id].core), p, step, status, extra, emit);
              && ok == (w.Some? && !Cuts(old(faults)))
              && table == (if w.Some? && Lands(old(faults)) then old(table)[id := Entry(w.value, now)] else old(table))
    {
      var cut, applied := NextFault();
      if cut && !applied {
        return false;
      }
      var w := Payments.Transition(table[id].core, p, step, status, extra, emit);
      if w.None? {
        return false;
      }
      Store(id, w.value);
      return !cut;
    }

    /** The status-guarded update in its transaction. */
    method TransitionWith(id: string, step: Step, status: Status, code: Option<FailureCode>, risk: Option<int>,
                          emit: Option<Event>) returns (ok: bool)
      requires Valid() && id in table
      modifies this`table, this`faults
      ensures Valid() && faults == Tail(old(faults))
      ensures var w := Payments.TransitionWith(old(table[id].core), step, status, code, risk, emit);
              && ok == (w.Some? && !Cuts(old(faults)))
              && table == (if w.Some? && Lands(old(faults)) then old(table)[id := Entry(w.value, now)] else old(table))
    {
      var cut, applied := NextFault();
      if cut && !applied {
        return false;
      }
      var w := Payments.TransitionWith(table[id].core, step, status, code, risk, emit);
      if w.None? {
        return false;
      }
      Store(id, w.value);
      return !cut;
    }

    /** Backing off: the timestamp moves, and nothing else does. */
    method Touch(id: string)
      requires Valid() && id in table
      modifies this`table, this`faults
      ensures Valid() && faults == Tail(old(faults))
      ensures table == if Lands(old(faults)) then old(table)[id := Entry(old(table)[id].core, now)] else old(table)
    {
      var cut, applied := NextFault();
      if !cut || applied {
        table := table[id := Entry(table[id].core, now)];
      }
    }

    /** A call that reaches its service unless the fault says otherwise, with the change it makes there. */
    method Call(id: string, pc: Pc) returns (alive: bool, r: Reply)
      requires Valid() && id in table && Rank(pc) in {2, 4}
      modifies this`table, this`faults
      ensures Valid() && faults == Tail(old(faults)) && alive == !Cuts(old(faults))
      ensures r == Answer(ans[id], old(table[id].core), pc)
      ensures id in table && table == old(table)[id := table[id]] && table[id].updatedAt == old(table)[id].updatedAt
      ensures table[id].core.row == old(table)[id].core.row
      ensures var next := if alive then Exec(terms[id], old(table[id].core), pc, r).1 else Idle;
              Burst(terms[id], ans[id], old(Point(table[id].core, pc, faults))) ==
              (if next.Idle? then Point(table[id].core, Idle, faults)
                  else Burst(terms[id], ans[id], Point(table[id].core, next, faults)))
    {
      ghost var from := Point(table[id].core, pc, faults);
      var c := table[id].core;
      r := Answer(ans[id], c, pc);
      var cut, applied := NextFault();
      alive := !cut;
      if !cut || applied {
        if r.HoldGranted? && c.hold.NoHold? {
          c := c.(hold := Hold(r.id, Active));
        } else if r.CaptureDone? {
          c := c.(settled := true);
        } else if r.LedgerDone? {
          c := c.(hold := Hold(c.hold.id, Taken));
        } else if (r.ReleaseDone? || r.ReleaseLost?) && pc.p.holdId.Some? {
          c := ReleaseHold(c, pc.p.holdId.value);
        }
        assert c == Does(terms[id], ans[id], table[id].core, pc).0;
      }
      table := table[id := Entry(c, table[id].updatedAt)];
      assert Hop(terms[id], ans[id], from) == Point(table[id].core,
          if alive then Exec(terms[id], old(table[id].core), pc, r).1 else Idle, faults);
    }

    method RecordFailure(id: string, p: Payment, code: FailureCode)
      requires Valid() && id in table
      modifies this`table, this`faults
      ensures Valid() && Only(old(table), table, id, now)
      ensures Burst(terms[id], ans[id], old(Point(table[id].core, WriteFailed(p, code), faults))) ==
                Point(table[id].core, Idle, faults)
    {
      ghost var from := Point(table[id].core, WriteFailed(p, code), faults);
      var ok := TransitionWith(id, Done, Failed, Some(code), None, Some(PaymentFailed(code)));
      assert Burst(terms[id], ans[id], from) == Hop(terms[id], ans[id], from);
    }

    /** Compensation: the hold released, then the failure recorded, even if the release errored. */
    method FailAndCompensate(id: string, p: Payment, code: FailureCode)
      requires Valid() && id in table
      modifies this`table, this`faults
      ensures Valid() && Only(old(table), table, id, now)
      ensures Burst(terms[id], ans[id], old(Point(table[id].core, Compensate(p, code), faults))) ==
                Point(table[id].core, Idle, faults)
    {
      if p.holdId.Some? {
        ReleaseAndFail(id, p, code);
      } else {
        RecordFailure(id, p, code);
      }
    }

    method ReleaseAndFail(id: string, p: Payment, code: FailureCode)
      requires Valid() && id in table && p.holdId.Some?
      modifies this`table, this`faults
      ensures Valid() && Only(old(table), table, id, now)
      ensures Burst(terms[id], ans[id], old(Point(table[id].core, CallRelease(p, code), faults))) ==
                Point(table[id].core, Idle, faults)
    {
      ReleaseThenFail(terms[id], table[id].core, p, code, Answer(ans[id], table[id].core, CallRelease(p, code)));
      var alive, r := Call(id, CallRelease(p, code));
      if alive {
        RecordFailure(id, p, code);
      }
    }

    method RecordVerdict(id: string, p: Payment, v: Verdict) returns (next: bool)
      requires Valid() && id in table
      modifies this`table, this`faults
      ensures Valid() && Only(old(table), table, id, now)
      ensures Burst(terms[id], ans[id], old(Point(table[id].core, WriteScreened(p, v), faults)))
           == Point(table[id].core, if next then Start else Idle, faults)
    {
      ghost var from := Point(table[id].core, WriteScreened(p, v), faults);
      if v.requiresAction {
        var ok := TransitionWith(id, FraudScreened, RequiresAction, None, Some(v.riskScore), None);
        next := false;
      } else {
        next := Transition(id, p, FraudScreened, Processing, SetRisk(v.riskScore), None);
      }
      assert Burst(terms[id], ans[id], from) == Hop(terms[id], ans[id], from);
    }

    method SettleScreen(id: string, p: Payment, v: Verdict) returns (next: bool)
      requires Valid() && id in table && !AfterScreen(p, v).Idle?
      modifies this`table, this`faults
      ensures Valid() && Only(old(table), table, id, now)
      ensures Burst(terms[id], ans[id], old(Point(table[id].core, AfterScreen(p, v), faults)))
           == Point(table[id].core, if next then Start else Idle, faults)
    {
      if v.requiresAction || v.proceed {
        next := RecordVerdict(id, p, v);
      } else {
        FailAndCompensate(id, p, FraudDenied);
        next := false;
      }
    }

    method StepFraud(id: string, p: Payment) returns (next: bool)
      requires Valid() && id in table
      modifies this`table, this`faults
      ensures Valid() && Only(old(table), table, id, now)
      ensures Burst(terms[id], ans[id], old(Point(table[id].core, CallFraud(p), faults)))
           == Point(table[id].core, if next then Start else Idle, faults)
    {
      var alive, r := Call(id, CallFraud(p));
      if !alive {
        return false;
      }
      next := SettleScreen(id, p, Screen(r.fraud, terms[id].amount, terms[id].failOpenLimit));
    }

    method RecordHold(id: string, p: Payment, hold: nat) returns (next: bool)
      requires Valid() && id in table
      modifies this`table, this`faults
      ensures Valid() && Only(old(table), table, id, now)
      ensures Burst(terms[id], ans[id], old(Point(table[id].core, WriteHeld(p, hold), faults)))
           == Point(table[id].core, if next then Start else Idle, faults)
    {
      ghost var from := Point(table[id].core, WriteHeld(p, hold), faults);
      next := Transition(id, p, FundsHeld, Processing, SetHold(hold), None);
      assert Burst(terms[id], ans[id], from) == Hop(terms[id], ans[id], from);
    }

    method SettleHold(id: string, p: Payment, r: Reply) returns (next: bool)
      requires Valid() && id in table && !AfterHold(p, r).Idle?
      modifies this`table, this`faults
      ensures Valid() && Only(old(table), table, id, now)
      ensures Burst(terms[id], ans[id], old(Point(table[id].core, AfterHold(p, r), faults)))
           == Point(table[id].core, if next then Start else Idle, faults)
    {
      if r.HoldGranted? {
        next := RecordHold(id, p, r.id);
      } else {
        FailAndCompensate(id, p, InsufficientFunds);
        next := false;
      }
    }

    method StepHold(id: string, p: Payment) returns (next: bool)
      requires Valid() && id in table
      modifies this`table, this`faults
      ensures Valid() && Only(old(table), table, id, now)
      ensures Burst(terms[id], ans[id], old(Point(table[id].core, CallHold(p), faults)))
           == Point(table[id].core, if next then Start else Idle, faults)
    {
      var alive, r := Call(id, CallHold(p));
      if !alive || r.Unavailable? {
        return false;
      }
      next := SettleHold(id, p, r);
    }

    method BackOff(id: string)
      requires Valid() && id in table
      modifies this`table, this`faults
      ensures table == if Lands(old(faults)) then old(table)[id := Entry(old(table)[id].core, now)] else old(table)
      ensures Valid() && Only(old(table), table, id, now)
      ensures Burst(terms[id], ans[id], old(Point(table[id].core, Pc.Touch, faults))) ==
                Point(table[id].core, Idle, faults)
    {
      ghost var from := Point(table[id].core, Pc.Touch, faults);
      Touch(id);
      assert Burst(terms[id], ans[id], from) == Hop(terms[id], ans[id], from);
      assert table == table[id := table[id]];
    }

    method SettleAuthorization(id: string, p: Payment, r: Reply) returns (next: bool)
      requires Valid() && id in table && !AfterAuthorize(terms[id], p, r).Idle?
      modifies this`table, this`faults
      ensures Valid() && Only(old(table), table, id, now)
      ensures Burst(terms[id], ans[id], old(Point(table[id].core, AfterAuthorize(terms[id], p, r), faults)))
           == Point(table[id].core, if next then Start else Idle, faults)
    {
      if r.Unavailable? {
        BackOff(id);
        next := false;
      } else if r.Approved? || r.Pending? {
        next := RecordSubmission(id, p, if r.Pending? then None else Some(terms[id].pspRef));
      } else {
        FailAndCompensate(id, p, GatewayDeclined);
        next := false;
      }
    }

    method StepSubmit(id: string, p: Payment) returns (next: bool)
      requires Valid() && id in table
      modifies this`table, this`faults
      ensures Valid() && Only(old(table), table, id, now)
      ensures Burst(terms[id], ans[id], old(Point(table[id].core, Submission(terms[id], p), faults)))
           == Point(table[id].core, if next then Start else Idle, faults)
    {
      if terms[id].via.OtherMethod? {
        FailAndCompensate(id, p, GatewayDeclined);
        return false;
      }
      var alive, r := Call(id, CallAuthorize(p));
      if !alive {
        return false;
      }
      next := SettleAuthorization(id, p, r);
    }

    method RecordSubmission(id: string, p: Payment, ref: Option<string>) returns (next: bool)
      requires Valid() && id in table
      modifies this`table, this`faults
      ensures Valid() && Only(old(table), table, id, now)
      ensures Burst(terms[id], ans[id], old(Point(table[id].core, WriteSubmitted(p, ref), faults)))
           == Point(table[id].core, if next then Start else Idle, faults)
    {
      ghost var from := Point(table[id].core, WriteSubmitted(p, ref), faults);
      match ref
      case None =>
        var ok := Transition(id, p, Submitted, Processing, Nothing, None);
        next := false;
      case Some(psp) =>
        next := Transition(id, p, Submitted, Processing, SetPspRef(psp), Some(PaymentAuthorized(p.holdId, psp)));
      assert Burst(terms[id], ans[id], from) == Hop(terms[id], ans[id], from);
    }

    method RecordPspCapture(id: string, p: Payment) returns (next: bool)
      requires Valid() && id in table
      modifies this`table, this`faults
      ensures Valid() && Only(old(table), table, id, now)
      ensures Burst(terms[id], ans[id], old(Point(table[id].core, WritePspCaptured(p), faults)))
           == Point(table[id].core, if next then Start else Idle, faults)
    {
      ghost var from := Point(table[id].core, WritePspCaptured(p), faults);
      next := Transition(id, p, PspCaptured, Processing, Nothing, None);
      assert Burst(terms[id], ans[id], from) == Hop(terms[id], ans[id], from);
    }

    method SettlePspCapture(id: string, p: Payment, r: Reply) returns (next: bool)
      requires Valid() && id in table && !AfterCapture(p, r).Idle?
      modifies this`table, this`faults
      ensures Valid() && Only(old(table), table, id, now)
      ensures Burst(terms[id], ans[id], old(Point(table[id].core, AfterCapture(p, r), faults)))
           == Point(table[id].core, if next then Start else Idle, faults)
    {
      if r.CaptureDone? {
        next := RecordPspCapture(id, p);
      } else if r.CaptureRefused? {
        FailAndCompensate(id, p, GatewayCaptureFailed);
        next := false;
      } else {
        BackOff(id);
        next := false;
      }
    }

    method CaptureAtProcessor(id: string, p: Payment) returns (next: bool)
      requires Valid() && id in table
      modifies this`table, this`faults
      ensures Valid() && Only(old(table), table, id, now)
      ensures Burst(terms[id], ans[id], old(Point(table[id].core, CallCapture(p), faults)))
           == Point(table[id].core, if next then Start else Idle, faults)
    {
      var alive, r := Call(id, CallCapture(p));
      if !alive {
        return false;
      }
      next := SettlePspCapture(id, p, r);
    }

    method StepPspCapture(id: string, p: Payment) returns (next: bool)
      requires Valid() && id in table
      modifies this`table, this`faults
      ensures Valid() && Only(old(table), table, id, now)
      ensures Burst(terms[id], ans[id], old(Point(table[id].core, Capturing(terms[id], p), faults)))
           == Point(table[id].core, if next then Start else Idle, faults)
    {
      if terms[id].via.OtherMethod? {
        FailAndCompensate(id, p, GatewayDeclined);
        next := false;
      } else {
        next := CaptureAtProcessor(id, p);
      }
    }

    method RecordCapture(id: string, p: Payment) returns (next: bool)
      requires Valid() && id in table
      modifies this`table, this`faults
      ensures Valid() && Only(old(table), table, id, now)
      ensures Burst(terms[id], ans[id], old(Point(table[id].core, WriteCaptured(p), faults)))
           == Point(table[id].core, if next then Start else Idle, faults)
    {
      ghost var from := Point(table[id].core, WriteCaptured(p), faults);
      next := TransitionWith(id, Captured, Succeeded, None, None, Some(PaymentCaptured(p.holdId, p.pspRef)));
      assert Burst(terms[id], ans[id], from) == Hop(terms[id], ans[id], from);
    }

    method SettleLedgerCapture(id: string, p: Payment, r: Reply) returns (next: bool)
      requires Valid() && id in table && !AfterLedger(p, r).Idle?
      modifies this`table, this`faults
      ensures Valid() && Only(old(table), table, id, now)
      ensures Burst(terms[id], ans[id], old(Point(table[id].core, AfterLedger(p, r), faults)))
           == Point(table[id].core, if next then Start else Idle, faults)
    {
      if r.LedgerDone? {
        next := RecordCapture(id, p);
      } else {
        BackOff(id);
        next := false;
      }
    }

    method StepLedgerCapture(id: string, p: Payment) returns (next: bool)
      requires Valid() && id in table
      modifies this`table, this`faults
      ensures Valid() && Only(old(table), table, id, now)
      ensures Burst(terms[id], ans[id], old(Point(table[id].core, CallLedger(p), faults)))
           == Point(table[id].core, if next then Start else Idle, faults)
    {
      var alive, r := Call(id, CallLedger(p));
      if !alive {
        return false;
      }
      next := SettleLedgerCapture(id, p, r);
    }

    /** The read of the row, which can be cut like any other effect. */
    method LoadRow(id: string) returns (alive: bool, p: Payment)
      requires Valid() && id in table
      modifies this`faults
      ensures Valid() && alive == !Cuts(old(faults)) && faults == Tail(old(faults))
      ensures p == Load(table[id].core.row)
    {
      var cut, _ := NextFault();
      alive, p := !cut, Load(table[id].core.row);
    }

    /** One trip round the loop. */
    method Pass(id: string) returns (next: bool)
      requires Valid() && id in table
      modifies this`table, this`faults
      ensures Valid() && Only(old(table), table, id, now)
      ensures Burst(terms[id], ans[id], old(Point(table[id].core, Start, faults)))
           == Point(table[id].core, if next then Start else Idle, faults)
    {
      ghost var t, from := terms[id], Point(table[id].core, Start, faults);
      var alive, p := LoadRow(id);
      ghost var d := Dispatch(t, p);
      assert table == table[id := table[id]];
      if !alive || d.Idle? {
        assert Burst(t, ans[id], from) == Hop(t, ans[id], from);
      } else {
        assert Hop(t, ans[id], from) == Point(table[id].core, d, faults);
      }
      if !alive || p.status != Processing {
        return false;
      }
      match p.step
      case Requested => next := StepFraud(id, p);
      case FraudScreened => next := StepHold(id, p);
      case FundsHeld => next := StepSubmit(id, p);
      case Submitted =>
        if p.pspRef.None? {
          return false;
        }
        next := StepPspCapture(id, p);
      case PspCaptured => next := StepLedgerCapture(id, p);
      case _ => next := false;
    }

    /** Drives the saga from its current step to a terminal or waiting state, or to the cut. */
    method Advance(id: string)
      requires Valid()
      modifies this`table, this`faults
      ensures Valid()
      ensures id !in old(table) ==> table == old(table)
      ensures id in old(table) ==>
                && Only(old(table), table, id, now)
                && table[id].core == Attempts.Advance(terms[id], ans[id], old(table[id].core), old(faults))
      ensures old(faults) == [] ==> faults == []
    {
      var next := id in table;
      while next
        invariant Valid() && (id !in table ==> !next && table == old(table))
        invariant old(faults) == [] ==> faults == []
        invariant id in table ==> Only(old(table), table, id, now)
        invariant id in table ==>
                    var done := Attempts.Advance(terms[id], ans[id], old(table[id].core), old(faults));
                    done == if next then Attempts.Advance(terms[id], ans[id], table[id].core, faults)
                        else table[id].core
        decreases next, if id in table then 6 - StepRank(table[id].core.row.step) else 0
      {
        ghost var from := Point(table[id].core, Start, faults);
        BurstProgress(terms[id], ans[id], from);
        next := Pass(id);
      }
    }

    /**
     * A gateway completion event. An error means exactly that the payment is unknown, or that it could
     * not be read, or that an approval it was waiting for could not be written. Undisturbed, a decline
     * fails a payment at the gateway and gives its hold back, and an approval goes on with its saga.
     */
    method CompleteFromGateway(id: string, approved: bool) returns (failed: bool)
      requires Valid()
      modifies this`table, this`faults
      ensures Valid()
      ensures failed <==>
                || id !in old(table)
                || Redelivery.CutAt(old(faults), 0)
                || (approved && Redelivery.Acts(old(table[id].core)) && Redelivery.CutAt(old(faults), 1))
      ensures id !in old(table) ==> table == old(table)
      ensures id in old(table) ==>
                && Only(old(table), table, id, now)
                && table[id].core ==
                     Drive(terms[id], ans[id], old(table[id].core), CompletionLoad(approved), old(faults))
      ensures id in old(table) && !Redelivery.Acts(old(table[id].core)) ==> table[id].core == old(table[id].core)
      ensures id in old(table) && !failed && approved && Redelivery.Acts(old(table[id].core)) ==>
                Redelivery.Referenced(terms[id], table[id].core)
      ensures id in old(table) && old(faults) == [] && Redelivery.Acts(old(table[id].core)) ==>
                table[id].core ==
                  if approved
                  then Attempts.Advance(terms[id], ans[id], Redelivery.Stamped(terms[id], old(table[id].core)), [])
                  else Outcomes.Failing(ans[id], old(table[id].core), GatewayDeclined)
      ensures old(faults) == [] ==> faults == []
    {
      if id !in table {
        return true;
      }
      ghost var t, from := terms[id], Point(table[id].core, CompletionLoad(approved), faults);
      Entries.CompletionMeans(t, ans[id], table[id].core, approved, faults);
      var alive, p := LoadRow(id);
      assert table == table[id := table[id]];
      if !alive || p.status != Processing || p.step != Submitted {
        assert Burst(t, ans[id], from) == Hop(t, ans[id], from);
        return !alive;
      }
      if !approved {
        assert Hop(t, ans[id], from) == Point(table[id].core, Compensate(p, GatewayDeclined), faults);
        FailAndCompensate(id, p, GatewayDeclined);
        return false;
      }
      assert Hop(t, ans[id], from) == Point(table[id].core, WriteCompletion(p), faults);
      failed := ApplyApproval(id, p);
    }

    method ApplyApproval(id: string, p: Payment) returns (failed: bool)
      requires Valid() && id in table && p == Load(table[id].core.row) && p.step == Submitted
      modifies this`table, this`faults
      ensures Valid() && Only(old(table), table, id, now)
      ensures table[id].core == Continued(terms[id], ans[id], old(Point(table[id].core, WriteCompletion(p), faults)))
      ensures failed <==> Cuts(old(faults))
      ensures old(faults) == [] ==> faults == []
      ensures !failed ==> Redelivery.Referenced(terms[id], table[id].core)
    {
      var ok := RecordCompletion(id, p);
      if !ok {
        return true;
      }
      Redelivery.AdvanceKeepsReference(terms[id], ans[id], table[id].core, faults);
      Advance(id);
      return false;
    }

    method RecordCompletion(id: string, p: Payment) returns (ok: bool)
      requires Valid() && id in table && p == Load(table[id].core.row) && p.step == Submitted
      modifies this`table, this`faults
      ensures Valid() && Only(old(table), table, id, now)
      ensures Burst(terms[id], ans[id], old(Point(table[id].core, WriteCompletion(p), faults)))
           == Point(table[id].core, if ok then Start else Idle, faults)
      ensures ok ==> Redelivery.Referenced(terms[id], table[id].core)
      ensures ok <==> !Cuts(old(faults))
    {
      ghost var from := Point(table[id].core, WriteCompletion(p), faults);
      ok := Transition(id, p, Submitted, Processing, SetPspRef(terms[id].pspRef), None);
      assert Burst(terms[id], ans[id], from) == Hop(terms[id], ans[id], from);
    }

    /** The owner's resume after the step-up; anybody else, or any other payment, is turned away. */
    method ResumeAfterStepUp(id: string, user: string) returns (resumed: bool)
      requires Valid()
      modifies this`table, this`faults
      ensures Valid()
      ensures resumed <==>
                && id in old(table) && user == terms[id].user && old(table[id].core).row.status == RequiresAction
                && !Redelivery.CutAt(old(faults), 0) && !Redelivery.CutAt(old(faults), 1)
      ensures id !in old(table) ==> table == old(table)
      ensures id in old(table) ==>
                && Only(old(table), table, id, now)
                && table[id].core == Drive(terms[id], ans[id], old(table[id].core), ResumeLoad(user), old(faults))
                && (user != terms[id].user || old(table[id].core).row.status != RequiresAction ==> table == old(table))
      ensures resumed && old(faults) == [] ==>
                table[id].core == Attempts.Advance(terms[id], ans[id], Entries.Resumed(old(table[id].core)), [])
    {
      if id !in table {
        return false;
      }
      ghost var t, from := terms[id], Point(table[id].core, ResumeLoad(user), faults);
      Entries.ResumeContinues(t, ans[id], table[id].core, user);
      var alive, p := LoadRow(id);
      assert table == table[id := table[id]];
      if !alive || p.status != RequiresAction || user != terms[id].user {
        assert Burst(t, ans[id], from) == Hop(t, ans[id], from);
        return false;
      }
      assert Hop(t, ans[id], from) == Point(table[id].core, WriteResumed(p), faults);
      resumed := ApplyResumption(id, p);
    }

    method ApplyResumption(id: string, p: Payment) returns (resumed: bool)
      requires Valid() && id in table && p == Load(table[id].core.row)
      modifies this`table, this`faults
      ensures Valid() && Only(old(table), table, id, now)
      ensures table[id].core == Continued(terms[id], ans[id], old(Point(table[id].core, WriteResumed(p), faults)))
      ensures resumed <==> !Cuts(old(faults))
    {
      resumed := RecordResumption(id, p);
      if resumed {
        Advance(id);
      }
    }

    method RecordResumption(id: string, p: Payment) returns (ok: bool)
      requires Valid() && id in table && p == Load(table[id].core.row)
      modifies this`table, this`faults
      ensures Valid() && Only(old(table), table, id, now)
      ensures Burst(terms[id], ans[id], old(Point(table[id].core, WriteResumed(p), faults)))
           == Point(table[id].core, if ok then Start else Idle, faults)
      ensures ok <==> !Cuts(old(faults))
    {
      ghost var from := Point(table[id].core, WriteResumed(p), faults);
      ok := Transition(id, p, FraudScreened, Processing, Nothing, None);
      assert Burst(terms[id], ans[id], from) == Hop(terms[id], ans[id], from);
    }

    // -------------------------------------------------------------- the sweeps

    /** One statement: every unanswered step-up fails at once, with nothing to compensate. */
    method ExpireStaleRequiresAction(before: nat)
      requires Valid()
      modifies this`table
      ensures Valid()
      ensures forall id :: id in table ==>
                var was := old(table)[id];
                table[id] ==
                  if was.core.row.status == RequiresAction && was.updatedAt < before
                  then Entry(was.core.(row := was.core.row.(status := Failed, step := Done,
                                                            failureCode := Some(StepUpExpired))), now)
                  else was
    {
      var hit := set id | id in table && table[id].core.row.status == RequiresAction && table[id].updatedAt < before;
      table := map id | id in table :: if id in hit then Entry(ExpireStepUp(table[id].core), now) else table[id];
    }

    /** The payments that meet a sweep's conditions. */
    function Due(entry: Pc, before: nat): set<string>
      reads this
      requires Valid()
    {
      set id | id in table && table[id].core.row.status == Processing && table[id].updatedAt < before
               && MayStart(table[id].core.row, entry)
    }

    /** The rows a sweep picks: those due, up to the scan limit, in no particular order. */
    method Scan(entry: Pc, before: nat) returns (ids: seq<string>, ghost picked: set<string>)
      requires Valid()
      ensures Chosen(picked, Due(entry, before)) && picked <= table.Keys
      ensures forall id :: id in ids <==> id in picked
      ensures forall i, j :: 0 <= i < j < |ids| ==> ids[i] != ids[j]
    {
      ids, picked := Limit(Due(entry, before));
    }

    /** A sweep's reload and compensation of one payment it scanned. */
    method FailOne(id: string, code: FailureCode, ghost smooth: bool)
      requires Valid() && id in table && (smooth ==> faults == [])
      modifies this`table, this`faults
      ensures Valid() && Only(old(table), table, id, now)
      ensures Expired(terms[id], ans[id], old(table)[id], code, table[id], now, smooth)
      ensures smooth ==> faults == []
    {
      ghost var from := Point(table[id].core, SweepLoad(code), faults);
      var alive, p := LoadRow(id);
      assert table == table[id := table[id]];
      if alive {
        assert Hop(terms[id], ans[id], from) == Point(table[id].core, Compensate(p, code), faults);
        FailAndCompensate(id, p, code);
      }
    }

    /** The body of both expiry sweeps, one payment after another. */
    method FailStuck(ids: seq<string>, code: FailureCode, ghost picked: set<string>)
      requires Valid() && picked <= table.Keys && forall id :: id in ids <==> id in picked
      requires forall i, j :: 0 <= i < j < |ids| ==> ids[i] != ids[j]
      modifies this`table, this`faults
      ensures Valid()
      ensures forall id :: id in table && id !in picked ==> table[id] == old(table)[id]
      ensures forall id :: id in picked ==> Expired(terms[id], ans[id], old(table)[id], code, table[id], now,
                old(faults) == [])
    {
      ghost var done, smooth := {}, faults == [];
      for i := 0 to |ids|
        invariant Valid() && table.Keys == old(table).Keys && (smooth ==> faults == [])
        invariant done <= picked && forall j :: 0 <= j < |ids| ==> (ids[j] in done <==> j < i)
        invariant forall id :: id in table && id !in done ==> table[id] == old(table)[id]
        invariant forall id :: id in done ==> Expired(terms[id], ans[id], old(table)[id], code, table[id], now, smooth)
      {
        ghost var id := ids[i];
        assert id in ids && id !in done;
        FailOne(ids[i], code, smooth);
        done := done + {id};
      }
    }

    /**
     * Payments that cannot reach the processor: of those due, up to the scan limit, each is failed
     * and compensated; all others, and so all money the processor may have taken, are untouched.
     */
    method ExpireStuckSubmissions(before: nat) returns (ghost picked: set<string>)
      requires Valid()
      modifies this`table, this`faults
      ensures Valid()
      ensures Chosen(picked, set id | id in old(table) && old(table)[id].core.row.status == Processing
                                      && old(table)[id].core.row.step == FundsHeld
                                      && old(table)[id].updatedAt < before)
      ensures forall id :: id in table && id !in picked ==> table[id] == old(table)[id]
      ensures forall id :: id in picked ==>
                Expired(terms[id], ans[id], old(table)[id], GatewayUnavailable, table[id], now, old(faults) == [])
    {
      assert Due(SweepLoad(GatewayUnavailable), before) ==
             set id | id in table && table[id].core.row.status == Processing
                                 && table[id].core.row.step == FundsHeld && table[id].updatedAt < before;
      var ids;
      ids, picked := Scan(SweepLoad(GatewayUnavailable), before);
      FailStuck(ids, GatewayUnavailable, picked);
    }

    /** Payments whose capture the processor never confirmed, likewise. Confirmed ones are never scanned. */
    method ExpireStuckCaptures(before: nat) returns (ghost picked: set<string>)
      requires Valid()
      modifies this`table, this`faults
      ensures Valid()
      ensures Chosen(picked, set id | id in old(table) && old(table)[id].core.row.status == Processing
                                      && old(table)[id].core.row.step == Submitted
                                      && old(table)[id].core.row.pspRef.Some?
                                      && old(table)[id].updatedAt < before)
      ensures forall id :: id in table && id !in picked ==> table[id] == old(table)[id]
      ensures forall id :: id in picked ==>
                Expired(terms[id], ans[id], old(table)[id], GatewayCaptureFailed, table[id], now, old(faults) == [])
    {
      assert Due(SweepLoad(GatewayCaptureFailed), before) ==
             set id | id in table && table[id].core.row.status == Processing
                                 && table[id].core.row.step == Submitted && table[id].core.row.pspRef.Some?
                                 && table[id].updatedAt < before;
      var ids;
      ids, picked := Scan(SweepLoad(GatewayCaptureFailed), before);
      FailStuck(ids, GatewayCaptureFailed, picked);
    }

    /** Re-drives payments that lost their driver: of those due, up to the scan limit, one attempt each. */
    method ResumeStale(before: nat) returns (ghost picked: set<string>)
      requires Valid()
      modifies this`table, this`faults
      ensures Valid()
      ensures Chosen(picked, set id | id in old(table) && old(table)[id].core.row.status == Processing
                                      && old(table)[id].updatedAt < before)
      ensures forall id :: id in table && id !in picked ==> table[id] == old(table)[id]
      ensures forall id :: id in picked ==> Advanced(terms[id], ans[id], old(table)[id], table[id], now,
                old(faults) == [])
    {
      assert Due(Start, before) ==
             set id | id in table && table[id].core.row.status == Processing
                                 && table[id].updatedAt < before;
      var ids;
      ids, picked := Scan(Start, before);
      AdvanceAll(ids, picked);
    }

    method AdvanceAll(ids: seq<string>, ghost picked: set<string>)
      requires Valid() && picked <= table.Keys && forall id :: id in ids <==> id in picked
      requires forall i, j :: 0 <= i < j < |ids| ==> ids[i] != ids[j]
      modifies this`table, this`faults
      ensures Valid()
      ensures forall id :: id in table && id !in picked ==> table[id] == old(table)[id]
      ensures forall id :: id in picked ==> Advanced(terms[id], ans[id], old(table)[id], table[id], now,
                old(faults) == [])
    {
      ghost var done, smooth := {}, faults == [];
      for i := 0 to |ids|
        invariant Valid() && table.Keys == old(table).Keys && (smooth ==> faults == [])
        invariant done <= picked && forall j :: 0 <= j < |ids| ==> (ids[j] in done <==> j < i)
        invariant forall id :: id in table && id !in done ==> table[id] == old(table)[id]
        invariant forall id :: id in done ==> Advanced(terms[id], ans[id], old(table)[id], table[id], now, smooth)
      {
        ghost var id := ids[i];
        assert id in ids && id !in done;
        AdvanceSome(ids[i], smooth);
        done := done + {id};
      }
    }

    method AdvanceSome(id: string, ghost smooth: bool)
      requires Valid() && id in table && (smooth ==> faults == [])
      modifies this`table, this`faults
      ensures Valid() && Only(old(table), table, id, now)
      ensures Advanced(terms[id], ans[id], old(table)[id], table[id], now, smooth)
      ensures smooth ==> faults == []
    {
      Advance(id);
    }
  }
}
