/**
 * An approved gateway completion, delivered at least once: the effect first, the mark second, and
 * a crash possible between any two effects.
 */
module Redelivery {
  import opened Wrappers
  import opened Payments
  import opened Driver
  import opened Attempts

  /** The payment, and whether the event is marked as processed. */
  datatype Inbox = Inbox(c: Core, seen: bool)

  /** The process dies during a delivery, or the delivery returns, its effect whole or not. */
  datatype Delivery = Returns(faults: seq<Fault>) | Dies(faults: seq<Fault>)

  /** The effect of the completion: the reference written, and the saga advanced. */
  function Complete(t: Terms, ans: Answers, c: Core, faults: seq<Fault>): Core {
    Drive(t, ans, c, CompletionLoad(true), faults)
  }

  predicate CutAt(faults: seq<Fault>, i: nat) {
    i < |faults| && faults[i].Cut?
  }

  /** CompleteFromGateway returns no error: what fails after its own write is not its concern. */
  predicate Succeeds(c: Core, faults: seq<Fault>) {
    !CutAt(faults, 0) && (Acts(c) ==> !CutAt(faults, 1))
  }

  /** Effect first, mark second, and no mark after an error. */
  function Handle(t: Terms, ans: Answers, x: Inbox, d: Delivery): Inbox {
    if x.seen then x
    else Inbox(Complete(t, ans, x.c, d.faults), d.Returns? && Succeeds(x.c, d.faults))
  }

  function HandleAll(t: Terms, ans: Answers, x: Inbox, ds: seq<Delivery>): Inbox
    decreases |ds|
  {
    if ds == [] then x else HandleAll(t, ans, Handle(t, ans, x, ds[0]), ds[1..])
  }

  lemma {:induction false} HandleOneMore(t: Terms, ans: Answers, x: Inbox, ds: seq<Delivery>, d: Delivery)
    ensures HandleAll(t, ans, x, ds + [d]) == Handle(t, ans, HandleAll(t, ans, x, ds), d)
    decreases |ds|
  {
    if ds == [] {
      assert ds + [d] == [d];
      assert HandleAll(t, ans, x, [d]) == HandleAll(t, ans, Handle(t, ans, x, d), []);
    } else {
      assert (ds + [d])[1..] == ds[1..] + [d];
      HandleOneMore(t, ans, Handle(t, ans, x, ds[0]), ds[1..], d);
    }
  }

  /** The payment up to its version, which every repeated write of the reference raises. */
  function Forget(c: Core): Core {
    c.(row := c.row.(version := 0))
  }

  lemma ReadsForget(t: Terms, c: Core, pc: Pc, r: Reply)
    requires Fits(c, pc, r) && Fits(Forget(c), pc, r) && Rank(pc) != 3 && !pc.WriteFailed?
    ensures var (d, next) := Exec(t, c, pc, r); Exec(t, Forget(c), pc, r) == (Forget(d), next)
  {
  }

  lemma GuardedWritesForget(t: Terms, c: Core, pc: Pc, r: Reply)
    requires Fits(c, pc, r) && Fits(Forget(c), pc, r) && (pc.WriteCaptured? || pc.WriteFailed?)
    ensures var d, d' := Exec(t, c, pc, r), Exec(t, Forget(c), pc, r); Forget(d'.0) == Forget(d.0) && d'.1 == d.1
  {
  }

  lemma EntryWritesForget(t: Terms, c: Core, pc: Pc, r: Reply)
    requires Fits(c, pc, r) && Fits(Forget(c), pc, r) && (pc.WriteCompletion? || pc.WriteResumed?)
    ensures var d, d' := Exec(t, c, pc, r), Exec(t, Forget(c), pc, r); Forget(d'.0) == Forget(d.0) && d'.1 == d.1
  {
  }

  lemma ScreenedForgets(t: Terms, c: Core, pc: Pc, r: Reply)
    requires Fits(c, pc, r) && Fits(Forget(c), pc, r) && (pc.WriteScreened?)
    ensures var d, d' := Exec(t, c, pc, r), Exec(t, Forget(c), pc, r); Forget(d'.0) == Forget(d.0) && d'.1 == d.1
  {
  }

  lemma SubmittedForgets(t: Terms, c: Core, pc: Pc, r: Reply)
    requires Fits(c, pc, r) && Fits(Forget(c), pc, r) && (pc.WriteSubmitted?)
    ensures var d, d' := Exec(t, c, pc, r), Exec(t, Forget(c), pc, r); Forget(d'.0) == Forget(d.0) && d'.1 == d.1
  {
  }

  lemma StepWritesForget(t: Terms, c: Core, pc: Pc, r: Reply)
    requires Fits(c, pc, r) && Fits(Forget(c), pc, r) && (pc.WriteHeld? || pc.WritePspCaptured?)
    ensures var d, d' := Exec(t, c, pc, r), Exec(t, Forget(c), pc, r); Forget(d'.0) == Forget(d.0) && d'.1 == d.1
  {
  }

  lemma DoesForget(t: Terms, ans: Answers, c: Core, pc: Pc)
    requires !pc.Idle?
    ensures Does(t, ans, Forget(c), pc).1 == Does(t, ans, c, pc).1
    ensures Forget(Does(t, ans, Forget(c), pc).0) == Forget(Does(t, ans, c, pc).0)
  {
    var r := Answer(ans, c, pc);
    assert Answer(ans, Forget(c), pc) == r;
    if pc.WriteCaptured? || pc.WriteFailed? {
      GuardedWritesForget(t, c, pc, r);
    } else if pc.WriteCompletion? || pc.WriteResumed? {
      EntryWritesForget(t, c, pc, r);
    } else if pc.WriteScreened? {
      ScreenedForgets(t, c, pc, r);
    } else if pc.WriteSubmitted? {
      SubmittedForgets(t, c, pc, r);
    } else if Rank(pc) == 3 {
      StepWritesForget(t, c, pc, r);
    } else {
      ReadsForget(t, c, pc, r);
    }
  }

  lemma {:induction false} BurstForgets(t: Terms, ans: Answers, c: Core, c': Core, pc: Pc, faults: seq<Fault>)
    requires !pc.Idle? && Forget(c) == Forget(c')
    ensures var b, b' := Burst(t, ans, Point(c, pc, faults)), Burst(t, ans, Point(c', pc, faults));
            Forget(b.c) == Forget(b'.c) && b.pc == b'.pc && b.faults == b'.faults
    decreases Rank(pc)
  {
    DoesForget(t, ans, c, pc);
    DoesForget(t, ans, c', pc);
    var h, h' := Hop(t, ans, Point(c, pc, faults)), Hop(t, ans, Point(c', pc, faults));
    HopDescends(t, ans, Point(c, pc, faults));
    if !h.pc.Idle? && !h.pc.Start? {
      BurstForgets(t, ans, h.c, h'.c, h.pc, h.faults);
    }
  }

  /** No driver reads the version. */
  lemma {:induction false} AdvanceForgets(t: Terms, ans: Answers, c: Core, c': Core, faults: seq<Fault>)
    requires Forget(c) == Forget(c')
    ensures Forget(Advance(t, ans, c, faults)) == Forget(Advance(t, ans, c', faults))
    decreases 6 - StepRank(c.row.step)
  {
    var b, b' := Burst(t, ans, Point(c, Start, faults)), Burst(t, ans, Point(c', Start, faults));
    BurstForgets(t, ans, c, c', Start, faults);
    BurstProgress(t, ans, Point(c, Start, faults));
    if b.pc.Start? {
      AdvanceForgets(t, ans, b.c, b'.c, b.faults);
    }
  }

  /** Submitted or later, with the processor's reference in the row. */
  predicate Referenced(t: Terms, c: Core) {
    c.row.pspRef == Some(t.pspRef) && StepRank(c.row.step) >= 3
  }

  lemma {:induction false} BurstKeepsReference(t: Terms, ans: Answers, at: Point)
    requires Referenced(t, at.c) && !at.pc.Idle? && (at.pc.Start? || OnStep(at.c, at.pc))
    ensures Referenced(t, Burst(t, ans, at).c)
    decreases Rank(at.pc)
  {
    var h := Hop(t, ans, at);
    HopDescends(t, ans, at);
    HopStaysOnStep(t, ans, at);
    HopKeepsReference(t, ans, at);
    if !h.pc.Idle? && !h.pc.Start? {
      BurstKeepsReference(t, ans, h);
    }
  }

  lemma HopKeepsReference(t: Terms, ans: Answers, at: Point)
    requires Referenced(t, at.c) && !at.pc.Idle? && (at.pc.Start? || OnStep(at.c, at.pc))
    ensures Referenced(t, Hop(t, ans, at).c)
  {
    var c' := Does(t, ans, at.c, at.pc).0;
    assert Referenced(t, c');
  }

  lemma {:induction false} AdvanceKeepsReference(t: Terms, ans: Answers, c: Core, faults: seq<Fault>)
    requires Referenced(t, c)
    ensures Referenced(t, Advance(t, ans, c, faults))
    decreases 6 - StepRank(c.row.step)
  {
    var b := Burst(t, ans, Point(c, Start, faults));
    BurstKeepsReference(t, ans, Point(c, Start, faults));
    BurstProgress(t, ans, Point(c, Start, faults));
    if b.pc.Start? {
      AdvanceKeepsReference(t, ans, b.c, b.faults);
    }
  }

  /** Submitted, and the processor's verdict outstanding. */
  predicate Waiting(c: Core) {
    c.row.status == Processing && c.row.step == Submitted && c.row.pspRef.None?
  }

  predicate Acts(c: Core) {
    c.row.status == Processing && c.row.step == Submitted
  }

  function Stamped(t: Terms, c: Core): Core {
    c.(row := c.row.(pspRef := Some(t.pspRef), version := c.row.version + 1))
  }

  /** A completion either finds nothing to do, or dies before its write, or writes and advances. */
  lemma CompletionCases(t: Terms, ans: Answers, c: Core, faults: seq<Fault>)
    ensures var c' := Complete(t, ans, c, faults);
            if !Acts(c) then c' == c
            else c' == c || c' == Stamped(t, c) || exists rest :: c' == Advance(t, ans, Stamped(t, c), rest)
    ensures Acts(c) ==> Complete(t, ans, c, []) == Advance(t, ans, Stamped(t, c), [])
  {
    var at := Point(c, CompletionLoad(true), faults);
    var h := Hop(t, ans, at);
    CompletionHops(t, ans, c, faults);
    CompletionHops(t, ans, c, []);
    if Acts(c) && !h.pc.Idle? {
      var h2 := Hop(t, ans, h);
      assert Burst(t, ans, at) == h2;
      if h2.pc.Start? {
        assert Complete(t, ans, c, faults) == Advance(t, ans, Stamped(t, c), h2.faults);
      }
    }
    if Acts(c) {
      var at0 := Point(c, CompletionLoad(true), []);
      var h0 := Hop(t, ans, at0);
      assert Burst(t, ans, at0) == Hop(t, ans, h0);
    }
  }

  lemma CompletionHops(t: Terms, ans: Answers, c: Core, faults: seq<Fault>)
    ensures var h := Hop(t, ans, Point(c, CompletionLoad(true), faults));
            && h.c == c
            && (h.pc.Idle? || (Acts(c) && h.pc == WriteCompletion(Load(c.row))))
            && (faults == [] ==> h.faults == [] && (Acts(c) ==> !h.pc.Idle?))
            && (!h.pc.Idle? ==>
                  var h2 := Hop(t, ans, h);
                  if h2.pc.Idle? then h2.c == c || h2.c == Stamped(t, c) else h2.c == Stamped(t, c) && h2.pc.Start?)
            && (faults == [] && Acts(c) ==> Hop(t, ans, h) == Point(Stamped(t, c), Start, []))
  {
    var h := Hop(t, ans, Point(c, CompletionLoad(true), faults));
    if !h.pc.Idle? {
      assert Does(t, ans, c, h.pc) == (Stamped(t, c), Start);
    }
  }

  /** Still untouched, or on the way to the goal. */
  predicate OnTheWay(t: Terms, ans: Answers, c0: Core, c: Core) {
    c == c0 ||
    (Referenced(t, c) && Forget(Advance(t, ans, c, [])) == Forget(Complete(t, ans, c0, [])))
  }

  lemma DeliveryKeeps(t: Terms, ans: Answers, c0: Core, c: Core, faults: seq<Fault>)
    requires Waiting(c0) && OnTheWay(t, ans, c0, c)
    ensures OnTheWay(t, ans, c0, Complete(t, ans, c, faults))
  {
    var c' := Complete(t, ans, c, faults);
    CompletionCases(t, ans, c, faults);
    CompletionCases(t, ans, c0, []);
    if Acts(c) && c' != c {
      var stamped := Stamped(t, c);
      if c != c0 {
        assert Forget(stamped) == Forget(c);
        AdvanceForgets(t, ans, stamped, c, []);
      }
      if c' != stamped {
        var rest :| c' == Advance(t, ans, stamped, rest);
        AdvanceKeepsReference(t, ans, stamped, rest);
        AdvanceTransparent(t, ans, stamped, rest);
      }
    }
  }

  /** The deliveries that die. */
  function DieAll(t: Terms, ans: Answers, c: Core, crashes: seq<seq<Fault>>): Core
    decreases |crashes|
  {
    if crashes == [] then c else DieAll(t, ans, Complete(t, ans, c, crashes[0]), crashes[1..])
  }

  lemma {:induction false} DyingKeeps(t: Terms, ans: Answers, c0: Core, c: Core, crashes: seq<seq<Fault>>)
    requires Waiting(c0) && OnTheWay(t, ans, c0, c)
    ensures OnTheWay(t, ans, c0, DieAll(t, ans, c, crashes))
    decreases |crashes|
  {
    if crashes != [] {
      DeliveryKeeps(t, ans, c0, c, crashes[0]);
      DyingKeeps(t, ans, c0, Complete(t, ans, c, crashes[0]), crashes[1..]);
    }
  }

  /** The redelivery comes too late for CompleteFromGateway and too early for the ledger. */
  predicate Stranded(ans: Answers, c: Core) {
    && c.row.status == Processing && c.row.step == PspCaptured
    && ans.ledger.LedgerDone? && Capturable(c, Load(c.row))
  }

  lemma RestOfReferenced(t: Terms, ans: Answers, c: Core)
    requires Referenced(t, c) && !Acts(c)
    ensures Stranded(ans, c) ==> Forget(Advance(t, ans, c, [])) != Forget(c)
    ensures !Stranded(ans, c) ==> Advance(t, ans, c, []) == c
  {
    var p := Load(c.row);
    var d := Dispatch(t, p);
    assert Hop(t, ans, Point(c, Start, [])) == Point(c, d, []);
    if !d.Idle? {
      Unfold(t, ans, c, Start, d);
      AdvanceIsRest(t, ans, c);
      if Stranded(ans, c) {
        LedgerPassSucceeds(t, ans, c);
      } else {
        Unfold(t, ans, c, d, Touch);
        assert Hop(t, ans, Point(c, Touch, [])) == Point(c, Idle, []);
      }
    }
  }

  lemma LedgerPassSucceeds(t: Terms, ans: Answers, c: Core)
    requires Stranded(ans, c)
    ensures Advance(t, ans, c, []).row.status == Succeeded
  {
    var p := Load(c.row);
    var d, write := CallLedger(p), WriteCaptured(p);
    var (c1, _) := Does(t, ans, c, d);
    var (c2, _) := Does(t, ans, c1, write);
    Unfold(t, ans, c, Start, d);
    assert Hop(t, ans, Point(c, d, [])) == Point(c1, write, []);
    assert Hop(t, ans, Point(c1, write, [])) == Point(c2, Start, []);
    AdvanceIsRest(t, ans, c);
    assert Hop(t, ans, Point(c2, Start, [])) == Point(c2, Idle, []);
  }

  /**
   * Deliveries of one approved completion, any number of them dying anywhere, then one that runs
   * through: the payment ends, up to its version, as after a single undisturbed delivery, if and
   * only if the last delivery did not find the payment at psp_captured with its ledger capture
   * still to be had; and in every case once the resume sweeper has driven it on.
   */
  lemma RedeliveryIsHarmless(t: Terms, ans: Answers, c0: Core, crashes: seq<seq<Fault>>)
    requires Waiting(c0)
    ensures var before := DieAll(t, ans, c0, crashes);
            var once, last := Complete(t, ans, c0, []), Complete(t, ans, before, []);
            && (Forget(last) == Forget(once) <==> !Stranded(ans, before))
            && Forget(Advance(t, ans, last, [])) == Forget(once)
  {
    var before := DieAll(t, ans, c0, crashes);
    var once, last := Complete(t, ans, c0, []), Complete(t, ans, before, []);
    DyingKeeps(t, ans, c0, c0, crashes);
    CompletionCases(t, ans, before, []);
    CompletionCases(t, ans, c0, []);
    if Acts(before) {
      var stamped := Stamped(t, before);
      if before != c0 {
        assert Forget(stamped) == Forget(before);
        AdvanceForgets(t, ans, stamped, before, []);
      }
      AdvanceTransparent(t, ans, stamped, []);
    } else {
      RestOfReferenced(t, ans, before);
    }
  }

  lemma {:induction false} SeenStays(t: Terms, ans: Answers, x: Inbox, ds: seq<Delivery>)
    requires x.seen
    ensures HandleAll(t, ans, x, ds) == x
    decreases |ds|
  {
    if ds != [] {
      SeenStays(t, ans, x, ds[1..]);
    }
  }

  /** A completion that returns without an error has written the reference. */
  lemma SuccessReferences(t: Terms, ans: Answers, c: Core, faults: seq<Fault>)
    requires Acts(c) && Succeeds(c, faults)
    ensures Referenced(t, Complete(t, ans, c, faults))
  {
    var at := Point(c, CompletionLoad(true), faults);
    CompletionHops(t, ans, c, faults);
    var h := Hop(t, ans, at);
    assert h.pc == WriteCompletion(Load(c.row));
    var h2 := Hop(t, ans, h);
    assert h2.pc.Start? && Burst(t, ans, at) == h2;
    AdvanceKeepsReference(t, ans, h2.c, h2.faults);
  }

  predicate InboxOk(t: Terms, ans: Answers, c0: Core, x: Inbox) {
    && OnTheWay(t, ans, c0, x.c)
    && (x.seen ==> Referenced(t, x.c))
  }

  lemma HandleKeeps(t: Terms, ans: Answers, c0: Core, x: Inbox, d: Delivery)
    requires Waiting(c0) && InboxOk(t, ans, c0, x)
    ensures InboxOk(t, ans, c0, Handle(t, ans, x, d))
  {
    if !x.seen {
      DeliveryKeeps(t, ans, c0, x.c, d.faults);
      CompletionCases(t, ans, x.c, d.faults);
      if Acts(x.c) && Succeeds(x.c, d.faults) {
        SuccessReferences(t, ans, x.c, d.faults);
      }
    }
  }

  lemma {:induction false} HandleAllKeeps(t: Terms, ans: Answers, c0: Core, x: Inbox, ds: seq<Delivery>)
    requires Waiting(c0) && InboxOk(t, ans, c0, x)
    ensures InboxOk(t, ans, c0, HandleAll(t, ans, x, ds))
    decreases |ds|
  {
    if ds != [] {
      HandleKeeps(t, ans, c0, x, ds[0]);
      HandleAllKeeps(t, ans, c0, Handle(t, ans, x, ds[0]), ds[1..]);
    }
  }

  /**
   * At-least-once delivery as the consumer performs it: after any deliveries, whichever of them
   * died or lost their Advance to an outage, an event is marked only once its payment is as good as
   * completed: later deliveries change nothing, and one resumed attempt brings the row, the outbox
   * and the money to where a single undisturbed delivery would have brought them.
   */
  lemma DuplicatesChangeNothing(t: Terms, ans: Answers, c0: Core, ds: seq<Delivery>, later: seq<Delivery>)
    requires Waiting(c0)
    ensures var x := HandleAll(t, ans, Inbox(c0, false), ds);
            x.seen ==>
              && x.c.row.pspRef == Some(t.pspRef)
              && HandleAll(t, ans, x, later) == x
              && Forget(Advance(t, ans, x.c, [])) == Forget(Complete(t, ans, c0, []))
  {
    var x := HandleAll(t, ans, Inbox(c0, false), ds);
    HandleAllKeeps(t, ans, c0, Inbox(c0, false), ds);
    if x.seen {
      SeenStays(t, ans, x, later);
    }
  }

  /**
   * The exception of RedeliveryIsHarmless does occur: a delivery that dies right after recording
   * the processor's capture leaves the payment for the resume sweeper, not for the redelivery.
   */
  lemma StrandingHappens(t: Terms, ans: Answers, c0: Core)
    requires Waiting(c0) && !t.via.OtherMethod? && ans.capture.CaptureDone? && ans.ledger.LedgerDone?
    requires Capturable(c0, Load(c0.row))
    ensures Stranded(ans, DieAll(t, ans, c0, [[Pass, Pass, Pass, Pass, Cut(true)]]))
  {
    var faults := [Pass, Pass, Pass, Pass, Cut(true)];
    var c1 := Stamped(t, c0);
    var p := Load(c1.row);
    CompletionHops(t, ans, c0, faults);
    var at := Point(c0, CompletionLoad(true), faults);
    var h := Hop(t, ans, at);
    assert h == Point(c0, WriteCompletion(Load(c0.row)), faults[1..]);
    assert Hop(t, ans, h) == Point(c1, Start, faults[2..]);
    assert Burst(t, ans, at) == Point(c1, Start, faults[2..]);
    var start := Point(c1, Start, faults[2..]);
    var call := Point(c1, CallCapture(p), faults[3..]);
    assert Hop(t, ans, start) == call;
    var c2 := c1.(settled := true);
    var write := Point(c2, WritePspCaptured(p), faults[4..]);
    assert Hop(t, ans, call) == write;
    var c3 := c2.(row := c2.row.(step := PspCaptured, version := c2.row.version + 1));
    assert Hop(t, ans, write) == Point(c3, Idle, []);
    assert Burst(t, ans, start) == Burst(t, ans, call) == Burst(t, ans, write) == Point(c3, Idle, []);
    assert Complete(t, ans, c0, faults) == c3;
    assert DieAll(t, ans, c0, [faults]) == DieAll(t, ans, c3, [faults][1..]);
  }
}
