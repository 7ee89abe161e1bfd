/** The reconciler over the states the engine can reach: what its counts mean for the money. */
module Settlement {
  import opened Wrappers
  import opened Payments
  import W = World
  import I = Interleaved
  import R = Reconciler

  /** The entry a payment has in the processor's report; captures are idempotent, so it is settled once. */
  function EntryOf(s: I.Saga): R.Entry {
    R.Entry(s.t.pspRef, Some(s.settledAt), 1)
  }

  /** The row of a payment at step captured, as the query returns it. */
  predicate IsBooked(s: I.Saga) {
    s.c.row.step == Captured && s.c.row.pspRef.Some?
  }

  function RowOf(s: I.Saga): R.BookedRow
    requires IsBooked(s)
  {
    R.BookedRow(s.c.row.pspRef.value, s.updatedAt)
  }

  /** The report lists, once each, the captures of this state since the given time, and nothing else. */
  ghost predicate Lists(w: W.World, since: nat, captures: seq<R.Entry>) {
    && R.Distinct(captures)
    && (forall e :: e in captures ==>
          exists id :: id in w.sagas && w.sagas[id].c.settled && w.sagas[id].settledAt >= since &&
              e == EntryOf(w.sagas[id]))
    && (forall id :: id in w.sagas && w.sagas[id].c.settled && w.sagas[id].settledAt >= since ==>
          EntryOf(w.sagas[id]) in captures)
  }

  /** The query returns the booked rows of this state, and nothing else. */
  ghost predicate Reads(w: W.World, rows: seq<R.BookedRow>) {
    && (forall r :: r in rows ==> exists id :: id in w.sagas && IsBooked(w.sagas[id]) && r == RowOf(w.sagas[id]))
    && (forall id :: id in w.sagas && IsBooked(w.sagas[id]) ==> RowOf(w.sagas[id]) in rows)
  }

  /** Two moments of one history of the engine. */
  ghost predicate Follows(w1: W.World, w2: W.World) {
    W.Inv(w1) && W.Inv(w2) && W.Grows(w1, w2)
  }

  lemma ReachesFollow(available: map<string, nat>, acts: seq<W.Action>, more: seq<W.Action>)
    ensures var w := W.Run(W.Opening(available), acts);
            Follows(w, w) && Follows(w, W.Run(w, more))
  {
    W.OpeningInv(available);
    W.RunKeeps(W.Opening(available), acts);
    W.RunKeeps(W.Run(W.Opening(available), acts), more);
    W.RunKeeps(W.Run(W.Opening(available), acts), []);
  }

  /** What a booked row says of the money, and when. */
  lemma BookedIsSettled(w: W.World, id: string)
    requires W.Inv(w) && id in w.sagas && w.sagas[id].c.row.step == Captured
    ensures var s := w.sagas[id];
            && IsBooked(s) && s.c.row.pspRef == Some(s.t.pspRef)
            && s.c.settled && s.settledAt <= s.updatedAt
  {
    assert W.SagaOk(w.sagas[id], id, w.now);
  }

  lemma ListedIsReported(w: W.World, since: nat, captures: seq<R.Entry>, id: string)
    requires Lists(w, since, captures)
    ensures id in w.sagas && w.sagas[id].c.settled && w.sagas[id].settledAt >= since ==>
              w.sagas[id].t.pspRef in R.Reported(captures)
  {
    if id in w.sagas && w.sagas[id].c.settled && w.sagas[id].settledAt >= since {
      assert EntryOf(w.sagas[id]) in captures;
    }
  }

  /** And nothing is reported that began before the coverage. */
  lemma ReportedIsListed(w: W.World, since: nat, captures: seq<R.Entry>, id: string)
    requires W.SagasOk(w) && Lists(w, since, captures) && id in w.sagas && w.sagas[id].t.pspRef in R.Reported(captures)
    ensures w.sagas[id].settledAt >= since
  {
    var e :| e in captures && e.reference == w.sagas[id].t.pspRef;
    var x :| x in w.sagas && w.sagas[x].c.settled && w.sagas[x].settledAt >= since && e == EntryOf(w.sagas[x]);
    assert x == id;
  }

  /**
   * A booking in scope that the report lacks is never a booking without money: the processor has
   * captured that payment, either before the report's coverage began or after it was drawn up.
   */
  lemma PhantomsAreSettled(w1: W.World, w2: W.World, since: nat, captures: seq<R.Entry>, rows: seq<R.BookedRow>)
    requires Follows(w1, w2) && Lists(w1, since, captures) && Reads(w2, rows)
    ensures forall ref :: ref in R.Booked(rows, since) - R.Reported(captures) ==> SettledElsewhere(w1, w2, since, ref)
  {
    forall ref | ref in R.Booked(rows, since) - R.Reported(captures) ensures SettledElsewhere(w1, w2, since, ref) {
      var r :| r in rows && r.updatedAt >= since && r.reference == ref;
      var id :| id in w2.sagas && IsBooked(w2.sagas[id]) && r == RowOf(w2.sagas[id]);
      BookedIsSettled(w2, id);
      ListedIsReported(w1, since, captures, id);
      assert id in w1.sagas ==> I.Grows(w1.sagas[id], w2.sagas[id]);
    }
  }

  /** Some payment with this reference is captured at the processor, at a time the report does not cover. */
  predicate SettledElsewhere(w1: W.World, w2: W.World, since: nat, ref: string) {
    exists id :: id in w2.sagas && w2.sagas[id].t.pspRef == ref && w2.sagas[id].c.settled
      && (w2.sagas[id].settledAt < since || id !in w1.sagas || !w1.sagas[id].c.settled)
  }

  /**
   * The processor captured before the coverage began, and the booked row was last written or touched
   * after: it is the row's updated_at that the comparison looks at, and a late touch moves it too.
   */
  predicate Straddles(s: I.Saga, since: nat) {
    s.c.row.step == Captured && s.settledAt < since <= s.updatedAt
  }

  /**
   * Report and rows of one moment: nothing is counted as booked but not settled, unless some
   * payment straddles the beginning of the report's coverage.
   */
  lemma NoPhantomsUnlessStraddling(w: W.World, since: nat, captures: seq<R.Entry>, rows: seq<R.BookedRow>, cutoff: int)
    requires Follows(w, w) && Lists(w, since, captures) && Reads(w, rows)
    ensures R.Compared(captures, since, rows, cutoff).bookedNotSettled == 0 <==>
            forall id :: id in w.sagas ==> !Straddles(w.sagas[id], since)
  {
    var phantoms := R.Booked(rows, since) - R.Reported(captures);
    StraddlersArePhantoms(w, since, captures, rows);
    if phantoms != {} {
      var ref :| ref in phantoms;
      PhantomStraddles(w, since, captures, rows, ref);
    }
  }

  lemma PhantomStraddles(w: W.World, since: nat, captures: seq<R.Entry>, rows: seq<R.BookedRow>, ref: string)
    requires Follows(w, w) && Lists(w, since, captures) && Reads(w, rows)
    requires ref in R.Booked(rows, since) - R.Reported(captures)
    ensures exists id :: id in w.sagas && Straddles(w.sagas[id], since)
  {
    var r :| r in rows && r.updatedAt >= since && r.reference == ref;
    var id :| id in w.sagas && IsBooked(w.sagas[id]) && r == RowOf(w.sagas[id]);
    BookedIsSettled(w, id);
    ListedIsReported(w, since, captures, id);
    assert Straddles(w.sagas[id], since);
  }

  lemma StraddlersArePhantoms(w: W.World, since: nat, captures: seq<R.Entry>, rows: seq<R.BookedRow>)
    requires Follows(w, w) && Lists(w, since, captures) && Reads(w, rows)
    ensures forall id :: id in w.sagas && Straddles(w.sagas[id], since) ==>
              w.sagas[id].t.pspRef in R.Booked(rows, since) - R.Reported(captures)
  {
    forall id | id in w.sagas && Straddles(w.sagas[id], since)
      ensures w.sagas[id].t.pspRef in R.Booked(rows, since) - R.Reported(captures)
    {
      BookedIsSettled(w, id);
      assert RowOf(w.sagas[id]) in rows;
      if w.sagas[id].t.pspRef in R.Reported(captures) {
        ReportedIsListed(w, since, captures, id);
      }
    }
  }

  /** Collected within the coverage and before the grace window when the report was drawn up, and not booked since. */
  predicate Lost(w1: W.World, w2: W.World, since: nat, cutoff: int, id: string) {
    && id in w1.sagas && w1.sagas[id].c.settled
    && since <= w1.sagas[id].settledAt && w1.sagas[id].settledAt <= cutoff
    && id in w2.sagas && w2.sagas[id].c.row.step != Captured
  }

  /** References belong to one payment each, so a payment's reference in the books is its own row. */
  lemma BookedReferenceIsOwn(w: W.World, since: nat, rows: seq<R.BookedRow>, id: string)
    requires W.Inv(w) && Reads(w, rows) && id in w.sagas
    requires w.sagas[id].t.pspRef in R.Booked(rows, since)
    ensures w.sagas[id].c.row.step == Captured
  {
    var r :| r in rows && r.updatedAt >= since && r.reference == w.sagas[id].t.pspRef;
    var x :| x in w.sagas && IsBooked(w.sagas[x]) && r == RowOf(w.sagas[x]);
    BookedIsSettled(w, x);
    assert W.SagasOk(w) && x == id;
  }

  /** In scope, the books have a payment's reference exactly when they have the payment. */
  lemma BookedIffCaptured(w: W.World, since: nat, rows: seq<R.BookedRow>, id: string)
    requires W.Inv(w) && Reads(w, rows) && id in w.sagas && w.sagas[id].settledAt >= since
    ensures w.sagas[id].t.pspRef in R.Booked(rows, since) <==> w.sagas[id].c.row.step == Captured
  {
    if w.sagas[id].c.row.step == Captured {
      BookedIsSettled(w, id);
      assert RowOf(w.sagas[id]) in rows;
    } else if w.sagas[id].t.pspRef in R.Booked(rows, since) {
      BookedReferenceIsOwn(w, since, rows, id);
    }
  }

  /** A payment the processor has captured keeps its reference and its capture time. */
  lemma SettledStays(w1: W.World, w2: W.World, id: string)
    requires W.Grows(w1, w2) && id in w1.sagas && w1.sagas[id].c.settled
    ensures id in w2.sagas && w2.sagas[id].c.settled
    ensures w2.sagas[id].t == w1.sagas[id].t && w2.sagas[id].settledAt == w1.sagas[id].settledAt
  {
    assert I.Grows(w1.sagas[id], w2.sagas[id]);
  }

  lemma UnbookedIsLost(w1: W.World, w2: W.World, since: nat, rows: seq<R.BookedRow>, cutoff: int, id: string)
    requires Follows(w1, w2) && Reads(w2, rows)
    requires id in w1.sagas && w1.sagas[id].c.settled && w1.sagas[id].settledAt >= since
    ensures R.Unbooked(EntryOf(w1.sagas[id]), R.Booked(rows, since), cutoff) <==> Lost(w1, w2, since, cutoff, id)
  {
    SettledStays(w1, w2, id);
    BookedIffCaptured(w2, since, rows, id);
  }

  /** The references of the lost payments. */
  function LostReferences(w1: W.World, w2: W.World, since: nat, cutoff: int): set<string> {
    set id | id in w1.sagas && Lost(w1, w2, since, cutoff, id) :: w1.sagas[id].t.pspRef
  }

  lemma PickedAreLost(w1: W.World, w2: W.World, since: nat, captures: seq<R.Entry>, rows: seq<R.BookedRow>, cutoff: int)
    requires Follows(w1, w2) && Lists(w1, since, captures) && Reads(w2, rows)
    ensures R.Picked(R.IsUnbooked(R.Booked(rows, since), cutoff), captures) == LostReferences(w1, w2, since, cutoff)
  {
    var p := R.IsUnbooked(R.Booked(rows, since), cutoff);
    forall ref | ref in R.Picked(p, captures) ensures ref in LostReferences(w1, w2, since, cutoff) {
      var e :| e in captures && p(e) && e.reference == ref;
      var id :| id in w1.sagas && w1.sagas[id].c.settled && w1.sagas[id].settledAt >= since &&
          e == EntryOf(w1.sagas[id]);
      UnbookedIsLost(w1, w2, since, rows, cutoff, id);
    }
    forall id | Lost(w1, w2, since, cutoff, id) ensures w1.sagas[id].t.pspRef in R.Picked(p, captures) {
      UnbookedIsLost(w1, w2, since, rows, cutoff, id);
      assert EntryOf(w1.sagas[id]) in captures;
    }
  }

  /**
   * Money collected but not booked is counted exactly: as many as there are payments the processor
   * had captured, within the coverage and before the grace cutoff, whose rows are not booked when
   * they are read. A crash, a lost reply or an expiry cannot hide one.
   */
  lemma LostMoneyIsCounted(w1: W.World, w2: W.World, since: nat, captures: seq<R.Entry>, rows: seq<R.BookedRow>,
          cutoff: int)
    requires Follows(w1, w2) && Lists(w1, since, captures) && Reads(w2, rows)
    ensures var snap := R.Compared(captures, since, rows, cutoff);
            && snap.settledNotBooked == |LostReferences(w1, w2, since, cutoff)|
            && (forall id :: Lost(w1, w2, since, cutoff, id) ==>
                snap.settledNotBooked > 0 && snap.status == R.DriftDetected)
  {
    R.CountIsCardinality(R.IsUnbooked(R.Booked(rows, since), cutoff), captures);
    PickedAreLost(w1, w2, since, captures, rows, cutoff);
    var lost := LostReferences(w1, w2, since, cutoff);
    forall id | Lost(w1, w2, since, cutoff, id) ensures |lost| > 0 {
      assert w1.sagas[id].t.pspRef in lost;
    }
  }

  lemma CleanMeansNothingLost(w1: W.World, w2: W.World, since: nat, captures: seq<R.Entry>, rows: seq<R.BookedRow>,
          cutoff: int)
    requires Follows(w1, w2) && Lists(w1, since, captures) && Reads(w2, rows)
    requires R.Compared(captures, since, rows, cutoff).status == R.Clean
    ensures forall id :: !Lost(w1, w2, since, cutoff, id)
  {
    LostMoneyIsCounted(w1, w2, since, captures, rows, cutoff);
    forall id ensures !Lost(w1, w2, since, cutoff, id) {
    }
  }

  lemma CleanMeansCovered(w: W.World, since: nat, captures: seq<R.Entry>, rows: seq<R.BookedRow>, cutoff: int)
    requires W.Inv(w) && Reads(w, rows)
    requires R.Compared(captures, since, rows, cutoff).status == R.Clean
    ensures forall id :: id in w.sagas && w.sagas[id].c.row.step == Captured ==>
              w.sagas[id].c.settled && w.sagas[id].updatedAt >= since
  {
    R.CleanMeans(captures, since, rows, cutoff);
    forall id | id in w.sagas && w.sagas[id].c.row.step == Captured
      ensures w.sagas[id].c.settled && w.sagas[id].updatedAt >= since
    {
      BookedIsSettled(w, id);
      assert RowOf(w.sagas[id]) in rows;
    }
  }

  /**
   * Over reachable states: a clean verdict means that every payment the processor captured in the
   * covered time before the cutoff is booked, and that every booked row was within the coverage.
   */
  lemma CleanIsTruthful(available: map<string, nat>, acts: seq<W.Action>, more: seq<W.Action>, since: nat,
                        captures: seq<R.Entry>, rows: seq<R.BookedRow>, cutoff: int)
    requires Lists(W.Run(W.Opening(available), acts), since, captures)
    requires Reads(W.Run(W.Run(W.Opening(available), acts), more), rows)
    requires R.Compared(captures, since, rows, cutoff).status == R.Clean
    ensures var w1 := W.Run(W.Opening(available), acts);
            var w2 := W.Run(w1, more);
            && (forall id :: id in w1.sagas && w1.sagas[id].c.settled && since <= w1.sagas[id].settledAt <= cutoff ==>
                  id in w2.sagas && w2.sagas[id].c.row.step == Captured)
            && (forall id :: id in w2.sagas && w2.sagas[id].c.row.step == Captured ==>
                  w2.sagas[id].c.settled && w2.sagas[id].updatedAt >= since)
  {
    var w1 := W.Run(W.Opening(available), acts);
    var w2 := W.Run(w1, more);
    ReachesFollow(available, acts, more);
    CleanMeansNothingLost(w1, w2, since, captures, rows, cutoff);
    CleanMeansCovered(w2, since, captures, rows, cutoff);
    forall id | id in w1.sagas && w1.sagas[id].c.settled && since <= w1.sagas[id].settledAt <= cutoff
      ensures id in w2.sagas && w2.sagas[id].c.row.step == Captured
    {
      assert !Lost(w1, w2, since, cutoff, id);
    }
  }
}
