/** The comparison of the processor's settlement report with the captures the payments table has booked. */
module Reconciler {
  import opened Wrappers

  /** One capture of the report. No time: the processor wrote one that does not parse. */
  datatype Entry = Entry(reference: string, capturedAt: Option<nat>, settled: int)

  datatype Report = Report(since: Option<nat>, captures: seq<Entry>)

  /** A row at step captured that has a processor reference. */
  datatype BookedRow = BookedRow(reference: string, updatedAt: nat)

  datatype Status = NotRun | Clean | DriftDetected | CoverageGap | Unavailable

  datatype Snapshot = Snapshot(status: Status, reportSince: Option<nat>, settledNotBooked: nat, bookedNotSettled: nat,
                               doubleSettled: nat, outOfCoverage: nat)

  const NO_SNAPSHOT := Snapshot(NotRun, None, 0, 0, 0, 0)
  const NO_REPORT := Snapshot(Unavailable, None, 0, 0, 0, 0)

  function Count<T>(p: T -> bool, xs: seq<T>): nat
    decreases |xs|
  {
    if xs == [] then 0 else Count(p, xs[..|xs| - 1]) + if p(xs[|xs| - 1]) then 1 else 0
  }

  /** The references booked within the period the report covers. */
  function Booked(rows: seq<BookedRow>, since: nat): set<string> {
    set r | r in rows && r.updatedAt >= since :: r.reference
  }

  function TooEarly(since: nat): BookedRow -> bool {
    (r: BookedRow) => r.updatedAt < since
  }

  function Reported(captures: seq<Entry>): set<string> {
    set e | e in captures :: e.reference
  }

  /** Old enough to be evidence, and not in the books. */
  predicate Unbooked(e: Entry, booked: set<string>, cutoff: int) {
    e.capturedAt.Some? && e.capturedAt.value <= cutoff && e.reference !in booked
  }

  function IsUnbooked(booked: set<string>, cutoff: int): Entry -> bool {
    (e: Entry) => Unbooked(e, booked, cutoff)
  }

  function IsDouble(): Entry -> bool {
    (e: Entry) => e.settled > 1
  }

  function Verdict(lost: nat, phantom: nat, double: nat, outOfCoverage: nat): Status {
    if lost > 0 || phantom > 0 || double > 0 then DriftDetected
    else if outOfCoverage > 0 then CoverageGap
    else Clean
  }

  /** The outcome of a run whose report covers the time since the given one. */
  function Compared(captures: seq<Entry>, since: nat, rows: seq<BookedRow>, cutoff: int): Snapshot {
    var booked := Booked(rows, since);
    var lost := Count(IsUnbooked(booked, cutoff), captures);
    var phantom := |booked - Reported(captures)|;
    var double := Count(IsDouble(), captures);
    var outOfCoverage := Count(TooEarly(since), rows);
    Snapshot(Verdict(lost, phantom, double, outOfCoverage), Some(since), lost, phantom, double, outOfCoverage)
  }

  lemma PhantomStep(booked: set<string>, left: set<string>, ref: string, reported: set<string>)
    requires left <= booked && ref in left
    ensures |(booked - (left - {ref})) - reported| == |(booked - left) - reported| + if ref in reported then 0 else 1
  {
    var done := (booked - left) - reported;
    assert (booked - (left - {ref})) - reported == if ref in reported then done else done + {ref};
  }

  class Reconciler {
    const grace: nat
    var last: Snapshot

    constructor (grace: nat)
      ensures this.grace == grace && last == NO_SNAPSHOT
    {
      this.grace, last := grace, NO_SNAPSHOT;
    }

    /** The references booked in scope, and how many rows are out of it. */
    method BookedReferences(rows: seq<BookedRow>, since: nat) returns (booked: set<string>, outOfScope: nat)
      ensures booked == Booked(rows, since)
      ensures outOfScope == Count(TooEarly(since), rows)
    {
      booked, outOfScope := {}, 0;
      for i := 0 to |rows|
        invariant booked == Booked(rows[..i], since)
        invariant outOfScope == Count(TooEarly(since), rows[..i])
      {
        assert rows[..i + 1][..i] == rows[..i];
        if rows[i].updatedAt < since {
          outOfScope := outOfScope + 1;
        } else {
          booked := booked + {rows[i].reference};
        }
        assert rows[..i + 1] == rows[..i] + [rows[i]];
      }
      assert rows[..|rows|] == rows;
    }

    /** The pass over the report: its references, its double settlements, its unbooked captures. */
    method ScanReport(captures: seq<Entry>, booked: set<string>, cutoff: int)
      returns (reported: set<string>, lost: nat, double: nat)
      ensures reported == Reported(captures)
      ensures lost == Count(IsUnbooked(booked, cutoff), captures)
      ensures double == Count(IsDouble(), captures)
    {
      reported, lost, double := {}, 0, 0;
      for i := 0 to |captures|
        invariant reported == Reported(captures[..i])
        invariant lost == Count(IsUnbooked(booked, cutoff), captures[..i])
        invariant double == Count(IsDouble(), captures[..i])
      {
        var e := captures[i];
        assert captures[..i + 1][..i] == captures[..i];
        assert captures[..i + 1] == captures[..i] + [e];
        reported := reported + {e.reference};
        if e.settled > 1 {
          double := double + 1;
        }
        if e.capturedAt.None? || e.capturedAt.value > cutoff {
          continue;
        }
        if e.reference !in booked {
          lost := lost + 1;
        }
      }
      assert captures[..|captures|] == captures;
    }

    /** The pass over the booked references, in whatever order the map yields them. */
    method CountPhantoms(booked: set<string>, reported: set<string>) returns (phantom: nat)
      ensures phantom == |booked - reported|
    {
      phantom := 0;
      var left := booked;
      while left != {}
        invariant left <= booked
        invariant phantom == |(booked - left) - reported|
        decreases left
      {
        var ref :| ref in left;
        PhantomStep(booked, left, ref, reported);
        left := left - {ref};
        if ref !in reported {
          phantom := phantom + 1;
        }
      }
      assert (booked - left) - reported == booked - reported;
    }

    /**
     * One reconciliation. No report, no usable period, or no rows: nothing is claimed. Otherwise each
     * count is its own, and the status says the worst of them: drift before a gap in the coverage.
     */
    method Run(report: Option<Report>, rows: Option<seq<BookedRow>>, now: nat)
      modifies this
      ensures last.status == Unavailable <==> report.None? || report.value.since.None? || rows.None?
      ensures last.status == Unavailable ==>
                last == Snapshot(Unavailable, None, 0, 0, 0, 0)
      ensures last.status != Unavailable ==>
                var captures, since := report.value.captures, report.value.since.value;
                && last.reportSince == Some(since)
                && last.settledNotBooked == Count(IsUnbooked(Booked(rows.value, since), now - grace), captures)
                && last.bookedNotSettled == |Booked(rows.value, since) - Reported(captures)|
                && last.doubleSettled == Count((e: Entry) => e.settled > 1, captures)
                && last.outOfCoverage == Count((r: BookedRow) => r.updatedAt < since, rows.value)
      ensures last.status != Unavailable ==>
                && (last.status == DriftDetected <==>
                      last.settledNotBooked > 0 || last.bookedNotSettled > 0 || last.doubleSettled > 0)
                && (last.status == CoverageGap <==>
                      last.settledNotBooked == last.bookedNotSettled == last.doubleSettled == 0 < last.outOfCoverage)
                && last.status in {DriftDetected, CoverageGap, Clean}
      ensures last.status != Unavailable ==>
                last == Compared(report.value.captures, report.value.since.value, rows.value, now - grace)
    {
      if report.None? || report.value.since.None? || rows.None? {
        last := NO_REPORT;
        return;
      }
      var since := report.value.since.value;
      var booked, outOfScope := BookedReferences(rows.value, since);
      var reported, lost, double := ScanReport(report.value.captures, booked, now - grace);
      var phantom := CountPhantoms(booked, reported);
      SameCount(IsDouble(), (e: Entry) => e.settled > 1, report.value.captures);
      SameCount(TooEarly(since), (r: BookedRow) => r.updatedAt < since, rows.value);
      last := Snapshot(Verdict(lost, phantom, double, outOfScope), Some(since), lost, phantom, double, outOfScope);
    }
  }

  lemma {:induction false} SameCount<T>(p: T -> bool, q: T -> bool, xs: seq<T>)
    requires forall x :: p(x) == q(x)
    ensures Count(p, xs) == Count(q, xs)
    decreases |xs|
  {
    if xs != [] {
      SameCount(p, q, xs[..|xs| - 1]);
    }
  }

  // ---------------------------------------------------------------- what the counts are

  lemma {:induction false} CountConcat<T>(p: T -> bool, xs: seq<T>, ys: seq<T>)
    ensures Count(p, xs + ys) == Count(p, xs) + Count(p, ys)
    decreases |ys|
  {
    if ys == [] {
      assert xs + ys == xs;
    } else {
      assert (xs + ys)[..|xs + ys| - 1] == xs + ys[..|ys| - 1];
      CountConcat(p, xs, ys[..|ys| - 1]);
    }
  }

  /** A count does not depend on the order of what is counted. */
  lemma {:induction false} CountOrder<T>(p: T -> bool, xs: seq<T>, ys: seq<T>)
    requires multiset(xs) == multiset(ys)
    ensures Count(p, xs) == Count(p, ys)
    decreases |xs|
  {
    if xs == [] {
      assert |multiset(ys)| == 0;
    } else {
      var last := xs[|xs| - 1];
      var rest := xs[..|xs| - 1];
      assert xs == rest + [last];
      assert last in multiset(ys);
      var i :| 0 <= i < |ys| && ys[i] == last;
      var without := ys[..i] + ys[i + 1..];
      assert ys == ys[..i] + [last] + ys[i + 1..];
      assert multiset(xs) == multiset(rest) + multiset{last};
      assert multiset(ys) == multiset(ys[..i]) + multiset{last} + multiset(ys[i + 1..]);
      assert multiset(without) == multiset(ys[..i]) + multiset(ys[i + 1..]);
      assert multiset(rest) == multiset(xs) - multiset{last} == multiset(ys) - multiset{last} == multiset(without);
      CountOrder(p, rest, without);
      CountConcat(p, ys[..i], ys[i + 1..]);
      CountConcat(p, ys[..i], [last]);
      CountConcat(p, ys[..i] + [last], ys[i + 1..]);
    }
  }

  /** The outcome is a function of what was reported and booked, not of the order it arrived in. */
  lemma ComparisonIgnoresOrder(captures: seq<Entry>, captures': seq<Entry>, since: nat,
                               rows: seq<BookedRow>, rows': seq<BookedRow>, cutoff: int)
    requires multiset(captures) == multiset(captures') && multiset(rows) == multiset(rows')
    ensures Compared(captures, since, rows, cutoff) == Compared(captures', since, rows', cutoff)
  {
    assert forall e :: e in captures <==> e in multiset(captures);
    assert forall e :: e in captures' <==> e in multiset(captures');
    assert forall r :: r in rows <==> r in multiset(rows);
    assert forall r :: r in rows' <==> r in multiset(rows');
    assert Booked(rows, since) == Booked(rows', since);
    assert Reported(captures) == Reported(captures');
    CountOrder(IsUnbooked(Booked(rows, since), cutoff), captures, captures');
    CountOrder(IsDouble(), captures, captures');
    CountOrder(TooEarly(since), rows, rows');
  }

  lemma {:induction false} CountZero<T>(p: T -> bool, xs: seq<T>)
    ensures Count(p, xs) == 0 <==> forall x :: x in xs ==> !p(x)
    decreases |xs|
  {
    if xs != [] {
      CountZero(p, xs[..|xs| - 1]);
      assert xs == xs[..|xs| - 1] + [xs[|xs| - 1]];
    }
  }

  lemma {:induction false} CountSplit(since: nat, rows: seq<BookedRow>)
    ensures Count(TooEarly(since), rows) + Count((r: BookedRow) => r.updatedAt >= since, rows) == |rows|
    decreases |rows|
  {
    if rows != [] {
      CountSplit(since, rows[..|rows| - 1]);
    }
  }

  /**
   * Clean is said exactly when no report entry old enough is missing from the books, no booked
   * reference is missing from the report, nothing was settled twice, and every row could be checked.
   */
  lemma CleanMeans(captures: seq<Entry>, since: nat, rows: seq<BookedRow>, cutoff: int)
    ensures Compared(captures, since, rows, cutoff).status == Clean <==>
              && (forall e :: e in captures ==> !Unbooked(e, Booked(rows, since), cutoff) && e.settled <= 1)
              && Booked(rows, since) <= Reported(captures)
              && (forall r :: r in rows ==> r.updatedAt >= since)
  {
    var booked := Booked(rows, since);
    CountZero(IsUnbooked(booked, cutoff), captures);
    CountZero(IsDouble(), captures);
    CountZero(TooEarly(since), rows);
    assert |booked - Reported(captures)| == 0 <==> booked <= Reported(captures) by {
      if |booked - Reported(captures)| == 0 {
        assert booked - Reported(captures) == {};
        assert forall ref :: ref in booked ==> ref !in booked - Reported(captures);
      }
      if booked <= Reported(captures) {
        assert booked - Reported(captures) == {};
      }
    }
  }

  /** Something is wrong between the report and the books. */
  predicate Drifts(captures: seq<Entry>, since: nat, rows: seq<BookedRow>, cutoff: int) {
    || (exists e :: e in captures && e.settled > 1)
    || (exists e :: e in captures && e.capturedAt.Some? && e.capturedAt.value <= cutoff
          && forall r :: r in rows && r.updatedAt >= since ==> r.reference != e.reference)
    || (exists r :: r in rows && r.updatedAt >= since && forall e :: e in captures ==> e.reference != r.reference)
  }

  /**
   * The status, from report and rows: drift exactly when an entry was settled twice, or an entry old
   * enough is not in the books, or a booked reference in scope is not in the report; a gap in the
   * coverage exactly when there is no drift, but some row is older than the report; else clean.
   */
  lemma StatusMeans(captures: seq<Entry>, since: nat, rows: seq<BookedRow>, cutoff: int)
    ensures var status, drift := Compared(captures, since, rows, cutoff).status, Drifts(captures, since, rows, cutoff);
            && (status == DriftDetected <==> drift)
            && (status == CoverageGap <==> !drift && exists r :: r in rows && r.updatedAt < since)
            && (status == Clean <==> !drift && forall r :: r in rows ==> r.updatedAt >= since)
  {
    var booked := Booked(rows, since);
    CountZero(IsUnbooked(booked, cutoff), captures);
    CountZero(IsDouble(), captures);
    CountZero(TooEarly(since), rows);
    var phantoms := booked - Reported(captures);
    assert |phantoms| == 0 <==> phantoms == {};
    UnbookedMeans(captures, since, rows, cutoff);
    PhantomsMean(captures, since, rows);
  }

  lemma UnbookedMeans(captures: seq<Entry>, since: nat, rows: seq<BookedRow>, cutoff: int)
    ensures forall e :: e in captures ==>
              (Unbooked(e, Booked(rows, since), cutoff) <==>
                && e.capturedAt.Some? && e.capturedAt.value <= cutoff
                && forall r :: r in rows && r.updatedAt >= since ==> r.reference != e.reference)
  {
  }

  lemma PhantomsMean(captures: seq<Entry>, since: nat, rows: seq<BookedRow>)
    ensures Booked(rows, since) - Reported(captures) != {} <==>
              exists r :: r in rows && r.updatedAt >= since && forall e :: e in captures ==> e.reference != r.reference
  {
    var phantoms := Booked(rows, since) - Reported(captures);
    forall r | r in rows && r.updatedAt >= since && (forall e :: e in captures ==> e.reference != r.reference)
      ensures r.reference in phantoms
    {
    }
    if phantoms != {} {
      var ref :| ref in phantoms;
      var r :| r in rows && r.updatedAt >= since && r.reference == ref;
      assert forall e :: e in captures ==> e.reference in Reported(captures);
    }
  }

  predicate Distinct(captures: seq<Entry>) {
    forall i, j :: 0 <= i < j < |captures| ==> captures[i].reference != captures[j].reference
  }

  /** The references of the entries that p picks. */
  function Picked(p: Entry -> bool, captures: seq<Entry>): set<string> {
    set e | e in captures && p(e) :: e.reference
  }

  lemma PickedSnoc(p: Entry -> bool, rest: seq<Entry>, last: Entry)
    ensures Picked(p, rest + [last]) == Picked(p, rest) + if p(last) then {last.reference} else {}
  {
    var all := rest + [last];
    assert forall e :: e in all <==> e in rest || e == last;
  }

  /** In a report without repetitions, the count is that of distinct references. */
  lemma {:induction false} CountIsCardinality(p: Entry -> bool, captures: seq<Entry>)
    requires Distinct(captures)
    ensures Count(p, captures) == |Picked(p, captures)|
    decreases |captures|
  {
    if captures != [] {
      var rest, last := captures[..|captures| - 1], captures[|captures| - 1];
      assert captures == rest + [last];
      CountIsCardinality(p, rest);
      PickedSnoc(p, rest, last);
      assert last.reference !in Picked(p, rest);
    }
  }
}
