/**
 * The outbox relay: rows are published in batches, and a batch is marked all together or not at
 * all, so a drain that fails anywhere publishes again what it had already published.
 */
module Relay {

  const BATCH_LIMIT := 50

  datatype OutboxRow = OutboxRow(id: nat, topic: string, aggregateId: string, payload: string, processed: bool)

  /** What the broker receives; the row's id is the id of the event. */
  datatype Record = Record(topic: string, key: string, eventId: nat, payload: string)

  /** The outbox in id order, and everything the broker has stored, in order. */
  datatype State = State(rows: seq<OutboxRow>, log: seq<Record>)

  /**
   * How far a drain gets: how many rows it publishes before something fails, whether the row it
   * fails on reached the broker all the same, and whether the transaction commits.
   */
  datatype Fate = Fate(produced: nat, lostAck: bool, commits: bool)

  datatype Event =
    | Insert(topic: string, aggregateId: string, payload: string, gap: nat)
    | Tick(fate: Fate)

  function Framed(r: OutboxRow): Record {
    Record(r.topic, r.aggregateId, r.id, r.payload)
  }

  function Unmarked(rows: seq<OutboxRow>): seq<OutboxRow> {
    if rows == [] then []
    else
      var front, last := rows[..|rows| - 1], rows[|rows| - 1];
      if last.processed then Unmarked(front) else Unmarked(front) + [last]
  }

  function Batch(rows: seq<OutboxRow>): seq<OutboxRow> {
    var unmarked := Unmarked(rows);
    if |unmarked| <= BATCH_LIMIT then unmarked else unmarked[..BATCH_LIMIT]
  }

  /** The records a drain of this batch leaves with the broker. */
  function Sent(batch: seq<OutboxRow>, fate: Fate): seq<Record> {
    var n := fate.produced + if fate.lostAck then 1 else 0;
    Frames(if n < |batch| then batch[..n] else batch)
  }

  function Frames(rows: seq<OutboxRow>): seq<Record> {
    seq(|rows|, i requires 0 <= i < |rows| => Framed(rows[i]))
  }

  function Ids(rows: seq<OutboxRow>): seq<nat> {
    seq(|rows|, i requires 0 <= i < |rows| => rows[i].id)
  }

  function Mark(rows: seq<OutboxRow>, ids: seq<nat>): seq<OutboxRow> {
    seq(|rows|, i requires 0 <= i < |rows| => if rows[i].id in ids then rows[i].(processed := true) else rows[i])
  }

  /** Every row of the batch was acknowledged, and the marks are committed. */
  predicate Completes(batch: seq<OutboxRow>, fate: Fate) {
    |batch| <= fate.produced && fate.commits
  }

  function Drained(s: State, fate: Fate): State {
    var batch := Batch(s.rows);
    State(if Completes(batch, fate) then Mark(s.rows, Ids(batch)) else s.rows, s.log + Sent(batch, fate))
  }

  function NextId(rows: seq<OutboxRow>, gap: nat): nat {
    if rows == [] then gap else rows[|rows| - 1].id + 1 + gap
  }

  function Next(s: State, e: Event): State {
    match e
    case Insert(topic, aggregateId, payload, gap) =>
      s.(rows := s.rows + [OutboxRow(NextId(s.rows, gap), topic, aggregateId, payload, false)])
    case Tick(fate) => Drained(s, fate)
  }

  function Run(s: State, events: seq<Event>): State
    decreases |events|
  {
    if events == [] then s else Next(Run(s, events[..|events| - 1]), events[|events| - 1])
  }

  class Relay {
    var rows: seq<OutboxRow>
    var log: seq<Record>

    constructor ()
      ensures Contents() == State([], [])
    {
      rows, log := [], [];
    }

    ghost function Contents(): State
      reads this
    {
      State(rows, log)
    }

    /** One more row, not yet published, with an id beyond all that are there. */
    method Write(topic: string, aggregateId: string, payload: string, gap: nat)
      modifies `rows
      ensures |rows| == |old(rows)| + 1 && rows[..|old(rows)|] == old(rows)
      ensures var r := rows[|old(rows)|];
              && (r.topic, r.aggregateId, r.payload) == (topic, aggregateId, payload)
              && !r.processed
              && (Ordered(old(rows)) ==> Ordered(rows) && forall x :: x in old(rows) ==> x.id < r.id)
      ensures Contents() == Next(old(Contents()), Insert(topic, aggregateId, payload, gap))
    {
      rows := rows + [OutboxRow(NextId(rows, gap), topic, aggregateId, payload, false)];
    }

    /** select .. where processed_at is null order by id limit 50 */
    method SelectBatch() returns (batch: seq<OutboxRow>)
      ensures batch == Batch(rows)
    {
      batch := [];
      var i := 0;
      while i < |rows| && |batch| < BATCH_LIMIT
        invariant i <= |rows|
        invariant batch == Unmarked(rows[..i]) && |batch| <= BATCH_LIMIT
      {
        assert rows[..i + 1][..i] == rows[..i];
        if !rows[i].processed {
          batch := batch + [rows[i]];
        }
        i := i + 1;
      }
      UnmarkedGrows(rows, i);
      assert rows[..|rows|] == rows;
    }

    method DrainOnce(fate: Fate) returns (published: nat, ok: bool)
      modifies this
      ensures Contents() == Drained(old(Contents()), fate)
      ensures ok <==> |Batch(old(rows))| <= fate.produced && fate.commits
      ensures published == if ok then |Batch(old(rows))| else 0
      ensures !ok ==> rows == old(rows)
      ensures ok ==> rows == Mark(old(rows), Ids(Batch(old(rows)))) && log == old(log) + Frames(Batch(old(rows)))
    {
      published := 0;
      var batch := SelectBatch();
      var ids: seq<nat> := [];
      for i := 0 to |batch|
        invariant rows == old(rows) && log == old(log) + Frames(batch[..i])
        invariant ids == Ids(batch[..i]) && i <= fate.produced
      {
        if i == fate.produced {
          if fate.lostAck {
            log := log + [Framed(batch[i])];
          }
          FramesGrow(batch, i);
          return 0, false;
        }
        log := log + [Framed(batch[i])];
        ids := ids + [batch[i].id];
        FramesGrow(batch, i);
      }
      assert batch[..|batch|] == batch;
      if !fate.commits {
        return 0, false;
      }
      var table := rows;
      rows := seq(|table|, i requires 0 <= i < |table| =>
        if table[i].id in ids then table[i].(processed := true) else table[i]);
      published := |ids|;
      ok := true;
    }

    /** The polling loop, with the writes that fall between its ticks. */
    method Poll(events: seq<Event>)
      modifies this
      ensures Contents() == Run(old(Contents()), events)
    {
      for i := 0 to |events|
        invariant Contents() == Run(old(Contents()), events[..i])
      {
        match events[i] {
          case Insert(topic, aggregateId, payload, gap) => Write(topic, aggregateId, payload, gap);
          case Tick(fate) => var _, _ := DrainOnce(fate);
        }
        assert events[..i + 1][..i] == events[..i];
      }
      assert events[..|events|] == events;
    }
  }

  lemma FramesGrow(rows: seq<OutboxRow>, i: nat)
    requires i < |rows|
    ensures Frames(rows[..i + 1]) == Frames(rows[..i]) + [Framed(rows[i])]
    ensures Ids(rows[..i + 1]) == Ids(rows[..i]) + [rows[i].id]
  {
  }

  lemma {:induction false} UnmarkedGrows(rows: seq<OutboxRow>, n: nat)
    requires n <= |rows|
    ensures Unmarked(rows[..n]) <= Unmarked(rows)
    decreases |rows|
  {
    if n == |rows| {
      assert rows[..n] == rows;
    } else {
      assert rows[..|rows| - 1][..n] == rows[..n];
      UnmarkedGrows(rows[..|rows| - 1], n);
    }
  }

  // ---------------------------------------------------------------- what consumers see

  /** The log without repetitions. */
  function Firsts(log: seq<Record>): seq<Record> {
    if log == [] then [] else Note(Firsts(log[..|log| - 1]), log[|log| - 1])
  }

  function Note(seen: seq<Record>, r: Record): seq<Record> {
    if r in seen then seen else seen + [r]
  }

  predicate Ordered(rows: seq<OutboxRow>) {
    forall i, j :: 0 <= i < j < |rows| ==> rows[i].id < rows[j].id
  }

  /** Exactly the first m rows are marked. */
  predicate MarkedUpTo(rows: seq<OutboxRow>, m: nat) {
    m <= |rows| && forall i :: 0 <= i < |rows| ==> (rows[i].processed <==> i < m)
  }

  /** The broker has seen exactly the first k rows, in their order. */
  predicate SeenUpTo(s: State, k: nat) {
    k <= |s.rows| && Firsts(s.log) == Frames(s.rows[..k])
  }

  predicate Shape(s: State, m: nat, k: nat) {
    Ordered(s.rows) && MarkedUpTo(s.rows, m) && SeenUpTo(s, k) && m <= k <= m + BATCH_LIMIT
  }

  lemma {:induction false} UnmarkedTail(rows: seq<OutboxRow>, m: nat)
    requires MarkedUpTo(rows, m)
    ensures Unmarked(rows) == rows[m..]
    decreases |rows|
  {
    if rows != [] {
      var front := rows[..|rows| - 1];
      if m == |rows| {
        UnmarkedTail(front, m - 1);
      } else {
        UnmarkedTail(front, m);
        assert rows[m..] == front[m..] + [rows[|rows| - 1]];
      }
    }
  }

  lemma FramesOrdered(rows: seq<OutboxRow>, i: nat, k: nat)
    requires Ordered(rows) && i < |rows| && k <= |rows|
    ensures Framed(rows[i]) in Frames(rows[..k]) <==> i < k
  {
    if i < k {
      assert Frames(rows[..k])[i] == Framed(rows[i]);
    }
  }

  /** No two rows make the same record. */
  predicate Distinct(frames: seq<Record>) {
    forall i, j :: 0 <= i < j < |frames| ==> frames[i] != frames[j]
  }

  lemma FramesSlice(rows: seq<OutboxRow>, m: nat, n: nat)
    requires m <= n <= |rows|
    ensures Frames(rows[m..n]) == Frames(rows)[m..n] && Frames(rows[..n]) == Frames(rows)[..n]
  {
  }

  lemma OrderedDistinct(rows: seq<OutboxRow>)
    requires Ordered(rows)
    ensures Distinct(Frames(rows))
  {
  }

  /** A record already seen changes nothing, and the next one extends what has been seen by itself. */
  lemma NoteInOrder(frames: seq<Record>, k: nat, i: nat)
    requires Distinct(frames) && i <= k <= |frames| && i < |frames|
    ensures Note(frames[..k], frames[i]) == frames[..Max(k, i + 1)]
  {
    if i < k {
      assert frames[..k][i] == frames[i];
    } else {
      assert frames[..k + 1] == frames[..k] + [frames[k]];
    }
  }

  function Max(a: nat, b: nat): nat {
    if a < b then b else a
  }

  /**
   * A log whose first part has been seen, and whose rest is in order from some record already seen
   * on, has seen the new ones of the rest besides.
   */
  lemma {:induction false} Publish(frames: seq<Record>, log: seq<Record>, start: nat, k: nat, m: nat, n: nat)
    requires Distinct(frames) && m <= k <= |frames| && m <= n <= |frames|
    requires |log| == start + n - m && forall i :: start <= i < |log| ==> log[i] == frames[m + i - start]
    requires Firsts(log[..start]) == frames[..k]
    ensures Firsts(log) == frames[..Max(k, n)]
    decreases n
  {
    if m == n {
      assert log[..start] == log;
    } else {
      var front := log[..|log| - 1];
      assert front[..start] == log[..start];
      Publish(frames, front, start, k, m, n - 1);
      NoteInOrder(frames, Max(k, n - 1), n - 1);
    }
  }

  function Min(a: nat, b: nat): nat {
    if a < b then a else b
  }

  /** Where a drain that starts at row m stops publishing. */
  function Reach(rows: seq<OutboxRow>, m: nat, fate: Fate): (last: nat)
    requires m <= |rows|
    ensures m <= last <= Min(m + BATCH_LIMIT, |rows|)
  {
    Min(m + fate.produced + if fate.lostAck then 1 else 0, Min(m + BATCH_LIMIT, |rows|))
  }

  lemma SliceOfSlice(rows: seq<OutboxRow>, m: nat, end: nat, last: nat)
    requires m <= last <= end <= |rows|
    ensures rows[m..end][..last - m] == rows[m..last]
  {
  }

  lemma DrainIs(s: State, m: nat, fate: Fate)
    requires MarkedUpTo(s.rows, m)
    ensures Batch(s.rows) == s.rows[m..Min(m + BATCH_LIMIT, |s.rows|)]
    ensures Drained(s, fate).log == s.log + Frames(s.rows[m..Reach(s.rows, m, fate)])
    ensures Completes(Batch(s.rows), fate) ==> Reach(s.rows, m, fate) == Min(m + BATCH_LIMIT, |s.rows|)
  {
    UnmarkedTail(s.rows, m);
    var end, last := Min(m + BATCH_LIMIT, |s.rows|), Reach(s.rows, m, fate);
    SliceOfSlice(s.rows, m, end, last);
    SliceOfSlice(s.rows, m, |s.rows|, end);
    var batch := s.rows[m..end];
    assert Batch(s.rows) == batch;
    assert last == end ==> batch[..last - m] == batch;
  }

  /** What has been seen after a drain. */
  lemma DrainSees(rows: seq<OutboxRow>, log: seq<Record>, k: nat, m: nat, last: nat)
    requires Ordered(rows) && m <= k <= |rows| && m <= last <= |rows| && Firsts(log) == Frames(rows[..k])
    ensures Firsts(log + Frames(rows[m..last])) == Frames(rows[..Max(k, last)])
  {
    var frames, after := Frames(rows), log + Frames(rows[m..last]);
    OrderedDistinct(rows);
    FramesSlice(rows, m, last);
    FramesSlice(rows, 0, k);
    FramesSlice(rows, 0, Max(k, last));
    assert after[..|log|] == log;
    Publish(frames, after, |log|, k, m, last);
  }

  lemma DrainKeeps(s: State, m: nat, k: nat, fate: Fate) returns (m': nat, k': nat)
    requires Shape(s, m, k)
    ensures Shape(Drained(s, fate), m', k') && m <= m' && k <= k'
    ensures Completes(Batch(s.rows), fate) ==> m' == k' == Min(m + BATCH_LIMIT, |s.rows|)
  {
    var last := Reach(s.rows, m, fate);
    DrainIs(s, m, fate);
    DrainSees(s.rows, s.log, k, m, last);
    k' := Max(k, last);
    if Completes(Batch(s.rows), fate) {
      m' := Min(m + BATCH_LIMIT, |s.rows|);
      MarkBatch(s.rows, m, m');
      SameFrames(s.rows, Drained(s, fate).rows, k');
    } else {
      m' := m;
    }
  }

  lemma SameFrames(rows: seq<OutboxRow>, rows': seq<OutboxRow>, k: nat)
    requires |rows| == |rows'| && k <= |rows| && forall i :: 0 <= i < |rows| ==> Framed(rows'[i]) == Framed(rows[i])
    ensures Frames(rows'[..k]) == Frames(rows[..k])
  {
  }

  lemma MarkBatch(rows: seq<OutboxRow>, m: nat, end: nat)
    requires Ordered(rows) && MarkedUpTo(rows, m) && m <= end <= |rows|
    ensures var marked := Mark(rows, Ids(rows[m..end]));
            && Ordered(marked) && MarkedUpTo(marked, end)
            && forall i :: 0 <= i < |rows| ==> Framed(marked[i]) == Framed(rows[i])
  {
    var ids := Ids(rows[m..end]);
    forall i | 0 <= i < |rows| ensures rows[i].id in ids <==> m <= i < end {
      if m <= i < end {
        assert ids[i - m] == rows[i].id;
      }
    }
  }

  lemma NextKeeps(s: State, m: nat, k: nat, e: Event) returns (m': nat, k': nat)
    requires Shape(s, m, k)
    ensures Shape(Next(s, e), m', k') && m <= m' && k <= k'
  {
    if e.Tick? {
      m', k' := DrainKeeps(s, m, k, e.fate);
    } else {
      m', k' := m, k;
      assert Next(s, e).rows[..k] == s.rows[..k];
    }
  }

  lemma {:induction false} RunKeeps(events: seq<Event>) returns (m: nat, k: nat)
    ensures Shape(Run(State([], []), events), m, k)
    decreases |events|
  {
    if events == [] {
      m, k := 0, 0;
    } else {
      m, k := RunKeeps(events[..|events| - 1]);
      m, k := NextKeeps(Run(State([], []), events[..|events| - 1]), m, k, events[|events| - 1]);
    }
  }

  /**
   * At least once and in order, over any run with failures anywhere in any drain: what consumers
   * see for the first time is the outbox from its beginning, in id order and without gaps; no row
   * is marked that has not been published; and at most one batch is published but not yet marked.
   */
  lemma AtLeastOnceInOrder(events: seq<Event>)
    ensures var s := Run(State([], []), events);
            var marked, seen := |s.rows| - |Unmarked(s.rows)|, |Firsts(s.log)|;
            && marked >= 0 && MarkedUpTo(s.rows, marked)
            && seen <= |s.rows| && Firsts(s.log) == Frames(s.rows[..seen])
            && marked <= seen <= marked + 50
  {
    var m, _ := RunKeeps(events);
    UnmarkedTail(Run(State([], []), events).rows, m);
  }

  /** No record is invented: the log holds nothing but rows of the outbox, and every marked one. */
  lemma NothingLostNothingInvented(events: seq<Event>, i: nat)
    ensures var s := Run(State([], []), events);
            && (i < |s.rows| && s.rows[i].processed ==> Framed(s.rows[i]) in s.log)
            && (i < |s.log| ==> exists r :: r in s.rows && s.log[i] == Framed(r))
  {
    var s := Run(State([], []), events);
    var m, k := RunKeeps(events);
    FirstsHasAll(s.log);
    if i < |s.rows| && s.rows[i].processed {
      FramesOrdered(s.rows, i, k);
    }
    if i < |s.log| {
      assert s.log[i] in Frames(s.rows[..k]);
      var j :| 0 <= j < k && Frames(s.rows[..k])[j] == s.log[i];
      assert s.rows[j] in s.rows;
    }
  }

  lemma {:induction false} FirstsHasAll(log: seq<Record>)
    ensures forall r :: r in log <==> r in Firsts(log)
    decreases |log|
  {
    if log != [] {
      FirstsHasAll(log[..|log| - 1]);
      assert log == log[..|log| - 1] + [log[|log| - 1]];
    }
  }

  const SMOOTH := Fate(BATCH_LIMIT, false, true)

  /** Drains that nothing disturbs, one after another. */
  function Undisturbed(s: State, drains: nat): State
    decreases drains
  {
    if drains == 0 then s else Undisturbed(Drained(s, SMOOTH), drains - 1)
  }

  lemma SmoothDrain(s: State, m: nat, k: nat) returns (m': nat)
    requires Shape(s, m, k)
    ensures Shape(Drained(s, SMOOTH), m', m') && m' == Min(m + BATCH_LIMIT, |s.rows|)
    ensures |Drained(s, SMOOTH).rows| == |s.rows|
  {
    var k';
    m', k' := DrainKeeps(s, m, k, SMOOTH);
  }

  lemma {:induction false} UndisturbedMarks(s: State, m: nat, k: nat, drains: nat)
    requires Shape(s, m, k) && |s.rows| <= m + drains * BATCH_LIMIT && (drains == 0 ==> k == m)
    ensures var s' := Undisturbed(s, drains); |s'.rows| == |s.rows| && Shape(s', |s.rows|, |s.rows|)
    decreases drains
  {
    if drains == 0 {
      assert m == |s.rows|;
    } else {
      var m' := SmoothDrain(s, m, k);
      assert |s.rows| <= m' + (drains - 1) * BATCH_LIMIT;
      UndisturbedMarks(Drained(s, SMOOTH), m', m', drains - 1);
    }
  }

  /** Whatever went wrong before, enough undisturbed drains publish and mark the whole outbox. */
  lemma EverythingIsDelivered(events: seq<Event>, drains: nat)
    requires 0 < drains && |Unmarked(Run(State([], []), events).rows)| <= drains * 50
    ensures var s, s' := Run(State([], []), events), Undisturbed(Run(State([], []), events), drains);
            && |s'.rows| == |s.rows|
            && MarkedUpTo(s'.rows, |s.rows|)
            && SeenUpTo(s', |s.rows|)
  {
    var m, k := RunKeeps(events);
    UnmarkedTail(Run(State([], []), events).rows, m);
    UndisturbedMarks(Run(State([], []), events), m, k, drains);
  }
}
