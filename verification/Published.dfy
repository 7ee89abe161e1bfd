/**
 * The engine's events as subscribers see them: every event a payment writes goes through one outbox
 * shared by all payments and one relay that may fail anywhere.
 */
module Published {
  import opened Wrappers
  import opened Payments
  import opened Driver
  import I = Interleaved
  import R = Relay
  import W = World

  /** All payments, and the outbox table with what the broker has of it. */
  datatype System = System(w: W.World, r: R.State)

  datatype Action = Engine(a: W.Action, gap: nat) | Drain(fate: R.Fate)

  const REQUESTED := "payments.payment.requested.v1"
  const AUTHORIZED := "payments.payment.authorized.v1"
  const CAPTURED := "payments.payment.captured.v1"
  const FAILED := "payments.payment.failed.v1"

  function Topic(e: Event): (topic: string)
    ensures topic == REQUESTED <==> e.PaymentRequested?
    ensures topic == CAPTURED <==> e.PaymentCaptured?
    ensures topic == FAILED <==> e.PaymentFailed?
  {
    assert |REQUESTED| == 29 && |AUTHORIZED| == 30 && |CAPTURED| == 28 && |FAILED| == 26;
    match e
    case PaymentRequested => REQUESTED
    case PaymentAuthorized(_, _) => AUTHORIZED
    case PaymentCaptured(_, _) => CAPTURED
    case PaymentFailed(_) => FAILED
  }

  function Payload(e: Event): string {
    match e
    case PaymentRequested => ""
    case PaymentAuthorized(_, reference) => reference
    case PaymentCaptured(_, reference) => if reference.Some? then reference.value else ""
    case PaymentFailed(code) =>
      match code
      case FraudDenied => "fraud_denied"
      case InsufficientFunds => "insufficient_funds"
      case GatewayDeclined => "gateway_declined"
      case GatewayUnavailable => "gateway_unavailable"
      case GatewayCaptureFailed => "gateway_capture_failed"
      case StepUpExpired => "step_up_expired"
  }

  /** The failure a subscriber reads from the payload of a failed event. */
  function CodeOf(text: string): Option<FailureCode> {
    if text == "fraud_denied" then Some(FraudDenied)
    else if text == "insufficient_funds" then Some(InsufficientFunds)
    else if text == "gateway_declined" then Some(GatewayDeclined)
    else if text == "gateway_unavailable" then Some(GatewayUnavailable)
    else if text == "gateway_capture_failed" then Some(GatewayCaptureFailed)
    else if text == "step_up_expired" then Some(StepUpExpired)
    else None
  }

  /**
   * A record says which event it is and, by itself, all that the event says but the hold: a failure's code
   * can be read back from its text, and the reference is carried as it is.
   */
  lemma RecordTellsEvent(e: Event)
    ensures Topic(e) == "payments.payment.requested.v1" <==> e.PaymentRequested?
    ensures Topic(e) == "payments.payment.authorized.v1" <==> e.PaymentAuthorized?
    ensures Topic(e) == "payments.payment.captured.v1" <==> e.PaymentCaptured?
    ensures Topic(e) == "payments.payment.failed.v1" <==> e.PaymentFailed?
    ensures e.PaymentFailed? ==> CodeOf(Payload(e)) == Some(e.code)
    ensures forall hold, reference :: e == PaymentAuthorized(hold, reference) ==> Payload(e) == reference
    ensures forall hold, reference :: e == PaymentCaptured(hold, Some(reference)) ==> Payload(e) == reference
  {
    assert |REQUESTED| == 29 && |AUTHORIZED| == 30 && |CAPTURED| == 28 && |FAILED| == 26;
    assert |"fraud_denied"| == 12 && |"insufficient_funds"| == 18 && |"gateway_declined"| == 16;
    assert |"gateway_unavailable"| == 19 && |"gateway_capture_failed"| == 22 && |"step_up_expired"| == 15;
  }

  function Outbox(w: W.World, id: string): seq<Event> {
    if id in w.sagas then w.sagas[id].c.outbox else []
  }

  /** The payment an action is about. */
  function Subject(a: W.Action): string {
    match a
    case Tick(_) => ""
    case Create(t) => t.id
    case Act(id, _) => id
  }

  /** The event the action adds to its payment's outbox, if it adds one. */
  function Added(w: W.World, a: W.Action): Option<Event> {
    var before, after := Outbox(w, Subject(a)), Outbox(W.Next(w, a), Subject(a));
    if |after| > |before| then Some(after[|after| - 1]) else None
  }

  function Next(s: System, a: Action): System {
    match a
    case Drain(fate) => s.(r := R.Next(s.r, R.Tick(fate)))
    case Engine(x, gap) =>
      var e := Added(s.w, x);
      // the event is inserted in the transaction of the change
      System(W.Next(s.w, x),
             if e.None? then s.r else R.Next(s.r, R.Insert(Topic(e.value), Subject(x), Payload(e.value), gap)))
  }

  function Run(s: System, acts: seq<Action>): System
    decreases |acts|
  {
    if acts == [] then s else Run(Next(s, acts[0]), acts[1..])
  }

  function Opening(available: map<string, nat>): System {
    System(W.Opening(available), R.State([], []))
  }

  /** The records of one payment, in their order. */
  function Keyed(log: seq<R.Record>, id: string): seq<R.Record> {
    if log == [] then []
    else
      var front, last := Keyed(log[..|log| - 1], id), log[|log| - 1];
      if last.key == id then front + [last] else front
  }

  lemma {:induction false} KeyedPrefix(log: seq<R.Record>, n: nat, id: string)
    requires n <= |log|
    ensures Keyed(log[..n], id) <= Keyed(log, id)
    decreases |log|
  {
    if n < |log| {
      assert log[..|log| - 1][..n] == log[..n];
      KeyedPrefix(log[..|log| - 1], n, id);
    } else {
      assert log[..n] == log;
    }
  }

  /** These records say what these events say. */
  predicate Tells(records: seq<R.Record>, events: seq<Event>) {
    && |records| == |events|
    && forall i :: 0 <= i < |records| ==>
         && records[i].topic == Topic(events[i])
         && records[i].payload == Payload(events[i])
  }

  /** The rows of each payment are its outbox history. */
  ghost predicate Faithful(s: System) {
    forall id :: Tells(Keyed(R.Frames(s.r.rows), id), Outbox(s.w, id))
  }

  lemma FramesSnoc(rows: seq<R.OutboxRow>, row: R.OutboxRow)
    ensures R.Frames(rows + [row]) == R.Frames(rows) + [R.Framed(row)]
  {
  }

  lemma InsertKeyed(r: R.State, topic: string, key: string, payload: string, gap: nat, id: string)
    ensures var r' := R.Next(r, R.Insert(topic, key, payload, gap));
            Keyed(R.Frames(r'.rows), id) == Keyed(R.Frames(r.rows), id) +
              if key == id then [R.Record(topic, key, R.NextId(r.rows, gap), payload)] else []
  {
    var row := R.OutboxRow(R.NextId(r.rows, gap), topic, key, payload, false);
    FramesSnoc(r.rows, row);
    var all := R.Frames(r.rows) + [R.Framed(row)];
    assert all[..|all| - 1] == R.Frames(r.rows);
  }

  /** Draining marks rows; what they carry stays. */
  lemma DrainFrames(r: R.State, fate: R.Fate)
    ensures R.Frames(R.Drained(r, fate).rows) == R.Frames(r.rows)
  {
    var rows, rows' := r.rows, R.Drained(r, fate).rows;
    assert |rows'| == |rows| && forall i :: 0 <= i < |rows| ==> R.Framed(rows'[i]) == R.Framed(rows[i]);
  }

  /** An action adds at most one event, and only to its own payment. */
  lemma OutboxGrows(w: W.World, a: W.Action, id: string)
    ensures var e := Added(w, a);
            Outbox(W.Next(w, a), id) ==
              if id == Subject(a) && e.Some? then Outbox(w, id) + [e.value] else Outbox(w, id)
  {
    match a
    case Tick(_) =>
    case Create(t) =>
    case Act(x, act) =>
      if x in w.sagas {
        SagaOutboxGrows(w.sagas[x], act, w.now);
      }
  }

  lemma SagaOutboxGrows(s: I.Saga, a: I.Action, now: nat)
    ensures var o, o' := s.c.outbox, I.Next(s, a, now).c.outbox;
            o' == o || (|o'| == |o| + 1 && o' == o + [o'[|o|]])
  {
    if a.Move? && a.w in s.workers && Fits(s.c, s.workers[a.w], a.r) {
      var c' := Exec(s.t, s.c, s.workers[a.w], a.r).0;
      DriverOutboxGrows(s.t, s.c, s.workers[a.w], a.r, c');
    }
  }

  lemma DriverOutboxGrows(t: Terms, c: Core, pc: Pc, r: Reply, c': Core)
    requires Fits(c, pc, r) && c' == Exec(t, c, pc, r).0
    ensures c'.outbox == c.outbox || exists e :: c'.outbox == c.outbox + [e]
  {
  }

  lemma DrainKeeps(s: System, fate: R.Fate)
    requires Faithful(s)
    ensures Faithful(Next(s, Drain(fate)))
  {
    var s' := Next(s, Drain(fate));
    DrainFrames(s.r, fate);
    forall id ensures Tells(Keyed(R.Frames(s'.r.rows), id), Outbox(s'.w, id)) {
      assert Tells(Keyed(R.Frames(s.r.rows), id), Outbox(s.w, id));
    }
  }

  lemma TellsMore(records: seq<R.Record>, events: seq<Event>, r: R.Record, e: Event)
    requires Tells(records, events) && r.topic == Topic(e) && r.payload == Payload(e)
    ensures Tells(records + [r], events + [e])
  {
  }

  lemma EngineKeepsOf(s: System, x: W.Action, gap: nat, id: string)
    requires Tells(Keyed(R.Frames(s.r.rows), id), Outbox(s.w, id))
    ensures var s' := Next(s, Engine(x, gap)); Tells(Keyed(R.Frames(s'.r.rows), id), Outbox(s'.w, id))
  {
    var e := Added(s.w, x);
    OutboxGrows(s.w, x, id);
    if e.Some? {
      InsertKeyed(s.r, Topic(e.value), Subject(x), Payload(e.value), gap, id);
      TellsMore(Keyed(R.Frames(s.r.rows), id), Outbox(s.w, id),
                R.Record(Topic(e.value), Subject(x), R.NextId(s.r.rows, gap), Payload(e.value)), e.value);
    }
  }

  lemma NextKeeps(s: System, a: Action)
    requires Faithful(s)
    ensures Faithful(Next(s, a))
  {
    match a
    case Drain(fate) => DrainKeeps(s, fate);
    case Engine(x, gap) =>
      forall id ensures Tells(Keyed(R.Frames(Next(s, a).r.rows), id), Outbox(Next(s, a).w, id)) {
        EngineKeepsOf(s, x, gap, id);
      }
  }

  /** The relay's side of a run of the system is a run of the relay, the engine's one of the engine. */
  lemma {:induction false} Sides(s: System, acts: seq<Action>, wacts: seq<W.Action>, events: seq<R.Event>, w0: W.World)
    returns (wacts': seq<W.Action>, events': seq<R.Event>)
    requires s.w == W.Run(w0, wacts) && s.r == R.Run(R.State([], []), events) && Faithful(s)
    ensures var s' := Run(s, acts);
            s'.w == W.Run(w0, wacts') && s'.r == R.Run(R.State([], []), events') && Faithful(s')
    decreases |acts|
  {
    if acts == [] {
      wacts', events' := wacts, events;
    } else {
      var a := acts[0];
      NextKeeps(s, a);
      var more := if a.Engine? then wacts + [a.a] else wacts;
      if a.Engine? {
        WorldSnoc(w0, wacts, a.a);
      }
      var e: Option<R.Event> :=
        if a.Drain? then Some(R.Tick(a.fate))
        else
          var added := Added(s.w, a.a);
          if added.None? then None
          else Some(R.Insert(Topic(added.value), Subject(a.a), Payload(added.value), a.gap));
      var evs := if e.Some? then events + [e.value] else events;
      if e.Some? {
        assert evs[..|evs| - 1] == events;
      }
      wacts', events' := Sides(Next(s, a), acts[1..], more, evs, w0);
    }
  }

  lemma {:induction false} WorldSnoc(w: W.World, acts: seq<W.Action>, a: W.Action)
    ensures W.Run(w, acts + [a]) == W.Next(W.Run(w, acts), a)
    decreases |acts|
  {
    if acts == [] {
      assert acts + [a] == [a];
      assert W.Run(w, [a]) == W.Run(W.Next(w, a), []);
    } else {
      assert (acts + [a])[1..] == acts[1..] + [a];
      WorldSnoc(W.Next(w, acts[0]), acts[1..], a);
    }
  }

  lemma OpeningFaithful(available: map<string, nat>)
    ensures Faithful(Opening(available))
  {
    assert R.Frames([]) == [];
  }

  /** The history of a payment as it may be told: the request first and once, an ending last if at all. */
  predicate Told(records: seq<R.Record>, status: Status) {
    forall i :: 0 <= i < |records| ==> ToldAt(records[i], i, |records|, status)
  }

  predicate ToldAt(r: R.Record, i: nat, n: nat, status: Status) {
    && (r.topic == REQUESTED <==> i == 0)
    && (r.topic == CAPTURED ==> i == n - 1 && status == Succeeded)
    && (r.topic == FAILED ==> i == n - 1 && status == Failed)
  }

  lemma EventInHistory(row: Row, outbox: seq<Event>, i: nat)
    requires I.History(row, outbox) && i < |outbox|
    ensures var e := outbox[i];
            && (e.PaymentRequested? <==> i == 0)
            && (e.PaymentCaptured? ==> i == |outbox| - 1 && row.status == Succeeded)
            && (e.PaymentFailed? ==> i == |outbox| - 1 && row.status == Failed)
  {
  }

  lemma HistoryIsTold(row: Row, outbox: seq<Event>, seen: seq<R.Record>)
    requires I.History(row, outbox) && |seen| <= |outbox| && Tells(seen, outbox[..|seen|])
    ensures Told(seen, row.status)
  {
    forall i | 0 <= i < |seen| ensures ToldAt(seen[i], i, |seen|, row.status) {
      EventInHistory(row, outbox, i);
      assert outbox[..|seen|][i] == outbox[i];
    }
  }

  /** What is seen of a payment, from what the relay guarantees of all. */
  lemma SeenIsPrefix(s: System, k: nat, id: string)
    requires k <= |s.r.rows| && R.Firsts(s.r.log) == R.Frames(s.r.rows[..k]) &&
               Tells(Keyed(R.Frames(s.r.rows), id), Outbox(s.w, id))
    ensures var seen := Keyed(R.Firsts(s.r.log), id);
            |seen| <= |Outbox(s.w, id)| && Tells(seen, Outbox(s.w, id)[..|seen|])
  {
    var frames := R.Frames(s.r.rows);
    assert R.Frames(s.r.rows[..k]) == frames[..k];
    KeyedPrefix(frames, k, id);
  }

  /**
   * From the engine through the relay to the broker, with crashes, races and failing drains on the
   * way: without its repetitions, what subscribers receive of a payment is, event by event and in
   * order, a beginning of what the payment has written. So it begins with the request, nothing
   * follows an ending, and they hear of a capture only if the payment has succeeded, and of a
   * failure only if it has failed.
   */
  lemma SubscribersSeeHistory(available: map<string, nat>, acts: seq<Action>, id: string)
    ensures var s := Run(Opening(available), acts);
            var seen := Keyed(R.Firsts(s.r.log), id);
            && |seen| <= |Outbox(s.w, id)|
            && Tells(seen, Outbox(s.w, id)[..|seen|])
            && (seen != [] ==> id in s.w.sagas && Told(seen, s.w.sagas[id].c.row.status))
  {
    var s := Run(Opening(available), acts);
    OpeningFaithful(available);
    var wacts, events := Sides(Opening(available), acts, [], [], W.Opening(available));
    var _, k := R.RunKeeps(events);
    assert Tells(Keyed(R.Frames(s.r.rows), id), Outbox(s.w, id));
    SeenIsPrefix(s, k, id);
    if id in s.w.sagas {
      HistoryHolds(available, wacts, id);
      HistoryIsTold(s.w.sagas[id].c.row, s.w.sagas[id].c.outbox, Keyed(R.Firsts(s.r.log), id));
    }
  }

  lemma HistoryHolds(available: map<string, nat>, acts: seq<W.Action>, id: string)
    requires id in W.Run(W.Opening(available), acts).sagas
    ensures var c := W.Run(W.Opening(available), acts).sagas[id].c; I.History(c.row, c.outbox)
  {
    W.OpeningInv(available);
    W.RunKeeps(W.Opening(available), acts);
    var w := W.Run(W.Opening(available), acts);
    assert W.SagaOk(w.sagas[id], id, w.now);
  }

  lemma {:induction false} DrainsFrames(r: R.State, drains: nat)
    ensures R.Frames(R.Undisturbed(r, drains).rows) == R.Frames(r.rows)
    decreases drains
  {
    if drains > 0 {
      DrainFrames(r, R.SMOOTH);
      DrainsFrames(R.Drained(r, R.SMOOTH), drains - 1);
    }
  }

  /** And once the relay has caught up, they have received all of it. */
  lemma SubscribersSeeAll(available: map<string, nat>, acts: seq<Action>, id: string, drains: nat)
    requires 0 < drains && |R.Unmarked(Run(Opening(available), acts).r.rows)| <= drains * 50
    ensures var s := Run(Opening(available), acts);
            Tells(Keyed(R.Firsts(R.Undisturbed(s.r, drains).log), id), Outbox(s.w, id))
  {
    var s := Run(Opening(available), acts);
    OpeningFaithful(available);
    var _, events := Sides(Opening(available), acts, [], [], W.Opening(available));
    R.EverythingIsDelivered(events, drains);
    DrainsFrames(s.r, drains);
    var r' := R.Undisturbed(s.r, drains);
    assert r'.rows[..|s.r.rows|] == r'.rows;
    assert Tells(Keyed(R.Frames(s.r.rows), id), Outbox(s.w, id));
  }
}
