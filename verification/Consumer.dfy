/**
 * The consumer of gateway completions: the effect on the saga first, the mark second, bounded
 * retries, a dead-letter topic, and a batch that is committed only if every record is settled.
 */
module Consumer {
  import opened Wrappers
  import opened Payments
  import opened Driver
  import opened Attempts
  import Outcomes
  import Entries
  import Redelivery
  import E = Engine

  const MAX_ATTEMPTS := 3

  /** A record: whether its schema and frame hold, and its fields where they parse. */
  datatype Message = Message(valid: bool, eventId: Option<string>, paymentId: Option<string>, outcome: string)

  /**
   * The world during one attempt: whether the schema registry answers before the consumer is
   * stopped, and whether the statements on processed_events succeed.
   */
  datatype Io = Io(registry: bool, readable: bool, markable: bool)

  datatype Handled = Processed | Errored | Poison

  predicate Unreadable(m: Message) {
    !m.valid || m.eventId.None? || m.paymentId.None?
  }

  predicate Known(m: Message, processed: set<string>) {
    m.eventId.Some? && m.eventId.value in processed
  }

  /** Everything the attempt needs answers. */
  predicate Healthy(io: Io) {
    io.registry && io.readable && io.markable
  }

  /** A readable event with an outcome for one of these payments, and some attempt with everything up. */
  predicate Clear(m: Message, ios: seq<Io>, payments: set<string>) {
    && !Unreadable(m) && m.outcome != "" && m.paymentId.value in payments
    && exists i :: 0 <= i < |ios| && Healthy(ios[i])
  }

  /** No payment but the event's is touched. */
  predicate Others(m: Message, was: map<string, E.Entry>, table: map<string, E.Entry>) {
    && was.Keys == table.Keys
    && forall id :: id in table && Some(id) != m.paymentId ==> id in was && table[id] == was[id]
  }

  /** Its payment exists, and neither the load nor the write of an approval it was waiting for is cut. */
  predicate Accepted(m: Message, table: map<string, E.Entry>, faults: seq<Fault>) {
    && m.paymentId.Some? && m.paymentId.value in table
    && !Redelivery.CutAt(faults, 0)
    && (m.outcome == "approved" && Redelivery.Acts(table[m.paymentId.value].core) ==> !Redelivery.CutAt(faults, 1))
  }

  /** What at most n deliveries of an approval, each perhaps cut or unmarked, make of the payment and the mark. */
  ghost predicate Delivered(t: Terms, ans: Answers, x: Redelivery.Inbox, y: Redelivery.Inbox, n: nat) {
    exists ds: seq<Redelivery.Delivery> :: |ds| <= n && Redelivery.HandleAll(t, ans, x, ds) == y
  }

  lemma DeliveredMore(t: Terms, ans: Answers, x: Redelivery.Inbox, y: Redelivery.Inbox, n: nat, d: Redelivery.Delivery)
    requires Delivered(t, ans, x, y, n)
    ensures Delivered(t, ans, x, Redelivery.Handle(t, ans, y, d), n + 1)
    ensures Delivered(t, ans, x, y, n + 1)
  {
    var ds :| |ds| <= n && Redelivery.HandleAll(t, ans, x, ds) == y;
    Redelivery.HandleOneMore(t, ans, x, ds, d);
    assert |ds + [d]| <= n + 1;
  }

  /** A decline has left the row and its events as they were, or has failed a payment at the gateway. */
  predicate AfterDecline(c: Core, c': Core) {
    || (c'.row == c.row && c'.outbox == c.outbox)
    || (&& Redelivery.Acts(c)
        && c'.row.status == Failed && c'.row.failureCode == Some(GatewayDeclined)
        && c'.outbox == c.outbox + [PaymentFailed(GatewayDeclined)])
  }

  lemma DeclineDeclines(t: Terms, ans: Answers, c: Core, faults: seq<Fault>)
    ensures AfterDecline(c, Drive(t, ans, c, CompletionLoad(false), faults))
  {
    Entries.DeclineIsAllOrNothing(t, ans, c, faults);
    Entries.DeclineCompensates(t, ans, c);
  }

  /**
   * What one attempt makes of the payment and the mark: an approval is one delivery, marked if the mark can
   * be written, unless the attempt ends before its effect.
   */
  predicate Attempted(t: Terms, ans: Answers, m: Message, io: Io, faults: seq<Fault>,
                      y: Redelivery.Inbox, y': Redelivery.Inbox)
  {
    if m.outcome != "approved" then AfterDecline(y.c, y'.c)
    else if io.registry && !Unreadable(m) && io.readable then
      y' == Redelivery.Handle(t, ans, y, if io.markable then Redelivery.Returns(faults) else Redelivery.Dies(faults))
    else y' == y
  }

  /** Where the payment of an event that found it at x may stand after at most n attempts. */
  ghost predicate Result(t: Terms, ans: Answers, m: Message, x: Redelivery.Inbox, y: Redelivery.Inbox, n: nat) {
    if m.outcome == "approved" then Delivered(t, ans, x, y, n) else AfterDecline(x.c, y.c)
  }

  lemma ResultBefore(t: Terms, ans: Answers, m: Message, x: Redelivery.Inbox)
    ensures Result(t, ans, m, x, x, 0)
  {
    assert Redelivery.HandleAll(t, ans, x, []) == x;
  }

  lemma ResultAfter(t: Terms, ans: Answers, m: Message, io: Io, faults: seq<Fault>,
                    x: Redelivery.Inbox, y: Redelivery.Inbox, y': Redelivery.Inbox, n: nat)
    requires Result(t, ans, m, x, y, n) && Attempted(t, ans, m, io, faults, y, y')
    ensures Result(t, ans, m, x, y', n + 1)
  {
    if m.outcome == "approved" {
      DeliveredMore(t, ans, x, y, n, if io.markable then Redelivery.Returns(faults) else Redelivery.Dies(faults));
    }
  }

  class Consumer {
    const engine: E.Engine
    var processed: set<string>
    var deadLetters: seq<Message>

    constructor (engine: E.Engine)
      ensures this.engine == engine && processed == {} && deadLetters == []
    {
      this.engine := engine;
      processed, deadLetters := {}, [];
    }

    /** The completion has had its effect on its payment, up to any cut, and on no other. */
    ghost predicate Applied(m: Message, was: map<string, E.Entry>, faults: seq<Fault>)
      reads this, engine
      requires engine.Valid()
    {
      && m.paymentId.Some? && m.paymentId.value in was && m.paymentId.value in engine.table
      && var id := m.paymentId.value;
         && E.Only(was, engine.table, id, engine.now)
         && engine.table[id].core ==
              Drive(engine.terms[id], engine.ans[id], was[id].core, CompletionLoad(m.outcome == "approved"), faults)
    }

    /** The event names a payment that exists. */
    predicate Concerns(m: Message)
      reads this, engine
    {
      m.paymentId.Some? && m.paymentId.value in engine.table
    }

    /** The payment of an event and whether the event is marked, as the redelivery laws see them. */
    ghost function Inbox(m: Message): Redelivery.Inbox
      reads this, engine
      requires Concerns(m)
    {
      Redelivery.Inbox(engine.table[m.paymentId.value].core, Known(m, processed))
    }

    /**
     * One attempt at a record. Whatever happens, no other payment is touched; a known event is not
     * applied again; and a new approval is marked only once its payment has the reference for good.
     */
    method Handle(m: Message, io: Io) returns (r: Handled)
      requires engine.Valid()
      modifies this`processed, engine`table, engine`faults
      ensures engine.Valid() && Concerns(m) == old(Concerns(m))
      ensures r.Processed? ==> m.eventId.Some? && m.paymentId.Some?
      ensures processed == if r.Processed? then old(processed) + {m.eventId.value} else old(processed)
      ensures r.Poison? <==>
                && io.registry
                && (|| !m.valid || m.eventId.None? || m.paymentId.None?
                    || (io.readable && !Known(m, old(processed)) && m.outcome == ""))
      ensures r.Processed? <==>
                && io.registry && !Unreadable(m) && io.readable
                && (|| Known(m, old(processed))
                    || (m.outcome != "" && io.markable && Accepted(m, old(engine.table), old(engine.faults))))
      ensures old(engine.faults) == [] ==> engine.faults == []
      ensures r.Poison? || Unreadable(m) || Known(m, old(processed)) ==> engine.table == old(engine.table)
      ensures engine.table == old(engine.table) || Applied(m, old(engine.table), old(engine.faults))
      ensures r.Processed? && !Known(m, old(processed)) ==> Applied(m, old(engine.table), old(engine.faults))
      ensures r.Processed? && !Known(m, old(processed)) && m.outcome == "approved" ==>
                var id := m.paymentId.value;
                id in old(engine.table) &&
                (Redelivery.Acts(old(engine.table[id].core)) ==>
                    Redelivery.Referenced(engine.terms[id], engine.table[id].core))
      ensures Concerns(m) ==>
                var id := m.paymentId.value;
                Attempted(engine.terms[id], engine.ans[id], m, io, old(engine.faults), old(Inbox(m)), Inbox(m))
      ensures r.Processed? && !Known(m, old(processed)) && m.outcome != "approved" && old(engine.faults) == [] ==>
                var id, c := m.paymentId.value, old(engine.table)[m.paymentId.value].core;
                engine.table[id].core ==
                  if Redelivery.Acts(c) then Outcomes.Failing(engine.ans[id], c, GatewayDeclined) else c
    {
      if !io.registry {
        return Errored;
      }
      if Unreadable(m) {
        return Poison;
      }
      if !io.readable {
        return Errored;
      }
      if m.eventId.value in processed {
        return Processed;
      }
      if m.outcome == "" {
        return Poison;
      }
      ghost var id := m.paymentId.value;
      if id in engine.table && m.outcome != "approved" {
        DeclineDeclines(engine.terms[id], engine.ans[id], engine.table[id].core, engine.faults);
      }
      var failed := engine.CompleteFromGateway(m.paymentId.value, m.outcome == "approved");
      if failed || !io.markable {
        return Errored;
      }
      processed := processed + {m.eventId.value};
      return Processed;
    }

    /** Handle, as far as it matters to the attempts around it. */
    method Attempt(m: Message, io: Io) returns (r: Handled)
      requires engine.Valid()
      modifies this`processed, engine`table, engine`faults
      ensures engine.Valid() && Concerns(m) == old(Concerns(m))
      ensures r.Processed? ==> m.eventId.Some? && !Unreadable(m)
      ensures processed == if r.Processed? then old(processed) + {m.eventId.value} else old(processed)
      ensures !Unreadable(m) && m.outcome != "" ==> !r.Poison?
      ensures old(engine.faults) == [] && !Unreadable(m) && m.outcome != "" && Concerns(m) && Healthy(io) ==>
                r.Processed?
      ensures old(engine.faults) == [] ==> engine.faults == []
      ensures Unreadable(m) || Known(m, old(processed)) ==> engine.table == old(engine.table)
      ensures Others(m, old(engine.table), engine.table)
      ensures Concerns(m) ==>
                var id := m.paymentId.value;
                Attempted(engine.terms[id], engine.ans[id], m, io, old(engine.faults), old(Inbox(m)), Inbox(m))
    {
      r := Handle(m, io);
    }

    method DeadLetter(m: Message, up: bool) returns (settled: bool)
      modifies this`deadLetters
      ensures settled == up
      ensures deadLetters == if up then old(deadLetters) + [m] else old(deadLetters)
    {
      if up {
        deadLetters := deadLetters + [m];
      }
      return up;
    }

    /**
     * Three attempts. Settled means processed or dead-lettered; only a failing dead-letter topic leaves the
     * record unsettled. One attempt with everything up is enough, a record that cannot be read is never
     * retried into effect, and the payment ends as some deliveries of the event leave it.
     */
    method HandleWithRetry(m: Message, ios: seq<Io>, dlqUp: bool) returns (settled: bool)
      requires engine.Valid() && |ios| == 3
      modifies this`processed, this`deadLetters, engine`table, engine`faults
      ensures engine.Valid()
      ensures settled ==> Known(m, processed) || deadLetters == old(deadLetters) + [m]
      ensures !settled ==> !dlqUp && processed == old(processed)
      ensures deadLetters == old(deadLetters) || deadLetters == old(deadLetters) + [m]
      ensures processed == old(processed) || (m.eventId.Some? && processed == old(processed) + {m.eventId.value})
      ensures Others(m, old(engine.table), engine.table)
      ensures deadLetters == old(deadLetters) || processed == old(processed)
      ensures old(engine.faults) == [] ==> engine.faults == []
      ensures Unreadable(m) ==> processed == old(processed) && settled == dlqUp
      ensures Unreadable(m) || Known(m, old(processed)) ==> engine.table == old(engine.table)
      ensures old(engine.faults) == [] && Clear(m, ios, engine.terms.Keys) ==>
                settled && Known(m, processed) && deadLetters == old(deadLetters)
      ensures Concerns(m) == old(Concerns(m))
      ensures Concerns(m) ==>
                var id := m.paymentId.value;
                Result(engine.terms[id], engine.ans[id], m, old(Inbox(m)), Inbox(m), 3)
    {
      if Concerns(m) {
        ghost var id := m.paymentId.value;
        ResultBefore(engine.terms[id], engine.ans[id], m, Inbox(m));
      }
      for i := 0 to MAX_ATTEMPTS
        invariant engine.Valid() && processed == old(processed) && deadLetters == old(deadLetters)
        invariant old(engine.faults) == [] ==> engine.faults == []
        invariant Unreadable(m) || Known(m, processed) ==> engine.table == old(engine.table)
        invariant Concerns(m) == old(Concerns(m))
        invariant Concerns(m) ==>
                    var id := m.paymentId.value;
                    Result(engine.terms[id], engine.ans[id], m, old(Inbox(m)), Inbox(m), i)
        invariant old(engine.faults) == [] && Clear(m, ios, engine.terms.Keys) ==>
                    forall j :: 0 <= j < i ==> !Healthy(ios[j])
        invariant Others(m, old(engine.table), engine.table)
      {
        label before:
        var r := Attempt(m, ios[i]);
        if Concerns(m) {
          ghost var id := m.paymentId.value;
          ResultAfter(engine.terms[id], engine.ans[id], m, ios[i], old@before(engine.faults),
                      old(Inbox(m)), old@before(Inbox(m)), Inbox(m), i);
        }
        if r.Processed? {
          return true;
        }
        if r.Poison? {
          settled := DeadLetter(m, dlqUp);
          return;
        }
      }
      settled := DeadLetter(m, dlqUp);
    }

    /** The record may be left unsettled: its dead-letter topic is down, and something else stood in its way. */
    predicate HeldUp(i: nat, batch: seq<Message>, ios: seq<seq<Io>>, dlqUp: seq<bool>, faults: seq<Fault>)
      requires i < |batch| == |ios| == |dlqUp|
    {
      !dlqUp[i] && !(faults == [] && Clear(batch[i], ios[i], engine.terms.Keys))
    }

    /**
     * One fetched batch, handled to its end whatever becomes of a record on the way. Its offsets are
     * committed only if every record of it is processed or safely dead-lettered, so no event is passed over,
     * and they are held back only for a record that was neither; nothing but its events is marked.
     */
    method HandleBatch(batch: seq<Message>, ios: seq<seq<Io>>, dlqUp: seq<bool>) returns (commit: bool)
      requires engine.Valid() && |ios| == |dlqUp| == |batch|
      requires forall i :: 0 <= i < |ios| ==> |ios[i]| == 3
      modifies this`processed, this`deadLetters, engine`table, engine`faults
      ensures engine.Valid()
      ensures old(processed) <= processed && old(deadLetters) <= deadLetters
      ensures !commit ==> exists i :: 0 <= i < |batch| && HeldUp(i, batch, ios, dlqUp, old(engine.faults))
      ensures forall i :: 0 <= i < |batch| && !HeldUp(i, batch, ios, dlqUp, old(engine.faults)) ==>
                Known(batch[i], processed) || batch[i] in deadLetters[|old(deadLetters)|..]
      ensures forall i :: 0 <= i < |batch| && old(engine.faults) == [] && Clear(batch[i], ios[i], engine.terms.Keys) ==>
                Known(batch[i], processed)
      ensures commit ==> forall m :: m in batch ==> Known(m, processed) || m in deadLetters[|old(deadLetters)|..]
      ensures forall e :: e in processed ==> e in old(processed) || exists m :: m in batch && m.eventId == Some(e)
      ensures forall m :: m in deadLetters[|old(deadLetters)|..] ==> m in batch
    {
      commit := true;
      ghost var added: seq<Message> := [];
      for i := 0 to |batch|
        invariant engine.Valid()
        invariant old(processed) <= processed && deadLetters == old(deadLetters) + added
        invariant old(engine.faults) == [] ==> engine.faults == []
        invariant !commit ==> exists j :: 0 <= j < i && HeldUp(j, batch, ios, dlqUp, old(engine.faults))
        invariant forall j :: 0 <= j < i && (commit || !HeldUp(j, batch, ios, dlqUp, old(engine.faults))) ==>
                    Known(batch[j], processed) || batch[j] in added
        invariant forall j :: 0 <= j < i && old(engine.faults) == [] && Clear(batch[j], ios[j], engine.terms.Keys) ==>
                    Known(batch[j], processed)
        invariant forall e :: e in processed ==> e in old(processed) || exists m :: m in batch && m.eventId == Some(e)
        invariant forall m :: m in added ==> m in batch
      {
        assert batch[i] in batch;
        ghost var before := deadLetters;
        var settled := HandleWithRetry(batch[i], ios[i], dlqUp[i]);
        added := added + if deadLetters == before then [] else [batch[i]];
        if !settled {
          assert HeldUp(i, batch, ios, dlqUp, old(engine.faults));
          commit := false;
        }
      }
      assert deadLetters[|old(deadLetters)|..] == added;
    }
  }
}
