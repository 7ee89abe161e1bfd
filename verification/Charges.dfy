/**
 * One idempotency key down to the money: the requests that carry the key, the payments their
 * executions insert, and what the engine makes of these among all others.
 */
module Charges {
  import opened Wrappers
  import opened Payments
  import A = AccountService
  import K = IdempotencyProtocol
  import W = World
  import I = Interleaved
  import Idempotency

  /** The key's record and requests, the world of payments, and the payments inserted under the key. */
  datatype System = System(k: K.State, w: W.World, inserted: seq<string>)

  datatype Action =
    | Key(a: K.Action, t: Terms)   // the payment an execution would insert
    | Engine(x: W.Action)

  predicate Inserts(k: K.State, a: K.Action) {
    a.Go? && a.who in k.requests && k.requests[a.who].Executing? && a.inserted
  }

  /** A new payment has an id and a reference of its own. */
  predicate Insertable(w: W.World, t: Terms) {
    t.id !in w.sagas && t.amount > 0 && W.NewReference(w, t.pspRef)
  }

  function Next(s: System, a: Action): System {
    match a
    case Engine(x) => s.(w := W.Next(s.w, x))
    case Key(x, t) =>
      if !Inserts(s.k, x) then s.(k := K.Next(s.k, x))
      else if Insertable(s.w, t) then
        System(K.Next(s.k, x), W.Next(s.w, W.Create(t)), s.inserted + [t.id])
      else s
  }

  function Run(s: System, acts: seq<Action>): System
    decreases |acts|
  {
    if acts == [] then s else Run(Next(s, acts[0]), acts[1..])
  }

  function Opening(available: map<string, nat>): System {
    System(K.INITIAL, W.Opening(available), [])
  }

  /** No execution under the key outlives its lease, and none dies. */
  predicate Prompt(s: System, acts: seq<Action>)
    decreases |acts|
  {
    && K.Punctual(s.k)
    && (acts != [] ==> (acts[0].Key? ==> !K.Kills(s.k, acts[0].a)) && Prompt(Next(s, acts[0]), acts[1..]))
  }

  /** As many payments as the protocol counts, each of them in the world. */
  ghost predicate Counted(s: System) {
    && |s.inserted| == s.k.payments
    && forall id :: id in s.inserted ==> id in s.w.sagas
  }

  ghost predicate Inv(s: System) {
    K.Inv(s.k) && W.Inv(s.w) && Counted(s)
  }

  lemma CreateKeeps(w: W.World, t: Terms)
    requires W.Inv(w) && Insertable(w, t)
    ensures var w' := W.Next(w, W.Create(t)); W.Inv(w') && w'.sagas.Keys == w.sagas.Keys + {t.id}
  {
    W.NextKeeps(w, W.Create(t));
  }

  lemma PaymentsCount(k: K.State, a: K.Action)
    ensures K.Next(k, a).payments == k.payments + if Inserts(k, a) then 1 else 0
  {
  }

  lemma InsertKeeps(s: System, w: W.World, k: K.State, id: string)
    requires Inv(s) && K.Inv(k) && W.Inv(w) && w.sagas.Keys == s.w.sagas.Keys + {id}
    requires k.payments == s.k.payments + 1
    ensures Inv(System(k, w, s.inserted + [id]))
  {
    forall x | x in s.inserted + [id] ensures x in w.sagas.Keys {
      assert x in s.inserted ==> x in s.w.sagas.Keys;
    }
  }

  lemma KeyKeeps(s: System, x: K.Action, t: Terms)
    requires Inv(s)
    ensures Inv(Next(s, Key(x, t)))
  {
    K.NextKeeps(s.k, x);
    PaymentsCount(s.k, x);
    if Inserts(s.k, x) && Insertable(s.w, t) {
      CreateKeeps(s.w, t);
      InsertKeeps(s, W.Next(s.w, W.Create(t)), K.Next(s.k, x), t.id);
    }
  }

  lemma EngineKeeps(s: System, x: W.Action)
    requires Inv(s)
    ensures Inv(Next(s, Engine(x)))
  {
    W.NextKeeps(s.w, x);
    assert W.Grows(s.w, W.Next(s.w, x));
  }

  lemma {:induction false} RunKeeps(s: System, acts: seq<Action>)
    requires Inv(s) && K.OnePayment(s.k) && Prompt(s, acts)
    ensures Inv(Run(s, acts)) && K.OnePayment(Run(s, acts).k)
    decreases |acts|
  {
    if acts != [] {
      match acts[0]
      case Engine(x) =>
        EngineKeeps(s, x);
        RunKeeps(Next(s, acts[0]), acts[1..]);
      case Key(x, t) =>
        KeyKeeps(s, x, t);
        K.OnePaymentStep(s.k, x);
        RunKeeps(Next(s, acts[0]), acts[1..]);
    }
  }

  /** The hold is for a payment inserted under the key. */
  predicate ForKey(s: System, h: nat) {
    h < |s.w.bank.holds| && s.w.bank.holds[h].payment in s.inserted
  }

  /** The money the bank has of this hold is what its payment is for. */
  predicate Exact(s: System, h: nat)
    requires ForKey(s, h)
  {
    var hold := s.w.bank.holds[h];
    && hold.payment in s.w.sagas
    && hold.amount == s.w.sagas[hold.payment].t.amount
    && hold.account == s.w.sagas[hold.payment].t.account
  }

  lemma SameHold(s: System, h: nat, i: nat)
    requires W.Inv(s.w) && |s.inserted| <= 1 && ForKey(s, h) && ForKey(s, i)
    ensures h == i && Exact(s, h)
  {
    W.HoldIsExact(s.w, h);
    W.HoldIsExact(s.w, i);
    SamePayment(s.inserted, s.w.bank.holds[h].payment, s.w.bank.holds[i].payment);
  }

  lemma SamePayment(inserted: seq<string>, x: string, y: string)
    requires |inserted| <= 1 && x in inserted && y in inserted
    ensures x == y
  {
  }

  /** At most one hold for what the key inserted, with the amount and on the account of its payment. */
  ghost predicate HeldOnce(s: System) {
    && (forall h: nat, i: nat :: ForKey(s, h) && ForKey(s, i) ==> h == i)
    && (forall h: nat :: ForKey(s, h) ==> Exact(s, h))
  }

  /** And at most one booking, of that hold's amount. */
  predicate BookedOnce(s: System) {
    var booked := s.w.bank.bookings;
    && (forall i, j :: 0 <= i < |booked| && 0 <= j < |booked| ==>
          ForKey(s, booked[i].hold) && ForKey(s, booked[j].hold) ==> i == j)
    && (forall i :: 0 <= i < |booked| && ForKey(s, booked[i].hold) ==>
          booked[i].amount == s.w.bank.holds[booked[i].hold].amount)
  }

  lemma OneBooking(s: System)
    requires W.BookingsOk(s.w.bank) && forall h: nat, i: nat :: ForKey(s, h) && ForKey(s, i) ==> h == i
    ensures BookedOnce(s)
  {
    var booked := s.w.bank.bookings;
    forall i, j | 0 <= i < |booked| && 0 <= j < |booked| && ForKey(s, booked[i].hold) && ForKey(s, booked[j].hold)
      ensures i == j
    {
      assert booked[i].hold == booked[j].hold;
    }
  }

  lemma BankBooksOk(w: W.World)
    requires W.Inv(w)
    ensures W.BookingsOk(w.bank)
  {
  }

  lemma ChargedOnce(s: System)
    requires W.Inv(s.w) && |s.inserted| <= 1
    ensures HeldOnce(s) && BookedOnce(s)
  {
    forall h: nat, i: nat | ForKey(s, h) && ForKey(s, i) ensures h == i {
      SameHold(s, h, i);
    }
    forall h: nat | ForKey(s, h) ensures Exact(s, h) {
      SameHold(s, h, h);
    }
    BankBooksOk(s.w);
    OneBooking(s);
  }

  lemma KeyBegins()
    ensures K.Inv(K.INITIAL) && K.OnePayment(K.INITIAL) && K.INITIAL.payments == 0
  {
  }

  lemma OpeningInv(available: map<string, nat>)
    ensures Inv(Opening(available)) && K.OnePayment(Opening(available).k)
  {
    KeyBegins();
    W.OpeningInv(available);
    var s := Opening(available);
    assert s.k == K.INITIAL && s.w == W.Opening(available) && s.inserted == [];
  }

  /**
   * However often a request is repeated under its key, and whatever the engine's drivers do with the
   * payments of all keys: if the key's executions are prompt and none dies, there is at most one
   * payment inserted under it, and for it at most one hold and at most one booking, for its amount.
   */
  lemma OneChargePerKey(available: map<string, nat>, acts: seq<Action>)
    requires Prompt(Opening(available), acts)
    ensures var s := Run(Opening(available), acts);
            |s.inserted| <= 1 && HeldOnce(s) && BookedOnce(s)
  {
    OpeningInv(available);
    RunKeeps(Opening(available), acts);
    ChargedOnce(Run(Opening(available), acts));
  }

  /** The execution of a new payment inserts it, open and not yet screened, and it alone. */
  lemma InsertionsTakePlace(s: System, who: nat, response: Idempotency.Response, t: Terms)
    requires who in s.k.requests && s.k.requests[who].Executing? && Insertable(s.w, t)
    ensures var q, s' := s.k.requests[who], Next(s, Key(K.Go(who, true, response), t));
            && s'.inserted == s.inserted + [t.id]
            && s'.w == s.w.(sagas := s.w.sagas[t.id := I.Initial(t, s.w.now)])
            && s'.k == s.k.(requests := s.k.requests[who := K.Responding(q.hash, q.at, response)],
                            payments := s.k.payments + 1)
  {
  }

  /** And the one payment there may be can be had: the bound is reached without anybody being late or dying. */
  lemma OneChargeHappens(available: map<string, nat>, t: Terms, hash: string, response: Idempotency.Response)
    requires t.amount > 0
    ensures exists acts :: Prompt(Opening(available), acts) && Run(Opening(available), acts).inserted == [t.id]
  {
    var go := Key(K.Go(0, true, response), t);
    var acts := [Key(K.Arrive(0, hash), t), go, go];
    var s0 := Opening(available);
    var s1 := Next(s0, acts[0]);
    assert !K.Granted(K.INITIAL, 0);
    assert s1.k.requests == map[0 := K.Arriving(hash)];
    var s2 := Next(s1, go);
    assert s2.k.requests == map[0 := K.Executing(hash, 0)];
    var s3 := Next(s2, go);
    assert s3.inserted == [t.id];
    Unrolled(s0, acts, s1, s2, s3);
    assert Run(s0, acts).inserted == [t.id];
  }

  lemma Unrolled(s0: System, acts: seq<Action>, s1: System, s2: System, s3: System)
    requires |acts| == 3 && s1 == Next(s0, acts[0]) && s2 == Next(s1, acts[1]) && s3 == Next(s2, acts[2])
    requires K.Punctual(s0.k) && K.Punctual(s1.k) && K.Punctual(s2.k) && K.Punctual(s3.k)
    requires forall a :: a in acts && a.Key? ==> !a.a.Die?
    ensures Run(s0, acts) == s3 && Prompt(s0, acts)
  {
    var tail := acts[1..];
    var last := tail[1..];
    assert tail[0] == acts[1] && last == [acts[2]] && last[1..] == [];
    assert acts[0] in acts && acts[1] in acts && acts[2] in acts;
    assert Run(s2, last) == Run(s3, []) && Prompt(s3, []);
    assert Prompt(s2, last);
    assert Run(s1, tail) == Run(s2, last) && Prompt(s1, tail);
  }
}
