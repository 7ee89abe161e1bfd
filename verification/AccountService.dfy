/**
 * The account-service as its callers may rely on it: requests keyed by id and replayed under the
 * same id, and a hold that is either captured or released but never both.
 */
module AccountService {
  import opened Payments

  datatype HoldRecord = HoldRecord(account: string, payment: string, amount: nat, state: HoldState)

  datatype Booking = Booking(hold: nat, amount: nat)

  /** What a request id was answered with. */
  datatype Answered = Held(hold: nat) | Booked(hold: nat) | Freed(hold: nat)

  datatype Bank = Bank(available: map<string, nat>, holds: seq<HoldRecord>, bookings: seq<Booking>,
                       answered: map<string, Answered>)

  datatype Response = Ok(hold: nat) | FailedPrecondition

  function Available(b: Bank, account: string): nat {
    if account in b.available then b.available[account] else 0
  }

  function HoldFunds(b: Bank, request: string, account: string, payment: string, amount: nat): (Bank, Response) {
    if request in b.answered then (b, Ok(b.answered[request].hold))
    else if Available(b, account) < amount then (b, FailedPrecondition)
    else
      var hold := |b.holds|;
      (Bank(b.available[account := Available(b, account) - amount],
            b.holds + [HoldRecord(account, payment, amount, Active)],
            b.bookings, b.answered[request := Held(hold)]),
       Ok(hold))
  }

  function CaptureFunds(b: Bank, request: string, hold: nat, amount: nat): (Bank, Response) {
    if request in b.answered then (b, Ok(hold))
    else if hold >= |b.holds| || b.holds[hold].state != Active ||
        b.holds[hold].amount != amount then (b, FailedPrecondition)
    else
      (b.(holds := b.holds[hold := b.holds[hold].(state := Taken)],
          bookings := b.bookings + [Booking(hold, amount)],
          answered := b.answered[request := Booked(hold)]),
       Ok(hold))
  }

  function ReleaseFunds(b: Bank, request: string, hold: nat): (Bank, Response) {
    if request in b.answered then (b, Ok(hold))
    else if hold >= |b.holds| || b.holds[hold].state != Active then (b, FailedPrecondition)
    else
      var account := b.holds[hold].account;
      (b.(available := b.available[account := Available(b, account) + b.holds[hold].amount],
          holds := b.holds[hold := b.holds[hold].(state := Released)],
          answered := b.answered[request := Freed(hold)]),
       Ok(hold))
  }

  /** The money of an account that is held or captured. */
  function Bound(holds: seq<HoldRecord>, account: string): nat
    decreases |holds|
  {
    if holds == [] then 0
    else
      var h := holds[|holds| - 1];
      Bound(holds[..|holds| - 1], account) + if h.account == account && h.state != Released then h.amount else 0
  }

  function Total(b: Bank, account: string): nat {
    Available(b, account) + Bound(b.holds, account)
  }

  /** What changing the state of one hold does to the account's bound money. */
  lemma {:induction false} BoundUpdate(holds: seq<HoldRecord>, i: nat, state: HoldState, account: string)
    requires i < |holds|
    ensures var h := holds[i];
            var before := if h.account == account && h.state != Released then h.amount else 0;
            var after := if h.account == account && state != Released then h.amount else 0;
            Bound(holds[i := h.(state := state)], account) == Bound(holds, account) - before + after
    decreases |holds|
  {
    var last := |holds| - 1;
    var changed := holds[i := holds[i].(state := state)];
    if i < last {
      assert changed[..last] == holds[..last][i := holds[i].(state := state)];
      BoundUpdate(holds[..last], i, state, account);
    } else {
      assert changed[..last] == holds[..last];
    }
  }

  lemma HoldConserves(b: Bank, request: string, account: string, payment: string, amount: nat, any: string)
    ensures Total(HoldFunds(b, request, account, payment, amount).0, any) == Total(b, any)
  {
    var holds := b.holds + [HoldRecord(account, payment, amount, Active)];
    assert holds[..|b.holds|] == b.holds;
  }

  lemma CaptureConserves(b: Bank, request: string, hold: nat, amount: nat, any: string)
    ensures Total(CaptureFunds(b, request, hold, amount).0, any) == Total(b, any)
  {
    if hold < |b.holds| {
      BoundUpdate(b.holds, hold, Taken, any);
    }
  }

  lemma ReleaseConserves(b: Bank, request: string, hold: nat, any: string)
    ensures Total(ReleaseFunds(b, request, hold).0, any) == Total(b, any)
  {
    if hold < |b.holds| {
      BoundUpdate(b.holds, hold, Released, any);
    }
  }

  /**
   * A new request is granted exactly when the account's available money covers it, and moves that much,
   * of that account alone, into one active hold; a refusal changes nothing.
   */
  lemma HoldIsExact(b: Bank, request: string, account: string, payment: string, amount: nat, any: string)
    requires request !in b.answered
    ensures var (b', r) := HoldFunds(b, request, account, payment, amount);
            && (r.Ok? <==> amount <= Available(b, account))
            && (r.Ok? ==>
                  && Available(b', any) == Available(b, any) - (if any == account then amount else 0)
                  && r.hold == |b.holds| && b'.holds == b.holds + [HoldRecord(account, payment, amount, Active)]
                  && b'.bookings == b.bookings)
            && (!r.Ok? ==> b' == b)
  {
  }

  /** A request that is repeated after it was granted is answered alike, and changes nothing. */
  lemma RepeatsReplay(b: Bank, request: string, account: string, payment: string, amount: nat, hold: nat)
    ensures var (b', r) := HoldFunds(b, request, account, payment, amount);
            r.Ok? ==> HoldFunds(b', request, account, payment, amount) == (b', r)
    ensures var (b', r) := CaptureFunds(b, request, hold, amount);
            r.Ok? ==> CaptureFunds(b', request, hold, amount) == (b', r)
    ensures var (b', r) := ReleaseFunds(b, request, hold);
            r.Ok? ==> ReleaseFunds(b', request, hold) == (b', r)
  {
  }

  /**
   * An active hold goes exactly one way: a first capture of its amount books it and a first release gives
   * the money back, and after either the other is refused under any new request, and so is the same again.
   */
  lemma GoesOneWay(b: Bank, hold: nat, first: string, later: string)
    requires hold < |b.holds| && b.holds[hold].state == Active
    requires first != later && first !in b.answered && later !in b.answered
    ensures var amount, account := b.holds[hold].amount, b.holds[hold].account;
            var (captured, c), (released, r) := CaptureFunds(b, first, hold, amount), ReleaseFunds(b, first, hold);
            && c == r == Ok(hold)
            && captured.bookings == b.bookings + [Booking(hold, amount)] && captured.available == b.available
            && released.bookings == b.bookings && Available(released, account) == Available(b, account) + amount
            && ReleaseFunds(captured, later, hold) == (captured, FailedPrecondition)
            && CaptureFunds(captured, later, hold, amount) == (captured, FailedPrecondition)
            && ReleaseFunds(released, later, hold) == (released, FailedPrecondition)
            && CaptureFunds(released, later, hold, amount) == (released, FailedPrecondition)
  {
  }
}
