/**
 * When a key can still be executed twice: exact conditions on its present state, and the run in
 * which nobody is late and yet two payments are inserted.
 */
module IdempotencyHazards {
  import opened Wrappers
  import opened Idempotency
  import opened IdempotencyProtocol

  /** The requests granted that have not inserted their payment yet. */
  function Inserting(s: State): set<nat> {
    set who | who in s.requests && s.requests[who].Executing?
  }

  /** The requests granted that have not stored their response yet. */
  function Storing(s: State): set<nat> {
    set who | who in s.requests && Pending(s.requests[who])
  }

  // ---------------------------------------------------------------- while no response is stored

  lemma {:induction false} Bound(xs: set<nat>) returns (b: nat)
    ensures forall x :: x in xs ==> x < b
    decreases xs
  {
    if xs == {} {
      b := 0;
    } else {
      var x :| x in xs;
      var rest := Bound(xs - {x});
      b := if x < rest then rest else x + 1;
      assert forall y :: y in xs ==> y == x || y in xs - {x};
    }
  }

  lemma Newcomer(s: State) returns (who: nat)
    ensures who !in s.requests && !Granted(s, who)
  {
    var known := s.requests.Keys + set g | g in s.grants :: g.who;
    who := Bound(known);
    forall g | g in s.grants ensures g.who != who {
      assert g.who in known;
    }
  }

  lemma One(s: State, a: Action)
    ensures Run(s, [a]) == Next(s, a)
  {
    assert Run(s, [a]) == Run(Next(s, a), []);
  }

  /** One more action, followed by what else there is. */
  lemma Then(s: State, a: Action, acts: seq<Action>)
    ensures Run(s, [a] + acts) == Run(Next(s, a), acts)
  {
    assert ([a] + acts)[1..] == acts;
  }

  /** The claim, or the selection and the reclaim, of a request that arrives when the lease is over. */
  lemma TakesOver(s: State, who: nat, hash: string) returns (more: seq<Action>)
    requires Inv(s) && s.completions == [] && who in s.requests && s.requests[who] == Arriving(hash)
    requires s.record.Some? ==> s.record.value.hash == hash && Last(s).at + LOCK_LEASE < s.now
    ensures var s' := Run(s, more);
            && s'.completions == [] && s'.payments == s.payments
            && s'.requests == s.requests[who := Executing(hash, s.now)]
  {
    var go := Go(who, true, Response(0, ""));
    if s.record.None? {
      more := [go];
      One(s, go);
    } else {
      var s1 := Next(s, go);
      assert s1.requests == s.requests[who := Selecting(hash)] && s1.record == s.record;
      var s2 := Next(s1, go);
      assert s2.requests == s.requests[who := Reclaiming(hash)] && s2.record == s.record;
      One(s2, go);
      Then(s1, go, [go]);
      Then(s, go, [go] + [go]);
      more := [go] + ([go] + [go]);
    }
  }

  /** While no response is stored, a new request can always come to execute beside all others. */
  lemma GrantedAgain(s: State) returns (more: seq<Action>, who: nat, at: nat, hash: string)
    requires Inv(s) && s.completions == []
    ensures var s' := Run(s, more);
            && Inv(s') && s'.completions == [] && s'.payments == s.payments
            && who !in s.requests && s'.requests == s.requests[who := Executing(hash, at)]
  {
    who := Newcomer(s);
    hash := if s.record.Some? then s.record.value.hash else "";
    at := s.now + LOCK_LEASE + 1;
    var tick, arrive := Tick(LOCK_LEASE + 1), Arrive(who, hash);
    var s1 := Next(s, tick);
    var s2 := Next(s1, arrive);
    assert !Granted(s1, who);
    assert s2 == s1.(requests := s.requests[who := Arriving(hash)]);
    NextKeeps(s, tick);
    NextKeeps(s1, arrive);
    var last := TakesOver(s2, who, hash);
    Then(s1, arrive, last);
    Then(s, tick, [arrive] + last);
    more := [tick] + ([arrive] + last);
    assert s.requests[who := Arriving(hash)][who := Executing(hash, at)] == s.requests[who := Executing(hash, at)];
    RunKeeps(s, more);
  }

  /** And so can a second one. */
  lemma GrantedTwice(s: State) returns (more: seq<Action>)
    requires Inv(s) && s.completions == []
    ensures var s' := Run(s, more);
            && |Inserting(s')| >= 2 && |Storing(s')| >= 2
            && s'.payments == s.payments && s'.completions == []
  {
    var first, x, _, _ := GrantedAgain(s);
    var s1 := Run(s, first);
    var second, y, _, _ := GrantedAgain(s1);
    more := first + second;
    RunAppend(s, first, second);
    var s2 := Run(s, more);
    assert {x, y} <= Inserting(s2) && {x, y} <= Storing(s2);
    Subset({x, y}, Inserting(s2));
    Subset({x, y}, Storing(s2));
  }

  lemma Subset(xs: set<nat>, ys: set<nat>)
    requires xs <= ys
    ensures |xs| <= |ys|
  {
    assert ys == xs + (ys - xs);
  }

  // ---------------------------------------------------------------- payments

  lemma {:induction false} InsertAll(s: State) returns (more: seq<Action>)
    requires s.payments + |Inserting(s)| >= 2
    ensures Run(s, more).payments >= 2
    decreases |Inserting(s)|
  {
    if s.payments >= 2 {
      more := [];
    } else {
      assert Inserting(s) != {};
      var who :| who in Inserting(s);
      var go := Go(who, true, Response(0, ""));
      var s' := Next(s, go);
      assert Inserting(s') == Inserting(s) - {who};
      more := InsertAll(s');
      Then(s, go, more);
      more := [go] + more;
    }
  }

  /** Answered, and nobody left who could add a payment beyond the first. */
  predicate PaidOnce(s: State) {
    s.completions != [] && s.payments + |Inserting(s)| <= 1
  }

  lemma PaidOnceStep(s: State, a: Action)
    requires Inv(s) && PaidOnce(s)
    ensures PaidOnce(Next(s, a))
  {
    var s' := Next(s, a);
    CompletedStep(s, a);
    if a.Go? && a.who in s.requests && s.requests[a.who].Executing? {
      assert Inserting(s') == Inserting(s) - {a.who};
    } else {
      NoNewGrant(s, a);
      Subset(Inserting(s'), Inserting(s));
    }
  }

  /** With a response stored, nobody new is let through. */
  lemma NoNewGrant(s: State, a: Action)
    requires Inv(s) && s.completions != []
    ensures Inserting(Next(s, a)) <= Inserting(s) && Storing(Next(s, a)) <= Storing(s)
    ensures !(a.Go? && a.who in s.requests && s.requests[a.who].Executing?) ==> Next(s, a).payments == s.payments
  {
  }

  lemma {:induction false} PaidOnceRun(s: State, acts: seq<Action>)
    requires Inv(s) && PaidOnce(s)
    ensures Run(s, acts).payments <= 1
    decreases |acts|
  {
    if acts != [] {
      PaidOnceStep(s, acts[0]);
      NextKeeps(s, acts[0]);
      PaidOnceRun(Next(s, acts[0]), acts[1..]);
    }
  }

  /**
   * A key can never come to a second payment if and only if its response is stored, and its
   * payments and the executions that may still insert one are at most one together. So until a
   * response is stored a second payment is always possible, late requests or none.
   */
  lemma OnePaymentExactly(acts: seq<Action>)
    ensures var s := Run(INITIAL, acts);
            (forall more :: Run(s, more).payments <= 1) <==>
              s.completions != [] && s.payments + |Inserting(s)| <= 1
  {
    var s := Run(INITIAL, acts);
    Reachable(acts);
    if PaidOnce(s) {
      forall more ensures Run(s, more).payments <= 1 {
        PaidOnceRun(s, more);
      }
    } else {
      var first := [];
      if s.completions == [] {
        first := GrantedTwice(s);
      }
      var second := InsertAll(Run(s, first));
      RunAppend(s, first, second);
      assert Run(s, first + second).payments >= 2;
    }
  }

  // ---------------------------------------------------------------- responses

  lemma {:induction false} StoreAll(s: State) returns (more: seq<Action>)
    requires |s.completions| + |Storing(s)| >= 2
    ensures |Run(s, more).completions| >= 2
    decreases |Storing(s)|
  {
    if |s.completions| >= 2 {
      more := [];
    } else {
      assert Storing(s) != {};
      var who :| who in Storing(s);
      var go := Go(who, true, Response(0, ""));
      var s1 := Next(s, go);
      if s.requests[who].Executing? {
        var s2 := Next(s1, go);
        assert Storing(s2) == Storing(s) - {who};
        more := StoreAll(s2);
        Then(s1, go, more);
        more := [go] + more;
      } else {
        assert Storing(s1) == Storing(s) - {who};
        more := StoreAll(s1);
      }
      Then(s, go, more);
      more := [go] + more;
    }
  }

  /** One response is stored, and nobody is left who could store another. */
  predicate AnsweredOnce(s: State) {
    s.completions != [] && |s.completions| + |Storing(s)| <= 1
  }

  lemma AnsweredOnceStep(s: State, a: Action)
    requires Inv(s) && AnsweredOnce(s)
    ensures AnsweredOnce(Next(s, a))
  {
    NoNewGrant(s, a);
    assert Storing(s) == {};
    assert a.Go? && a.who in s.requests ==> a.who !in Storing(s);
    assert Storing(Next(s, a)) == {};
  }

  lemma {:induction false} AnsweredOnceRun(s: State, acts: seq<Action>)
    requires Inv(s) && AnsweredOnce(s)
    ensures |Run(s, acts).completions| <= 1
    decreases |acts|
  {
    if acts != [] {
      AnsweredOnceStep(s, acts[0]);
      NextKeeps(s, acts[0]);
      AnsweredOnceRun(Next(s, acts[0]), acts[1..]);
    }
  }

  /** A key can never come to a second response if and only if it has one and no execution is left. */
  lemma OneResponseExactly(acts: seq<Action>)
    ensures var s := Run(INITIAL, acts);
            (forall more :: |Run(s, more).completions| <= 1) <==>
              s.completions != [] && |s.completions| + |Storing(s)| <= 1
  {
    var s := Run(INITIAL, acts);
    Reachable(acts);
    if AnsweredOnce(s) {
      forall more ensures |Run(s, more).completions| <= 1 {
        AnsweredOnceRun(s, more);
      }
    } else {
      var first := [];
      if s.completions == [] {
        first := GrantedTwice(s);
      }
      var second := StoreAll(Run(s, first));
      RunAppend(s, first, second);
      assert |Run(s, first + second).completions| >= 2;
    }
  }

  // ---------------------------------------------------------------- nobody is late

  /** No execution ever outlives its lease, though it may die. */
  predicate AlwaysPunctual(s: State, acts: seq<Action>)
    decreases |acts|
  {
    Punctual(s) && (acts != [] ==> AlwaysPunctual(Next(s, acts[0]), acts[1..]))
  }

  /** Going on with one action, everybody still on time. */
  lemma OnTime(s: State, a: Action, acts: seq<Action>)
    requires Punctual(s) && AlwaysPunctual(Next(s, a), acts)
    ensures AlwaysPunctual(s, [a] + acts) && Run(s, [a] + acts) == Run(Next(s, a), acts)
  {
    Then(s, a, acts);
    assert ([a] + acts)[1..] == acts;
  }

  /**
   * Punctuality is not enough: a request inserts its payment and dies, or fails to store its
   * response, which is only logged; the lease passes, and the request that takes over inserts again.
   */
  lemma DeathRepeats(hash: string, x: Response)
    ensures exists acts :: AlwaysPunctual(INITIAL, acts) && Run(INITIAL, acts).payments == 2
  {
    var acts := SecondPays(hash, x);
    var s := State(0, Some(Record(hash, None, Some(0), 0)), map[1 := Responding(hash, 0, x)],
                   [Grant(1, 0, hash)], [], 1);
    var arrive, go, die := Arrive(1, hash), Go(1, true, x), Die(1);
    var s1 := Next(INITIAL, arrive);
    assert !Granted(INITIAL, 1);
    var s2 := Next(s1, go);
    var s3 := Next(s2, go);
    assert s3 == s;
    assert Next(s3, die) == Paid(hash);
    OnTime(s3, die, acts);
    OnTime(s2, go, [die] + acts);
    OnTime(s1, go, [go] + ([die] + acts));
    OnTime(INITIAL, arrive, [go] + ([go] + ([die] + acts)));
  }

  /** One payment inserted, and nobody left to say so. */
  function Paid(hash: string): State {
    State(0, Some(Record(hash, None, Some(0), 0)), map[], [Grant(1, 0, hash)], [], 1)
  }

  lemma SecondPays(hash: string, x: Response) returns (acts: seq<Action>)
    ensures AlwaysPunctual(Paid(hash), acts) && Run(Paid(hash), acts).payments == 2
  {
    var tick, arrive, go := Tick(LOCK_LEASE + 1), Arrive(2, hash), Go(2, true, x);
    var late := LOCK_LEASE + 1;
    var s := Paid(hash);
    var s1 := Next(s, tick);
    var s2 := Next(s1, arrive);
    assert !Granted(s1, 2);
    assert s2.requests == map[2 := Arriving(hash)];
    var s3 := Next(s2, go);
    assert s3.requests == map[2 := Selecting(hash)];
    var s4 := Next(s3, go);
    assert s4.requests == map[2 := Reclaiming(hash)];
    var s5 := Next(s4, go);
    assert s5.requests == map[2 := Executing(hash, late)];
    var s6 := Next(s5, go);
    OnTime(s5, go, []);
    OnTime(s4, go, [go] + []);
    OnTime(s3, go, [go] + ([go] + []));
    acts := [go] + ([go] + ([go] + []));
    OnTime(s2, go, acts);
    acts := [go] + acts;
    OnTime(s1, arrive, acts);
    acts := [arrive] + acts;
    OnTime(s, tick, acts);
    acts := [tick] + acts;
  }
}
