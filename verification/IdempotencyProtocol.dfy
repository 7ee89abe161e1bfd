/**
 * Requests racing for one idempotency key within one record's lifetime: every request is cut at
 * its statements, the statements of all of them interleave freely, and any request may die.
 */
module IdempotencyProtocol {
  import opened Wrappers
  import opened Idempotency

  /** Where a createPayment request stands. */
  datatype Request =
    | Arriving(hash: string)
    | Selecting(hash: string)
    | Reclaiming(hash: string)
    | Executing(hash: string, at: nat)                          // granted at that time
    | Responding(hash: string, at: nat, response: Response)     // executed, response not yet stored
    | Answered(hash: string, answer: Begun)
    | Served(hash: string, response: Response)                  // executed and completed

  datatype Grant = Grant(who: nat, at: nat, hash: string)

  datatype Completion = Completion(who: nat, at: nat, response: Response, hash: string)

  /** One key: its record, its requests, and what has happened to it. */
  datatype State = State(now: nat, record: Option<Record>, requests: map<nat, Request>,
                         grants: seq<Grant>, completions: seq<Completion>, payments: nat)

  datatype Action =
    | Tick(elapsed: nat)
    | Arrive(who: nat, hash: string)
    | Go(who: nat, inserted: bool, response: Response)   // the outcome matters to an execution only
    | Die(who: nat)                                      // or fails to store its response, which is only logged

  const INITIAL := State(0, None, map[], [], [], 0)

  predicate Pending(q: Request) {
    q.Executing? || q.Responding?
  }

  function Next(s: State, a: Action): State {
    match a
    case Tick(elapsed) => s.(now := s.now + elapsed)
    case Arrive(who, hash) =>
      if who in s.requests || Granted(s, who) then s else s.(requests := s.requests[who := Arriving(hash)])
    case Die(who) => s.(requests := s.requests - {who})
    case Go(who, inserted, response) => if who in s.requests then Step(s, who, inserted, response) else s
  }

  /** Requests are told apart: a dead one does not come back as another. */
  predicate Granted(s: State, who: nat) {
    exists g :: g in s.grants && g.who == who
  }

  function Step(s: State, who: nat, inserted: bool, response: Response): State
    requires who in s.requests
  {
    match s.requests[who]
    case Arriving(hash) =>
      var s' := s.(record := Claim(s.record, hash, s.now));
      if s.record.None? then Given(s', who, hash) else s'.(requests := s.requests[who := Selecting(hash)])
    case Selecting(hash) =>
      var judged := Judge(s.record, hash);
      s.(requests := s.requests[who := if judged.Some? then Answered(hash, judged.value) else Reclaiming(hash)])
    case Reclaiming(hash) =>
      var s' := s.(record := Reclaim(s.record, s.now));
      if Reclaimable(s.record, s.now) then Given(s', who, hash)
      else s'.(requests := s.requests[who := Answered(hash, InFlight)])
    case Executing(hash, at) =>
      s.(requests := s.requests[who := Responding(hash, at, response)],
         payments := s.payments + if inserted then 1 else 0)
    case Responding(hash, at, stored) =>
      s.(record := Finish(s.record, stored),
         requests := s.requests[who := Served(hash, stored)],
         completions := s.completions + [Completion(who, s.now, stored, hash)])
    case _ => s
  }

  /** The request gets to execute. */
  function Given(s: State, who: nat, hash: string): State {
    s.(requests := s.requests[who := Executing(hash, s.now)], grants := s.grants + [Grant(who, s.now, hash)])
  }

  function Run(s: State, acts: seq<Action>): State
    decreases |acts|
  {
    if acts == [] then s else Run(Next(s, acts[0]), acts[1..])
  }

  function Last(s: State): Grant
    requires s.grants != []
  {
    s.grants[|s.grants| - 1]
  }

  /** Successive grants are more than a lease apart. */
  predicate Spaced(grants: seq<Grant>) {
    forall i :: 0 <= i < |grants| - 1 ==> grants[i].at + LOCK_LEASE < grants[i + 1].at
  }

  /** A pending request executes under the latest grant, or has outstayed its lease. */
  predicate RequestOk(s: State, who: nat, q: Request) {
    match q
    case Executing(_, at) => Holds(s, who, at)
    case Responding(_, at, _) => Holds(s, who, at)
    case Served(_, _) => Granted(s, who)
    case Answered(_, Execute) => false
    case Answered(hash, Replay(response)) => !Granted(s, who) && Completed(s, response, hash)
    case Answered(hash, PayloadMismatch) => !Granted(s, who) && s.record.Some? && s.record.value.hash != hash
    case _ => !Granted(s, who)
  }

  predicate Holds(s: State, who: nat, at: nat) {
    && s.grants != [] && Granted(s, who)
    && ((at == Last(s).at && who == Last(s).who) || at + LOCK_LEASE < Last(s).at)
  }

  /** Some completion stored this response for this payload. */
  predicate Completed(s: State, response: Response, hash: string) {
    exists c :: c in s.completions && c.response == response && c.hash == hash
  }

  /** Has passed the comparison of the payload. */
  predicate Claimant(q: Request) {
    q.Reclaiming? || Pending(q)
  }

  predicate OneHash(s: State) {
    && (forall g :: g in s.grants ==> s.record.Some? && g.hash == s.record.value.hash)
    && (forall c :: c in s.completions ==> s.record.Some? && c.hash == s.record.value.hash)
    && (forall who :: who in s.requests && Claimant(s.requests[who]) ==>
          s.record.Some? && s.requests[who].hash == s.record.value.hash)
  }

  predicate RecordOk(s: State) {
    && (s.record.Some? <==> s.grants != [])
    && (s.completions != [] <==> s.record.Some? && s.record.value.response.Some?)
    && (s.completions != [] ==> s.record.value.response.value == s.completions[|s.completions| - 1].response)
    && (s.record.Some? && s.record.value.response.None? ==> s.record.value.lockedAt == Some(Last(s).at))
    && (s.grants != [] ==> Last(s).at <= s.now)
  }

  predicate Inv(s: State) {
    && Spaced(s.grants)
    && RecordOk(s)
    && OneHash(s)
    && forall who :: who in s.requests ==> RequestOk(s, who, s.requests[who])
  }

  /** A new grant comes more than a lease after the latest one, and every pending request is overdue. */
  lemma GivenKeeps(s: State, who: nat, hash: string, record: Option<Record>)
    requires Inv(s) && who in s.requests && !Granted(s, who) && !Pending(s.requests[who])
    requires s.grants != [] ==> Last(s).at + LOCK_LEASE < s.now
    requires record.Some? && record.value.response.None? && record.value.lockedAt == Some(s.now) &&
               record.value.hash == hash
    requires s.completions == [] && (s.record.Some? ==> s.record.value.hash == hash)
    ensures Inv(Given(s.(record := record), who, hash))
  {
    var s' := Given(s.(record := record), who, hash);
    forall w | w in s'.requests ensures RequestOk(s', w, s'.requests[w]) {
      if w == who {
        assert Grant(who, s.now, hash) in s'.grants;
      } else {
        assert RequestOk(s, w, s.requests[w]);
        assert forall g :: g in s'.grants <==> g in s.grants || g == Grant(who, s.now, hash);
      }
    }
  }

  lemma ArrivalKeeps(s: State, who: nat, inserted: bool, response: Response)
    requires Inv(s) && who in s.requests && (s.requests[who].Arriving? || s.requests[who].Reclaiming?)
    ensures Inv(Step(s, who, inserted, response))
  {
    var s' := Step(s, who, inserted, response);
    assert RequestOk(s, who, s.requests[who]);
    if s'.grants != s.grants {
      GivenKeeps(s, who, s.requests[who].hash, s'.record);
    }
  }

  lemma SelectKeeps(s: State, who: nat, inserted: bool, response: Response)
    requires Inv(s) && who in s.requests && s.requests[who].Selecting?
    ensures Inv(Step(s, who, inserted, response))
  {
    var s' := Step(s, who, inserted, response);
    assert RequestOk(s, who, s.requests[who]);
    if s.completions != [] {
      assert s.completions[|s.completions| - 1] in s.completions;
    }
    forall w | w in s'.requests ensures RequestOk(s', w, s'.requests[w]) {
      if w != who {
        assert RequestOk(s, w, s.requests[w]);
      }
    }
  }

  lemma FinishKeeps(s: State, who: nat, inserted: bool, response: Response)
    requires Inv(s) && who in s.requests && s.requests[who].Responding?
    ensures Inv(Step(s, who, inserted, response))
  {
    var s' := Step(s, who, inserted, response);
    assert RequestOk(s, who, s.requests[who]);
    forall w | w in s'.requests ensures RequestOk(s', w, s'.requests[w]) {
      assert RequestOk(s, w, s.requests[w]);
      if s.requests[w].Answered? && s.requests[w].answer.Replay? {
        var c :| c in s.completions && c.response == s.requests[w].answer.response && c.hash == s.requests[w].hash;
        assert c in s'.completions;
      }
    }
  }

  lemma ExecuteKeeps(s: State, who: nat, inserted: bool, response: Response)
    requires Inv(s) && who in s.requests
    requires !s.requests[who].Arriving? && !s.requests[who].Selecting?
    requires !s.requests[who].Reclaiming? && !s.requests[who].Responding?
    ensures Inv(Step(s, who, inserted, response))
  {
    var s' := Step(s, who, inserted, response);
    forall w | w in s'.requests ensures RequestOk(s', w, s'.requests[w]) {
      assert RequestOk(s, w, s.requests[w]);
    }
  }

  lemma TickKeeps(s: State, elapsed: nat)
    requires Inv(s)
    ensures Inv(Next(s, Tick(elapsed)))
  {
    var s' := Next(s, Tick(elapsed));
    forall w | w in s'.requests ensures RequestOk(s', w, s'.requests[w]) {
      assert RequestOk(s, w, s.requests[w]);
    }
  }

  lemma ComingAndGoingKeeps(s: State, a: Action)
    requires Inv(s) && (a.Arrive? || a.Die?)
    ensures Inv(Next(s, a))
  {
    var s' := Next(s, a);
    forall w | w in s'.requests ensures RequestOk(s', w, s'.requests[w]) {
      if w in s.requests {
        assert RequestOk(s, w, s.requests[w]);
      }
    }
  }

  lemma NextKeeps(s: State, a: Action)
    requires Inv(s)
    ensures Inv(Next(s, a))
  {
    if a.Go? && a.who in s.requests {
      if s.requests[a.who].Arriving? || s.requests[a.who].Reclaiming? {
        ArrivalKeeps(s, a.who, a.inserted, a.response);
      } else if s.requests[a.who].Selecting? {
        SelectKeeps(s, a.who, a.inserted, a.response);
      } else if s.requests[a.who].Responding? {
        FinishKeeps(s, a.who, a.inserted, a.response);
      } else {
        ExecuteKeeps(s, a.who, a.inserted, a.response);
      }
    } else if a.Tick? {
      TickKeeps(s, a.elapsed);
    } else if !a.Go? {
      ComingAndGoingKeeps(s, a);
    }
  }

  lemma {:induction false} RunKeeps(s: State, acts: seq<Action>)
    requires Inv(s)
    ensures Inv(Run(s, acts))
    decreases |acts|
  {
    if acts != [] {
      NextKeeps(s, acts[0]);
      RunKeeps(Next(s, acts[0]), acts[1..]);
    }
  }

  lemma Reachable(acts: seq<Action>)
    ensures Inv(Run(INITIAL, acts))
  {
    RunKeeps(INITIAL, acts);
  }

  // ---------------------------------------------------------------- grants

  lemma {:induction false} SpacedApart(grants: seq<Grant>, i: nat, j: nat)
    requires Spaced(grants) && i < j < |grants|
    ensures grants[i].at + LOCK_LEASE < grants[j].at
    decreases j
  {
    if i < j - 1 {
      SpacedApart(grants, i, j - 1);
    }
    assert grants[j - 1].at + LOCK_LEASE < grants[j - 1 + 1].at;
  }

  /**
   * However many requests race for the key, any two executions of it are granted more than a lease
   * apart: of the reclaimers racing for one expired lease a single one wins.
   */
  lemma GrantsAreSpaced(acts: seq<Action>, i: nat, j: nat)
    requires i < j < |Run(INITIAL, acts).grants|
    ensures var grants := Run(INITIAL, acts).grants; grants[i].at + 120_000 < grants[j].at
  {
    Reachable(acts);
    SpacedApart(Run(INITIAL, acts).grants, i, j);
  }

  lemma CompletedStep(s: State, a: Action)
    requires Inv(s) && s.completions != []
    ensures var s' := Next(s, a); s'.completions != [] && s'.grants == s.grants
  {
  }

  lemma {:induction false} CompletedRun(s: State, acts: seq<Action>)
    requires Inv(s) && s.completions != []
    ensures Run(s, acts).grants == s.grants
    decreases |acts|
  {
    if acts != [] {
      CompletedStep(s, acts[0]);
      NextKeeps(s, acts[0]);
      CompletedRun(Next(s, acts[0]), acts[1..]);
    }
  }

  /** Once a response is stored, the key is never granted again. */
  lemma NoGrantAfterCompletion(acts: seq<Action>, more: seq<Action>)
    requires Run(INITIAL, acts).completions != []
    ensures Run(Run(INITIAL, acts), more).grants == Run(INITIAL, acts).grants
  {
    Reachable(acts);
    CompletedRun(Run(INITIAL, acts), more);
  }

  /**
   * What a request is told about the others: a replay is a response some execution of the same
   * payload stored, and a mismatch means that a different payload holds the key.
   */
  lemma AnswersAreTrue(acts: seq<Action>, who: nat)
    requires who in Run(INITIAL, acts).requests && Run(INITIAL, acts).requests[who].Answered?
    ensures var s := Run(INITIAL, acts);
            match s.requests[who].answer
            case Execute => false
            case Replay(response) => Completed(s, response, s.requests[who].hash)
            case PayloadMismatch =>
              forall g :: g in s.grants ==> g.hash != s.requests[who].hash
            case InFlight => true
  {
    Reachable(acts);
    var s := Run(INITIAL, acts);
    assert RequestOk(s, who, s.requests[who]);
  }

  // ---------------------------------------------------------------- one response

  /** A response is stored within the lease of its grant, or never. */
  predicate InTime(s: State, a: Action) {
    a.Go? && a.who in s.requests && s.requests[a.who].Responding? ==>
      s.now <= s.requests[a.who].at + LOCK_LEASE
  }

  predicate Timely(s: State, acts: seq<Action>)
    decreases |acts|
  {
    acts == [] || (InTime(s, acts[0]) && Timely(Next(s, acts[0]), acts[1..]))
  }

  /** Whoever still executes after the one completion has lost its lease to the completing one. */
  predicate OneResponse(s: State) {
    s.completions != [] ==>
      && |s.completions| == 1
      && s.grants != []
      && forall who :: who in s.requests && Pending(s.requests[who]) ==>
           s.requests[who].at + LOCK_LEASE < Last(s).at
  }

  lemma OneResponseStep(s: State, a: Action)
    requires Inv(s) && OneResponse(s) && InTime(s, a)
    ensures OneResponse(Next(s, a))
  {
    var s' := Next(s, a);
    if s.completions != [] {
      CompletedStep(s, a);
    } else if s'.completions != [] {
      assert RequestOk(s, a.who, s.requests[a.who]);
      forall w | w in s'.requests && Pending(s'.requests[w]) ensures s'.requests[w].at + LOCK_LEASE < Last(s').at {
        assert RequestOk(s, w, s.requests[w]);
      }
    }
  }

  lemma {:induction false} OneResponseRun(s: State, acts: seq<Action>)
    requires Inv(s) && OneResponse(s) && Timely(s, acts)
    ensures OneResponse(Run(s, acts))
    decreases |acts|
  {
    if acts != [] {
      OneResponseStep(s, acts[0]);
      NextKeeps(s, acts[0]);
      OneResponseRun(Next(s, acts[0]), acts[1..]);
    }
  }

  /**
   * If every execution stores its response within its lease or not at all, the key gets at most
   * one response, and every replay is that response, for that payload.
   */
  lemma OneResponseForAll(acts: seq<Action>, who: nat)
    requires Timely(INITIAL, acts)
    ensures var s := Run(INITIAL, acts);
            && |s.completions| <= 1
            && (who in s.requests && s.requests[who].Answered? && s.requests[who].answer.Replay? ==>
                  && |s.completions| == 1
                  && s.completions[0].response == s.requests[who].answer.response
                  && s.completions[0].hash == s.requests[who].hash)
  {
    Reachable(acts);
    OneResponseRun(INITIAL, acts);
    var s := Run(INITIAL, acts);
    if who in s.requests {
      assert RequestOk(s, who, s.requests[who]);
    }
  }

  // ---------------------------------------------------------------- one payment

  /** No execution outlives its lease, and none dies. */
  predicate Punctual(s: State) {
    forall who :: who in s.requests && Pending(s.requests[who]) ==> s.now <= s.requests[who].at + LOCK_LEASE
  }

  predicate Kills(s: State, a: Action) {
    a.Die? && a.who in s.requests && Pending(s.requests[a.who])
  }

  predicate Prompt(s: State, acts: seq<Action>)
    decreases |acts|
  {
    Punctual(s) && (acts != [] ==> !Kills(s, acts[0]) && Prompt(Next(s, acts[0]), acts[1..]))
  }

  /** The key's only execution is under way until it is complete. */
  predicate OnePayment(s: State) {
    && |s.grants| <= 1
    && s.payments <= |s.grants|
    && (s.grants != [] && s.completions == [] ==>
          && Last(s).who in s.requests
          && Pending(s.requests[Last(s).who])
          && s.requests[Last(s).who].at == Last(s).at)
    && (forall who :: who in s.requests && Pending(s.requests[who]) ==> s.grants != [] && who == Last(s).who)
    && (forall who :: who in s.requests && s.requests[who].Executing? ==> s.payments == 0)
  }

  lemma OnePaymentGo(s: State, who: nat, inserted: bool, response: Response)
    requires Inv(s) && OnePayment(s) && Punctual(s) && who in s.requests
    ensures OnePayment(Step(s, who, inserted, response))
  {
    assert RequestOk(s, who, s.requests[who]);
  }

  lemma OnePaymentStep(s: State, a: Action)
    requires Inv(s) && OnePayment(s) && Punctual(s) && !Kills(s, a)
    ensures OnePayment(Next(s, a))
  {
    if a.Go? && a.who in s.requests {
      OnePaymentGo(s, a.who, a.inserted, a.response);
    }
  }

  lemma {:induction false} OnePaymentRun(s: State, acts: seq<Action>)
    requires Inv(s) && OnePayment(s) && Prompt(s, acts)
    ensures OnePayment(Run(s, acts))
    decreases |acts|
  {
    if acts != [] {
      OnePaymentStep(s, acts[0]);
      NextKeeps(s, acts[0]);
      OnePaymentRun(Next(s, acts[0]), acts[1..]);
    }
  }

  /**
   * If in addition no request dies between its grant and its response, the key is granted once
   * and at most one payment is inserted for it, however many requests carry it.
   */
  lemma OnePaymentPerKey(acts: seq<Action>)
    requires Prompt(INITIAL, acts)
    ensures Run(INITIAL, acts).payments <= |Run(INITIAL, acts).grants| <= 1
  {
    OnePaymentRun(INITIAL, acts);
  }

  // ---------------------------------------------------------------- what a late execution does

  /**
   * Without those conditions neither need hold: a request that outlives its lease, and the one that
   * reclaims it, each insert a payment and each store a response.
   */
  lemma LateExecutionRepeats(hash: string, x: Response, y: Response)
    ensures exists acts :: var s := Run(INITIAL, acts);
              |s.completions| == 2 && s.payments == 2 && !Timely(INITIAL, acts) && !Prompt(INITIAL, acts)
  {
    var first := [Arrive(1, hash), Go(1, true, x), Go(1, true, x)];
    var second := [Tick(LOCK_LEASE + 1), Arrive(2, hash), Go(2, true, y), Go(2, true, y), Go(2, true, y)];
    var third := [Go(2, true, y), Go(2, true, y), Go(1, true, x)];
    var s1 := State(0, Some(Record(hash, None, Some(0), 0)), map[1 := Responding(hash, 0, x)],
                    [Grant(1, 0, hash)], [], 1);
    FirstInserts(hash, x, first, s1);
    var late := LOCK_LEASE + 1;
    var s2 := State(late, Some(Record(hash, None, Some(late), 0)),
                    map[1 := Responding(hash, 0, x), 2 := Executing(hash, late)],
                    [Grant(1, 0, hash), Grant(2, late, hash)], [], 1);
    SecondReclaims(hash, x, y, s1, second, s2);
    Three(s2, third);
    RunAppend(INITIAL, first, second);
    RunAppend(INITIAL, first + second, third);
    var acts := first + second + third;
    var s := Run(INITIAL, acts);
    assert |s.completions| == 2 && s.payments == 2;
    if Timely(INITIAL, acts) {
      OneResponseForAll(acts, 1);
    }
    if Prompt(INITIAL, acts) {
      OnePaymentPerKey(acts);
    }
  }

  /** The first request claims the key and inserts its payment. */
  lemma FirstInserts(hash: string, x: Response, acts: seq<Action>, s: State)
    requires acts == [Arrive(1, hash), Go(1, true, x), Go(1, true, x)]
    requires s == State(0, Some(Record(hash, None, Some(0), 0)), map[1 := Responding(hash, 0, x)],
                        [Grant(1, 0, hash)], [], 1)
    ensures Run(INITIAL, acts) == s
  {
    Three(INITIAL, acts);
    assert !Granted(INITIAL, 1);
  }

  /** The second request finds the lease expired and takes the key over. */
  lemma SecondReclaims(hash: string, x: Response, y: Response, s: State, acts: seq<Action>, s': State)
    requires s == State(0, Some(Record(hash, None, Some(0), 0)), map[1 := Responding(hash, 0, x)],
                        [Grant(1, 0, hash)], [], 1)
    requires acts == [Tick(LOCK_LEASE + 1), Arrive(2, hash), Go(2, true, y), Go(2, true, y), Go(2, true, y)]
    requires s' == State(LOCK_LEASE + 1, Some(Record(hash, None, Some(LOCK_LEASE + 1), 0)),
                         map[1 := Responding(hash, 0, x), 2 := Executing(hash, LOCK_LEASE + 1)],
                         [Grant(1, 0, hash), Grant(2, LOCK_LEASE + 1, hash)], [], 1)
    ensures Run(s, acts) == s'
  {
    Five(s, acts);
    assert !Granted(Next(s, acts[0]), 2);
  }

  lemma {:induction false} RunAppend(s: State, xs: seq<Action>, ys: seq<Action>)
    ensures Run(s, xs + ys) == Run(Run(s, xs), ys)
    decreases |xs|
  {
    if xs == [] {
      assert xs + ys == ys;
    } else {
      assert (xs + ys)[1..] == xs[1..] + ys;
      RunAppend(Next(s, xs[0]), xs[1..], ys);
    }
  }

  lemma Three(s: State, acts: seq<Action>)
    requires |acts| == 3
    ensures Run(s, acts) == Next(Next(Next(s, acts[0]), acts[1]), acts[2])
  {
    var s1 := Next(s, acts[0]);
    assert Run(s, acts) == Run(s1, acts[1..]);
    var s2 := Next(s1, acts[1..][0]);
    assert Run(s1, acts[1..]) == Run(s2, acts[1..][1..]);
    var last := acts[1..][1..];
    assert last == [acts[2]];
    assert Run(s2, last) == Run(Next(s2, last[0]), last[1..]);
  }

  lemma Five(s: State, acts: seq<Action>)
    requires |acts| == 5
    ensures Run(s, acts) == Next(Next(Next(Next(Next(s, acts[0]), acts[1]), acts[2]), acts[3]), acts[4])
  {
    var s1 := Next(s, acts[0]);
    assert Run(s, acts) == Run(s1, acts[1..]);
    var s2 := Next(s1, acts[1..][0]);
    assert Run(s1, acts[1..]) == Run(s2, acts[1..][1..]);
    assert acts[1..][1..] == acts[2..];
    Three(s2, acts[2..]);
  }
}
