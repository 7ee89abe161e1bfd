/**
 * The resilience layer in front of the processors: what an HTTP exchange is worth, which errors
 * are tried again, and which verdict the saga reads off at the end.
 */
module Psp {
  import opened Wrappers
  import opened Payments
  import D = Driver

  datatype Outcome = Unset | OutcomeApproved | OutcomeDeclined | OutcomePending

  datatype AuthResult = AuthResult(outcome: Outcome, reference: string)

  // A context ends because it is cancelled, or else because its deadline passes.
  datatype Error = ErrUnavailable | ContextEnded(cancelled: bool) | Refused | Unsendable

  datatype Result<+T> = Ok(value: T) | Err(error: Error)

  /** The fields the adapters read from a decoded reply. */
  datatype Body = Undecodable | Decoded(outcome: string, pending: bool, reference: string)

  datatype Exchange = NoRequest | TransportError | Http(status: int, body: Body)

  /** One attempt: the breaker lets the call through or refuses it unmade. */
  datatype Guarded = OpenState | TooManyRequests | Called(x: Exchange)

  /** The wait after a transient failure, cut short if the context ends first. */
  datatype Wait = Elapsed | Ended(cancelled: bool)

  datatype Turn<+T> = Turn(result: Result<T>, wait: Wait)

  // ---------------------------------------------------------------- adapters

  function DoAuthorize(x: Exchange): (r: Result<AuthResult>)
    ensures r.Ok? ==> !r.value.outcome.Unset?
  {
    match x
    case NoRequest => Err(Unsendable)
    case TransportError => Err(ErrUnavailable)
    case Http(status, body) =>
      if status >= 500 then Err(ErrUnavailable)
      else if status >= 400 then Err(Refused)
      else match body
        case Undecodable => Err(ErrUnavailable)
        case Decoded(outcome, pending, reference) =>
          Ok(AuthResult(if pending then OutcomePending
                        else if outcome == "approved" then OutcomeApproved
                        else OutcomeDeclined, reference))
  }

  function DoPost(x: Exchange): Result<()> {
    match x
    case NoRequest => Err(Unsendable)
    case TransportError => Err(ErrUnavailable)
    case Http(status, _) =>
      if status >= 500 then Err(ErrUnavailable) else if status >= 400 then Err(Refused) else Ok(())
  }

  function CardAuthorize(x: Exchange): Result<AuthResult> {
    DoAuthorize(x)
  }

  /** Takes a reply without an outcome for an acknowledgement whose outcome comes later. */
  function WalletAuthorize(x: Exchange): Result<AuthResult> {
    var r := DoAuthorize(x);
    if r.Ok? && (r.value.outcome.Unset? || r.value.outcome.OutcomePending?)
    then Ok(r.value.(outcome := OutcomePending)) else r
  }

  function InnerAuthorize(via: Method, x: Exchange): Result<AuthResult> {
    if via.Wallet? then WalletAuthorize(x) else CardAuthorize(x)
  }

  /** The breaker's own refusals become unavailability. */
  function AuthorizeOnce(via: Method, g: Guarded): Result<AuthResult> {
    if g.Called? then InnerAuthorize(via, g.x) else Err(ErrUnavailable)
  }

  function CaptureOnce(g: Guarded): Result<()> {
    if g.Called? then DoPost(g.x) else Err(ErrUnavailable)
  }

  // ---------------------------------------------------------------- retry

  predicate Transient<T>(t: Turn<T>) {
    t.result.Err? && t.result.error.ErrUnavailable?
  }

  /** The first k turns failed transiently and their waits ran out: the turn after them takes place. */
  predicate Reaches<T>(turns: seq<Turn<T>>, k: nat) {
    k <= |turns| && forall i :: 0 <= i < k ==> Transient(turns[i]) && turns[i].wait.Elapsed?
  }

  /** What the turns come to: the first that settles the matter, or the last. */
  function Retried<T>(turns: seq<Turn<T>>): Result<T>
    requires turns != []
  {
    if !Transient(turns[0]) then turns[0].result
    else if turns[0].wait.Ended? then Err(ContextEnded(turns[0].wait.cancelled))
    else if |turns| == 1 then turns[0].result
    else Retried(turns[1..])
  }

  /** The loop: after every transient failure it waits, the last one included. */
  method Retry<T>(turns: seq<Turn<T>>) returns (out: Result<T>, made: nat)
    requires |turns| == 3
    ensures out == Retried(turns)
    ensures 0 < made <= 3 && Reaches(turns, made - 1)
    ensures made < 3 ==> !Reaches(turns, made)
  {
    out, made := turns[0].result, 0;
    for i := 0 to |turns|
      invariant made == i && Reaches(turns, i)
      invariant i < |turns| ==> Retried(turns) == Retried(turns[i..])
      invariant i == |turns| ==> out == Retried(turns)
    {
      out, made := turns[i].result, i + 1;
      if !Transient(turns[i]) {
        return;
      }
      if turns[i].wait.Ended? {
        return Err(ContextEnded(turns[i].wait.cancelled)), made;
      }
      assert turns[i..][1..] == turns[i + 1..];
    }
  }

  /** A turn the loop does not go on from. */
  predicate Settles<T>(t: Turn<T>) {
    !Transient(t) || t.wait.Ended?
  }

  function Verdict<T>(t: Turn<T>): Result<T> {
    if Transient(t) && t.wait.Ended? then Err(ContextEnded(t.wait.cancelled)) else t.result
  }

  /** The verdict is that of the first turn that settles, and is unavailability if none does. */
  lemma {:induction false} FirstSettles<T>(turns: seq<Turn<T>>, k: nat)
    requires k < |turns| && Reaches(turns, k)
    ensures Settles(turns[k]) ==> Retried(turns) == Verdict(turns[k])
    ensures k == |turns| - 1 && !Settles(turns[k]) ==> Retried(turns) == Err(ErrUnavailable)
    decreases |turns|
  {
    if k > 0 {
      assert turns[0].wait.Elapsed?;
      forall i | 0 <= i < k - 1 ensures Transient(turns[1..][i]) && turns[1..][i].wait.Elapsed? {
        assert turns[1..][i] == turns[i + 1];
      }
      FirstSettles(turns[1..], k - 1);
    }
  }

  lemma {:induction false} SomeTurnDecides<T>(turns: seq<Turn<T>>) returns (k: nat)
    requires turns != []
    ensures k < |turns| && Reaches(turns, k) && (Settles(turns[k]) || k == |turns| - 1)
    decreases |turns|
  {
    if Settles(turns[0]) || |turns| == 1 {
      k := 0;
    } else {
      k := SomeTurnDecides(turns[1..]);
      forall i | 0 <= i < k + 1 ensures Transient(turns[i]) && turns[i].wait.Elapsed? {
        if i > 0 {
          assert turns[1..][i - 1] == turns[i];
        }
      }
      k := k + 1;
    }
  }

  // ---------------------------------------------------------------- what the saga reads

  /** The world during one attempt: what the breaker and the processor do, and how the wait ends. */
  datatype Attempt = Attempt(g: Guarded, wait: Wait)

  function AuthTurns(via: Method, world: seq<Attempt>): seq<Turn<AuthResult>> {
    seq(|world|, i requires 0 <= i < |world| => Turn(AuthorizeOnce(via, world[i].g), world[i].wait))
  }

  function CaptureTurns(world: seq<Attempt>): seq<Turn<()>> {
    seq(|world|, i requires 0 <= i < |world| => Turn(CaptureOnce(world[i].g), world[i].wait))
  }

  /** The k-th attempt takes place, after nothing but silence, and settles the matter in that sense. */
  predicate FirstToSettle(world: seq<Attempt>, k: nat, settling: Attempt -> bool, silent: Guarded -> bool) {
    k < |world| && settling(world[k]) && forall i :: 0 <= i < k ==> silent(world[i].g) && world[i].wait.Elapsed?
  }

  /** Nothing was heard of the processor that could count as an answer. */
  predicate Unreachable(g: Guarded) {
    match g
    case OpenState => true
    case TooManyRequests => true
    case Called(NoRequest) => false
    case Called(TransportError) => true
    case Called(Http(status, body)) => status >= 500 || (status < 400 && body.Undecodable?)
  }

  /** A reply that says approved, and does not say that it is pending. */
  predicate SaysYes(g: Guarded) {
    && g.Called? && g.x.Http? && g.x.status < 400
    && g.x.body.Decoded? && !g.x.body.pending && g.x.body.outcome == "approved"
  }

  /** A reply that says that the outcome is pending, whatever outcome it gives. */
  predicate SaysWait(g: Guarded) {
    g.Called? && g.x.Http? && g.x.status < 400 && g.x.body.Decoded? && g.x.body.pending
  }

  /** The processor said no: it turned the request down, or gave an outcome other than yes or wait. */
  predicate SaysNo(g: Guarded) {
    && g.Called? && g.x.Http? && g.x.status < 500
    && (g.x.status >= 400 || (g.x.body.Decoded? && !g.x.body.pending && g.x.body.outcome != "approved"))
  }

  predicate Approves(a: Attempt) {
    SaysYes(a.g)
  }

  predicate Defers(a: Attempt) {
    SaysWait(a.g)
  }

  predicate Conclusive(a: Attempt) {
    !Unreachable(a.g)
  }

  predicate CutShort(a: Attempt) {
    Unreachable(a.g) && a.wait.Ended?
  }

  /**
   * The first conclusive exchange is the result, whatever the world would have said later: a yes, a
   * wait or a no, with the reply's own reference, or an error. A wait that the context cuts short
   * before one is the context's error; silence throughout, refusals of the breaker included, is
   * unavailability.
   */
  method Authorize(via: Method, world: seq<Attempt>) returns (r: Result<AuthResult>)
    requires |world| == 3
    ensures r == Retried(AuthTurns(via, world))
    ensures forall k: nat :: FirstToSettle(world, k, Conclusive, Unreachable) ==> Means(world[k].g, r)
    ensures forall k: nat :: FirstToSettle(world, k, CutShort, Unreachable) ==>
              r == Err(ContextEnded(world[k].wait.cancelled))
    ensures (forall a :: a in world ==> Unreachable(a.g) && a.wait.Elapsed?) ==> r == Err(ErrUnavailable)
  {
    var turns := AuthTurns(via, world);
    var out, made := Retry(turns);
    r := out;
    AuthTurnsMean(via, world);
    forall k: nat | k < |turns| && Reaches(turns, k) ensures Settles(turns[k]) ==> r == Verdict(turns[k]) {
      FirstSettles(turns, k);
    }
    forall k: nat | FirstToSettle(world, k, Conclusive, Unreachable) ensures Means(world[k].g, r) {
      TurnMeaning(via, world[k].g);
    }
    FirstSettles(turns, made - 1);
    assert world[made - 1] in world;
  }

  /** What a conclusive exchange comes to. */
  predicate Means(g: Guarded, r: Result<AuthResult>) {
    && (SaysYes(g) ==> r == Ok(AuthResult(OutcomeApproved, g.x.body.reference)))
    && (SaysWait(g) ==> r == Ok(AuthResult(OutcomePending, g.x.body.reference)))
    && (SaysNo(g) ==>
          if g.x.status >= 400 then r == Err(Refused) else r == Ok(AuthResult(OutcomeDeclined, g.x.body.reference)))
    && (g == Called(NoRequest) ==> r == Err(Unsendable))
  }

  lemma AuthTurnsMean(via: Method, world: seq<Attempt>)
    ensures var turns := AuthTurns(via, world);
            && (forall k: nat :: k < |world| ==> (Transient(turns[k]) <==> Unreachable(world[k].g)))
            && (forall k: nat :: k < |world| && Conclusive(world[k]) ==> Means(world[k].g, Verdict(turns[k])))
            && (forall k: nat :: k <= |world| ==>
                  (Reaches(turns, k) <==> forall i :: 0 <= i < k ==> Unreachable(world[i].g) && world[i].wait.Elapsed?))
  {
    forall k: nat | k < |world|
      ensures AuthTurns(via, world)[k] == Turn(AuthorizeOnce(via, world[k].g), world[k].wait)
      ensures AuthorizeOnce(via, world[k].g) == Err(ErrUnavailable) <==> Unreachable(world[k].g)
    {
      TurnMeaning(via, world[k].g);
    }
  }

  predicate CaptureSilent(g: Guarded) {
    !g.Called? || g.x.TransportError? || (g.x.Http? && g.x.status >= 500)
  }

  predicate CaptureConclusive(a: Attempt) {
    !CaptureSilent(a.g)
  }

  predicate CaptureCutShort(a: Attempt) {
    CaptureSilent(a.g) && a.wait.Ended?
  }

  /** The same for the capture. */
  method Capture(world: seq<Attempt>) returns (r: Result<()>)
    requires |world| == 3
    ensures r == Retried(CaptureTurns(world))
    ensures forall k: nat :: FirstToSettle(world, k, CaptureConclusive, CaptureSilent) ==> r == DoPost(world[k].g.x)
    ensures forall k: nat :: FirstToSettle(world, k, CaptureCutShort, CaptureSilent) ==>
              r == Err(ContextEnded(world[k].wait.cancelled))
    ensures (forall a :: a in world ==> CaptureSilent(a.g) && a.wait.Elapsed?) ==> r == Err(ErrUnavailable)
  {
    var turns := CaptureTurns(world);
    var out, made := Retry(turns);
    r := out;
    CaptureTurnsMean(world);
    forall k: nat | k < |turns| && Reaches(turns, k) ensures Settles(turns[k]) ==> r == Verdict(turns[k]) {
      FirstSettles(turns, k);
    }
    FirstSettles(turns, made - 1);
    assert world[made - 1] in world;
  }

  lemma CaptureTurnsMean(world: seq<Attempt>)
    ensures var turns := CaptureTurns(world);
            && (forall k: nat :: k < |world| ==> (Transient(turns[k]) <==> CaptureSilent(world[k].g)))
            && (forall k: nat :: k < |world| && CaptureConclusive(world[k]) ==>
                Verdict(turns[k]) == DoPost(world[k].g.x))
            && (forall k: nat :: k <= |world| ==>
                  (Reaches(turns, k) <==> forall i :: 0 <= i < k ==>
                      CaptureSilent(world[i].g) && world[i].wait.Elapsed?))
  {
    forall k: nat | k < |world|
      ensures CaptureTurns(world)[k] == Turn(CaptureOnce(world[k].g), world[k].wait)
    {
    }
  }

  predicate Retryable(e: Error) {
    e.ErrUnavailable? || (e.ContextEnded? && !e.cancelled)
  }

  /** How stepSubmit takes the result; an outcome it does not know counts as approved. */
  function AuthorizeReply(r: Result<AuthResult>): D.Reply {
    match r
    case Err(e) => if Retryable(e) then D.Unavailable else D.Rejected
    case Ok(AuthResult(OutcomeDeclined, _)) => D.Declined
    case Ok(AuthResult(OutcomePending, _)) => D.Pending
    case Ok(_) => D.Approved
  }

  /** How stepPSPCapture takes the result; that an unanswered call took effect makes no difference to it. */
  function CaptureReply(r: Result<()>): D.Reply {
    match r
    case Err(e) => if Retryable(e) then D.Unavailable else D.CaptureRefused
    case Ok(_) => D.CaptureDone
  }

  // ---------------------------------------------------------------- what it does to the payment

  /** The context ended during a wait, and everything the step does afterwards is under that context. */
  predicate OverWith<T>(r: Result<T>) {
    r.Err? && r.error.ContextEnded?
  }

  /**
   * One effect of the driver under its context. Once that has ended, nothing leaves the process: a
   * release errs, and compensation goes on to its failure write; a transaction does not begin.
   */
  function Effect(t: Terms, c: Core, pc: D.Pc, r: D.Reply, over: bool): (Core, D.Pc)
    requires D.Fits(c, pc, r)
  {
    if !over then D.Exec(t, c, pc, r)
    else if pc.CallRelease? then (c, D.WriteFailed(pc.p, pc.code))
    else (c, D.Idle)
  }

  predicate OfRelease(r: D.Reply) {
    r.ReleaseDone? || r.ReleaseLost? || r.Unavailable?
  }

  /** The rest of the step after the processor's verdict: a write, a touch, or a compensation. */
  function Finish(t: Terms, c: Core, pc: D.Pc, release: D.Reply, over: bool): Core
    requires OfRelease(release) && (pc.CallRelease? || D.Fits(c, pc, D.Stored))
  {
    if pc.CallRelease? then
      var (c', pc') := Effect(t, c, pc, release, over);
      Effect(t, c', pc', D.Stored, over).0
    else Effect(t, c, pc, D.Stored, over).0
  }

  /**
   * The payment after stepSubmit has asked the processor. The context may have ended in a wait, or
   * it ends between the exchange and what the step does about it.
   */
  function Submitted(t: Terms, c: Core, p: Payment, world: seq<Attempt>, ended: bool, release: D.Reply): Core
    requires |world| == 3 && OfRelease(release)
  {
    var r := Retried(AuthTurns(t.via, world));
    var (c', pc) := D.Exec(t, c, D.CallAuthorize(p), AuthorizeReply(r));
    Finish(t, c', pc, release, ended || OverWith(r))
  }

  /** The payment after stepPSPCapture has asked the processor, likewise; its own part is in c already. */
  function Captured(t: Terms, c: Core, p: Payment, world: seq<Attempt>, ended: bool, release: D.Reply): Core
    requires |world| == 3 && OfRelease(release)
  {
    var r := Retried(CaptureTurns(world));
    Finish(t, c, D.AfterCapture(p, CaptureReply(r)), release, ended || OverWith(r))
  }

  // ---------------------------------------------------------------- unreachable is never declined

  predicate Dismisses(a: Attempt) {
    SaysNo(a.g) || a.g == Called(NoRequest)
  }

  /** Every guarded call is silent, a yes, a wait, a no, or was never sent, and means what it says. */
  lemma TurnMeaning(via: Method, g: Guarded)
    ensures var r := AuthorizeOnce(via, g);
            && (r == Err(ErrUnavailable) <==> Unreachable(g))
            && Means(g, r)
            && (Unreachable(g) || SaysYes(g) || SaysWait(g) || SaysNo(g) || g == Called(NoRequest))
  {
  }

  /** The wallet's reading of a missing outcome never applies: both adapters answer alike. */
  lemma AdaptersAgree(via: Method, x: Exchange)
    ensures InnerAuthorize(via, x) == DoAuthorize(x)
  {
  }

  /** Under a context that has ended, a step leaves the payment as it is. */
  lemma OverChangesNothing(t: Terms, c: Core, pc: D.Pc, release: D.Reply)
    requires OfRelease(release) && (pc.CallRelease? || D.Fits(c, pc, D.Stored))
    ensures Finish(t, c, pc, release, true) == c
  {
  }

  predicate Heard(world: seq<Attempt>, k: nat) {
    && k < |world|
    && (forall i :: 0 <= i < k ==> Unreachable(world[i].g) && world[i].wait.Elapsed?)
    && (!Unreachable(world[k].g) || world[k].wait.Ended? || k == |world| - 1)
  }

  lemma Hears(via: Method, world: seq<Attempt>) returns (k: nat)
    requires world != []
    ensures Heard(world, k)
    ensures var r := Retried(AuthTurns(via, world));
            if Conclusive(world[k]) then Means(world[k].g, r)
            else if world[k].wait.Ended? then r == Err(ContextEnded(world[k].wait.cancelled))
            else r == Err(ErrUnavailable)
    ensures Conclusive(world[k]) <==> Approves(world[k]) || Defers(world[k]) || Dismisses(world[k])
  {
    var turns := AuthTurns(via, world);
    k := SomeTurnDecides(turns);
    AuthTurnsMean(via, world);
    FirstSettles(turns, k);
    TurnMeaning(via, world[k].g);
  }

  /** The payment as submitted and approved: its step, its reference, and its authorized event. */
  function SubmittedAs(t: Terms, c: Core, p: Payment): Core {
    var row := c.row.(step := Step.Submitted, status := Processing, pspRef := Some(t.pspRef));
    c.(row := row.(version := c.row.version + 1), outbox := c.outbox + [PaymentAuthorized(p.holdId, t.pspRef)])
  }

  /** The payment as submitted and pending: its step, and nothing else. */
  function PendingAs(c: Core): Core {
    c.(row := c.row.(step := Step.Submitted, status := Processing, version := c.row.version + 1))
  }

  /** What the step does, by the exchange that settles it. */
  lemma AuthCase(t: Terms, c: Core, p: Payment, world: seq<Attempt>, ended: bool, release: D.Reply) returns (k: nat)
    requires |world| == 3 && OfRelease(release)
    ensures Heard(world, k)
    ensures var c' := Submitted(t, c, p, world, ended, release);
            if ended || !Conclusive(world[k]) then c' == c
            else if Approves(world[k]) then p.step == c.row.step ==> c' == SubmittedAs(t, c, p)
            else if Defers(world[k]) then p.step == c.row.step ==> c' == PendingAs(c)
            else Dismisses(world[k]) && c' == Finish(t, c, D.Compensate(p, GatewayDeclined), release, false)
    ensures Conclusive(world[k]) && !Dismisses(world[k]) ==>
              Submitted(t, c, p, world, ended, release).hold == c.hold
              && (c.row.status == Processing ==> Submitted(t, c, p, world, ended, release).row.status == Processing)
  {
    k := Hears(t.via, world);
    var r := Retried(AuthTurns(t.via, world));
    var pc := D.AfterAuthorize(t, p, AuthorizeReply(r));
    if ended || OverWith(r) {
      OverChangesNothing(t, c, pc, release);
    }
  }

  lemma CompensatedFails(t: Terms, c: Core, p: Payment, code: FailureCode, release: D.Reply)
    requires OfRelease(release) && c.row.status == Processing
    ensures var c' := Finish(t, c, D.Compensate(p, code), release, false);
            c'.row.status == Failed && c'.row.step == Done && c'.row.failureCode == Some(code)
  {
  }

  /**
   * Unreachable is never declined, whatever becomes of the context: stepSubmit fails an open payment
   * if and only if the first conclusive exchange was a no (or the request could not be built) and the
   * context outlived it. It lets go of the hold in no other case; and without a conclusive exchange,
   * be it for silence, breaker refusals, a deadline or a cancellation, the payment stays as it is.
   */
  lemma GivesUpExactly(t: Terms, c: Core, p: Payment, world: seq<Attempt>, ended: bool, release: D.Reply)
    requires |world| == 3 && OfRelease(release) && c.row.status == Processing
    ensures var c' := Submitted(t, c, p, world, ended, release);
            && (c'.row.status == Failed <==>
                  (!ended && exists k: nat :: FirstToSettle(world, k, Dismisses, Unreachable)))
            && (c'.row.status == Failed ==> c'.row.failureCode == Some(GatewayDeclined))
            && (c'.row.status != Failed ==> c'.hold == c.hold)
            && (ended || (forall k: nat :: !FirstToSettle(world, k, Conclusive, Unreachable)) ==> c' == c)
  {
    var k := AuthCase(t, c, p, world, ended, release);
    OnlyOneSettles(world, k, Unreachable);
    CompensatedFails(t, c, p, GatewayDeclined, release);
    if Conclusive(world[k]) {
      assert FirstToSettle(world, k, Conclusive, Unreachable);
      assert Dismisses(world[k]) ==> FirstToSettle(world, k, Dismisses, Unreachable);
    }
  }

  /**
   * And a yes is taken for a yes, a wait for a wait: at funds_held the payment becomes submitted if
   * and only if the first conclusive exchange was one of them and the context outlived it; with a
   * yes it gets the processor's reference and its authorized event, and with a wait neither.
   */
  lemma SubmitsExactly(t: Terms, c: Core, p: Payment, world: seq<Attempt>, ended: bool, release: D.Reply)
    requires |world| == 3 && OfRelease(release)
    requires c.row.status == Processing && c.row.step == FundsHeld == p.step
    ensures var c' := Submitted(t, c, p, world, ended, release);
            && (!ended && (exists k: nat :: FirstToSettle(world, k, Approves, Unreachable)) ==>
                  c' == SubmittedAs(t, c, p))
            && (!ended && (exists k: nat :: FirstToSettle(world, k, Defers, Unreachable)) ==> c' == PendingAs(c))
            && (c'.row.step == Step.Submitted ==>
                  && !ended
                  && ((exists k: nat :: FirstToSettle(world, k, Approves, Unreachable))
                      || (exists k: nat :: FirstToSettle(world, k, Defers, Unreachable))))
  {
    var k := AuthCase(t, c, p, world, ended, release);
    OnlyOneSettles(world, k, Unreachable);
    CompensatedFails(t, c, p, GatewayDeclined, release);
    assert Approves(world[k]) ==> FirstToSettle(world, k, Approves, Unreachable);
    assert Defers(world[k]) ==> FirstToSettle(world, k, Defers, Unreachable);
  }

  /** Where one attempt is the first that was not silent, no other is. */
  lemma OnlyOneSettles(world: seq<Attempt>, k: nat, silent: Guarded -> bool)
    requires k < |world| && forall i :: 0 <= i < k ==> silent(world[i].g) && world[i].wait.Elapsed?
    requires !silent(world[k].g) || world[k].wait.Ended? || k == |world| - 1
    ensures forall n: nat, p: Attempt -> bool ::
              FirstToSettle(world, n, p, silent) && (forall a :: p(a) ==> !silent(a.g)) ==> n == k
  {
  }

  /** So a payment failed as declined was turned down by the processor in so many words. */
  lemma DeclinedIsAnswered(t: Terms, c: Core, p: Payment, world: seq<Attempt>, ended: bool, release: D.Reply)
    requires |world| == 3 && OfRelease(release) && c.row.status == Processing
    requires forall a :: a in world ==> a.g != Called(NoRequest)
    ensures Submitted(t, c, p, world, ended, release).row.status == Failed ==> exists a :: a in world && SaysNo(a.g)
  {
    GivesUpExactly(t, c, p, world, ended, release);
    if Submitted(t, c, p, world, ended, release).row.status == Failed {
      var k: nat :| FirstToSettle(world, k, Dismisses, Unreachable);
      assert world[k] in world;
    }
  }

  /** An attempt that meets nothing but silence, however it ends, leaves the payment to the next one. */
  lemma SilenceChangesNothing(t: Terms, c: Core, p: Payment, world: seq<Attempt>, ended: bool, release: D.Reply)
    requires |world| == 3 && OfRelease(release) && c.row.status == Processing
    requires forall a :: a in world ==> Unreachable(a.g)
    ensures Submitted(t, c, p, world, ended, release) == c
  {
    GivesUpExactly(t, c, p, world, ended, release);
    forall k: nat ensures !FirstToSettle(world, k, Conclusive, Unreachable) {
      if k < |world| {
        assert world[k] in world;
      }
    }
  }

  /**
   * A wait that a cancellation cuts short is read as a refusal, and one that a deadline cuts short as
   * silence; but neither lets go of anything, since what follows is under the context that has ended.
   */
  lemma CancellationIsReadAsRefusal(t: Terms, c: Core, p: Payment, world: seq<Attempt>, ended: bool,
                                    release: D.Reply, k: nat)
    requires |world| == 3 && OfRelease(release) && FirstToSettle(world, k, CutShort, Unreachable)
    requires c.row.status == Processing
    ensures AuthorizeReply(Retried(AuthTurns(t.via, world))) ==
            if world[k].wait.cancelled then D.Rejected else D.Unavailable
    ensures Submitted(t, c, p, world, ended, release) == c
  {
    var turns := AuthTurns(t.via, world);
    AuthTurnsMean(t.via, world);
    FirstSettles(turns, k);
    var reply := AuthorizeReply(Retried(turns));
    OverChangesNothing(t, c, D.AfterAuthorize(t, p, reply), release);
  }

  /** The same for the capture. */
  lemma CancelledCaptureIsReadAsRefusal(t: Terms, c: Core, p: Payment, world: seq<Attempt>, ended: bool,
                                        release: D.Reply, k: nat)
    requires |world| == 3 && OfRelease(release) && FirstToSettle(world, k, CaptureCutShort, CaptureSilent)
    ensures CaptureReply(Retried(CaptureTurns(world))) ==
            if world[k].wait.cancelled then D.CaptureRefused else D.Unavailable
    ensures Captured(t, c, p, world, ended, release) == c
  {
    var turns := CaptureTurns(world);
    CaptureTurnsMean(world);
    FirstSettles(turns, k);
    OverChangesNothing(t, c, D.AfterCapture(p, CaptureReply(Retried(turns))), release);
  }

  // ---------------------------------------------------------------- the capture

  predicate CaptureDismisses(a: Attempt) {
    a.g.Called? && (a.g.x.NoRequest? || (a.g.x.Http? && 400 <= a.g.x.status < 500))
  }

  predicate CaptureConfirms(a: Attempt) {
    a.g.Called? && a.g.x.Http? && a.g.x.status < 400
  }

  predicate CaptureHeard(world: seq<Attempt>, k: nat) {
    && k < |world|
    && (forall i :: 0 <= i < k ==> CaptureSilent(world[i].g) && world[i].wait.Elapsed?)
    && (!CaptureSilent(world[k].g) || world[k].wait.Ended? || k == |world| - 1)
  }

  lemma CaptureHears(world: seq<Attempt>) returns (k: nat)
    requires world != []
    ensures CaptureHeard(world, k)
    ensures Retried(CaptureTurns(world)) ==
            if CaptureConclusive(world[k]) then DoPost(world[k].g.x)
            else if world[k].wait.Ended? then Err(ContextEnded(world[k].wait.cancelled))
            else Err(ErrUnavailable)
  {
    var turns := CaptureTurns(world);
    k := SomeTurnDecides(turns);
    CaptureTurnsMean(world);
    FirstSettles(turns, k);
  }

  /** What the step does, by the exchange that settles it. */
  lemma CaptureCase(t: Terms, c: Core, p: Payment, world: seq<Attempt>, ended: bool, release: D.Reply)
          returns (k: nat)
    requires |world| == 3 && OfRelease(release)
    requires c.row.status == Processing && c.row.step == Step.Submitted == p.step
    ensures CaptureHeard(world, k)
    ensures var c' := Captured(t, c, p, world, ended, release);
            if ended || !CaptureConclusive(world[k]) then c' == c
            else if CaptureDismisses(world[k]) then
              c'.row.status == Failed && c'.row.step == Done && c'.row.failureCode == Some(GatewayCaptureFailed)
            else
              c' == c.(row := c.row.(step := PspCaptured, version := c.row.version + 1))
    ensures D.Fits(c, D.CallCapture(p), CaptureReply(Retried(CaptureTurns(world))))
    ensures CaptureConclusive(world[k]) <==> CaptureDismisses(world[k]) || CaptureConfirms(world[k])
  {
    k := CaptureHears(world);
    var r := Retried(CaptureTurns(world));
    var pc := D.AfterCapture(p, CaptureReply(r));
    if ended || OverWith(r) {
      OverChangesNothing(t, c, pc, release);
    }
  }

  /**
   * The same for the capture, in both directions: the payment fails exactly when the first
   * conclusive exchange refused the capture, is recorded as collected exactly when it confirmed it,
   * both under a context that outlives the exchange, and is otherwise left as it is.
   */
  lemma CaptureVerdict(t: Terms, c: Core, p: Payment, world: seq<Attempt>, ended: bool, release: D.Reply)
    requires |world| == 3 && OfRelease(release)
    requires c.row.status == Processing && c.row.step == Step.Submitted == p.step
    ensures var c' := Captured(t, c, p, world, ended, release);
            && (c'.row.status == Failed <==>
                  (!ended && exists k: nat :: FirstToSettle(world, k, CaptureDismisses, CaptureSilent)))
            && (c'.row.step == PspCaptured <==>
                  (!ended && exists k: nat :: FirstToSettle(world, k, CaptureConfirms, CaptureSilent)))
            && (c'.row.status != Failed ==> c'.hold == c.hold)
            && (ended || (forall k: nat :: !FirstToSettle(world, k, CaptureConclusive, CaptureSilent)) ==>
                  c' == c)
  {
    var k := CaptureCase(t, c, p, world, ended, release);
    OnlyOneSettles(world, k, CaptureSilent);
    if CaptureConclusive(world[k]) {
      assert FirstToSettle(world, k, CaptureConclusive, CaptureSilent);
      assert CaptureDismisses(world[k]) ==> FirstToSettle(world, k, CaptureDismisses, CaptureSilent);
      assert CaptureConfirms(world[k]) ==> FirstToSettle(world, k, CaptureConfirms, CaptureSilent);
    }
  }
}
