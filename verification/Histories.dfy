/**
 * Whole attempts are serial runs: what Attempts defines effect by effect, and the engine performs
 * method by method, is among the runs of which Serial proves its theorems.
 */
module Histories {
  import opened Wrappers
  import opened Payments
  import opened Driver
  import opened Attempts
  import I = Interleaved
  import S = Serial

  /**
   * A driver started on the payment, with the answers and the faults it meets; the expiry statement;
   * or the account-service's own release of the hold.
   */
  datatype Job = Job(entry: Pc, ans: Answers, faults: seq<Fault>) | Expiry | Lapse

  predicate Starts(c: Core, job: Job) {
    job.Job? && MayStart(c.row, job.entry)
  }

  /** One job, from its scan to its end; one whose scan fails does not start. */
  function Completed(t: Terms, c: Core, job: Job): Core {
    if Starts(c, job) then Drive(t, job.ans, c, job.entry, job.faults)
    else if job.Expiry? then ExpireStepUp(c)
    else if job.Lapse? && c.hold.Hold? then ReleaseHold(c, c.hold.id)
    else c
  }

  function Perform(t: Terms, c: Core, jobs: seq<Job>): Core
    decreases |jobs|
  {
    if jobs == [] then c else Perform(t, Completed(t, c, jobs[0]), jobs[1..])
  }

  /** The serial actions of one effect: taken, taken and died after, or died before. */
  function HopActs(ans: Answers, at: Point): seq<S.Action>
    requires !at.pc.Idle?
  {
    var go := S.Go(Answer(ans, at.c, at.pc));
    if !(at.faults != [] && at.faults[0].Cut?) then [go]
    else if at.faults[0].applied then [go, S.Die]
    else [S.Die]
  }

  function BurstActs(t: Terms, ans: Answers, at: Point): seq<S.Action>
    requires !at.pc.Idle?
    decreases Rank(at.pc)
  {
    var h := Hop(t, ans, at);
    HopDescends(t, ans, at);
    HopActs(ans, at) + if h.pc.Idle? || h.pc.Start? then [] else BurstActs(t, ans, h)
  }

  function AdvanceActs(t: Terms, ans: Answers, c: Core, faults: seq<Fault>): seq<S.Action>
    decreases 6 - StepRank(c.row.step)
  {
    var at := Point(c, Start, faults);
    var b := Burst(t, ans, at);
    BurstProgress(t, ans, at);
    BurstActs(t, ans, at) + if b.pc.Start? then AdvanceActs(t, ans, b.c, b.faults) else []
  }

  function DriveActs(t: Terms, c: Core, job: Job): seq<S.Action>
    requires Starts(c, job)
  {
    var at := Point(c, job.entry, job.faults);
    var b := Burst(t, job.ans, at);
    [S.Begin(job.entry)] + BurstActs(t, job.ans, at) + if b.pc.Start? then AdvanceActs(t, job.ans, b.c, b.faults)
        else []
  }

  function JobActs(t: Terms, c: Core, job: Job): seq<S.Action> {
    if Starts(c, job) then DriveActs(t, c, job) else if job.Expiry? then [S.StepUpExpires]
    else if job.Lapse? then [S.HoldLapses] else []
  }

  function PerformActs(t: Terms, c: Core, jobs: seq<Job>): seq<S.Action>
    decreases |jobs|
  {
    if jobs == [] then [] else JobActs(t, c, jobs[0]) + PerformActs(t, Completed(t, c, jobs[0]), jobs[1..])
  }

  lemma One(t: Terms, s: S.Solo, a: S.Action)
    ensures S.Run(t, s, [a]) == S.Next(t, s, a)
  {
    assert S.Run(t, s, [a]) == S.Run(t, S.Next(t, s, a), []);
  }

  /** The serial state at this place of a driver. */
  predicate At(s: S.Solo, c: Core, pc: Pc) {
    s.c == c && s.pc == pc
  }

  /** If the driver's release errored, it was because these answers make it. */
  predicate Blames(ans: Answers, excused: bool, s: S.Solo) {
    && (s.errored ==> !ans.release.ReleaseDone?)
    && (s.excused ==> excused || !ans.release.ReleaseDone?)
  }

  lemma HopIsSerial(t: Terms, ans: Answers, at: Point, s: S.Solo, excused: bool)
    requires !at.pc.Idle? && At(s, at.c, at.pc) && Blames(ans, excused, s)
    ensures var h, s' := Hop(t, ans, at), S.Run(t, s, HopActs(ans, at));
            At(s', h.c, h.pc) && Blames(ans, excused, s')
  {
    var go := S.Go(Answer(ans, at.c, at.pc));
    One(t, s, go);
    One(t, s, S.Die);
    One(t, S.Next(t, s, go), S.Die);
    S.Concatenated(t, s, [go], [S.Die]);
    assert [go] + [S.Die] == [go, S.Die];
  }

  lemma {:induction false} BurstIsSerial(t: Terms, ans: Answers, at: Point, s: S.Solo, excused: bool)
    requires !at.pc.Idle? && At(s, at.c, at.pc) && Blames(ans, excused, s)
    ensures var b, s' := Burst(t, ans, at), S.Run(t, s, BurstActs(t, ans, at));
            At(s', b.c, b.pc) && Blames(ans, excused, s')
    decreases Rank(at.pc)
  {
    var h := Hop(t, ans, at);
    HopDescends(t, ans, at);
    HopIsSerial(t, ans, at, s, excused);
    if h.pc.Idle? || h.pc.Start? {
      assert HopActs(ans, at) + [] == HopActs(ans, at);
    } else {
      BurstIsSerial(t, ans, h, S.Run(t, s, HopActs(ans, at)), excused);
      S.Concatenated(t, s, HopActs(ans, at), BurstActs(t, ans, h));
    }
  }

  lemma {:induction false} AdvanceIsSerial(t: Terms, ans: Answers, c: Core, faults: seq<Fault>, s: S.Solo,
          excused: bool)
    requires At(s, c, Start) && Blames(ans, excused, s)
    ensures var s' := S.Run(t, s, AdvanceActs(t, ans, c, faults));
            At(s', Advance(t, ans, c, faults), Idle) && Blames(ans, excused, s')
    decreases 6 - StepRank(c.row.step)
  {
    var at := Point(c, Start, faults);
    var b := Burst(t, ans, at);
    BurstProgress(t, ans, at);
    BurstIsSerial(t, ans, at, s, excused);
    if b.pc.Start? {
      AdvanceIsSerial(t, ans, b.c, b.faults, S.Run(t, s, BurstActs(t, ans, at)), excused);
      S.Concatenated(t, s, BurstActs(t, ans, at), AdvanceActs(t, ans, b.c, b.faults));
    } else {
      assert BurstActs(t, ans, at) + [] == BurstActs(t, ans, at);
    }
  }

  lemma DriveIsSerial(t: Terms, c: Core, job: Job, s: S.Solo)
    requires Starts(c, job) && At(s, c, Idle)
    ensures var s' := S.Run(t, s, DriveActs(t, c, job));
            At(s', Drive(t, job.ans, c, job.entry, job.faults), Idle) && Blames(job.ans, s.excused, s')
  {
    var at := Point(c, job.entry, job.faults);
    var b := Burst(t, job.ans, at);
    var first := [S.Begin(job.entry)];
    var burst := BurstActs(t, job.ans, at);
    One(t, s, first[0]);
    var begun := S.Run(t, s, first);
    BurstIsSerial(t, job.ans, at, begun, s.excused);
    S.Concatenated(t, s, first, burst);
    if b.pc.Start? {
      AdvanceIsSerial(t, job.ans, b.c, b.faults, S.Run(t, begun, burst), s.excused);
      S.Concatenated(t, s, first + burst, AdvanceActs(t, job.ans, b.c, b.faults));
    } else {
      assert first + burst + [] == first + burst;
    }
  }

  lemma JobIsSerial(t: Terms, c: Core, job: Job, s: S.Solo)
    requires At(s, c, Idle)
    ensures var s' := S.Run(t, s, JobActs(t, c, job));
            && At(s', Completed(t, c, job), Idle)
            && (s'.excused ==> s.excused || (job.Job? && !job.ans.release.ReleaseDone?))
  {
    if Starts(c, job) {
      DriveIsSerial(t, c, job, s);
    } else {
      One(t, s, S.StepUpExpires);
      One(t, s, S.HoldLapses);
    }
  }

  /** Any history of jobs on a payment, however they are cut off, is one serial run. */
  lemma {:induction false} HistoriesAreSerial(t: Terms, c: Core, jobs: seq<Job>, s: S.Solo)
    requires At(s, c, Idle)
    ensures At(S.Run(t, s, PerformActs(t, c, jobs)), Perform(t, c, jobs), Idle)
    decreases |jobs|
  {
    if jobs != [] {
      var c' := Completed(t, c, jobs[0]);
      JobIsSerial(t, c, jobs[0], s);
      HistoriesAreSerial(t, c', jobs[1..], S.Run(t, s, JobActs(t, c, jobs[0])));
      S.Concatenated(t, s, JobActs(t, c, jobs[0]), PerformActs(t, c', jobs[1..]));
    }
  }

  /** The job that failed the payment is one whose release errors. */
  predicate FailedUnreleased(t: Terms, c: Core, jobs: seq<Job>)
    decreases |jobs|
  {
    jobs != [] &&
    var c' := Completed(t, c, jobs[0]);
    if c.row.status != Failed && c'.row.status == Failed then jobs[0].Job? && !jobs[0].ans.release.ReleaseDone?
    else FailedUnreleased(t, c', jobs[1..])
  }

  lemma {:induction false} ExcuseIsEarned(t: Terms, c: Core, jobs: seq<Job>, s: S.Solo)
    requires At(s, c, Idle) && S.Inv(s) && !s.excused && S.Run(t, s, PerformActs(t, c, jobs)).excused
    ensures FailedUnreleased(t, c, jobs)
    decreases |jobs|
  {
    if jobs != [] {
      var c', first := Completed(t, c, jobs[0]), JobActs(t, c, jobs[0]);
      var rest := PerformActs(t, c', jobs[1..]);
      var s' := S.Run(t, s, first);
      JobIsSerial(t, c, jobs[0], s);
      S.RunKeeps(t, s, first);
      S.Concatenated(t, s, first, rest);
      if c.row.status == Failed {
        S.FailedRun(t, s, first);
      }
      if !s'.excused {
        if c'.row.status == Failed {
          S.FailedRun(t, s', rest);
        }
        ExcuseIsEarned(t, c', jobs[1..], s');
      }
    }
  }

  /**
   * So what Serial and Interleaved prove holds of every history of attempts, completions, resumes,
   * sweeps and lapses, each with its own answers and its own crashes: a failed payment holds no
   * funds, unless the release of the very job that failed it errored; its subscribers know, unless
   * its step-up expired, in which case it never held any; and the money of a succeeded one is taken
   * by the processor and by the ledger.
   */
  lemma HistoriesAreSafe(t: Terms, jobs: seq<Job>)
    ensures var c := Perform(t, Created(), jobs);
            && (c.row.status == Failed ==>
                  && (c.hold.NoHold? || c.hold.state == Released || FailedUnreleased(t, Created(), jobs))
                  && c.row.failureCode.Some?
                  && (if c.row.failureCode == Some(StepUpExpired) then c.hold.NoHold?
                      else PaymentFailed(c.row.failureCode.value) in c.outbox))
            && (c.row.status == Succeeded ==> c.settled && c.hold.Hold? && c.hold.state == Taken)
            && (c.hold.Hold? && c.hold.state == Taken ==> c.settled)
  {
    var s, acts := S.Initial(), PerformActs(t, Created(), jobs);
    HistoriesAreSerial(t, Created(), jobs, s);
    S.RunKeeps(t, s, acts);
    S.SerialIsInterleaved(t, s, acts, I.Initial(t, 0));
    I.LedgerAfterProcessor(t, 0, S.LiftRun(t, s, acts));
    if S.Run(t, s, acts).excused {
      ExcuseIsEarned(t, Created(), jobs, s);
    }
  }

  // ---------------------------------------------------------------- crash transparency, wherever a payment stands

  lemma SoundStep(t: Terms, s: S.Solo, a: S.Action)
    requires S.Inv(s) && Sound(s.c)
    ensures Sound(S.Next(t, s, a).c)
  {
  }

  lemma {:induction false} SoundRun(t: Terms, s: S.Solo, acts: seq<S.Action>)
    requires S.Inv(s) && Sound(s.c)
    ensures Sound(S.Run(t, s, acts).c)
    decreases |acts|
  {
    if acts != [] {
      SoundStep(t, s, acts[0]);
      S.NextKeeps(t, s, acts[0]);
      SoundRun(t, S.Next(t, s, acts[0]), acts[1..]);
    }
  }

  /** Crash transparency holds from every state a payment can be in, not only from the beginning. */
  lemma TransparentEverywhere(t: Terms, ans: Answers, acts: seq<S.Action>, attempts: seq<seq<Fault>>)
    ensures var c := S.Run(t, S.Initial(), acts).c;
            Advance(t, ans, Attempt(t, ans, c, attempts), []) == Advance(t, ans, c, [])
  {
    SoundRun(t, S.Initial(), acts);
    CrashTransparency(t, ans, S.Run(t, S.Initial(), acts).c, attempts);
  }
}
