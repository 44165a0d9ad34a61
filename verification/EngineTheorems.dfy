/** What holds of a run over every interleaving of its executions, its operators and recovery. */
module EngineTheorems {
  import opened Wrappers
  import opened PipelineLifecycle
  import opened EngineTransactions
  import opened EngineSystem
  import opened EngineSafety

  /** Everything reachable from a submission. */
  ghost predicate Reachable(s: System, policy: RetryPolicy) {
    exists definition, input, events {:trigger After(Initial(definition, input), policy, events)} ::
      ValidDefinition(definition) && s == After(Initial(definition, input), policy, events)
  }

  lemma ReachableInv(s: System, policy: RetryPolicy)
    requires Reachable(s, policy) && policy.maxRunAttempts > 0
    ensures Inv(s, policy)
  {
    var definition, input, events :|
      ValidDefinition(definition) && s == After(Initial(definition, input), policy, events);
    InitialInv(definition, input, policy);
    AfterKeepsInv(Initial(definition, input), policy, events);
  }

  /* ----- the joint run/step invariant ----- */

  /**
   In every reachable state the plan is k SUCCEEDED steps, then at most one step that is RUNNING or
   FAILED, then only QUEUED or only CANCELLED ones, and the run status says which.
  */
  lemma RunAndStepsAgree(s: System, policy: RetryPolicy)
    requires Reachable(s, policy) && policy.maxRunAttempts > 0
    ensures var run, steps := s.rows.run, s.rows.steps; var k := Done(steps);
            && |steps| > 0
            && (forall i :: 0 <= i < k ==> steps[i].status == StepSucceeded)
            && (forall i :: k <= i < |steps| ==> steps[i].status != StepSucceeded)
            && (forall i :: k < i < |steps| ==> steps[i].status == StepQueued || steps[i].status == StepCancelled)
            && (forall i, j :: k < i < j < |steps| ==> steps[i].status == steps[j].status)
            && (forall i :: 0 <= i < |steps| && steps[i].status == StepRunning ==> InFlight(run.status))
            && (forall i :: 0 <= i < |steps| && steps[i].status == StepFailed ==> run.status == RunFailed)
            && (run.status == RunSucceeded <==> k == |steps| && run.status != RunCancelled)
            && (run.status == RunCancelled ==> Tail(steps, k, StepCancelled))
            && (forall i :: 0 <= i < |steps| && steps[i].attempt > 0 ==> steps[i].inputHash.Some?)
  {
    ReachableInv(s, policy);
  }

  /** Reported progress is k/n; only a CANCELLED run may report 1.0 instead, as stale recovery makes it do. */
  lemma ProgressIsTheShareDone(s: System, policy: RetryPolicy)
    requires Reachable(s, policy) && policy.maxRunAttempts > 0
    ensures var run, steps := s.rows.run, s.rows.steps;
            && |steps| > 0
            && (run.progress == Done(steps) as real / |steps| as real
                || (run.status == RunCancelled && run.progress == 1.0))
            && (run.status == RunSucceeded ==> run.progress == 1.0)
            && 0.0 <= run.progress <= 1.0
  {
    ReachableInv(s, policy);
    var k, n := Done(s.rows.steps), |s.rows.steps|;
    RatioBound(k, n);
    RatioOfAll(n);
  }

  lemma RatioOfAll(n: nat)
    requires n > 0
    ensures n as real / n as real == 1.0
  {
  }

  /** An execution that is between two steps counts exactly the SUCCEEDED rows and remembers exactly their outputs. */
  lemma MemoryMatchesRows(s: System, policy: RetryPolicy)
    requires Reachable(s, policy) && policy.maxRunAttempts > 0
    ensures var claim := s.rows.run.attempt;
            InFlight(s.rows.run.status) && claim in s.executions ==>
              match s.executions[claim].pc
              case AtCheckpoint(_, outputs, succeeded) =>
                succeeded == Done(s.rows.steps) && outputs == OutputsOf(s.rows.steps, succeeded)
              case AtExecute(_, outputs, succeeded, _) =>
                succeeded == Done(s.rows.steps) && outputs == OutputsOf(s.rows.steps, succeeded)
              case AtPersist(_, outputs, succeeded, _) =>
                succeeded == Done(s.rows.steps) && outputs == OutputsOf(s.rows.steps, succeeded)
              case _ => true
  {
    ReachableInv(s, policy);
    if s.rows.run.attempt in s.executions {
      assert ExecutionOk(s, s.executions[s.rows.run.attempt]);
    }
  }

  /* ----- exactly-once effects ----- */

  function CountEffects(effects: seq<Effect>, step: nat): nat {
    if effects == [] then 0
    else CountEffects(effects[..|effects| - 1], step) + (if effects[|effects| - 1].step == step then 1 else 0)
  }

  lemma {:induction false} InOrderCount(effects: seq<Effect>, step: nat)
    requires forall i :: 0 <= i < |effects| ==> effects[i].step == i
    ensures CountEffects(effects, step) == if step < |effects| then 1 else 0
  {
    if effects != [] {
      InOrderCount(effects[..|effects| - 1], step);
    }
  }

  /**
   A step's persist is committed once if its row is SUCCEEDED and never otherwise, and what was
   committed is what the claim that started the step's latest attempt produced.
  */
  lemma ExactlyOnce(s: System, policy: RetryPolicy, step: nat)
    requires Reachable(s, policy) && policy.maxRunAttempts > 0 && step < |s.rows.steps|
    ensures CountEffects(s.effects, step) == if s.rows.steps[step].status == StepSucceeded then 1 else 0
    ensures s.rows.steps[step].status == StepSucceeded ==>
              step in s.starters
              && Effect(step, s.rows.steps[step].attempt, s.rows.steps[step].output, s.starters[step]) in s.effects
  {
    ReachableInv(s, policy);
    InOrderCount(s.effects, step);
  }

  /* ----- terminal runs and cancellation ----- */

  lemma PrepareLeavesTerminal(s: System, claim: nat, now: Time, policy: RetryPolicy)
    requires Inv(s, policy) && TerminalRun(s.rows.run.status) && claim in s.executions
             && s.executions[claim].pc.AtPrepare?
    ensures StepPrepare(s, claim, now).rows == s.rows && StepPrepare(s, claim, now).effects == s.effects
  {
    assert ExecutionOk(s, s.executions[claim]);
    PrepareIdle(s.rows, s.executions[claim].claimed, s.executions[claim].definition, now, policy);
  }

  lemma CheckpointLeavesTerminal(s: System, claim: nat, stop: bool, now: Time)
    requires TerminalRun(s.rows.run.status) && claim in s.executions && s.executions[claim].pc.AtCheckpoint?
    ensures StepCheckpoint(s, claim, stop, now).rows == s.rows
            && StepCheckpoint(s, claim, stop, now).effects == s.effects
  {
  }

  lemma PersistLeavesTerminal(s: System, claim: nat, verdict: PersistVerdict, now: Time)
    requires TerminalRun(s.rows.run.status) && claim in s.executions && s.executions[claim].pc.AtPersist?
    ensures StepPersist(s, claim, verdict, now).rows == s.rows
            && StepPersist(s, claim, verdict, now).effects == s.effects
  {
    var x := s.executions[claim];
    var pc := x.pc;
    if pc.index < |s.rows.steps| && |x.definition| > 0 {
      RejectedPersist(s.rows, x.claimed, pc.index, pc.stepAttempt, verdict, pc.succeeded, |x.definition|, now);
    }
  }

  lemma FailureLeavesTerminal(s: System, claim: nat, policy: RetryPolicy, jitter: real, now: Time)
    requires TerminalRun(s.rows.run.status) && claim in s.executions && s.executions[claim].pc.AtFailure?
    ensures StepFailure(s, claim, policy, jitter, now).rows == s.rows
            && StepFailure(s, claim, policy, jitter, now).effects == s.effects
  {
  }

  /** Nothing any execution, operator or recovery does ever moves a terminal run or its steps. */
  lemma TerminalIsForever(s: System, policy: RetryPolicy, e: Event)
    requires Inv(s, policy) && TerminalRun(s.rows.run.status)
    ensures Next(s, policy, e).rows == s.rows && Next(s, policy, e).effects == s.effects
  {
    if Enabled(s, e) {
      match e
      case PreparePhase(claim, now) => PrepareLeavesTerminal(s, claim, now, policy);
      case CheckpointPhase(claim, stop, now) => CheckpointLeavesTerminal(s, claim, stop, now);
      case PersistPhase(claim, verdict, now) => PersistLeavesTerminal(s, claim, verdict, now);
      case FailurePhase(claim, jitter, now) => FailureLeavesTerminal(s, claim, policy, jitter, now);
      case _ =>
    }
  }

  lemma {:induction false} TerminalStays(s: System, policy: RetryPolicy, events: seq<Event>, n: nat)
    requires Inv(s, policy) && n <= |events| && TerminalRun(After(s, policy, events[..n]).rows.run.status)
    ensures After(s, policy, events).rows == After(s, policy, events[..n]).rows
  {
    if n == |events| {
      assert events[..n] == events;
    } else {
      var before := events[..|events| - 1];
      assert before[..n] == events[..n];
      TerminalStays(s, policy, before, n);
      AfterKeepsInv(s, policy, before);
      TerminalIsForever(After(s, policy, before), policy, events[|events| - 1]);
    }
  }

  /* ----- how a failed attempt is reported ----- */

  /** `e` is the commit of a failure by the execution that holds the claim of a run in flight. */
  predicate CommitsFailure(s: System, e: Event) {
    e.FailurePhase? && Enabled(s, e) && e.claim == s.rows.run.attempt && InFlight(s.rows.run.status)
  }

  /**
   How the failure of step k must be reported, CANCELLING or not. A permanent failure fails step and run under
   its own code. A retryable one is a cancellation if one was requested, else a retry while attempts remain,
   else a failure. Another step changes only by being cancelled.
  */
  ghost predicate Reported(rows: Rows, t: Rows, k: nat, failure: Failure, policy: RetryPolicy) {
    && k < |t.steps| == |rows.steps|
    && if failure.Retryable? && rows.run.status == RunCancelling then
         t.run.status == RunCancelled && Tail(t.steps, k, StepCancelled)
       else
         && (forall i :: 0 <= i < |t.steps| && i != k ==> t.steps[i] == rows.steps[i])
         && t.steps[k].error == Some(failure.code)
         && if failure.Retryable? && rows.run.attempt < policy.maxRunAttempts then
              t.run.status == RunQueued && t.run.nextAttemptAt.Some? && t.steps[k].status == StepQueued
            else
              t.run.status == RunFailed && t.run.errorCode == Some(failure.code) && t.steps[k].status == StepFailed
  }

  lemma CancellingFailureIsReported(
      rows: Rows, claimed: Claimed, failure: Failure, policy: RetryPolicy, jitter: real, now: Time)
    requires RowsOk(rows, policy) && IsOwner(rows.run, claimed) && rows.run.status == RunCancelling
             && failure.Retryable?
    requires rows.steps[Done(rows.steps)].status == StepRunning
    ensures var k := Done(rows.steps);
            Reported(rows, CommitFailure(rows, claimed, k, rows.steps[k].attempt, failure, policy, jitter, now).0, k,
                failure, policy)
  {
    var k := Done(rows.steps);
    var requeued := MovedStep(rows.steps[k], StepQueued, now, None, Some(failure.code));
    var stopped := MovedStep(requeued, StepCancelled, now, None, None);
    StoppedStep(rows.steps, stopped);
    CancelQueuedShape(rows.steps[k := stopped], now);
  }

  lemma FailedAttemptIsReported(
      rows: Rows, claimed: Claimed, k: nat, failure: Failure, policy: RetryPolicy, jitter: real, now: Time)
    requires k < |rows.steps| && rows.steps[k].status == StepRunning
    requires IsOwner(rows.run, claimed) && InFlight(rows.run.status)
    requires rows.run.status == RunRunning || failure.Permanent?
    ensures Reported(rows, CommitFailure(rows, claimed, k, rows.steps[k].attempt, failure, policy, jitter, now).0, k,
            failure, policy)
  {
  }

  /** Whatever the owner of a run in flight fails with is reported as it must be. */
  lemma FailureIsReported(s: System, policy: RetryPolicy, e: Event)
    requires Inv(s, policy) && CommitsFailure(s, e)
    ensures var pc := s.executions[e.claim].pc;
            pc.index == Done(s.rows.steps) && Reported(s.rows, Next(s, policy, e).rows, pc.index, pc.failure, policy)
  {
    var x := s.executions[e.claim];
    assert ExecutionOk(s, x);
    if x.pc.failure.Retryable? && s.rows.run.status == RunCancelling {
      CancellingFailureIsReported(s.rows, x.claimed, x.pc.failure, policy, e.jitter, e.now);
    } else {
      FailedAttemptIsReported(s.rows, x.claimed, x.pc.index, x.pc.failure, policy, e.jitter, e.now);
    }
  }

  predicate FailsForGood(s: System, e: Event) {
    CommitsFailure(s, e) && s.executions[e.claim].pc.failure.Permanent?
  }

  /** In a run of `events` the n-th one commits a permanent failure. */
  predicate FailsForGoodAt(s: System, policy: RetryPolicy, events: seq<Event>, n: nat)
    requires n < |events|
  {
    FailsForGood(After(s, policy, events[..n]), events[n])
  }

  /** Once a permanent failure is committed the run stays FAILED under the code of that failure, whatever follows. */
  lemma PermanentFailureIsFinal(s: System, policy: RetryPolicy, events: seq<Event>, n: nat)
    requires Inv(s, policy) && n < |events| && FailsForGoodAt(s, policy, events, n)
    ensures var at, run := After(s, policy, events[..n]), After(s, policy, events).rows.run;
            run.status == RunFailed && run.errorCode == Some(at.executions[events[n].claim].pc.failure.code)
  {
    var upTo := events[..n + 1];
    assert upTo[..|upTo| - 1] == events[..n];
    AfterKeepsInv(s, policy, events[..n]);
    FailureIsReported(After(s, policy, events[..n]), policy, events[n]);
    TerminalStays(s, policy, events, n + 1);
  }

  /**
   Once CANCELLING is committed no step starts again, at most the one step already in flight can
   still succeed, and the run can only end CANCELLED or FAILED. It ends CANCELLED only if no
   permanent failure was ever committed.
  */
  lemma {:induction false} CancellationIsSafe(s: System, policy: RetryPolicy, events: seq<Event>)
    requires Inv(s, policy) && s.rows.run.status == RunCancelling
    ensures CancellationOutcome(s.rows, After(s, policy, events).rows)
    ensures forall n :: 0 <= n < |events| && FailsForGoodAt(s, policy, events, n) ==>
              After(s, policy, events).rows.run.status == RunFailed
  {
    CancellationEnds(s, policy, events);
    forall n | 0 <= n < |events| && FailsForGoodAt(s, policy, events, n)
      ensures After(s, policy, events).rows.run.status == RunFailed
    {
      PermanentFailureIsFinal(s, policy, events, n);
    }
  }

  lemma {:induction false} CancellationEnds(s: System, policy: RetryPolicy, events: seq<Event>)
    requires Inv(s, policy) && s.rows.run.status == RunCancelling
    ensures CancellationOutcome(s.rows, After(s, policy, events).rows)
  {
    if events != [] {
      var before := events[..|events| - 1];
      var mid, e := After(s, policy, before), events[|events| - 1];
      CancellationEnds(s, policy, before);
      AfterKeepsInv(s, policy, before);
      if TerminalRun(mid.rows.run.status) {
        TerminalIsForever(mid, policy, e);
      } else {
        NextKeepsInv(mid, policy, e);
      }
    }
  }

  /** A run reported CANCELLED never committed a permanent failure, before or after the request. */
  lemma CancelledNeverFailedForGood(definition: seq<StepDef>, input: Json, policy: RetryPolicy, events: seq<Event>)
    requires ValidDefinition(definition) && policy.maxRunAttempts > 0
    requires After(Initial(definition, input), policy, events).rows.run.status == RunCancelled
    ensures forall n :: 0 <= n < |events| ==> !FailsForGoodAt(Initial(definition, input), policy, events, n)
  {
    var s := Initial(definition, input);
    InitialInv(definition, input, policy);
    forall n | 0 <= n < |events| ensures !FailsForGoodAt(s, policy, events, n) {
      if FailsForGoodAt(s, policy, events, n) {
        PermanentFailureIsFinal(s, policy, events, n);
      }
    }
  }

  /* ----- progress ----- */

  lemma RatioMonotone(a: nat, b: nat, n: nat)
    requires a <= b <= n && n > 0
    ensures a as real / n as real <= b as real / n as real <= 1.0
  {
    var p, q := a as real / n as real, b as real / n as real;
    assert (q - p) * n as real == (b - a) as real;
    NonNegativeFactor(q - p, n as real);
    RatioBound(b, n);
  }

  lemma NonNegativeFactor(x: real, n: real)
    requires n > 0.0 && x * n >= 0.0
    ensures x >= 0.0
  {
  }

  /** Reported progress never falls. */
  lemma ProgressNeverFalls(s: System, policy: RetryPolicy, e: Event)
    requires Inv(s, policy)
    ensures s.rows.run.progress <= Next(s, policy, e).rows.run.progress
  {
    var t := Next(s, policy, e);
    NextKeepsInv(s, policy, e);
    RatioMonotone(Done(s.rows.steps), Done(t.rows.steps), |s.rows.steps|);
    if TerminalRun(s.rows.run.status) {
      TerminalIsForever(s, policy, e);
    }
  }

  lemma RatioStrict(k: nat, n: nat)
    requires k < n
    ensures k as real / n as real < 1.0
  {
    var q := k as real / n as real;
    assert q * n as real == k as real;
  }

  /**
   Stale recovery of a CANCELLING run leaves progress at k/n exactly when it found an orphaned RUNNING
   step; with none, it reports 1.0 although the last n-k steps were cancelled without ever succeeding.
  */
  lemma RecoveredProgressIsExact(rows: Rows, input: RecoveryInput, policy: RetryPolicy)
    requires RowsOk(rows, policy) && rows.run.status == RunCancelling
    ensures var t := RecoverCancelling(rows, input);
            t.run.progress == Fraction(t.steps) <==> rows.steps[Done(rows.steps)].status == StepRunning
  {
    OrphanIsNext(rows, policy);
    CancellingRecovered(rows, input, policy);
    var k, n, t := Done(rows.steps), |rows.steps|, RecoverCancelling(rows, input);
    RatioStrict(k, n);
    if rows.steps[k].status == StepRunning {
      assert t.run.progress == rows.run.progress == Fraction(rows.steps);
    } else {
      CancelQueuedShape(rows.steps, input.now);
      assert t.run.progress == 1.0;
    }
  }

  lemma ClaimedThenCancelling(policy: RetryPolicy, def: StepDef)
    requires policy.maxRunAttempts > 0
    ensures var s := Initial([def], "{}");
            var rows := Next(Next(s, policy, ClaimRun("wk", [def], 0.0)), policy, CancelRequest(1.0)).rows;
            RowsOk(rows, policy) && rows.run.status == RunCancelling && rows.steps == s.rows.steps
  {
    var s0 := Initial([def], "{}");
    var e1, e2 := ClaimRun("wk", [def], 0.0), CancelRequest(1.0);
    InitialInv([def], "{}", policy);
    NextKeepsInv(s0, policy, e1);
    var s1 := Next(s0, policy, e1);
    assert s1.rows.run.status == RunRunning && s1.rows.steps == s0.rows.steps;
    NextKeepsInv(s1, policy, e2);
  }

  /** One submission, one claim, one cancel request, one recovery: 1.0 reported with nothing done. */
  lemma RecoveredProgressCounterexample(policy: RetryPolicy, def: StepDef)
    requires policy.maxRunAttempts > 0
    ensures var events := [ClaimRun("wk", [def], 0.0), CancelRequest(1.0),
                           StaleRecovery(RecoveryInput(true, false, 0.0, 2.0))];
            var t := After(Initial([def], "{}"), policy, events).rows;
            t.run.status == RunCancelled && t.run.progress == 1.0 && Fraction(t.steps) == 0.0
  {
    var s0 := Initial([def], "{}");
    var e1, e2, e3 := ClaimRun("wk", [def], 0.0), CancelRequest(1.0),
        StaleRecovery(RecoveryInput(true, false, 0.0, 2.0));
    AfterThree(s0, policy, e1, e2, e3);
    ClaimedThenCancelling(policy, def);
    RecoveredBetweenSteps(Next(Next(s0, policy, e1), policy, e2), policy, e3);
  }

  lemma RecoveredBetweenSteps(s: System, policy: RetryPolicy, e: Event)
    requires e.StaleRecovery? && RowsOk(s.rows, policy) && s.rows.run.status == RunCancelling
    requires s.rows.steps[0].status == StepQueued
    ensures var t := Next(s, policy, e).rows;
            t.run.status == RunCancelled && t.run.progress == 1.0 && Fraction(t.steps) == 0.0
  {
    DoneIs(s.rows.steps, 0);
    CancelledBetweenStepsRecovered(s.rows, e.input, policy);
    NothingDone(s.rows.steps, e.input.now);
  }

  lemma NothingDone(steps: seq<Step>, now: Time)
    requires |steps| > 0 && Done(steps) == 0 && steps[0].status == StepQueued
    ensures Fraction(CancelQueued(steps, now)) == 0.0
  {
    DoneIs(CancelQueued(steps, now), 0);
  }

  lemma AfterThree(s: System, policy: RetryPolicy, e1: Event, e2: Event, e3: Event)
    ensures After(s, policy, [e1, e2, e3]) == Next(Next(Next(s, policy, e1), policy, e2), policy, e3)
  {
    assert [e1, e2, e3][..2] == [e1, e2] && [e1, e2][..1] == [e1] && [e1][..0] == [];
    assert After(s, policy, [e1]) == Next(s, policy, e1);
    assert After(s, policy, [e1, e2]) == Next(Next(s, policy, e1), policy, e2);
  }

  /* ----- attempts, phases and termination ----- */

  /** How many phases an execution over `n` steps still has in front of it, at most. */
  function PhasesLeft(pc: Pc, n: nat): int {
    match pc
    case AtPrepare => 3 * n + 2
    case AtCheckpoint(index, _, _) => 3 * (n - index) + 1
    case AtExecute(index, _, _, _) => 3 * (n - index)
    case AtPersist(index, _, _, _) => 3 * (n - index) - 1
    case AtFailure(_, _, _) => 1
    case Ended(_) => 0
  }

  /** What one phase does to the execution that takes it, and to nobody else's position. */
  ghost predicate Advances(s: System, t: System, claim: nat) {
    && claim in s.executions && claim in t.executions
    && t.executions == s.executions[claim := t.executions[claim]]
    && t.rows.run.attempt == s.rows.run.attempt
    && 0 <= PhasesLeft(t.executions[claim].pc, |s.rows.steps|) < PhasesLeft(s.executions[claim].pc, |s.rows.steps|)
    && (claim == s.rows.run.attempt && InFlight(s.rows.run.status) && t.executions[claim].pc.Ended? ==>
          !t.executions[claim].pc.reason.Raised?)
  }

  lemma PrepareAdvances(s: System, claim: nat, now: Time, policy: RetryPolicy)
    requires Inv(s, policy) && claim in s.executions && s.executions[claim].pc.AtPrepare?
    ensures Advances(s, StepPrepare(s, claim, now), claim)
  {
    var x := s.executions[claim];
    assert ExecutionOk(s, x);
    PrepareKeepsRows(s.rows, x.claimed, x.definition, now, policy);
  }

  lemma CheckpointAdvances(s: System, claim: nat, stop: bool, now: Time, policy: RetryPolicy)
    requires Inv(s, policy) && claim in s.executions && s.executions[claim].pc.AtCheckpoint?
    ensures Advances(s, StepCheckpoint(s, claim, stop, now), claim)
  {
    CheckpointStartsOrEnds(s, claim, stop, now, policy);
    StartOrEndAdvances(s, claim, StepCheckpoint(s, claim, stop, now), policy);
  }

  lemma StartOrEndAdvances(s: System, claim: nat, t: System, policy: RetryPolicy)
    requires claim in s.executions && s.executions[claim].pc.AtCheckpoint? && ExecutionOk(s, s.executions[claim])
    requires Starts(s, claim, t, policy) || Ends(s, claim, t, policy)
    ensures Advances(s, t, claim)
  {
  }

  lemma AcceptedAdvances(s: System, claim: nat, output: Json, now: Time, policy: RetryPolicy)
    requires Inv(s, policy) && claim in s.executions && s.executions[claim].pc.AtPersist?
    requires claim == s.rows.run.attempt && InFlight(s.rows.run.status)
    ensures Advances(s, StepPersist(s, claim, Persisted(output), now), claim)
  {
    assert ExecutionOk(s, s.executions[claim]);
    SuccessKeepsRows(s.rows, s.executions[claim].claimed, output, now, policy);
  }

  lemma PersistAdvances(s: System, claim: nat, verdict: PersistVerdict, now: Time, policy: RetryPolicy)
    requires Inv(s, policy) && claim in s.executions && s.executions[claim].pc.AtPersist?
    ensures Advances(s, StepPersist(s, claim, verdict, now), claim)
  {
    var x := s.executions[claim];
    assert ExecutionOk(s, x);
    if verdict.Persisted? && claim == s.rows.run.attempt && InFlight(s.rows.run.status) {
      AcceptedAdvances(s, claim, verdict.output, now, policy);
    } else {
      RejectedPersist(s.rows, x.claimed, x.pc.index, x.pc.stepAttempt, verdict, x.pc.succeeded, |x.definition|, now);
    }
  }

  lemma FailureAdvances(s: System, claim: nat, jitter: real, now: Time, policy: RetryPolicy)
    requires Inv(s, policy) && claim in s.executions && s.executions[claim].pc.AtFailure?
    ensures Advances(s, StepFailure(s, claim, policy, jitter, now), claim)
  {
    var x := s.executions[claim];
    assert ExecutionOk(s, x);
    FailureKeepsRows(s.rows, x.claimed, x.pc.index, x.pc.stepAttempt, x.pc.failure, policy, jitter, now);
  }

  /**
   Every phase an execution takes brings it strictly closer to its end, and the execution that holds
   the current claim of a run in flight never raises: no refused transition, no progress out of
   bounds, no broken engine invariant.
  */
  lemma PhaseAdvances(s: System, policy: RetryPolicy, e: Event)
    requires Inv(s, policy) && !EnvironmentEvent(e) && Enabled(s, e)
    ensures Advances(s, Next(s, policy, e), e.claim)
  {
    match e
    case PreparePhase(claim, now) => PrepareAdvances(s, claim, now, policy);
    case CheckpointPhase(claim, stop, now) => CheckpointAdvances(s, claim, stop, now, policy);
    case ExecutePhase(claim, _) => assert ExecutionOk(s, s.executions[claim]);
    case PersistPhase(claim, verdict, now) => PersistAdvances(s, claim, verdict, now, policy);
    case FailurePhase(claim, jitter, now) => FailureAdvances(s, claim, jitter, now, policy);
  }

  /** A new claim, or a phase of the execution that holds the current claim. */
  predicate Productive(s: System, e: Event) {
    Enabled(s, e) && (e.ClaimRun? || (!EnvironmentEvent(e) && e.claim == s.rows.run.attempt))
  }

  /** Attempts left, then phases left, as one number. */
  function WorkLeft(s: System, policy: RetryPolicy): int {
    var n := |s.rows.steps|;
    var owner := s.rows.run.attempt;
    (policy.maxRunAttempts - owner) * (3 * n + 3)
    + (if owner in s.executions then PhasesLeft(s.executions[owner].pc, n) else 0)
  }

  lemma WorkNeverGrows(s: System, policy: RetryPolicy, e: Event)
    requires Inv(s, policy)
    ensures WorkLeft(Next(s, policy, e), policy) + (if Productive(s, e) then 1 else 0) <= WorkLeft(s, policy)
  {
    if e.ClaimRun? && Enabled(s, e) {
      ClaimSpendsWork(s, policy, e);
    } else if EnvironmentEvent(e) {
      EnvironmentKeepsAttempt(s, policy, e);
    } else if Enabled(s, e) {
      PhaseAdvances(s, policy, e);
      NextKeepsInv(s, policy, e);
      AdvanceSpendsWork(s, Next(s, policy, e), e.claim, policy);
    } else {
      assert Next(s, policy, e) == s;
    }
  }

  lemma AdvanceSpendsWork(s: System, t: System, claim: nat, policy: RetryPolicy)
    requires Advances(s, t, claim) && |t.rows.steps| == |s.rows.steps|
    ensures WorkLeft(t, policy) + (if claim == s.rows.run.attempt then 1 else 0) <= WorkLeft(s, policy)
  {
  }

  lemma ClaimSpendsWork(s: System, policy: RetryPolicy, e: Event)
    requires Inv(s, policy) && e.ClaimRun? && Enabled(s, e)
    ensures WorkLeft(Next(s, policy, e), policy) + 1 <= WorkLeft(s, policy)
  {
    if s.rows.run.attempt in s.executions {
      assert ExecutionOk(s, s.executions[s.rows.run.attempt]);
    }
    WorkOfClaim(policy.maxRunAttempts, s.rows.run.attempt, 3 * |s.rows.steps| + 3);
  }

  lemma WorkOfClaim(most: nat, attempt: nat, perClaim: nat)
    ensures (most - attempt) * perClaim == (most - (attempt + 1)) * perClaim + perClaim
  {
  }

  lemma EnvironmentKeepsAttempt(s: System, policy: RetryPolicy, e: Event)
    requires Inv(s, policy) && EnvironmentEvent(e) && !(e.ClaimRun? && Enabled(s, e))
    ensures var t := Next(s, policy, e);
            t.rows.run.attempt == s.rows.run.attempt && t.executions == s.executions && |t.rows.steps| == |s.rows.steps|
  {
  }

  function CountProductive(s: System, policy: RetryPolicy, events: seq<Event>): nat {
    if events == [] then 0
    else
      var before := events[..|events| - 1];
      CountProductive(s, policy, before) + (if Productive(After(s, policy, before), events[|events| - 1]) then 1 else 0)
  }

  lemma {:induction false} WorkIsSpent(s: System, policy: RetryPolicy, events: seq<Event>)
    requires Inv(s, policy)
    ensures WorkLeft(After(s, policy, events), policy) + CountProductive(s, policy, events) <= WorkLeft(s, policy)
  {
    if events != [] {
      var before := events[..|events| - 1];
      WorkIsSpent(s, policy, before);
      AfterKeepsInv(s, policy, before);
      WorkNeverGrows(After(s, policy, before), policy, events[|events| - 1]);
    }
  }

  lemma WorkIsNat(s: System, policy: RetryPolicy)
    requires Inv(s, policy)
    ensures WorkLeft(s, policy) >= 0
  {
    var n, owner := |s.rows.steps|, s.rows.run.attempt;
    if owner in s.executions {
      assert ExecutionOk(s, s.executions[owner]);
    }
    NatProduct(policy.maxRunAttempts - owner, 3 * n + 3);
  }

  lemma NatProduct(a: nat, b: nat)
    ensures a * b >= 0
  {
  }

  /**
   However often a run crashes, is recovered or is retried, it is claimed at most `maxRunAttempts`
   times, and all its claims together take at most `maxRunAttempts * (3n + 3)` phases.
  */
  lemma BoundedWork(definition: seq<StepDef>, input: Json, policy: RetryPolicy, events: seq<Event>)
    requires ValidDefinition(definition) && policy.maxRunAttempts > 0
    ensures var s := Initial(definition, input);
            && After(s, policy, events).rows.run.attempt <= policy.maxRunAttempts
            && CountProductive(s, policy, events) <= policy.maxRunAttempts * (3 * |definition| + 3)
  {
    var s := Initial(definition, input);
    InitialInv(definition, input, policy);
    AfterKeepsInv(s, policy, events);
    WorkIsSpent(s, policy, events);
    WorkIsNat(After(s, policy, events), policy);
    InitialWork(definition, input, policy);
  }

  lemma InitialWork(definition: seq<StepDef>, input: Json, policy: RetryPolicy)
    ensures WorkLeft(Initial(definition, input), policy) == policy.maxRunAttempts * (3 * |definition| + 3)
  {
    assert |Initial(definition, input).rows.steps| == |definition|;
  }

  /** The phase an execution at `pc` is waiting to take. */
  function PendingPhase(claim: nat, pc: Pc): Event
    requires !pc.Ended?
  {
    match pc
    case AtPrepare => PreparePhase(claim, 0.0)
    case AtCheckpoint(_, _, _) => CheckpointPhase(claim, false, 0.0)
    case AtExecute(_, _, _, _) => ExecutePhase(claim, None)
    case AtPersist(_, _, _, _) => PersistPhase(claim, Persisted("{}"), 0.0)
    case AtFailure(_, _, _) => FailurePhase(claim, 0.0, 0.0)
  }

  /** The claim or phase a run that has not ended waits for. */
  function Pending(s: System, definition: seq<StepDef>): Event
    requires InFlight(s.rows.run.status) ==>
             s.rows.run.attempt in s.executions && !s.executions[s.rows.run.attempt].pc.Ended?
  {
    var run := s.rows.run;
    if InFlight(run.status) then PendingPhase(run.attempt, s.executions[run.attempt].pc)
    else ClaimRun("wk", definition, if run.nextAttemptAt.Some? then run.nextAttemptAt.value else 0.0)
  }

  /** Terminal, or stopped for shutdown between two steps until recovery requeues it. */
  predicate EndedOrPaused(s: System) {
    || TerminalRun(s.rows.run.status)
    || (InFlight(s.rows.run.status) && s.rows.run.attempt in s.executions
        && s.executions[s.rows.run.attempt].pc == Ended(Paused))
  }

  /**
   A run that is not terminal can always move: QUEUED, it can be claimed once its backoff is over;
   in flight, the execution that holds its claim has a phase to take unless it paused for shutdown.
  */
  lemma NeverStuck(s: System, policy: RetryPolicy, definition: seq<StepDef>)
    requires Inv(s, policy) && ValidDefinition(definition) && !EndedOrPaused(s)
    ensures InFlight(s.rows.run.status) ==>
            s.rows.run.attempt in s.executions && !s.executions[s.rows.run.attempt].pc.Ended?
    ensures Productive(s, Pending(s, definition))
    ensures s.rows.run.status == RunQueued ==> s.rows.run.attempt < policy.maxRunAttempts
  {
    if s.rows.run.attempt in s.executions {
      assert ExecutionOk(s, s.executions[s.rows.run.attempt]);
    }
  }

  /** The system after rounds of events, one round after the other. */
  function AfterRounds(s: System, policy: RetryPolicy, rounds: seq<seq<Event>>): System
    decreases |rounds|
  {
    if rounds == [] then s else AfterRounds(After(s, policy, rounds[0]), policy, rounds[1..])
  }

  /** Nobody who can move is passed over for a whole round: each holds a productive event, or ends or pauses the run. */
  predicate Fair(s: System, policy: RetryPolicy, rounds: seq<seq<Event>>)
    decreases |rounds|
  {
    rounds == [] ||
    var t := After(s, policy, rounds[0]);
    (CountProductive(s, policy, rounds[0]) > 0 || EndedOrPaused(t)) && Fair(t, policy, rounds[1..])
  }

  /** The first `n` rounds leave the run terminal or paused. */
  predicate EndsWithin(s: System, policy: RetryPolicy, rounds: seq<seq<Event>>, n: nat)
    requires n <= |rounds|
  {
    EndedOrPaused(AfterRounds(s, policy, rounds[..n]))
  }

  /**
   Every fair interleaving ends: whatever claims, crashes, stale phases, retries, cancellations and recoveries fill
   the rounds, if they are more than the work left, the run is terminal or paused after one of them.
  */
  lemma {:induction false} FairRunsEnd(s: System, policy: RetryPolicy, rounds: seq<seq<Event>>)
    requires Inv(s, policy) && Fair(s, policy, rounds) && |rounds| > WorkLeft(s, policy)
    ensures exists n :: 0 <= n <= |rounds| && EndsWithin(s, policy, rounds, n)
    decreases |rounds|
  {
    WorkIsNat(s, policy);
    var t, rest := After(s, policy, rounds[0]), rounds[1..];
    AfterKeepsInv(s, policy, rounds[0]);
    if EndedOrPaused(t) {
      OneRoundMore(s, policy, rounds, 0);
      assert EndsWithin(s, policy, rounds, 1);
    } else {
      WorkIsSpent(s, policy, rounds[0]);
      FairRunsEnd(t, policy, rest);
      var n :| 0 <= n <= |rest| && EndsWithin(t, policy, rest, n);
      OneRoundMore(s, policy, rounds, n);
      assert EndsWithin(s, policy, rounds, n + 1);
    }
  }

  lemma OneRoundMore(s: System, policy: RetryPolicy, rounds: seq<seq<Event>>, n: nat)
    requires n < |rounds|
    ensures AfterRounds(s, policy, rounds[..n + 1])
            == AfterRounds(After(s, policy, rounds[0]), policy, rounds[1..][..n])
  {
    assert rounds[..n + 1][0] == rounds[0] && rounds[..n + 1][1..] == rounds[1..][..n];
  }

  /* ----- without a shutdown, a fair run terminates ----- */

  predicate Stops(e: Event) {
    e.CheckpointPhase? && e.stopRequested
  }

  ghost predicate NonePaused(s: System) {
    forall claim :: claim in s.executions ==> s.executions[claim].pc != Ended(Paused)
  }

  ghost predicate NoStops(events: seq<Event>) {
    forall i :: 0 <= i < |events| ==> !Stops(events[i])
  }

  ghost predicate NeverStopped(rounds: seq<seq<Event>>) {
    forall i :: 0 <= i < |rounds| ==> NoStops(rounds[i])
  }

  lemma CheckpointPausesOnRequest(s: System, claim: nat, now: Time)
    requires claim in s.executions && s.executions[claim].pc.AtCheckpoint?
    ensures StepCheckpoint(s, claim, false, now).executions[claim].pc != Ended(Paused)
    ensures var t := StepCheckpoint(s, claim, false, now); t.executions == s.executions[claim := t.executions[claim]]
  {
  }

  lemma PreparePauses(s: System, claim: nat, now: Time)
    requires claim in s.executions && s.executions[claim].pc.AtPrepare?
    ensures StepPrepare(s, claim, now).executions[claim].pc != Ended(Paused)
    ensures var t := StepPrepare(s, claim, now); t.executions == s.executions[claim := t.executions[claim]]
  {
  }

  lemma PersistPauses(s: System, claim: nat, verdict: PersistVerdict, now: Time)
    requires claim in s.executions && s.executions[claim].pc.AtPersist?
    ensures StepPersist(s, claim, verdict, now).executions[claim].pc != Ended(Paused)
    ensures var t := StepPersist(s, claim, verdict, now); t.executions == s.executions[claim := t.executions[claim]]
  {
  }

  lemma FailurePauses(s: System, claim: nat, policy: RetryPolicy, jitter: real, now: Time)
    requires claim in s.executions && s.executions[claim].pc.AtFailure?
    ensures StepFailure(s, claim, policy, jitter, now).executions[claim].pc != Ended(Paused)
    ensures var t := StepFailure(s, claim, policy, jitter, now);
            t.executions == s.executions[claim := t.executions[claim]]
  {
  }

  /** Only a checkpoint that was asked to stop pauses an execution. */
  lemma NextPausesOnRequest(s: System, policy: RetryPolicy, e: Event)
    requires NonePaused(s) && !Stops(e)
    ensures NonePaused(Next(s, policy, e))
  {
    if Enabled(s, e) {
      match e
      case PreparePhase(claim, now) => PreparePauses(s, claim, now);
      case CheckpointPhase(claim, _, now) => CheckpointPausesOnRequest(s, claim, now);
      case PersistPhase(claim, verdict, now) => PersistPauses(s, claim, verdict, now);
      case FailurePhase(claim, jitter, now) => FailurePauses(s, claim, policy, jitter, now);
      case _ =>
    }
  }

  lemma {:induction false} AfterPausesOnRequest(s: System, policy: RetryPolicy, events: seq<Event>)
    requires NonePaused(s) && NoStops(events)
    ensures NonePaused(After(s, policy, events))
  {
    if events != [] {
      AfterPausesOnRequest(s, policy, events[..|events| - 1]);
      NextPausesOnRequest(After(s, policy, events[..|events| - 1]), policy, events[|events| - 1]);
    }
  }

  lemma {:induction false} TerminalRounds(s: System, policy: RetryPolicy, rounds: seq<seq<Event>>)
    requires Inv(s, policy) && TerminalRun(s.rows.run.status)
    ensures AfterRounds(s, policy, rounds).rows == s.rows
    decreases |rounds|
  {
    if rounds != [] {
      AfterKeepsInv(s, policy, rounds[0]);
      assert rounds[0][..0] == [];
      TerminalStays(s, policy, rounds[0], 0);
      TerminalRounds(After(s, policy, rounds[0]), policy, rounds[1..]);
    }
  }

  /** Every fair run that no shutdown stops is terminal once it has had more rounds than work. */
  lemma {:induction false} FairRunsTerminate(s: System, policy: RetryPolicy, rounds: seq<seq<Event>>)
    requires Inv(s, policy) && NonePaused(s) && NeverStopped(rounds)
    requires Fair(s, policy, rounds) && |rounds| > WorkLeft(s, policy)
    ensures TerminalRun(AfterRounds(s, policy, rounds).rows.run.status)
    decreases |rounds|
  {
    WorkIsNat(s, policy);
    var t := After(s, policy, rounds[0]);
    AfterKeepsInv(s, policy, rounds[0]);
    AfterPausesOnRequest(s, policy, rounds[0]);
    if TerminalRun(t.rows.run.status) {
      TerminalRounds(t, policy, rounds[1..]);
    } else {
      WorkIsSpent(s, policy, rounds[0]);
      FairRunsTerminate(t, policy, rounds[1..]);
    }
  }

  /** From submission: at most `maxRunAttempts * (3n + 3)` fair rounds, plus one, until the run is terminal. */
  lemma SubmittedRunsTerminate(definition: seq<StepDef>, input: Json, policy: RetryPolicy, rounds: seq<seq<Event>>)
    requires ValidDefinition(definition) && policy.maxRunAttempts > 0 && NeverStopped(rounds)
    requires Fair(Initial(definition, input), policy, rounds)
    requires |rounds| > policy.maxRunAttempts * (3 * |definition| + 3)
    ensures TerminalRun(AfterRounds(Initial(definition, input), policy, rounds).rows.run.status)
  {
    InitialInv(definition, input, policy);
    InitialWork(definition, input, policy);
    FairRunsTerminate(Initial(definition, input), policy, rounds);
  }

  lemma {:induction false} AfterCons(s: System, policy: RetryPolicy, e: Event, rest: seq<Event>)
    ensures After(s, policy, [e] + rest) == After(Next(s, policy, e), policy, rest)
    ensures CountProductive(s, policy, [e] + rest) ==
            (if Productive(s, e) then 1 else 0) + CountProductive(Next(s, policy, e), policy, rest)
  {
    var events := [e] + rest;
    if rest == [] {
      assert events == [e] && events[..0] == [];
    } else {
      assert events[..|events| - 1] == [e] + rest[..|rest| - 1];
      AfterCons(s, policy, e, rest[..|rest| - 1]);
    }
  }

  /**
   From every reachable state claims and phases of the current owner alone, none of them idle and no more than
   the work left, bring the run to a terminal state or to a pause.
  */
  lemma {:induction false} RunsToItsEnd(s: System, policy: RetryPolicy, definition: seq<StepDef>)
    returns (events: seq<Event>)
    requires Inv(s, policy) && ValidDefinition(definition)
    ensures EndedOrPaused(After(s, policy, events))
    ensures CountProductive(s, policy, events) == |events| <= WorkLeft(s, policy)
    decreases WorkLeft(s, policy)
  {
    WorkIsNat(s, policy);
    events := [];
    if !EndedOrPaused(s) {
      NeverStuck(s, policy, definition);
      var e := Pending(s, definition);
      WorkNeverGrows(s, policy, e);
      NextKeepsInv(s, policy, e);
      var rest := RunsToItsEnd(Next(s, policy, e), policy, definition);
      AfterCons(s, policy, e, rest);
      events := [e] + rest;
    }
  }

  /* ----- backoff ----- */

  lemma {:induction false} PowerOfTwoGrows(a: nat, b: nat)
    requires a <= b
    ensures 1.0 <= PowerOfTwo(a) <= PowerOfTwo(b)
  {
    if b > 0 {
      if a < b {
        PowerOfTwoGrows(a, b - 1);
      } else {
        PowerOfTwoGrows(a - 1, b - 1);
      }
    }
  }

  /** Jitter aside, delays never shrink from one attempt to the next and never exceed the cap. */
  lemma BackoffGrowsToItsCap(policy: RetryPolicy, attempt: nat, later: nat)
    requires policy.backoffBase >= 0.0 && attempt <= later
    ensures BackoffSeconds(policy, attempt, 0.0) <= BackoffSeconds(policy, later, 0.0) <= policy.backoffCap
  {
    var a := if attempt == 0 then 0 else attempt - 1;
    var b := if later == 0 then 0 else later - 1;
    PowerOfTwoGrows(a, b);
    assert policy.backoffBase * (PowerOfTwo(b) - PowerOfTwo(a)) >= 0.0;
  }
}
