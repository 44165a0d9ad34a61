/** What each transaction does to a run, said without its own functions: waits, recoveries, cancels, times. */
module EngineOutcomes {
  import opened Wrappers
  import opened PipelineLifecycle
  import opened EngineTransactions
  import opened EngineSystem
  import opened EngineSafety
  import opened EngineTheorems

  /* ----- how long a retry waits ----- */

  /** `x` doubled `times` times over. */
  function Doubled(x: real, times: nat): real
    decreases times
  {
    if times == 0 then x else Doubled(x + x, times - 1)
  }

  function Smaller(a: real, b: real): real {
    if a < b then a else b
  }

  lemma {:induction false} DoubledIsPower(x: real, times: nat)
    ensures Doubled(x, times) == x * PowerOfTwo(times)
    decreases times
  {
    if times > 0 {
      DoubledIsPower(x + x, times - 1);
      assert (x + x) * PowerOfTwo(times - 1) == x * (2.0 * PowerOfTwo(times - 1));
    }
  }

  /** The run is QUEUED and due at `at`. */
  predicate WaitsUntil(run: Run, at: Time) {
    run.status == RunQueued && run.nextAttemptAt == Some(at)
  }

  /** The end of the backoff after a failed attempt: the base doubled once for each attempt before it, up to the cap. */
  function RetryTime(policy: RetryPolicy, attempt: nat, now: Time, jitter: real): Time
    requires attempt > 0
  {
    now + Smaller(policy.backoffCap, Doubled(policy.backoffBase, attempt - 1)) + jitter
  }

  lemma BackoffWrittenOut(policy: RetryPolicy, attempt: nat, now: Time, jitter: real)
    requires attempt > 0
    ensures now + BackoffSeconds(policy, attempt, jitter) == RetryTime(policy, attempt, now, jitter)
  {
    DoubledIsPower(policy.backoffBase, attempt - 1);
  }

  lemma RequeuedByFailure(
      rows: Rows, claimed: Claimed, k: nat, failure: Failure, policy: RetryPolicy, jitter: real, now: Time)
    requires k < |rows.steps| && rows.steps[k].status == StepRunning && failure.Retryable?
    requires IsOwner(rows.run, claimed) && rows.run.status == RunRunning && 0 < rows.run.attempt < policy.maxRunAttempts
    ensures var t := CommitFailure(rows, claimed, k, rows.steps[k].attempt, failure, policy, jitter, now).0;
            && WaitsUntil(t.run, RetryTime(policy, rows.run.attempt, now, jitter))
            && t.steps[k].status == StepQueued && t.steps[k].attempt == rows.steps[k].attempt
  {
    BackoffWrittenOut(policy, rows.run.attempt, now, jitter);
  }

  /** A retryable failure with attempts left requeues the run for the end of its backoff, and not before. */
  lemma RetryWaits(s: System, policy: RetryPolicy, e: Event)
    requires Inv(s, policy) && CommitsFailure(s, e) && s.executions[e.claim].pc.failure.Retryable?
    requires s.rows.run.status == RunRunning && s.rows.run.attempt < policy.maxRunAttempts
    ensures WaitsUntil(Next(s, policy, e).rows.run, RetryTime(policy, s.rows.run.attempt, e.now, e.jitter))
  {
    var x := s.executions[e.claim];
    assert ExecutionOk(s, x);
    RequeuedByFailure(s.rows, x.claimed, x.pc.index, x.pc.failure, policy, e.jitter, e.now);
  }

  /* ----- claims ----- */

  /** A waiting run is taken from its time on, by whoever claims it, and never earlier. */
  lemma ClaimedWhenDue(s: System, policy: RetryPolicy, e: Event, at: Time)
    requires WaitsUntil(s.rows.run, at) && e.ClaimRun? && ValidDefinition(e.definition)
    ensures var t := Next(s, policy, e); var was, run := s.rows.run, t.rows.run;
            if e.now < at then t == s
            else
              && run.status == RunRunning && run.attempt == was.attempt + 1 && run.workerId == Some(e.workerId)
              && run.nextAttemptAt.None? && run.heartbeatAt == Some(e.now)
              && run.startedAt == (if was.startedAt.Some? then was.startedAt else Some(e.now))
              && run.progress == was.progress && run.input == was.input && t.rows.steps == s.rows.steps
              && t.effects == s.effects
              && t.executions ==
                 s.executions[run.attempt := Execution(Claimed(e.workerId, run.attempt), e.definition, AtPrepare)]
  {
  }

  /** A run is claimed only from QUEUED. */
  lemma OnlyQueuedIsClaimed(s: System, policy: RetryPolicy, e: Event)
    requires e.ClaimRun? && s.rows.run.status != RunQueued
    ensures Next(s, policy, e) == s
  {
  }

  lemma QueuedPhaseIsIdle(s: System, policy: RetryPolicy, e: Event)
    requires Inv(s, policy) && s.rows.run.status == RunQueued && !EnvironmentEvent(e) && Enabled(s, e)
    ensures Next(s, policy, e).rows == s.rows
  {
    var x := s.executions[e.claim];
    assert ExecutionOk(s, x);
    match e
    case PreparePhase(_, now) => PrepareIdle(s.rows, x.claimed, x.definition, now, policy);
    case CheckpointPhase(_, stop, now) =>
      CheckpointIdle(s.rows, x.claimed, x.pc.index, x.definition[x.pc.index], x.pc.outputs, stop, now, policy);
    case ExecutePhase(_, _) =>
    case PersistPhase(_, verdict, now) => QueuedPersistIsIdle(s, e.claim, verdict, now);
    case FailurePhase(_, jitter, now) => QueuedFailureIsIdle(s, e.claim, policy, jitter, now);
  }

  lemma QueuedPersistIsIdle(s: System, claim: nat, verdict: PersistVerdict, now: Time)
    requires s.rows.run.status == RunQueued && claim in s.executions && s.executions[claim].pc.AtPersist?
    ensures StepPersist(s, claim, verdict, now).rows == s.rows
  {
    var x := s.executions[claim];
    var pc := x.pc;
    if pc.index < |s.rows.steps| && |x.definition| > 0 {
      RejectedPersist(s.rows, x.claimed, pc.index, pc.stepAttempt, verdict, pc.succeeded, |x.definition|, now);
    }
  }

  lemma QueuedFailureIsIdle(s: System, claim: nat, policy: RetryPolicy, jitter: real, now: Time)
    requires s.rows.run.status == RunQueued && claim in s.executions && s.executions[claim].pc.AtFailure?
    ensures StepFailure(s, claim, policy, jitter, now).rows == s.rows
  {
  }

  ghost predicate NoneDue(events: seq<Event>, at: Time) {
    forall i :: 0 <= i < |events| && events[i].ClaimRun? ==> events[i].now < at
  }

  /** Until its time has come nothing but a cancellation ends a wait: no stale phase, heartbeat, recovery or claim. */
  lemma {:induction false} WaitLasts(s: System, policy: RetryPolicy, events: seq<Event>, at: Time)
    requires Inv(s, policy) && WaitsUntil(s.rows.run, at) && NoneDue(events, at)
    ensures var t := After(s, policy, events).rows; t == s.rows || t.run.status == RunCancelled
  {
    if events != [] {
      var before, e := events[..|events| - 1], events[|events| - 1];
      var mid := After(s, policy, before);
      WaitLasts(s, policy, before, at);
      AfterKeepsInv(s, policy, before);
      if mid.rows.run.status == RunCancelled {
        TerminalIsForever(mid, policy, e);
      } else {
        WaitLastsOne(mid, policy, e, at);
      }
    }
  }

  lemma WaitLastsOne(s: System, policy: RetryPolicy, e: Event, at: Time)
    requires Inv(s, policy) && WaitsUntil(s.rows.run, at) && (e.ClaimRun? ==> e.now < at)
    ensures var t := Next(s, policy, e).rows; t == s.rows || t.run.status == RunCancelled
  {
    if !EnvironmentEvent(e) && Enabled(s, e) {
      QueuedPhaseIsIdle(s, policy, e);
    }
  }

  /* ----- the owner's checkpoints and commits ----- */

  /** The execution holds the current claim of a run in flight, and stands at the step that is next. */
  ghost predicate OwnerAt(s: System, claim: nat, index: nat) {
    claim == s.rows.run.attempt && InFlight(s.rows.run.status) && index == Done(s.rows.steps)
  }

  /** The step runs its next attempt under the hash. */
  predicate Started(a: Step, b: Step, hash: Option<Hash>, now: Time) {
    b == a.(status := StepRunning, attempt := a.attempt + 1, startedAt := Some(now), finishedAt := None,
            inputHash := hash)
  }

  /** What a checkpoint before the step must do to the rows. */
  ghost predicate CheckpointDoes(
      rows: Rows, t: Rows, k: nat, hash: Option<Hash>, stop: bool, now: Time)
    requires k < |rows.steps| == |t.steps|
  {
    if rows.run.status == RunCancelling then
      t.run == rows.run.(status := RunCancelled, finishedAt := Some(now), nextAttemptAt := None)
          && CancelledFrom(rows.steps, t.steps, k)
    else if stop then t == rows
    else if hash.None? || (rows.steps[k].inputHash.Some? && rows.steps[k].inputHash != hash) then
      && t.steps == rows.steps && t.run.status == RunFailed
      && t.run.errorCode == Some(if hash.None? then StepInputUnresolvable else StepInputDrift)
    else
      && OthersStay(rows.steps, t.steps, k) && Started(rows.steps[k], t.steps[k], hash, now)
      && t.run == rows.run.(currentStep := Some(rows.steps[k].name))
  }

  lemma CheckpointWrittenOut(rows: Rows, claimed: Claimed, k: nat, def: StepDef, outputs: map<string, Json>,
                             stop: bool, now: Time)
    requires k == Done(rows.steps) < |rows.steps| && Tail(rows.steps, k, StepQueued)
    requires IsOwner(rows.run, claimed) && InFlight(rows.run.status)
    ensures var t := Checkpoint(rows, claimed, k, def, outputs, stop, now).0;
            |t.steps| == |rows.steps| && CheckpointDoes(rows, t, k, InputHash(def, rows.run.input, outputs), stop, now)
  {
    QueuedAreCancelled(rows.steps, now);
  }

  /**
   The owner's checkpoint before a step ends a CANCELLING run, does nothing when the worker is to stop, fails the run
   on an input that cannot be derived or has drifted, and otherwise starts the step.
  */
  lemma CheckpointIsReported(s: System, policy: RetryPolicy, e: Event)
    requires Inv(s, policy) && e.CheckpointPhase? && Enabled(s, e)
    requires e.claim == s.rows.run.attempt && InFlight(s.rows.run.status)
    ensures var x, k, t := s.executions[e.claim], Done(s.rows.steps), Next(s, policy, e);
            && k < |x.definition| == |s.rows.steps| == |t.rows.steps|
            && CheckpointDoes(
                 s.rows, t.rows, k, InputHash(x.definition[k], s.rows.run.input, OutputsOf(s.rows.steps, k)),
                 e.stopRequested, e.now)
            && (t.executions[e.claim].pc.AtExecute? <==> t.rows.steps[k].status == StepRunning)
  {
    var x := s.executions[e.claim];
    assert ExecutionOk(s, x);
    var pc := x.pc;
    CheckpointWrittenOut(s.rows, x.claimed, pc.index, x.definition[pc.index], pc.outputs, e.stopRequested, e.now);
  }

  /** What a persisted output must do to the rows. */
  ghost predicate SuccessDoes(rows: Rows, t: Rows, k: nat, output: Json, now: Time)
    requires k < |rows.steps| == |t.steps|
  {
    var share := (k + 1) as real / |rows.steps| as real;
    && t.steps[k] == rows.steps[k].(status := StepSucceeded, output := output, finishedAt := Some(now))
    && (forall i :: 0 <= i < k ==> t.steps[i] == rows.steps[i])
    && (if rows.run.status == RunCancelling then
          t.run == rows.run.(status := RunCancelled, progress := share, finishedAt := Some(now), nextAttemptAt := None)
              && Tail(t.steps, k + 1, StepCancelled)
        else
          && (forall i :: k < i < |t.steps| ==> t.steps[i] == rows.steps[i])
          && t.run == if k + 1 < |rows.steps| then rows.run.(progress := share)
                      else rows.run.(
                        status := RunSucceeded, progress := share, finishedAt := Some(now), nextAttemptAt := None))
  }

  lemma SuccessWrittenOut(rows: Rows, claimed: Claimed, output: Json, now: Time, policy: RetryPolicy)
    requires RowsOk(rows, policy) && InFlight(rows.run.status) && IsOwner(rows.run, claimed)
    requires rows.steps[Done(rows.steps)].status == StepRunning
    ensures var k := Done(rows.steps);
            var (t, outcome) := CommitSuccess(
              rows, claimed, k, rows.steps[k].attempt, Persisted(output), k, |rows.steps|, now);
            |t.steps| == |rows.steps| && SuccessDoes(rows, t, k, output, now) && PersistCommitted(outcome)
  {
    RatioBound(Done(rows.steps) + 1, |rows.steps|);
  }

  /**
   The owner's commit stores the output and the share done, and goes on: to the end of the run after the last step,
   to CANCELLED if that was asked for, else to the next step. A step.persist that fails leaves nothing behind.
  */
  lemma SuccessIsReported(s: System, policy: RetryPolicy, e: Event)
    requires Inv(s, policy) && e.PersistPhase? && Enabled(s, e)
    requires e.claim == s.rows.run.attempt && InFlight(s.rows.run.status)
    ensures var k, t := Done(s.rows.steps), Next(s, policy, e);
            if e.verdict.PersistFailed? then
              && t.rows == s.rows && t.effects == s.effects
              && t.executions[e.claim].pc == AtFailure(k, s.rows.steps[k].attempt, e.verdict.failure)
            else
              && |t.rows.steps| == |s.rows.steps| && SuccessDoes(s.rows, t.rows, k, e.verdict.output, e.now)
              && t.effects == s.effects + [Effect(k, s.rows.steps[k].attempt, e.verdict.output, e.claim)]
  {
    var x := s.executions[e.claim];
    assert ExecutionOk(s, x);
    if e.verdict.Persisted? { SuccessWrittenOut(s.rows, x.claimed, e.verdict.output, e.now, policy); }
  }

  /** An execution whose claim was superseded moves no row, commits no effect and starts no step. */
  lemma SupersededIsHarmless(s: System, policy: RetryPolicy, e: Event, claim: nat)
    requires Inv(s, policy) && claim in s.executions && claim != s.rows.run.attempt && Enabled(s, e)
    requires match e
             case PreparePhase(c, _) => c == claim
             case CheckpointPhase(c, _, _) => c == claim
             case ExecutePhase(c, _) => c == claim
             case PersistPhase(c, _, _) => c == claim
             case FailurePhase(c, _, _) => c == claim
             case HeartbeatTick(c, _) => c == claim
             case _ => false
    ensures var t := Next(s, policy, e);
            t.rows == s.rows && t.effects == s.effects && t.starters == s.starters
                && t.executions == s.executions[claim := t.executions[claim]]
  {
    var x := s.executions[claim];
    assert !IsOwner(s.rows.run, x.claimed);
  }

  /* ----- stale recovery ----- */

  /** Every step but the `k`th is as it was. */
  ghost predicate OthersStay(a: seq<Step>, b: seq<Step>, k: nat) {
    |b| == |a| && forall i :: 0 <= i < |a| && i != k ==> b[i] == a[i]
  }

  /** The step was RUNNING and failed under the code, or it was not and stays. */
  predicate FailedIfRunning(a: Step, b: Step, code: string) {
    if a.status == StepRunning then b.status == StepFailed && b.error == Some(code) && b.attempt == a.attempt
    else b == a
  }

  lemma FailStaleWrittenOut(rows: Rows, code: string, now: Time, policy: RetryPolicy)
    requires RowsOk(rows, policy) && InFlight(rows.run.status)
    ensures var t, k := FailStale(rows, code, now), Done(rows.steps);
            && t.run.status == RunFailed && t.run.errorCode == Some(code) && t.run.progress == rows.run.progress
            && OthersStay(rows.steps, t.steps, k) && FailedIfRunning(rows.steps[k], t.steps[k], code)
  {
  }

  /**
   Stale recovery of a RUNNING run: with another configuration it fails, with no attempt left it fails, and
   otherwise it waits out its backoff, its orphaned step back to QUEUED under the same attempt.
  */
  lemma RunningRecoveryIsReported(rows: Rows, input: RecoveryInput, policy: RetryPolicy)
    requires RowsOk(rows, policy) && rows.run.status == RunRunning
    ensures var t, k := RecoverRunning(rows, input, policy), Done(rows.steps);
            && OthersStay(rows.steps, t.steps, k) && t.run.progress == rows.run.progress
            && if !input.fingerprintMatches then
                 && t.run.status == RunFailed && t.run.errorCode == Some(ConfigFingerprintMismatch)
                 && FailedIfRunning(rows.steps[k], t.steps[k], ConfigFingerprintMismatch)
               else if rows.run.attempt == policy.maxRunAttempts then
                 && t.run.status == RunFailed && t.run.errorCode == Some(WorkerLost)
                 && FailedIfRunning(rows.steps[k], t.steps[k], WorkerLost)
               else
                 && WaitsUntil(t.run, RetryTime(policy, rows.run.attempt, input.now, input.jitter))
                 && t.steps[k].status == StepQueued && t.steps[k].attempt == rows.steps[k].attempt
                 && t.steps[k].error == rows.steps[k].error && t.steps[k].inputHash == rows.steps[k].inputHash
  {
    OrphanIsNext(rows, policy);
    if !input.fingerprintMatches {
      FailStaleWrittenOut(rows, ConfigFingerprintMismatch, input.now, policy);
    } else if rows.run.attempt == policy.maxRunAttempts {
      FailStaleWrittenOut(rows, WorkerLost, input.now, policy);
    } else {
      BackoffWrittenOut(policy, rows.run.attempt, input.now, input.jitter);
    }
  }

  /** Every step from the `k`th on is CANCELLED, every one before it as it was. */
  ghost predicate CancelledFrom(a: seq<Step>, b: seq<Step>, k: nat) {
    && |b| == |a| && (forall i :: 0 <= i < k && i < |a| ==> b[i] == a[i])
    && (forall i :: k <= i < |a| ==>
          && b[i].status == StepCancelled && b[i].attempt == a[i].attempt && b[i].output == a[i].output
          && b[i].inputHash == a[i].inputHash && b[i].error == a[i].error)
  }

  lemma OrphanCancelledIsReported(rows: Rows, input: RecoveryInput, policy: RetryPolicy)
    requires RowsOk(rows, policy) && rows.run.status == RunCancelling && input.orphanProvenSafe
    requires rows.steps[Done(rows.steps)].status == StepRunning
    ensures var t := RecoverCancelling(rows, input);
            && t.run.status == RunCancelled && t.run.progress == rows.run.progress
            && CancelledFrom(rows.steps, t.steps, Done(rows.steps))
  {
    OrphanIsNext(rows, policy);
  }

  lemma OrphanFailedIsReported(rows: Rows, input: RecoveryInput, policy: RetryPolicy)
    requires RowsOk(rows, policy) && rows.run.status == RunCancelling && !input.orphanProvenSafe
    requires rows.steps[Done(rows.steps)].status == StepRunning
    ensures var t, k := RecoverCancelling(rows, input), Done(rows.steps);
            && t.run.status == RunFailed && t.run.errorCode == Some(CancelRecoveryAmbiguous)
            && t.run.progress == rows.run.progress && OthersStay(rows.steps, t.steps, k)
            && FailedIfRunning(rows.steps[k], t.steps[k], CancelRecoveryAmbiguous)
  {
    OrphanIsNext(rows, policy);
  }

  /**
   Stale recovery of a CANCELLING run: stopped between two steps, or on a step proven to have left nothing
   behind, it ends CANCELLED with all that is left; on any other step it fails, and says the outcome is ambiguous.
  */
  lemma CancellingRecoveryIsReported(rows: Rows, input: RecoveryInput, policy: RetryPolicy)
    requires RowsOk(rows, policy) && rows.run.status == RunCancelling
    ensures var t, k := RecoverCancelling(rows, input), Done(rows.steps);
            if rows.steps[k].status == StepQueued then
              t.run.status == RunCancelled && t.run.progress == 1.0 && CancelledFrom(rows.steps, t.steps, k)
            else if input.orphanProvenSafe then
              t.run.status == RunCancelled && t.run.progress == rows.run.progress
                  && CancelledFrom(rows.steps, t.steps, k)
            else
              && t.run.status == RunFailed && t.run.errorCode == Some(CancelRecoveryAmbiguous)
              && t.run.progress == rows.run.progress && OthersStay(rows.steps, t.steps, k)
              && FailedIfRunning(rows.steps[k], t.steps[k], CancelRecoveryAmbiguous)
  {
    if rows.steps[Done(rows.steps)].status == StepQueued {
      CancelledBetweenStepsRecovered(rows, input, policy);
      QueuedAreCancelled(rows.steps, input.now);
    } else if input.orphanProvenSafe {
      OrphanCancelledIsReported(rows, input, policy);
    } else {
      OrphanFailedIsReported(rows, input, policy);
    }
  }

  lemma QueuedAreCancelled(steps: seq<Step>, now: Time)
    requires Tail(steps, Done(steps), StepQueued)
    ensures CancelledFrom(steps, CancelQueued(steps, now), Done(steps))
  {
  }

  /** What a recovery event does in the system: no execution moves, and a run not in flight is left alone. */
  lemma RecoveryIsReported(s: System, policy: RetryPolicy, e: Event)
    requires e.StaleRecovery?
    ensures var t := Next(s, policy, e);
            && t.executions == s.executions && t.effects == s.effects && t.starters == s.starters
            && t.rows == match s.rows.run.status
                         case RunRunning => RecoverRunning(s.rows, e.input, policy)
                         case RunCancelling => RecoverCancelling(s.rows, e.input)
                         case _ => s.rows
  {
  }

  /* ----- cancel requests and heartbeats ----- */

  /**
   A cancel request ends a QUEUED run and everything it had left at once, asks a RUNNING one to stop, and leaves
   any other alone. It moves no execution.
  */
  lemma CancelIsReported(s: System, policy: RetryPolicy, e: Event)
    requires Inv(s, policy) && e.CancelRequest?
    ensures var t := Next(s, policy, e); var was, run := s.rows.run, t.rows.run;
            && t.executions == s.executions && t.effects == s.effects
            && match was.status
               case RunQueued =>
                 && run.status == RunCancelled && run.finishedAt == Some(e.now) && run.nextAttemptAt.None?
                 && CancelledFrom(s.rows.steps, t.rows.steps, Done(s.rows.steps))
               case RunRunning => run == was.(status := RunCancelling) && t.rows.steps == s.rows.steps
               case _ => t.rows == s.rows
  {
  }

  /** Only the execution that owns a run in flight keeps it alive. */
  lemma HeartbeatIsReported(s: System, policy: RetryPolicy, e: Event)
    requires Inv(s, policy) && e.HeartbeatTick? && e.claim in s.executions
    ensures Next(s, policy, e) ==
            if e.claim == s.rows.run.attempt && InFlight(s.rows.run.status)
            then s.(rows := s.rows.(run := s.rows.run.(heartbeatAt := Some(e.now)))) else s
  {
    assert ExecutionOk(s, s.executions[e.claim]);
  }

  /* ----- what a step's hash covers, and what submission stores ----- */

  /** A step has a hash once its input can be derived, and two hashes agree exactly if definition and input do. */
  lemma HashCoversDefinitionAndInput(
      a: StepDef, b: StepDef, input: Json, outputs: map<string, Json>, others: map<string, Json>)
    ensures InputHash(a, input, outputs).Some? <==> a.deriver(input, outputs).Some?
    ensures InputHash(a, input, outputs).Some? ==>
              (InputHash(a, input, outputs) == InputHash(b, input, others) <==>
                 a.definitionId == b.definitionId && a.deriver(input, outputs) == b.deriver(input, others))
  {
  }

  /** A submitted run is QUEUED and due at once, its steps those of the definition, in order and never tried. */
  lemma SubmittedPlan(definition: seq<StepDef>, input: Json)
    ensures var s := Initial(definition, input); var run, steps := s.rows.run, s.rows.steps;
            && run.status == RunQueued && run.attempt == 0 && run.progress == 0.0 && run.input == input
            && run.nextAttemptAt.None? && run.startedAt.None? && run.finishedAt.None? && run.errorCode.None?
            && |steps| == |definition|
            && (forall i :: 0 <= i < |steps| ==>
                  && steps[i].name == definition[i].name && steps[i].ordinal == i
                  && steps[i].status == StepQueued && steps[i].attempt == 0
                  && (steps[i].inputHash.Some? <==> definition[i].deriver(input, map[]).Some?))
            && s.executions == map[] && s.effects == []
  {
  }

  /* ----- moves ----- */

  /** Every status is as it was, or moved as its matrix allows. */
  ghost predicate Moves(rows: Rows, t: Rows) {
    && (t.run.status == rows.run.status || RunTransitionAllowed(rows.run.status, t.run.status))
    && |t.steps| == |rows.steps|
    && (forall i :: 0 <= i < |rows.steps| ==>
          t.steps[i].status == rows.steps[i].status
              || StepTransitionAllowed(rows.steps[i].status, t.steps[i].status))
  }

  lemma CancelledMoves(rows: Rows, progress: real, now: Time)
    requires RunTransitionAllowed(rows.run.status, RunCancelled)
    ensures Moves(
              rows, Rows(FinishRun(rows.run.(progress := progress), RunCancelled, None, now),
                         CancelQueued(rows.steps, now)))
  {
  }

  lemma PrepareMoves(rows: Rows, claimed: Claimed, definition: seq<StepDef>, now: Time)
    ensures Moves(rows, Prepare(rows, claimed, definition, now).0)
  {
    if rows.run.status == RunCancelling {
      CancelledMoves(rows, rows.run.progress, now);
      CancelledMoves(rows, 1.0, now);
    }
  }

  lemma CheckpointMoves(rows: Rows, claimed: Claimed, index: nat, def: StepDef, outputs: map<string, Json>,
                        stop: bool, now: Time)
    requires index < |rows.steps|
    ensures Moves(rows, Checkpoint(rows, claimed, index, def, outputs, stop, now).0)
  {
    if rows.run.status == RunCancelling { CancelledMoves(rows, rows.run.progress, now); }
  }

  lemma SuccessMoves(rows: Rows, claimed: Claimed, index: nat, expectedAttempt: nat, verdict: PersistVerdict,
                     succeededCount: nat, totalSteps: nat, now: Time)
    requires index < |rows.steps| && totalSteps > 0
    ensures Moves(
              rows, CommitSuccess(rows, claimed, index, expectedAttempt, verdict, succeededCount, totalSteps, now).0)
  {
  }

  lemma FailureMoves(rows: Rows, claimed: Claimed, index: nat, expectedAttempt: nat, failure: Failure,
                     policy: RetryPolicy, jitter: real, now: Time)
    requires index < |rows.steps|
    ensures Moves(rows, CommitFailure(rows, claimed, index, expectedAttempt, failure, policy, jitter, now).0)
  {
  }

  lemma RunningRecoveryMoves(rows: Rows, input: RecoveryInput, policy: RetryPolicy)
    requires rows.run.status == RunRunning
    ensures Moves(rows, RecoverRunning(rows, input, policy))
  {
  }

  lemma CancellingRecoveryMoves(rows: Rows, input: RecoveryInput)
    requires rows.run.status == RunCancelling
    ensures Moves(rows, RecoverCancelling(rows, input))
  {
    CancelledMoves(rows, rows.run.progress, input.now);
    CancelledMoves(rows, 1.0, input.now);
  }

  lemma CancelRequestMoves(rows: Rows, now: Time)
    ensures Moves(rows, RequestCancel(rows, now))
  {
    if rows.run.status == RunQueued { CancelledMoves(rows, rows.run.progress, now); }
  }

  lemma EnvironmentMoves(s: System, policy: RetryPolicy, e: Event)
    requires EnvironmentEvent(e)
    ensures Moves(s.rows, Next(s, policy, e).rows)
  {
    match e
    case StaleRecovery(input) =>
      match s.rows.run.status {
        case RunRunning => RunningRecoveryMoves(s.rows, input, policy);
        case RunCancelling => CancellingRecoveryMoves(s.rows, input);
        case _ =>
      }
    case CancelRequest(now) => CancelRequestMoves(s.rows, now);
    case _ =>
  }

  /** Whatever happens, a run and its steps move only as their matrices allow: every event, of every execution. */
  lemma MovesAreAllowed(s: System, policy: RetryPolicy, e: Event)
    ensures Moves(s.rows, Next(s, policy, e).rows)
  {
    if EnvironmentEvent(e) {
      EnvironmentMoves(s, policy, e);
    } else if Enabled(s, e) {
      var x := s.executions[e.claim];
      var pc := x.pc;
      match e
      case PreparePhase(_, now) => PrepareMoves(s.rows, x.claimed, x.definition, now);
      case CheckpointPhase(_, stop, now) =>
        if pc.index < |x.definition| && pc.index < |s.rows.steps| {
          CheckpointMoves(s.rows, x.claimed, pc.index, x.definition[pc.index], pc.outputs, stop, now);
        }
      case ExecutePhase(_, _) =>
      case PersistPhase(_, verdict, now) =>
        if pc.index < |s.rows.steps| && |x.definition| > 0 {
          SuccessMoves(s.rows, x.claimed, pc.index, pc.stepAttempt, verdict, pc.succeeded, |x.definition|, now);
        }
      case FailurePhase(_, jitter, now) =>
        if pc.index < |s.rows.steps| {
          FailureMoves(s.rows, x.claimed, pc.index, pc.stepAttempt, pc.failure, policy, jitter, now);
        }
    }
  }

  /** The two matrices, by what each move is for. */
  lemma MatricesAre(a: RunStatus, b: RunStatus, c: StepStatus, d: StepStatus)
    ensures RunTransitionAllowed(a, b) <==>
              (a == RunQueued && b == RunRunning) || (a == RunRunning && (b == RunQueued || b == RunSucceeded))
              || (InFlight(a) && b == RunFailed) || (a == RunRunning && b == RunCancelling)
              || ((a == RunQueued || a == RunCancelling) && b == RunCancelled)
    ensures StepTransitionAllowed(c, d) <==>
              (c == StepQueued && d == StepRunning)
              || (c == StepRunning && (d == StepQueued || d == StepSucceeded || d == StepFailed))
              || ((c == StepQueued || c == StepRunning) && d == StepCancelled)
  {
  }

  /* ----- times ----- */

  /** Started with the first attempt, finished when terminal, due only while QUEUED, an error code only when FAILED. */
  predicate RunTimes(run: Run) {
    && (run.startedAt.Some? <==> run.attempt > 0) && (run.finishedAt.Some? <==> TerminalRun(run.status))
    && (run.nextAttemptAt.Some? ==> run.status == RunQueued) && (run.errorCode.Some? <==> run.status == RunFailed)
  }

  /** A step runs from its start to its finish; back in the queue it has neither. */
  predicate StepTimes(step: Step) {
    match step.status
    case StepQueued => step.startedAt.None? && step.finishedAt.None?
    case StepRunning => step.startedAt.Some? && step.finishedAt.None?
    case StepSucceeded => step.startedAt.Some? && step.finishedAt.Some?
    case StepFailed => step.startedAt.Some? && step.finishedAt.Some?
    case StepCancelled => step.finishedAt.Some?
    case StepCancelling => false
  }

  ghost predicate TimesOk(rows: Rows) {
    RunTimes(rows.run) && forall i :: 0 <= i < |rows.steps| ==> StepTimes(rows.steps[i])
  }

  /** The first start and the finish are never written again. */
  ghost predicate TimesStay(rows: Rows, t: Rows) {
    && TimesOk(t)
    && (rows.run.startedAt.Some? ==> t.run.startedAt == rows.run.startedAt)
    && (rows.run.finishedAt.Some? ==> t.run.finishedAt == rows.run.finishedAt)
  }

  lemma CancelledTimes(rows: Rows, now: Time)
    requires TimesOk(rows) && !TerminalRun(rows.run.status)
    ensures TimesStay(rows, Rows(FinishRun(rows.run, RunCancelled, None, now), CancelQueued(rows.steps, now)))
  {
  }

  lemma PrepareTimes(rows: Rows, claimed: Claimed, definition: seq<StepDef>, now: Time, policy: RetryPolicy)
    requires TimesOk(rows) && RowsOk(rows, policy) && |definition| > 0
    requires IsOwner(rows.run, claimed) && InFlight(rows.run.status) ==> Tail(rows.steps, Done(rows.steps), StepQueued)
    ensures TimesStay(rows, Prepare(rows, claimed, definition, now).0)
  {
    if IsOwner(rows.run, claimed) && InFlight(rows.run.status) {
      ScanOwned(rows, definition);
      CancelledTimes(rows, now);
    } else {
      PrepareIdle(rows, claimed, definition, now, policy);
    }
  }

  lemma CheckpointTimes(rows: Rows, claimed: Claimed, index: nat, def: StepDef, outputs: map<string, Json>,
                        stopRequested: bool, now: Time)
    requires TimesOk(rows) && index < |rows.steps|
    ensures TimesStay(rows, Checkpoint(rows, claimed, index, def, outputs, stopRequested, now).0)
  {
    if rows.run.status == RunCancelling { CancelledTimes(rows, now); }
  }

  lemma SuccessTimes(rows: Rows, claimed: Claimed, index: nat, expectedAttempt: nat, verdict: PersistVerdict,
                     succeededCount: nat, totalSteps: nat, now: Time)
    requires TimesOk(rows) && index < |rows.steps| && totalSteps > 0
    ensures TimesStay(
              rows, CommitSuccess(rows, claimed, index, expectedAttempt, verdict, succeededCount, totalSteps, now).0)
  {
  }

  lemma FailureTimes(rows: Rows, claimed: Claimed, index: nat, expectedAttempt: nat, failure: Failure,
                     policy: RetryPolicy, jitter: real, now: Time)
    requires TimesOk(rows) && index < |rows.steps|
    ensures TimesStay(rows, CommitFailure(rows, claimed, index, expectedAttempt, failure, policy, jitter, now).0)
  {
  }

  lemma FailStaleTimes(rows: Rows, code: string, now: Time)
    requires TimesOk(rows) && InFlight(rows.run.status)
    ensures TimesStay(rows, FailStale(rows, code, now))
  {
  }

  lemma RunningRecoveryTimes(rows: Rows, input: RecoveryInput, policy: RetryPolicy)
    requires TimesOk(rows) && rows.run.status == RunRunning
    ensures TimesStay(rows, RecoverRunning(rows, input, policy))
  {
    FailStaleTimes(rows, ConfigFingerprintMismatch, input.now);
    FailStaleTimes(rows, WorkerLost, input.now);
  }

  lemma CancellingRecoveryTimes(rows: Rows, input: RecoveryInput)
    requires TimesOk(rows) && rows.run.status == RunCancelling
    ensures TimesStay(rows, RecoverCancelling(rows, input))
  {
    FailStaleTimes(rows, CancelRecoveryAmbiguous, input.now);
    CancelledTimes(rows, input.now);
  }

  lemma RecoveryTimes(rows: Rows, input: RecoveryInput, policy: RetryPolicy)
    requires TimesOk(rows)
    ensures TimesStay(rows, Recover(rows, input, policy))
  {
    match rows.run.status
    case RunCancelling => CancellingRecoveryTimes(rows, input);
    case RunRunning => RunningRecoveryTimes(rows, input, policy);
    case _ =>
  }

  lemma EnvironmentTimes(s: System, policy: RetryPolicy, e: Event)
    requires Inv(s, policy) && TimesOk(s.rows) && EnvironmentEvent(e)
    ensures TimesStay(s.rows, Next(s, policy, e).rows)
  {
    match e
    case StaleRecovery(input) => RecoveryTimes(s.rows, input, policy);
    case CancelRequest(now) => if s.rows.run.status == RunQueued { CancelledTimes(s.rows, now); }
    case _ =>
  }

  lemma StepPrepareTimes(s: System, claim: nat, now: Time, policy: RetryPolicy)
    requires Inv(s, policy) && TimesOk(s.rows) && claim in s.executions && s.executions[claim].pc.AtPrepare?
    ensures TimesStay(s.rows, StepPrepare(s, claim, now).rows)
  {
    var x := s.executions[claim];
    assert ExecutionOk(s, x);
    PrepareTimes(s.rows, x.claimed, x.definition, now, policy);
  }

  lemma StepCheckpointTimes(s: System, claim: nat, stop: bool, now: Time)
    requires TimesOk(s.rows) && claim in s.executions && s.executions[claim].pc.AtCheckpoint?
    ensures TimesStay(s.rows, StepCheckpoint(s, claim, stop, now).rows)
  {
    var x := s.executions[claim];
    var pc := x.pc;
    if pc.index < |x.definition| && pc.index < |s.rows.steps| {
      CheckpointTimes(s.rows, x.claimed, pc.index, x.definition[pc.index], pc.outputs, stop, now);
    }
  }

  lemma StepPersistTimes(s: System, claim: nat, verdict: PersistVerdict, now: Time)
    requires TimesOk(s.rows) && claim in s.executions && s.executions[claim].pc.AtPersist?
    ensures TimesStay(s.rows, StepPersist(s, claim, verdict, now).rows)
  {
    var x := s.executions[claim];
    var pc := x.pc;
    if pc.index < |s.rows.steps| && |x.definition| > 0 {
      SuccessTimes(s.rows, x.claimed, pc.index, pc.stepAttempt, verdict, pc.succeeded, |x.definition|, now);
    }
  }

  lemma StepFailureTimes(s: System, claim: nat, policy: RetryPolicy, jitter: real, now: Time)
    requires TimesOk(s.rows) && claim in s.executions && s.executions[claim].pc.AtFailure?
    ensures TimesStay(s.rows, StepFailure(s, claim, policy, jitter, now).rows)
  {
    var x := s.executions[claim];
    var pc := x.pc;
    if pc.index < |s.rows.steps| {
      FailureTimes(s.rows, x.claimed, pc.index, pc.stepAttempt, pc.failure, policy, jitter, now);
    }
  }

  lemma PhaseTimes(s: System, policy: RetryPolicy, e: Event)
    requires Inv(s, policy) && TimesOk(s.rows) && !EnvironmentEvent(e) && Enabled(s, e)
    ensures TimesStay(s.rows, Next(s, policy, e).rows)
  {
    match e
    case PreparePhase(claim, now) => StepPrepareTimes(s, claim, now, policy);
    case CheckpointPhase(claim, stop, now) => StepCheckpointTimes(s, claim, stop, now);
    case ExecutePhase(_, _) =>
    case PersistPhase(claim, verdict, now) => StepPersistTimes(s, claim, verdict, now);
    case FailurePhase(claim, jitter, now) => StepFailureTimes(s, claim, policy, jitter, now);
  }

  lemma NextTimes(s: System, policy: RetryPolicy, e: Event)
    requires Inv(s, policy) && TimesOk(s.rows)
    ensures TimesStay(s.rows, Next(s, policy, e).rows)
  {
    if EnvironmentEvent(e) {
      EnvironmentTimes(s, policy, e);
    } else if Enabled(s, e) {
      PhaseTimes(s, policy, e);
    } else {
      assert Next(s, policy, e) == s;
    }
  }

  lemma {:induction false} AfterTimes(s: System, policy: RetryPolicy, events: seq<Event>)
    requires Inv(s, policy) && TimesOk(s.rows)
    ensures TimesStay(s.rows, After(s, policy, events).rows)
  {
    if events != [] {
      var before := events[..|events| - 1];
      AfterTimes(s, policy, before);
      AfterKeepsInv(s, policy, before);
      NextTimes(After(s, policy, before), policy, events[|events| - 1]);
    }
  }

  /**
   In every reachable state the times say what the statuses say: a run has started exactly if it was ever claimed,
   finished exactly if it is terminal, waits only while QUEUED, and has an error code exactly if it FAILED; and its
   first start and its finish are never overwritten.
  */
  lemma TimesAgree(
      definition: seq<StepDef>, input: Json, policy: RetryPolicy, events: seq<Event>, more: seq<Event>)
    requires ValidDefinition(definition) && policy.maxRunAttempts > 0
    ensures var s := After(Initial(definition, input), policy, events);
            TimesOk(s.rows) && TimesStay(s.rows, After(s, policy, more).rows)
  {
    var s := Initial(definition, input);
    InitialInv(definition, input, policy);
    assert TimesOk(s.rows);
    AfterTimes(s, policy, events);
    AfterKeepsInv(s, policy, events);
    AfterTimes(After(s, policy, events), policy, more);
  }
}
