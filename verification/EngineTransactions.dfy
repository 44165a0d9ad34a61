/**
 Every short PostgreSQL transaction that touches a run, as a function from the
 committed rows to the rows committed afterwards. A transaction that raises, or
 that only reads, leaves the rows as they were.
*/
module EngineTransactions {
  import opened Wrappers
  import opened PipelineLifecycle

  const StepInputDrift := "STEP_INPUT_DRIFT"
  const StepInputUnresolvable := "STEP_INPUT_UNRESOLVABLE"
  const WorkerLost := "WORKER_LOST"
  const ConfigFingerprintMismatch := "CONFIG_FINGERPRINT_MISMATCH"
  const CancelRecoveryAmbiguous := "CANCEL_RECOVERY_AMBIGUOUS"

  /** `deriver(run_input, step_outputs)` is None while the step's input is not yet computable. */
  datatype StepDef = StepDef(name: string, definitionId: string, deriver: (Json, map<string, Json>) -> Option<Json>)

  datatype Rows = Rows(run: Run, steps: seq<Step>)

  /** The fencing token an execution carries. */
  datatype Claimed = Claimed(workerId: string, attempt: nat)

  datatype Fault = TransitionFault | ProgressFault | InvariantFault

  datatype Failure = Retryable(code: string) | Permanent(code: string)

  datatype RetryPolicy = RetryPolicy(maxRunAttempts: nat, backoffBase: real, backoffCap: real)

  /* ----- retry policy ----- */

  predicate HasAttemptsRemaining(policy: RetryPolicy, runAttempt: nat) {
    runAttempt < policy.maxRunAttempts
  }

  function PowerOfTwo(exponent: nat): real {
    if exponent == 0 then 1.0 else 2.0 * PowerOfTwo(exponent - 1)
  }

  function BackoffSeconds(policy: RetryPolicy, runAttempt: nat, jitter: real): real {
    var exponent := if runAttempt == 0 then 0 else runAttempt - 1;
    var grown := policy.backoffBase * PowerOfTwo(exponent);
    (if grown < policy.backoffCap then grown else policy.backoffCap) + jitter
  }

  /* ----- plan building and validation ----- */

  function InputHash(def: StepDef, input: Json, outputs: map<string, Json>): Option<Hash> {
    match def.deriver(input, outputs)
    case None => None
    case Some(semantic) => Some(Hash(def.definitionId, semantic))
  }

  /** What submission persists: build_step_plan followed by create_run_with_steps. */
  function InitialRows(definition: seq<StepDef>, input: Json): Rows {
    Rows(Run(RunQueued, 0, None, None, None, None, None, 0.0, None, None, input),
         seq(|definition|, i requires 0 <= i < |definition| =>
           Step(definition[i].name, i, StepQueued, 0, InputHash(definition[i], input, map[]), "{}", None, None, None)))
  }

  datatype PlanScan =
    | Scanning(outputs: map<string, Json>, firstPending: Option<nat>)
    | ScanDrift
    | ScanCorrupt

  /** One iteration of _validate_plan's loop. */
  function ScanStep(def: StepDef, step: Step, index: nat, input: Json,
                    outputs: map<string, Json>, firstPending: Option<nat>): PlanScan
  {
    var expected := InputHash(def, input, outputs);
    if step.ordinal != index || step.name != def.name then ScanDrift
    else if step.inputHash.Some? && step.inputHash != expected then ScanDrift
    else if step.status == StepSucceeded then
      if firstPending.Some? then ScanCorrupt else Scanning(outputs[step.name := step.output], firstPending)
    else if step.status != StepQueued then ScanCorrupt
    else Scanning(outputs, if firstPending.None? then Some(index) else firstPending)
  }

  /** _validate_plan over the first `n` steps. */
  function ScanPlan(definition: seq<StepDef>, steps: seq<Step>, input: Json, n: nat): PlanScan
    requires n <= |definition| == |steps|
  {
    if n == 0 then Scanning(map[], None)
    else
      match ScanPlan(definition, steps, input, n - 1)
      case Scanning(outputs, firstPending) =>
        ScanStep(definition[n - 1], steps[n - 1], n - 1, input, outputs, firstPending)
      case other => other
  }

  function ValidatePlan(definition: seq<StepDef>, steps: seq<Step>, input: Json): PlanScan {
    if |steps| != |definition| then ScanDrift else ScanPlan(definition, steps, input, |steps|)
  }

  /* ----- shared pieces ----- */

  predicate IsOwner(run: Run, claimed: Claimed) {
    run.workerId == Some(claimed.workerId) && run.attempt == claimed.attempt
  }

  /** _cancel_queued: every step still QUEUED becomes CANCELLED, nothing else moves. */
  function CancelQueued(steps: seq<Step>, now: Time): (r: seq<Step>)
    ensures |r| == |steps|
  {
    seq(|steps|, i requires 0 <= i < |steps| =>
      if steps[i].status == StepQueued then MovedStep(steps[i], StepCancelled, now, None, None) else steps[i])
  }

  function FailRunning(steps: seq<Step>, code: string, now: Time): (r: seq<Step>)
    ensures |r| == |steps|
  {
    seq(|steps|, i requires 0 <= i < |steps| =>
      if steps[i].status == StepRunning then MovedStep(steps[i], StepFailed, now, None, Some(code)) else steps[i])
  }

  function FinishRun(run: Run, target: RunStatus, code: Option<string>, now: Time): Run {
    MovedRun(run, target, now, None, None, code)
  }

  /* ----- the engine's transactions ----- */

  datatype PrepareOutcome =
    | PrepareAbandoned
    | PrepareTerminal(status: RunStatus)
    | PrepareReady(outputs: map<string, Json>, firstPending: nat)
    | PrepareRaised(fault: Fault)

  function Prepare(rows: Rows, claimed: Claimed, definition: seq<StepDef>, now: Time): (Rows, PrepareOutcome) {
    var run := rows.run;
    if !IsOwner(run, claimed) then (rows, PrepareAbandoned)
    else
      match ValidatePlan(definition, rows.steps, run.input)
      case ScanCorrupt => (rows, PrepareRaised(InvariantFault))
      case ScanDrift =>
        if !RunTransitionAllowed(run.status, RunFailed) then (rows, PrepareRaised(TransitionFault))
        else (rows.(run := FinishRun(run, RunFailed, Some(StepInputDrift), now)), PrepareTerminal(RunFailed))
      case Scanning(outputs, firstPending) =>
        var finished := if firstPending.None? then run.(progress := 1.0) else run;
        if run.status == RunCancelling then
          (Rows(FinishRun(finished, RunCancelled, None, now), CancelQueued(rows.steps, now)),
              PrepareTerminal(RunCancelled))
        else if firstPending.None? then
          if !RunTransitionAllowed(run.status, RunSucceeded) then (rows, PrepareRaised(TransitionFault))
          else (rows.(run := FinishRun(finished, RunSucceeded, None, now)), PrepareTerminal(RunSucceeded))
        else if run.status != RunRunning then (rows, PrepareRaised(InvariantFault))
        else (rows, PrepareReady(outputs, firstPending.value))
  }

  datatype CheckpointOutcome =
    | CheckpointAbandoned
    | CheckpointPaused
    | CheckpointTerminal(status: RunStatus)
    | CheckpointStarted(stepAttempt: nat)
    | CheckpointRaised(fault: Fault)

  function Checkpoint(rows: Rows, claimed: Claimed, index: nat, def: StepDef, outputs: map<string, Json>,
                      stopRequested: bool, now: Time): (Rows, CheckpointOutcome)
    requires index < |rows.steps|
  {
    var run := rows.run;
    var step := rows.steps[index];
    var expected := InputHash(def, run.input, outputs);
    if !IsOwner(run, claimed) then (rows, CheckpointAbandoned)
    else if step.status != StepQueued then (rows, CheckpointRaised(InvariantFault))
    else if run.status == RunCancelling then
      (Rows(FinishRun(run, RunCancelled, None, now), CancelQueued(rows.steps, now)), CheckpointTerminal(RunCancelled))
    else if run.status != RunRunning then (rows, CheckpointRaised(InvariantFault))
    else if stopRequested then (rows, CheckpointPaused)
    else if expected.None? then
      (rows.(run := FinishRun(run, RunFailed, Some(StepInputUnresolvable), now)), CheckpointTerminal(RunFailed))
    else if step.inputHash.Some? && step.inputHash != expected then
      (rows.(run := FinishRun(run, RunFailed, Some(StepInputDrift), now)), CheckpointTerminal(RunFailed))
    else
      var started := MovedStep(step.(inputHash := expected), StepRunning, now, None, None);
      (Rows(run.(currentStep := Some(step.name)), rows.steps[index := started]), CheckpointStarted(started.attempt))
  }

  datatype Fence = FencedOut | FenceRaised(fault: Fault) | Fenced(cancelling: bool)

  /** _load_fenced_running_step. */
  function LoadFenced(rows: Rows, claimed: Claimed, index: nat, expectedAttempt: nat): Fence
    requires index < |rows.steps|
  {
    var step := rows.steps[index];
    if !IsOwner(rows.run, claimed) then FencedOut
    else if step.status != StepRunning || step.attempt != expectedAttempt then FencedOut
    else if !InFlight(rows.run.status) then FenceRaised(InvariantFault)
    else Fenced(rows.run.status == RunCancelling)
  }

  /** What step.persist(...) does inside the engine's transaction. */
  datatype PersistVerdict = Persisted(output: Json) | PersistFailed(failure: Failure)

  datatype PersistOutcome =
    | PersistAbandoned
    | PersistTerminal(status: RunStatus)
    | PersistContinue(output: Json)
    | PersistRolledBack(failure: Failure)
    | PersistRaised(fault: Fault)

  /** True exactly when step.persist's own mutation is part of what was committed. */
  predicate PersistCommitted(outcome: PersistOutcome) {
    outcome.PersistTerminal? || outcome.PersistContinue?
  }

  function CommitSuccess(rows: Rows, claimed: Claimed, index: nat, expectedAttempt: nat, verdict: PersistVerdict,
                         succeededCount: nat, totalSteps: nat, now: Time): (Rows, PersistOutcome)
    requires index < |rows.steps| && totalSteps > 0
  {
    match LoadFenced(rows, claimed, index, expectedAttempt)
    case FencedOut => (rows, PersistAbandoned)
    case FenceRaised(fault) => (rows, PersistRaised(fault))
    case Fenced(cancelling) =>
      if verdict.PersistFailed? then (rows, PersistRolledBack(verdict.failure))
      else
        var progress := (succeededCount + 1) as real / totalSteps as real;
        var steps := rows.steps[index := MovedStep(rows.steps[index], StepSucceeded, now, Some(verdict.output), None)];
        var run := rows.run.(progress := progress);
        if !(0.0 <= progress <= 1.0) then (rows, PersistRaised(ProgressFault))
        else if cancelling then
          (Rows(FinishRun(run, RunCancelled, None, now), CancelQueued(steps, now)), PersistTerminal(RunCancelled))
        else if succeededCount + 1 == totalSteps then
          (Rows(FinishRun(run, RunSucceeded, None, now), steps), PersistTerminal(RunSucceeded))
        else (Rows(run, steps), PersistContinue(verdict.output))
  }

  function CommitFailure(rows: Rows, claimed: Claimed, index: nat, expectedAttempt: nat, failure: Failure,
                         policy: RetryPolicy, jitter: real, now: Time): (Rows, PersistOutcome)
    requires index < |rows.steps|
  {
    match LoadFenced(rows, claimed, index, expectedAttempt)
    case FencedOut => (rows, PersistAbandoned)
    case FenceRaised(fault) => (rows, PersistRaised(fault))
    case Fenced(cancelling) =>
      var run, step := rows.run, rows.steps[index];
      if cancelling && failure.Retryable? then
        var requeued := MovedStep(step, StepQueued, now, None, Some(failure.code));
        var cancelled := rows.steps[index := MovedStep(requeued, StepCancelled, now, None, None)];
        (Rows(FinishRun(run, RunCancelled, None, now), CancelQueued(cancelled, now)), PersistTerminal(RunCancelled))
      else if !cancelling && failure.Retryable? && HasAttemptsRemaining(policy, run.attempt) then
        var retryAt := now + BackoffSeconds(policy, run.attempt, jitter);
        (Rows(MovedRun(run, RunQueued, now, None, Some(retryAt), None),
              rows.steps[index := MovedStep(step, StepQueued, now, None, Some(failure.code))]),
         PersistTerminal(RunQueued))
      else
        (Rows(FinishRun(run, RunFailed, Some(failure.code), now),
              rows.steps[index := MovedStep(step, StepFailed, now, None, Some(failure.code))]),
         PersistTerminal(RunFailed))
  }

  /* ----- the rest of the system: claimer, heartbeat, run control, stale recovery ----- */

  predicate Claimable(rows: Rows, now: Time) {
    rows.run.status == RunQueued && (rows.run.nextAttemptAt.None? || rows.run.nextAttemptAt.value <= now)
  }

  function Claim(rows: Rows, workerId: string, now: Time): Rows {
    if Claimable(rows, now) then rows.(run := MovedRun(rows.run, RunRunning, now, Some(workerId), None, None)) else rows
  }

  function Heartbeat(rows: Rows, claimed: Claimed, now: Time): Rows {
    if IsOwner(rows.run, claimed) && InFlight(rows.run.status)
    then rows.(run := rows.run.(heartbeatAt := Some(now)))
    else rows
  }

  /** RunControlService.cancel. */
  function RequestCancel(rows: Rows, now: Time): Rows {
    match rows.run.status
    case RunQueued =>
      if exists i :: 0 <= i < |rows.steps| && rows.steps[i].status == StepRunning then rows
      else Rows(FinishRun(rows.run, RunCancelled, None, now), CancelQueued(rows.steps, now))
    case RunRunning => rows.(run := MovedRun(rows.run, RunCancelling, now, None, None, None))
    case _ => rows
  }

  function CountStatus(steps: seq<Step>, status: StepStatus): (n: nat)
    ensures n <= |steps|
  {
    if steps == [] then 0
    else CountStatus(steps[..|steps| - 1], status) + (if steps[|steps| - 1].status == status then 1 else 0)
  }

  function FirstRunning(steps: seq<Step>): (i: nat)
    ensures i <= |steps|
    ensures i < |steps| ==> steps[i].status == StepRunning
    ensures forall j :: 0 <= j < i ==> steps[j].status != StepRunning
  {
    if steps == [] || steps[0].status == StepRunning then 0 else 1 + FirstRunning(steps[1..])
  }

  /** Everything stale recovery is told from outside the rows it has locked. */
  datatype RecoveryInput = RecoveryInput(fingerprintMatches: bool, orphanProvenSafe: bool, jitter: real, now: Time)

  function FailStale(rows: Rows, code: string, now: Time): Rows {
    Rows(FinishRun(rows.run, RunFailed, Some(code), now), FailRunning(rows.steps, code, now))
  }

  function RecoverRunning(rows: Rows, input: RecoveryInput, policy: RetryPolicy): Rows {
    var run, steps, now := rows.run, rows.steps, input.now;
    if !input.fingerprintMatches then FailStale(rows, ConfigFingerprintMismatch, now)
    else if run.heartbeatAt.None? then FailStale(rows, WorkerLost, now)
    else if !HasAttemptsRemaining(policy, run.attempt) then FailStale(rows, WorkerLost, now)
    else if |steps| == 0 then rows.(run := FinishRun(run, RunFailed, Some(WorkerLost), now))
    else if CountStatus(steps, StepRunning) > 1 || CountStatus(steps, StepSucceeded) == |steps| then
      FailStale(rows, WorkerLost, now)
    else
      var retryAt := now + BackoffSeconds(policy, run.attempt, input.jitter);
      var orphan := FirstRunning(steps);
      Rows(MovedRun(run, RunQueued, now, None, Some(retryAt), None),
           if orphan < |steps| then steps[orphan := MovedStep(steps[orphan], StepQueued, now, None, None)] else steps)
  }

  function RecoverCancelling(rows: Rows, input: RecoveryInput): Rows {
    var run, steps, now := rows.run, rows.steps, input.now;
    if run.heartbeatAt.None? then FailStale(rows, CancelRecoveryAmbiguous, now)
    else if |steps| == 0 then rows.(run := FinishRun(run, RunFailed, Some(CancelRecoveryAmbiguous), now))
    else if CountStatus(steps, StepRunning) > 1 then FailStale(rows, CancelRecoveryAmbiguous, now)
    else
      var orphan := FirstRunning(steps);
      if orphan == |steps| then
        var cancelled := CancelQueued(steps, now);
        var settled := forall i :: 0 <= i < |cancelled| ==>
            cancelled[i].status == StepSucceeded || cancelled[i].status == StepCancelled;
        Rows(FinishRun(if settled then run.(progress := 1.0) else run, RunCancelled, None, now), cancelled)
      else if input.orphanProvenSafe then
        Rows(FinishRun(run, RunCancelled, None, now),
             CancelQueued(steps[orphan := MovedStep(steps[orphan], StepCancelled, now, None, None)], now))
      else
        Rows(FinishRun(run, RunFailed, Some(CancelRecoveryAmbiguous), now),
             steps[orphan := MovedStep(steps[orphan], StepFailed, now, None, Some(CancelRecoveryAmbiguous))])
  }

  /** _recover_one on a run found stale; a run not RUNNING or CANCELLING never is. */
  function Recover(rows: Rows, input: RecoveryInput, policy: RetryPolicy): Rows {
    match rows.run.status
    case RunCancelling => RecoverCancelling(rows, input)
    case RunRunning => RecoverRunning(rows, input, policy)
    case _ => rows
  }
}
