/** The persisted run and step rows and the two status matrices they move through. */
module PipelineLifecycle {
  import opened Wrappers

  /** JSON documents, kept as canonical text. */
  type Json = string

  /** PostgreSQL timestamps. */
  type Time = real

  datatype RunStatus = RunQueued | RunRunning | RunCancelling | RunSucceeded | RunFailed | RunCancelled

  datatype StepStatus =
    StepQueued | StepRunning | StepSucceeded | StepFailed | StepCancelling | StepCancelled

  /** The SHA-256 input hash of a step, taken as injective in what it digests. */
  datatype Hash = Hash(definitionId: string, semanticInput: Json)

  datatype Run = Run(
    status: RunStatus, attempt: nat, workerId: Option<string>, heartbeatAt: Option<Time>,
    startedAt: Option<Time>, finishedAt: Option<Time>, nextAttemptAt: Option<Time>,
    progress: real, currentStep: Option<string>, errorCode: Option<string>, input: Json)

  datatype Step = Step(
    name: string, ordinal: nat, status: StepStatus, attempt: nat, inputHash: Option<Hash>,
    output: Json, error: Option<string>, startedAt: Option<Time>, finishedAt: Option<Time>)

  predicate RunTransitionAllowed(current: RunStatus, target: RunStatus) {
    match current
    case RunQueued => target == RunRunning || target == RunCancelled
    case RunRunning => target == RunSucceeded || target == RunQueued || target == RunFailed || target == RunCancelling
    case RunCancelling => target == RunCancelled || target == RunFailed
    case _ => false
  }

  predicate StepTransitionAllowed(current: StepStatus, target: StepStatus) {
    match current
    case StepQueued => target == StepRunning || target == StepCancelled
    case StepRunning => target == StepSucceeded || target == StepFailed || target == StepQueued
        || target == StepCancelled
    case _ => false
  }

  predicate TerminalRun(status: RunStatus) {
    status == RunSucceeded || status == RunFailed || status == RunCancelled
  }

  predicate InFlight(status: RunStatus) {
    status == RunRunning || status == RunCancelling
  }

  /** The run after an allowed move to `target`. */
  function MovedRun(run: Run, target: RunStatus, now: Time, workerId: Option<string>,
                    nextAttemptAt: Option<Time>, errorCode: Option<string>): Run
  {
    match target
    case RunRunning =>
      run.(status := target, attempt := run.attempt + 1,
           startedAt := if run.startedAt.None? then Some(now) else run.startedAt,
           workerId := workerId, heartbeatAt := Some(now), nextAttemptAt := None)
    case RunQueued => run.(status := target, nextAttemptAt := nextAttemptAt)
    case RunCancelling => run.(status := target)
    case RunFailed => run.(status := target, finishedAt := Some(now), nextAttemptAt := None, errorCode := errorCode)
    case _ => run.(status := target, finishedAt := Some(now), nextAttemptAt := None)
  }

  /** The step after an allowed move to `target`. */
  function MovedStep(step: Step, target: StepStatus, now: Time, output: Option<Json>, error: Option<string>): Step {
    match target
    case StepRunning =>
      step.(status := target, attempt := step.attempt + 1, startedAt := Some(now), finishedAt := None)
    case StepSucceeded =>
      step.(status := target, finishedAt := Some(now), output := if output.Some? then output.value else step.output)
    case StepFailed =>
      step.(status := target, finishedAt := Some(now), error := if error.Some? then error else step.error)
    case StepCancelled => step.(status := target, finishedAt := Some(now))
    case StepQueued =>
      step.(status := target, startedAt := None, finishedAt := None, error := if error.Some? then error else step.error)
    case StepCancelling => step.(status := target)
  }

  /** A terminal run is immutable: the matrix offers it no move at all. */
  lemma TerminalRunsNeverMove(current: RunStatus, target: RunStatus)
    ensures TerminalRun(current) ==> !RunTransitionAllowed(current, target)
    ensures current == RunCancelling && RunTransitionAllowed(current, target) ==>
            target == RunCancelled || target == RunFailed
  {
  }

  /** One pipeline_runs row, as the object the session hands out. */
  class RunRow {
    var status: RunStatus
    var attempt: nat
    var workerId: Option<string>
    var heartbeatAt: Option<Time>
    var startedAt: Option<Time>
    var finishedAt: Option<Time>
    var nextAttemptAt: Option<Time>
    var progress: real
    var currentStep: Option<string>
    var errorCode: Option<string>
    const input: Json

    constructor (run: Run)
      ensures Value() == run
    {
      status, attempt, workerId, heartbeatAt := run.status, run.attempt, run.workerId, run.heartbeatAt;
      startedAt, finishedAt, nextAttemptAt := run.startedAt, run.finishedAt, run.nextAttemptAt;
      progress, currentStep, errorCode, input := run.progress, run.currentStep, run.errorCode, run.input;
    }

    function Value(): Run
      reads this
    {
      Run(status, attempt, workerId, heartbeatAt, startedAt, finishedAt, nextAttemptAt,
          progress, currentStep, errorCode, input)
    }

    /** transition_run: refuses, changing nothing, exactly the moves outside the matrix. */
    method Transition(target: RunStatus, now: Time, worker: Option<string>,
                      retryAt: Option<Time>, code: Option<string>)
      returns (ok: bool)
      modifies this
      ensures ok == RunTransitionAllowed(old(status), target)
      ensures Value() == if ok then MovedRun(old(Value()), target, now, worker, retryAt, code) else old(Value())
    {
      ok := RunTransitionAllowed(status, target);
      if !ok { return; }
      if target == RunRunning {
        attempt := attempt + 1;
        if startedAt == None { startedAt := Some(now); }
        workerId, heartbeatAt, nextAttemptAt := worker, Some(now), None;
      } else if target == RunQueued {
        nextAttemptAt := retryAt;
      } else if TerminalRun(target) {
        finishedAt, nextAttemptAt := Some(now), None;
        if target == RunFailed { errorCode := code; }
      }
      status := target;
    }

    /** apply_run_progress: refuses a value outside [0, 1]. */
    method ApplyProgress(value: real) returns (ok: bool)
      modifies this
      ensures ok == (0.0 <= value <= 1.0)
      ensures Value() == if ok then old(Value()).(progress := value) else old(Value())
    {
      ok := 0.0 <= value <= 1.0;
      if ok { progress := value; }
    }
  }

  /** One pipeline_steps row. */
  class StepRow {
    const name: string
    const ordinal: nat
    var status: StepStatus
    var attempt: nat
    var inputHash: Option<Hash>
    var output: Json
    var error: Option<string>
    var startedAt: Option<Time>
    var finishedAt: Option<Time>

    constructor (step: Step)
      ensures Value() == step
    {
      name, ordinal, status, attempt, inputHash := step.name, step.ordinal, step.status, step.attempt, step.inputHash;
      output, error, startedAt, finishedAt := step.output, step.error, step.startedAt, step.finishedAt;
    }

    function Value(): Step
      reads this
    {
      Step(name, ordinal, status, attempt, inputHash, output, error, startedAt, finishedAt)
    }

    /** transition_step: refuses, changing nothing, exactly the moves outside the matrix. */
    method Transition(target: StepStatus, now: Time, result: Option<Json>, failure: Option<string>) returns (ok: bool)
      modifies this
      ensures ok == StepTransitionAllowed(old(status), target)
      ensures Value() == if ok then MovedStep(old(Value()), target, now, result, failure) else old(Value())
    {
      ok := StepTransitionAllowed(status, target);
      if !ok { return; }
      if target == StepRunning {
        attempt, startedAt, finishedAt := attempt + 1, Some(now), None;
      } else if target == StepSucceeded {
        finishedAt := Some(now);
        if result.Some? { output := result.value; }
      } else if target == StepFailed {
        finishedAt := Some(now);
        if failure.Some? { error := failure; }
      } else if target == StepCancelled {
        finishedAt := Some(now);
      } else if target == StepQueued {
        startedAt, finishedAt := None, None;
        if failure.Some? { error := failure; }
      }
      status := target;
    }
  }

  /** What a session sees of its step rows. */
  function Values(rows: seq<StepRow>): (values: seq<Step>)
    reads rows
    ensures |values| == |rows|
    ensures forall i :: 0 <= i < |rows| ==> values[i] == rows[i].Value()
  {
    seq(|rows|, i requires 0 <= i < |rows| reads rows => rows[i].Value())
  }
}
