/**
 The invariant that ties the run row, the step rows, the committed effects and
 every execution's memory together, and what it says about every interleaving.
*/
module EngineSafety {
  import opened Wrappers
  import opened PipelineLifecycle
  import opened EngineTransactions
  import opened EngineSystem

  /* ----- the rows ----- */

  function DoneFrom(steps: seq<Step>, from: nat): (k: nat)
    requires from <= |steps|
    ensures from <= k <= |steps|
    ensures forall i :: from <= i < k ==> steps[i].status == StepSucceeded
    ensures k < |steps| ==> steps[k].status != StepSucceeded
    decreases |steps| - from
  {
    if from == |steps| || steps[from].status != StepSucceeded then from else DoneFrom(steps, from + 1)
  }

  /** Length of the leading stretch of SUCCEEDED steps. */
  function Done(steps: seq<Step>): nat {
    DoneFrom(steps, 0)
  }

  ghost predicate Tail(steps: seq<Step>, from: nat, status: StepStatus) {
    forall i :: from <= i < |steps| ==> steps[i].status == status
  }

  ghost predicate Shape(status: RunStatus, steps: seq<Step>) {
    var k := Done(steps);
    match status
    case RunQueued => k < |steps| && Tail(steps, k, StepQueued)
    case RunRunning => k < |steps| && (steps[k].status == StepQueued || steps[k].status == StepRunning)
        && Tail(steps, k + 1, StepQueued)
    case RunCancelling => k < |steps| && (steps[k].status == StepQueued || steps[k].status == StepRunning)
        && Tail(steps, k + 1, StepQueued)
    case RunSucceeded => k == |steps|
    case RunFailed => k < |steps| && (steps[k].status == StepQueued || steps[k].status == StepFailed)
        && Tail(steps, k + 1, StepQueued)
    case RunCancelled => Tail(steps, k, StepCancelled)
  }

  ghost predicate StepOk(step: Step, index: nat) {
    && step.ordinal == index
    && (step.attempt > 0 ==> step.inputHash.Some?)
    && (step.status == StepRunning || step.status == StepSucceeded || step.status == StepFailed ==> step.attempt > 0)
  }

  ghost predicate RunOk(run: Run, policy: RetryPolicy) {
    && run.attempt <= policy.maxRunAttempts
    && (run.status == RunQueued ==> run.attempt < policy.maxRunAttempts)
    && (InFlight(run.status) ==> run.attempt > 0)
    && (run.attempt > 0 ==> run.workerId.Some? && run.heartbeatAt.Some?)
  }

  /** k/n: the share of the plan that is SUCCEEDED. */
  ghost function Fraction(steps: seq<Step>): real {
    if |steps| == 0 then 0.0 else Done(steps) as real / |steps| as real
  }

  ghost predicate ProgressOk(rows: Rows) {
    rows.run.progress == Fraction(rows.steps) || (rows.run.status == RunCancelled && rows.run.progress == 1.0)
  }

  ghost predicate StepsOk(steps: seq<Step>) {
    forall i :: 0 <= i < |steps| ==> StepOk(steps[i], i)
  }

  ghost predicate RowsOk(rows: Rows, policy: RetryPolicy) {
    && |rows.steps| > 0
    && Shape(rows.run.status, rows.steps)
    && RunOk(rows.run, policy)
    && StepsOk(rows.steps)
    && ProgressOk(rows)
  }

  /* ----- the executions ----- */

  /** The in-memory step_outputs after the first `n` steps. */
  function OutputsOf(steps: seq<Step>, n: nat): map<string, Json>
    requires n <= |steps|
  {
    if n == 0 then map[] else OutputsOf(steps, n - 1)[steps[n - 1].name := steps[n - 1].output]
  }

  /** The execution holds the current claim of a run that is still in flight. */
  ghost predicate Active(s: System, x: Execution) {
    x.claimed.attempt == s.rows.run.attempt && InFlight(s.rows.run.status)
  }

  ghost predicate Holds(s: System, x: Execution, index: nat, stepAttempt: nat) {
    var steps := s.rows.steps;
    && index < |steps| && index <= Done(steps)
    && 0 < stepAttempt <= steps[index].attempt
    && (stepAttempt == steps[index].attempt ==> index in s.starters && s.starters[index] == x.claimed.attempt)
    && (Active(s, x) ==>
          index == Done(steps) && steps[index].status == StepRunning && steps[index].attempt == stepAttempt)
  }

  ghost predicate Remembers(s: System, x: Execution, index: nat, outputs: map<string, Json>, succeeded: nat) {
    var steps := s.rows.steps;
    && |x.definition| == |steps|
    && index < |steps| && index <= Done(steps) && succeeded == index
    && outputs == OutputsOf(steps, index)
  }

  ghost predicate ExecutionOk(s: System, x: Execution) {
    var run, steps := s.rows.run, s.rows.steps;
    && |x.definition| > 0
    && x.claimed.attempt <= run.attempt
    && (x.claimed.attempt == run.attempt ==> run.workerId == Some(x.claimed.workerId))
    && match x.pc
       case AtPrepare => Active(s, x) ==> Tail(steps, Done(steps), StepQueued)
       case AtCheckpoint(index, outputs, succeeded) =>
         && Remembers(s, x, index, outputs, succeeded)
         && (Active(s, x) ==> index == Done(steps) && steps[index].status == StepQueued)
       case AtExecute(index, outputs, succeeded, stepAttempt) =>
         Remembers(s, x, index, outputs, succeeded) && Holds(s, x, index, stepAttempt)
       case AtPersist(index, outputs, succeeded, stepAttempt) =>
         Remembers(s, x, index, outputs, succeeded) && Holds(s, x, index, stepAttempt)
       case AtFailure(index, stepAttempt, _) => Holds(s, x, index, stepAttempt)
       case Ended(reason) => Active(s, x) ==> reason == Paused
  }

  ghost predicate EffectsOk(s: System) {
    var steps := s.rows.steps;
    && |s.effects| == Done(steps)
    && forall i :: 0 <= i < |s.effects| ==>
         i in s.starters && s.effects[i] == Effect(i, steps[i].attempt, steps[i].output, s.starters[i])
  }

  ghost predicate Inv(s: System, policy: RetryPolicy) {
    && RowsOk(s.rows, policy)
    && EffectsOk(s)
    && (InFlight(s.rows.run.status) ==> s.rows.run.attempt in s.executions)
    && forall claim :: claim in s.executions ==>
         s.executions[claim].claimed.attempt == claim && ExecutionOk(s, s.executions[claim])
  }

  /* ----- helper lemmas ----- */

  lemma DoneIs(steps: seq<Step>, k: nat)
    requires k <= |steps|
    requires forall i :: 0 <= i < k ==> steps[i].status == StepSucceeded
    requires k < |steps| ==> steps[k].status != StepSucceeded
    ensures Done(steps) == k
  {
  }

  lemma {:induction false} OutputsAgree(a: seq<Step>, b: seq<Step>, n: nat)
    requires n <= |a| && n <= |b|
    requires forall i :: 0 <= i < n ==> a[i].name == b[i].name && a[i].output == b[i].output
    ensures OutputsOf(a, n) == OutputsOf(b, n)
  {
    if n > 0 {
      OutputsAgree(a, b, n - 1);
    }
  }

  /** What one pass of _validate_plan establishes about the rows it accepts. */
  lemma {:induction false} ScanMeaning(definition: seq<StepDef>, steps: seq<Step>, input: Json, n: nat)
    requires n <= |definition| == |steps|
    ensures match ScanPlan(definition, steps, input, n)
            case Scanning(outputs, firstPending) =>
              var k := if firstPending.None? then n else firstPending.value;
              && k <= n && (firstPending.Some? ==> k < n)
              && (forall i :: 0 <= i < k ==> steps[i].status == StepSucceeded)
              && (forall i :: k <= i < n ==> steps[i].status == StepQueued)
              && outputs == OutputsOf(steps, k)
            case _ => true
  {
    if n > 0 {
      ScanMeaning(definition, steps, input, n - 1);
    }
  }

  /** Rows that are SUCCEEDED and then QUEUED are never reported as corrupt. */
  lemma {:induction false} ScanNeverCorrupt(definition: seq<StepDef>, steps: seq<Step>, input: Json, n: nat)
    requires n <= |definition| == |steps|
    requires Tail(steps, Done(steps), StepQueued)
    ensures !ScanPlan(definition, steps, input, n).ScanCorrupt?
  {
    if n > 0 {
      ScanNeverCorrupt(definition, steps, input, n - 1);
      ScanMeaning(definition, steps, input, n - 1);
    }
  }

  /** `fresh` rows keep everything an execution remembers about a finished prefix. */
  ghost predicate Continues(old_: seq<Step>, new_: seq<Step>) {
    && |new_| == |old_| && Done(old_) <= Done(new_)
    && (forall i :: 0 <= i < |old_| ==> new_[i].name == old_[i].name && old_[i].attempt <= new_[i].attempt)
    && (forall i :: 0 <= i < Done(old_) ==> new_[i].output == old_[i].output && new_[i].attempt == old_[i].attempt)
  }

  /** An execution untouched by an event stays consistent with rows that continue the old ones. */
  lemma ExecutionFrame(s: System, t: System, x: Execution)
    requires ExecutionOk(s, x)
    requires Continues(s.rows.steps, t.rows.steps)
    requires x.claimed.attempt <= t.rows.run.attempt
    requires x.claimed.attempt == t.rows.run.attempt ==>
             t.rows.run.workerId == s.rows.run.workerId && x.claimed.attempt == s.rows.run.attempt
    requires Active(t, x) ==> Active(s, x) && t.rows.steps == s.rows.steps
    requires forall i :: 0 <= i < |t.rows.steps| && i in s.starters
                         && t.rows.steps[i].attempt == s.rows.steps[i].attempt ==>
               i in t.starters && t.starters[i] == s.starters[i]
    ensures ExecutionOk(t, x)
  {
    match x.pc
    case AtCheckpoint(index, _, _) => OutputsAgree(s.rows.steps, t.rows.steps, index);
    case AtExecute(index, _, _, _) => OutputsAgree(s.rows.steps, t.rows.steps, index);
    case AtPersist(index, _, _, _) => OutputsAgree(s.rows.steps, t.rows.steps, index);
    case _ =>
  }

  /* ----- each kind of commit keeps the rows consistent ----- */

  /** No step was started: attempts and stored hashes are what they were. */
  ghost predicate SameAttempts(steps: seq<Step>, t: seq<Step>) {
    |t| == |steps| && forall i :: 0 <= i < |t| ==>
        t[i].attempt == steps[i].attempt && t[i].inputHash == steps[i].inputHash
  }

  /** What a transaction that neither starts nor finishes a step may do to the rows. */
  ghost predicate Settles(rows: Rows, t: Rows, policy: RetryPolicy) {
    && RowsOk(t, policy) && Continues(rows.steps, t.steps) && Done(t.steps) == Done(rows.steps)
    && SameAttempts(rows.steps, t.steps)
  }

  /** What can become of rows once their run is CANCELLING. */
  ghost predicate CancellationOutcome(rows: Rows, t: Rows) {
    var k := Done(rows.steps);
    && SameAttempts(rows.steps, t.steps)
    && (t.run.status == RunCancelling || t.run.status == RunCancelled || t.run.status == RunFailed)
    && (t.run.status == RunCancelling ==> t.steps == rows.steps)
    && (Done(t.steps) == k || (Done(t.steps) == k + 1 && rows.steps[k].status == StepRunning))
    && (forall i :: 0 <= i < |t.steps| && t.steps[i].status == StepFailed ==> t.run.status == RunFailed)
  }

  /** How any single event relates the rows before it to the rows after it. */
  ghost predicate RowsEvolve(rows: Rows, t: Rows) {
    && Continues(rows.steps, t.steps)
    && (rows.run.status == RunCancelling ==> CancellationOutcome(rows, t))
  }

  /** The same for an event that starts no step. */
  ghost predicate RowsEvolveQuietly(rows: Rows, t: Rows) {
    RowsEvolve(rows, t) && SameAttempts(rows.steps, t.steps)
  }

  /** A move that keeps claim and attempt, and touches a step only by taking the run out of flight. */
  ghost predicate EnvironmentMove(rows: Rows, t: Rows, policy: RetryPolicy) {
    && Settles(rows, t, policy)
    && t.run.attempt == rows.run.attempt && t.run.workerId == rows.run.workerId
    && (InFlight(t.run.status) ==> InFlight(rows.run.status) && t.steps == rows.steps)
    && (rows.run.status == RunCancelling ==>
          t.run.status == RunCancelling || t.run.status == RunCancelled || t.run.status == RunFailed)
  }

  lemma EnvironmentMoveEvolves(rows: Rows, t: Rows, policy: RetryPolicy)
    requires RowsOk(rows, policy) && EnvironmentMove(rows, t, policy)
    ensures RowsEvolveQuietly(rows, t)
  {
  }

  /** The run ends FAILED and no step row moves. */
  lemma FailedRunOnly(rows: Rows, code: string, now: Time, policy: RetryPolicy)
    requires RowsOk(rows, policy) && InFlight(rows.run.status) && Tail(rows.steps, Done(rows.steps), StepQueued)
    ensures Settles(rows, rows.(run := FinishRun(rows.run, RunFailed, Some(code), now)), policy)
  {
  }

  /** Steps that never started, or were just cancelled, all end CANCELLED; the SUCCEEDED prefix stays. */
  lemma CancelQueuedShape(steps: seq<Step>, now: Time)
    requires Tail(steps, Done(steps), StepQueued)
             || (Done(steps) < |steps| && steps[Done(steps)].status == StepCancelled
                && Tail(steps, Done(steps) + 1, StepQueued))
    ensures var t := CancelQueued(steps, now); Done(t) == Done(steps) && Tail(t, Done(t), StepCancelled)
  {
    DoneIs(CancelQueued(steps, now), Done(steps));
  }

  lemma CancelQueuedKeeps(steps: seq<Step>, now: Time)
    requires StepsOk(steps)
    ensures StepsOk(CancelQueued(steps, now))
  {
  }

  /** The run ends CANCELLED together with every step that never started. */
  lemma CancelledRun(run: Run, steps: seq<Step>, now: Time, policy: RetryPolicy)
    requires |steps| > 0 && StepsOk(steps) && RunOk(run, policy)
    requires Tail(steps, Done(steps), StepQueued)
             || (Done(steps) < |steps| && steps[Done(steps)].status == StepCancelled
                && Tail(steps, Done(steps) + 1, StepQueued))
    requires run.progress == Fraction(steps) || run.progress == 1.0
    ensures var t := Rows(FinishRun(run, RunCancelled, None, now), CancelQueued(steps, now));
            RowsOk(t, policy) && Done(t.steps) == Done(steps)
  {
    CancelQueuedShape(steps, now);
    CancelQueuedKeeps(steps, now);
  }

  lemma CancelQueuedContinues(steps: seq<Step>, now: Time)
    requires Tail(steps, Done(steps), StepQueued)
    ensures Continues(steps, CancelQueued(steps, now)) && SameAttempts(steps, CancelQueued(steps, now))
  {
    CancelQueuedShape(steps, now);
  }

  /** Cancellation observed between steps. */
  lemma CancelledBetweenSteps(rows: Rows, progress: real, now: Time, policy: RetryPolicy)
    requires RowsOk(rows.(run := rows.run.(progress := progress)), policy) && rows.run.status != RunCancelled
    requires rows.run.progress == progress || rows.run.progress == 1.0
    requires Tail(rows.steps, Done(rows.steps), StepQueued)
    ensures Settles(rows, Rows(FinishRun(rows.run, RunCancelled, None, now), CancelQueued(rows.steps, now)), policy)
  {
    CancelledRun(rows.run, rows.steps, now, policy);
    CancelQueuedContinues(rows.steps, now);
  }

  /* ----- each engine transaction keeps the rows consistent ----- */

  /** Not the owner, or the run no longer in flight: preparing changes nothing and lets nobody proceed. */
  lemma PrepareIdle(rows: Rows, claimed: Claimed, definition: seq<StepDef>, now: Time, policy: RetryPolicy)
    requires RowsOk(rows, policy) && |definition| > 0
    requires !(IsOwner(rows.run, claimed) && InFlight(rows.run.status))
    ensures var (t, outcome) := Prepare(rows, claimed, definition, now);
            t == rows && (outcome.PrepareAbandoned? || outcome.PrepareRaised?)
  {
    if |definition| == |rows.steps| {
      ScanMeaning(definition, rows.steps, rows.run.input, |rows.steps|);
      match ScanPlan(definition, rows.steps, rows.run.input, |rows.steps|)
      case Scanning(_, firstPending) =>
        DoneIs(rows.steps, if firstPending.None? then |rows.steps| else firstPending.value);
      case _ =>
    }
  }

  /** What the owner's scan of rows in flight can answer: drift, or the memory of the SUCCEEDED prefix. */
  lemma ScanOwned(rows: Rows, definition: seq<StepDef>)
    requires Tail(rows.steps, Done(rows.steps), StepQueued) && Done(rows.steps) < |rows.steps|
    ensures var scan := ValidatePlan(definition, rows.steps, rows.run.input);
            scan.ScanDrift? || (|definition| == |rows.steps|
                                && scan == Scanning(OutputsOf(rows.steps, Done(rows.steps)), Some(Done(rows.steps))))
  {
    var steps := rows.steps;
    if |definition| == |steps| {
      ScanNeverCorrupt(definition, steps, rows.run.input, |steps|);
      ScanMeaning(definition, steps, rows.run.input, |steps|);
      match ScanPlan(definition, steps, rows.run.input, |steps|)
      case Scanning(_, firstPending) =>
        DoneIs(steps, if firstPending.None? then |steps| else firstPending.value);
      case _ =>
    }
  }

  lemma PrepareOwned(rows: Rows, claimed: Claimed, definition: seq<StepDef>, now: Time, policy: RetryPolicy)
    requires RowsOk(rows, policy) && |definition| > 0
    requires IsOwner(rows.run, claimed) && InFlight(rows.run.status) && Tail(rows.steps, Done(rows.steps), StepQueued)
    ensures var (t, outcome) := Prepare(rows, claimed, definition, now);
            && EnvironmentMove(rows, t, policy)
            && (if outcome.PrepareTerminal? then TerminalRun(t.run.status) && t.run.status == outcome.status
                else outcome == PrepareReady(OutputsOf(rows.steps, Done(rows.steps)), Done(rows.steps))
                     && t == rows && |definition| == |rows.steps|)
  {
    ScanOwned(rows, definition);
    if ValidatePlan(definition, rows.steps, rows.run.input).ScanDrift? {
      FailedRunOnly(rows, StepInputDrift, now, policy);
    } else {
      CancelledBetweenSteps(rows, rows.run.progress, now, policy);
    }
  }

  lemma PrepareKeepsRows(rows: Rows, claimed: Claimed, definition: seq<StepDef>, now: Time, policy: RetryPolicy)
    requires RowsOk(rows, policy) && |definition| > 0
    requires IsOwner(rows.run, claimed) && InFlight(rows.run.status) ==> Tail(rows.steps, Done(rows.steps), StepQueued)
    ensures var (t, outcome) := Prepare(rows, claimed, definition, now);
            && EnvironmentMove(rows, t, policy)
            && (outcome.PrepareTerminal? ==> TerminalRun(t.run.status) && t.run.status == outcome.status)
            && (!outcome.PrepareTerminal? ==> t == rows)
            && (outcome.PrepareReady? ==>
                  && |definition| == |rows.steps| && outcome.firstPending == Done(rows.steps) < |rows.steps|
                  && outcome.outputs == OutputsOf(rows.steps, Done(rows.steps)))
            && (IsOwner(rows.run, claimed) && InFlight(rows.run.status) ==>
               outcome.PrepareReady? || outcome.PrepareTerminal?)
  {
    if IsOwner(rows.run, claimed) && InFlight(rows.run.status) {
      PrepareOwned(rows, claimed, definition, now, policy);
    } else {
      PrepareIdle(rows, claimed, definition, now, policy);
    }
  }

  /** The next step moves to RUNNING. */
  lemma StartedStep(rows: Rows, hash: Hash, now: Time, policy: RetryPolicy)
    requires RowsOk(rows, policy) && rows.run.status == RunRunning
    requires rows.steps[Done(rows.steps)].status == StepQueued
    ensures var k := Done(rows.steps);
            var started := MovedStep(rows.steps[k].(inputHash := Some(hash)), StepRunning, now, None, None);
            var t := Rows(rows.run.(currentStep := Some(rows.steps[k].name)), rows.steps[k := started]);
            RowsOk(t, policy) && Continues(rows.steps, t.steps) && Done(t.steps) == k
  {
    var k := Done(rows.steps);
    var started := MovedStep(rows.steps[k].(inputHash := Some(hash)), StepRunning, now, None, None);
    DoneIs(rows.steps[k := started], k);
  }

  /** A checkpoint of a stale or finished execution commits nothing and lets nobody start. */
  lemma CheckpointIdle(rows: Rows, claimed: Claimed, index: nat, def: StepDef, outputs: map<string, Json>,
                       stopRequested: bool, now: Time, policy: RetryPolicy)
    requires RowsOk(rows, policy) && index < |rows.steps|
    requires !(IsOwner(rows.run, claimed) && InFlight(rows.run.status))
    ensures var (t, outcome) := Checkpoint(rows, claimed, index, def, outputs, stopRequested, now);
            t == rows && (outcome.CheckpointAbandoned? || outcome.CheckpointRaised?)
  {
  }

  /** The owner's checkpoint ends the run, pauses, or starts its step, in the order of these tests. */
  lemma CheckpointOwned(rows: Rows, claimed: Claimed, index: nat, def: StepDef, outputs: map<string, Json>,
                        stopRequested: bool, now: Time, policy: RetryPolicy)
    requires RowsOk(rows, policy) && IsOwner(rows.run, claimed) && InFlight(rows.run.status)
    requires index == Done(rows.steps) && rows.steps[index].status == StepQueued
    ensures var (t, outcome) := Checkpoint(rows, claimed, index, def, outputs, stopRequested, now);
            var expected := InputHash(def, rows.run.input, outputs);
            if rows.run.status == RunCancelling then
              outcome == CheckpointTerminal(RunCancelled) && t.run.status == RunCancelled
                  && EnvironmentMove(rows, t, policy)
            else if stopRequested then outcome == CheckpointPaused && t == rows
            else if expected.None?
                    || (rows.steps[index].inputHash.Some? && rows.steps[index].inputHash != expected) then
              && outcome == CheckpointTerminal(RunFailed) && t.run.status == RunFailed
              && EnvironmentMove(rows, t, policy)
              && t.run.errorCode == Some(if expected.None? then StepInputUnresolvable else StepInputDrift)
            else
              && t.run == rows.run.(currentStep := Some(rows.steps[index].name))
              && t.steps == rows.steps[index :=
                   MovedStep(rows.steps[index].(inputHash := expected), StepRunning, now, None, None)]
              && outcome == CheckpointStarted(rows.steps[index].attempt + 1)
  {
    if rows.run.status == RunCancelling {
      CancelledBetweenSteps(rows, rows.run.progress, now, policy);
    } else if !stopRequested {
      var code := if InputHash(def, rows.run.input, outputs).None? then StepInputUnresolvable else StepInputDrift;
      FailedRunOnly(rows, code, now, policy);
    }
  }

  lemma CheckpointKeepsRows(rows: Rows, claimed: Claimed, index: nat, def: StepDef, outputs: map<string, Json>,
                            stopRequested: bool, now: Time, policy: RetryPolicy)
    requires RowsOk(rows, policy) && index < |rows.steps|
    requires IsOwner(rows.run, claimed) && InFlight(rows.run.status) ==>
               index == Done(rows.steps) && rows.steps[index].status == StepQueued
    ensures var (t, outcome) := Checkpoint(rows, claimed, index, def, outputs, stopRequested, now);
            && RowsOk(t, policy) && Continues(rows.steps, t.steps) && Done(t.steps) == Done(rows.steps)
            && (!outcome.CheckpointStarted? ==> EnvironmentMove(rows, t, policy))
            && (outcome.CheckpointStarted? ==>
                  && IsOwner(rows.run, claimed) && rows.run.status == RunRunning && index == Done(rows.steps)
                  && InputHash(def, rows.run.input, outputs).Some?
                  && t.run == rows.run.(currentStep := Some(rows.steps[index].name))
                  && t.steps == rows.steps[index := MovedStep(
                       rows.steps[index].(inputHash := InputHash(def, rows.run.input, outputs)),
                       StepRunning, now, None, None)]
                  && outcome.stepAttempt == rows.steps[index].attempt + 1)
            && (!outcome.CheckpointStarted? && t != rows ==>
                  outcome.CheckpointTerminal? && TerminalRun(t.run.status) && t.run.status == outcome.status)
            && (outcome.CheckpointTerminal? ==> !InFlight(t.run.status))
            && (IsOwner(rows.run, claimed) && InFlight(rows.run.status) ==>
                  !outcome.CheckpointAbandoned? && !outcome.CheckpointRaised?)
  {
    if IsOwner(rows.run, claimed) && InFlight(rows.run.status) {
      CheckpointOwned(rows, claimed, index, def, outputs, stopRequested, now, policy);
      var expected := InputHash(def, rows.run.input, outputs);
      if rows.run.status == RunRunning && expected.Some? {
        StartedStep(rows, expected.value, now, policy);
      }
    } else {
      CheckpointIdle(rows, claimed, index, def, outputs, stopRequested, now, policy);
    }
  }

  lemma RatioBound(a: nat, n: nat)
    requires a <= n && n > 0
    ensures 0.0 <= a as real / n as real <= 1.0
  {
    var q := a as real / n as real;
    assert q * n as real == a as real;
  }

  /** The RUNNING step moves to SUCCEEDED and the progress with it. */
  lemma SucceededStep(rows: Rows, output: Json, now: Time, policy: RetryPolicy)
    requires RowsOk(rows, policy) && InFlight(rows.run.status)
    requires rows.steps[Done(rows.steps)].status == StepRunning
    ensures var k := Done(rows.steps);
            var steps := rows.steps[k := MovedStep(rows.steps[k], StepSucceeded, now, Some(output), None)];
            && Done(steps) == k + 1 && StepsOk(steps) && Tail(steps, k + 1, StepQueued) && Continues(rows.steps, steps)
            && SameAttempts(rows.steps, steps) && Fraction(steps) == (k + 1) as real / |steps| as real
            && 0.0 <= Fraction(steps) <= 1.0
  {
    var k := Done(rows.steps);
    var steps := rows.steps[k := MovedStep(rows.steps[k], StepSucceeded, now, Some(output), None)];
    DoneIs(steps, k + 1);
    RatioBound(k + 1, |steps|);
  }

  /** The three ways a committed success leaves the run. */
  lemma SucceededRows(rows: Rows, output: Json, now: Time, policy: RetryPolicy)
    requires RowsOk(rows, policy) && InFlight(rows.run.status)
    requires rows.steps[Done(rows.steps)].status == StepRunning
    ensures var k := Done(rows.steps);
            var steps := rows.steps[k := MovedStep(rows.steps[k], StepSucceeded, now, Some(output), None)];
            var run := rows.run.(progress := (k + 1) as real / |steps| as real);
            var cancelled := Rows(FinishRun(run, RunCancelled, None, now), CancelQueued(steps, now));
            && RowsOk(cancelled, policy) && Continues(rows.steps, cancelled.steps) && Done(cancelled.steps) == k + 1
            && SameAttempts(rows.steps, cancelled.steps)
            && (rows.run.status == RunCancelling ==> CancellationOutcome(rows, cancelled))
            && (if k + 1 == |steps| then RowsOk(Rows(FinishRun(run, RunSucceeded, None, now), steps), policy)
                else RowsOk(Rows(run, steps), policy))
  {
    SucceededStep(rows, output, now, policy);
    var k := Done(rows.steps);
    var steps := rows.steps[k := MovedStep(rows.steps[k], StepSucceeded, now, Some(output), None)];
    CancelledRun(rows.run.(progress := Fraction(steps)), steps, now, policy);
    CancelQueuedContinues(steps, now);
  }

  /** A fenced success always commits, and the step it finishes is the next one. */
  lemma SuccessKeepsRows(rows: Rows, claimed: Claimed, output: Json, now: Time, policy: RetryPolicy)
    requires RowsOk(rows, policy) && InFlight(rows.run.status) && IsOwner(rows.run, claimed)
    requires rows.steps[Done(rows.steps)].status == StepRunning
    ensures var k := Done(rows.steps);
            var (t, outcome) :=
              CommitSuccess(rows, claimed, k, rows.steps[k].attempt, Persisted(output), k, |rows.steps|, now);
            && RowsOk(t, policy) && RowsEvolve(rows, t)
            && Done(t.steps) == k + 1 && t.steps[k].output == output && SameAttempts(rows.steps, t.steps)
            && t.run.attempt == rows.run.attempt && t.run.workerId == rows.run.workerId
            && (if outcome.PersistTerminal? then TerminalRun(t.run.status) && t.run.status == outcome.status
                else outcome == PersistContinue(output) && InFlight(t.run.status)
                     && k + 1 < |t.steps| && t.steps[k + 1].status == StepQueued)
  {
    SucceededStep(rows, output, now, policy);
    SucceededRows(rows, output, now, policy);
  }

  /** The RUNNING step leaves RUNNING without succeeding. */
  lemma StoppedStep(steps: seq<Step>, stopped: Step)
    requires Done(steps) < |steps| && StepsOk(steps) && steps[Done(steps)].status == StepRunning
    requires stopped.status == StepQueued || stopped.status == StepFailed || stopped.status == StepCancelled
    requires stopped.name == steps[Done(steps)].name && stopped.attempt == steps[Done(steps)].attempt
    requires stopped.ordinal == steps[Done(steps)].ordinal && stopped.inputHash == steps[Done(steps)].inputHash
    ensures var t := steps[Done(steps) := stopped];
            Done(t) == Done(steps) && StepsOk(t) && Continues(steps, t) && SameAttempts(steps, t)
  {
    DoneIs(steps[Done(steps) := stopped], Done(steps));
  }

  /** The three ways the RUNNING step and its run end together after a failed attempt. */
  lemma FailedStepRows(rows: Rows, code: string, now: Time, policy: RetryPolicy)
    requires RowsOk(rows, policy) && InFlight(rows.run.status) && rows.steps[Done(rows.steps)].status == StepRunning
    ensures var k := Done(rows.steps);
            Settles(rows, Rows(FinishRun(rows.run, RunFailed, Some(code), now),
                               rows.steps[k := MovedStep(rows.steps[k], StepFailed, now, None, Some(code))]), policy)
  {
    StoppedStep(rows.steps, MovedStep(rows.steps[Done(rows.steps)], StepFailed, now, None, Some(code)));
  }

  lemma RequeuedStepRows(rows: Rows, error: Option<string>, retryAt: Time, now: Time, policy: RetryPolicy)
    requires RowsOk(rows, policy) && rows.run.status == RunRunning && rows.steps[Done(rows.steps)].status == StepRunning
    requires HasAttemptsRemaining(policy, rows.run.attempt)
    ensures var k := Done(rows.steps);
            Settles(rows, Rows(MovedRun(rows.run, RunQueued, now, None, Some(retryAt), None),
                               rows.steps[k := MovedStep(rows.steps[k], StepQueued, now, None, error)]), policy)
  {
    StoppedStep(rows.steps, MovedStep(rows.steps[Done(rows.steps)], StepQueued, now, None, error));
  }

  lemma CancelledStepRows(rows: Rows, cancelled: Step, now: Time, policy: RetryPolicy)
    requires RowsOk(rows, policy) && InFlight(rows.run.status) && rows.steps[Done(rows.steps)].status == StepRunning
    requires cancelled.status == StepCancelled
    requires var step := rows.steps[Done(rows.steps)];
             cancelled.name == step.name && cancelled.attempt == step.attempt
             && cancelled.ordinal == step.ordinal && cancelled.inputHash == step.inputHash
    ensures var steps := rows.steps[Done(rows.steps) := cancelled];
            Settles(rows, Rows(FinishRun(rows.run, RunCancelled, None, now), CancelQueued(steps, now)), policy)
  {
    var steps := rows.steps[Done(rows.steps) := cancelled];
    StoppedStep(rows.steps, cancelled);
    CancelledRun(rows.run, steps, now, policy);
  }

  lemma FailureKeepsRows(rows: Rows, claimed: Claimed, index: nat, expectedAttempt: nat, failure: Failure,
                         policy: RetryPolicy, jitter: real, now: Time)
    requires RowsOk(rows, policy) && index < |rows.steps|
    requires LoadFenced(rows, claimed, index, expectedAttempt).Fenced? ==> index == Done(rows.steps)
    ensures var (t, outcome) := CommitFailure(rows, claimed, index, expectedAttempt, failure, policy, jitter, now);
            && EnvironmentMove(rows, t, policy)
            && (t != rows ==> outcome.PersistTerminal?)
            && (outcome.PersistTerminal? ==> !InFlight(t.run.status) && t.run.status == outcome.status)
            && (LoadFenced(rows, claimed, index, expectedAttempt).Fenced? ==> outcome.PersistTerminal?)
  {
    if LoadFenced(rows, claimed, index, expectedAttempt).Fenced? {
      var requeued := MovedStep(rows.steps[index], StepQueued, now, None, Some(failure.code));
      if rows.run.status == RunCancelling && failure.Retryable? {
        CancelledStepRows(rows, MovedStep(requeued, StepCancelled, now, None, None), now, policy);
      } else if rows.run.status == RunRunning && failure.Retryable? && HasAttemptsRemaining(policy, rows.run.attempt) {
        RequeuedStepRows(rows, Some(failure.code), now + BackoffSeconds(policy, rows.run.attempt, jitter), now, policy);
      } else {
        FailedStepRows(rows, failure.code, now, policy);
      }
    }
  }

  /* ----- the environment keeps the rows consistent ----- */

  lemma {:induction false} AtMostOneHas(steps: seq<Step>, status: StepStatus, k: nat)
    requires forall i :: 0 <= i < |steps| && i != k ==> steps[i].status != status
    ensures CountStatus(steps, status) <= 1
    ensures k >= |steps| ==> CountStatus(steps, status) == 0
  {
    if steps != [] {
      AtMostOneHas(steps[..|steps| - 1], status, k);
    }
  }

  lemma {:induction false} AllHave(steps: seq<Step>, status: StepStatus)
    requires CountStatus(steps, status) == |steps|
    ensures forall i :: 0 <= i < |steps| ==> steps[i].status == status
  {
    if steps != [] {
      AllHave(steps[..|steps| - 1], status);
      assert forall i :: 0 <= i < |steps| - 1 ==> steps[i] == steps[..|steps| - 1][i];
    }
  }

  lemma FailStaleRows(rows: Rows, code: string, now: Time, policy: RetryPolicy)
    requires RowsOk(rows, policy) && InFlight(rows.run.status)
    ensures EnvironmentMove(rows, FailStale(rows, code, now), policy)
  {
    DoneIs(FailRunning(rows.steps, code, now), Done(rows.steps));
  }

  /** In flight, the orphan recovery finds can only be the first step not yet SUCCEEDED. */
  lemma OrphanIsNext(rows: Rows, policy: RetryPolicy)
    requires RowsOk(rows, policy) && InFlight(rows.run.status)
    ensures CountStatus(rows.steps, StepRunning) <= 1 && CountStatus(rows.steps, StepSucceeded) < |rows.steps|
    ensures FirstRunning(rows.steps) ==
            if rows.steps[Done(rows.steps)].status == StepRunning then Done(rows.steps) else |rows.steps|
  {
    AtMostOneHas(rows.steps, StepRunning, Done(rows.steps));
    if CountStatus(rows.steps, StepSucceeded) == |rows.steps| {
      AllHave(rows.steps, StepSucceeded);
    }
  }

  lemma RequeuedBetweenSteps(rows: Rows, retryAt: Time, now: Time, policy: RetryPolicy)
    requires RowsOk(rows, policy) && rows.run.status == RunRunning && Tail(rows.steps, Done(rows.steps), StepQueued)
    requires HasAttemptsRemaining(policy, rows.run.attempt)
    ensures Settles(rows, rows.(run := MovedRun(rows.run, RunQueued, now, None, Some(retryAt), None)), policy)
  {
  }

  lemma CancelledBetweenStepsRecovered(rows: Rows, input: RecoveryInput, policy: RetryPolicy)
    requires RowsOk(rows, policy) && rows.run.status == RunCancelling
    requires rows.steps[Done(rows.steps)].status == StepQueued
    ensures RecoverCancelling(rows, input) == Rows(FinishRun(rows.run.(progress := 1.0), RunCancelled, None, input.now),
                                                   CancelQueued(rows.steps, input.now))
    ensures EnvironmentMove(rows, RecoverCancelling(rows, input), policy)
  {
    OrphanIsNext(rows, policy);
    CancelQueuedShape(rows.steps, input.now);
    CancelledBetweenSteps(rows.(run := rows.run.(progress := 1.0)), rows.run.progress, input.now, policy);
  }

  lemma OrphanCancelled(rows: Rows, input: RecoveryInput, policy: RetryPolicy)
    requires RowsOk(rows, policy) && rows.run.status == RunCancelling && input.orphanProvenSafe
    requires rows.steps[Done(rows.steps)].status == StepRunning
    ensures EnvironmentMove(rows, RecoverCancelling(rows, input), policy)
    ensures RecoverCancelling(rows, input).run.status == RunCancelled
  {
    OrphanIsNext(rows, policy);
    var step := MovedStep(rows.steps[Done(rows.steps)], StepCancelled, input.now, None, None);
    CancelledStepRows(rows, step, input.now, policy);
  }

  lemma OrphanFailed(rows: Rows, input: RecoveryInput, policy: RetryPolicy)
    requires RowsOk(rows, policy) && rows.run.status == RunCancelling && !input.orphanProvenSafe
    requires rows.steps[Done(rows.steps)].status == StepRunning
    ensures EnvironmentMove(rows, RecoverCancelling(rows, input), policy)
    ensures RecoverCancelling(rows, input).run.status == RunFailed
  {
    OrphanIsNext(rows, policy);
    FailedStepRows(rows, CancelRecoveryAmbiguous, input.now, policy);
  }

  lemma CancellingRecovered(rows: Rows, input: RecoveryInput, policy: RetryPolicy)
    requires RowsOk(rows, policy) && rows.run.status == RunCancelling
    ensures EnvironmentMove(rows, RecoverCancelling(rows, input), policy)
    ensures TerminalRun(RecoverCancelling(rows, input).run.status)
  {
    if rows.steps[Done(rows.steps)].status == StepQueued {
      CancelledBetweenStepsRecovered(rows, input, policy);
    } else if input.orphanProvenSafe {
      OrphanCancelled(rows, input, policy);
    } else {
      OrphanFailed(rows, input, policy);
    }
  }

  lemma RunningRecovered(rows: Rows, input: RecoveryInput, policy: RetryPolicy)
    requires RowsOk(rows, policy) && rows.run.status == RunRunning
    ensures EnvironmentMove(rows, RecoverRunning(rows, input, policy), policy)
    ensures !InFlight(RecoverRunning(rows, input, policy).run.status)
  {
    OrphanIsNext(rows, policy);
    var retryAt := input.now + BackoffSeconds(policy, rows.run.attempt, input.jitter);
    if !input.fingerprintMatches {
      FailStaleRows(rows, ConfigFingerprintMismatch, input.now, policy);
    } else if !HasAttemptsRemaining(policy, rows.run.attempt) {
      FailStaleRows(rows, WorkerLost, input.now, policy);
    } else if FirstRunning(rows.steps) < |rows.steps| {
      RequeuedStepRows(rows, None, retryAt, input.now, policy);
    } else {
      RequeuedBetweenSteps(rows, retryAt, input.now, policy);
    }
  }

  lemma CancelRequested(rows: Rows, now: Time, policy: RetryPolicy)
    requires RowsOk(rows, policy)
    ensures EnvironmentMove(rows, RequestCancel(rows, now), policy)
  {
    if rows.run.status == RunQueued {
      CancelledBetweenSteps(rows, rows.run.progress, now, policy);
    }
  }

  lemma Claimed_(rows: Rows, workerId: string, now: Time, policy: RetryPolicy)
    requires RowsOk(rows, policy) && Claimable(rows, now)
    ensures var t := Claim(rows, workerId, now);
            && RowsOk(t, policy) && t.steps == rows.steps && t.run.status == RunRunning
            && t.run.attempt == rows.run.attempt + 1 && t.run.workerId == Some(workerId)
  {
  }

  /* ----- every event keeps the system invariant ----- */

  lemma HeartbeatTicked(rows: Rows, claimed: Claimed, now: Time, policy: RetryPolicy)
    requires RowsOk(rows, policy)
    ensures EnvironmentMove(rows, Heartbeat(rows, claimed, now), policy)
  {
  }

  lemma StaleRecovered(rows: Rows, input: RecoveryInput, policy: RetryPolicy)
    requires RowsOk(rows, policy)
    ensures EnvironmentMove(rows, Recover(rows, input, policy), policy)
  {
    match rows.run.status
    case RunCancelling => CancellingRecovered(rows, input, policy);
    case RunRunning => RunningRecovered(rows, input, policy);
    case _ =>
  }

  lemma EnvironmentKeepsInv(s: System, rows: Rows, policy: RetryPolicy)
    requires Inv(s, policy) && EnvironmentMove(s.rows, rows, policy)
    ensures Inv(s.(rows := rows), policy)
    ensures RowsEvolveQuietly(s.rows, rows)
  {
    EnvironmentMoveEvolves(s.rows, rows, policy);
    var t := s.(rows := rows);
    forall claim | claim in s.executions ensures ExecutionOk(t, t.executions[claim]) {
      ExecutionFrame(s, t, s.executions[claim]);
    }
  }

  lemma ClaimKeepsInv(s: System, workerId: string, definition: seq<StepDef>, now: Time, policy: RetryPolicy)
    requires Inv(s, policy)
    ensures Inv(StepClaim(s, workerId, definition, now), policy)
    ensures RowsEvolveQuietly(s.rows, StepClaim(s, workerId, definition, now).rows)
  {
    if ValidDefinition(definition) && Claimable(s.rows, now) {
      var t := StepClaim(s, workerId, definition, now);
      Claimed_(s.rows, workerId, now, policy);
      forall claim | claim in s.executions ensures claim in t.executions && ExecutionOk(t, s.executions[claim]) {
        ExecutionFrame(s, t, s.executions[claim]);
      }
    }
  }

  /** What one execution's own phase may do to everybody else. */
  ghost predicate PhaseFrame(s: System, t: System, claim: nat) {
    && claim in s.executions
    && Continues(s.rows.steps, t.rows.steps)
    && t.rows.run.attempt == s.rows.run.attempt && t.rows.run.workerId == s.rows.run.workerId
    && (InFlight(t.rows.run.status) ==> InFlight(s.rows.run.status))
    && (InFlight(t.rows.run.status) && t.rows.steps != s.rows.steps ==> claim == s.rows.run.attempt)
    && (forall i :: 0 <= i < |t.rows.steps| && t.rows.steps[i].attempt == s.rows.steps[i].attempt && i in s.starters ==>
          i in t.starters && t.starters[i] == s.starters[i])
    && claim in t.executions && t.executions == s.executions[claim := t.executions[claim]]
    && t.executions[claim].claimed == s.executions[claim].claimed
  }

  lemma PhaseKeepsInv(s: System, t: System, claim: nat, policy: RetryPolicy)
    requires Inv(s, policy) && PhaseFrame(s, t, claim)
    requires RowsOk(t.rows, policy) && EffectsOk(t)
    requires ExecutionOk(t, t.executions[claim])
    ensures Inv(t, policy)
  {
    forall other | other in t.executions && other != claim ensures ExecutionOk(t, t.executions[other]) {
      ExecutionFrame(s, t, s.executions[other]);
    }
  }

  /** An execution that returns, however it returns, leaves a consistent system behind. */
  lemma EndKeepsInv(s: System, claim: nat, rows: Rows, reason: EndReason, policy: RetryPolicy)
    requires Inv(s, policy) && claim in s.executions
    requires EnvironmentMove(s.rows, rows, policy)
    requires claim == s.rows.run.attempt && InFlight(rows.run.status) ==> reason == Paused
    ensures Inv(With(s, claim, rows, Ended(reason)), policy)
    ensures RowsEvolveQuietly(s.rows, rows)
  {
    EnvironmentMoveEvolves(s.rows, rows, policy);
    assert ExecutionOk(s, s.executions[claim]);
    PhaseKeepsInv(s, With(s, claim, rows, Ended(reason)), claim, policy);
  }

  lemma PrepareKeepsInv(s: System, claim: nat, now: Time, policy: RetryPolicy)
    requires Inv(s, policy) && claim in s.executions && s.executions[claim].pc.AtPrepare?
    ensures Inv(StepPrepare(s, claim, now), policy)
    ensures RowsEvolveQuietly(s.rows, StepPrepare(s, claim, now).rows)
  {
    var x := s.executions[claim];
    var t := StepPrepare(s, claim, now);
    assert ExecutionOk(s, x);
    PrepareKeepsRows(s.rows, x.claimed, x.definition, now, policy);
    if t.executions[claim].pc.Ended? {
      EndKeepsInv(s, claim, t.rows, t.executions[claim].pc.reason, policy);
    } else {
      PhaseKeepsInv(s, t, claim, policy);
    }
  }

  /** `t` is `s` with its owner's next step moved to RUNNING. */
  ghost predicate Starts(s: System, claim: nat, t: System, policy: RetryPolicy) {
    && claim in s.executions && s.executions[claim].pc.AtCheckpoint?
    && IsOwner(s.rows.run, s.executions[claim].claimed) && s.rows.run.status == RunRunning
    && s.executions[claim].pc.index == Done(s.rows.steps)
    && RowsOk(t.rows, policy) && Continues(s.rows.steps, t.rows.steps) && Done(t.rows.steps) == Done(s.rows.steps)
    && var k := Done(s.rows.steps); var pc := s.executions[claim].pc;
       && k < |s.rows.steps|
       && t == With(s, claim, t.rows, AtExecute(k, pc.outputs, pc.succeeded, t.rows.steps[k].attempt))
               .(starters := s.starters[k := claim])
       && t.rows.run == s.rows.run.(currentStep := t.rows.run.currentStep)
       && t.rows.steps == s.rows.steps[k := t.rows.steps[k]]
       && t.rows.steps[k].status == StepRunning && t.rows.steps[k].attempt == s.rows.steps[k].attempt + 1
  }

  lemma StartKeepsInv(s: System, claim: nat, t: System, policy: RetryPolicy)
    requires Inv(s, policy) && Starts(s, claim, t, policy)
    ensures Inv(t, policy)
    ensures RowsEvolve(s.rows, t.rows)
  {
    assert ExecutionOk(s, s.executions[claim]);
    OutputsAgree(s.rows.steps, t.rows.steps, Done(s.rows.steps));
    PhaseKeepsInv(s, t, claim, policy);
  }

  /** `t` is `s` with one execution at its end; the owner of a run in flight does not get there by raising. */
  ghost predicate Ends(s: System, claim: nat, t: System, policy: RetryPolicy) {
    && claim in s.executions && claim in t.executions && t.executions[claim].pc.Ended?
    && t == With(s, claim, t.rows, t.executions[claim].pc)
    && EnvironmentMove(s.rows, t.rows, policy)
    && (claim == s.rows.run.attempt && InFlight(t.rows.run.status) ==> t.executions[claim].pc.reason == Paused)
    && (claim == s.rows.run.attempt && InFlight(s.rows.run.status) ==> !t.executions[claim].pc.reason.Raised?)
  }

  /** A checkpoint starts its step or ends its execution. */
  lemma CheckpointStartsOrEnds(s: System, claim: nat, stopRequested: bool, now: Time, policy: RetryPolicy)
    requires claim in s.executions && s.executions[claim].pc.AtCheckpoint?
             && s.executions[claim].claimed.attempt == claim
    requires RowsOk(s.rows, policy) && ExecutionOk(s, s.executions[claim])
    ensures var t := StepCheckpoint(s, claim, stopRequested, now);
            Starts(s, claim, t, policy) || Ends(s, claim, t, policy)
  {
    var x := s.executions[claim];
    var pc := x.pc;
    CheckpointKeepsRows(s.rows, x.claimed, pc.index, x.definition[pc.index], pc.outputs, stopRequested, now, policy);
  }

  lemma CheckpointKeepsInv(s: System, claim: nat, stopRequested: bool, now: Time, policy: RetryPolicy)
    requires Inv(s, policy) && claim in s.executions && s.executions[claim].pc.AtCheckpoint?
    ensures Inv(StepCheckpoint(s, claim, stopRequested, now), policy)
    ensures RowsEvolve(s.rows, StepCheckpoint(s, claim, stopRequested, now).rows)
  {
    CheckpointStartsOrEnds(s, claim, stopRequested, now, policy);
    StartOrEndKeepsInv(s, claim, StepCheckpoint(s, claim, stopRequested, now), policy);
  }

  lemma StartOrEndKeepsInv(s: System, claim: nat, t: System, policy: RetryPolicy)
    requires Inv(s, policy) && (Starts(s, claim, t, policy) || Ends(s, claim, t, policy))
    ensures Inv(t, policy) && RowsEvolve(s.rows, t.rows)
  {
    if Starts(s, claim, t, policy) {
      StartKeepsInv(s, claim, t, policy);
    } else {
      EndKeepsInv(s, claim, t.rows, t.executions[claim].pc.reason, policy);
    }
  }

  lemma SameRowsEvolve(rows: Rows, policy: RetryPolicy)
    requires RowsOk(rows, policy)
    ensures RowsEvolveQuietly(rows, rows)
  {
  }

  /** Only the execution's own position moves. */
  lemma MoveKeepsInv(s: System, claim: nat, pc: Pc, policy: RetryPolicy)
    requires Inv(s, policy) && claim in s.executions
    requires ExecutionOk(s, s.executions[claim].(pc := pc))
    ensures Inv(With(s, claim, s.rows, pc), policy)
    ensures RowsEvolveQuietly(s.rows, s.rows)
  {
    SameRowsEvolve(s.rows, policy);
    var t := With(s, claim, s.rows, pc);
    forall other | other in t.executions ensures ExecutionOk(t, t.executions[other]) {
      SameRowsSameMemory(s, t, t.executions[other]);
    }
  }

  lemma SameRowsSameMemory(s: System, t: System, x: Execution)
    requires ExecutionOk(s, x) && t.rows == s.rows && t.starters == s.starters
    ensures ExecutionOk(t, x)
  {
  }

  lemma ExecuteKeepsInv(s: System, claim: nat, failure: Option<Failure>, policy: RetryPolicy)
    requires Inv(s, policy) && claim in s.executions && s.executions[claim].pc.AtExecute?
    ensures Inv(StepExecute(s, claim, failure), policy)
    ensures RowsEvolveQuietly(s.rows, s.rows)
  {
    assert ExecutionOk(s, s.executions[claim]);
    MoveKeepsInv(s, claim, StepExecute(s, claim, failure).executions[claim].pc, policy);
  }

  /** The owner's commit: `rows` hold its step SUCCEEDED with `output`, and it goes on at `next`. */
  ghost predicate Commits(s: System, claim: nat, rows: Rows, output: Json, next: Pc, policy: RetryPolicy) {
    && claim in s.executions && s.executions[claim].pc.AtPersist?
    && RowsOk(rows, policy) && Continues(s.rows.steps, rows.steps)
    && claim == s.rows.run.attempt && InFlight(s.rows.run.status)
    && rows.run.attempt == s.rows.run.attempt && rows.run.workerId == s.rows.run.workerId
    && var k := Done(s.rows.steps); var pc := s.executions[claim].pc;
       && k < |rows.steps| && Done(rows.steps) == k + 1
       && rows.steps[k].attempt == s.rows.steps[k].attempt && rows.steps[k].output == output
       && (if next.Ended? then !InFlight(rows.run.status)
           else next == AtCheckpoint(k + 1, pc.outputs[s.rows.steps[k].name := output], pc.succeeded + 1)
                && k + 1 < |rows.steps| && rows.steps[k + 1].status == StepQueued)
  }

  function Committed(s: System, claim: nat, rows: Rows, output: Json, next: Pc, step: nat, attempt: nat): System
    requires claim in s.executions
  {
    With(s, claim, rows, next).(effects := s.effects + [Effect(step, attempt, output, claim)])
  }

  lemma CommittedEffectsOk(s: System, claim: nat, rows: Rows, output: Json, next: Pc, attempt: nat, policy: RetryPolicy)
    requires Inv(s, policy) && Commits(s, claim, rows, output, next, policy)
    requires attempt == s.executions[claim].pc.stepAttempt
    ensures EffectsOk(Committed(s, claim, rows, output, next, Done(s.rows.steps), attempt))
  {
    assert ExecutionOk(s, s.executions[claim]);
  }

  lemma CommittedExecutionOk(s: System, claim: nat, rows: Rows, output: Json, next: Pc, t: System, policy: RetryPolicy)
    requires claim in s.executions && ExecutionOk(s, s.executions[claim])
             && s.executions[claim].claimed.attempt == claim
    requires Commits(s, claim, rows, output, next, policy)
    requires t.rows == rows
    ensures ExecutionOk(t, s.executions[claim].(pc := next))
  {
    var k := Done(s.rows.steps);
    OutputsAgree(s.rows.steps, rows.steps, k);
    assert OutputsOf(rows.steps, k + 1) == OutputsOf(rows.steps, k)[rows.steps[k].name := rows.steps[k].output];
  }

  /** The owner commits its step: the step, its effect and its output land together. */
  lemma CommittedKeepsInv(s: System, claim: nat, rows: Rows, output: Json, next: Pc, attempt: nat, policy: RetryPolicy)
    requires Inv(s, policy) && Commits(s, claim, rows, output, next, policy)
    requires attempt == s.executions[claim].pc.stepAttempt
    ensures Inv(Committed(s, claim, rows, output, next, Done(s.rows.steps), attempt), policy)
  {
    var t := Committed(s, claim, rows, output, next, Done(s.rows.steps), attempt);
    CommittedEffectsOk(s, claim, rows, output, next, attempt, policy);
    CommittedExecutionOk(s, claim, rows, output, next, t, policy);
    PhaseKeepsInv(s, t, claim, policy);
  }

  lemma RejectedPersist(rows: Rows, claimed: Claimed, index: nat, stepAttempt: nat, verdict: PersistVerdict,
                        succeeded: nat, total: nat, now: Time)
    requires index < |rows.steps| && total > 0
    requires verdict.Persisted? ==> !(IsOwner(rows.run, claimed) && InFlight(rows.run.status))
    ensures var (t, outcome) := CommitSuccess(rows, claimed, index, stepAttempt, verdict, succeeded, total, now);
            && t == rows && !PersistCommitted(outcome) && !outcome.PersistContinue?
            && (IsOwner(rows.run, claimed) && InFlight(rows.run.status) ==> !outcome.PersistRaised?)
            && (IsOwner(rows.run, claimed) && InFlight(rows.run.status)
                && rows.steps[index].status == StepRunning && rows.steps[index].attempt == stepAttempt ==>
                  outcome.PersistRolledBack?)
  {
  }

  /** A persist that is fenced out, raises or fails leaves rows and effects alone. */
  lemma RejectedStaysPut(s: System, claim: nat, verdict: PersistVerdict, now: Time, policy: RetryPolicy)
    requires claim in s.executions && s.executions[claim].pc.AtPersist? && s.executions[claim].claimed.attempt == claim
    requires RowsOk(s.rows, policy) && ExecutionOk(s, s.executions[claim])
    requires !(verdict.Persisted? && claim == s.rows.run.attempt && InFlight(s.rows.run.status))
    ensures var t := StepPersist(s, claim, verdict, now);
            && t == With(s, claim, s.rows, t.executions[claim].pc)
            && ExecutionOk(s, s.executions[claim].(pc := t.executions[claim].pc))
  {
    var x := s.executions[claim];
    RejectedPersist(s.rows, x.claimed, x.pc.index, x.pc.stepAttempt, verdict, x.pc.succeeded, |x.definition|, now);
  }

  lemma RejectedKeepsInv(s: System, claim: nat, verdict: PersistVerdict, now: Time, policy: RetryPolicy)
    requires Inv(s, policy) && claim in s.executions && s.executions[claim].pc.AtPersist?
    requires !(verdict.Persisted? && claim == s.rows.run.attempt && InFlight(s.rows.run.status))
    ensures Inv(StepPersist(s, claim, verdict, now), policy)
    ensures RowsEvolveQuietly(s.rows, StepPersist(s, claim, verdict, now).rows)
  {
    RejectedStaysPut(s, claim, verdict, now, policy);
    MoveKeepsInv(s, claim, StepPersist(s, claim, verdict, now).executions[claim].pc, policy);
  }

  /** Where the owner goes on after its commit. */
  function AfterCommit(s: System, claim: nat, output: Json, outcome: PersistOutcome): Pc
    requires claim in s.executions && s.executions[claim].pc.AtPersist?
    requires s.executions[claim].pc.index < |s.rows.steps|
  {
    var pc := s.executions[claim].pc;
    if outcome.PersistTerminal? then Ended(Concluded(outcome.status))
    else AtCheckpoint(pc.index + 1, pc.outputs[s.rows.steps[pc.index].name := output], pc.succeeded + 1)
  }

  lemma AcceptedIsCommitted(s: System, claim: nat, output: Json, now: Time, rows: Rows, outcome: PersistOutcome)
    requires claim in s.executions && s.executions[claim].pc.AtPersist?
    requires s.executions[claim].pc.index < |s.rows.steps| && |s.executions[claim].definition| > 0
    requires var x := s.executions[claim]; var pc := x.pc;
             (rows, outcome) == CommitSuccess(s.rows, x.claimed, pc.index, pc.stepAttempt, Persisted(output),
                                              pc.succeeded, |x.definition|, now)
    requires outcome.PersistTerminal? || outcome == PersistContinue(output)
    ensures var pc := s.executions[claim].pc;
            StepPersist(s, claim, Persisted(output), now)
            == Committed(s, claim, rows, output, AfterCommit(s, claim, output, outcome), pc.index, pc.stepAttempt)
  {
  }

  /** The owner's persist lands: `t` is `s` with the commit made. */
  lemma AcceptedCommits(s: System, claim: nat, output: Json, now: Time, policy: RetryPolicy)
    requires claim in s.executions && s.executions[claim].pc.AtPersist? && s.executions[claim].claimed.attempt == claim
    requires RowsOk(s.rows, policy) && ExecutionOk(s, s.executions[claim])
    requires claim == s.rows.run.attempt && InFlight(s.rows.run.status)
    ensures var t := StepPersist(s, claim, Persisted(output), now);
            && claim in t.executions
            && var next := t.executions[claim].pc;
               && Commits(s, claim, t.rows, output, next, policy)
               && t == Committed(s, claim, t.rows, output, next, Done(s.rows.steps), s.executions[claim].pc.stepAttempt)
               && RowsEvolveQuietly(s.rows, t.rows)
  {
    var x, k := s.executions[claim], Done(s.rows.steps);
    var pc := x.pc;
    assert Holds(s, x, pc.index, pc.stepAttempt);
    assert Remembers(s, x, pc.index, pc.outputs, pc.succeeded);
    SuccessKeepsRows(s.rows, x.claimed, output, now, policy);
    var (rows, outcome) :=
      CommitSuccess(s.rows, x.claimed, k, pc.stepAttempt, Persisted(output), k, |s.rows.steps|, now);
    AcceptedIsCommitted(s, claim, output, now, rows, outcome);
  }

  lemma AcceptedKeepsInv(s: System, claim: nat, output: Json, now: Time, policy: RetryPolicy)
    requires Inv(s, policy) && claim in s.executions && s.executions[claim].pc.AtPersist?
    requires claim == s.rows.run.attempt && InFlight(s.rows.run.status)
    ensures Inv(StepPersist(s, claim, Persisted(output), now), policy)
    ensures RowsEvolveQuietly(s.rows, StepPersist(s, claim, Persisted(output), now).rows)
  {
    AcceptedCommits(s, claim, output, now, policy);
    var t := StepPersist(s, claim, Persisted(output), now);
    CommittedKeepsInv(s, claim, t.rows, output, t.executions[claim].pc, s.executions[claim].pc.stepAttempt, policy);
  }

  lemma PersistKeepsInv(s: System, claim: nat, verdict: PersistVerdict, now: Time, policy: RetryPolicy)
    requires Inv(s, policy) && claim in s.executions && s.executions[claim].pc.AtPersist?
    ensures Inv(StepPersist(s, claim, verdict, now), policy)
    ensures RowsEvolveQuietly(s.rows, StepPersist(s, claim, verdict, now).rows)
  {
    assert ExecutionOk(s, s.executions[claim]);
    if verdict.Persisted? && claim == s.rows.run.attempt && InFlight(s.rows.run.status) {
      AcceptedKeepsInv(s, claim, verdict.output, now, policy);
    } else {
      RejectedKeepsInv(s, claim, verdict, now, policy);
    }
  }

  lemma FailureKeepsInv(s: System, claim: nat, jitter: real, now: Time, policy: RetryPolicy)
    requires Inv(s, policy) && claim in s.executions && s.executions[claim].pc.AtFailure?
    ensures Inv(StepFailure(s, claim, policy, jitter, now), policy)
    ensures RowsEvolveQuietly(s.rows, StepFailure(s, claim, policy, jitter, now).rows)
  {
    var x := s.executions[claim];
    var t := StepFailure(s, claim, policy, jitter, now);
    assert ExecutionOk(s, x);
    var pc := x.pc;
    FailureKeepsRows(s.rows, x.claimed, pc.index, pc.stepAttempt, pc.failure, policy, jitter, now);
    EndKeepsInv(s, claim, t.rows, t.executions[claim].pc.reason, policy);
  }

  predicate EnvironmentEvent(e: Event) {
    e.ClaimRun? || e.HeartbeatTick? || e.CancelRequest? || e.StaleRecovery?
  }

  lemma HeartbeatKeepsInv(s: System, policy: RetryPolicy, e: Event)
    requires Inv(s, policy) && e.HeartbeatTick?
    ensures Inv(Next(s, policy, e), policy)
    ensures RowsEvolveQuietly(s.rows, Next(s, policy, e).rows)
  {
    if e.claim in s.executions {
      var rows := Heartbeat(s.rows, s.executions[e.claim].claimed, e.now);
      HeartbeatTicked(s.rows, s.executions[e.claim].claimed, e.now, policy);
      EnvironmentKeepsInv(s, rows, policy);
    }
  }

  lemma CancelKeepsInv(s: System, policy: RetryPolicy, e: Event)
    requires Inv(s, policy) && e.CancelRequest?
    ensures Inv(Next(s, policy, e), policy)
    ensures RowsEvolveQuietly(s.rows, Next(s, policy, e).rows)
  {
    CancelRequested(s.rows, e.now, policy);
    EnvironmentKeepsInv(s, RequestCancel(s.rows, e.now), policy);
  }

  lemma RecoveryKeepsInv(s: System, policy: RetryPolicy, e: Event)
    requires Inv(s, policy) && e.StaleRecovery?
    ensures Inv(Next(s, policy, e), policy)
    ensures RowsEvolveQuietly(s.rows, Next(s, policy, e).rows)
  {
    StaleRecovered(s.rows, e.input, policy);
    EnvironmentKeepsInv(s, Recover(s.rows, e.input, policy), policy);
  }

  lemma EnvironmentEventKeepsInv(s: System, policy: RetryPolicy, e: Event)
    requires Inv(s, policy) && EnvironmentEvent(e)
    ensures Inv(Next(s, policy, e), policy)
    ensures RowsEvolveQuietly(s.rows, Next(s, policy, e).rows)
  {
    match e
    case ClaimRun(workerId, definition, now) => ClaimKeepsInv(s, workerId, definition, now, policy);
    case HeartbeatTick(_, _) => HeartbeatKeepsInv(s, policy, e);
    case CancelRequest(_) => CancelKeepsInv(s, policy, e);
    case StaleRecovery(_) => RecoveryKeepsInv(s, policy, e);
  }

  lemma PhaseEventKeepsInv(s: System, policy: RetryPolicy, e: Event)
    requires Inv(s, policy) && !EnvironmentEvent(e) && Enabled(s, e)
    ensures Inv(Next(s, policy, e), policy)
    ensures RowsEvolve(s.rows, Next(s, policy, e).rows)
    ensures !e.CheckpointPhase? ==> RowsEvolveQuietly(s.rows, Next(s, policy, e).rows)
  {
    match e
    case PreparePhase(claim, now) => PrepareKeepsInv(s, claim, now, policy);
    case CheckpointPhase(claim, stop, now) => CheckpointKeepsInv(s, claim, stop, now, policy);
    case ExecutePhase(claim, failure) => ExecuteKeepsInv(s, claim, failure, policy);
    case PersistPhase(claim, verdict, now) => PersistKeepsInv(s, claim, verdict, now, policy);
    case FailurePhase(claim, jitter, now) => FailureKeepsInv(s, claim, jitter, now, policy);
  }

  lemma NextKeepsInv(s: System, policy: RetryPolicy, e: Event)
    requires Inv(s, policy)
    ensures Inv(Next(s, policy, e), policy)
    ensures RowsEvolve(s.rows, Next(s, policy, e).rows)
    ensures !e.CheckpointPhase? ==> SameAttempts(s.rows.steps, Next(s, policy, e).rows.steps)
  {
    if EnvironmentEvent(e) {
      EnvironmentEventKeepsInv(s, policy, e);
    } else if Enabled(s, e) {
      PhaseEventKeepsInv(s, policy, e);
    } else {
      assert Next(s, policy, e) == s;
    }
  }

  lemma InitialInv(definition: seq<StepDef>, input: Json, policy: RetryPolicy)
    requires ValidDefinition(definition) && policy.maxRunAttempts > 0
    ensures Inv(Initial(definition, input), policy)
  {
    DoneIs(InitialRows(definition, input).steps, 0);
  }

  lemma {:induction false} AfterKeepsInv(s: System, policy: RetryPolicy, events: seq<Event>)
    requires Inv(s, policy)
    ensures Inv(After(s, policy, events), policy)
  {
    if events != [] {
      AfterKeepsInv(s, policy, events[..|events| - 1]);
      NextKeepsInv(After(s, policy, events[..|events| - 1]), policy, events[|events| - 1]);
    }
  }
}
