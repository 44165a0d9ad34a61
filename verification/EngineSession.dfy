/**
 The engine's transactions as the code runs them: over row objects handed out by a
 unit of work, mutated in place, and visible to anyone else only after commit.
*/
module EngineSession {
  import opened Wrappers
  import opened PipelineLifecycle
  import opened EngineTransactions

  class UnitOfWork {
    /** What PostgreSQL holds. */
    var committed: Rows
    const run: RunRow
    const steps: seq<StepRow>

    /** The rows have been loaded and nothing is pending on them. */
    ghost predicate Loaded()
      reads this, run, steps
    {
      && committed == Rows(run.Value(), Values(steps))
      && forall i, j :: 0 <= i < j < |steps| ==> steps[i] != steps[j]
    }

    constructor (rows: Rows)
      ensures Loaded() && committed == rows
    {
      committed := rows;
      var loadedRun := new RunRow(rows.run);
      var loaded: seq<StepRow> := [];
      for n := 0 to |rows.steps|
        invariant fresh(loadedRun) && loadedRun.Value() == rows.run
        invariant |loaded| == n
        invariant forall i :: 0 <= i < n ==>
                  fresh(loaded[i]) && allocated(loaded[i]) && loaded[i].Value() == rows.steps[i]
        invariant forall i, j :: 0 <= i < j < n ==> loaded[i] != loaded[j]
      {
        var row := new StepRow(rows.steps[n]);
        loaded := loaded + [row];
      }
      run, steps := loadedRun, loaded;
      new;
      assert Values(steps) == rows.steps;
    }

    method Commit()
      modifies this`committed
      ensures committed == Rows(run.Value(), Values(steps))
    {
      var values: seq<Step> := [];
      for n := 0 to |steps|
        invariant |values| == n && forall i :: 0 <= i < n ==> values[i] == steps[i].Value()
      {
        values := values + [steps[n].Value()];
      }
      assert values == Values(steps);
      committed := Rows(run.Value(), values);
    }

    /** transition_step on one of the loaded steps. */
    method MoveStep(index: nat, target: StepStatus, now: Time, result: Option<Json>, failure: Option<string>)
      requires index < |steps| && StepTransitionAllowed(steps[index].status, target)
      requires forall i, j :: 0 <= i < j < |steps| ==> steps[i] != steps[j]
      modifies steps[index]
      ensures Values(steps) ==
              old(Values(steps))[index := MovedStep(old(Values(steps))[index], target, now, result, failure)]
    {
      var _ := steps[index].Transition(target, now, result, failure);
    }

    /** transition_run to a terminal status, then commit. */
    method EndRun(target: RunStatus, code: Option<string>, now: Time)
      requires RunTransitionAllowed(run.status, target)
      modifies this`committed, run
      ensures committed == Rows(FinishRun(old(run.Value()), target, code, now), Values(steps))
    {
      var _ := run.Transition(target, now, None, None, code);
      Commit();
    }

    /** _cancel_queued. */
    method CancelQueuedSteps(now: Time)
      requires forall i, j :: 0 <= i < j < |steps| ==> steps[i] != steps[j]
      modifies steps
      ensures Values(steps) == CancelQueued(old(Values(steps)), now)
    {
      for n := 0 to |steps|
        invariant forall i :: 0 <= i < n ==> steps[i].Value() == CancelQueued(old(Values(steps)), now)[i]
        invariant forall i :: n <= i < |steps| ==> steps[i].Value() == old(Values(steps))[i]
      {
        if steps[n].status == StepQueued {
          var _ := steps[n].Transition(StepCancelled, now, None, None);
        }
      }
      assert Values(steps) == CancelQueued(old(Values(steps)), now);
    }

    /** Cancellation observed: every step that never started goes with the run. */
    method CommitCancelled(now: Time)
      requires run.status == RunCancelling && forall i, j :: 0 <= i < j < |steps| ==> steps[i] != steps[j]
      modifies this`committed, run, steps
      ensures committed == Rows(FinishRun(old(run.Value()), RunCancelled, None, now),
              CancelQueued(old(Values(steps)), now))
    {
      CancelQueuedSteps(now);
      EndRun(RunCancelled, None, now);
    }

    /** _validate_plan: one pass that both compares the plan and accumulates what a resume starts from. */
    method ValidateStoredPlan(definition: seq<StepDef>) returns (scan: PlanScan)
      ensures scan == ValidatePlan(definition, Values(steps), run.input)
    {
      if |steps| != |definition| { return ScanDrift; }
      var outputs: map<string, Json> := map[];
      var firstPending: Option<nat> := None;
      for n := 0 to |steps|
        invariant ScanPlan(definition, Values(steps), run.input, n) == Scanning(outputs, firstPending)
      {
        var row, def := steps[n], definition[n];
        ghost var rest := ScanStep(def, row.Value(), n, run.input, outputs, firstPending);
        assert ScanPlan(definition, Values(steps), run.input, n + 1) == rest;
        if row.ordinal != n || row.name != def.name {
          ScanEndsEarly(definition, Values(steps), run.input, n + 1, |steps|);
          return ScanDrift;
        }
        var expected := InputHash(def, run.input, outputs);
        if row.inputHash.Some? && row.inputHash != expected {
          ScanEndsEarly(definition, Values(steps), run.input, n + 1, |steps|);
          return ScanDrift;
        }
        if row.status == StepSucceeded {
          if firstPending.Some? {
            ScanEndsEarly(definition, Values(steps), run.input, n + 1, |steps|);
            return ScanCorrupt;
          }
          outputs := outputs[row.name := row.output];
        } else {
          if firstPending.None? { firstPending := Some(n); }
          if row.status != StepQueued {
            ScanEndsEarly(definition, Values(steps), run.input, n + 1, |steps|);
            return ScanCorrupt;
          }
        }
      }
      scan := Scanning(outputs, firstPending);
    }

    method PrepareRun(claimed: Claimed, definition: seq<StepDef>, now: Time) returns (outcome: PrepareOutcome)
      requires Loaded()
      modifies this`committed, run, steps
      ensures (committed, outcome) == Prepare(old(committed), claimed, definition, now)
    {
      if !IsOwner(run.Value(), claimed) { return PrepareAbandoned; }
      var scan := ValidateStoredPlan(definition);
      match scan
      case ScanCorrupt => return PrepareRaised(InvariantFault);
      case ScanDrift =>
        var ok := run.Transition(RunFailed, now, None, None, Some(StepInputDrift));
        if !ok { return PrepareRaised(TransitionFault); }
        Commit();
        return PrepareTerminal(RunFailed);
      case Scanning(outputs, firstPending) =>
        if run.status == RunCancelling {
          if firstPending.None? { var _ := run.ApplyProgress(1.0); }
          CommitCancelled(now);
          return PrepareTerminal(RunCancelled);
        }
        if firstPending.None? {
          var _ := run.ApplyProgress(1.0);
          var ok := run.Transition(RunSucceeded, now, None, None, None);
          if !ok { return PrepareRaised(TransitionFault); }
          Commit();
          return PrepareTerminal(RunSucceeded);
        }
        if run.status != RunRunning { return PrepareRaised(InvariantFault); }
        return PrepareReady(outputs, firstPending.value);
    }

    method CheckpointBeforeStep(claimed: Claimed, index: nat, def: StepDef, outputs: map<string, Json>,
                                stopRequested: bool, now: Time)
      returns (outcome: CheckpointOutcome)
      requires Loaded() && index < |steps|
      modifies this`committed, run, steps
      ensures (committed, outcome) == Checkpoint(old(committed), claimed, index, def, outputs, stopRequested, now)
    {
      if !IsOwner(run.Value(), claimed) { return CheckpointAbandoned; }
      var step := steps[index];
      if step.status != StepQueued { return CheckpointRaised(InvariantFault); }
      if run.status == RunCancelling {
        CommitCancelled(now);
        return CheckpointTerminal(RunCancelled);
      }
      if run.status != RunRunning { return CheckpointRaised(InvariantFault); }
      if stopRequested { return CheckpointPaused; }
      var expected := InputHash(def, run.input, outputs);
      if expected.None? || (step.inputHash.Some? && step.inputHash != expected) {
        var code := if expected.None? then StepInputUnresolvable else StepInputDrift;
        EndRun(RunFailed, Some(code), now);
        return CheckpointTerminal(RunFailed);
      }
      if step.inputHash.None? { step.inputHash := expected; }
      run.currentStep := Some(step.name);
      var _ := step.Transition(StepRunning, now, None, None);
      var stepAttempt := step.attempt;
      Commit();
      ghost var before := old(committed).steps;
      assert committed.steps == before[index := step.Value()];
      outcome := CheckpointStarted(stepAttempt);
    }

    /** _load_fenced_running_step. */
    method LoadFencedRunningStep(claimed: Claimed, index: nat, expectedAttempt: nat) returns (fence: Fence)
      requires Loaded() && index < |steps|
      ensures fence == LoadFenced(committed, claimed, index, expectedAttempt)
    {
      if !IsOwner(run.Value(), claimed) { return FencedOut; }
      if steps[index].status != StepRunning || steps[index].attempt != expectedAttempt { return FencedOut; }
      if run.status != RunRunning && run.status != RunCancelling { return FenceRaised(InvariantFault); }
      fence := Fenced(run.status == RunCancelling);
    }

    method CommitStepSuccess(claimed: Claimed, index: nat, expectedAttempt: nat, verdict: PersistVerdict,
                             succeededCount: nat, totalSteps: nat, now: Time)
      returns (outcome: PersistOutcome)
      requires Loaded() && index < |steps| && totalSteps > 0
      modifies this`committed, run, steps
      ensures (committed, outcome) ==
              CommitSuccess(old(committed), claimed, index, expectedAttempt, verdict, succeededCount, totalSteps, now)
    {
      var fence := LoadFencedRunningStep(claimed, index, expectedAttempt);
      match fence
      case FencedOut => outcome := PersistAbandoned;
      case FenceRaised(fault) => outcome := PersistRaised(fault);
      case Fenced(cancelling) =>
        if verdict.PersistFailed? { return PersistRolledBack(verdict.failure); }
        outcome := StoreSuccess(claimed, index, expectedAttempt, verdict.output, succeededCount, totalSteps, now);
    }

    /** What _commit_success does once the fence has held and step.persist has returned. */
    method StoreSuccess(ghost claimed: Claimed, index: nat, ghost expectedAttempt: nat, output: Json,
                        succeededCount: nat, totalSteps: nat, now: Time)
      returns (outcome: PersistOutcome)
      requires Loaded() && index < |steps| && totalSteps > 0
      requires LoadFenced(committed, claimed, index, expectedAttempt).Fenced?
      modifies this`committed, run, steps
      ensures (committed, outcome) == CommitSuccess(old(committed), claimed, index, expectedAttempt, Persisted(output),
                                                    succeededCount, totalSteps, now)
    {
      MoveStep(index, StepSucceeded, now, Some(output), None);
      var newSucceededCount := succeededCount + 1;
      var ok := run.ApplyProgress(newSucceededCount as real / totalSteps as real);
      if !ok { return PersistRaised(ProgressFault); }
      if run.status == RunCancelling {
        CommitCancelled(now);
        return PersistTerminal(RunCancelled);
      }
      if newSucceededCount == totalSteps {
        EndRun(RunSucceeded, None, now);
        return PersistTerminal(RunSucceeded);
      }
      Commit();
      outcome := PersistContinue(output);
    }

    method CommitStepFailure(claimed: Claimed, index: nat, expectedAttempt: nat, failure: Failure,
                             policy: RetryPolicy, jitter: real, now: Time)
      returns (outcome: PersistOutcome)
      requires Loaded() && index < |steps|
      modifies this`committed, run, steps
      ensures (committed, outcome) ==
              CommitFailure(old(committed), claimed, index, expectedAttempt, failure, policy, jitter, now)
    {
      var fence := LoadFencedRunningStep(claimed, index, expectedAttempt);
      match fence
      case FencedOut => outcome := PersistAbandoned;
      case FenceRaised(fault) => outcome := PersistRaised(fault);
      case Fenced(cancelling) =>
        if failure.Retryable? && cancelling {
          CancelFailedStep(index, failure.code, now);
          return PersistTerminal(RunCancelled);
        }
        if failure.Retryable? && HasAttemptsRemaining(policy, run.attempt) {
          var delay := BackoffSeconds(policy, run.attempt, jitter);
          RequeueStep(index, Some(failure.code), now + delay, now);
          return PersistTerminal(RunQueued);
        }
        FailStep(index, failure.code, now);
        outcome := PersistTerminal(RunFailed);
    }

    /** _persist_failure_while_cancelling, retryable: RUNNING to QUEUED to CANCELLED in one transaction. */
    method CancelFailedStep(index: nat, code: string, now: Time)
      requires Loaded() && index < |steps| && run.status == RunCancelling && steps[index].status == StepRunning
      modifies this`committed, run, steps
      ensures var rows := old(committed);
              var requeued := MovedStep(rows.steps[index], StepQueued, now, None, Some(code));
              var cancelled := rows.steps[index := MovedStep(requeued, StepCancelled, now, None, None)];
              committed == Rows(FinishRun(rows.run, RunCancelled, None, now), CancelQueued(cancelled, now))
    {
      MoveStep(index, StepQueued, now, None, Some(code));
      MoveStep(index, StepCancelled, now, None, None);
      CommitCancelled(now);
    }

    /** Back to the queue: the step for a clean re-execution, the run for a later claim. */
    method RequeueStep(index: nat, error: Option<string>, retryAt: Time, now: Time)
      requires Loaded() && index < |steps| && run.status == RunRunning && steps[index].status == StepRunning
      modifies this`committed, run, steps
      ensures var rows := old(committed);
              committed == Rows(MovedRun(rows.run, RunQueued, now, None, Some(retryAt), None),
                                rows.steps[index := MovedStep(rows.steps[index], StepQueued, now, None, error)])
    {
      MoveStep(index, StepQueued, now, None, error);
      var _ := run.Transition(RunQueued, now, None, Some(retryAt), None);
      Commit();
    }

    method FailStep(index: nat, code: string, now: Time)
      requires Loaded() && index < |steps| && InFlight(run.status) && steps[index].status == StepRunning
      modifies this`committed, run, steps
      ensures var rows := old(committed);
              committed == Rows(FinishRun(rows.run, RunFailed, Some(code), now),
                                rows.steps[index := MovedStep(rows.steps[index], StepFailed, now, None, Some(code))])
    {
      MoveStep(index, StepFailed, now, None, Some(code));
      EndRun(RunFailed, Some(code), now);
    }

    /** RunControlService.cancel. */
    method CancelRun(now: Time)
      requires Loaded()
      modifies this`committed, run, steps
      ensures committed == RequestCancel(old(committed), now)
    {
      if run.status == RunQueued {
        for n := 0 to |steps|
          invariant forall i :: 0 <= i < n ==> steps[i].status != StepRunning
        {
          if steps[n].status == StepRunning {
            assert committed.steps[n].status == StepRunning;
            return;
          }
        }
        assert forall i :: 0 <= i < |steps| ==> committed.steps[i].status == steps[i].status;
        CancelQueuedSteps(now);
        var _ := run.Transition(RunCancelled, now, None, None, None);
        Commit();
      } else if run.status == RunRunning {
        var _ := run.Transition(RunCancelling, now, None, None, None);
        Commit();
      }
    }
  }

  /** Once a scan has failed it stays failed. */
  lemma {:induction false} ScanEndsEarly(definition: seq<StepDef>, steps: seq<Step>, input: Json, m: nat, n: nat)
    requires m <= n <= |definition| == |steps|
    requires !ScanPlan(definition, steps, input, m).Scanning?
    ensures ScanPlan(definition, steps, input, n) == ScanPlan(definition, steps, input, m)
  {
    if m < n {
      ScanEndsEarly(definition, steps, input, m, n - 1);
    }
  }
}
