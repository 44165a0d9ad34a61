/**
 One run, its steps, and every execution ever claimed for it, interleaved at
 transaction boundaries. An execution that crashed is one that never moves
 again; a stale execution is one whose claim has been superseded but that keeps
 moving.
*/
module EngineSystem {
  import opened Wrappers
  import opened PipelineLifecycle
  import opened EngineTransactions

  datatype EndReason = Abandoned | Paused | Concluded(status: RunStatus) | Raised(fault: Fault)

  /** Where `_execute_locked` stands between two transactions. */
  datatype Pc =
    | AtPrepare
    | AtCheckpoint(index: nat, outputs: map<string, Json>, succeeded: nat)
    | AtExecute(index: nat, outputs: map<string, Json>, succeeded: nat, stepAttempt: nat)
    | AtPersist(index: nat, outputs: map<string, Json>, succeeded: nat, stepAttempt: nat)
    | AtFailure(index: nat, stepAttempt: nat, failure: Failure)
    | Ended(reason: EndReason)

  datatype Execution = Execution(claimed: Claimed, definition: seq<StepDef>, pc: Pc)

  /** One committed step.persist: which step, on which attempt, its output, and whose claim ran it. */
  datatype Effect = Effect(step: nat, attempt: nat, output: Json, claim: nat)

  /** `starters[i]` is the claim whose checkpoint last moved step i to RUNNING. */
  datatype System = System(rows: Rows, executions: map<nat, Execution>, effects: seq<Effect>, starters: map<nat, nat>)

  datatype Event =
    | ClaimRun(workerId: string, definition: seq<StepDef>, now: Time)
    | PreparePhase(claim: nat, now: Time)
    | CheckpointPhase(claim: nat, stopRequested: bool, now: Time)
    | ExecutePhase(claim: nat, failure: Option<Failure>)
    | PersistPhase(claim: nat, verdict: PersistVerdict, now: Time)
    | FailurePhase(claim: nat, jitter: real, now: Time)
    | HeartbeatTick(claim: nat, now: Time)
    | CancelRequest(now: Time)
    | StaleRecovery(input: RecoveryInput)

  /** What PipelineDefinition.__post_init__ enforces. */
  predicate ValidDefinition(definition: seq<StepDef>) {
    |definition| > 0 && forall i, j :: 0 <= i < j < |definition| ==> definition[i].name != definition[j].name
  }

  function Initial(definition: seq<StepDef>, input: Json): System {
    System(InitialRows(definition, input), map[], [], map[])
  }

  function With(s: System, claim: nat, rows: Rows, pc: Pc): System
    requires claim in s.executions
  {
    s.(rows := rows, executions := s.executions[claim := s.executions[claim].(pc := pc)])
  }

  function StepClaim(s: System, workerId: string, definition: seq<StepDef>, now: Time): System {
    if !ValidDefinition(definition) || !Claimable(s.rows, now) then s
    else
      var rows := Claim(s.rows, workerId, now);
      var execution := Execution(Claimed(workerId, rows.run.attempt), definition, AtPrepare);
      s.(rows := rows, executions := s.executions[rows.run.attempt := execution])
  }

  function StepPrepare(s: System, claim: nat, now: Time): System
    requires claim in s.executions && s.executions[claim].pc.AtPrepare?
  {
    var x := s.executions[claim];
    var (rows, outcome) := Prepare(s.rows, x.claimed, x.definition, now);
    var pc :=
      match outcome
      case PrepareAbandoned => Ended(Abandoned)
      case PrepareTerminal(status) => Ended(Concluded(status))
      case PrepareReady(outputs, firstPending) => AtCheckpoint(firstPending, outputs, firstPending)
      case PrepareRaised(fault) => Ended(Raised(fault));
    With(s, claim, rows, pc)
  }

  /** Past the last pending step `_execute_locked` raises its own invariant error. */
  function StepCheckpoint(s: System, claim: nat, stopRequested: bool, now: Time): System
    requires claim in s.executions && s.executions[claim].pc.AtCheckpoint?
  {
    var x := s.executions[claim];
    var pc := x.pc;
    if pc.index >= |x.definition| || pc.index >= |s.rows.steps| then
        With(s, claim, s.rows, Ended(Raised(InvariantFault)))
    else
      var (rows, outcome) :=
        Checkpoint(s.rows, x.claimed, pc.index, x.definition[pc.index], pc.outputs, stopRequested, now);
      match outcome
      case CheckpointAbandoned => With(s, claim, rows, Ended(Abandoned))
      case CheckpointPaused => With(s, claim, rows, Ended(Paused))
      case CheckpointTerminal(status) => With(s, claim, rows, Ended(Concluded(status)))
      case CheckpointRaised(fault) => With(s, claim, rows, Ended(Raised(fault)))
      case CheckpointStarted(stepAttempt) =>
        With(s, claim, rows, AtExecute(pc.index, pc.outputs, pc.succeeded, stepAttempt))
        .(starters := s.starters[pc.index := claim])
  }

  /** step.execute(...) itself: no lock, no transaction, any outcome. */
  function StepExecute(s: System, claim: nat, failure: Option<Failure>): System
    requires claim in s.executions && s.executions[claim].pc.AtExecute?
  {
    var pc := s.executions[claim].pc;
    With(s, claim, s.rows,
         if failure.None? then AtPersist(pc.index, pc.outputs, pc.succeeded, pc.stepAttempt)
         else AtFailure(pc.index, pc.stepAttempt, failure.value))
  }

  function StepPersist(s: System, claim: nat, verdict: PersistVerdict, now: Time): System
    requires claim in s.executions && s.executions[claim].pc.AtPersist?
  {
    var x := s.executions[claim];
    var pc := x.pc;
    if pc.index >= |s.rows.steps| || |x.definition| == 0 then s
    else
      var (rows, outcome) :=
        CommitSuccess(s.rows, x.claimed, pc.index, pc.stepAttempt, verdict, pc.succeeded, |x.definition|, now);
      var next :=
        match outcome
        case PersistAbandoned => Ended(Abandoned)
        case PersistTerminal(status) => Ended(Concluded(status))
        case PersistContinue(output) =>
          AtCheckpoint(pc.index + 1, pc.outputs[s.rows.steps[pc.index].name := output], pc.succeeded + 1)
        case PersistRolledBack(failure) => AtFailure(pc.index, pc.stepAttempt, failure)
        case PersistRaised(fault) => Ended(Raised(fault));
      var moved := With(s, claim, rows, next);
      if PersistCommitted(outcome) && verdict.Persisted?
      then moved.(effects := s.effects + [Effect(pc.index, pc.stepAttempt, verdict.output, claim)])
      else moved
  }

  function StepFailure(s: System, claim: nat, policy: RetryPolicy, jitter: real, now: Time): System
    requires claim in s.executions && s.executions[claim].pc.AtFailure?
  {
    var x := s.executions[claim];
    var pc := x.pc;
    if pc.index >= |s.rows.steps| then s
    else
      var (rows, outcome) :=
        CommitFailure(s.rows, x.claimed, pc.index, pc.stepAttempt, pc.failure, policy, jitter, now);
      match outcome
      case PersistTerminal(status) => With(s, claim, rows, Ended(Concluded(status)))
      case PersistRaised(fault) => With(s, claim, rows, Ended(Raised(fault)))
      case _ => With(s, claim, rows, Ended(Abandoned))
  }

  /** One event. An event that does not apply where its execution stands changes nothing. */
  function Next(s: System, policy: RetryPolicy, e: Event): System {
    match e
    case ClaimRun(workerId, definition, now) => StepClaim(s, workerId, definition, now)
    case PreparePhase(claim, now) =>
      if claim in s.executions && s.executions[claim].pc.AtPrepare? then StepPrepare(s, claim, now) else s
    case CheckpointPhase(claim, stopRequested, now) =>
      if claim in s.executions && s.executions[claim].pc.AtCheckpoint?
      then StepCheckpoint(s, claim, stopRequested, now) else s
    case ExecutePhase(claim, failure) =>
      if claim in s.executions && s.executions[claim].pc.AtExecute? then StepExecute(s, claim, failure) else s
    case PersistPhase(claim, verdict, now) =>
      if claim in s.executions && s.executions[claim].pc.AtPersist? then StepPersist(s, claim, verdict, now) else s
    case FailurePhase(claim, jitter, now) =>
      if claim in s.executions && s.executions[claim].pc.AtFailure? then StepFailure(s, claim, policy, jitter, now)
      else s
    case HeartbeatTick(claim, now) =>
      if claim in s.executions then s.(rows := Heartbeat(s.rows, s.executions[claim].claimed, now)) else s
    case CancelRequest(now) => s.(rows := RequestCancel(s.rows, now))
    case StaleRecovery(input) => s.(rows := Recover(s.rows, input, policy))
  }

  /** An event that applies where its execution, or the run, stands. */
  predicate Enabled(s: System, e: Event) {
    match e
    case PreparePhase(claim, _) => claim in s.executions && s.executions[claim].pc.AtPrepare?
    case CheckpointPhase(claim, _, _) => claim in s.executions && s.executions[claim].pc.AtCheckpoint?
    case ExecutePhase(claim, _) => claim in s.executions && s.executions[claim].pc.AtExecute?
    case PersistPhase(claim, _, _) => claim in s.executions && s.executions[claim].pc.AtPersist?
    case FailurePhase(claim, _, _) => claim in s.executions && s.executions[claim].pc.AtFailure?
    case ClaimRun(_, definition, now) => ValidDefinition(definition) && Claimable(s.rows, now)
    case _ => true
  }

  /** A whole run: any finite interleaving of events. */
  function After(s: System, policy: RetryPolicy, events: seq<Event>): System {
    if events == [] then s else Next(After(s, policy, events[..|events| - 1]), policy, events[|events| - 1])
  }
}
