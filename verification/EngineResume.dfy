/**
 Resuming is invisible: whatever mix of retries, pauses, crashes and reclaims a run went through, the
 outputs it stores are those of one straight pass. And the plan check that guards a resume fires
 exactly when the persisted plan and the registered pipeline disagree.
*/
module EngineResume {
  import opened Wrappers
  import opened PipelineLifecycle
  import opened EngineTransactions
  import opened EngineSystem
  import opened EngineSafety

  /* ----- one straight pass ----- */

  /** A step's business code as a function of its index, the run input and the earlier outputs. */
  type StepCode = (nat, Json, map<string, Json>) -> Json

  function Memory(names: seq<string>, outputs: seq<Json>): map<string, Json>
    requires |outputs| <= |names|
  {
    if outputs == [] then map[]
    else
      var last := |outputs| - 1;
      Memory(names, outputs[..last])[names[last] := outputs[last]]
  }

  /** The outputs of the first `n` steps run once each, in order, with nothing in between. */
  function StraightPass(code: StepCode, names: seq<string>, input: Json, n: nat): (outputs: seq<Json>)
    requires n <= |names|
    ensures |outputs| == n
  {
    if n == 0 then []
    else
      var before := StraightPass(code, names, input, n - 1);
      before + [code(n - 1, input, Memory(names, before))]
  }

  /** Every output handed to the engine is what the step's code computes from what it was given. */
  predicate FollowsCode(s: System, e: Event, code: StepCode) {
    e.PersistPhase? && e.claim in s.executions && s.executions[e.claim].pc.AtPersist? && e.verdict.Persisted? ==>
      var pc := s.executions[e.claim].pc;
      e.verdict.output == code(pc.index, s.rows.run.input, pc.outputs)
  }

  predicate AllFollowCode(s: System, policy: RetryPolicy, events: seq<Event>, code: StepCode) {
    events == [] ||
    var before := events[..|events| - 1];
    AllFollowCode(s, policy, before, code) && FollowsCode(After(s, policy, before), events[|events| - 1], code)
  }

  /** Step i stores what its code computes from the outputs stored before it. */
  predicate StepFollows(steps: seq<Step>, input: Json, code: StepCode, i: nat)
    requires i < |steps|
  {
    steps[i].output == code(i, input, OutputsOf(steps, i))
  }

  ghost predicate StepsFollow(s: System, code: StepCode) {
    forall i :: 0 <= i < Done(s.rows.steps) ==> StepFollows(s.rows.steps, s.rows.run.input, code, i)
  }

  lemma PrepareKeepsInput(s: System, claim: nat, now: Time)
    requires claim in s.executions && s.executions[claim].pc.AtPrepare?
    ensures StepPrepare(s, claim, now).rows.run.input == s.rows.run.input
    ensures StepPrepare(s, claim, now).effects == s.effects
  {
  }

  lemma CheckpointKeepsInput(s: System, claim: nat, stop: bool, now: Time)
    requires claim in s.executions && s.executions[claim].pc.AtCheckpoint?
    ensures StepCheckpoint(s, claim, stop, now).rows.run.input == s.rows.run.input
    ensures StepCheckpoint(s, claim, stop, now).effects == s.effects
  {
  }

  /** The committed effects change in one way only: a persist that commits appends its own. */
  ghost predicate AppendsOwn(s: System, claim: nat, verdict: PersistVerdict, t: System)
    requires claim in s.executions && s.executions[claim].pc.AtPersist?
  {
    var pc := s.executions[claim].pc;
    t.effects == s.effects
    || (verdict.Persisted? && t.effects == s.effects + [Effect(pc.index, pc.stepAttempt, verdict.output, claim)])
  }

  lemma PersistKeepsInput(s: System, claim: nat, verdict: PersistVerdict, now: Time)
    requires claim in s.executions && s.executions[claim].pc.AtPersist?
    ensures StepPersist(s, claim, verdict, now).rows.run.input == s.rows.run.input
    ensures AppendsOwn(s, claim, verdict, StepPersist(s, claim, verdict, now))
  {
  }

  lemma FailureKeepsInput(s: System, claim: nat, policy: RetryPolicy, jitter: real, now: Time)
    requires claim in s.executions && s.executions[claim].pc.AtFailure?
    ensures StepFailure(s, claim, policy, jitter, now).rows.run.input == s.rows.run.input
    ensures StepFailure(s, claim, policy, jitter, now).effects == s.effects
  {
  }

  lemma RecoveryKeepsInput(rows: Rows, input: RecoveryInput, policy: RetryPolicy)
    ensures Recover(rows, input, policy).run.input == rows.run.input
  {
  }

  lemma EnvironmentKeepsInput(s: System, policy: RetryPolicy, e: Event)
    requires EnvironmentEvent(e)
    ensures Next(s, policy, e).rows.run.input == s.rows.run.input
    ensures Next(s, policy, e).effects == s.effects
  {
    if e.StaleRecovery? {
      RecoveryKeepsInput(s.rows, e.input, policy);
    }
  }

  /** No event touches the run's input, and only a persist that commits adds to the committed effects. */
  lemma InputNeverChanges(s: System, policy: RetryPolicy, e: Event)
    ensures Next(s, policy, e).rows.run.input == s.rows.run.input
    ensures if e.PersistPhase? && Enabled(s, e) then AppendsOwn(s, e.claim, e.verdict, Next(s, policy, e))
            else Next(s, policy, e).effects == s.effects
  {
    if EnvironmentEvent(e) {
      EnvironmentKeepsInput(s, policy, e);
    } else if Enabled(s, e) {
      match e
      case PreparePhase(claim, now) => PrepareKeepsInput(s, claim, now);
      case CheckpointPhase(claim, stop, now) => CheckpointKeepsInput(s, claim, stop, now);
      case ExecutePhase(_, _) =>
      case PersistPhase(claim, verdict, now) => PersistKeepsInput(s, claim, verdict, now);
      case FailurePhase(claim, jitter, now) => FailureKeepsInput(s, claim, policy, jitter, now);
    }
  }

  lemma NextFollows(s: System, policy: RetryPolicy, e: Event, code: StepCode)
    requires Inv(s, policy) && StepsFollow(s, code) && FollowsCode(s, e, code)
    ensures StepsFollow(Next(s, policy, e), code)
  {
    var t := Next(s, policy, e);
    var k := Done(s.rows.steps);
    NextKeepsInv(s, policy, e);
    InputNeverChanges(s, policy, e);
    forall i | 0 <= i < Done(t.rows.steps)
      ensures StepFollows(t.rows.steps, t.rows.run.input, code, i)
    {
      assert i < k ==> StepFollows(s.rows.steps, s.rows.run.input, code, i);
      OutputsAgree(s.rows.steps, t.rows.steps, if i < k then i else k);
      if i >= k {
        assert ExecutionOk(s, s.executions[e.claim]);
        assert i == k && t.effects[k].step == k;
      }
    }
  }

  lemma {:induction false} OutputsAreMemory(steps: seq<Step>, names: seq<string>, outputs: seq<Json>)
    requires |outputs| <= |steps| == |names|
    requires forall i :: 0 <= i < |steps| ==> steps[i].name == names[i]
    requires forall i :: 0 <= i < |outputs| ==> steps[i].output == outputs[i]
    ensures OutputsOf(steps, |outputs|) == Memory(names, outputs)
  {
    if outputs != [] {
      OutputsAreMemory(steps, names, outputs[..|outputs| - 1]);
    }
  }

  lemma {:induction false} FollowingIsStraight(
      steps: seq<Step>, input: Json, code: StepCode, names: seq<string>, n: nat)
    requires n <= |names| == |steps|
    requires forall i :: 0 <= i < |names| ==> steps[i].name == names[i]
    requires forall i :: 0 <= i < n ==> StepFollows(steps, input, code, i)
    ensures var outputs := StraightPass(code, names, input, n);
            forall i :: 0 <= i < n ==> steps[i].output == outputs[i]
  {
    if n > 0 {
      FollowingIsStraight(steps, input, code, names, n - 1);
      var before := StraightPass(code, names, input, n - 1);
      OutputsAreMemory(steps, names, before);
      assert StepFollows(steps, input, code, n - 1);
      assert StraightPass(code, names, input, n) == before + [steps[n - 1].output];
    }
  }

  lemma {:induction false} AfterFollows(s: System, policy: RetryPolicy, events: seq<Event>, code: StepCode)
    requires Inv(s, policy) && StepsFollow(s, code) && AllFollowCode(s, policy, events, code)
    ensures var t := After(s, policy, events);
            && StepsFollow(t, code) && t.rows.run.input == s.rows.run.input && |t.rows.steps| == |s.rows.steps|
            && forall i :: 0 <= i < |t.rows.steps| ==> t.rows.steps[i].name == s.rows.steps[i].name
  {
    if events != [] {
      var before, e := events[..|events| - 1], events[|events| - 1];
      AfterFollows(s, policy, before, code);
      AfterKeepsInv(s, policy, before);
      NextFollows(After(s, policy, before), policy, e, code);
      NextKeepsInv(After(s, policy, before), policy, e);
      InputNeverChanges(After(s, policy, before), policy, e);
    }
  }

  /**
   Resume refines one straight pass: a run that reached SUCCEEDED over any interleaving stores, step by
   step, the outputs of one uninterrupted pass; a run stopped anywhere stores a prefix of them.
  */
  lemma ResumeRefinesStraightPass(
      definition: seq<StepDef>, input: Json, policy: RetryPolicy, events: seq<Event>, code: StepCode)
    requires ValidDefinition(definition) && policy.maxRunAttempts > 0
    requires AllFollowCode(Initial(definition, input), policy, events, code)
    ensures var t := After(Initial(definition, input), policy, events).rows;
            var straight := StraightPass(code, Names(definition), input, |definition|);
            && |t.steps| == |definition|
            && (forall i :: 0 <= i < |t.steps| && t.steps[i].status == StepSucceeded ==>
               t.steps[i].output == straight[i])
            && (t.run.status == RunSucceeded ==> forall i :: 0 <= i < |t.steps| ==> t.steps[i].output == straight[i])
  {
    var t := After(Initial(definition, input), policy, events);
    ReachedFollows(definition, input, policy, events, code, t);
    SucceededAreDone(t.rows, policy);
    SucceededIsStraight(t, code, Names(definition));
  }

  lemma ReachedFollows(
      definition: seq<StepDef>, input: Json, policy: RetryPolicy, events: seq<Event>, code: StepCode, t: System)
    requires ValidDefinition(definition) && policy.maxRunAttempts > 0
    requires AllFollowCode(Initial(definition, input), policy, events, code)
    requires t == After(Initial(definition, input), policy, events)
    ensures RowsOk(t.rows, policy) && StepsFollow(t, code) && t.rows.run.input == input
    ensures |t.rows.steps| == |definition| && forall i :: 0 <= i < |definition| ==>
            t.rows.steps[i].name == definition[i].name
  {
    var s := Initial(definition, input);
    InitialInv(definition, input, policy);
    DoneIs(s.rows.steps, 0);
    AfterFollows(s, policy, events, code);
    AfterKeepsInv(s, policy, events);
  }

  /** Only the leading stretch is SUCCEEDED, and all of it once the run is. */
  lemma SucceededAreDone(rows: Rows, policy: RetryPolicy)
    requires RowsOk(rows, policy)
    ensures forall i :: Done(rows.steps) <= i < |rows.steps| ==> rows.steps[i].status != StepSucceeded
    ensures rows.run.status == RunSucceeded ==>
              forall i :: 0 <= i < |rows.steps| ==> rows.steps[i].status == StepSucceeded
  {
  }

  function Names(definition: seq<StepDef>): (names: seq<string>)
    ensures |names| == |definition|
  {
    seq(|definition|, i requires 0 <= i < |definition| => definition[i].name)
  }

  lemma SucceededIsStraight(s: System, code: StepCode, names: seq<string>)
    requires StepsFollow(s, code) && |names| == |s.rows.steps|
    requires forall i :: Done(s.rows.steps) <= i < |names| ==> s.rows.steps[i].status != StepSucceeded
    requires forall i :: 0 <= i < |names| ==> s.rows.steps[i].name == names[i]
    ensures var straight := StraightPass(code, names, s.rows.run.input, |names|);
            forall i :: 0 <= i < |names| && s.rows.steps[i].status == StepSucceeded ==>
                s.rows.steps[i].output == straight[i]
  {
    var k := Done(s.rows.steps);
    FollowingIsStraight(s.rows.steps, s.rows.run.input, code, names, k);
    StraightPassPrefix(code, names, s.rows.run.input, k, |names|);
    var straight := StraightPass(code, names, s.rows.run.input, |names|);
    forall i | 0 <= i < |names| && s.rows.steps[i].status == StepSucceeded
      ensures s.rows.steps[i].output == straight[i]
    {
      assert i < k && straight[..k][i] == straight[i];
    }
  }

  lemma {:induction false} StraightPassPrefix(code: StepCode, names: seq<string>, input: Json, m: nat, n: nat)
    requires m <= n <= |names|
    ensures StraightPass(code, names, input, m) == StraightPass(code, names, input, n)[..m]
  {
    if m < n {
      StraightPassPrefix(code, names, input, m, n - 1);
    }
  }

  /* ----- the plan check ----- */

  ghost predicate Submap(a: map<string, Json>, b: map<string, Json>) {
    forall key :: key in a ==> key in b && b[key] == a[key]
  }

  /** Once a deriver has an answer, later outputs do not change it. */
  ghost predicate Stable(definition: seq<StepDef>, input: Json) {
    forall i, a, b {:trigger definition[i].deriver(input, a), definition[i].deriver(input, b)} ::
      0 <= i < |definition| && Submap(a, b) && definition[i].deriver(input, a).Some? ==>
        definition[i].deriver(input, b) == definition[i].deriver(input, a)
  }

  lemma {:induction false} OutputsNamed(steps: seq<Step>, n: nat, key: string)
    requires n <= |steps|
    ensures key in OutputsOf(steps, n) <==> (exists i :: 0 <= i < n && steps[i].name == key)
  {
    if n > 0 {
      OutputsNamed(steps, n - 1, key);
    }
  }

  lemma {:induction false} OutputsGrow(steps: seq<Step>, m: nat, n: nat)
    requires m <= n <= |steps|
    requires forall i, j :: 0 <= i < j < |steps| ==> steps[i].name != steps[j].name
    ensures Submap(OutputsOf(steps, m), OutputsOf(steps, n))
  {
    if m < n {
      OutputsGrow(steps, m, n - 1);
      forall key | key in OutputsOf(steps, m) ensures key != steps[n - 1].name {
        OutputsNamed(steps, m, key);
      }
    }
  }

  /** The persisted plan and `definition` disagree about step i. */
  predicate Disagrees(definition: seq<StepDef>, steps: seq<Step>, input: Json, i: nat)
    requires i < |definition| == |steps|
  {
    var seen := if i <= Done(steps) then i else Done(steps);
    || steps[i].ordinal != i || steps[i].name != definition[i].name
    || (steps[i].inputHash.Some? && steps[i].inputHash != InputHash(definition[i], input, OutputsOf(steps, seen)))
  }

  lemma {:induction false} ScanFindsDisagreement(definition: seq<StepDef>, steps: seq<Step>, input: Json, n: nat)
    requires n <= |definition| == |steps| && Tail(steps, Done(steps), StepQueued)
    ensures ScanPlan(definition, steps, input, n).ScanDrift? <==>
            (exists i :: 0 <= i < n && Disagrees(definition, steps, input, i))
  {
    if n > 0 {
      ScanFindsDisagreement(definition, steps, input, n - 1);
      ScanNeverCorrupt(definition, steps, input, n - 1);
      ScanMeaning(definition, steps, input, n - 1);
      match ScanPlan(definition, steps, input, n - 1)
      case Scanning(outputs, firstPending) =>
        var seen := if n - 1 <= Done(steps) then n - 1 else Done(steps);
        if firstPending.Some? {
          DoneIs(steps, firstPending.value);
        }
        assert outputs == OutputsOf(steps, seen);
        assert ScanPlan(definition, steps, input, n).ScanDrift? <==> Disagrees(definition, steps, input, n - 1);
      case _ =>
    }
  }

  /** The scan over a whole plan reports drift exactly when the plans disagree, and nothing worse. */
  lemma ValidationFindsDrift(definition: seq<StepDef>, steps: seq<Step>, input: Json)
    requires Tail(steps, Done(steps), StepQueued)
    ensures ValidatePlan(definition, steps, input).ScanDrift? <==> Drifted(definition, steps, input)
  {
    if |definition| == |steps| {
      ScanFindsDisagreement(definition, steps, input, |steps|);
    }
  }

  /** The registered pipeline has another number of steps, or some step has another ordinal, name, or stored hash. */
  predicate Drifted(definition: seq<StepDef>, steps: seq<Step>, input: Json) {
    |definition| != |steps| || exists i :: 0 <= i < |steps| && Disagrees(definition, steps, input, i)
  }

  /**
   The check made before a resume fails a run in flight, CANCELLING or not, exactly when the plan drifted.
   Otherwise a RUNNING run goes on as it stands, and a CANCELLING one ends CANCELLED.
  */
  lemma DriftCheckIsExact(rows: Rows, claimed: Claimed, definition: seq<StepDef>, now: Time, policy: RetryPolicy)
    requires RowsOk(rows, policy) && IsOwner(rows.run, claimed) && InFlight(rows.run.status)
    requires Tail(rows.steps, Done(rows.steps), StepQueued)
    ensures var (t, outcome) := Prepare(rows, claimed, definition, now);
            if Drifted(definition, rows.steps, rows.run.input) then
              && outcome == PrepareTerminal(RunFailed) && t.steps == rows.steps
              && t.run.status == RunFailed && t.run.errorCode == Some(StepInputDrift)
            else if rows.run.status == RunCancelling then
              outcome == PrepareTerminal(RunCancelled) && t.run.status == RunCancelled
            else outcome.PrepareReady? && t == rows
  {
    ValidationFindsDrift(definition, rows.steps, rows.run.input);
    ScanOwned(rows, definition);
  }

  /** A step whose hash is stored cannot be redefined behind a run's back: a new definition_id is a disagreement. */
  lemma RedefinedStepDisagrees(definition: seq<StepDef>, steps: seq<Step>, input: Json, i: nat)
    requires i < |definition| == |steps|
    requires steps[i].inputHash.Some? && steps[i].inputHash.value.definitionId != definition[i].definitionId
    ensures Disagrees(definition, steps, input, i)
  {
  }

  /* ----- no false alarms ----- */

  /** Every claim is made by a process that registered this definition. */
  ghost predicate SameDefinition(e: Event, definition: seq<StepDef>) {
    e.ClaimRun? ==> e.definition == definition
  }

  /** Every stored hash was derived from the outputs of some steps before it, all of them SUCCEEDED by now. */
  ghost predicate HashesDerived(s: System, definition: seq<StepDef>) {
    var steps := s.rows.steps;
    && |steps| == |definition|
    && (forall i :: 0 <= i < |steps| ==> steps[i].name == definition[i].name)
    && (forall i :: 0 <= i < |steps| && steps[i].inputHash.Some? ==>
       HashDerived(definition, steps, s.rows.run.input, i))
    && (forall claim :: claim in s.executions ==> s.executions[claim].definition == definition)
  }

  ghost predicate HashDerived(definition: seq<StepDef>, steps: seq<Step>, input: Json, i: nat)
    requires i < |definition| == |steps|
  {
    exists m :: 0 <= m <= i && m <= Done(steps)
        && steps[i].inputHash == InputHash(definition[i], input, OutputsOf(steps, m))
  }

  lemma CheckpointHashes(s: System, claim: nat, stop: bool, now: Time, policy: RetryPolicy)
    requires Inv(s, policy) && claim in s.executions && s.executions[claim].pc.AtCheckpoint?
    ensures var t, x, k := StepCheckpoint(s, claim, stop, now), s.executions[claim], Done(s.rows.steps);
            && |t.rows.steps| == |s.rows.steps|
            && (forall i :: 0 <= i < |t.rows.steps| && i != k ==>
               t.rows.steps[i].inputHash == s.rows.steps[i].inputHash)
            && (k < |t.rows.steps| && t.rows.steps[k].inputHash != s.rows.steps[k].inputHash ==>
                  k < |x.definition| && t.rows.steps[k].inputHash
                      == InputHash(x.definition[k], s.rows.run.input, OutputsOf(s.rows.steps, k)))
  {
    var x := s.executions[claim];
    assert ExecutionOk(s, x);
    var pc := x.pc;
    CheckpointKeepsRows(s.rows, x.claimed, pc.index, x.definition[pc.index], pc.outputs, stop, now, policy);
  }

  lemma NextKeepsHashesDerived(s: System, policy: RetryPolicy, e: Event, definition: seq<StepDef>)
    requires Inv(s, policy) && HashesDerived(s, definition) && SameDefinition(e, definition)
    ensures HashesDerived(Next(s, policy, e), definition)
  {
    var t := Next(s, policy, e);
    NextKeepsInv(s, policy, e);
    InputNeverChanges(s, policy, e);
    DefinitionsKept(s, policy, e, definition);
    if e.CheckpointPhase? && t != s {
      CheckpointHashes(s, e.claim, e.stopRequested, e.now, policy);
    }
    forall i | 0 <= i < |t.rows.steps| && t.rows.steps[i].inputHash.Some?
      ensures HashDerived(definition, t.rows.steps, t.rows.run.input, i)
    {
      HashStaysDerived(s, t, definition, i);
    }
  }

  lemma DefinitionsKept(s: System, policy: RetryPolicy, e: Event, definition: seq<StepDef>)
    requires HashesDerived(s, definition) && SameDefinition(e, definition)
    ensures forall claim :: claim in Next(s, policy, e).executions ==>
            Next(s, policy, e).executions[claim].definition == definition
  {
  }

  lemma HashStaysDerived(s: System, t: System, definition: seq<StepDef>, i: nat)
    requires HashesDerived(s, definition) && Continues(s.rows.steps, t.rows.steps)
             && t.rows.run.input == s.rows.run.input
    requires i < |definition| && t.rows.steps[i].inputHash.Some?
    requires t.rows.steps[i].inputHash == s.rows.steps[i].inputHash
             || (i == Done(s.rows.steps)
                && t.rows.steps[i].inputHash == InputHash(definition[i], s.rows.run.input, OutputsOf(s.rows.steps, i)))
    ensures HashDerived(definition, t.rows.steps, t.rows.run.input, i)
  {
    var m := if t.rows.steps[i].inputHash == s.rows.steps[i].inputHash
             then DerivedFrom(definition, s.rows.steps, s.rows.run.input, i) else i;
    OutputsAgree(s.rows.steps, t.rows.steps, m);
  }

  ghost function DerivedFrom(definition: seq<StepDef>, steps: seq<Step>, input: Json, i: nat): (m: nat)
    requires i < |definition| == |steps| && HashDerived(definition, steps, input, i)
    ensures m <= i && m <= Done(steps) && steps[i].inputHash == InputHash(definition[i], input, OutputsOf(steps, m))
  {
    var m: nat :| m <= i && m <= Done(steps)
        && steps[i].inputHash == InputHash(definition[i], input, OutputsOf(steps, m));
    m
  }

  lemma {:induction false} AfterKeepsHashesDerived(
      s: System, policy: RetryPolicy, events: seq<Event>, definition: seq<StepDef>)
    requires Inv(s, policy) && HashesDerived(s, definition)
    requires forall i :: 0 <= i < |events| ==> SameDefinition(events[i], definition)
    ensures HashesDerived(After(s, policy, events), definition)
  {
    if events != [] {
      var before := events[..|events| - 1];
      AfterKeepsHashesDerived(s, policy, before, definition);
      AfterKeepsInv(s, policy, before);
      NextKeepsHashesDerived(After(s, policy, before), policy, events[|events| - 1], definition);
    }
  }

  /** With stable derivers a hash derived from fewer outputs is the hash all outputs so far give. */
  lemma DerivedIsExpected(definition: seq<StepDef>, steps: seq<Step>, input: Json, i: nat, n: nat)
    requires i < |definition| == |steps| && ValidDefinition(definition) && Stable(definition, input)
    requires forall j :: 0 <= j < |steps| ==> steps[j].name == definition[j].name
    requires steps[i].inputHash.Some? && HashDerived(definition, steps, input, i)
    requires n == if i <= Done(steps) then i else Done(steps)
    ensures steps[i].inputHash == InputHash(definition[i], input, OutputsOf(steps, n))
  {
    var m := DerivedFrom(definition, steps, input, i);
    OutputsGrow(steps, m, n);
    assert definition[i].deriver(input, OutputsOf(steps, n)) == definition[i].deriver(input, OutputsOf(steps, m));
  }

  lemma NoneDisagrees(s: System, definition: seq<StepDef>)
    requires HashesDerived(s, definition) && StepsOk(s.rows.steps)
    requires ValidDefinition(definition) && Stable(definition, s.rows.run.input)
    ensures forall i :: 0 <= i < |definition| ==> !Disagrees(definition, s.rows.steps, s.rows.run.input, i)
  {
    var steps := s.rows.steps;
    forall i | 0 <= i < |definition| ensures !Disagrees(definition, steps, s.rows.run.input, i) {
      assert StepOk(steps[i], i);
      if steps[i].inputHash.Some? {
        DerivedIsExpected(definition, steps, s.rows.run.input, i, if i <= Done(steps) then i else Done(steps));
      }
    }
  }

  /** `e` is a resume or a checkpoint that fails the run with STEP_INPUT_DRIFT. */
  predicate CommitsDrift(s: System, policy: RetryPolicy, e: Event) {
    && (e.PreparePhase? || e.CheckpointPhase?) && Enabled(s, e) && s.rows.run.status != RunFailed
    && var run := Next(s, policy, e).rows.run;
       run.status == RunFailed && run.errorCode == Some(StepInputDrift)
  }

  lemma AgreeingPrepare(rows: Rows, claimed: Claimed, definition: seq<StepDef>, now: Time, policy: RetryPolicy)
    requires RowsOk(rows, policy) && |definition| > 0 && !Drifted(definition, rows.steps, rows.run.input)
    requires IsOwner(rows.run, claimed) && InFlight(rows.run.status) ==> Tail(rows.steps, Done(rows.steps), StepQueued)
    ensures Prepare(rows, claimed, definition, now).0.run.status == RunFailed ==> rows.run.status == RunFailed
  {
    if IsOwner(rows.run, claimed) && InFlight(rows.run.status) {
      DriftCheckIsExact(rows, claimed, definition, now, policy);
    } else {
      PrepareIdle(rows, claimed, definition, now, policy);
    }
  }

  lemma NoDriftAtPrepare(s: System, claim: nat, now: Time, policy: RetryPolicy, definition: seq<StepDef>)
    requires Inv(s, policy) && claim in s.executions && s.executions[claim].pc.AtPrepare?
    requires HashesDerived(s, definition) && ValidDefinition(definition) && Stable(definition, s.rows.run.input)
    ensures StepPrepare(s, claim, now).rows.run.status == RunFailed ==> s.rows.run.status == RunFailed
  {
    NoneDisagrees(s, definition);
    assert ExecutionOk(s, s.executions[claim]);
    AgreeingPrepare(s.rows, s.executions[claim].claimed, definition, now, policy);
  }

  lemma AgreeingCheckpoint(rows: Rows, claimed: Claimed, index: nat, def: StepDef, outputs: map<string, Json>,
                           stopRequested: bool, now: Time, policy: RetryPolicy)
    requires RowsOk(rows, policy) && index < |rows.steps| && rows.run.status != RunFailed
    requires IsOwner(rows.run, claimed) && InFlight(rows.run.status) ==>
               && index == Done(rows.steps) && rows.steps[index].status == StepQueued
               && (rows.steps[index].inputHash.Some? ==>
                     rows.steps[index].inputHash == InputHash(def, rows.run.input, outputs))
    ensures var run := Checkpoint(rows, claimed, index, def, outputs, stopRequested, now).0.run;
            run.status == RunFailed ==> run.errorCode == Some(StepInputUnresolvable)
  {
    if IsOwner(rows.run, claimed) && InFlight(rows.run.status) {
      CheckpointOwned(rows, claimed, index, def, outputs, stopRequested, now, policy);
    } else {
      CheckpointIdle(rows, claimed, index, def, outputs, stopRequested, now, policy);
    }
  }

  /** What the owner at a checkpoint remembers gives the hash its step has stored, if it has one. */
  predicate RemembersHash(s: System, x: Execution)
    requires x.pc.AtCheckpoint? && x.pc.index < |s.rows.steps| && x.pc.index < |x.definition|
  {
    var step := s.rows.steps[x.pc.index];
    step.inputHash.Some? ==> step.inputHash == InputHash(x.definition[x.pc.index], s.rows.run.input, x.pc.outputs)
  }

  lemma OwnerRemembersHash(s: System, x: Execution)
    requires ExecutionOk(s, x) && x.pc.AtCheckpoint? && Active(s, x) && HashesDerived(s, x.definition)
    requires ValidDefinition(x.definition) && Stable(x.definition, s.rows.run.input)
    ensures RemembersHash(s, x)
  {
    if s.rows.steps[x.pc.index].inputHash.Some? {
      DerivedIsExpected(x.definition, s.rows.steps, s.rows.run.input, x.pc.index, x.pc.index);
    }
  }

  /** `t` did not fail with STEP_INPUT_DRIFT. */
  predicate FailsUnresolvable(t: System) {
    t.rows.run.status == RunFailed ==> t.rows.run.errorCode == Some(StepInputUnresolvable)
  }

  lemma RememberedCheckpoint(s: System, claim: nat, stop: bool, now: Time, policy: RetryPolicy)
    requires claim in s.executions && s.executions[claim].pc.AtCheckpoint?
    requires RowsOk(s.rows, policy) && ExecutionOk(s, s.executions[claim]) && s.rows.run.status != RunFailed
    requires Active(s, s.executions[claim]) ==> RemembersHash(s, s.executions[claim])
    ensures FailsUnresolvable(StepCheckpoint(s, claim, stop, now))
  {
    var x := s.executions[claim];
    var pc := x.pc;
    AgreeingCheckpoint(s.rows, x.claimed, pc.index, x.definition[pc.index], pc.outputs, stop, now, policy);
  }

  lemma NoDriftAtCheckpoint(s: System, claim: nat, stop: bool, now: Time, policy: RetryPolicy, definition: seq<StepDef>)
    requires Inv(s, policy) && claim in s.executions && s.executions[claim].pc.AtCheckpoint?
    requires HashesDerived(s, definition) && ValidDefinition(definition) && Stable(definition, s.rows.run.input)
    requires s.rows.run.status != RunFailed
    ensures FailsUnresolvable(StepCheckpoint(s, claim, stop, now))
  {
    var x := s.executions[claim];
    assert ExecutionOk(s, x);
    if Active(s, x) { OwnerRemembersHash(s, x); }
    RememberedCheckpoint(s, claim, stop, now, policy);
  }

  lemma ReachedHashesDerived(definition: seq<StepDef>, input: Json, policy: RetryPolicy, events: seq<Event>)
    requires ValidDefinition(definition) && policy.maxRunAttempts > 0
    requires forall i :: 0 <= i < |events| ==> SameDefinition(events[i], definition)
    ensures var t := After(Initial(definition, input), policy, events);
            Inv(t, policy) && HashesDerived(t, definition) && t.rows.run.input == input
  {
    var s := Initial(definition, input);
    InitialInv(definition, input, policy);
    DoneIs(s.rows.steps, 0);
    forall i | 0 <= i < |definition|
      ensures s.rows.steps[i].inputHash.Some? ==> HashDerived(definition, s.rows.steps, input, i)
    {
      assert OutputsOf(s.rows.steps, 0) == map[];
    }
    AfterKeepsHashesDerived(s, policy, events, definition);
    AfterKeepsInv(s, policy, events);
    AfterKeepsInput(s, policy, events);
  }

  /**
   A plan built by submission and changed only by the engine never drifts: with stable derivers, after
   any events no resume and no checkpoint, whoever makes it, fails the run with STEP_INPUT_DRIFT, and no
   step ever disagrees with the definition.
  */
  lemma NoFalseDrift(definition: seq<StepDef>, input: Json, policy: RetryPolicy, events: seq<Event>, e: Event)
    requires ValidDefinition(definition) && policy.maxRunAttempts > 0 && Stable(definition, input)
    requires forall i :: 0 <= i < |events| ==> SameDefinition(events[i], definition)
    ensures var t := After(Initial(definition, input), policy, events);
            && !CommitsDrift(t, policy, e)
            && |t.rows.steps| == |definition| && t.rows.run.input == input
            && forall i :: 0 <= i < |definition| ==> !Disagrees(definition, t.rows.steps, input, i)
  {
    ReachedHashesDerived(definition, input, policy, events);
    var t := After(Initial(definition, input), policy, events);
    NoneDisagrees(t, definition);
    if Enabled(t, e) && e.PreparePhase? {
      NoDriftAtPrepare(t, e.claim, e.now, policy, definition);
    } else if Enabled(t, e) && e.CheckpointPhase? && t.rows.run.status != RunFailed {
      NoDriftAtCheckpoint(t, e.claim, e.stopRequested, e.now, policy, definition);
    }
  }

  lemma {:induction false} AfterKeepsInput(s: System, policy: RetryPolicy, events: seq<Event>)
    ensures After(s, policy, events).rows.run.input == s.rows.run.input
  {
    if events != [] {
      AfterKeepsInput(s, policy, events[..|events| - 1]);
      InputNeverChanges(After(s, policy, events[..|events| - 1]), policy, events[|events| - 1]);
    }
  }
}
