/**
 `validateWorkflowSpec`, the scheduler's entry point behind it, and the built plan: what
 validation accepts is what the run-time guarantees need, and the built plan is accepted.
 */
module WorkflowValidation {
  import opened Outcomes
  import opened WorkflowSpecs
  import opened WorkflowGraph
  import opened WorkflowRuns
  import CanonicalParameters
  import CanonicalLaws

  datatype Trigger = Manual | Schedule | Event

  /** Three parameter trees and an optional fourth, all living in one heap. */
  datatype Snapshot = Snapshot(
    schemaVersion: int,
    heap: CanonicalParameters.Heap,
    training: CanonicalParameters.Value,
    evaluation: CanonicalParameters.Value,
    runtime: CanonicalParameters.Value,
    source: Option<CanonicalParameters.Value>)

  datatype Spec = Spec(
    schemaVersion: int, workflowId: string, idempotencyKey: string, projectId: string,
    robotId: string, modelId: string, datasetId: string, trigger: Trigger,
    includeDeploy: bool, parameters: Snapshot, resourceRequest: ResourceRequest,
    steps: seq<Step>)

  const SCHEMA_VERSION := 1

  // ----- Names: trimmed, not empty, at most 256 UTF-16 code units -----

  predicate IsSpace(c: char) {
    var u := c as int;
    || 0x09 <= u <= 0x0D || u == 0x20 || u == 0xA0 || u == 0x1680 || 0x2000 <= u <= 0x200A
    || u == 0x2028 || u == 0x2029 || u == 0x202F || u == 0x205F || u == 0x3000 || u == 0xFEFF
  }

  function TrimStart(s: string): string {
    if s != [] && IsSpace(s[0]) then TrimStart(s[1..]) else s
  }

  function TrimEnd(s: string): string {
    if s != [] && IsSpace(s[|s| - 1]) then TrimEnd(s[..|s| - 1]) else s
  }

  function Trim(s: string): string {
    TrimEnd(TrimStart(s))
  }

  predicate IsTrimmed(s: string) {
    s == [] || (!IsSpace(s[0]) && !IsSpace(s[|s| - 1]))
  }

  lemma {:induction false} TrimEndKeepsStart(s: string)
    requires s == [] || !IsSpace(s[0])
    ensures IsTrimmed(TrimEnd(s))
  {
    if s != [] && IsSpace(s[|s| - 1]) {
      TrimEndKeepsStart(s[..|s| - 1]);
    }
  }

  lemma {:induction false} TrimStartStops(s: string)
    ensures TrimStart(s) == [] || !IsSpace(TrimStart(s)[0])
  {
    if s != [] && IsSpace(s[0]) {
      TrimStartStops(s[1..]);
    }
  }

  lemma TrimIdempotent(s: string)
    ensures IsTrimmed(Trim(s)) && Trim(Trim(s)) == Trim(s)
  {
    TrimStartStops(s);
    TrimEndKeepsStart(TrimStart(s));
  }

  function Utf16Length(s: string): nat {
    if s == [] then 0 else (if s[0] as int >= 0x1_0000 then 2 else 1) + Utf16Length(s[1..])
  }

  predicate NameOk(s: string) {
    Trim(s) != [] && Utf16Length(Trim(s)) <= 256
  }

  // ----- Requests and snapshots -----

  predicate RequestOk(r: ResourceRequest) {
    && NameOk(r.queue)
    && 1 <= r.cpuMillis <= 1_000_000
    && 128 <= r.memoryMiB <= 1_048_576
    && 0 <= r.gpuCount <= 32
    && 0 <= r.priority <= 1_000
    && 30 <= r.timeoutSeconds <= 7 * 24 * 60 * 60
    && (r.gpuType.Some? ==> NameOk(r.gpuType.value))
  }

  /** What `validateResourceRequest` returns. */
  function Normalized(r: ResourceRequest): ResourceRequest {
    r.(queue := Trim(r.queue), gpuType := if r.gpuType.Some? then Some(Trim(r.gpuType.value)) else None)
  }

  lemma NormalizedIsOk(r: ResourceRequest)
    requires RequestOk(r)
    ensures RequestOk(Normalized(r)) && Normalized(Normalized(r)) == Normalized(r)
  {
    TrimIdempotent(r.queue);
    if r.gpuType.Some? { TrimIdempotent(r.gpuType.value); }
  }

  predicate SnapshotTyped(s: Snapshot) {
    && CanonicalParameters.WellFormed(s.heap)
    && CanonicalParameters.InHeap(s.heap, s.training)
    && CanonicalParameters.InHeap(s.heap, s.evaluation)
    && CanonicalParameters.InHeap(s.heap, s.runtime)
    && (s.source.Some? ==> CanonicalParameters.InHeap(s.heap, s.source.value))
  }

  predicate IsRecord(h: CanonicalParameters.Heap, v: CanonicalParameters.Value)
    requires CanonicalParameters.InHeap(h, v)
  {
    v.Object? && h[v.ref].RecordNode?
  }

  ghost predicate SnapshotOk(s: Snapshot)
    requires SnapshotTyped(s)
  {
    && s.schemaVersion == SCHEMA_VERSION
    && IsRecord(s.heap, s.training) && CanonicalLaws.Acceptable(s.heap, s.training)
    && IsRecord(s.heap, s.evaluation) && CanonicalLaws.Acceptable(s.heap, s.evaluation)
    && IsRecord(s.heap, s.runtime) && CanonicalLaws.Acceptable(s.heap, s.runtime)
    && (s.source.Some? ==> CanonicalLaws.Acceptable(s.heap, s.source.value))
  }

  method CheckTree(h: CanonicalParameters.Heap, v: CanonicalParameters.Value) returns (ok: bool)
    requires CanonicalParameters.WellFormed(h) && CanonicalParameters.InHeap(h, v)
    ensures ok <==> IsRecord(h, v) && CanonicalLaws.Acceptable(h, v)
  {
    if !IsRecord(h, v) { return false; }
    var text := CanonicalLaws.Canonicalize(h, v);
    return text.Ok?;
  }

  method ValidateParameterSnapshot(s: Snapshot) returns (ok: bool)
    requires SnapshotTyped(s)
    ensures ok <==> SnapshotOk(s)
  {
    if s.schemaVersion != SCHEMA_VERSION { return false; }
    ok := CheckTree(s.heap, s.training);
    if !ok { return; }
    ok := CheckTree(s.heap, s.evaluation);
    if !ok { return; }
    ok := CheckTree(s.heap, s.runtime);
    if ok && s.source.Some? {
      var text := CanonicalLaws.Canonicalize(s.heap, s.source.value);
      ok := text.Ok?;
    }
  }

  // ----- The specification -----

  predicate StepOk(s: Step) {
    && NameOk(s.key)
    && 0 <= s.attempt <= 10_000 && 1 <= s.maxAttempts <= 10_000 && s.attempt <= s.maxAttempts
    && RequestOk(s.resourceRequest)
    && Trim(s.key) !in s.dependsOn
  }

  predicate UniqueTrimmed(steps: seq<Step>) {
    forall i, j :: 0 <= i < j < |steps| ==> Trim(steps[i].key) != Trim(steps[j].key)
  }

  predicate HasDeploy(steps: seq<Step>) {
    exists i :: 0 <= i < |steps| && steps[i].kind == Deploy
  }

  ghost predicate HeaderOk(spec: Spec)
    requires SnapshotTyped(spec.parameters)
  {
    && spec.schemaVersion == SCHEMA_VERSION
    && NameOk(spec.workflowId) && NameOk(spec.idempotencyKey) && NameOk(spec.projectId)
    && NameOk(spec.robotId) && NameOk(spec.modelId) && NameOk(spec.datasetId)
    && RequestOk(spec.resourceRequest)
    && SnapshotOk(spec.parameters)
  }

  ghost predicate StepsOk(steps: seq<Step>, includeDeploy: bool) {
    && 4 <= |steps| <= 5
    && (forall i :: 0 <= i < |steps| ==> StepOk(steps[i]))
    && UniqueTrimmed(steps)
    && HasDeploy(steps) == includeDeploy
    && Acyclic(ByKey(steps)) && Closed(ByKey(steps))
  }

  ghost predicate ValidSpec(spec: Spec)
    requires SnapshotTyped(spec.parameters)
  {
    HeaderOk(spec) && StepsOk(spec.steps, spec.includeDeploy)
  }

  /** `None` when the specification is returned unchanged, otherwise the failure that is thrown. */
  method ValidateWorkflowSpec(spec: Spec) returns (failure: Option<string>)
    requires SnapshotTyped(spec.parameters)
    ensures failure.None? <==> ValidSpec(spec)
  {
    if spec.schemaVersion != SCHEMA_VERSION { return Some("schema_invalid"); }
    if !NameOk(spec.workflowId) { return Some("workflow_id_invalid"); }
    if !NameOk(spec.idempotencyKey) { return Some("idempotency_key_invalid"); }
    if !NameOk(spec.projectId) { return Some("project_id_invalid"); }
    if !NameOk(spec.robotId) { return Some("robot_id_invalid"); }
    if !NameOk(spec.modelId) { return Some("model_id_invalid"); }
    if !NameOk(spec.datasetId) { return Some("dataset_id_invalid"); }
    if !RequestOk(spec.resourceRequest) { return Some("resource_invalid"); }
    var snapshotOk := ValidateParameterSnapshot(spec.parameters);
    if !snapshotOk { return Some("parameter_invalid"); }
    if |spec.steps| < 4 || |spec.steps| > 5 { return Some("steps_invalid"); }
    failure := ValidateSteps(spec.steps);
    if failure.Some? { return; }
    if !spec.includeDeploy && HasDeploy(spec.steps) { return Some("deploy_step_unexpected"); }
    if spec.includeDeploy && !HasDeploy(spec.steps) { return Some("deploy_step_missing"); }
    var refusal, _ := EnsureAcyclic(spec.steps);
    match refusal
    case None => return None;
    case Some(CycleFound) => return Some("cycle");
    case Some(DependencyMissing) => return Some("dependency_missing");
  }

  method ValidateCounters(s: Step) returns (failure: Option<string>)
    requires NameOk(s.key)
    ensures failure.None? <==> StepOk(s)
  {
    if !(0 <= s.attempt <= 10_000) { return Some("attempt_invalid"); }
    if !(1 <= s.maxAttempts <= 10_000) { return Some("max_attempts_invalid"); }
    if s.attempt > s.maxAttempts { return Some("attempt_exceeds_max"); }
    if !RequestOk(s.resourceRequest) { return Some("resource_invalid"); }
    if Trim(s.key) in s.dependsOn { return Some("dependency_invalid"); }
    return None;
  }

  predicate NewName(steps: seq<Step>, i: nat)
    requires i < |steps|
  {
    forall j :: 0 <= j < i ==> Trim(steps[j].key) != Trim(steps[i].key)
  }

  method ValidateSteps(steps: seq<Step>) returns (failure: Option<string>)
    ensures failure.None? <==> (forall i :: 0 <= i < |steps| ==> StepOk(steps[i])) && UniqueTrimmed(steps)
  {
    var keys: set<string> := {};
    for i := 0 to |steps|
      invariant forall j :: 0 <= j < i ==> StepOk(steps[j]) && NewName(steps, j)
      invariant keys == set j | 0 <= j < i :: Trim(steps[j].key)
    {
      if !NameOk(steps[i].key) { return Some("step_key_invalid"); }
      if Trim(steps[i].key) in keys {
        return Some("step_duplicate");
      }
      keys := keys + {Trim(steps[i].key)};
      failure := ValidateCounters(steps[i]);
      if failure.Some? { return; }
    }
    return None;
  }

  /** Validation is what the run-time guarantees need. */
  lemma ValidIsSchedulable(spec: Spec)
    requires SnapshotTyped(spec.parameters) && ValidSpec(spec)
    ensures Schedulable(spec.steps) && AllAttemptsOk(spec.steps)
  {
    forall i, j | 0 <= i < j < |spec.steps| ensures spec.steps[i].key != spec.steps[j].key {
      assert Trim(spec.steps[i].key) != Trim(spec.steps[j].key);
    }
    forall i | 0 <= i < |spec.steps| ensures AttemptsOk(spec.steps[i]) {
      assert StepOk(spec.steps[i]);
    }
  }

  method ReadyWorkflowSteps(spec: Spec) returns (r: Result<seq<Key>, string>)
    requires SnapshotTyped(spec.parameters)
    ensures r.Ok? <==> ValidSpec(spec)
    ensures r.Ok? ==> r.value == ReadyKeys(spec.steps)
  {
    var failure := ValidateWorkflowSpec(spec);
    if failure.Some? { return Err(failure.value); }
    return Ok(ReadyKeys(spec.steps));
  }

  // ----- The built plan -----

  function NewStep(key: Key, kind: Kind, dependsOn: seq<Key>, request: ResourceRequest, maxAttempts: int): Step {
    Step(key, kind, dependsOn, if dependsOn == [] then Ready else Pending, 0, maxAttempts, Normalized(request))
  }

  function PlanSteps(base: ResourceRequest, includeDeploy: bool): seq<Step> {
    [ NewStep("data-preflight", DataPreflight, [], base, 2),
      NewStep("train", Train, ["data-preflight"], base, 2),
      NewStep("evaluate", Evaluate, ["train"], base, 2),
      NewStep("package", Package, ["evaluate"], base, 2) ]
    + if includeDeploy then [NewStep("deploy", Deploy, ["package"], base, 1)] else []
  }

  /** `input.steps` is not read: the plan supplies the steps. */
  method BuildPlan(input: Spec) returns (r: Result<Spec, string>)
    requires SnapshotTyped(input.parameters)
    ensures r.Ok? <==> HeaderOk(input.(schemaVersion := SCHEMA_VERSION))
    ensures r.Ok? ==> SnapshotTyped(r.value.parameters) && ValidSpec(r.value)
    ensures r.Ok? ==> r.value.steps == PlanSteps(Normalized(input.resourceRequest), input.includeDeploy)
  {
    if !RequestOk(input.resourceRequest) { return Err("resource_invalid"); }
    var base := Normalized(input.resourceRequest);
    NormalizedIsOk(input.resourceRequest);
    var spec := input.(schemaVersion := SCHEMA_VERSION, steps := PlanSteps(base, input.includeDeploy));
    PlanIsOk(base, input.includeDeploy);
    var failure := ValidateWorkflowSpec(spec);
    if failure.Some? { return Err(failure.value); }
    return Ok(spec);
  }

  function PlanKeys(includeDeploy: bool): seq<Key> {
    ["data-preflight", "train", "evaluate", "package"] + if includeDeploy then ["deploy"] else []
  }

  lemma PlanKeysAreNames(includeDeploy: bool, i: nat)
    requires i < |PlanKeys(includeDeploy)|
    ensures Trim(PlanKeys(includeDeploy)[i]) == PlanKeys(includeDeploy)[i]
    ensures NameOk(PlanKeys(includeDeploy)[i])
  {
    var key := PlanKeys(includeDeploy)[i];
    assert IsTrimmed(key) && key != [];
    Utf16LengthBound(key);
  }

  lemma {:induction false} Utf16LengthBound(s: string)
    ensures Utf16Length(s) <= 2 * |s|
  {
    if s != [] { Utf16LengthBound(s[1..]); }
  }

  lemma PlanStepAt(base: ResourceRequest, includeDeploy: bool, i: nat)
    requires i < |PlanKeys(includeDeploy)|
    ensures |PlanSteps(base, includeDeploy)| == |PlanKeys(includeDeploy)|
    ensures
      var s := PlanSteps(base, includeDeploy)[i];
      && s.key == PlanKeys(includeDeploy)[i]
      && s.dependsOn == (if i == 0 then [] else [PlanKeys(includeDeploy)[i - 1]])
      && s.attempt == 0 && s.maxAttempts == (if i == 4 then 1 else 2)
      && s.resourceRequest == Normalized(base)
      && IsFresh(s) && (s.kind == Deploy <==> i == 4)
  {
    if i == 0 {} else if i == 1 {} else if i == 2 {} else if i == 3 {} else {}
  }

  lemma PlanKeysDiffer(includeDeploy: bool, i: nat, j: nat)
    requires i < j < |PlanKeys(includeDeploy)|
    ensures PlanKeys(includeDeploy)[i] != PlanKeys(includeDeploy)[j]
  {
    var keys := PlanKeys(includeDeploy);
    assert |keys[0]| == 14 && |keys[1]| == 5 && |keys[2]| == 8 && |keys[3]| == 7;
    assert includeDeploy ==> |keys[4]| == 6;
  }

  lemma PlanNames(base: ResourceRequest, includeDeploy: bool)
    ensures UniqueTrimmed(PlanSteps(base, includeDeploy)) && UniqueKeys(PlanSteps(base, includeDeploy))
  {
    var steps := PlanSteps(base, includeDeploy);
    forall i, j | 0 <= i < j < |steps|
      ensures Trim(steps[i].key) != Trim(steps[j].key) && steps[i].key != steps[j].key
    {
      PlanStepAt(base, includeDeploy, i);
      PlanStepAt(base, includeDeploy, j);
      PlanKeysAreNames(includeDeploy, i);
      PlanKeysAreNames(includeDeploy, j);
      PlanKeysDiffer(includeDeploy, i, j);
    }
  }

  lemma PlanGraph(base: ResourceRequest, includeDeploy: bool)
    ensures Topological(ByKey(PlanSteps(base, includeDeploy)), PlanKeys(includeDeploy))
    ensures forall k :: k in ByKey(PlanSteps(base, includeDeploy)) ==> k in PlanKeys(includeDeploy)
  {
    var steps, keys := PlanSteps(base, includeDeploy), PlanKeys(includeDeploy);
    var g := ByKey(steps);
    PlanNames(base, includeDeploy);
    ByKeyUnique(steps);
    ByKeyMembers(steps);
    forall i | 0 <= i < |keys|
      ensures keys[i] in g && forall d :: d in g[keys[i]].dependsOn ==> d in keys[..i]
    {
      PlanStepAt(base, includeDeploy, i);
      if i > 0 { assert keys[..i][i - 1] == keys[i - 1]; }
    }
    forall i, j | 0 <= i < j < |keys| ensures keys[i] != keys[j] {
      PlanKeysDiffer(includeDeploy, i, j);
    }
    forall k | k in g ensures k in keys {
      var i :| 0 <= i < |steps| && steps[i] == g[k];
      PlanStepAt(base, includeDeploy, i);
    }
  }

  lemma PlanIsOk(base: ResourceRequest, includeDeploy: bool)
    requires RequestOk(base) && Normalized(base) == base
    ensures StepsOk(PlanSteps(base, includeDeploy), includeDeploy)
  {
    var steps, keys := PlanSteps(base, includeDeploy), PlanKeys(includeDeploy);
    forall i | 0 <= i < |steps| ensures StepOk(steps[i]) && (steps[i].kind == Deploy <==> i == 4) {
      PlanStepAt(base, includeDeploy, i);
      PlanKeysAreNames(includeDeploy, i);
      if i > 0 { PlanKeysDiffer(includeDeploy, i - 1, i); }
    }
    PlanNames(base, includeDeploy);
    PlanGraph(base, includeDeploy);
    TopologicalIsSound(ByKey(steps), keys);
  }

  /** A workflow built by the plan is over after at most 31 changes, 36 with a deploy step. */
  lemma PlannedRunIsFinite(base: ResourceRequest, includeDeploy: bool, run: seq<seq<Step>>)
    requires IsBusyRun(run) && run[0] == PlanSteps(base, includeDeploy)
    ensures |run| - 1 <= if includeDeploy then 36 else 31
  {
    BusyRunIsFinite(run);
    var steps := PlanSteps(base, includeDeploy);
    assert steps[1..][1..] == steps[2..] && steps[2..][1..] == steps[3..] && steps[3..][1..] == steps[4..];
    assert TotalMeasure(steps) == 7 + TotalMeasure(steps[1..]);
    assert TotalMeasure(steps[1..]) == 8 + TotalMeasure(steps[2..]);
    assert TotalMeasure(steps[2..]) == 8 + TotalMeasure(steps[3..]);
    assert TotalMeasure(steps[3..]) == 8 + TotalMeasure(steps[4..]);
    if includeDeploy {
      assert steps[4..] == [steps[4]];
    }
  }
}
