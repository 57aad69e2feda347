/** The data of an MLOps workflow: steps, their statuses and their dependencies. */
module WorkflowSpecs {
  import opened Outcomes

  type Key = string

  datatype Kind = DataPreflight | Train | Evaluate | Package | Deploy

  datatype Status = Pending | Ready | Running | Succeeded | Failed | Cancelled | Skipped

  datatype ResourceRequest = ResourceRequest(
    queue: string, cpuMillis: int, memoryMiB: int, gpuCount: int,
    gpuType: Option<string>, priority: int, timeoutSeconds: int)

  datatype Step = Step(
    key: Key, kind: Kind, dependsOn: seq<Key>, status: Status,
    attempt: int, maxAttempts: int, resourceRequest: ResourceRequest)

  /** `new Map(steps.map(step => [step.key, step]))`: a later step replaces an earlier one. */
  function ByKey(steps: seq<Step>): map<Key, Step> {
    if steps == [] then map[]
    else
      var last := steps[|steps| - 1];
      ByKey(steps[..|steps| - 1])[last.key := last]
  }

  predicate UniqueKeys(steps: seq<Step>) {
    forall i, j :: 0 <= i < j < |steps| ==> steps[i].key != steps[j].key
  }

  lemma {:induction false} ByKeyMembers(steps: seq<Step>)
    ensures forall k :: k in ByKey(steps) ==> ByKey(steps)[k] in steps && ByKey(steps)[k].key == k
    ensures forall s :: s in steps ==> s.key in ByKey(steps)
  {
    if steps != [] {
      ByKeyMembers(steps[..|steps| - 1]);
      assert steps == steps[..|steps| - 1] + [steps[|steps| - 1]];
    }
  }

  /** With unique keys the map holds every step under its own key. */
  lemma ByKeyUnique(steps: seq<Step>)
    requires UniqueKeys(steps)
    ensures forall i :: 0 <= i < |steps| ==> steps[i].key in ByKey(steps) && ByKey(steps)[steps[i].key] == steps[i]
  {
    ByKeyMembers(steps);
    forall i | 0 <= i < |steps| ensures steps[i].key in ByKey(steps) && ByKey(steps)[steps[i].key] == steps[i] {
      assert steps[i] in steps;
      var other := ByKey(steps)[steps[i].key];
      assert other in steps;
      var j :| 0 <= j < |steps| && steps[j] == other;
      assert steps[j].key == steps[i].key;
    }
  }
}
