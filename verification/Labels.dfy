/** The labels that tie pods and services to a job and to a replica type. */
module Labels {
  import opened Types

  const REPLICA_TYPE_LABEL := "mx-replica-type"
  const JOB_NAME_LABEL := "mxjob-name"
  const GROUP_NAME_LABEL := "group-name"
  const GROUP := "ava.qiniu.com"

  type LabelSet = map<string, string>

  function TypeName(rt: ReplicaType): string {
    match rt
    case Scheduler => "scheduler"
    case Server => "server"
    case Worker => "worker"
  }

  /** The job's labels; without a replica type they are the selector the job claims with. */
  function GenLabels(job: Job, rt: Option<ReplicaType>): LabelSet {
    var common := map[GROUP_NAME_LABEL := GROUP, JOB_NAME_LABEL := job.name];
    if rt.Some? then common[REPLICA_TYPE_LABEL := TypeName(rt.value)] else common
  }

  predicate Matches(selector: LabelSet, labels: LabelSet) {
    forall k :: k in selector ==> k in labels && labels[k] == selector[k]
  }

  /** The replica type the label switch of termination assigns to a pod. */
  function RoleOf(labels: LabelSet): Option<ReplicaType> {
    if REPLICA_TYPE_LABEL !in labels then None
    else
      var name := labels[REPLICA_TYPE_LABEL];
      if name == TypeName(Scheduler) then Some(Scheduler)
      else if name == TypeName(Server) then Some(Server)
      else if name == TypeName(Worker) then Some(Worker)
      else None
  }

  function Role(p: Pod): Option<ReplicaType> {
    RoleOf(p.labels)
  }

  /** A pod made from the user's template: the job's labels win over the template's. */
  function NewPod(job: Job, rt: ReplicaType): Pod {
    Pod(job.Spec(rt).labels + GenLabels(job, Some(rt)), PodPending, false)
  }

  lemma TypeNamesDiffer(a: ReplicaType, b: ReplicaType)
    requires TypeName(a) == TypeName(b)
    ensures a == b
  {
    assert |TypeName(Scheduler)| == 9 && |TypeName(Server)| == 6 && |TypeName(Worker)| == 6;
    assert TypeName(Server)[0] == 's' && TypeName(Worker)[0] == 'w';
  }

  /** The selector used when counting pods and the switch used when terminating agree on every
      pod, whatever its labels. */
  lemma SelectorAgreesWithSwitch(p: Pod, rt: ReplicaType)
    ensures Matches(map[REPLICA_TYPE_LABEL := TypeName(rt)], p.labels) <==> Role(p) == Some(rt)
  {
    var selector := map[REPLICA_TYPE_LABEL := TypeName(rt)];
    assert Matches(selector, p.labels) <==>
      REPLICA_TYPE_LABEL in p.labels && p.labels[REPLICA_TYPE_LABEL] == TypeName(rt) by
    {
      assert REPLICA_TYPE_LABEL in selector;
    }
    forall a, b: ReplicaType | TypeName(a) == TypeName(b) ensures a == b {
      TypeNamesDiffer(a, b);
    }
  }

  /** Whatever labels the user's template carries, a new pod is claimed by its own job, counted
      under its own replica type and under no other. */
  lemma LabelRoundTrip(job: Job, rt: ReplicaType, other: ReplicaType)
    ensures Matches(GenLabels(job, None), NewPod(job, rt).labels)
    ensures Role(NewPod(job, rt)) == Some(rt)
    ensures Matches(map[REPLICA_TYPE_LABEL := TypeName(other)], NewPod(job, rt).labels) <==> other == rt
  {
    var p := NewPod(job, rt);
    assert p.labels[REPLICA_TYPE_LABEL] == TypeName(rt);
    assert |GROUP_NAME_LABEL| == 10 && |REPLICA_TYPE_LABEL| == 15 && JOB_NAME_LABEL[0] != GROUP_NAME_LABEL[0];
    SelectorAgreesWithSwitch(p, other);
    SelectorAgreesWithSwitch(p, rt);
    assert Matches(map[REPLICA_TYPE_LABEL := TypeName(rt)], p.labels);
  }

  /** The pods of a replica type, in listing order. */
  function OfType(pods: seq<Pod>, rt: ReplicaType): seq<Pod> {
    if pods == [] then []
    else
      var front, last := pods[..|pods| - 1], pods[|pods| - 1];
      if Role(last) == Some(rt) then OfType(front, rt) + [last] else OfType(front, rt)
  }

  method FilterPodsForReplicaType(pods: seq<Pod>, rt: ReplicaType) returns (result: seq<Pod>)
    ensures result == OfType(pods, rt)
  {
    result := [];
    var selector := map[REPLICA_TYPE_LABEL := TypeName(rt)];
    for i := 0 to |pods|
      invariant result == OfType(pods[..i], rt)
    {
      assert pods[..i + 1][..i] == pods[..i];
      SelectorAgreesWithSwitch(pods[i], rt);
      if !Matches(selector, pods[i].labels) {
        continue;
      }
      result := result + [pods[i]];
    }
    assert pods[..|pods|] == pods;
  }
}
