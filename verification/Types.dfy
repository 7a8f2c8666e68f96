/** The values the operator works on: pods, the job description and the job status. */
module Types {

  datatype Option<+T> = None | Some(value: T)

  /** A clock reading. */
  type Time = nat

  const MAX_INT32 := 0x7FFF_FFFF

  datatype ReplicaType = Scheduler | Server | Worker

  datatype Phase = PodPending | PodRunning | PodSucceeded | PodFailed | PodUnknown

  /** `deleting` stands for a non-nil deletion timestamp. */
  datatype Pod = Pod(labels: map<string, string>, phase: Phase, deleting: bool)

  datatype ReplicaSpec = ReplicaSpec(
    replicas: int, labels: map<string, string>, psRootPort: Option<int>, psVerbose: Option<int>)

  /** The part of an MXJob its user writes; all three replica specs are present. */
  datatype Job = Job(
    name: string, uid: string, scheduler: ReplicaSpec, server: ReplicaSpec, worker: ReplicaSpec)
  {
    function Spec(rt: ReplicaType): ReplicaSpec {
      match rt
      case Scheduler => scheduler
      case Server => server
      case Worker => worker
    }

    function Replicas(rt: ReplicaType): int {
      Spec(rt).replicas
    }

    /** The bounds the custom resource definition puts on the replica counts. */
    predicate Valid() {
      forall rt :: 1 <= Replicas(rt) <= MAX_INT32
    }
  }

  datatype CondType = JobCreated | JobInitialized | JobRunning | JobRestarting | JobSucceeded | JobFailed

  datatype CondStatus = ConditionTrue | ConditionFalse | ConditionUnknown

  datatype Reason = ReasonCreated | ReasonInitialized | ReasonSucceeded | ReasonRunning | ReasonFailed

  datatype Condition = Condition(
    kind: CondType, status: CondStatus, reason: Reason, lastUpdate: Time, lastTransition: Time)

  datatype Counts = Counts(active: int, succeeded: int, failed: int, gone: int)

  const ZERO := Counts(0, 0, 0, 0)

  datatype Status = Status(
    scheduler: Option<Counts>, server: Option<Counts>, worker: Option<Counts>,
    startTime: Option<Time>, completionTime: Option<Time>,
    conditions: seq<Condition>)
  {
    function Replica(rt: ReplicaType): Option<Counts> {
      match rt
      case Scheduler => scheduler
      case Server => server
      case Worker => worker
    }

    function WithReplica(rt: ReplicaType, c: Counts): Status {
      match rt
      case Scheduler => this.(scheduler := Some(c))
      case Server => this.(server := Some(c))
      case Worker => this.(worker := Some(c))
    }
  }

  const EMPTY_STATUS := Status(None, None, None, None, None, [])
}
