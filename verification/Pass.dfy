/** One reconcile pass as a function of the persisted job, the cluster and the API server's replies. */
module Pass {
  import opened Types
  import opened Conditions
  import opened Pods
  import S = Services

  datatype UpdateReply = Accepted | UpdateError(applied: bool)

  /** The API server's answers during one pass. Create call i for type rt is answered by
      create(rt)(i), the delete of the k-th active listed pod by delete(k); now(i) is the clock at
      program point i. */
  datatype Replies = Replies(
    listError: bool,
    create: ReplicaType -> nat -> CreateReply,
    services: S.Replies,
    delete: nat -> DeleteReply,
    update: UpdateReply,
    now: nat -> Time)

  // The points of a pass at which the clock is read, in program order.

  const AT_CREATED := 0
  const AT_INITIALIZED := 19
  const AT_END := 20

  datatype Site = AtStart | AtRunning | AtCompletion | AtSucceeded | AtNotFailed | AtFailed

  function Point(rt: ReplicaType, s: Site): nat {
    (match rt case Scheduler => 1 case Server => 7 case Worker => 13) +
    (match s
     case AtStart => 0
     case AtRunning => 1
     case AtCompletion => 2
     case AtSucceeded => 3
     case AtNotFailed => 4
     case AtFailed => 5)
  }

  /** updateMXJobConditions. */
  function Mark(st: Status, k: CondType, reason: Reason, now: Time): Status {
    st.(conditions := Set(st.conditions, NewCondition(k, reason, now)))
  }

  /** The worker part of updateMXJobStatus. */
  function UpdateWorker(st: Status, c: Counts, replicas: int, now: nat -> Time): Status {
    var a :=
      if c.active == replicas && st.startTime.None? then st.(startTime := Some(now(Point(Worker, AtStart)))) else st;
    var b := if c.active > 0 then Mark(a, JobRunning, ReasonRunning, now(Point(Worker, AtRunning))) else a;
    if replicas - c.succeeded != 0 then b
    else
      var d :=
        if b.completionTime.None? then b.(completionTime := Some(now(Point(Worker, AtCompletion)))) else b;
      var e := Mark(d, JobSucceeded, ReasonSucceeded, now(Point(Worker, AtSucceeded)));
      e.(conditions := Retract(e.conditions, JobFailed, ReasonFailed, now(Point(Worker, AtNotFailed))))
  }

  /** updateMXJobStatus. */
  function UpdateStatus(st: Status, rt: ReplicaType, replicas: int, now: nat -> Time): Status
    requires st.Replica(rt).Some?
  {
    var c := st.Replica(rt).value;
    var w := if rt == Worker then UpdateWorker(st, c, replicas, now) else st;
    if (c.failed > 0 || c.gone > 0) && !Check(w.conditions, JobSucceeded)
    then Mark(w, JobFailed, ReasonFailed, now(Point(rt, AtFailed)))
    else w
  }

  predicate Initialized(st: Status) {
    Check(st.conditions, JobInitialized)
  }

  /** How many create calls a pass issues for a type: the shortfall, but only before the job is
      initialized. */
  function Calls(job: Job, initialized: bool, pods: seq<Pod>, rt: ReplicaType): nat {
    if !initialized && job.Replicas(rt) > Len(pods, rt) then job.Replicas(rt) - Len(pods, rt) else 0
  }

  /** The counters of a type: a shortfall counts as active before initialization, as gone after. */
  function Observe(job: Job, initialized: bool, pods: seq<Pod>, rt: ReplicaType): Counts {
    Counts(
      Num(pods, rt, Active) + Calls(job, initialized, pods, rt),
      Num(pods, rt, Succeeded),
      Num(pods, rt, Failed),
      if initialized && job.Replicas(rt) > Len(pods, rt) then job.Replicas(rt) - Len(pods, rt) else 0)
  }

  datatype Stage = Stage(ok: bool, status: Status, born: seq<Pod>, calls: nat)

  /** reconcilePods. */
  function ReconcilePods(job: Job, st: Status, pods: seq<Pod>, rt: ReplicaType, r: Replies): Stage {
    var n := Calls(job, Initialized(st), pods, rt);
    var born := Born(job, rt, r.create(rt), n);
    if Refused(r.create(rt), n) > 0 then Stage(false, st.WithReplica(rt, ZERO), born, n)
    else
      var counted := st.WithReplica(rt, Observe(job, Initialized(st), pods, rt));
      Stage(true, UpdateStatus(counted, rt, job.Replicas(rt), r.now), born, n)
  }

  function Shift(c: Counts, n: nat): Counts {
    c.(active := c.active - n, gone := c.gone + n)
  }

  function Moved(c: Option<Counts>, n: nat): Option<Counts> {
    if c.None? then None else Some(Shift(c.value, n))
  }

  /** The counters after terminateMXJob. */
  function Terminated(st: Status, pods: seq<Pod>): Status {
    st.(
      scheduler := Moved(st.scheduler, Num(pods, Scheduler, Active)),
      server := Moved(st.server, Num(pods, Server, Active)),
      worker := Moved(st.worker, Num(pods, Worker, Active)))
  }

  datatype End = Skipped | Aborted | TerminateFailed | UpdateFailed(applied: bool) | Unchanged | Updated

  /** What a pass leaves behind: the status in memory, the persisted status, the cluster, the calls
      and the hooks it issued with the status they carried. */
  datatype Record = Record(
    end: End, live: Status, saved: Status, pods: seq<Pod>, services: seq<S.Service>,
    creates: nat, serviceCreates: nat, deletes: nat,
    startHook: Option<Status>, finishHook: Option<Status>)

  /** The tail of reconcileMXJobs: compare and write. */
  function Save(rec: Record, before: Status, reply: UpdateReply): Record {
    if rec.live == before then rec.(end := Unchanged)
    else match reply
         case Accepted => rec.(end := Updated, saved := rec.live)
         case UpdateError(applied) =>
           rec.(end := UpdateFailed(applied), saved := if applied then rec.live else rec.saved)
  }

  function Stop(rec: Record): Record {
    rec.(end := Aborted)
  }

  /** The job is initialized once all its sub-resources exist. */
  function Begun(st: Status, now: Time): Status {
    if Initialized(st) then st else Mark(st, JobInitialized, ReasonInitialized, now)
  }

  /** Everything reconcileMXJobs does once all pods and services are reconciled. */
  function Conclude(rec: Record, before: Status, snapshot: seq<Pod>, born: seq<Pod>, r: Replies): Record {
    var st := Begun(rec.live, r.now(AT_INITIALIZED));
    var started := rec.(live := st, startHook := if Initialized(rec.live) then None else Some(st));
    if !IsJobFinished(st.conditions) then Save(started, before, r.update)
    else
      var n := |ActivePods(snapshot)|;
      var t := started.(live := Terminated(st, snapshot), pods := Survivors(snapshot, r.delete) + born, deletes := n);
      if Undeleted(r.delete, n) > 0 then t.(end := TerminateFailed)
      else Save(t.(finishHook := Some(t.live)), before, r.update)
  }

  /** reconcileMXJobs from the server's pods on; `a` are the scheduler pods just created. */
  function Rest(job: Job, rec: Record, before: Status, a: seq<Pod>, pods: seq<Pod>, r: Replies): Record {
    var b := ReconcilePods(job, rec.live, pods, Server, r);
    var recB := rec.(live := b.status, pods := pods + (a + b.born), creates := rec.creates + b.calls);
    if !b.ok then Stop(recB)
    else
      var c := ReconcilePods(job, b.status, pods, Worker, r);
      var born := a + b.born + c.born;
      var recC := recB.(live := c.status, pods := pods + born, creates := recB.creates + c.calls);
      if !c.ok then Stop(recC) else Conclude(recC, before, pods, born, r)
  }

  /** reconcileMXJobs, from the status in memory at its start. */
  function Reconcile(
    job: Job, saved: Status, st: Status, pods: seq<Pod>, services: seq<S.Service>, r: Replies): Record
  {
    var zero := Record(Aborted, st, saved, pods, services, 0, 0, 0, None, None);
    if r.listError then zero
    else
      var a := ReconcilePods(job, st, pods, Scheduler, r);
      var recA := zero.(live := a.status, pods := pods + a.born, creates := a.calls);
      if !a.ok then Stop(recA)
      else
        var sv := S.Reconcile(job, services, r.services);
        var recS := recA.(services := sv.services, serviceCreates := sv.creates);
        if !sv.ok then Stop(recS) else Rest(job, recS, st, a.born, pods, r)
  }

  /** The status in memory after Sync's first step. */
  function Noted(st: Status, now: Time): Status {
    if Check(st.conditions, JobCreated) then st else Mark(st, JobCreated, ReasonCreated, now)
  }

  /** Sync, for a job that is neither deleted nor pending deletion. */
  function Sync(job: Job, saved: Status, pods: seq<Pod>, services: seq<S.Service>, r: Replies): Record {
    var st := Noted(saved, r.now(AT_CREATED));
    if IsJobFinished(st.conditions) then Record(Skipped, st, saved, pods, services, 0, 0, 0, None, None)
    else Reconcile(job, saved, st, pods, services, r)
  }
}
