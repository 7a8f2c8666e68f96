/** Where a pass stops, stated on the cluster and on the API server's replies: the errors that
    reconcileMXJobs returns before it concludes. */
module Aborts {
  import opened Types
  import opened Conditions
  import opened Pods
  import opened Pass
  import opened Verdicts
  import opened Counters
  import opened Runs
  import S = Services
  import opened Claims

  datatype Stop = Nowhere | AtListing | AtPods(rt: ReplicaType) | AtServices

  /** The replicas the user asked for. */
  function Wanted(job: Job, rt: ReplicaType): int {
    match rt
    case Scheduler => job.scheduler.replicas
    case Server => job.server.replicas
    case Worker => job.worker.replicas
  }

  /** How many pods of a type a pass creates: the missing ones, but none once initialized. */
  function Shortfall(job: Job, initialized: bool, pods: seq<Pod>, rt: ReplicaType): nat {
    if initialized then 0 else Max(Wanted(job, rt) - Len(pods, rt), 0)
  }

  /** One of the creates a type needs is answered with an error; a timeout is none. */
  ghost predicate CreateFails(job: Job, initialized: bool, pods: seq<Pod>, rt: ReplicaType, r: Replies) {
    exists k :: 0 <= k < Shortfall(job, initialized, pods, rt) && r.create(rt)(k).CreateError?
  }

  /** The services cannot be listed, one of them cannot be released or adopted, or none is usable and
      creating one is answered with an error. */
  ghost predicate ServicesFail(job: Job, services: seq<S.Service>, r: S.Replies) {
    var q := S.ClaimRequest(job, r);
    || r.listError
    || (exists i: nat :: i < |services| && FailsAt(q, services[i], r.patch(i)))
    || (S.CountUsable(job, S.ClaimAll(q, services).after) == 0 && r.create.CreateError?)
  }

  /** The first thing that goes wrong. */
  ghost function StopsAt(job: Job, saved: Status, pods: seq<Pod>, services: seq<S.Service>, r: Replies): Stop {
    var i := Initialized(saved);
    if r.listError then AtListing
    else if CreateFails(job, i, pods, Scheduler, r) then AtPods(Scheduler)
    else if ServicesFail(job, services, r.services) then AtServices
    else if CreateFails(job, i, pods, Server, r) then AtPods(Server)
    else if CreateFails(job, i, pods, Worker, r) then AtPods(Worker)
    else Nowhere
  }

  lemma {:induction false} RefusedIff(create: nat -> CreateReply, n: nat)
    ensures Refused(create, n) > 0 <==> exists k :: 0 <= k < n && create(k).CreateError?
  {
    if n > 0 {
      RefusedIff(create, n - 1);
    }
  }

  lemma CallsAreShortfall(job: Job, initialized: bool, pods: seq<Pod>, rt: ReplicaType, r: Replies)
    ensures Calls(job, initialized, pods, rt) == Shortfall(job, initialized, pods, rt)
    ensures Refused(r.create(rt), Calls(job, initialized, pods, rt)) > 0 <==> CreateFails(job, initialized, pods, rt, r)
  {
    hide Len;
    RefusedIff(r.create(rt), Calls(job, initialized, pods, rt));
  }

  lemma ServicesStop(job: Job, services: seq<S.Service>, r: S.Replies)
    ensures S.Reconcile(job, services, r).ok <==> !ServicesFail(job, services, r)
  {
    hide S.ClaimAll, S.CountUsable, FailsAt;
    ErrorsExactly(S.ClaimRequest(job, r), services);
    S.ClaimingUsable(job, r, services);
  }

  /** The pods made for a type. */
  function Made(job: Job, saved: Status, pods: seq<Pod>, rt: ReplicaType, r: Replies): seq<Pod> {
    Born(job, rt, r.create(rt), Shortfall(job, Initialized(saved), pods, rt))
  }

  /** What a pass that stops has done: only the stages before, and the one it stopped in. */
  ghost predicate Undone(
    job: Job, saved: Status, pods: seq<Pod>, services: seq<S.Service>, r: Replies, at: Stop, rec: Record)
  {
    var i := Initialized(saved);
    var a, b, c :=
      Made(job, saved, pods, Scheduler, r), Made(job, saved, pods, Server, r), Made(job, saved, pods, Worker, r);
    var x, y, z :=
      Shortfall(job, i, pods, Scheduler), Shortfall(job, i, pods, Server), Shortfall(job, i, pods, Worker);
    var sv := S.Reconcile(job, services, r.services);
    match at
    case Nowhere => true
    case AtListing => rec.pods == pods && rec.services == services && rec.creates == 0 && rec.serviceCreates == 0
    case AtServices =>
      rec.pods == pods + a && rec.services == sv.services && rec.creates == x && rec.serviceCreates == sv.creates
    case AtPods(Scheduler) =>
      rec.pods == pods + a && rec.services == services && rec.creates == x && rec.serviceCreates == 0
    case AtPods(Server) =>
      && rec.pods == pods + (a + b) && rec.services == sv.services
      && rec.creates == x + y && rec.serviceCreates == sv.creates
    case AtPods(Worker) =>
      && rec.pods == pods + (a + b + c) && rec.services == sv.services
      && rec.creates == x + y + z && rec.serviceCreates == sv.creates
  }

  /** A pass over an unfinished job is cut short exactly if the pods cannot be listed, a create it needs
      is answered with an error, or its services cannot be reconciled; then it has done what comes
      before and nothing else, and has issued no hook and kept the persisted status. */
  lemma StopsExactly(job: Job, saved: Status, pods: seq<Pod>, services: seq<S.Service>, r: Replies)
    requires !IsJobFinished(saved.conditions)
    ensures var rec, at := Sync(job, saved, pods, services, r), StopsAt(job, saved, pods, services, r);
            && (rec.end == Aborted <==> at != Nowhere)
            && Undone(job, saved, pods, services, r, at, rec)
            && (at != Nowhere ==>
                  rec.saved == saved && rec.startHook.None? && rec.finishHook.None? && rec.deletes == 0)
            && (at == Nowhere ==>
                  rec.creates == Shortfall(job, Initialized(saved), pods, Scheduler) +
                                 Shortfall(job, Initialized(saved), pods, Server) +
                                 Shortfall(job, Initialized(saved), pods, Worker))
  {
    hide Check, ReconcilePods, Counted, Sound, IsJobFinished, Calls, S.Reconcile, Conclude, Born, Refused, Noted,
         CreateFails, ServicesFail, Shortfall;
    var st := Noted(saved, r.now(AT_CREATED));
    NotedEffect(saved, r.now(AT_CREATED));
    UnfinishedIsSound(st.conditions);
    UnfinishedNotSucceeded(st.conditions);
    var i := Initialized(saved);
    var a := Counted(job, st, pods, Scheduler, r.now);
    StageEffect(job, st, pods, Scheduler, r);
    CountedStays(job, st, pods, Scheduler, r.now);
    StageEffect(job, a, pods, Server, r);
    var b := Counted(job, a, pods, Server, r.now);
    CountedStays(job, a, pods, Server, r.now);
    StageEffect(job, b, pods, Worker, r);
    CallsAreShortfall(job, i, pods, Scheduler, r);
    CallsAreShortfall(job, i, pods, Server, r);
    CallsAreShortfall(job, i, pods, Worker, r);
    ServicesStop(job, services, r.services);
    ConcludeNotAborted(st, pods, r);
    SyncEffect(job, saved, pods, services, r);
  }
}
