/** Sync and reconcileMXJobs as the controller runs them, over a cluster that keeps what is persisted. */
module Handler {
  import opened Types
  import C = Conditions
  import P = Pods
  import S = Services
  import opened Live
  import Pass
  import Runs

  /** What the API server and the clock keep between passes. */
  class Cluster {
    var status: Status
    var pods: seq<Pod>
    var services: seq<S.Service>
    var pending: bool
    var clock: Time
    var history: seq<Pass.Record>

    function View(): Runs.State
      reads this
    {
      Runs.State(status, pods, services, pending, clock, history)
    }
  }

  /** The end of a pass: initialize, terminate, compare with the snapshot, write. The snapshot still
      holds the status the pass started from, although the counters are changed in place. */
  method Conclude(
    live: JobStatus, before: JobStatus, rec: Pass.Record, snapshot: seq<Pod>, born: seq<Pod>, r: Pass.Replies)
    returns (out: Pass.Record)
    requires live.Valid() && live.Value() == rec.live
    requires live.scheduler != null && live.server != null && live.worker != null
    requires {live, live.scheduler, live.server, live.worker} !! before.Cells()
    modifies live, live.scheduler, live.server, live.worker
    ensures out == Pass.Conclude(rec, old(before.Value()), snapshot, born, r)
    ensures before.Value() == old(before.Value())
  {
    hide C.IsJobFinished, Pass.Begun, Pass.Initialized, Pass.Terminated, P.Survivors, P.ActivePods, P.Undeleted,
      JobStatus.Value, JobStatus.Valid;
    var first := live.Begin(r.now(Pass.AT_INITIALIZED));
    out := rec.(live := live.Value(), startHook := if first then Some(live.Value()) else None);
    var finished := live.Finished();
    if finished {
      var failed := live.Terminate(snapshot, r.delete);
      out := out.(
        live := live.Value(), pods := P.Survivors(snapshot, r.delete) + born, deletes := |P.ActivePods(snapshot)|);
      if failed {
        return out.(end := Pass.TerminateFailed);
      }
      out := out.(finishHook := Some(live.Value()));
    }
    out := Pass.Save(out, before.Value(), r.update);
  }

  /** reconcileMXJobs from the server's pods on. */
  method Rest(
    job: Job, live: JobStatus, before: JobStatus, rec: Pass.Record, a: seq<Pod>, pods: seq<Pod>, r: Pass.Replies)
    returns (out: Pass.Record)
    requires live.Valid() && live.Value() == rec.live
    requires live.scheduler != null && {live, live.scheduler} !! before.Cells()
    requires rec.end == Pass.Aborted
    modifies live, live.scheduler
    ensures out == Pass.Rest(job, rec, old(before.Value()), a, pods, r)
  {
    hide Pass.ReconcilePods, Pass.Conclude, JobStatus.Value, JobStatus.Valid;
    var ok, b, k := live.ReconcilePods(job, pods, Server, r);
    assert live.Cell(Scheduler) == live.scheduler && live.Cell(Server) == live.server;
    assert before.Value() == old(before.Value());
    out := rec.(live := live.Value(), pods := pods + (a + b), creates := rec.creates + k);
    if !ok {
      return;
    }
    var c, l;
    ok, c, l := live.ReconcilePods(job, pods, Worker, r);
    assert live.Cell(Server) == live.server && live.Cell(Worker) == live.worker;
    assert before.Value() == old(before.Value());
    out := out.(live := live.Value(), pods := pods + (a + b + c), creates := out.creates + l);
    if !ok {
      return;
    }
    out := Conclude(live, before, out, pods, a + b + c, r);
  }

  /** reconcileMXJobs once the snapshot is taken. */
  method FromSnapshot(
    job: Job, live: JobStatus, before: JobStatus, saved: Status, pods: seq<Pod>, services: seq<S.Service>,
    r: Pass.Replies)
    returns (rec: Pass.Record)
    requires live.Valid() && live !in before.Cells() && before.Value() == live.Value() && !r.listError
    modifies live
    ensures rec == Pass.Reconcile(job, saved, old(live.Value()), pods, services, r)
  {
    hide Pass.ReconcilePods, S.Reconcile, Pass.Rest, JobStatus.Value, JobStatus.Valid;
    var ok, a, n := live.ReconcilePods(job, pods, Scheduler, r);
    assert live.Cell(Scheduler) == live.scheduler;
    assert before.Value() == old(before.Value());
    rec := Pass.Record(Pass.Aborted, live.Value(), saved, pods + a, services, n, 0, 0, None, None);
    if !ok {
      return;
    }
    var done, after, m := S.ReconcileServices(job, services, r.services);
    rec := rec.(services := after, serviceCreates := m);
    if done {
      rec := Rest(job, live, before, rec, a, pods, r);
    }
  }

  /** reconcileMXJobs. */
  method Reconcile(
    job: Job, live: JobStatus, saved: Status, pods: seq<Pod>, services: seq<S.Service>, r: Pass.Replies)
    returns (rec: Pass.Record)
    requires live.Valid()
    modifies live
    ensures rec == Pass.Reconcile(job, saved, old(live.Value()), pods, services, r)
  {
    hide Pass.ReconcilePods, S.Reconcile, Pass.Rest, JobStatus.Value, JobStatus.Valid;
    if r.listError {
      return Pass.Record(Pass.Aborted, live.Value(), saved, pods, services, 0, 0, 0, None, None);
    }
    var before := live.DeepCopy();
    rec := FromSnapshot(job, live, before, saved, pods, services, r);
  }

  /** Sync's first step, on a fresh copy of the persisted job. */
  method Load(saved: Status, now: Time) returns (live: JobStatus)
    ensures fresh(live) && live.Valid() && live.Value() == Pass.Noted(saved, now)
  {
    hide C.Set;
    live := new JobStatus(saved);
    var created := live.Has(JobCreated);
    if !created {
      live.Mark(JobCreated, ReasonCreated, now);
    }
  }

  /** Sync: one pass over a fresh copy of the persisted job is one step of a run, so everything proved
      of runs holds of this code. */
  method Sync(job: Job, cluster: Cluster, r: Pass.Replies)
    modifies cluster
    ensures cluster.View() == Runs.Apply(job, old(cluster.View()), Runs.SyncStep(r))
  {
    hide C.IsJobFinished, Pass.Reconcile, Pass.Noted, JobStatus.Value, JobStatus.Valid;
    if cluster.pending {
      // The finalizer path reads the status and leaves it alone.
      return;
    }
    var live := Load(cluster.status, r.now(Pass.AT_CREATED));
    var rec;
    var finished := live.Finished();
    if finished {
      rec := Pass.Record(
        Pass.Skipped, live.Value(), cluster.status, cluster.pods, cluster.services, 0, 0, 0, None, None);
    } else {
      rec := Reconcile(job, live, cluster.status, cluster.pods, cluster.services, r);
    }
    cluster.status, cluster.pods, cluster.services := rec.saved, rec.pods, rec.services;
    cluster.clock, cluster.history := r.now(Pass.AT_END), cluster.history + [rec];
  }
}
