/** What one pass decides, counts and writes, for every persisted status and every cluster. */
module Verdicts {
  import opened Types
  import opened Conditions
  import opened Pods
  import opened Pass
  import S = Services

  datatype Verdict = Undecided | Success | Failure

  /** Some replica of the type has failed, or has gone missing after initialization. */
  predicate Broken(job: Job, initialized: bool, pods: seq<Pod>, rt: ReplicaType) {
    Num(pods, rt, Failed) > 0 || (initialized && job.Replicas(rt) > Len(pods, rt))
  }

  /** The reference definition of a job's verdict: all workers succeeded, or else something broke. */
  function Judge(job: Job, initialized: bool, pods: seq<Pod>): Verdict {
    if Num(pods, Worker, Succeeded) == job.Replicas(Worker) then Success
    else if exists rt :: Broken(job, initialized, pods, rt) then Failure
    else Undecided
  }

  /** The verdict a status carries. */
  function Carried(cs: List): Verdict {
    if Check(cs, JobSucceeded) then Success else if Check(cs, JobFailed) then Failure else Undecided
  }

  /** On these two types the any-match and the first-match tests agree. */
  predicate Sound(cs: List) {
    && (Holds(cs, JobSucceeded) <==> Check(cs, JobSucceeded))
    && (Holds(cs, JobFailed) <==> Check(cs, JobFailed))
  }

  lemma UnfinishedIsSound(cs: List)
    ensures IsJobFinished(cs) <==> Holds(cs, JobSucceeded) || Holds(cs, JobFailed)
    ensures !IsJobFinished(cs) ==> Sound(cs) && Carried(cs) == Undecided
    ensures Sound(cs) ==> (IsJobFinished(cs) <==> Carried(cs) != Undecided)
  {
  }

  predicate Touched(k: CondType) {
    k == JobRunning || k == JobSucceeded || k == JobFailed
  }

  lemma MarkEffect(st: Status, k: CondType, reason: Reason, now: Time)
    ensures var u := Mark(st, k, reason, now);
            && u == st.(conditions := u.conditions)
            && (forall o :: o != k ==> Get(u.conditions, o) == Get(st.conditions, o))
            && Check(u.conditions, k) && Get(u.conditions, k).value.reason == reason
            && (Sound(st.conditions) ==> Sound(u.conditions))
  {
    hide Get, Set, Holds;
    SetEffect(st.conditions, NewCondition(k, reason, now));
  }

  lemma UnmarkEffect(st: Status, now: Time)
    requires Sound(st.conditions)
    ensures var cs := Retract(st.conditions, JobFailed, ReasonFailed, now);
            && (forall o :: o != JobFailed ==> Get(cs, o) == Get(st.conditions, o))
            && !Check(cs, JobFailed) && Sound(cs)
  {
    hide Get, Retract, Holds;
    RetractEffect(st.conditions, JobFailed, ReasonFailed, now);
  }

  lemma WorkerEffect(st: Status, c: Counts, replicas: int, now: nat -> Time)
    requires Sound(st.conditions) && !Check(st.conditions, JobSucceeded)
    ensures var u := UpdateWorker(st, c, replicas, now);
            && (forall t :: u.Replica(t) == st.Replica(t))
            && (forall k :: !Touched(k) ==> Get(u.conditions, k) == Get(st.conditions, k))
            && Sound(u.conditions)
            && (Check(u.conditions, JobSucceeded) <==> c.succeeded == replicas)
            && (c.succeeded == replicas ==> !Check(u.conditions, JobFailed))
            && (c.succeeded != replicas ==> Get(u.conditions, JobFailed) == Get(st.conditions, JobFailed))
            && (c.active > 0 ==>
                  Check(u.conditions, JobRunning) && Get(u.conditions, JobRunning).value.reason == ReasonRunning)
            && (c.active <= 0 ==> Get(u.conditions, JobRunning) == Get(st.conditions, JobRunning))
            && (c.active == replicas ==> u.startTime.Some?)
  {
    hide Get, Mark, Retract, Sound;
    var a :=
      if c.active == replicas && st.startTime.None? then st.(startTime := Some(now(Point(Worker, AtStart)))) else st;
    MarkEffect(a, JobRunning, ReasonRunning, now(Point(Worker, AtRunning)));
    var b := if c.active > 0 then Mark(a, JobRunning, ReasonRunning, now(Point(Worker, AtRunning))) else a;
    var d := if b.completionTime.None? then b.(completionTime := Some(now(Point(Worker, AtCompletion)))) else b;
    MarkEffect(d, JobSucceeded, ReasonSucceeded, now(Point(Worker, AtSucceeded)));
    var e := Mark(d, JobSucceeded, ReasonSucceeded, now(Point(Worker, AtSucceeded)));
    UnmarkEffect(e, now(Point(Worker, AtNotFailed)));
  }

  lemma UpdateEffect(st: Status, rt: ReplicaType, replicas: int, now: nat -> Time)
    requires st.Replica(rt).Some?
    requires Sound(st.conditions) && !Check(st.conditions, JobSucceeded)
    ensures var c, u := st.Replica(rt).value, UpdateStatus(st, rt, replicas, now);
            && (forall t :: u.Replica(t) == st.Replica(t))
            && (forall k :: !Touched(k) ==> Get(u.conditions, k) == Get(st.conditions, k))
            && Sound(u.conditions)
            && (Check(u.conditions, JobSucceeded) <==> rt == Worker && c.succeeded == replicas)
            && (Check(u.conditions, JobFailed) <==>
                !Check(u.conditions, JobSucceeded) && (Check(st.conditions, JobFailed) || c.failed > 0 || c.gone > 0))
            && (rt == Worker && c.active > 0 ==>
                  Check(u.conditions, JobRunning) && Get(u.conditions, JobRunning).value.reason == ReasonRunning)
            && (rt != Worker || c.active <= 0 ==> Get(u.conditions, JobRunning) == Get(st.conditions, JobRunning))
            && (rt == Worker && c.active == replicas ==> u.startTime.Some?)
  {
    hide Get, Mark, UpdateWorker, Sound;
    var c := st.Replica(rt).value;
    if rt == Worker {
      WorkerEffect(st, c, replicas, now);
    }
    var w := if rt == Worker then UpdateWorker(st, c, replicas, now) else st;
    MarkEffect(w, JobFailed, ReasonFailed, now(Point(rt, AtFailed)));
  }

  /** reconcilePods for one type, when no create call fails. */
  function Counted(job: Job, st: Status, pods: seq<Pod>, rt: ReplicaType, now: nat -> Time): Status {
    UpdateStatus(st.WithReplica(rt, Observe(job, Initialized(st), pods, rt)), rt, job.Replicas(rt), now)
  }

  /** The three calls in order. */
  function Settled(job: Job, st: Status, pods: seq<Pod>, now: nat -> Time): Status {
    Counted(job, Counted(job, Counted(job, st, pods, Scheduler, now), pods, Server, now), pods, Worker, now)
  }

  lemma CountedEffect(job: Job, st: Status, pods: seq<Pod>, rt: ReplicaType, now: nat -> Time)
    requires Sound(st.conditions) && !Check(st.conditions, JobSucceeded)
    ensures var c, u := Observe(job, Initialized(st), pods, rt), Counted(job, st, pods, rt, now);
            && u.Replica(rt) == Some(c)
            && (forall t :: t != rt ==> u.Replica(t) == st.Replica(t))
            && (forall k :: !Touched(k) ==> Get(u.conditions, k) == Get(st.conditions, k))
            && Sound(u.conditions)
            && (Check(u.conditions, JobSucceeded) <==> rt == Worker && Num(pods, rt, Succeeded) == job.Replicas(rt))
            && (Check(u.conditions, JobFailed) <==>
                && !Check(u.conditions, JobSucceeded)
                && (Check(st.conditions, JobFailed) || Broken(job, Initialized(st), pods, rt)))
            && (rt == Worker && c.active > 0 ==>
                  Check(u.conditions, JobRunning) && Get(u.conditions, JobRunning).value.reason == ReasonRunning)
            && (rt != Worker || c.active <= 0 ==> Get(u.conditions, JobRunning) == Get(st.conditions, JobRunning))
            && (rt == Worker && c.active == job.Replicas(rt) ==> u.startTime.Some?)
  {
    hide Get, UpdateStatus, Sound, Len, Num;
    UpdateEffect(st.WithReplica(rt, Observe(job, Initialized(st), pods, rt)), rt, job.Replicas(rt), now);
  }

  /** Although the scheduler and the server may first set Failed and the worker may retract it, the
      status after the three calls carries exactly the reference verdict. */
  lemma SettledEffect(job: Job, st: Status, pods: seq<Pod>, now: nat -> Time)
    requires !IsJobFinished(st.conditions)
    ensures var u := Settled(job, st, pods, now);
            && (forall rt :: u.Replica(rt) == Some(Observe(job, Initialized(st), pods, rt)))
            && (forall k :: !Touched(k) ==> Get(u.conditions, k) == Get(st.conditions, k))
            && Sound(u.conditions)
            && Carried(u.conditions) == Judge(job, Initialized(st), pods)
            && !(Check(u.conditions, JobSucceeded) && Check(u.conditions, JobFailed))
            && (Observe(job, Initialized(st), pods, Worker).active > 0 ==>
                  Check(u.conditions, JobRunning) && Get(u.conditions, JobRunning).value.reason == ReasonRunning)
            && (Observe(job, Initialized(st), pods, Worker).active <= 0 ==>
                  Get(u.conditions, JobRunning) == Get(st.conditions, JobRunning))
            && (Observe(job, Initialized(st), pods, Worker).active == job.Replicas(Worker) ==> u.startTime.Some?)
  {
    hide Get, Counted, Sound, IsJobFinished, Observe, Len, Num;
    UnfinishedIsSound(st.conditions);
    var a := Counted(job, st, pods, Scheduler, now);
    CountedEffect(job, st, pods, Scheduler, now);
    var b := Counted(job, a, pods, Server, now);
    CountedEffect(job, a, pods, Server, now);
    var c := Counted(job, b, pods, Worker, now);
    CountedEffect(job, b, pods, Worker, now);
    assert Initialized(a) == Initialized(st) && Initialized(b) == Initialized(st);
    var i := Initialized(st);
    assert (exists rt :: Broken(job, i, pods, rt)) <==>
      Broken(job, i, pods, Scheduler) || Broken(job, i, pods, Server) || Broken(job, i, pods, Worker) by
    {
      if rt :| Broken(job, i, pods, rt) {
        assert rt == Scheduler || rt == Server || rt == Worker;
      }
    }
  }

  /** The pods a pass creates when it is not cut short. */
  function AllBorn(job: Job, initialized: bool, pods: seq<Pod>, r: Replies): seq<Pod> {
    Born(job, Scheduler, r.create(Scheduler), Calls(job, initialized, pods, Scheduler)) +
    Born(job, Server, r.create(Server), Calls(job, initialized, pods, Server)) +
    Born(job, Worker, r.create(Worker), Calls(job, initialized, pods, Worker))
  }

  function AllCalls(job: Job, initialized: bool, pods: seq<Pod>): nat {
    Calls(job, initialized, pods, Scheduler) +
    Calls(job, initialized, pods, Server) +
    Calls(job, initialized, pods, Worker)
  }

  /** One stage of a pass. */
  lemma StageEffect(job: Job, st: Status, pods: seq<Pod>, rt: ReplicaType, r: Replies)
    ensures var g := ReconcilePods(job, st, pods, rt, r);
            && g.calls == Calls(job, Initialized(st), pods, rt)
            && g.born == Born(job, rt, r.create(rt), g.calls)
            && (g.ok <==> Refused(r.create(rt), g.calls) == 0)
            && (g.ok ==> g.status == Counted(job, st, pods, rt, r.now))
  {
    hide Get, UpdateStatus, Observe, Calls, Born, Refused, Sound;
  }

  /** A pass that is not aborted is the three counted calls followed by the conclusion. */
  lemma PassShape(job: Job, saved: Status, st: Status, pods: seq<Pod>, services: seq<S.Service>, r: Replies)
    requires !IsJobFinished(st.conditions)
    ensures var rec := Reconcile(job, saved, st, pods, services, r);
            var i := Initialized(st);
            var sv := S.Reconcile(job, services, r.services);
            rec.end != Aborted ==>
            rec == Conclude(
              Record(Aborted, Settled(job, st, pods, r.now), saved, pods + AllBorn(job, i, pods, r), sv.services,
                AllCalls(job, i, pods), sv.creates, 0, None, None),
              st, pods, AllBorn(job, i, pods, r), r)
  {
    hide Check, ReconcilePods, Counted, Sound, IsJobFinished, Calls, S.Reconcile, Conclude, Born, Refused;
    UnfinishedIsSound(st.conditions);
    assert !Check(st.conditions, JobSucceeded) by {
      UnfinishedNotSucceeded(st.conditions);
    }
    var a := Counted(job, st, pods, Scheduler, r.now);
    StageEffect(job, st, pods, Scheduler, r);
    CountedStays(job, st, pods, Scheduler, r.now);
    StageEffect(job, a, pods, Server, r);
    var b := Counted(job, a, pods, Server, r.now);
    CountedStays(job, a, pods, Server, r.now);
    StageEffect(job, b, pods, Worker, r);
  }

  lemma UnfinishedNotSucceeded(cs: List)
    requires !IsJobFinished(cs)
    ensures !Check(cs, JobSucceeded)
  {
    hide Get;
  }

  lemma CountedStays(job: Job, st: Status, pods: seq<Pod>, rt: ReplicaType, now: nat -> Time)
    requires Sound(st.conditions) && !Check(st.conditions, JobSucceeded) && rt != Worker
    ensures var u := Counted(job, st, pods, rt, now);
            Initialized(u) == Initialized(st) && Sound(u.conditions) && !Check(u.conditions, JobSucceeded)
  {
    hide Get, Counted, Sound, Observe, Num, Len, Broken;
    CountedEffect(job, st, pods, rt, now);
  }

  lemma NotedEffect(st: Status, now: Time)
    ensures var u := Noted(st, now);
            && u == st.(conditions := u.conditions)
            && Check(u.conditions, JobCreated)
            && (forall k :: k != JobCreated ==> Get(u.conditions, k) == Get(st.conditions, k))
            && Initialized(u) == Initialized(st)
            && (IsJobFinished(u.conditions) <==> IsJobFinished(st.conditions))
  {
    hide Get, Set, Holds, IsJobFinished;
    UnfinishedIsSound(st.conditions);
    UnfinishedIsSound(Noted(st, now).conditions);
    SetEffect(st.conditions, NewCondition(JobCreated, ReasonCreated, now));
  }

  /** The status in memory when a pass decides whether to terminate. */
  function Reached(job: Job, saved: Status, pods: seq<Pod>, now: nat -> Time): Status {
    Begun(Settled(job, Noted(saved, now(AT_CREATED)), pods, now), now(AT_INITIALIZED))
  }

  lemma BegunEffect(st: Status, now: Time)
    requires Sound(st.conditions)
    ensures var u := Begun(st, now);
            && u == st.(conditions := u.conditions)
            && Initialized(u) && Sound(u.conditions) && Carried(u.conditions) == Carried(st.conditions)
            && (forall k :: k != JobInitialized ==> Get(u.conditions, k) == Get(st.conditions, k))
  {
    hide Get, Mark, Sound;
    MarkEffect(st, JobInitialized, ReasonInitialized, now);
  }

  /** Verdict refinement: for every unfinished status and every cluster, the status a pass reaches
      carries the reference verdict, never both verdicts, and the observed counters. */
  lemma ReachedEffect(job: Job, saved: Status, pods: seq<Pod>, now: nat -> Time)
    requires !IsJobFinished(saved.conditions)
    ensures var st := Reached(job, saved, pods, now);
            var i := Initialized(saved);
            && Carried(st.conditions) == Judge(job, i, pods)
            && (IsJobFinished(st.conditions) <==> Judge(job, i, pods) != Undecided)
            && Sound(st.conditions)
            && !(Check(st.conditions, JobSucceeded) && Check(st.conditions, JobFailed))
            && Check(st.conditions, JobCreated) && Initialized(st)
            && (forall rt :: st.Replica(rt) == Some(Observe(job, i, pods, rt)))
            && (Observe(job, i, pods, Worker).active > 0 ==>
                  Check(st.conditions, JobRunning) && Get(st.conditions, JobRunning).value.reason == ReasonRunning)
            && (Observe(job, i, pods, Worker).active <= 0 ==>
                  Get(st.conditions, JobRunning) == Get(saved.conditions, JobRunning))
            && (Observe(job, i, pods, Worker).active == job.Replicas(Worker) ==> st.startTime.Some?)
  {
    hide Get, Holds, IsJobFinished, Noted, Settled, Begun, Judge, Observe, Sound;
    var before := Noted(saved, now(AT_CREATED));
    NotedEffect(saved, now(AT_CREATED));
    SettledEffect(job, before, pods, now);
    var u := Settled(job, before, pods, now);
    BegunEffect(u, now(AT_INITIALIZED));
    UnfinishedIsSound(Reached(job, saved, pods, now).conditions);
  }

  /** The conclusion of a pass, case by case. */
  lemma ConcludeEffect(rec: Record, before: Status, snapshot: seq<Pod>, born: seq<Pod>, r: Replies)
    requires rec.finishHook.None? && rec.startHook.None? && rec.deletes == 0
    ensures var f := Conclude(rec, before, snapshot, born, r);
            var st := Begun(rec.live, r.now(AT_INITIALIZED));
            var done := IsJobFinished(st.conditions);
            && f.end != Aborted && f.end != Skipped
            && f.live == (if done then Terminated(st, snapshot) else st)
            && f.pods == (if done then Survivors(snapshot, r.delete) + born else rec.pods)
            && f.deletes == (if done then |ActivePods(snapshot)| else 0)
            && (f.end == TerminateFailed <==> done && Undeleted(r.delete, |ActivePods(snapshot)|) > 0)
            && (f.end == Unchanged <==> f.end != TerminateFailed && f.live == before)
            && (f.end == Updated ==> r.update.Accepted?)
            && f.saved == (if f.end == Updated || f.end == UpdateFailed(true) then f.live else rec.saved)
            && f.startHook == (if Initialized(rec.live) then None else Some(st))
            && f.finishHook == (if done && f.end != TerminateFailed then Some(f.live) else None)
            && f.services == rec.services && f.creates == rec.creates && f.serviceCreates == rec.serviceCreates
  {
    hide IsJobFinished, Begun, Survivors, ActivePods, Undeleted, Terminated, Initialized;
  }

  lemma AbortEffect(job: Job, saved: Status, st: Status, pods: seq<Pod>, services: seq<S.Service>, r: Replies)
    ensures var rec := Reconcile(job, saved, st, pods, services, r);
            rec.end == Aborted ==> rec.saved == saved && rec.startHook.None? && rec.finishHook.None? && rec.deletes == 0
  {
    hide IsJobFinished, Begun, Survivors, ActivePods, Undeleted, Terminated, Initialized, ReconcilePods, S.Reconcile;
  }

  /** Terminating moves counters only. */
  lemma TerminatedConditions(st: Status, pods: seq<Pod>)
    ensures Terminated(st, pods).conditions == st.conditions
    ensures Initialized(Terminated(st, pods)) == Initialized(st)
  {
    hide Num, Check;
  }

  /** Everything later proofs need to know about a pass that was not cut short. */
  ghost predicate PassFacts(
    job: Job, saved: Status, pods: seq<Pod>, services: seq<S.Service>, r: Replies, rec: Record)
  {
    var i := Initialized(saved);
    var decided := Judge(job, i, pods) != Undecided;
    var st := Reached(job, saved, pods, r.now);
    var born := AllBorn(job, i, pods, r);
    && rec.end != Aborted && rec.end != Skipped
    && rec.live == (if decided then Terminated(st, pods) else st)
    && rec.pods == (if decided then Survivors(pods, r.delete) + born else pods + born)
    && rec.creates == AllCalls(job, i, pods)
    && rec.deletes == (if decided then |ActivePods(pods)| else 0)
    && (rec.end == TerminateFailed <==> decided && Undeleted(r.delete, |ActivePods(pods)|) > 0)
    && (rec.end == Unchanged <==> rec.end != TerminateFailed && rec.live == Noted(saved, r.now(AT_CREATED)))
    && (rec.end == Updated ==> r.update.Accepted?)
    && rec.saved == (if rec.end == Updated || rec.end == UpdateFailed(true) then rec.live else saved)
    && rec.startHook == (if i then None else Some(st))
    && rec.finishHook == (if decided && rec.end != TerminateFailed then Some(rec.live) else None)
    && rec.services == S.Reconcile(job, services, r.services).services
  }

  /** A pass over an unfinished job either stops early, leaving the persisted status alone and
      issuing no hook and no delete, or is described by PassFacts. */
  lemma SyncEffect(job: Job, saved: Status, pods: seq<Pod>, services: seq<S.Service>, r: Replies)
    requires !IsJobFinished(saved.conditions)
    ensures var rec := Sync(job, saved, pods, services, r);
            if rec.end == Aborted
            then rec.saved == saved && rec.startHook.None? && rec.finishHook.None? && rec.deletes == 0
            else PassFacts(job, saved, pods, services, r, rec)
  {
    hide Check, IsJobFinished, Noted, Settled, Begun, Conclude, AllBorn, AllCalls, Judge, Reconcile, S.Reconcile,
      Survivors, ActivePods, Undeleted, Terminated;
    var before := Noted(saved, r.now(AT_CREATED));
    NotedEffect(saved, r.now(AT_CREATED));
    AbortEffect(job, saved, before, pods, services, r);
    PassShape(job, saved, before, pods, services, r);
    ReachedEffect(job, saved, pods, r.now);
    var i := Initialized(saved);
    var sv := S.Reconcile(job, services, r.services);
    var u := Settled(job, before, pods, r.now);
    var mid := Record(Aborted, u, saved, pods + AllBorn(job, i, pods, r), sv.services,
                      AllCalls(job, i, pods), sv.creates, 0, None, None);
    SettledInitialized(job, before, pods, r.now);
    ConcludeEffect(mid, before, pods, AllBorn(job, i, pods, r), r);
  }

  lemma SettledInitialized(job: Job, st: Status, pods: seq<Pod>, now: nat -> Time)
    requires !IsJobFinished(st.conditions)
    ensures Initialized(Settled(job, st, pods, now)) == Initialized(st)
  {
    hide Get, Settled, IsJobFinished, Judge, Observe, Sound;
    SettledEffect(job, st, pods, now);
  }
}
