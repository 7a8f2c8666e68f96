/** What a pass keeps of the status it started from: unique condition types, transition times that
    move only with the status, times that are written once, verdict entries only when decided. */
module Statuses {
  import opened Types
  import opened Conditions
  import opened Pods
  import opened Pass
  import opened Verdicts
  import opened Counters

  /** A condition stays as it was, or becomes true. */
  predicate Advance(c: Condition, d: Condition) {
    || (d.status == c.status && d.lastTransition == c.lastTransition)
    || (c.status != ConditionTrue && d.status == ConditionTrue)
  }

  predicate Advanced(cs: List, ds: List, k: CondType) {
    Get(cs, k).Some? ==> Get(ds, k).Some? && Advance(Get(cs, k).value, Get(ds, k).value)
  }

  /** The reason that belongs to a type; nothing ever restarts a job. */
  function ReasonFor(k: CondType): Option<Reason> {
    match k
    case JobCreated => Some(ReasonCreated)
    case JobInitialized => Some(ReasonInitialized)
    case JobRunning => Some(ReasonRunning)
    case JobSucceeded => Some(ReasonSucceeded)
    case JobFailed => Some(ReasonFailed)
    case JobRestarting => None
  }

  predicate Explained(cs: List, k: CondType) {
    Get(cs, k).Some? ==> ReasonFor(k) == Some(Get(cs, k).value.reason)
  }

  /** Every step of a pass keeps this, and it composes. */
  ghost predicate Keeps(st: Status, u: Status) {
    && (Unique(st.conditions) ==> Unique(u.conditions))
    && (forall k :: k != JobFailed ==> Advanced(st.conditions, u.conditions, k))
    && (forall k :: Explained(st.conditions, k) ==> Explained(u.conditions, k))
    && (st.startTime.Some? ==> u.startTime == st.startTime)
    && (st.completionTime.Some? ==> u.completionTime == st.completionTime)
  }

  lemma KeepsTrans(a: Status, b: Status, c: Status)
    requires Keeps(a, b) && Keeps(b, c)
    ensures Keeps(a, c)
  {
    hide Get, Unique, Explained;
    forall k | k != JobFailed ensures Advanced(a.conditions, c.conditions, k) {
      assert Advanced(a.conditions, b.conditions, k) && Advanced(b.conditions, c.conditions, k);
    }
  }

  lemma MarkKeeps(st: Status, k: CondType, reason: Reason, now: Time)
    requires ReasonFor(k) == Some(reason)
    ensures Keeps(st, Mark(st, k, reason, now))
  {
    hide Get, Set, FilterOut, Unique, Holds;
    var c := NewCondition(k, reason, now);
    SetEffect(st.conditions, c);
    if Unique(st.conditions) {
      SetUnique(st.conditions, c);
    }
  }

  lemma RetractKeeps(st: Status, now: Time)
    ensures Keeps(st, st.(conditions := Retract(st.conditions, JobFailed, ReasonFailed, now)))
  {
    hide Get, Set, FilterOut, Unique, Holds;
    var cur := Get(st.conditions, JobFailed);
    if cur.Some? && cur.value.status != ConditionFalse {
      var c := cur.value.(status := ConditionFalse, lastTransition := now, reason := ReasonFailed);
      SetEffect(st.conditions, c);
      if Unique(st.conditions) {
        SetUnique(st.conditions, c);
      }
    }
  }

  lemma WorkerKeeps(st: Status, c: Counts, replicas: int, now: nat -> Time)
    ensures Keeps(st, UpdateWorker(st, c, replicas, now))
  {
    hide Get, Mark, Retract, Unique, Explained;
    var a :=
      if c.active == replicas && st.startTime.None? then st.(startTime := Some(now(Point(Worker, AtStart)))) else st;
    assert Keeps(st, a);
    MarkKeeps(a, JobRunning, ReasonRunning, now(Point(Worker, AtRunning)));
    var b := if c.active > 0 then Mark(a, JobRunning, ReasonRunning, now(Point(Worker, AtRunning))) else a;
    assert Keeps(a, b);
    KeepsTrans(st, a, b);
    var d := if b.completionTime.None? then b.(completionTime := Some(now(Point(Worker, AtCompletion)))) else b;
    assert Keeps(b, d);
    KeepsTrans(st, b, d);
    var e := Mark(d, JobSucceeded, ReasonSucceeded, now(Point(Worker, AtSucceeded)));
    MarkKeeps(d, JobSucceeded, ReasonSucceeded, now(Point(Worker, AtSucceeded)));
    KeepsTrans(st, d, e);
    RetractKeeps(e, now(Point(Worker, AtNotFailed)));
    var cs := Retract(e.conditions, JobFailed, ReasonFailed, now(Point(Worker, AtNotFailed)));
    KeepsTrans(st, e, e.(conditions := cs));
  }

  lemma CountedKeeps(job: Job, st: Status, pods: seq<Pod>, rt: ReplicaType, now: nat -> Time)
    ensures Keeps(st, Counted(job, st, pods, rt, now))
  {
    hide Get, Mark, UpdateWorker, Unique, Observe, Advanced, Explained;
    var x := st.WithReplica(rt, Observe(job, Initialized(st), pods, rt));
    assert Keeps(st, x) by {
      SameKeeps(st, x);
    }
    var c := x.Replica(rt).value;
    var w := if rt == Worker then UpdateWorker(x, c, job.Replicas(rt), now) else x;
    assert Keeps(x, w) by {
      SameKeeps(x, x);
      WorkerKeeps(x, c, job.Replicas(rt), now);
    }
    KeepsTrans(st, x, w);
    MarkKeeps(w, JobFailed, ReasonFailed, now(Point(rt, AtFailed)));
    KeepsTrans(st, w, Mark(w, JobFailed, ReasonFailed, now(Point(rt, AtFailed))));
  }

  lemma SameKeeps(st: Status, u: Status)
    requires u.conditions == st.conditions && u.startTime == st.startTime && u.completionTime == st.completionTime
    ensures Keeps(st, u)
  {
    hide Get;
  }

  /** Everything a pass does to a status, up to and including termination. */
  lemma ReachedKeeps(job: Job, saved: Status, pods: seq<Pod>, now: nat -> Time)
    ensures Keeps(saved, Reached(job, saved, pods, now))
    ensures Keeps(saved, Terminated(Reached(job, saved, pods, now), pods))
  {
    hide Keeps, Mark, Counted, Initialized, Moved, Num;
    var n := Noted(saved, now(AT_CREATED));
    SameKeeps(saved, saved);
    MarkKeeps(saved, JobCreated, ReasonCreated, now(AT_CREATED));
    var a := Counted(job, n, pods, Scheduler, now);
    CountedKeeps(job, n, pods, Scheduler, now);
    KeepsTrans(saved, n, a);
    var b := Counted(job, a, pods, Server, now);
    CountedKeeps(job, a, pods, Server, now);
    KeepsTrans(saved, a, b);
    var c := Counted(job, b, pods, Worker, now);
    CountedKeeps(job, b, pods, Worker, now);
    KeepsTrans(saved, b, c);
    var d := Begun(c, now(AT_INITIALIZED));
    SameKeeps(c, c);
    MarkKeeps(c, JobInitialized, ReasonInitialized, now(AT_INITIALIZED));
    KeepsTrans(saved, c, d);
    SameKeeps(d, Terminated(d, pods));
    KeepsTrans(saved, d, Terminated(d, pods));
  }

  // The two job times.

  lemma WorkerTimes(st: Status, c: Counts, replicas: int, now: nat -> Time)
    ensures var u := UpdateWorker(st, c, replicas, now);
            && u.startTime == (if c.active == replicas && st.startTime.None?
                               then Some(now(Point(Worker, AtStart))) else st.startTime)
            && u.completionTime == (if c.succeeded == replicas && st.completionTime.None?
                                    then Some(now(Point(Worker, AtCompletion))) else st.completionTime)
  {
    hide Set, Retract;
  }

  lemma CountedTimes(job: Job, st: Status, pods: seq<Pod>, rt: ReplicaType, now: nat -> Time)
    ensures var u := Counted(job, st, pods, rt, now);
            && (rt != Worker ==> u.startTime == st.startTime && u.completionTime == st.completionTime)
            && (rt == Worker ==>
                  var full := Observe(job, Initialized(st), pods, rt).active == job.Replicas(rt);
                  u.startTime == (if full && st.startTime.None?
                                  then Some(now(Point(Worker, AtStart))) else st.startTime))
            && (rt == Worker ==>
                  u.completionTime == (if Num(pods, rt, Succeeded) == job.Replicas(rt) && st.completionTime.None?
                                       then Some(now(Point(Worker, AtCompletion))) else st.completionTime))
  {
    hide Set, UpdateWorker, Num, Len, Check;
    var x := st.WithReplica(rt, Observe(job, Initialized(st), pods, rt));
    WorkerTimes(x, x.Replica(rt).value, job.Replicas(rt), now);
  }

  /** The start time is written when every worker is active for the first time, the completion time
      when every worker has succeeded for the first time. */
  lemma ReachedTimes(job: Job, saved: Status, pods: seq<Pod>, now: nat -> Time)
    requires !IsJobFinished(saved.conditions)
    ensures var u := Reached(job, saved, pods, now);
            var full := Observe(job, Initialized(saved), pods, Worker).active == job.Replicas(Worker);
            && u.startTime == (if full && saved.startTime.None?
                               then Some(now(Point(Worker, AtStart))) else saved.startTime)
            && u.completionTime ==
               (if Num(pods, Worker, Succeeded) == job.Replicas(Worker) && saved.completionTime.None?
                then Some(now(Point(Worker, AtCompletion))) else saved.completionTime)
  {
    hide Get, Set, Counted, Num, Check, Sound, IsJobFinished, Observe, Initialized;
    var n := Noted(saved, now(AT_CREATED));
    NotedEffect(saved, now(AT_CREATED));
    UnfinishedIsSound(n.conditions);
    var a := Counted(job, n, pods, Scheduler, now);
    CountedTimes(job, n, pods, Scheduler, now);
    CountedStays(job, n, pods, Scheduler, now);
    var b := Counted(job, a, pods, Server, now);
    CountedTimes(job, a, pods, Server, now);
    CountedStays(job, a, pods, Server, now);
    CountedTimes(job, b, pods, Worker, now);
  }

  // Verdict entries appear only with a verdict.

  predicate Blank(cs: List) {
    Get(cs, JobSucceeded).None? && Get(cs, JobFailed).None?
  }

  lemma MarkBlank(st: Status, k: CondType, reason: Reason, now: Time)
    requires k != JobSucceeded && k != JobFailed && Blank(st.conditions)
    ensures Blank(Mark(st, k, reason, now).conditions)
  {
    hide Get, Mark, Sound;
    MarkEffect(st, k, reason, now);
  }

  lemma CountedBlank(job: Job, st: Status, pods: seq<Pod>, rt: ReplicaType, now: nat -> Time)
    requires Blank(st.conditions) && !Broken(job, Initialized(st), pods, rt)
    requires rt == Worker ==> Num(pods, rt, Succeeded) != job.Replicas(rt)
    ensures Blank(Counted(job, st, pods, rt, now).conditions)
  {
    hide Blank, Mark, Num, Len, Check;
    var x := st.WithReplica(rt, Observe(job, Initialized(st), pods, rt));
    assert Blank(x.conditions);
    var c := x.Replica(rt).value;
    var a :=
      if c.active == job.Replicas(rt) && x.startTime.None? then x.(startTime := Some(now(Point(Worker, AtStart)))) else x;
    MarkBlank(a, JobRunning, ReasonRunning, now(Point(Worker, AtRunning)));
  }

  lemma ReachedBlank(job: Job, saved: Status, pods: seq<Pod>, now: nat -> Time)
    requires Blank(saved.conditions) && Judge(job, Initialized(saved), pods) == Undecided
    requires !IsJobFinished(saved.conditions)
    ensures Blank(Reached(job, saved, pods, now).conditions)
  {
    hide Blank, Mark, Num, Len, Get, Counted, Sound, Judge, Broken, IsJobFinished, Observe;
    var n := Noted(saved, now(AT_CREATED));
    MarkBlank(saved, JobCreated, ReasonCreated, now(AT_CREATED));
    NotedEffect(saved, now(AT_CREATED));
    UnfinishedIsSound(n.conditions);
    var a := Counted(job, n, pods, Scheduler, now);
    UndecidedIsWhole(job, Initialized(saved), pods, Scheduler);
    UndecidedIsWhole(job, Initialized(saved), pods, Server);
    UndecidedIsWhole(job, Initialized(saved), pods, Worker);
    CountedBlank(job, n, pods, Scheduler, now);
    CountedEffect(job, n, pods, Scheduler, now);
    var b := Counted(job, a, pods, Server, now);
    CountedBlank(job, a, pods, Server, now);
    CountedEffect(job, a, pods, Server, now);
    CountedBlank(job, b, pods, Worker, now);
    MarkBlank(Counted(job, b, pods, Worker, now), JobInitialized, ReasonInitialized, now(AT_INITIALIZED));
  }
}
