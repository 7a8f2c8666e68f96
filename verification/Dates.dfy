/** What the times in the condition list say: when a condition changed, and when it was last set. */
module Dates {
  import opened Types
  import opened Conditions
  import opened Pods
  import opened Pass
  import opened Verdicts
  import opened Runs
  import opened Histories
  import S = Services

  /** The entry of a type after a change that took place between lo and hi. Its transition time is
      that of the old entry, if the status is the same, or a reading of the clock in between; so is
      its update time; and a true entry that is new or was replaced was updated in between. */
  predicate Dated(cs: List, ds: List, k: CondType, lo: Time, hi: Time) {
    Get(ds, k).Some? ==>
      var old', d := Get(cs, k), Get(ds, k).value;
      && ((old'.Some? && d.status == old'.value.status && d.lastTransition == old'.value.lastTransition) ||
          lo <= d.lastTransition <= hi)
      && ((old'.Some? && d.lastUpdate == old'.value.lastUpdate) || lo <= d.lastUpdate <= hi)
      && (d.status == ConditionTrue && old' != Some(d) ==> lo <= d.lastUpdate <= hi)
  }

  ghost predicate AllDated(st: Status, u: Status, lo: Time, hi: Time) {
    forall k :: Dated(st.conditions, u.conditions, k, lo, hi)
  }

  lemma DatedTrans(a: Status, b: Status, c: Status, lo: Time, hi: Time)
    requires AllDated(a, b, lo, hi) && AllDated(b, c, lo, hi)
    ensures AllDated(a, c, lo, hi)
  {
    hide Get;
    forall k ensures Dated(a.conditions, c.conditions, k, lo, hi) {
      assert Dated(a.conditions, b.conditions, k, lo, hi) && Dated(b.conditions, c.conditions, k, lo, hi);
    }
  }

  lemma SameDated(st: Status, u: Status, lo: Time, hi: Time)
    requires u.conditions == st.conditions
    ensures AllDated(st, u, lo, hi)
  {
    hide Get;
  }

  lemma MarkDated(st: Status, k: CondType, reason: Reason, now: Time, lo: Time, hi: Time)
    requires lo <= now <= hi
    ensures AllDated(st, Mark(st, k, reason, now), lo, hi)
  {
    hide Get, Set, FilterOut, Holds;
    SetEffect(st.conditions, NewCondition(k, reason, now));
  }

  lemma RetractDated(st: Status, now: Time, lo: Time, hi: Time)
    requires lo <= now <= hi
    ensures AllDated(st, st.(conditions := Retract(st.conditions, JobFailed, ReasonFailed, now)), lo, hi)
  {
    hide Get, Set, FilterOut, Holds;
    var cur := Get(st.conditions, JobFailed);
    if cur.Some? && cur.value.status != ConditionFalse {
      SetEffect(st.conditions, cur.value.(status := ConditionFalse, lastTransition := now, reason := ReasonFailed));
    }
  }

  /** The clock stays between lo and hi during a pass. */
  ghost predicate Between(now: nat -> Time, lo: Time, hi: Time) {
    forall p :: 0 <= p <= AT_END ==> lo <= now(p) <= hi
  }

  lemma WorkerDated(st: Status, c: Counts, replicas: int, now: nat -> Time, lo: Time, hi: Time)
    requires Between(now, lo, hi)
    ensures AllDated(st, UpdateWorker(st, c, replicas, now), lo, hi)
  {
    hide Get, Mark, Retract, AllDated;
    var a :=
      if c.active == replicas && st.startTime.None? then st.(startTime := Some(now(Point(Worker, AtStart)))) else st;
    SameDated(st, a, lo, hi);
    MarkDated(a, JobRunning, ReasonRunning, now(Point(Worker, AtRunning)), lo, hi);
    SameDated(a, a, lo, hi);
    var b := if c.active > 0 then Mark(a, JobRunning, ReasonRunning, now(Point(Worker, AtRunning))) else a;
    DatedTrans(st, a, b, lo, hi);
    var d := if b.completionTime.None? then b.(completionTime := Some(now(Point(Worker, AtCompletion)))) else b;
    SameDated(b, d, lo, hi);
    DatedTrans(st, b, d, lo, hi);
    var e := Mark(d, JobSucceeded, ReasonSucceeded, now(Point(Worker, AtSucceeded)));
    MarkDated(d, JobSucceeded, ReasonSucceeded, now(Point(Worker, AtSucceeded)), lo, hi);
    DatedTrans(st, d, e, lo, hi);
    RetractDated(e, now(Point(Worker, AtNotFailed)), lo, hi);
    var cs := Retract(e.conditions, JobFailed, ReasonFailed, now(Point(Worker, AtNotFailed)));
    DatedTrans(st, e, e.(conditions := cs), lo, hi);
  }

  lemma CountedDated(job: Job, st: Status, pods: seq<Pod>, rt: ReplicaType, now: nat -> Time, lo: Time, hi: Time)
    requires Between(now, lo, hi)
    ensures AllDated(st, Counted(job, st, pods, rt, now), lo, hi)
  {
    hide Get, Mark, UpdateWorker, Observe, AllDated;
    var x := st.WithReplica(rt, Observe(job, Initialized(st), pods, rt));
    SameDated(st, x, lo, hi);
    var c := x.Replica(rt).value;
    var w := if rt == Worker then UpdateWorker(x, c, job.Replicas(rt), now) else x;
    SameDated(x, x, lo, hi);
    WorkerDated(x, c, job.Replicas(rt), now, lo, hi);
    DatedTrans(st, x, w, lo, hi);
    MarkDated(w, JobFailed, ReasonFailed, now(Point(rt, AtFailed)), lo, hi);
    DatedTrans(st, w, Mark(w, JobFailed, ReasonFailed, now(Point(rt, AtFailed))), lo, hi);
  }

  lemma ReachedDated(job: Job, saved: Status, pods: seq<Pod>, now: nat -> Time, lo: Time, hi: Time)
    requires Between(now, lo, hi)
    ensures AllDated(saved, Reached(job, saved, pods, now), lo, hi)
    ensures AllDated(saved, Terminated(Reached(job, saved, pods, now), pods), lo, hi)
  {
    hide AllDated, Mark, Counted, Initialized, Moved, Num;
    var n := Noted(saved, now(AT_CREATED));
    SameDated(saved, saved, lo, hi);
    MarkDated(saved, JobCreated, ReasonCreated, now(AT_CREATED), lo, hi);
    var a := Counted(job, n, pods, Scheduler, now);
    CountedDated(job, n, pods, Scheduler, now, lo, hi);
    DatedTrans(saved, n, a, lo, hi);
    var b := Counted(job, a, pods, Server, now);
    CountedDated(job, a, pods, Server, now, lo, hi);
    DatedTrans(saved, a, b, lo, hi);
    var c := Counted(job, b, pods, Worker, now);
    CountedDated(job, b, pods, Worker, now, lo, hi);
    DatedTrans(saved, b, c, lo, hi);
    var d := Begun(c, now(AT_INITIALIZED));
    SameDated(c, c, lo, hi);
    MarkDated(c, JobInitialized, ReasonInitialized, now(AT_INITIALIZED), lo, hi);
    DatedTrans(saved, c, d, lo, hi);
    SameDated(d, Terminated(d, pods), lo, hi);
    DatedTrans(saved, d, Terminated(d, pods), lo, hi);
  }

  /** A pass dates what it changes: with a clock that does not run backwards, every condition it adds
      or turns over has a transition time read during the pass, and every true condition it sets has
      such an update time. */
  lemma SyncDates(job: Job, saved: Status, pods: seq<Pod>, services: seq<S.Service>, r: Replies)
    requires Monotone(r.now)
    ensures AllDated(saved, Sync(job, saved, pods, services, r).saved, r.now(AT_CREATED), r.now(AT_END))
  {
    hide IsJobFinished, Sync, Judge, Reached, Terminated, Survivors, AllBorn, Noted, AllCalls, S.Reconcile, AllDated;
    var lo, hi := r.now(AT_CREATED), r.now(AT_END);
    SameDated(saved, saved, lo, hi);
    if IsJobFinished(saved.conditions) {
      FinishedSkips(job, saved, pods, services, r);
    } else {
      SyncEffect(job, saved, pods, services, r);
      ReachedDated(job, saved, pods, r.now, lo, hi);
    }
  }

  /** Every condition was set and last changed between lo and hi. */
  ghost predicate Recent(st: Status, lo: Time, hi: Time) {
    forall k :: Get(st.conditions, k).Some? ==>
      var c := Get(st.conditions, k).value;
      lo <= c.lastTransition <= hi && lo <= c.lastUpdate <= hi
  }

  lemma DatedIsRecent(st: Status, u: Status, first: Time, lo: Time, hi: Time)
    requires AllDated(st, u, lo, hi) && exists mid :: first <= mid <= lo && Recent(st, first, mid)
    requires lo <= hi
    ensures Recent(u, first, hi)
  {
    hide Get;
    var mid :| first <= mid <= lo && Recent(st, first, mid);
    forall k | Get(u.conditions, k).Some?
      ensures first <= Get(u.conditions, k).value.lastTransition <= hi
      ensures first <= Get(u.conditions, k).value.lastUpdate <= hi
    {
      assert Dated(st.conditions, u.conditions, k, lo, hi);
    }
  }

  /** Over every run with a clock that does not run backwards, every persisted condition carries times
      read during the run. */
  lemma {:induction false} DatesOverRuns(
    job: Job, pods: seq<Pod>, services: seq<S.Service>, clock: Time, steps: seq<Step>)
    requires Timely(job, Init(pods, services, clock), steps)
    ensures var t := Exec(job, Init(pods, services, clock), steps);
            clock <= t.clock && Recent(t.status, clock, t.clock)
  {
    hide Recent, Sync;
    if steps == [] {
      NothingSet(clock);
    } else {
      var n := |steps| - 1;
      var s := Exec(job, Init(pods, services, clock), steps[..n]);
      DatesOverRuns(job, pods, services, clock, steps[..n]);
      if steps[n].SyncStep? && !s.pending {
        var r := steps[n].r;
        SyncDates(job, s.status, s.pods, s.services, r);
        assert r.now(AT_CREATED) <= r.now(AT_END);
        DatedIsRecent(
          s.status, Sync(job, s.status, s.pods, s.services, r).saved, clock, r.now(AT_CREATED), r.now(AT_END));
      }
    }
  }

  lemma NothingSet(clock: Time)
    ensures Recent(EMPTY_STATUS, clock, clock)
  {
  }
}
