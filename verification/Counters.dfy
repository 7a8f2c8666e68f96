/** The replica counters a pass writes: conservation, termination, and prediction. */
module Counters {
  import opened Types
  import opened Labels
  import opened Conditions
  import opened Pods
  import opened Pass
  import opened Verdicts
  import S = Services

  function Max(a: int, b: int): int {
    if a >= b then a else b
  }

  function Total(c: Counts): int {
    c.active + c.succeeded + c.failed + c.gone
  }

  /** Every pod or missing replica is counted once; unfinished pods on their way out are not. */
  ghost predicate Conserved(job: Job, pods: seq<Pod>, rt: ReplicaType, c: Counts) {
    && c.active >= 0 && c.succeeded >= 0 && c.failed >= 0 && c.gone >= 0
    && Total(c) + Num(pods, rt, Leaving) == Max(job.Replicas(rt), Len(pods, rt))
  }

  lemma {:induction false} LenBound(pods: seq<Pod>, rt: ReplicaType)
    ensures Len(pods, rt) <= |pods|
  {
    hide RoleOf;
    if pods != [] {
      LenBound(pods[..|pods| - 1], rt);
    }
  }

  lemma ObserveConserves(job: Job, initialized: bool, pods: seq<Pod>, rt: ReplicaType)
    ensures Conserved(job, pods, rt, Observe(job, initialized, pods, rt))
    ensures Observe(job, initialized, pods, rt).active >= Num(pods, rt, Active)
    ensures Observe(job, initialized, pods, rt).succeeded == Num(pods, rt, Succeeded)
    ensures Observe(job, initialized, pods, rt).failed == Num(pods, rt, Failed)
  {
    hide OfType, In;
    BucketsPartition(OfType(pods, rt));
  }

  lemma TerminatedReplica(st: Status, pods: seq<Pod>, rt: ReplicaType)
    ensures Terminated(st, pods).Replica(rt) == Moved(st.Replica(rt), Num(pods, rt, Active))
  {
    hide Num;
  }

  /** Conservation: whatever the persisted status and the cluster, the counters a pass ends with,
      before or after termination, are non-negative and add up; they fit 32 bits if the cluster does. */
  lemma PassConserves(
    job: Job, saved: Status, pods: seq<Pod>, services: seq<S.Service>, r: Replies, rt: ReplicaType)
    requires !IsJobFinished(saved.conditions)
    requires Sync(job, saved, pods, services, r).end != Aborted
    ensures var c := Sync(job, saved, pods, services, r).live.Replica(rt);
            && c.Some? && Conserved(job, pods, rt, c.value)
            && c.value.succeeded == Num(pods, rt, Succeeded) && c.value.failed == Num(pods, rt, Failed)
            && (job.Valid() && |pods| <= MAX_INT32 ==> Total(c.value) <= MAX_INT32)
  {
    hide Get, Sound, Noted, IsJobFinished, Sync, Reached, Observe, Terminated, Judge, Num, Len, Survivors;
    var i := Initialized(saved);
    SyncEffect(job, saved, pods, services, r);
    ReachedEffect(job, saved, pods, r.now);
    ObserveConserves(job, i, pods, rt);
    TerminatedReplica(Reached(job, saved, pods, r.now), pods, rt);
    LenBound(pods, rt);
  }

  lemma {:induction false} AllDeleted(delete: nat -> DeleteReply, n: nat)
    ensures Undeleted(delete, n) == 0 <==> forall k :: 0 <= k < n ==> delete(k).Deleted?
  {
    if n > 0 {
      AllDeleted(delete, n - 1);
    }
  }

  /** A finished status is persisted only by a pass in which every active pod it had listed was
      deleted: none of those is active any more. What is left in the active counter is what this very
      pass created, so it is zero for all types exactly if the job was already initialized or
      nothing was missing. */
  lemma FinishedMeansTerminated(job: Job, saved: Status, pods: seq<Pod>, services: seq<S.Service>, r: Replies)
    requires !IsJobFinished(saved.conditions)
    requires IsJobFinished(Sync(job, saved, pods, services, r).saved.conditions)
    ensures var rec := Sync(job, saved, pods, services, r);
            var i := Initialized(saved);
            && rec.end in {Updated, UpdateFailed(true)} && rec.saved == rec.live
            && (forall k :: 0 <= k < |ActivePods(pods)| ==> r.delete(k).Deleted?)
            && rec.pods == Survivors(pods, r.delete) + AllBorn(job, i, pods, r)
            && (forall p :: p in Survivors(pods, r.delete) ==> Finished(p) || p.deleting)
            && (forall rt :: Num(Survivors(pods, r.delete), rt, Active) == 0)
            && (forall rt :: rec.saved.Replica(rt).Some?)
            && (forall rt :: rec.saved.Replica(rt).value.active == Calls(job, i, pods, rt))
            && ((forall rt :: rec.saved.Replica(rt).value.active == 0) <==>
                i || forall rt :: job.Replicas(rt) <= Len(pods, rt))
  {
    hide Get, Sound, Noted, IsJobFinished, Sync, Reached, Terminated, Judge, Num, Len, Survivors, ActivePods, Undeleted,
         AllBorn;
    var rec := Sync(job, saved, pods, services, r);
    SyncEffect(job, saved, pods, services, r);
    ReachedEffect(job, saved, pods, r.now);
    var st := Reached(job, saved, pods, r.now);
    assert rec.saved == rec.live;
    assert Judge(job, Initialized(saved), pods) != Undecided;
    AllDeleted(r.delete, |ActivePods(pods)|);
    SurvivorsSettled(pods, r.delete);
    forall rt
      ensures Num(Survivors(pods, r.delete), rt, Active) == 0
      ensures rec.saved.Replica(rt).Some?
      ensures rec.saved.Replica(rt).value.active == Calls(job, Initialized(saved), pods, rt)
    {
      SurvivorsNum(pods, r.delete, rt);
      TerminatedReplica(st, pods, rt);
    }
  }

  /** Every create call of the pass produced a pod. */
  ghost predicate AllAppear(job: Job, initialized: bool, pods: seq<Pod>, r: Replies) {
    forall rt :: AppearAll(r.create(rt), Calls(job, initialized, pods, rt))
  }

  ghost predicate AppearAll(create: nat -> CreateReply, n: nat) {
    forall k :: 0 <= k < n ==> Appears(create(k))
  }

  lemma AllBornNum(job: Job, initialized: bool, pods: seq<Pod>, r: Replies, rt: ReplicaType)
    ensures var born := AllBorn(job, initialized, pods, r);
            && Len(born, rt) <= Calls(job, initialized, pods, rt)
            && Num(born, rt, Active) == Len(born, rt)
            && (AppearAll(r.create(rt), Calls(job, initialized, pods, rt)) <==>
                Len(born, rt) == Calls(job, initialized, pods, rt))
            && Num(born, rt, Succeeded) == 0 && Num(born, rt, Failed) == 0 && Num(born, rt, Leaving) == 0
  {
    hide Num, Len, Born, Calls;
    var i := initialized;
    var s := Born(job, Scheduler, r.create(Scheduler), Calls(job, i, pods, Scheduler));
    var v := Born(job, Server, r.create(Server), Calls(job, i, pods, Server));
    var w := Born(job, Worker, r.create(Worker), Calls(job, i, pods, Worker));
    NumConcat(s, v, rt);
    NumConcat(s + v, w, rt);
    BornNum(job, Scheduler, r.create(Scheduler), Calls(job, i, pods, Scheduler), rt);
    BornNum(job, Server, r.create(Server), Calls(job, i, pods, Server), rt);
    BornNum(job, Worker, r.create(Worker), Calls(job, i, pods, Worker), rt);
    BornOnlyActive(job, Scheduler, r.create(Scheduler), Calls(job, i, pods, Scheduler), rt);
    BornOnlyActive(job, Server, r.create(Server), Calls(job, i, pods, Server), rt);
    BornOnlyActive(job, Worker, r.create(Worker), Calls(job, i, pods, Worker), rt);
  }

  lemma UndecidedIsWhole(job: Job, initialized: bool, pods: seq<Pod>, rt: ReplicaType)
    requires Judge(job, initialized, pods) == Undecided
    ensures !Broken(job, initialized, pods, rt)
    ensures Num(pods, Worker, Succeeded) != job.Replicas(Worker)
  {
    hide Broken, Num;
  }

  /** The counters an undecided pass predicts are those the next pass observes. */
  lemma PredictionObserved(job: Job, initialized: bool, pods: seq<Pod>, r: Replies, rt: ReplicaType)
    requires Judge(job, initialized, pods) == Undecided && AllAppear(job, initialized, pods, r)
    ensures Observe(job, true, pods + AllBorn(job, initialized, pods, r), rt) == Observe(job, initialized, pods, rt)
    ensures Len(pods + AllBorn(job, initialized, pods, r), rt) >= job.Replicas(rt)
    ensures Num(pods + AllBorn(job, initialized, pods, r), rt, Failed) == 0
  {
    hide Num, Len, AllBorn, Judge, AppearAll;
    UndecidedIsWhole(job, initialized, pods, rt);
    AllBornNum(job, initialized, pods, r, rt);
    NumConcat(pods, AllBorn(job, initialized, pods, r), rt);
  }

  lemma UpdateIsIdle(st: Status, rt: ReplicaType, replicas: int, now: nat -> Time)
    requires st.Replica(rt).Some?
    requires var c := st.Replica(rt).value;
             && c.failed == 0 && c.gone == 0
             && (rt == Worker ==>
                   && c.succeeded != replicas
                   && (c.active == replicas ==> st.startTime.Some?)
                   && (c.active > 0 ==>
                            Check(st.conditions, JobRunning) && Get(st.conditions, JobRunning).value.reason == ReasonRunning))
    ensures UpdateStatus(st, rt, replicas, now) == st
  {
    hide Get, FilterOut;
  }

  lemma CountedIsIdle(job: Job, st: Status, pods: seq<Pod>, rt: ReplicaType, now: nat -> Time)
    requires Initialized(st) && st.Replica(rt) == Some(Observe(job, true, pods, rt))
    requires !Broken(job, true, pods, rt)
    requires rt == Worker ==>
      var c := Observe(job, true, pods, rt);
      && Num(pods, rt, Succeeded) != job.Replicas(rt)
      && (c.active == job.Replicas(rt) ==> st.startTime.Some?)
      && (c.active > 0 ==>
               Check(st.conditions, JobRunning) && Get(st.conditions, JobRunning).value.reason == ReasonRunning)
    ensures Counted(job, st, pods, rt, now) == st
  {
    hide Get, UpdateStatus, Num, Len;
    assert st.WithReplica(rt, Observe(job, true, pods, rt)) == st;
    UpdateIsIdle(st, rt, job.Replicas(rt), now);
  }

  /** A status that already records what a pass would observe, and is not decided, is a fixed point. */
  lemma ReachedIsIdle(job: Job, st: Status, pods: seq<Pod>, now: nat -> Time)
    requires !IsJobFinished(st.conditions) && Check(st.conditions, JobCreated) && Initialized(st)
    requires Judge(job, true, pods) == Undecided
    requires forall rt :: st.Replica(rt) == Some(Observe(job, true, pods, rt))
    requires var c := Observe(job, true, pods, Worker);
             && (c.active == job.Replicas(Worker) ==> st.startTime.Some?)
             && (c.active > 0 ==>
                      Check(st.conditions, JobRunning) && Get(st.conditions, JobRunning).value.reason == ReasonRunning)
    ensures Reached(job, st, pods, now) == st
  {
    hide Get, Counted, Num, Len, Judge, Observe, Broken, IsJobFinished;
    UndecidedIsWhole(job, true, pods, Scheduler);
    UndecidedIsWhole(job, true, pods, Server);
    UndecidedIsWhole(job, true, pods, Worker);
    CountedIsIdle(job, st, pods, Scheduler, now);
    CountedIsIdle(job, st, pods, Server, now);
    CountedIsIdle(job, st, pods, Worker, now);
  }

  /** Prediction: after an undecided pass whose status is persisted and whose creates all produced
      pods, the next pass over exactly the resulting cluster recomputes the same status, writes
      nothing, creates and deletes nothing and issues no hook, whatever replies it gets. */
  lemma SecondPassIsSilent(
    job: Job, saved: Status, pods: seq<Pod>, services: seq<S.Service>, r: Replies,
    services': seq<S.Service>, r': Replies)
    requires !IsJobFinished(saved.conditions) && AllAppear(job, Initialized(saved), pods, r)
    requires var one := Sync(job, saved, pods, services, r);
             one.end != Aborted && one.saved == one.live && !IsJobFinished(one.live.conditions)
    ensures var one := Sync(job, saved, pods, services, r);
            var two := Sync(job, one.saved, one.pods, services', r');
            && two.end in {Unchanged, Aborted}
            && two.saved == one.saved && two.pods == one.pods
            && two.creates == 0 && two.deletes == 0 && two.startHook.None? && two.finishHook.None?
            && (two.end == Unchanged ==> two.live == one.live)
  {
    hide IsJobFinished, Sync, Reached, Judge, Observe, Get, Broken, Survivors, Terminated, AllBorn, AllAppear, Num, Len;
    var one := Sync(job, saved, pods, services, r);
    var i := Initialized(saved);
    SyncEffect(job, saved, pods, services, r);
    ReachedEffect(job, saved, pods, r.now);
    var st := Reached(job, saved, pods, r.now);
    assert Judge(job, i, pods) == Undecided by {
      DecidedIsFinished(job, saved, pods, r.now);
    }
    forall rt
      ensures Observe(job, true, one.pods, rt) == Observe(job, i, pods, rt)
      ensures Len(one.pods, rt) >= job.Replicas(rt) && Num(one.pods, rt, Failed) == 0
    {
      PredictionObserved(job, i, pods, r, rt);
    }
    StillUndecided(job, i, pods, one.pods);
    ReachedIsIdle(job, st, one.pods, r'.now);
    SyncEffect(job, st, one.pods, services', r');
    NothingMissing(job, one.pods, r');
    AbortedCreates(job, st, one.pods, services', r');
    assert Noted(st, r'.now(AT_CREATED)) == st;
  }

  /** What an undecided pass whose status is persisted leaves to the next one: nothing to decide if
      every create produced a pod, and a failure otherwise. A pod that a swallowed timeout left
      unmade is never made again. */
  lemma NextVerdict(job: Job, saved: Status, pods: seq<Pod>, services: seq<S.Service>, r: Replies)
    requires !IsJobFinished(saved.conditions)
    requires var one := Sync(job, saved, pods, services, r);
             one.end != Aborted && one.saved == one.live && !IsJobFinished(one.live.conditions)
    ensures var one := Sync(job, saved, pods, services, r);
            && Initialized(one.saved)
            && Judge(job, true, one.pods) ==
               if AllAppear(job, Initialized(saved), pods, r) then Undecided else Failure
  {
    hide IsJobFinished, Sync, Reached, Judge, Observe, Get, Broken, Survivors, Terminated, AllBorn, AllAppear, Num, Len;
    var i := Initialized(saved);
    SyncEffect(job, saved, pods, services, r);
    ReachedEffect(job, saved, pods, r.now);
    assert Judge(job, i, pods) == Undecided by {
      DecidedIsFinished(job, saved, pods, r.now);
    }
    GrownVerdict(job, i, pods, r);
  }

  lemma GrownVerdict(job: Job, initialized: bool, pods: seq<Pod>, r: Replies)
    requires Judge(job, initialized, pods) == Undecided
    ensures Judge(job, true, pods + AllBorn(job, initialized, pods, r)) ==
            if AllAppear(job, initialized, pods, r) then Undecided else Failure
  {
    hide Num, Len, AllBorn, AppearAll;
    var born := AllBorn(job, initialized, pods, r);
    forall rt
      ensures Broken(job, true, pods + born, rt) <==> !AppearAll(r.create(rt), Calls(job, initialized, pods, rt))
    {
      UndecidedIsWhole(job, initialized, pods, rt);
      AllBornNum(job, initialized, pods, r, rt);
      NumConcat(pods, born, rt);
    }
    AllBornNum(job, initialized, pods, r, Worker);
    NumConcat(pods, born, Worker);
  }

  /** The second pass, exactly: if every create of the first one produced a pod it is silent, and if
      one did not, it decides failure, unless it is cut short, and deletes every active pod. */
  lemma SecondPass(
    job: Job, saved: Status, pods: seq<Pod>, services: seq<S.Service>, r: Replies,
    services': seq<S.Service>, r': Replies)
    requires !IsJobFinished(saved.conditions)
    requires var one := Sync(job, saved, pods, services, r);
             one.end != Aborted && one.saved == one.live && !IsJobFinished(one.live.conditions)
    ensures var one := Sync(job, saved, pods, services, r);
            var two := Sync(job, one.saved, one.pods, services', r');
            if AllAppear(job, Initialized(saved), pods, r)
            then
              && two.end in {Unchanged, Aborted}
              && two.saved == one.saved && two.pods == one.pods
              && two.creates == 0 && two.deletes == 0 && two.startHook.None? && two.finishHook.None?
              && (two.end == Unchanged ==> two.live == one.live)
            else
              two.end != Aborted ==>
                && Carried(two.live.conditions) == Failure && two.creates == 0
                && two.deletes == |ActivePods(one.pods)|
  {
    hide IsJobFinished, Sync, Reached, Judge, Observe, Get, Survivors, Terminated, AllBorn, AllAppear, Num, Len,
         AllCalls, Carried, Noted, ActivePods;
    if AllAppear(job, Initialized(saved), pods, r) {
      SecondPassIsSilent(job, saved, pods, services, r, services', r');
    } else {
      var one := Sync(job, saved, pods, services, r);
      NextVerdict(job, saved, pods, services, r);
      SyncEffect(job, one.saved, one.pods, services', r');
      ReachedEffect(job, one.saved, one.pods, r'.now);
      TerminatedConditions(Reached(job, one.saved, one.pods, r'.now), one.pods);
      NoneCalled(job, one.pods);
    }
  }

  lemma NoneCalled(job: Job, pods: seq<Pod>)
    ensures AllCalls(job, true, pods) == 0
  {
  }

  lemma DecidedIsFinished(job: Job, saved: Status, pods: seq<Pod>, now: nat -> Time)
    requires !IsJobFinished(saved.conditions)
    ensures Judge(job, Initialized(saved), pods) != Undecided ==>
            IsJobFinished(Terminated(Reached(job, saved, pods, now), pods).conditions)
  {
    hide IsJobFinished, Reached, Judge, Observe, Get, Num, Len;
    ReachedEffect(job, saved, pods, now);
  }

  lemma StillUndecided(job: Job, initialized: bool, pods: seq<Pod>, after: seq<Pod>)
    requires Judge(job, initialized, pods) == Undecided
    requires forall rt :: Observe(job, true, after, rt) == Observe(job, initialized, pods, rt)
    requires forall rt :: Len(after, rt) >= job.Replicas(rt) && Num(after, rt, Failed) == 0
    ensures Judge(job, true, after) == Undecided
  {
    hide Num, Len;
    assert Observe(job, true, after, Worker).succeeded == Observe(job, initialized, pods, Worker).succeeded;
  }

  lemma NothingMissing(job: Job, pods: seq<Pod>, r: Replies)
    ensures AllCalls(job, true, pods) == 0 && AllBorn(job, true, pods, r) == []
    ensures pods + AllBorn(job, true, pods, r) == pods
  {
    hide Len;
  }

  lemma NoneBorn(job: Job, rt: ReplicaType, create: nat -> CreateReply)
    ensures Born(job, rt, create, 0) == []
  {
  }

  /** Even a pass that is cut short creates nothing for an initialized job. */
  lemma AbortedCreates(job: Job, saved: Status, pods: seq<Pod>, services: seq<S.Service>, r: Replies)
    requires !IsJobFinished(saved.conditions) && Initialized(saved)
    ensures var rec := Sync(job, saved, pods, services, r);
            rec.end == Aborted ==> rec.creates == 0 && rec.pods == pods
  {
    hide Check, ReconcilePods, Counted, Sound, IsJobFinished, S.Reconcile, Conclude, Born, Refused, Noted;
    forall rt ensures Born(job, rt, r.create(rt), 0) == [] {
      NoneBorn(job, rt, r.create(rt));
    }
    assert pods + [] == pods && pods + ([] + []) == pods && pods + ([] + [] + []) == pods;
    var st := Noted(saved, r.now(AT_CREATED));
    NotedEffect(saved, r.now(AT_CREATED));
    UnfinishedIsSound(st.conditions);
    UnfinishedNotSucceeded(st.conditions);
    var a := Counted(job, st, pods, Scheduler, r.now);
    StageEffect(job, st, pods, Scheduler, r);
    CountedStays(job, st, pods, Scheduler, r.now);
    StageEffect(job, a, pods, Server, r);
    var b := Counted(job, a, pods, Server, r.now);
    CountedStays(job, a, pods, Server, r.now);
    StageEffect(job, b, pods, Worker, r);
    ConcludeNotAborted(st, pods, r);
  }

  lemma ConcludeNotAborted(st: Status, pods: seq<Pod>, r: Replies)
    ensures forall rec: Record, born ::
      rec.finishHook.None? && rec.startHook.None? && rec.deletes == 0 ==>
        Conclude(rec, st, pods, born, r).end != Aborted
  {
    hide Conclude, IsJobFinished, Begun, Terminated, Survivors;
    forall rec: Record, born | rec.finishHook.None? && rec.startHook.None? && rec.deletes == 0
      ensures Conclude(rec, st, pods, born, r).end != Aborted
    {
      ConcludeEffect(rec, st, pods, born, r);
    }
  }
}
