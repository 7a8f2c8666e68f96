/** The reconciler over time: passes with arbitrary replies, interleaved with whatever else happens
    to the cluster. */
module Runs {
  import opened Types
  import opened Conditions
  import opened Pods
  import opened Pass
  import opened Verdicts
  import opened Counters
  import opened Statuses
  import S = Services

  /** The persisted status, the cluster, the clock, and a record of every pass so far. `pending` is
      the job's own deletion timestamp. */
  datatype State = State(
    status: Status, pods: seq<Pod>, services: seq<S.Service>, pending: bool, clock: Time, history: seq<Record>)

  datatype Step =
    | SyncStep(r: Replies)
    | PhaseStep(i: nat, phase: Phase)
    | MarkStep(i: nat)
    | VanishStep(i: nat)
    | ForeignPod(pod: Pod)
    | ServiceVanishes(i: nat)
    | ForeignService(service: S.Service)
    | DeleteJob

  /** One step. A pass over a job pending deletion touches neither its pods nor its status. */
  function Apply(job: Job, s: State, step: Step): State {
    match step
    case SyncStep(r) =>
      if s.pending then s
      else
        var rec := Sync(job, s.status, s.pods, s.services, r);
        State(rec.saved, rec.pods, rec.services, s.pending, r.now(AT_END), s.history + [rec])
    case PhaseStep(i, phase) => if i < |s.pods| then s.(pods := s.pods[i := s.pods[i].(phase := phase)]) else s
    case MarkStep(i) => if i < |s.pods| then s.(pods := s.pods[i := s.pods[i].(deleting := true)]) else s
    case VanishStep(i) => if i < |s.pods| then s.(pods := s.pods[..i] + s.pods[i + 1..]) else s
    case ForeignPod(p) => s.(pods := s.pods + [p])
    case ServiceVanishes(i) => if i < |s.services| then s.(services := s.services[..i] + s.services[i + 1..]) else s
    case ForeignService(v) => s.(services := s.services + [v])
    case DeleteJob => s.(pending := true)
  }

  function Exec(job: Job, s: State, steps: seq<Step>): State {
    if steps == [] then s
    else Apply(job, Exec(job, s, steps[..|steps| - 1]), steps[|steps| - 1])
  }

  /** A newly created job over an arbitrary cluster. */
  function Init(pods: seq<Pod>, services: seq<S.Service>, clock: Time): State {
    State(EMPTY_STATUS, pods, services, false, clock, [])
  }

  lemma StatusMovesOnlyBySync(job: Job, s: State, step: Step)
    ensures !step.SyncStep? || s.pending ==>
            Apply(job, s, step).status == s.status && Apply(job, s, step).history == s.history
  {
    hide Sync;
  }

  // Safety of the persisted status.

  /** The invariant of every persisted status. */
  ghost predicate Coherent(st: Status) {
    && Unique(st.conditions)
    && !(Check(st.conditions, JobSucceeded) && Check(st.conditions, JobFailed))
    && (forall k :: Explained(st.conditions, k))
    && (!IsJobFinished(st.conditions) ==> Blank(st.conditions))
    && (st.completionTime.Some? <==> Check(st.conditions, JobSucceeded))
    && (Initialized(st) ==> Check(st.conditions, JobCreated))
  }

  lemma ReachedCoherent(job: Job, saved: Status, pods: seq<Pod>, now: nat -> Time)
    requires Coherent(saved) && !IsJobFinished(saved.conditions)
    ensures Coherent(Reached(job, saved, pods, now))
  {
    hide Get, IsJobFinished, Reached, Judge, Observe, Num, Unique, Advanced, Explained;
    var st := Reached(job, saved, pods, now);
    ReachedEffect(job, saved, pods, now);
    ReachedKeeps(job, saved, pods, now);
    ReachedTimes(job, saved, pods, now);
    if Judge(job, Initialized(saved), pods) == Undecided {
      ReachedBlank(job, saved, pods, now);
    }
    SuccessIsAllWorkers(job, Initialized(saved), pods);
  }

  lemma SuccessIsAllWorkers(job: Job, initialized: bool, pods: seq<Pod>)
    ensures Judge(job, initialized, pods) == Success <==> Num(pods, Worker, Succeeded) == job.Replicas(Worker)
  {
    hide Num, Broken;
  }

  lemma SyncCoherent(job: Job, saved: Status, pods: seq<Pod>, services: seq<S.Service>, r: Replies)
    requires Coherent(saved)
    ensures Coherent(Sync(job, saved, pods, services, r).saved)
  {
    hide Get, Reached, Judge, Unique, Blank, Check, Mark, Reconcile, Survivors, Moved;
    if IsJobFinished(saved.conditions) {
      NotedEffect(saved, r.now(AT_CREATED));
    } else {
      SyncEffect(job, saved, pods, services, r);
      ReachedCoherent(job, saved, pods, r.now);
    }
  }

  /** Over every run: condition types stay unique, every condition gives its own type's reason and
      none says that the job restarts, the two verdicts are never both true, an unfinished job carries
      no verdict entry, the completion time is set exactly when the job succeeded, and no job is
      initialized before it is created. */
  lemma {:induction false} EveryRunIsCoherent(
    job: Job, pods: seq<Pod>, services: seq<S.Service>, clock: Time, steps: seq<Step>)
    ensures Coherent(Exec(job, Init(pods, services, clock), steps).status)
  {
    hide Coherent, Sync;
    if steps == [] {
      EmptyIsCoherent();
    } else {
      var s := Exec(job, Init(pods, services, clock), steps[..|steps| - 1]);
      EveryRunIsCoherent(job, pods, services, clock, steps[..|steps| - 1]);
      match steps[|steps| - 1] {
        case SyncStep(r) => SyncCoherent(job, s.status, s.pods, s.services, r);
        case _ => StatusMovesOnlyBySync(job, s, steps[|steps| - 1]);
      }
    }
  }

  lemma EmptyIsCoherent()
    ensures Coherent(EMPTY_STATUS) && !Initialized(EMPTY_STATUS) && !IsJobFinished(EMPTY_STATUS.conditions)
  {
  }

  /** In every reachable state the any-match gate of a pass and the first-match test agree. */
  lemma GateAgreesOverRuns(job: Job, pods: seq<Pod>, services: seq<S.Service>, clock: Time, steps: seq<Step>)
    ensures var cs := Exec(job, Init(pods, services, clock), steps).status.conditions;
            IsJobFinished(cs) <==> Check(cs, JobSucceeded) || Check(cs, JobFailed)
  {
    hide Get, Exec, Blank, Check, IsJobFinished;
    EveryRunIsCoherent(job, pods, services, clock, steps);
    TestsAgree(Exec(job, Init(pods, services, clock), steps).status.conditions, JobFailed);
  }

  // Terminal states.

  /** The same steps without the passes. */
  function Erase(steps: seq<Step>): seq<Step> {
    if steps == [] then []
    else
      var front, last := steps[..|steps| - 1], steps[|steps| - 1];
      if last.SyncStep? then Erase(front) else Erase(front) + [last]
  }

  predicate Idle(rec: Record) {
    rec.creates == 0 && rec.serviceCreates == 0 && rec.deletes == 0 && rec.startHook.None? && rec.finishHook.None?
  }

  /** Once a finished status is persisted, passes can be erased from the future without a trace: the
      status never changes again, the cluster evolves as if the controller were not there, and every
      later pass issues no call and no hook. */
  lemma {:induction false} FinishedIsAbsorbing(job: Job, s: State, steps: seq<Step>)
    requires IsJobFinished(s.status.conditions)
    ensures var t := Exec(job, s, steps);
            var e := Exec(job, s, Erase(steps));
            && t.status == s.status && e.status == s.status
            && t.pods == e.pods && t.services == e.services && t.pending == e.pending
            && s.history <= t.history
            && (forall i :: |s.history| <= i < |t.history| ==> t.history[i].end == Skipped && Idle(t.history[i]))
  {
    hide IsJobFinished, Sync, Apply;
    if steps != [] {
      var front, last := steps[..|steps| - 1], steps[|steps| - 1];
      FinishedIsAbsorbing(job, s, front);
      var t := Exec(job, s, front);
      if last.SyncStep? {
        FinishedStep(job, t, last.r);
      } else {
        assert (Erase(front) + [last])[..|Erase(front)|] == Erase(front);
        OtherStep(job, t, Exec(job, s, Erase(front)), last);
      }
    }
  }

  lemma FinishedStep(job: Job, s: State, r: Replies)
    requires IsJobFinished(s.status.conditions)
    ensures var t := Apply(job, s, SyncStep(r));
            && t.status == s.status && t.pods == s.pods && t.services == s.services && t.pending == s.pending
            && s.history <= t.history
            && (forall i :: |s.history| <= i < |t.history| ==> t.history[i].end == Skipped && Idle(t.history[i]))
  {
    hide IsJobFinished, Sync;
    FinishedSkips(job, s.status, s.pods, s.services, r);
  }

  lemma OtherStep(job: Job, s: State, e: State, step: Step)
    requires !step.SyncStep?
    requires s.status == e.status && s.pods == e.pods && s.services == e.services && s.pending == e.pending
    ensures var t, f := Apply(job, s, step), Apply(job, e, step);
            && t.status == s.status && f.status == e.status && t.history == s.history
            && t.pods == f.pods && t.services == f.services && t.pending == f.pending
  {
  }

  // Lifecycle.

  lemma SyncLifecycle(job: Job, saved: Status, pods: seq<Pod>, services: seq<S.Service>, r: Replies)
    ensures var rec := Sync(job, saved, pods, services, r);
            && (Check(saved.conditions, JobCreated) ==> Check(rec.saved.conditions, JobCreated))
            && (Initialized(saved) ==> Initialized(rec.saved))
            && (rec.end in {Updated, UpdateFailed(true)} ==>
                  Check(rec.saved.conditions, JobCreated) && Initialized(rec.saved))
            && (Initialized(saved) ==> rec.creates == 0)
  {
    hide Get, IsJobFinished, Reached, Judge, Observe, Sound, Mark, Reconcile, Survivors, Moved, Num, Len;
    if IsJobFinished(saved.conditions) {
      NotedEffect(saved, r.now(AT_CREATED));
    } else {
      SyncEffect(job, saved, pods, services, r);
      ReachedEffect(job, saved, pods, r.now);
      if Initialized(saved) {
        AbortedCreates(job, saved, pods, services, r);
        NothingMissing(job, pods, r);
      }
    }
  }

  /** Created and Initialized are never retracted, every status the reconciler writes has both, and
      after Initialized is persisted no pod is ever created again. */
  lemma {:induction false} LifecycleOverRuns(job: Job, s: State, steps: seq<Step>)
    ensures var t := Exec(job, s, steps);
            && (Check(s.status.conditions, JobCreated) ==> Check(t.status.conditions, JobCreated))
            && (Initialized(s.status) ==> Initialized(t.status))
            && s.history <= t.history
            && (forall i :: |s.history| <= i < |t.history| && t.history[i].end in {Updated, UpdateFailed(true)} ==>
                  Check(t.history[i].saved.conditions, JobCreated) && Initialized(t.history[i].saved))
            && (Initialized(s.status) ==> forall i :: |s.history| <= i < |t.history| ==> t.history[i].creates == 0)
  {
    hide Check, Initialized, Sync;
    if steps != [] {
      var front, last := steps[..|steps| - 1], steps[|steps| - 1];
      LifecycleOverRuns(job, s, front);
      var t := Exec(job, s, front);
      if last.SyncStep? && !t.pending {
        SyncLifecycle(job, t.status, t.pods, t.services, last.r);
      }
    }
  }

  /** In every reachable state a pass that gets to the end attempts an update exactly when the status
      it computed differs from the persisted one. */
  lemma UpdateIffChanged(
    job: Job, pods: seq<Pod>, services: seq<S.Service>, clock: Time, steps: seq<Step>, r: Replies)
    ensures var s := Exec(job, Init(pods, services, clock), steps);
            var rec := Sync(job, s.status, s.pods, s.services, r);
            rec.end !in {Skipped, Aborted, TerminateFailed} ==> (rec.end == Unchanged <==> rec.live == s.status)
  {
    hide Get, Exec, Sync, Reached, Judge, Observe, Sound, Unique, IsJobFinished, Blank, Survivors, Moved, Mark, Num;
    EveryRunIsCoherent(job, pods, services, clock, steps);
    var s := Exec(job, Init(pods, services, clock), steps);
    if !IsJobFinished(s.status.conditions) {
      SyncEffect(job, s.status, s.pods, s.services, r);
      ReachedEffect(job, s.status, s.pods, r.now);
      NotedEffect(s.status, r.now(AT_CREATED));
    } else {
      FinishedSkips(job, s.status, s.pods, s.services, r);
    }
  }

  lemma FinishedSkips(job: Job, saved: Status, pods: seq<Pod>, services: seq<S.Service>, r: Replies)
    requires IsJobFinished(saved.conditions)
    ensures var rec := Sync(job, saved, pods, services, r);
            rec.end == Skipped && rec.saved == saved && rec.pods == pods && rec.services == services && Idle(rec)
  {
    hide IsJobFinished, Noted, Reconcile;
    NotedEffect(saved, r.now(AT_CREATED));
  }

  // The number of pods.

  /** Where a pass may be cut short. */
  lemma AbortedStages(job: Job, saved: Status, pods: seq<Pod>, services: seq<S.Service>, r: Replies)
    requires !IsJobFinished(saved.conditions)
    ensures var i := Initialized(saved);
            var a := Born(job, Scheduler, r.create(Scheduler), Calls(job, i, pods, Scheduler));
            var b := Born(job, Server, r.create(Server), Calls(job, i, pods, Server));
            var c := Born(job, Worker, r.create(Worker), Calls(job, i, pods, Worker));
            var rec := Sync(job, saved, pods, services, r);
            rec.end == Aborted ==>
            rec.pods == pods || rec.pods == pods + a || rec.pods == pods + (a + b) || rec.pods == pods + (a + b + c)
  {
    hide Check, ReconcilePods, Counted, Sound, IsJobFinished, Calls, S.Reconcile, Conclude, Born, Refused, Noted;
    var st := Noted(saved, r.now(AT_CREATED));
    NotedEffect(saved, r.now(AT_CREATED));
    UnfinishedIsSound(st.conditions);
    UnfinishedNotSucceeded(st.conditions);
    var a := Counted(job, st, pods, Scheduler, r.now);
    StageEffect(job, st, pods, Scheduler, r);
    CountedStays(job, st, pods, Scheduler, r.now);
    StageEffect(job, a, pods, Server, r);
    var b := Counted(job, a, pods, Server, r.now);
    CountedStays(job, a, pods, Server, r.now);
    StageEffect(job, b, pods, Worker, r);
    ConcludeNotAborted(st, pods, r);
  }

  /** A pass that is cut short has only added pods, at most the shortfall of each type. */
  lemma AbortedPods(job: Job, saved: Status, pods: seq<Pod>, services: seq<S.Service>, r: Replies)
    returns (extra: seq<Pod>)
    requires !IsJobFinished(saved.conditions)
    requires Sync(job, saved, pods, services, r).end == Aborted
    ensures Sync(job, saved, pods, services, r).pods == pods + extra
    ensures forall rt :: Only(extra, rt, Calls(job, Initialized(saved), pods, rt))
  {
    hide IsJobFinished, Sync, Calls, Born, Only, Initialized;
    AbortedStages(job, saved, pods, services, r);
    var i := Initialized(saved);
    var a := Born(job, Scheduler, r.create(Scheduler), Calls(job, i, pods, Scheduler));
    var b := Born(job, Server, r.create(Server), Calls(job, i, pods, Server));
    var c := Born(job, Worker, r.create(Worker), Calls(job, i, pods, Worker));
    var after := Sync(job, saved, pods, services, r).pods;
    extra :=
      if after == pods then [] else if after == pods + a then a else if after == pods + (a + b) then a + b else a + b + c;
    assert pods + [] == pods;
    forall rt ensures Only(extra, rt, Calls(job, i, pods, rt)) {
      StagesOnly(job, i, pods, r, rt);
    }
  }

  /** At most n pods of the type, none of them finished. */
  predicate Only(pods: seq<Pod>, rt: ReplicaType, n: nat) {
    Len(pods, rt) <= n && Num(pods, rt, Succeeded) == 0 && Num(pods, rt, Failed) == 0
  }

  lemma StagesOnly(job: Job, initialized: bool, pods: seq<Pod>, r: Replies, rt: ReplicaType)
    ensures var n := Calls(job, initialized, pods, rt);
            var a := Born(job, Scheduler, r.create(Scheduler), Calls(job, initialized, pods, Scheduler));
            var b := Born(job, Server, r.create(Server), Calls(job, initialized, pods, Server));
            var c := Born(job, Worker, r.create(Worker), Calls(job, initialized, pods, Worker));
            Only([], rt, n) && Only(a, rt, n) && Only(a + b, rt, n) && Only(a + b + c, rt, n)
  {
    hide Num, Len, Born, Calls;
    var i := initialized;
    NoPods(rt);
    BornNum(job, Scheduler, r.create(Scheduler), Calls(job, i, pods, Scheduler), rt);
    BornOnlyActive(job, Scheduler, r.create(Scheduler), Calls(job, i, pods, Scheduler), rt);
    BornNum(job, Server, r.create(Server), Calls(job, i, pods, Server), rt);
    BornOnlyActive(job, Server, r.create(Server), Calls(job, i, pods, Server), rt);
    NumConcat(
      Born(job, Scheduler, r.create(Scheduler), Calls(job, i, pods, Scheduler)),
      Born(job, Server, r.create(Server), Calls(job, i, pods, Server)), rt);
    AllBornNum(job, i, pods, r, rt);
  }

  lemma {:induction false} NoneActive(pods: seq<Pod>, delete: nat -> DeleteReply)
    requires ActivePods(pods) == []
    ensures Survivors(pods, delete) == pods
  {
    hide BucketOf;
    if pods != [] {
      NoneActive(pods[..|pods| - 1], delete);
    }
  }

  /** What any pass over an unfinished job does to the pods of a type: it never provisions beyond the
      requested number, never touches a finished pod, never creates once initialized, and loses none
      unless it deletes. */
  lemma SyncPods(job: Job, saved: Status, pods: seq<Pod>, services: seq<S.Service>, r: Replies, rt: ReplicaType)
    requires !IsJobFinished(saved.conditions)
    ensures var rec := Sync(job, saved, pods, services, r);
            && Len(rec.pods, rt) <= Max(Len(pods, rt), job.Replicas(rt))
            && Num(rec.pods, rt, Succeeded) == Num(pods, rt, Succeeded)
            && Num(rec.pods, rt, Failed) == Num(pods, rt, Failed)
            && (Initialized(saved) ==> Len(rec.pods, rt) <= Len(pods, rt))
            && (rec.deletes == 0 ==> Len(rec.pods, rt) >= Len(pods, rt))
  {
    hide IsJobFinished, Sync, Num, Len, Survivors, ActivePods, Reached, Judge, AllBorn, Moved;
    var rec := Sync(job, saved, pods, services, r);
    SyncEffect(job, saved, pods, services, r);
    if rec.end == Aborted {
      var extra := AbortedPods(job, saved, pods, services, r);
      assert Only(extra, rt, Calls(job, Initialized(saved), pods, rt));
      NumConcat(pods, extra, rt);
    } else {
      var born := AllBorn(job, Initialized(saved), pods, r);
      AllBornNum(job, Initialized(saved), pods, r, rt);
      NumConcat(pods, born, rt);
      NumConcat(Survivors(pods, r.delete), born, rt);
      SurvivorsNum(pods, r.delete, rt);
      if |ActivePods(pods)| == 0 {
        NoneActive(pods, r.delete);
      }
    }
  }

  lemma SyncPodsAny(job: Job, saved: Status, pods: seq<Pod>, services: seq<S.Service>, r: Replies, rt: ReplicaType)
    ensures var rec := Sync(job, saved, pods, services, r);
            && Len(rec.pods, rt) <= Max(Len(pods, rt), job.Replicas(rt))
            && (rec.deletes == 0 ==> Len(rec.pods, rt) >= Len(pods, rt))
  {
    hide IsJobFinished, Sync, Len;
    if IsJobFinished(saved.conditions) {
      FinishedSkips(job, saved, pods, services, r);
    } else {
      SyncPods(job, saved, pods, services, r, rt);
    }
  }

  /** The pods of a type that appear outside a pass. */
  function Added(steps: seq<Step>, rt: ReplicaType): nat {
    if steps == [] then 0
    else
      var front, last := steps[..|steps| - 1], steps[|steps| - 1];
      Added(front, rt) + if last.ForeignPod? then Len([last.pod], rt) else 0
  }

  /** How any single step moves the number of pods of a type. */
  lemma StepLen(job: Job, s: State, step: Step, rt: ReplicaType)
    ensures var t := Apply(job, s, step);
            && Len(t.pods, rt) <= Max(Len(s.pods, rt), job.Replicas(rt)) + Added([step], rt)
            && s.history <= t.history
            && (!step.VanishStep? && (forall i :: |s.history| <= i < |t.history| ==> t.history[i].deletes == 0) ==>
                  Len(t.pods, rt) >= Len(s.pods, rt))
  {
    hide Len, Sync;
    assert Added([step][..0], rt) == 0;
    match step
    case SyncStep(r) =>
      if !s.pending {
        SyncPodsAny(job, s.status, s.pods, s.services, r, rt);
        var t := Apply(job, s, step);
        assert t.history[|s.history|] == Sync(job, s.status, s.pods, s.services, r);
      }
    case PhaseStep(i, phase) =>
      if i < |s.pods| {
        PodReplaced(s.pods, i, s.pods[i].(phase := phase), rt);
      }
    case MarkStep(i) =>
      if i < |s.pods| {
        PodReplaced(s.pods, i, s.pods[i].(deleting := true), rt);
      }
    case VanishStep(i) =>
      if i < |s.pods| {
        PodRemoved(s.pods, i, rt);
      }
    case ForeignPod(p) => NumConcat(s.pods, [p], rt);
    case _ =>
  }

  /** No over-provisioning in any run: however creates fail, time out or are retried, a type never has
      more pods than it started with or than were asked for, plus those that appear outside a pass:
      other people's, and those of an earlier create that show up after the next listing. */
  lemma {:induction false} NeverOverProvisioned(job: Job, s: State, steps: seq<Step>, rt: ReplicaType)
    ensures Len(Exec(job, s, steps).pods, rt) <= Max(Len(s.pods, rt), job.Replicas(rt)) + Added(steps, rt)
  {
    hide Len, Apply;
    if steps != [] {
      var n := |steps| - 1;
      assert Added([steps[n]][..0], rt) == 0;
      NeverOverProvisioned(job, s, steps[..n], rt);
      StepLen(job, Exec(job, s, steps[..n]), steps[n], rt);
    }
  }

  /** Until the controller deletes something, and unless pods vanish by themselves, the number of
      missing pods never grows. */
  lemma {:induction false} MissingNeverGrows(job: Job, s: State, steps: seq<Step>, rt: ReplicaType)
    requires forall i :: 0 <= i < |steps| ==> !steps[i].VanishStep?
    ensures var t := Exec(job, s, steps);
            && s.history <= t.history
            && ((forall i :: |s.history| <= i < |t.history| ==> t.history[i].deletes == 0) ==>
                  Len(t.pods, rt) >= Len(s.pods, rt))
  {
    hide Len, Apply;
    if steps != [] {
      var n := |steps| - 1;
      var m := Exec(job, s, steps[..n]);
      MissingNeverGrows(job, s, steps[..n], rt);
      StepLen(job, m, steps[n], rt);
      var t := Exec(job, s, steps);
      assert forall i :: 0 <= i < |m.history| ==> m.history[i] == t.history[i];
    }
  }

  // Services.

  lemma SyncServices(job: Job, saved: Status, pods: seq<Pod>, services: seq<S.Service>, r: Replies)
    ensures var after := Sync(job, saved, pods, services, r).services;
            after == services || after == S.Reconcile(job, services, r.services).services
  {
    hide IsJobFinished, ReconcilePods, S.Reconcile, Noted, Begun, Terminated, Survivors, ActivePods, Undeleted,
         Initialized;
  }

  lemma RemovedUsable(job: Job, services: seq<S.Service>, i: nat)
    requires i < |services|
    ensures S.CountUsable(job, services[..i] + services[i + 1..]) <= S.CountUsable(job, services)
  {
    hide S.CountUsable;
    assert services == services[..i] + [services[i]] + services[i + 1..];
    S.UsableConcat(job, services[..i], services[i + 1..]);
    S.UsableConcat(job, services[..i] + [services[i]], services[i + 1..]);
    S.UsableConcat(job, services[..i], [services[i]]);
  }

  /** The usable services that appear outside a pass. */
  function AddedServices(job: Job, steps: seq<Step>): nat {
    if steps == [] then 0
    else
      var front, last := steps[..|steps| - 1], steps[|steps| - 1];
      AddedServices(job, front) + if last.ForeignService? then S.CountUsable(job, [last.service]) else 0
  }

  /** Over every run the job never gets a second usable service, beyond those it started with and
      those that appear outside a pass. */
  lemma {:induction false} NeverTwoServices(job: Job, s: State, steps: seq<Step>)
    ensures S.CountUsable(job, Exec(job, s, steps).services) <=
            Max(S.CountUsable(job, s.services), 1) + AddedServices(job, steps)
  {
    hide S.CountUsable, Sync, S.Reconcile;
    if steps != [] {
      var n := |steps| - 1;
      var m := Exec(job, s, steps[..n]);
      NeverTwoServices(job, s, steps[..n]);
      match steps[n] {
        case SyncStep(r) =>
          S.ServicesBounded(job, m.services, r.services);
          SyncServices(job, m.status, m.pods, m.services, r);
        case ServiceVanishes(i) =>
          if i < |m.services| {
            RemovedUsable(job, m.services, i);
          }
        case ForeignService(v) => S.UsableConcat(job, m.services, [v]);
        case _ =>
      }
    }
  }
}
