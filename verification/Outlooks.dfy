/** What can still become of a verdict when pods go on finishing and vanishing by themselves, and
    when surplus workers keep a job from ever getting one. */
module Outlooks {
  import opened Types
  import opened Labels
  import opened Conditions
  import opened Pods
  import opened Pass
  import opened Verdicts
  import opened Counters
  import opened Runs
  import opened Stability
  import S = Services

  /** Unfinished pods may do anything, finished pods stay, and no pod appears outside a pass. */
  predicate Natural(s: State, step: Step) {
    match step
    case PhaseStep(i, _) => i < |s.pods| ==> !Finished(s.pods[i])
    case VanishStep(i) => i < |s.pods| ==> !Finished(s.pods[i])
    case ForeignPod(_) => false
    case _ => true
  }

  predicate Naturally(job: Job, s: State, steps: seq<Step>) {
    steps == [] ||
    (Naturally(job, s, steps[..|steps| - 1]) && Natural(Exec(job, s, steps[..|steps| - 1]), steps[|steps| - 1]))
  }

  /** How one natural step moves the pods: finished pods accumulate, and only a pass over a job that
      is not initialized adds any, up to the requested number. */
  lemma NaturalPods(job: Job, s: State, step: Step, rt: ReplicaType)
    requires Natural(s, step)
    ensures var after := Apply(job, s, step).pods;
            && Num(after, rt, Succeeded) >= Num(s.pods, rt, Succeeded)
            && Num(after, rt, Failed) >= Num(s.pods, rt, Failed)
            && Len(after, rt) <= Max(Len(s.pods, rt), job.Replicas(rt))
            && (Initialized(s.status) || s.pending || !step.SyncStep? ==> Len(after, rt) <= Len(s.pods, rt))
            && (step.SyncStep? ==> Num(after, rt, Succeeded) == Num(s.pods, rt, Succeeded))
  {
    hide Num, Len, RoleOf, IsJobFinished, Sync, Initialized;
    match step
    case SyncStep(r) =>
      if IsJobFinished(s.status.conditions) {
        FinishedSkips(job, s.status, s.pods, s.services, r);
      } else if !s.pending {
        SyncPods(job, s.status, s.pods, s.services, r, rt);
      }
    case PhaseStep(i, phase) =>
      if i < |s.pods| {
        PodReplaced(s.pods, i, s.pods[i].(phase := phase), rt);
        FinishedNum(s.pods[i], rt);
        FinishedNum(s.pods[i].(phase := phase), rt);
      }
    case MarkStep(i) =>
      if i < |s.pods| {
        PodReplaced(s.pods, i, s.pods[i].(deleting := true), rt);
        FinishedNum(s.pods[i], rt);
        FinishedNum(s.pods[i].(deleting := true), rt);
      }
    case VanishStep(i) =>
      if i < |s.pods| {
        PodRemoved(s.pods, i, rt);
        FinishedNum(s.pods[i], rt);
      }
    case _ =>
  }

  /** A pass over an unfinished job persists a verdict only if it is the job's heading, and otherwise
      can only initialize the job. */
  lemma StepStatus(job: Job, s: State, step: Step)
    requires !IsJobFinished(s.status.conditions)
    ensures var t := Apply(job, s, step);
            && (s.pending ==> t.pending)
            && (IsJobFinished(t.status.conditions) ==>
                  Carried(t.status.conditions) == Judge(job, Initialized(s.status), s.pods) != Undecided)
            && (Initialized(s.status) ==> Initialized(t.status))
            && (Judge(job, Initialized(s.status), s.pods) != Undecided && !IsJobFinished(t.status.conditions) ==>
                  t.status == s.status)
  {
    hide IsJobFinished, Sync, Judge, Carried, Reached, Terminated, Survivors, AllBorn, Initialized, Noted;
    if step.SyncStep? && !s.pending {
      SyncEffect(job, s.status, s.pods, s.services, step.r);
      ReachedEffect(job, s.status, s.pods, step.r.now);
      TerminatedConditions(Reached(job, s.status, s.pods, step.r.now), s.pods);
    }
  }

  lemma FinishedStays(job: Job, s: State, step: Step)
    requires IsJobFinished(s.status.conditions)
    ensures Apply(job, s, step).status == s.status
  {
    hide IsJobFinished, Sync;
    if step.SyncStep? && !s.pending {
      FinishedSkips(job, s.status, s.pods, s.services, step.r);
    }
  }

  lemma FinishedFit(pods: seq<Pod>, rt: ReplicaType)
    ensures Num(pods, rt, Succeeded) + Num(pods, rt, Failed) + Num(pods, rt, Active) + Num(pods, rt, Leaving) ==
            Len(pods, rt)
  {
    hide OfType, In;
    BucketsPartition(OfType(pods, rt));
  }

  // Success within reach.

  /** The most workers there can still be: a job that is not initialized gets its missing ones. */
  function Reach(job: Job, s: State): int {
    if Initialized(s.status) || s.pending then Len(s.pods, Worker) else Max(Len(s.pods, Worker), job.Replicas(Worker))
  }

  /** Not too many workers have succeeded, and not too few still can. */
  predicate MaySucceed(job: Job, s: State) {
    if IsJobFinished(s.status.conditions) then Carried(s.status.conditions) == Success
    else
      Num(s.pods, Worker, Succeeded) <= job.Replicas(Worker) <= Reach(job, s) - Num(s.pods, Worker, Failed)
  }

  lemma SuccessMaySucceed(job: Job, s: State)
    requires Heading(job, s) == Success
    ensures MaySucceed(job, s)
  {
    hide IsJobFinished, Num, Len, Initialized, Carried, Broken;
    FinishedFit(s.pods, Worker);
  }

  lemma StepKeepsHopeless(job: Job, s: State, step: Step)
    requires Natural(s, step) && !MaySucceed(job, s)
    ensures !MaySucceed(job, Apply(job, s, step))
  {
    hide IsJobFinished, Num, Len, Initialized, Carried, Judge, Apply, Natural;
    if IsJobFinished(s.status.conditions) {
      FinishedStays(job, s, step);
    } else {
      NaturalPods(job, s, step, Worker);
      StepStatus(job, s, step);
      if Judge(job, Initialized(s.status), s.pods) == Success {
        SuccessMaySucceed(job, s);
      }
    }
  }

  lemma {:induction false} HopelessStays(job: Job, s: State, steps: seq<Step>)
    requires Naturally(job, s, steps) && !MaySucceed(job, s)
    ensures !MaySucceed(job, Exec(job, s, steps))
  {
    hide MaySucceed, Apply, Natural;
    if steps != [] {
      var n := |steps| - 1;
      HopelessStays(job, s, steps[..n]);
      StepKeepsHopeless(job, Exec(job, s, steps[..n]), steps[n]);
    }
  }

  /** An unfinished pod of the type. */
  lemma {:induction false} FindPod(pods: seq<Pod>, rt: ReplicaType) returns (i: nat)
    requires Len(pods, rt) > Num(pods, rt, Succeeded) + Num(pods, rt, Failed)
    ensures i < |pods| && Role(pods[i]) == Some(rt) && !Finished(pods[i])
  {
    hide Len, Num, RoleOf;
    if pods == [] {
      NoPods(rt);
      assert false;
    } else {
      var front, last := pods[..|pods| - 1], pods[|pods| - 1];
      assert pods == front + [last];
      NumConcat(front, [last], rt);
      FinishedNum(last, rt);
      if Role(last) == Some(rt) && !Finished(last) {
        i := |pods| - 1;
      } else {
        i := FindPod(front, rt);
      }
    }
  }

  /** Extends a natural run by workers that succeed one after the other until there are n. */
  lemma {:induction false} Finishing(job: Job, s: State, steps: seq<Step>, n: int) returns (all: seq<Step>)
    requires Naturally(job, s, steps)
    requires var pods := Exec(job, s, steps).pods;
             Num(pods, Worker, Succeeded) <= n <= Len(pods, Worker) - Num(pods, Worker, Failed)
    ensures Naturally(job, s, all)
    ensures Num(Exec(job, s, all).pods, Worker, Succeeded) == n
    ensures Exec(job, s, all).status == Exec(job, s, steps).status
    decreases n - Num(Exec(job, s, steps).pods, Worker, Succeeded)
  {
    hide Num, Len, Exec, RoleOf;
    var t := Exec(job, s, steps);
    if Num(t.pods, Worker, Succeeded) == n {
      all := steps;
    } else {
      var i := FindPod(t.pods, Worker);
      var step := PhaseStep(i, PodSucceeded);
      ExecLast(job, s, steps, step);
      assert (steps + [step])[..|steps|] == steps;
      PodReplaced(t.pods, i, t.pods[i].(phase := PodSucceeded), Worker);
      FinishedNum(t.pods[i], Worker);
      FinishedNum(t.pods[i].(phase := PodSucceeded), Worker);
      all := Finishing(job, s, steps + [step], n);
    }
  }

  const REFUSE: nat -> DeleteReply := k => DeleteError(Stays)

  lemma StepSurvivors(front: seq<Pod>, last: Pod)
    ensures Survivors(front + [last], REFUSE) == Survivors(front, REFUSE) + [last]
  {
    hide BucketOf, ActivePods;
    assert (front + [last])[..|front|] == front;
  }

  lemma {:induction false} SurvivorsStay(pods: seq<Pod>)
    ensures Survivors(pods, REFUSE) == pods
  {
    hide Survivors;
    if pods == [] {
      NoSurvivors();
    } else {
      var front, last := pods[..|pods| - 1], pods[|pods| - 1];
      assert pods == front + [last];
      SurvivorsStay(front);
      StepSurvivors(front, last);
    }
  }

  lemma NoSurvivors()
    ensures Survivors([], REFUSE) == []
  {
  }

  /** The replies to a pass that creates everything missing, deletes nothing and saves nothing. */
  function Fruitless(job: Job): Replies {
    Replies(
      false, rt => k => Created, S.Replies(false, S.Live(job.uid, false), k => S.Patched, Created, ""),
      REFUSE, UpdateError(false), i => 0)
  }

  lemma FruitlessPass(job: Job, s: State)
    requires !IsJobFinished(s.status.conditions) && !s.pending && !Initialized(s.status)
    ensures var t := Apply(job, s, SyncStep(Fruitless(job)));
            && t.status == s.status
            && Len(t.pods, Worker) == Max(Len(s.pods, Worker), job.Replicas(Worker))
            && Num(t.pods, Worker, Succeeded) == Num(s.pods, Worker, Succeeded)
            && Num(t.pods, Worker, Failed) == Num(s.pods, Worker, Failed)
  {
    hide IsJobFinished, Num, Len, Sync, Judge, Reached, Terminated, Survivors, AllBorn, Noted, AllCalls, Check;
    var r := Fruitless(job);
    SmoothSync(job, s, r);
    SyncEffect(job, s.status, s.pods, s.services, r);
    SurvivorsStay(s.pods);
    var born := AllBorn(job, false, s.pods, r);
    AllBornNum(job, false, s.pods, r, Worker);
    NumConcat(s.pods, born, Worker);
  }

  /** Every state whose success is within reach has a natural run to it. */
  lemma SuccessRun(job: Job, s: State) returns (steps: seq<Step>)
    requires MaySucceed(job, s)
    ensures Naturally(job, s, steps) && Heading(job, Exec(job, s, steps)) == Success
  {
    hide IsJobFinished, Num, Len, Initialized, Carried, Apply;
    steps := [];
    if !IsJobFinished(s.status.conditions) {
      if Reach(job, s) > Len(s.pods, Worker) {
        steps := [SyncStep(Fruitless(job))];
        assert steps[..0] == [];
        FruitlessPass(job, s);
      }
      assert Exec(job, s, steps).status == s.status;
      steps := Finishing(job, s, steps, job.Replicas(Worker));
    }
  }

  /** Success is within reach of a state exactly if not too many workers have succeeded and not too
      few still can. */
  lemma SuccessReachableIff(job: Job, s: State)
    ensures (exists steps :: Naturally(job, s, steps) && Heading(job, Exec(job, s, steps)) == Success) <==>
            MaySucceed(job, s)
  {
    hide MaySucceed, Heading, Naturally, Exec;
    if steps :| Naturally(job, s, steps) && Heading(job, Exec(job, s, steps)) == Success {
      SuccessMaySucceed(job, Exec(job, s, steps));
      if !MaySucceed(job, s) {
        HopelessStays(job, s, steps);
      }
    }
    if MaySucceed(job, s) {
      var steps := SuccessRun(job, s);
    }
  }

  // A failure that may yet turn.

  /** Something broke, or a verdict is already persisted. */
  ghost predicate Marred(job: Job, s: State) {
    if IsJobFinished(s.status.conditions) then Carried(s.status.conditions) != Undecided
    else exists rt :: Broken(job, Initialized(s.status), s.pods, rt)
  }

  lemma StepKeepsMarred(job: Job, s: State, step: Step)
    requires Natural(s, step) && Marred(job, s)
    ensures Marred(job, Apply(job, s, step))
  {
    hide IsJobFinished, Num, Len, Initialized, Carried, Apply, Natural;
    if IsJobFinished(s.status.conditions) {
      FinishedStays(job, s, step);
    } else {
      StepStatus(job, s, step);
      var t := Apply(job, s, step);
      var rt :| Broken(job, Initialized(s.status), s.pods, rt);
      NaturalPods(job, s, step, rt);
      if !IsJobFinished(t.status.conditions) {
        assert Broken(job, Initialized(t.status), t.pods, rt);
      }
    }
  }

  lemma {:induction false} MarredStays(job: Job, s: State, steps: seq<Step>)
    requires Naturally(job, s, steps) && Marred(job, s)
    ensures Marred(job, Exec(job, s, steps))
  {
    hide Marred, Apply, Natural;
    if steps != [] {
      var n := |steps| - 1;
      MarredStays(job, s, steps[..n]);
      StepKeepsMarred(job, Exec(job, s, steps[..n]), steps[n]);
    }
  }

  lemma MarredIsHeaded(job: Job, s: State)
    ensures Marred(job, s) ==> Heading(job, s) != Undecided
    ensures Heading(job, s) == Failure ==> Marred(job, s)
  {
    hide IsJobFinished, Num, Len, Initialized, Broken;
  }

  /** A failure not yet persisted is final exactly if success is out of reach; it is never forgotten,
      only overtaken by success. */
  lemma FailureIsFinalIff(job: Job, s: State)
    requires Heading(job, s) == Failure && !IsJobFinished(s.status.conditions)
    ensures (forall steps :: Naturally(job, s, steps) ==> Heading(job, Exec(job, s, steps)) == Failure) <==>
            job.Replicas(Worker) < Num(s.pods, Worker, Succeeded) ||
            Reach(job, s) - Num(s.pods, Worker, Failed) < job.Replicas(Worker)
    ensures forall steps :: Naturally(job, s, steps) ==> Heading(job, Exec(job, s, steps)) != Undecided
  {
    hide IsJobFinished, Heading, Naturally, Exec, Num, Len, Reach, Marred;
    SuccessReachableIff(job, s);
    forall steps | Naturally(job, s, steps) ensures Heading(job, Exec(job, s, steps)) != Undecided {
      MarredIsHeaded(job, s);
      MarredStays(job, s, steps);
      MarredIsHeaded(job, Exec(job, s, steps));
    }
  }

  /** What a pod that appears outside a pass, finished or not, does to a verdict not yet persisted: it
      decides success exactly if it brings the succeeded workers to the requested number, and leaves
      the job undecided exactly if it does not, nothing has failed, the pod itself included, and, once
      initialized, nothing else is missing. */
  lemma LatePodVerdict(job: Job, s: State, p: Pod)
    requires !IsJobFinished(s.status.conditions)
    ensures var after := Heading(job, Apply(job, s, ForeignPod(p)));
            && (after == Success <==>
                Num(s.pods, Worker, Succeeded) + Num([p], Worker, Succeeded) == job.Replicas(Worker))
            && (after == Undecided <==>
                && after != Success
                && (forall rt :: Num(s.pods, rt, Failed) == 0 && Num([p], rt, Failed) == 0)
                && (Initialized(s.status) ==>
                      forall rt :: job.Replicas(rt) <= Len(s.pods, rt) + Len([p], rt)))
  {
    hide IsJobFinished, Num, Len, Initialized;
    forall rt
      ensures Broken(job, Initialized(s.status), s.pods + [p], rt) <==>
              || Num(s.pods, rt, Failed) > 0 || Num([p], rt, Failed) > 0
              || (Initialized(s.status) && job.Replicas(rt) > Len(s.pods, rt) + Len([p], rt))
    {
      NumConcat(s.pods, [p], rt);
    }
    NumConcat(s.pods, [p], Worker);
  }

  // A success that may yet be lost.

  /** All the workers there are have finished, as many successfully as were asked for. */
  predicate Secure(job: Job, s: State) {
    if IsJobFinished(s.status.conditions) then Carried(s.status.conditions) == Success
    else
      && Num(s.pods, Worker, Succeeded) == job.Replicas(Worker)
      && Len(s.pods, Worker) == Num(s.pods, Worker, Succeeded) + Num(s.pods, Worker, Failed)
  }

  lemma StepKeepsSecure(job: Job, s: State, step: Step)
    requires Natural(s, step) && Secure(job, s)
    ensures Secure(job, Apply(job, s, step))
  {
    hide IsJobFinished, Num, Len, Initialized, Carried, Apply, Natural, Broken;
    if IsJobFinished(s.status.conditions) {
      FinishedStays(job, s, step);
    } else {
      StepStatus(job, s, step);
      NaturalPods(job, s, step, Worker);
      FinishedFit(Apply(job, s, step).pods, Worker);
    }
  }

  lemma {:induction false} SecureStays(job: Job, s: State, steps: seq<Step>)
    requires Naturally(job, s, steps) && Secure(job, s)
    ensures Secure(job, Exec(job, s, steps))
  {
    hide Secure, Apply, Natural;
    if steps != [] {
      var n := |steps| - 1;
      SecureStays(job, s, steps[..n]);
      StepKeepsSecure(job, Exec(job, s, steps[..n]), steps[n]);
    }
  }

  lemma SecureIsSuccess(job: Job, s: State)
    requires Secure(job, s)
    ensures Heading(job, s) == Success
  {
    hide IsJobFinished, Num, Len, Initialized, Carried, Broken;
  }

  /** One more worker succeeds than was asked for, and the success is gone. */
  lemma LosingRun(job: Job, s: State) returns (steps: seq<Step>)
    requires Heading(job, s) == Success && !IsJobFinished(s.status.conditions)
    requires Len(s.pods, Worker) > Num(s.pods, Worker, Succeeded) + Num(s.pods, Worker, Failed)
    ensures Naturally(job, s, steps) && Heading(job, Exec(job, s, steps)) != Success
  {
    hide IsJobFinished, Num, Len, Initialized, Carried, Broken;
    steps := Finishing(job, s, [], job.Replicas(Worker) + 1);
  }

  /** A success not yet persisted is final exactly if no worker is unfinished. */
  lemma SuccessIsFinalIff(job: Job, s: State)
    requires Heading(job, s) == Success && !IsJobFinished(s.status.conditions)
    ensures (forall steps :: Naturally(job, s, steps) ==> Heading(job, Exec(job, s, steps)) == Success) <==>
            Num(s.pods, Worker, Active) + Num(s.pods, Worker, Leaving) == 0
  {
    hide IsJobFinished, Naturally, Exec, Num, Len, Broken;
    FinishedFit(s.pods, Worker);
    if Num(s.pods, Worker, Active) + Num(s.pods, Worker, Leaving) == 0 {
      forall steps | Naturally(job, s, steps) ensures Heading(job, Exec(job, s, steps)) == Success {
        SecureStays(job, s, steps);
        SecureIsSuccess(job, Exec(job, s, steps));
      }
    } else {
      var steps := LosingRun(job, s);
    }
  }

  // Surplus workers.

  /** "Enough workers succeeded" and "success is decided" are the same in a state. */
  predicate EnoughIsSuccess(job: Job, s: State) {
    Judge(job, Initialized(s.status), s.pods) == Success <==> Num(s.pods, Worker, Succeeded) >= job.Replicas(Worker)
  }

  predicate NoneAdded(steps: seq<Step>) {
    forall i :: 0 <= i < |steps| ==> !steps[i].ForeignPod?
  }

  lemma {:induction false} NoneAddedCount(steps: seq<Step>, rt: ReplicaType)
    requires NoneAdded(steps)
    ensures Added(steps, rt) == 0
  {
    if steps != [] {
      NoneAddedCount(steps[..|steps| - 1], rt);
    }
  }

  /** Without a surplus worker, enough succeeded workers decide success in every run in which no pod
      appears outside a pass, even if finished pods vanish. */
  lemma EnoughWithoutSurplus(job: Job, s: State, steps: seq<Step>)
    requires NoneAdded(steps) && Len(s.pods, Worker) <= job.Replicas(Worker)
    ensures EnoughIsSuccess(job, Exec(job, s, steps))
  {
    hide Exec, Num, Len, Judge, Initialized, Added;
    var t := Exec(job, s, steps);
    NeverOverProvisioned(job, s, steps, Worker);
    NoneAddedCount(steps, Worker);
    SuccessIsAllWorkers(job, Initialized(t.status), t.pods);
    FinishedFit(t.pods, Worker);
  }

  /** No more workers than requested can still succeed. */
  predicate NoSurplus(job: Job, s: State) {
    Len(s.pods, Worker) - Num(s.pods, Worker, Failed) <= job.Replicas(Worker)
  }

  lemma {:induction false} NoSurplusStays(job: Job, s: State, steps: seq<Step>)
    requires Naturally(job, s, steps) && NoSurplus(job, s)
    ensures NoSurplus(job, Exec(job, s, steps))
  {
    hide Num, Len, Apply, Natural, IsJobFinished, Initialized;
    if steps != [] {
      var n := |steps| - 1;
      NoSurplusStays(job, s, steps[..n]);
      NaturalPods(job, Exec(job, s, steps[..n]), steps[n], Worker);
    }
  }

  /** Success is decided whenever enough workers have succeeded, in every natural continuation,
      exactly if the workers that have not failed are no more than were asked for. */
  lemma SuccessIsEnoughWorkersIff(job: Job, s: State)
    ensures (forall steps :: Naturally(job, s, steps) ==> EnoughIsSuccess(job, Exec(job, s, steps))) <==>
            Len(s.pods, Worker) - Num(s.pods, Worker, Failed) <= job.Replicas(Worker)
  {
    hide Exec, Num, Len, Judge, Initialized, Naturally;
    if NoSurplus(job, s) {
      forall steps | Naturally(job, s, steps) ensures EnoughIsSuccess(job, Exec(job, s, steps)) {
        var t := Exec(job, s, steps);
        NoSurplusStays(job, s, steps);
        SuccessIsAllWorkers(job, Initialized(t.status), t.pods);
        FinishedFit(t.pods, Worker);
      }
    } else {
      var steps := SurplusRun(job, s);
    }
  }

  lemma SurplusRun(job: Job, s: State) returns (steps: seq<Step>)
    requires !NoSurplus(job, s)
    ensures Naturally(job, s, steps) && !EnoughIsSuccess(job, Exec(job, s, steps))
  {
    hide Num, Len, Judge, Initialized;
    FinishedFit(s.pods, Worker);
    steps := Finishing(job, s, [], Len(s.pods, Worker) - Num(s.pods, Worker, Failed));
    var t := Exec(job, s, steps);
    SuccessIsAllWorkers(job, Initialized(t.status), t.pods);
  }

  /** More workers than requested have succeeded, nothing has failed and nothing is missing. */
  ghost predicate Overdone(job: Job, s: State) {
    && !IsJobFinished(s.status.conditions)
    && Num(s.pods, Worker, Succeeded) > job.Replicas(Worker)
    && forall rt :: Num(s.pods, rt, Failed) == 0 && Len(s.pods, rt) >= job.Replicas(rt)
  }

  /** Nothing fails, nothing vanishes and finished pods stay as they are. */
  predicate Harmless(s: State, step: Step) {
    match step
    case PhaseStep(i, phase) => i < |s.pods| ==> !Finished(s.pods[i]) && phase != PodFailed
    case VanishStep(i) => false
    case ForeignPod(p) => p.phase != PodFailed
    case _ => true
  }

  predicate Harmlessly(job: Job, s: State, steps: seq<Step>) {
    steps == [] ||
    (Harmlessly(job, s, steps[..|steps| - 1]) && Harmless(Exec(job, s, steps[..|steps| - 1]), steps[|steps| - 1]))
  }

  lemma HarmlessPods(job: Job, s: State, step: Step, rt: ReplicaType)
    requires Harmless(s, step) && !IsJobFinished(s.status.conditions)
    requires Judge(job, Initialized(s.status), s.pods) == Undecided
    ensures var after := Apply(job, s, step).pods;
            && Num(after, rt, Succeeded) >= Num(s.pods, rt, Succeeded)
            && Num(after, rt, Failed) == Num(s.pods, rt, Failed)
            && Len(after, rt) >= Len(s.pods, rt)
  {
    hide Num, Len, RoleOf, IsJobFinished, Sync, Initialized, Judge, Reached, Survivors, AllBorn, AllCalls, Noted,
         Terminated;
    match step
    case SyncStep(r) =>
      if !s.pending {
        SyncPods(job, s.status, s.pods, s.services, r, rt);
        SyncEffect(job, s.status, s.pods, s.services, r);
      }
    case PhaseStep(i, phase) =>
      if i < |s.pods| {
        PodReplaced(s.pods, i, s.pods[i].(phase := phase), rt);
        FinishedNum(s.pods[i], rt);
        FinishedNum(s.pods[i].(phase := phase), rt);
      }
    case MarkStep(i) =>
      if i < |s.pods| {
        PodReplaced(s.pods, i, s.pods[i].(deleting := true), rt);
        FinishedNum(s.pods[i], rt);
        FinishedNum(s.pods[i].(deleting := true), rt);
      }
    case ForeignPod(p) =>
      NumConcat(s.pods, [p], rt);
      FinishedNum(p, rt);
    case _ =>
  }

  lemma OverdoneIsUndecided(job: Job, s: State)
    requires Overdone(job, s)
    ensures Judge(job, Initialized(s.status), s.pods) == Undecided
  {
    hide Num, Len, Initialized, IsJobFinished;
    forall rt ensures !Broken(job, Initialized(s.status), s.pods, rt) {
      assert Num(s.pods, rt, Failed) == 0 && Len(s.pods, rt) >= job.Replicas(rt);
    }
  }

  /** A job with surplus succeeded workers stays open for ever: in every run in which nothing fails
      and nothing vanishes, no pass ever persists a verdict. */
  lemma {:induction false} SurplusStaysOpen(job: Job, s: State, steps: seq<Step>)
    requires Overdone(job, s) && Harmlessly(job, s, steps)
    ensures Overdone(job, Exec(job, s, steps)) && Heading(job, Exec(job, s, steps)) == Undecided
  {
    hide Num, Len, Judge, IsJobFinished, Initialized, Apply, Harmless, Carried;
    if steps != [] {
      var n := |steps| - 1;
      var m := Exec(job, s, steps[..n]);
      SurplusStaysOpen(job, s, steps[..n]);
      OverdoneIsUndecided(job, m);
      StepStatus(job, m, steps[n]);
      HarmlessPods(job, m, steps[n], Worker);
      forall rt
        ensures Num(Exec(job, s, steps).pods, rt, Failed) == 0
        ensures Len(Exec(job, s, steps).pods, rt) >= job.Replicas(rt)
      {
        HarmlessPods(job, m, steps[n], rt);
        assert Num(m.pods, rt, Failed) == 0 && Len(m.pods, rt) >= job.Replicas(rt);
      }
    }
    OverdoneIsUndecided(job, Exec(job, s, steps));
  }
}
