/** A verdict, once reached, survives partial failures and retries. */
module Stability {
  import opened Types
  import opened Conditions
  import opened Pods
  import opened Pass
  import opened Verdicts
  import opened Counters
  import opened Runs
  import S = Services

  /** The verdict a state is heading for: the persisted one, or else what a pass would decide. */
  function Heading(job: Job, s: State): Verdict {
    if IsJobFinished(s.status.conditions) then Carried(s.status.conditions)
    else Judge(job, Initialized(s.status), s.pods)
  }

  /** A verdict depends on finished pods, which the controller never touches, and on missing pods,
      which it only makes more of. */
  lemma JudgeStable(job: Job, initialized: bool, pods: seq<Pod>, after: seq<Pod>)
    requires Judge(job, initialized, pods) != Undecided
    requires forall rt ::
      Num(after, rt, Succeeded) == Num(pods, rt, Succeeded) && Num(after, rt, Failed) == Num(pods, rt, Failed)
    requires initialized ==> forall rt :: Len(after, rt) <= Len(pods, rt)
    ensures Judge(job, initialized, after) == Judge(job, initialized, pods)
  {
    hide Num, Len;
    assert Num(after, Worker, Succeeded) == Num(pods, Worker, Succeeded);
    if Judge(job, initialized, pods) == Failure {
      var rt :| Broken(job, initialized, pods, rt);
      assert Num(after, rt, Failed) == Num(pods, rt, Failed);
      assert Broken(job, initialized, after, rt);
    }
  }

  lemma SyncKeepsHeading(job: Job, s: State, r: Replies)
    requires Heading(job, s) != Undecided
    ensures Heading(job, Apply(job, s, SyncStep(r))) == Heading(job, s)
  {
    hide IsJobFinished, Sync, Judge, Carried, Num, Len, Reached, Terminated, Survivors, AllBorn, Initialized;
    var rec := Sync(job, s.status, s.pods, s.services, r);
    if s.pending {
    } else if IsJobFinished(s.status.conditions) {
      FinishedSkips(job, s.status, s.pods, s.services, r);
    } else {
      SyncEffect(job, s.status, s.pods, s.services, r);
      ReachedEffect(job, s.status, s.pods, r.now);
      TerminatedConditions(Reached(job, s.status, s.pods, r.now), s.pods);
      if rec.saved == s.status {
        forall rt
          ensures Num(rec.pods, rt, Succeeded) == Num(s.pods, rt, Succeeded)
          ensures Num(rec.pods, rt, Failed) == Num(s.pods, rt, Failed)
          ensures Initialized(s.status) ==> Len(rec.pods, rt) <= Len(s.pods, rt)
        {
          SyncPods(job, s.status, s.pods, s.services, r, rt);
        }
        JudgeStable(job, Initialized(s.status), s.pods, rec.pods);
      }
    }
  }

  /** What may happen between passes without moving the verdict: unfinished pods are marked, vanish
      or change to another unfinished phase, a pod of an earlier create shows up late, services come
      and go, the job is deleted. A persisted verdict stands whatever happens. */
  predicate Gentle(s: State, step: Step) {
    || IsJobFinished(s.status.conditions)
    || match step
       case PhaseStep(i, phase) => i < |s.pods| ==> !Finished(s.pods[i]) && !Finished(s.pods[i].(phase := phase))
       case VanishStep(i) => i < |s.pods| ==> !Finished(s.pods[i])
       case ForeignPod(p) => !Initialized(s.status) && !Finished(p)
       case _ => true
  }

  predicate Gently(job: Job, s: State, steps: seq<Step>) {
    steps == [] ||
    (Gently(job, s, steps[..|steps| - 1]) && Gentle(Exec(job, s, steps[..|steps| - 1]), steps[|steps| - 1]))
  }

  /** What a step outside the controller does to the pods the verdict depends on. */
  lemma GentlePods(job: Job, s: State, step: Step, rt: ReplicaType)
    requires !step.SyncStep? && !IsJobFinished(s.status.conditions) && Gentle(s, step)
    ensures var after := Apply(job, s, step).pods;
            && Num(after, rt, Succeeded) == Num(s.pods, rt, Succeeded)
            && Num(after, rt, Failed) == Num(s.pods, rt, Failed)
            && (Initialized(s.status) ==> Len(after, rt) <= Len(s.pods, rt))
  {
    hide Num, Len, IsJobFinished;
    match step
    case PhaseStep(i, phase) =>
      if i < |s.pods| {
        PodReplaced(s.pods, i, s.pods[i].(phase := phase), rt);
        FinishedNum(s.pods[i], rt);
        FinishedNum(s.pods[i].(phase := phase), rt);
      }
    case MarkStep(i) =>
      if i < |s.pods| {
        PodReplaced(s.pods, i, s.pods[i].(deleting := true), rt);
        FinishedNum(s.pods[i], rt);
        FinishedNum(s.pods[i].(deleting := true), rt);
      }
    case VanishStep(i) =>
      if i < |s.pods| {
        PodRemoved(s.pods, i, rt);
        FinishedNum(s.pods[i], rt);
      }
    case ForeignPod(p) =>
      NumConcat(s.pods, [p], rt);
      FinishedNum(p, rt);
    case _ =>
  }

  lemma StepKeepsHeading(job: Job, s: State, step: Step)
    requires Heading(job, s) != Undecided && Gentle(s, step)
    ensures Heading(job, Apply(job, s, step)) == Heading(job, s)
  {
    hide IsJobFinished, Judge, Carried, Num, Len, Initialized, Gentle;
    if step.SyncStep? {
      SyncKeepsHeading(job, s, step.r);
    } else {
      StatusMovesOnlyBySync(job, s, step);
      if !IsJobFinished(s.status.conditions) {
        var after := Apply(job, s, step).pods;
        forall rt
          ensures Num(after, rt, Succeeded) == Num(s.pods, rt, Succeeded)
          ensures Num(after, rt, Failed) == Num(s.pods, rt, Failed)
          ensures Initialized(s.status) ==> Len(after, rt) <= Len(s.pods, rt)
        {
          GentlePods(job, s, step, rt);
        }
        JudgeStable(job, Initialized(s.status), s.pods, after);
      }
    }
  }

  /** Verdict stability: if a pass over s would reach a verdict, then after any number of passes that
      fail in any way, after deleting any subset of the active pods or creating any of the missing
      ones, and while the deleted pods leave one by one, either that same verdict is persisted or the
      next pass would reach it again. */
  lemma {:induction false} VerdictSurvivesRetries(job: Job, s: State, steps: seq<Step>)
    requires Heading(job, s) != Undecided && Gently(job, s, steps)
    ensures Heading(job, Exec(job, s, steps)) == Heading(job, s)
  {
    hide Heading, Apply, Gentle;
    if steps != [] {
      var n := |steps| - 1;
      VerdictSurvivesRetries(job, s, steps[..n]);
      StepKeepsHeading(job, Exec(job, s, steps[..n]), steps[n]);
    }
  }

  /** Replies with which every listing and claim succeeds and no create reports an error. */
  ghost predicate Supplied(job: Job, r: Replies) {
    && !r.listError && !r.services.listError
    && (forall rt, k :: !r.create(rt)(k).CreateError?)
    && S.MayAdopt(job, r.services.live) && (forall k :: r.services.patch(k) == S.Patched)
    && !r.services.create.CreateError?
  }

  /** Replies that report no error. */
  ghost predicate Smooth(job: Job, r: Replies) {
    Supplied(job, r) && (forall k :: r.delete(k).Deleted?) && r.update.Accepted?
  }

  lemma {:induction false} NoneRefused(create: nat -> CreateReply, n: nat)
    requires forall k :: !create(k).CreateError?
    ensures Refused(create, n) == 0
  {
    if n > 0 {
      NoneRefused(create, n - 1);
    }
  }

  lemma SmoothServices(job: Job, services: seq<S.Service>, r: S.Replies)
    requires !r.listError && S.MayAdopt(job, r.live) && !r.create.CreateError? && forall k :: r.patch(k) == S.Patched
    ensures S.Reconcile(job, services, r).ok
  {
    hide S.ClaimAll;
    S.ErrorsAreLocal(S.ClaimRequest(job, r), services);
    forall i: nat ensures !S.Ends(S.ClaimRequest(job, r), services, i, S.Errored) {
    }
  }

  lemma SmoothReconcile(job: Job, saved: Status, st: Status, pods: seq<Pod>, services: seq<S.Service>, r: Replies)
    requires Supplied(job, r)
    ensures Reconcile(job, saved, st, pods, services, r).end != Aborted
  {
    hide UpdateStatus, Observe, Calls, Born, Conclude, S.Reconcile, Initialized, S.MayAdopt;
    forall rt, n ensures Refused(r.create(rt), n) == 0 {
      NoneRefused(r.create(rt), n);
    }
    SmoothServices(job, services, r.services);
    ConcludeNotAborted(st, pods, r);
  }

  /** Delivery: after any such run, one pass without errors persists the verdict, if the job has not
      been deleted in the meantime. */
  lemma VerdictIsDelivered(job: Job, s: State, steps: seq<Step>, r: Replies)
    requires Heading(job, s) != Undecided && Gently(job, s, steps)
    requires !s.pending && forall i :: 0 <= i < |steps| ==> !steps[i].DeleteJob?
    requires Smooth(job, r)
    ensures var t := Exec(job, s, steps + [SyncStep(r)]);
            IsJobFinished(t.status.conditions) && Carried(t.status.conditions) == Heading(job, s)
  {
    hide IsJobFinished, Sync, Judge, Carried, Reached, Terminated, Survivors, AllBorn, Initialized, Exec, Noted,
         S.MayAdopt, AllCalls;
    var m := Exec(job, s, steps);
    assert (steps + [SyncStep(r)])[..|steps|] == steps;
    VerdictSurvivesRetries(job, s, steps);
    NeverPending(job, s, steps);
    ExecLast(job, s, steps, SyncStep(r));
    if IsJobFinished(m.status.conditions) {
      FinishedSkips(job, m.status, m.pods, m.services, r);
    } else {
      NotedEffect(m.status, r.now(AT_CREATED));
      SmoothSync(job, m, r);
      SyncEffect(job, m.status, m.pods, m.services, r);
      ReachedEffect(job, m.status, m.pods, r.now);
      TerminatedConditions(Reached(job, m.status, m.pods, r.now), m.pods);
      AllDeleted(r.delete, |ActivePods(m.pods)|);
    }
  }

  lemma SmoothSync(job: Job, s: State, r: Replies)
    requires Supplied(job, r) && !IsJobFinished(s.status.conditions)
    ensures var end := Sync(job, s.status, s.pods, s.services, r).end;
            end != Aborted && (end.UpdateFailed? ==> r.update == UpdateError(end.applied))
  {
    hide IsJobFinished, Noted, Reconcile, S.MayAdopt;
    var st := Noted(s.status, r.now(AT_CREATED));
    NotedEffect(s.status, r.now(AT_CREATED));
    SmoothReconcile(job, s.status, st, s.pods, s.services, r);
    EndsAsAnswered(job, s.status, st, s.pods, s.services, r);
  }

  lemma EndsAsAnswered(job: Job, saved: Status, st: Status, pods: seq<Pod>, services: seq<S.Service>, r: Replies)
    ensures var end := Reconcile(job, saved, st, pods, services, r).end;
            end.UpdateFailed? ==> r.update == UpdateError(end.applied)
  {
    hide IsJobFinished, Begun, Survivors, ActivePods, Undeleted, Terminated, Initialized, ReconcilePods, S.Reconcile;
  }

  lemma ExecLast(job: Job, s: State, steps: seq<Step>, step: Step)
    ensures Exec(job, s, steps + [step]) == Apply(job, Exec(job, s, steps), step)
  {
    hide Apply;
    assert (steps + [step])[..|steps|] == steps;
  }

  lemma {:induction false} NeverPending(job: Job, s: State, steps: seq<Step>)
    requires !s.pending && forall i :: 0 <= i < |steps| ==> !steps[i].DeleteJob?
    ensures !Exec(job, s, steps).pending
  {
    hide Sync;
    if steps != [] {
      NeverPending(job, s, steps[..|steps| - 1]);
    }
  }
}
