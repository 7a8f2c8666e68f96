/** Three concrete runs of a job with one replica of each type: a failure that turns into success
    while its update is being retried, a job that surplus workers keep open, and a create that timed
    out. */
module Witnesses {
  import opened Types
  import opened Labels
  import opened Conditions
  import opened Pods
  import opened Pass
  import opened Verdicts
  import opened Counters
  import opened Runs
  import opened Stability
  import opened Outlooks
  import S = Services

  const ONE := ReplicaSpec(1, map[], Some(9000), None)
  const JOB := Job("mnist", "uid-1", ONE, ONE, ONE)

  /** A pass in which every call succeeds; deleted pods are marked and leave later. */
  const CALM := Replies(
    false, rt => k => Created, S.Replies(false, S.Live("uid-1", false), k => S.Patched, Created, "uid-2"),
    k => Deleted(false), Accepted, i => i)

  const REJECTED := CALM.(update := UpdateError(false))

  const SCHEDULER := NewPod(JOB, Scheduler)
  const SERVER := NewPod(JOB, Server)
  const WORKER := NewPod(JOB, Worker)

  lemma JobReplicas(rt: ReplicaType)
    ensures JOB.Replicas(rt) == 1
  {
  }

  lemma BornOne(rt: ReplicaType)
    ensures Born(JOB, rt, CALM.create(rt), 1) == [NewPod(JOB, rt)]
  {
    hide NewPod;
    assert Born(JOB, rt, CALM.create(rt), 0) == [];
  }

  lemma NothingYet()
    ensures forall rt :: Calls(JOB, false, [], rt) == 1
    ensures Judge(JOB, false, []) == Undecided
  {
    hide Num, Len, Judge;
    forall rt ensures Calls(JOB, false, [], rt) == 1 && !Broken(JOB, false, [], rt) {
      NoPods(rt);
      JobReplicas(rt);
    }
    NoPods(Worker);
    NoneBroken([]);
  }

  /** Any first pass without errors initializes the job. */
  lemma FirstPass(r: Replies)
    requires Supplied(JOB, r) && r.update.Accepted?
    ensures var t := Apply(JOB, Init([], [], 0), SyncStep(r));
            var one := Sync(JOB, EMPTY_STATUS, [], [], r);
            && t.status == one.saved == one.live && t.pods == one.pods == AllBorn(JOB, false, [], r)
            && t.history == [one] && one.end == Updated && one.creates == AllCalls(JOB, false, [])
            && !t.pending && Initialized(t.status) && !IsJobFinished(t.status.conditions)
  {
    hide IsJobFinished, Sync, Judge, Reached, Terminated, Survivors, Noted, AllCalls, Check, AllBorn, Carried, Observe,
         Sound, Get, Supplied;
    EmptyIsCoherent();
    NothingYet();
    SmoothSync(JOB, Init([], [], 0), r);
    SyncEffect(JOB, EMPTY_STATUS, [], [], r);
    ReachedEffect(JOB, EMPTY_STATUS, [], r.now);
    NotedEffect(EMPTY_STATUS, r.now(AT_CREATED));
  }

  /** The calm first pass creates the three pods. */
  lemma CalmPass()
    ensures var t := Apply(JOB, Init([], [], 0), SyncStep(CALM));
            && t.pods == [SCHEDULER, SERVER, WORKER] && |t.history| == 1
            && !t.pending && Initialized(t.status) && !IsJobFinished(t.status.conditions)
  {
    hide IsJobFinished, Sync, Judge, Check, Born, NewPod, Calls;
    FirstPass(CALM);
    NothingYet();
    BornOne(Scheduler);
    BornOne(Server);
    BornOne(Worker);
    assert AllBorn(JOB, false, [], CALM) == [SCHEDULER, SERVER, WORKER];
  }

  lemma NoneBroken(pods: seq<Pod>)
    requires Num(pods, Worker, Succeeded) != 1 && forall rt :: !Broken(JOB, false, pods, rt)
    ensures Judge(JOB, false, pods) == Undecided
  {
    hide Num, Broken;
    JobReplicas(Worker);
  }

  lemma ThreePods(a: Pod, b: Pod, c: Pod, rt: ReplicaType)
    ensures Len([a, b, c], rt) == Len([a], rt) + Len([b], rt) + Len([c], rt)
    ensures forall k :: Num([a, b, c], rt, k) == Num([a], rt, k) + Num([b], rt, k) + Num([c], rt, k)
  {
    hide Len, Num;
    assert [a, b, c] == [a] + [b] + [c];
    NumConcat([a], [b], rt);
    NumConcat([a] + [b], [c], rt);
  }

  lemma ThreeSurvivors(a: Pod, b: Pod, c: Pod, delete: nat -> DeleteReply)
    requires BucketOf(a) == Failed && BucketOf(b) == Active && BucketOf(c) == Active
    requires delete(0) == delete(1) == Deleted(false)
    ensures Survivors([a, b, c], delete) == [a, b.(deleting := true), c.(deleting := true)]
  {
    hide BucketOf;
    assert [a, b, c][..2] == [a, b] && [a, b][..1] == [a] && [a][..0] == [];
    assert ActivePods([a]) == [];
    assert ActivePods([a, b]) == ActivePods([a]) + [b];
    assert Survivors([a], delete) == [a];
    assert Survivors([a, b], delete) == [a, b.(deleting := true)];
  }

  /** The pods after the scheduler has failed, and after the pass that gives up on the job. */
  const BROKEN := [SCHEDULER.(phase := PodFailed), SERVER, WORKER]
  const LEAVING := [BROKEN[0], SERVER.(deleting := true), WORKER.(deleting := true)]

  lemma Roles()
    ensures Role(SCHEDULER) == Some(Scheduler) && Role(SERVER) == Some(Server) && Role(WORKER) == Some(Worker)
    ensures SCHEDULER.phase == PodPending && SERVER.phase == PodPending && WORKER.phase == PodPending
    ensures !SCHEDULER.deleting && !SERVER.deleting && !WORKER.deleting
  {
    hide RoleOf;
    LabelRoundTrip(JOB, Scheduler, Scheduler);
    LabelRoundTrip(JOB, Server, Server);
    LabelRoundTrip(JOB, Worker, Worker);
  }

  lemma BrokenIsFailure()
    ensures Judge(JOB, true, BROKEN) == Failure
  {
    hide Num, Len, RoleOf, NewPod;
    Roles();
    JobReplicas(Worker);
    ThreePods(BROKEN[0], BROKEN[1], BROKEN[2], Worker);
    ThreePods(BROKEN[0], BROKEN[1], BROKEN[2], Scheduler);
    FinishedNum(BROKEN[0], Worker);
    FinishedNum(BROKEN[1], Worker);
    FinishedNum(BROKEN[2], Worker);
    FinishedNum(BROKEN[0], Scheduler);
    assert Broken(JOB, true, BROKEN, Scheduler);
  }

  lemma LeavingWorkerSucceeds()
    ensures Judge(JOB, true, LEAVING[2 := LEAVING[2].(phase := PodSucceeded)]) == Success
  {
    hide Num, Len, RoleOf, NewPod;
    var w := LEAVING[2].(phase := PodSucceeded);
    assert LEAVING[2 := w] == [LEAVING[0], LEAVING[1], w];
    Roles();
    JobReplicas(Worker);
    ThreePods(LEAVING[0], LEAVING[1], w, Worker);
    FinishedNum(LEAVING[0], Worker);
    FinishedNum(LEAVING[1], Worker);
    FinishedNum(w, Worker);
  }

  /** The pass over the broken job marks both active pods, but its update is rejected. */
  lemma RejectedPass(s: State)
    requires s.pods == BROKEN && !s.pending && Initialized(s.status) && !IsJobFinished(s.status.conditions)
    ensures var t := Apply(JOB, s, SyncStep(REJECTED));
            && t.pods == LEAVING && t.status == s.status && !t.pending
            && |t.history| == |s.history| + 1
            && var hook := t.history[|s.history|].finishHook;
               hook.Some? && Carried(hook.value.conditions) == Failure
  {
    hide IsJobFinished, Sync, Judge, Reached, Terminated, Survivors, Noted, AllCalls, Check, Num, NewPod, Len, Carried;
    BrokenIsFailure();
    SmoothSync(JOB, s, REJECTED);
    SyncEffect(JOB, s.status, s.pods, s.services, REJECTED);
    Roles();
    ThreeSurvivors(BROKEN[0], BROKEN[1], BROKEN[2], REJECTED.delete);
    assert AllBorn(JOB, true, BROKEN, REJECTED) == [];
    AllDeleted(REJECTED.delete, |ActivePods(BROKEN)|);
    ReachedEffect(JOB, s.status, BROKEN, REJECTED.now);
    TerminatedConditions(Reached(JOB, s.status, BROKEN, REJECTED.now), BROKEN);
  }

  const FLIP := [
    SyncStep(CALM), PhaseStep(0, PodFailed), SyncStep(REJECTED), PhaseStep(2, PodSucceeded), SyncStep(CALM)]

  /** A verdict can flip: the scheduler fails, a pass decides failure, announces it and marks the
      worker, its update is rejected, the dying worker finishes successfully, and the next pass
      persists success. */
  lemma VerdictCanFlip()
    ensures Naturally(JOB, Init([], [], 0), FLIP)
    ensures var s := Exec(JOB, Init([], [], 0), FLIP[..3]);
            && !IsJobFinished(s.status.conditions) && Heading(JOB, s) == Failure
            && |s.history| == 2 && s.history[1].finishHook.Some?
            && Carried(s.history[1].finishHook.value.conditions) == Failure
    ensures var t := Exec(JOB, Init([], [], 0), FLIP);
            IsJobFinished(t.status.conditions) && Carried(t.status.conditions) == Success
  {
    hide IsJobFinished, Sync, Judge, Check, NewPod, Carried, Initialized, Exec;
    var s0 := Init([], [], 0);
    var s1 := Apply(JOB, s0, FLIP[0]);
    var s2 := Apply(JOB, s1, FLIP[1]);
    var s3 := Apply(JOB, s2, FLIP[2]);
    var s4 := Apply(JOB, s3, FLIP[3]);
    CalmPass();
    assert s2.pods == BROKEN;
    RejectedPass(s2);
    BrokenIsFailure();
    SyncKeepsHeading(JOB, s2, REJECTED);
    LeavingWorkerSucceeds();
    assert Heading(JOB, s4) == Success;
    FlipStates();
    Roles();
    FlipIsNatural(s1, s3);
    DeliveredAtOnce(s4);
  }

  /** The states of the run, one by one. */
  lemma FlipStates()
    ensures forall k :: 0 <= k < 5 ==>
      Exec(JOB, Init([], [], 0), FLIP[..k + 1]) == Apply(JOB, Exec(JOB, Init([], [], 0), FLIP[..k]), FLIP[k])
    ensures Exec(JOB, Init([], [], 0), FLIP[..0]) == Init([], [], 0) && FLIP[..5] == FLIP
  {
    hide Apply;
    forall k | 0 <= k < 5
      ensures Exec(JOB, Init([], [], 0), FLIP[..k + 1]) == Apply(JOB, Exec(JOB, Init([], [], 0), FLIP[..k]), FLIP[k])
    {
      assert FLIP[..k + 1] == FLIP[..k] + [FLIP[k]];
      ExecLast(JOB, Init([], [], 0), FLIP[..k], FLIP[k]);
    }
  }

  lemma FlipIsNatural(s1: State, s3: State)
    requires s1 == Exec(JOB, Init([], [], 0), FLIP[..1]) && s3 == Exec(JOB, Init([], [], 0), FLIP[..3])
    requires Natural(s1, FLIP[1]) && Natural(s3, FLIP[3])
    ensures Naturally(JOB, Init([], [], 0), FLIP)
  {
    hide Exec, Apply;
    assert FLIP[..5] == FLIP;
    assert FLIP[..0] == [];
    assert FLIP[..1][..0] == FLIP[..0] && FLIP[..2][..1] == FLIP[..1] && FLIP[..3][..2] == FLIP[..2];
    assert FLIP[..4][..3] == FLIP[..3] && FLIP[..5][..4] == FLIP[..4];
    assert Naturally(JOB, Init([], [], 0), FLIP[..0]);
    assert Naturally(JOB, Init([], [], 0), FLIP[..1]);
    assert Naturally(JOB, Init([], [], 0), FLIP[..2]);
    assert Naturally(JOB, Init([], [], 0), FLIP[..3]);
    assert Naturally(JOB, Init([], [], 0), FLIP[..4]);
  }

  lemma DeliveredAtOnce(s: State)
    requires Heading(JOB, s) != Undecided && !s.pending
    ensures var t := Apply(JOB, s, SyncStep(CALM));
            IsJobFinished(t.status.conditions) && Carried(t.status.conditions) == Heading(JOB, s)
  {
    hide Apply, Heading, IsJobFinished, Carried;
    VerdictIsDelivered(JOB, s, [], CALM);
    assert [] + [SyncStep(CALM)] == [SyncStep(CALM)];
    ExecLast(JOB, s, [], SyncStep(CALM));
  }

  // Surplus.

  const DONE := WORKER.(phase := PodSucceeded)

  /** The worker succeeds, and so does a second one that nobody asked for. */
  const SURPLUS := [SyncStep(CALM), PhaseStep(2, PodSucceeded), ForeignPod(DONE)]

  lemma SurplusPods(rt: ReplicaType)
    ensures var pods := [SCHEDULER, SERVER, DONE] + [DONE];
            && Num(pods, rt, Failed) == 0 && Len(pods, rt) >= 1
            && (rt == Worker ==> Num(pods, rt, Succeeded) == 2)
  {
    hide Num, Len, RoleOf, NewPod;
    Roles();
    NumConcat([SCHEDULER, SERVER, DONE], [DONE], rt);
    ThreePods(SCHEDULER, SERVER, DONE, rt);
    FinishedNum(SCHEDULER, rt);
    FinishedNum(SERVER, rt);
    FinishedNum(DONE, rt);
  }

  /** Two workers succeeded where one was asked for: from then on, whatever the passes meet, the job
      gets no verdict until some pod fails or vanishes. */
  lemma SurplusIsNeverJudged(steps: seq<Step>)
    requires Harmlessly(JOB, Exec(JOB, Init([], [], 0), SURPLUS), steps)
    ensures var t := Exec(JOB, Exec(JOB, Init([], [], 0), SURPLUS), steps);
            && Num(t.pods, Worker, Succeeded) > JOB.Replicas(Worker)
            && !IsJobFinished(t.status.conditions) && Heading(JOB, t) == Undecided
  {
    hide Num, Len, NewPod, IsJobFinished, Heading, Harmlessly, Sync;
    var s := Exec(JOB, Init([], [], 0), SURPLUS);
    SurplusState();
    forall rt ensures Num(s.pods, rt, Failed) == 0 && Len(s.pods, rt) >= JOB.Replicas(rt) {
      SurplusPods(rt);
      JobReplicas(rt);
    }
    SurplusPods(Worker);
    SurplusStaysOpen(JOB, s, steps);
  }

  lemma SurplusState()
    ensures var s := Exec(JOB, Init([], [], 0), SURPLUS);
            s.pods == [SCHEDULER, SERVER, DONE] + [DONE] && !IsJobFinished(s.status.conditions)
  {
    hide IsJobFinished, Sync, NewPod, Exec, Initialized;
    var s0 := Init([], [], 0);
    CalmPass();
    assert SURPLUS[..1] == [] + [SURPLUS[0]] && SURPLUS[..2] == SURPLUS[..1] + [SURPLUS[1]];
    assert SURPLUS == SURPLUS[..2] + [SURPLUS[2]];
    ExecLast(JOB, s0, [], SURPLUS[0]);
    ExecLast(JOB, s0, SURPLUS[..1], SURPLUS[1]);
    ExecLast(JOB, s0, SURPLUS[..2], SURPLUS[2]);
    assert Exec(JOB, s0, []) == s0 by {
      NoSteps(s0);
    }
  }

  lemma NoSteps(s: State)
    ensures Exec(JOB, s, []) == s
  {
  }

  // A create that timed out.

  /** The worker's create times out and leaves no pod; every other call succeeds. */
  const UNSEEN := CALM.(create := rt => k => if rt == Worker then TimedOut(false) else Created)

  lemma TimeoutPass()
    ensures var one := Sync(JOB, EMPTY_STATUS, [], [], UNSEEN);
            var t := Apply(JOB, Init([], [], 0), SyncStep(UNSEEN));
            && t.status == one.saved == one.live && t.pods == one.pods && t.history == [one] && !t.pending
            && one.end == Updated && one.creates == 3
            && Initialized(one.saved) && !IsJobFinished(one.saved.conditions)
            && !AllAppear(JOB, false, [], UNSEEN) && Judge(JOB, true, one.pods) == Failure
            && forall rt :: Num(one.pods, rt, Failed) == 0
  {
    hide IsJobFinished, Sync, Judge, Check, Num, AllBorn, Calls;
    FirstPass(UNSEEN);
    EmptyIsCoherent();
    NothingYet();
    assert !AppearAll(UNSEEN.create(Worker), 1) by {
      assert !Appears(UNSEEN.create(Worker)(0));
    }
    NextVerdict(JOB, EMPTY_STATUS, [], [], UNSEEN);
    forall rt ensures Num(AllBorn(JOB, false, [], UNSEEN), rt, Failed) == 0 {
      AllBornNum(JOB, false, [], UNSEEN, rt);
    }
  }

  /** One swallowed timeout fails the job: the pass reports no error and initializes the job, the pod
      is never created again, and the next pass persists failure although nothing has failed. */
  lemma TimeoutFailsJob()
    ensures var s := Apply(JOB, Init([], [], 0), SyncStep(UNSEEN));
            && Initialized(s.status) && !IsJobFinished(s.status.conditions)
            && |s.history| == 1 && s.history[0].end == Updated && s.history[0].creates == 3
            && (forall rt :: Num(s.pods, rt, Failed) == 0)
    ensures var t := Exec(JOB, Init([], [], 0), [SyncStep(UNSEEN), SyncStep(CALM)]);
            && IsJobFinished(t.status.conditions) && Carried(t.status.conditions) == Failure
            && |t.history| == 2 && t.history[1].creates == 0
  {
    hide IsJobFinished, Sync, Judge, Check, Num, Carried, Initialized, AllAppear, Exec, ActivePods;
    var s0 := Init([], [], 0);
    var s1 := Apply(JOB, s0, SyncStep(UNSEEN));
    TimeoutPass();
    EmptyIsCoherent();
    SmoothSync(JOB, s1, CALM);
    SecondPass(JOB, EMPTY_STATUS, [], [], UNSEEN, s1.services, CALM);
    DeliveredAtOnce(s1);
    NoSteps(s0);
    assert [] + [SyncStep(UNSEEN)] == [SyncStep(UNSEEN)];
    assert [SyncStep(UNSEEN)] + [SyncStep(CALM)] == [SyncStep(UNSEEN), SyncStep(CALM)];
    ExecLast(JOB, s0, [], SyncStep(UNSEEN));
    ExecLast(JOB, s0, [SyncStep(UNSEEN)], SyncStep(CALM));
  }
}
