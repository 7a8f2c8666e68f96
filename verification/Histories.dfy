/** Hooks and times over every run. */
module Histories {
  import opened Types
  import opened Conditions
  import opened Pods
  import opened Pass
  import opened Verdicts
  import opened Statuses
  import opened Runs
  import opened Stability
  import S = Services

  // Hooks.

  /** A pass whose status was thrown away after its hooks were issued. */
  predicate Lost(rec: Record) {
    rec.end == TerminateFailed || rec.end == UpdateFailed(false)
  }

  function Starts(h: seq<Record>): nat {
    if h == [] then 0 else Starts(h[..|h| - 1]) + if h[|h| - 1].startHook.Some? then 1 else 0
  }

  function LostStarts(h: seq<Record>): nat {
    if h == [] then 0
    else LostStarts(h[..|h| - 1]) + if h[|h| - 1].startHook.Some? && Lost(h[|h| - 1]) then 1 else 0
  }

  function Finishes(h: seq<Record>): nat {
    if h == [] then 0 else Finishes(h[..|h| - 1]) + if h[|h| - 1].finishHook.Some? then 1 else 0
  }

  /** The passes whose finish hook went out but whose update was rejected. */
  function LostFinishes(h: seq<Record>): nat {
    if h == [] then 0
    else
      var last := h[|h| - 1];
      LostFinishes(h[..|h| - 1]) + if last.finishHook.Some? && last.end == UpdateFailed(false) then 1 else 0
  }

  predicate StartedBy(h: seq<Record>, i: nat) {
    exists j :: 0 <= j <= i < |h| && h[j].startHook.Some?
  }

  /** What the hooks of one pass say about the statuses around it. */
  lemma SyncHooks(job: Job, saved: Status, pods: seq<Pod>, services: seq<S.Service>, r: Replies)
    ensures var rec := Sync(job, saved, pods, services, r);
            var done := IsJobFinished(saved.conditions);
            && (rec.startHook.Some? ==>
                  !Initialized(saved) && Initialized(rec.startHook.value) && (Initialized(rec.saved) <==> !Lost(rec)))
            && (rec.startHook.None? ==> Initialized(rec.saved) == Initialized(saved))
            && (rec.finishHook.Some? ==>
                  && !done && rec.finishHook == Some(rec.live) && IsJobFinished(rec.live.conditions)
                  && (rec.startHook.Some? || Initialized(saved))
                  && (IsJobFinished(rec.saved.conditions) <==> rec.end != UpdateFailed(false))
                  && (IsJobFinished(rec.saved.conditions) ==> rec.saved == rec.live))
            && (rec.finishHook.None? ==> (IsJobFinished(rec.saved.conditions) <==> done))
  {
    hide IsJobFinished, Sync, Get, Judge, Observe, Reached, Terminated, Survivors, AllBorn, Noted, Sound, AllCalls,
         S.Reconcile;
    if IsJobFinished(saved.conditions) {
      FinishedSkips(job, saved, pods, services, r);
    } else {
      SyncEffect(job, saved, pods, services, r);
      ReachedEffect(job, saved, pods, r.now);
      NotedEffect(saved, r.now(AT_CREATED));
      TerminatedConditions(Reached(job, saved, pods, r.now), pods);
    }
  }

  ghost predicate HookInv(s: State) {
    && Starts(s.history) == (if Initialized(s.status) then 1 else 0) + LostStarts(s.history)
    && Finishes(s.history) == (if IsJobFinished(s.status.conditions) then 1 else 0) + LostFinishes(s.history)
    && (Initialized(s.status) ==> exists j :: 0 <= j < |s.history| && s.history[j].startHook.Some?)
    && (forall i :: 0 <= i < |s.history| && s.history[i].finishHook.Some? ==> StartedBy(s.history, i))
    && (forall i :: 0 <= i < |s.history| && s.history[i].startHook.Some? ==> Initialized(s.history[i].startHook.value))
    && (forall i :: 0 <= i < |s.history| && s.history[i].finishHook.Some? ==>
          IsJobFinished(s.history[i].finishHook.value.conditions))
    && (IsJobFinished(s.status.conditions) ==>
          exists i :: 0 <= i < |s.history| && s.history[i].finishHook == Some(s.status))
  }

  lemma Appended(h: seq<Record>, rec: Record)
    ensures var t := h + [rec];
            && Starts(t) == Starts(h) + (if rec.startHook.Some? then 1 else 0)
            && LostStarts(t) == LostStarts(h) + (if rec.startHook.Some? && Lost(rec) then 1 else 0)
            && Finishes(t) == Finishes(h) + (if rec.finishHook.Some? then 1 else 0)
            && LostFinishes(t) ==
               LostFinishes(h) + (if rec.finishHook.Some? && rec.end == UpdateFailed(false) then 1 else 0)
            && t[..|h|] == h && t[|h|] == rec
  {
    assert (h + [rec])[..|h|] == h;
  }

  lemma SyncHookInv(job: Job, s: State, r: Replies)
    requires HookInv(s) && !s.pending
    ensures HookInv(Apply(job, s, SyncStep(r)))
  {
    hide Sync, Starts, LostStarts, Finishes, LostFinishes, IsJobFinished, Initialized, Lost;
    var rec := Sync(job, s.status, s.pods, s.services, r);
    var h, t := s.history, s.history + [rec];
    Appended(h, rec);
    SyncHooks(job, s.status, s.pods, s.services, r);
    FinishedFrozen(job, s, r);
    assert forall i :: 0 <= i < |h| ==> t[i] == h[i];
    forall i | 0 <= i < |t| && t[i].finishHook.Some? ensures StartedBy(t, i) {
      if i < |h| {
        var j :| 0 <= j <= i < |h| && h[j].startHook.Some?;
        assert t[j].startHook.Some?;
      } else if rec.startHook.Some? {
        assert t[i].startHook.Some?;
      } else {
        var j :| 0 <= j < |h| && h[j].startHook.Some?;
        assert t[j].startHook.Some?;
      }
    }
    if Initialized(rec.saved) {
      if rec.startHook.Some? {
        assert t[|h|].startHook.Some?;
      } else {
        var j :| 0 <= j < |h| && h[j].startHook.Some?;
        assert t[j].startHook.Some?;
      }
    }
    if IsJobFinished(rec.saved.conditions) {
      if rec.finishHook.Some? {
        assert t[|h|].finishHook == Some(rec.saved);
      } else {
        var i :| 0 <= i < |h| && h[i].finishHook == Some(s.status);
        assert t[i].finishHook == Some(s.status);
      }
    }
  }

  lemma FinishedFrozen(job: Job, s: State, r: Replies)
    ensures IsJobFinished(s.status.conditions) ==> Sync(job, s.status, s.pods, s.services, r).saved == s.status
  {
    hide Sync, IsJobFinished;
    if IsJobFinished(s.status.conditions) {
      FinishedSkips(job, s.status, s.pods, s.services, r);
    }
  }

  /** Hook counting over every run: one start hook per job plus one per pass that was lost after
      issuing it, one finish hook per job plus one per rejected update, a finish hook only after a
      start hook, and the persisted final status is one that a finish hook announced. */
  lemma {:induction false} HooksOverRuns(
    job: Job, pods: seq<Pod>, services: seq<S.Service>, clock: Time, steps: seq<Step>)
    ensures HookInv(Exec(job, Init(pods, services, clock), steps))
  {
    hide HookInv, Apply;
    if steps == [] {
      EmptyHooks(pods, services, clock);
    } else {
      var n := |steps| - 1;
      var s := Exec(job, Init(pods, services, clock), steps[..n]);
      HooksOverRuns(job, pods, services, clock, steps[..n]);
      if steps[n].SyncStep? && !s.pending {
        SyncHookInv(job, s, steps[n].r);
      } else {
        StatusMovesOnlyBySync(job, s, steps[n]);
        OtherHookInv(s, Apply(job, s, steps[n]));
      }
    }
  }

  /** Every finish hook of a stretch of history carries the verdict. */
  predicate Announce(h: seq<Record>, from: nat, v: Verdict) {
    forall i :: from <= i < |h| && h[i].finishHook.Some? ==> Carried(h[i].finishHook.value.conditions) == v
  }

  lemma StepAnnounces(job: Job, s: State, step: Step, from: nat)
    requires from <= |s.history| && Announce(s.history, from, Heading(job, s))
    ensures var t := Apply(job, s, step);
            s.history <= t.history && Announce(t.history, from, Heading(job, s))
  {
    hide IsJobFinished, Sync, Judge, Carried, Reached, Terminated, Survivors, AllBorn, Initialized, Noted, AllCalls;
    if step.SyncStep? && !s.pending {
      if IsJobFinished(s.status.conditions) {
        FinishedSkips(job, s.status, s.pods, s.services, step.r);
      } else {
        SyncEffect(job, s.status, s.pods, s.services, step.r);
        ReachedEffect(job, s.status, s.pods, step.r.now);
        TerminatedConditions(Reached(job, s.status, s.pods, step.r.now), s.pods);
      }
    }
  }

  /** The finish hooks of retried passes agree: from a state that is heading for a verdict, every
      finish hook issued in a run that does not move it carries that verdict. */
  lemma {:induction false} FinishHooksAgree(job: Job, s: State, steps: seq<Step>)
    requires Heading(job, s) != Undecided && Gently(job, s, steps)
    ensures var t := Exec(job, s, steps);
            s.history <= t.history && Announce(t.history, |s.history|, Heading(job, s))
  {
    hide Heading, Apply, Gentle, Announce;
    if steps == [] {
      NothingAnnounced(s.history, Heading(job, s));
    } else {
      var n := |steps| - 1;
      FinishHooksAgree(job, s, steps[..n]);
      VerdictSurvivesRetries(job, s, steps[..n]);
      StepAnnounces(job, Exec(job, s, steps[..n]), steps[n], |s.history|);
    }
  }

  lemma NothingAnnounced(h: seq<Record>, v: Verdict)
    ensures Announce(h, |h|, v)
  {
  }

  lemma OtherHookInv(s: State, t: State)
    requires HookInv(s) && t.status == s.status && t.history == s.history
    ensures HookInv(t)
  {
    hide IsJobFinished, Initialized, Starts, LostStarts, Finishes, LostFinishes;
  }

  lemma EmptyHooks(pods: seq<Pod>, services: seq<S.Service>, clock: Time)
    ensures HookInv(Init(pods, services, clock))
  {
    EmptyIsCoherent();
  }

  // Times.

  ghost predicate Monotone(now: nat -> Time) {
    forall i, j :: 0 <= i <= j ==> now(i) <= now(j)
  }

  /** The clock never runs backwards, within a pass or from one pass to the next. */
  ghost predicate Timely(job: Job, s: State, steps: seq<Step>) {
    steps == [] ||
    (var front, last := steps[..|steps| - 1], steps[|steps| - 1];
     Timely(job, s, front) &&
     (last.SyncStep? ==> Monotone(last.r.now) && Exec(job, s, front).clock <= last.r.now(AT_CREATED)))
  }

  predicate Ordered(s: State) {
    && (s.status.startTime.Some? ==> s.status.startTime.value <= s.clock)
    && (s.status.completionTime.Some? ==> s.status.completionTime.value <= s.clock)
    && (s.status.startTime.Some? && s.status.completionTime.Some? ==>
          s.status.startTime.value <= s.status.completionTime.value)
  }

  lemma SyncOrdered(job: Job, s: State, r: Replies)
    requires Ordered(s) && Coherent(s.status) && !s.pending
    requires Monotone(r.now) && s.clock <= r.now(AT_CREATED)
    ensures Ordered(Apply(job, s, SyncStep(r)))
  {
    hide IsJobFinished, Sync, Get, Judge, Reached, Survivors, AllBorn, Noted, AllCalls, S.Reconcile, Unique, Blank,
         Num, Sound;
    assert r.now(AT_CREATED) <= r.now(Point(Worker, AtStart)) <= r.now(Point(Worker, AtCompletion)) <= r.now(AT_END);
    if IsJobFinished(s.status.conditions) {
      FinishedSkips(job, s.status, s.pods, s.services, r);
    } else {
      UnfinishedIsSound(s.status.conditions);
      SyncEffect(job, s.status, s.pods, s.services, r);
      ReachedTimes(job, s.status, s.pods, r.now);
    }
  }

  /** With a clock that does not run backwards, a job never completes before it starts. */
  lemma {:induction false} StartBeforeCompletion(
    job: Job, pods: seq<Pod>, services: seq<S.Service>, clock: Time, steps: seq<Step>)
    requires Timely(job, Init(pods, services, clock), steps)
    ensures Ordered(Exec(job, Init(pods, services, clock), steps))
  {
    hide Ordered, Coherent, Sync, Monotone;
    if steps == [] {
      assert Ordered(Init(pods, services, clock)) by {
        EmptyOrdered(pods, services, clock);
      }
    } else {
      var n := |steps| - 1;
      var s := Exec(job, Init(pods, services, clock), steps[..n]);
      StartBeforeCompletion(job, pods, services, clock, steps[..n]);
      EveryRunIsCoherent(job, pods, services, clock, steps[..n]);
      if steps[n].SyncStep? && !s.pending {
        SyncOrdered(job, s, steps[n].r);
      } else {
        OtherOrdered(job, s, steps[n]);
      }
    }
  }

  lemma EmptyOrdered(pods: seq<Pod>, services: seq<S.Service>, clock: Time)
    ensures Ordered(Init(pods, services, clock))
  {
  }

  lemma OtherOrdered(job: Job, s: State, step: Step)
    requires Ordered(s) && (!step.SyncStep? || s.pending)
    ensures Ordered(Apply(job, s, step))
  {
    hide Sync;
  }

  /** From one persisted status to the next: no condition disappears, its transition time changes
      only together with its status, and the two job times are written once. */
  ghost predicate Steady(st: Status, u: Status) {
    && (forall k :: Get(st.conditions, k).Some? ==> Get(u.conditions, k).Some?)
    && (forall k :: Get(st.conditions, k).Some? && Get(u.conditions, k).value.status == Get(st.conditions, k).value.status ==>
          Get(u.conditions, k).value.lastTransition == Get(st.conditions, k).value.lastTransition)
    && (st.startTime.Some? ==> u.startTime == st.startTime)
    && (st.completionTime.Some? ==> u.completionTime == st.completionTime)
  }

  lemma SyncSteady(job: Job, saved: Status, pods: seq<Pod>, services: seq<S.Service>, r: Replies)
    requires Coherent(saved)
    ensures Steady(saved, Sync(job, saved, pods, services, r).saved)
  {
    hide IsJobFinished, Sync, Get, Judge, Reached, Terminated, Survivors, AllBorn, Noted, AllCalls, S.Reconcile,
         Unique, Num, Sound, Check;
    if IsJobFinished(saved.conditions) {
      FinishedSkips(job, saved, pods, services, r);
    } else {
      SyncEffect(job, saved, pods, services, r);
      ReachedKeeps(job, saved, pods, r.now);
      var u := Sync(job, saved, pods, services, r).saved;
      if u != saved {
        assert Keeps(saved, u);
        forall k | Get(saved.conditions, k).Some?
          ensures Get(u.conditions, k).Some? && Advance(Get(saved.conditions, k).value, Get(u.conditions, k).value)
        {
          assert k != JobFailed;
          assert Advanced(saved.conditions, u.conditions, k);
        }
      }
    }
  }

  /** Time discipline: every step of every run is steady. */
  lemma TimesOverRuns(
    job: Job, pods: seq<Pod>, services: seq<S.Service>, clock: Time, steps: seq<Step>, step: Step)
    ensures var s := Exec(job, Init(pods, services, clock), steps);
            Steady(s.status, Apply(job, s, step).status)
  {
    hide Coherent, Sync, Exec, Get;
    var s := Exec(job, Init(pods, services, clock), steps);
    EveryRunIsCoherent(job, pods, services, clock, steps);
    if step.SyncStep? && !s.pending {
      SyncSteady(job, s.status, s.pods, s.services, step.r);
    }
  }
}
