/** The scheduler's service: claiming existing services, creating a missing one, and the environment
    through which every replica finds it. */
module Services {
  import opened Types
  import opened Labels
  import P = Pods

  /** `controller` is the UID of the controlling owner reference, if there is one. */
  datatype Service = Service(
    name: string, uid: string, labels: LabelSet, selector: LabelSet, port: int,
    controller: Option<string>, deleting: bool)

  type Filter = Service -> bool

  /** What an uncached read of the job returns. */
  datatype LiveJob = GetFails | Live(uid: string, deleting: bool)

  /** An errored patch may have been applied nevertheless. */
  datatype PatchReply = Patched | NotFound | Invalid | PatchError(applied: bool)

  datatype Patch = AdoptPatch(service: Service) | ReleasePatch(service: Service)

  /** RecheckDeletionTimestamp over the live read, including the UID comparison. */
  predicate MayAdopt(job: Job, live: LiveJob) {
    live.Live? && live.uid == job.uid && !live.deleting
  }

  predicate Match(selector: LabelSet, filters: seq<Filter>, s: Service) {
    Matches(selector, s.labels) && forall i :: 0 <= i < |filters| ==> filters[i](s)
  }

  datatype Outcome = Claimed | Ignored | Errored

  /** One service's claim: the outcome, the patch sent, and what the API server then holds. */
  datatype Claim = Claim(outcome: Outcome, patch: Option<Patch>, after: seq<Service>)

  /** ClaimObject with AdoptService and ReleaseService; `ownerDeleting` is the job's own deletion. */
  function ClaimOne(
    job: Job, ownerDeleting: bool, matches: bool, s: Service, live: LiveJob, reply: PatchReply): Claim
  {
    if s.controller.Some? then
      if s.controller.value != job.uid then Claim(Ignored, None, [s])
      else if matches then Claim(Claimed, None, [s])
      else if ownerDeleting then Claim(Ignored, None, [s])
      else
        var released := s.(controller := None);
        match reply
        case Patched => Claim(Ignored, Some(ReleasePatch(s)), [released])
        case NotFound => Claim(Ignored, Some(ReleasePatch(s)), [])
        case Invalid => Claim(Ignored, Some(ReleasePatch(s)), [s])
        case PatchError(applied) => Claim(Errored, Some(ReleasePatch(s)), [if applied then released else s])
    else if ownerDeleting || !matches || s.deleting then Claim(Ignored, None, [s])
    else if !MayAdopt(job, live) then Claim(Errored, None, [s])
    else
      var adopted := s.(controller := Some(job.uid));
      match reply
      case Patched => Claim(Claimed, Some(AdoptPatch(s)), [adopted])
      case NotFound => Claim(Ignored, Some(AdoptPatch(s)), [])
      case Invalid => Claim(Errored, Some(AdoptPatch(s)), [s])
      case PatchError(applied) => Claim(Errored, Some(AdoptPatch(s)), [if applied then adopted else s])
  }

  datatype Request = Request(
    job: Job, ownerDeleting: bool, selector: LabelSet, filters: seq<Filter>, live: LiveJob,
    reply: nat -> PatchReply)

  function At(q: Request, s: Service, i: nat): Claim {
    ClaimOne(q.job, q.ownerDeleting, Match(q.selector, q.filters, s), s, q.live, q.reply(i))
  }

  /** What claiming a list amounts to, one service at a time. */
  datatype Result = Result(claimed: seq<Service>, errors: nat, patches: seq<Patch>, after: seq<Service>)

  function ClaimAll(q: Request, services: seq<Service>): Result {
    if services == [] then Result([], 0, [], [])
    else
      var front, last := services[..|services| - 1], services[|services| - 1];
      var r, c := ClaimAll(q, front), At(q, last, |front|);
      Result(
        if c.outcome == Claimed then r.claimed + [last] else r.claimed,
        if c.outcome == Errored then r.errors + 1 else r.errors,
        if c.patch.Some? then r.patches + [c.patch.value] else r.patches,
        r.after + c.after)
  }

  /** The manager: the claim check runs at most once and its answer is remembered. */
  class RefManager {
    const q: Request
    var checked: bool
    var denied: bool
    var liveReads: nat
    var patches: seq<Patch>

    constructor (q: Request)
      ensures this.q == q && Valid() && liveReads == 0 && patches == []
    {
      this.q := q;
      checked, denied, liveReads, patches := false, false, 0, [];
    }

    ghost predicate Valid() reads this {
      && liveReads == (if checked then 1 else 0)
      && (checked ==> (denied <==> !MayAdopt(q.job, q.live)))
    }

    method CanAdopt() returns (err: bool)
      requires Valid()
      modifies `checked, `denied, `liveReads
      ensures Valid() && err == !MayAdopt(q.job, q.live)
      ensures err <==> q.live != Live(q.job.uid, false)
    {
      if !checked {
        checked := true;
        liveReads := liveReads + 1;
        denied := q.live.GetFails? || q.live.uid != q.job.uid || q.live.deleting;
      }
      err := denied;
    }

    method MatchService(s: Service) returns (ok: bool)
      ensures ok == Match(q.selector, q.filters, s)
    {
      if !Matches(q.selector, s.labels) {
        return false;
      }
      for i := 0 to |q.filters|
        invariant forall j :: 0 <= j < i ==> q.filters[j](s)
      {
        if !q.filters[i](s) {
          return false;
        }
      }
      return true;
    }

    /** Sends the patch and returns the API server's view of the service. */
    method AdoptService(s: Service, reply: PatchReply) returns (err: Option<PatchReply>, after: seq<Service>)
      requires Valid()
      modifies this
      ensures Valid()
      ensures var may := MayAdopt(q.job, q.live);
              && patches == (if may then old(patches) + [AdoptPatch(s)] else old(patches))
              && err == (if !may then Some(Invalid) else if reply.Patched? then None else Some(reply))
              && after == (if !may then [s] else match reply
                                                 case Patched => [s.(controller := Some(q.job.uid))]
                                                 case NotFound => []
                                                 case Invalid => [s]
                                                 case PatchError(applied) =>
                                                   [if applied then s.(controller := Some(q.job.uid)) else s])
    {
      var no := CanAdopt();
      if no {
        return Some(Invalid), [s];
      }
      patches := patches + [AdoptPatch(s)];
      var adopted := s.(controller := Some(q.job.uid));
      match reply
      case Patched => return None, [adopted];
      case NotFound => return Some(reply), [];
      case Invalid => return Some(reply), [s];
      case PatchError(applied) => return Some(reply), [if applied then adopted else s];
    }

    /** Ignores a missing or already released service. */
    method ReleaseService(s: Service, reply: PatchReply) returns (err: bool, after: seq<Service>)
      requires Valid()
      modifies `patches
      ensures Valid() && patches == old(patches) + [ReleasePatch(s)]
      ensures err == reply.PatchError?
      ensures after == match reply
                       case Patched => [s.(controller := None)]
                       case NotFound => []
                       case Invalid => [s]
                       case PatchError(applied) => [if applied then s.(controller := None) else s]
    {
      patches := patches + [ReleasePatch(s)];
      match reply
      case Patched => return false, [s.(controller := None)];
      case NotFound => return false, [];
      case Invalid => return false, [s];
      case PatchError(applied) => return true, [if applied then s.(controller := None) else s];
    }

    method ClaimObject(s: Service, i: nat) returns (ok: bool, err: bool, after: seq<Service>)
      requires Valid()
      modifies this
      ensures Valid()
      ensures var c := At(q, s, i);
              && ok == (c.outcome == Claimed) && err == (c.outcome == Errored) && after == c.after
              && patches == old(patches) + (if c.patch.Some? then [c.patch.value] else [])
    {
      var m := MatchService(s);
      if s.controller.Some? {
        if s.controller.value != q.job.uid {
          return false, false, [s];
        }
        if m {
          return true, false, [s];
        }
        if q.ownerDeleting {
          return false, false, [s];
        }
        err, after := ReleaseService(s, q.reply(i));
        return false, err, after;
      }
      if q.ownerDeleting || !m || s.deleting {
        return false, false, [s];
      }
      var e;
      e, after := AdoptService(s, q.reply(i));
      if e.Some? {
        return false, !e.value.NotFound?, after;
      }
      return true, false, after;
    }

    /** The claim loop: it carries on after an error and reads the live job at most once. */
    method ClaimServices(services: seq<Service>) returns (claimed: seq<Service>, failed: bool, after: seq<Service>)
      requires Valid() && patches == []
      modifies this
      ensures Valid() && liveReads <= 1
      ensures var r := ClaimAll(q, services);
              claimed == r.claimed && (failed <==> r.errors > 0) && patches == r.patches && after == r.after
    {
      claimed, after := [], [];
      var errors := 0;
      for i := 0 to |services|
        invariant Valid()
        invariant Result(claimed, errors, patches, after) == ClaimAll(q, services[..i])
      {
        assert services[..i + 1][..i] == services[..i];
        var ok, err, now := ClaimObject(services[i], i);
        after := after + now;
        if err {
          errors := errors + 1;
          continue;
        }
        if ok {
          claimed := claimed + [services[i]];
        }
      }
      assert services[..|services|] == services;
      failed := errors > 0;
    }
  }

  /** xs is what is left of ys after dropping some elements. */
  ghost predicate Subsequence(xs: seq<Service>, ys: seq<Service>)
    decreases |ys|
  {
    if ys == [] then xs == []
    else
      || Subsequence(xs, ys[..|ys| - 1])
      || (xs != [] && xs[|xs| - 1] == ys[|ys| - 1] && Subsequence(xs[..|xs| - 1], ys[..|ys| - 1]))
  }

  /** The documented contract: an in-order subsequence of services that match and are controlled by
      this job afterwards. */
  lemma {:induction false} ClaimedAreOwned(q: Request, services: seq<Service>)
    ensures var r := ClaimAll(q, services);
            && Subsequence(r.claimed, services)
            && (forall s :: s in r.claimed ==>
                  Match(q.selector, q.filters, s) && s.(controller := Some(q.job.uid)) in r.after)
  {
    hide Matches;
    if services != [] {
      var front, last := services[..|services| - 1], services[|services| - 1];
      ClaimedAreOwned(q, front);
      var r, c := ClaimAll(q, front), At(q, last, |front|);
      if c.outcome == Claimed {
        assert (r.claimed + [last])[..|r.claimed|] == r.claimed;
        assert c.after == [last.(controller := Some(q.job.uid))];
      }
    }
  }

  /** Services of other controllers are never patched, and no adoption is attempted unless the live
      job has this UID and is not being deleted. */
  lemma {:induction false} PatchesAreOurs(q: Request, services: seq<Service>)
    ensures forall p :: p in ClaimAll(q, services).patches ==>
      && p.service in services
      && (p.AdoptPatch? ==> p.service.controller.None? && MayAdopt(q.job, q.live))
      && (p.ReleasePatch? ==> p.service.controller == Some(q.job.uid))
  {
    hide Match;
    if services != [] {
      PatchesAreOurs(q, services[..|services| - 1]);
    }
  }

  /** A list of services apart from their controller references. */
  function Bare(services: seq<Service>): seq<Service> {
    if services == [] then []
    else Bare(services[..|services| - 1]) + [services[|services| - 1].(controller := None)]
  }

  lemma BareConcat(a: seq<Service>, s: Service)
    ensures Bare(a + [s]) == Bare(a) + [s.(controller := None)]
  {
    assert (a + [s])[..|a|] == a;
  }

  /** The services a patch found missing. */
  function Missing(q: Request, services: seq<Service>): nat {
    if services == [] then 0
    else
      var front, last := services[..|services| - 1], services[|services| - 1];
      Missing(q, front) + if At(q, last, |front|).patch.Some? && q.reply(|front|).NotFound? then 1 else 0
  }

  /** The two ways claiming may turn s into t: s is ours but no longer matches and is set free, or s
      is an orphan that matches and becomes ours. */
  predicate Reowned(q: Request, s: Service, t: Service) {
    || (s.controller == Some(q.job.uid) && !Match(q.selector, q.filters, s) && t == s.(controller := None))
    || (s.controller.None? && Match(q.selector, q.filters, s) && MayAdopt(q.job, q.live) &&
        t == s.(controller := Some(q.job.uid)))
  }

  lemma ClaimOneReowns(q: Request, s: Service, i: nat)
    ensures var c := At(q, s, i);
            if c.patch.Some? && q.reply(i).NotFound? then c.after == []
            else |c.after| == 1 && (c.after[0] == s || Reowned(q, s, c.after[0]))
    ensures s.controller.Some? && s.controller.value != q.job.uid ==> At(q, s, i).after == [s]
  {
    hide Match;
  }

  /** What claiming leaves in the cluster, however the patches fare: the listed services in their
      order, without those a patch found missing, and the same but for their controllers. */
  lemma {:induction false} ClaimingKeepsServices(q: Request, services: seq<Service>)
    ensures var after := ClaimAll(q, services).after;
            Subsequence(Bare(after), Bare(services)) && |after| == |services| - Missing(q, services)
  {
    hide At, Bare, Subsequence, Match;
    if services == [] {
      NothingClaimed();
    } else {
      var front, last := services[..|services| - 1], services[|services| - 1];
      assert services == front + [last];
      ClaimingKeepsServices(q, front);
      ClaimOneReowns(q, last, |front|);
      BareConcat(front, last);
      var after, c := ClaimAll(q, front).after, At(q, last, |front|);
      SubsequenceGrows(Bare(after), Bare(front), last.(controller := None));
      if c.after == [] {
        assert after + c.after == after;
      } else {
        BareConcat(after, c.after[0]);
        assert c.after == [c.after[0]];
      }
    }
  }

  lemma NothingClaimed()
    ensures Subsequence(Bare([]), Bare([]))
  {
  }

  lemma SubsequenceGrows(xs: seq<Service>, ys: seq<Service>, z: Service)
    requires Subsequence(xs, ys)
    ensures Subsequence(xs, ys + [z]) && Subsequence(xs + [z], ys + [z])
  {
    assert (ys + [z])[..|ys|] == ys && (xs + [z])[..|xs|] == xs;
  }

  /** Whatever is not as listed was set free because it no longer matches, or adopted because it does;
      services of other controllers are still there as they were. */
  lemma {:induction false} ClaimingOnlyReowns(q: Request, services: seq<Service>)
    ensures var after := ClaimAll(q, services).after;
            && (forall t :: t in after && t !in services ==> exists s :: s in services && Reowned(q, s, t))
            && (forall s :: s in services && s.controller.Some? && s.controller.value != q.job.uid ==> s in after)
  {
    hide At, Reowned;
    if services != [] {
      var front, last := services[..|services| - 1], services[|services| - 1];
      assert services == front + [last];
      ClaimingOnlyReowns(q, front);
      ClaimOneReowns(q, last, |front|);
      var c := At(q, last, |front|);
      assert c.after == [] || c.after == [c.after[0]];
    }
  }

  predicate Ends(q: Request, services: seq<Service>, i: nat, o: Outcome) {
    i < |services| && At(q, services[i], i).outcome == o
  }

  /** The call fails iff some service's own claim does. */
  lemma {:induction false} ErrorsAreLocal(q: Request, services: seq<Service>)
    ensures ClaimAll(q, services).errors > 0 <==> exists i: nat :: Ends(q, services, i, Errored)
  {
    hide At;
    if services != [] {
      var n := |services| - 1;
      var front := services[..n];
      ErrorsAreLocal(q, front);
      assert forall i: nat, o :: i < n ==> (Ends(q, front, i, o) <==> Ends(q, services, i, o));
      assert Ends(q, services, n, Errored) <==> At(q, services[n], n).outcome == Errored;
    }
  }

  /** One failure does not stop the rest: a service is claimed iff its own claim succeeds. */
  lemma {:induction false} FailuresAreLocal(q: Request, services: seq<Service>, s: Service)
    ensures s in ClaimAll(q, services).claimed <==>
      exists i: nat :: Ends(q, services, i, Claimed) && services[i] == s
  {
    hide At;
    if services != [] {
      var n := |services| - 1;
      var front := services[..n];
      FailuresAreLocal(q, front, s);
      forall i: nat | i < n ensures Ends(q, front, i, Claimed) <==> Ends(q, services, i, Claimed) {
        assert front[i] == services[i];
      }
      assert s in ClaimAll(q, services).claimed <==>
        s in ClaimAll(q, front).claimed || (Ends(q, services, n, Claimed) && services[n] == s);
      if i: nat :| Ends(q, front, i, Claimed) && front[i] == s {
        assert Ends(q, services, i, Claimed) && services[i] == s;
      }
    }
  }

  // The scheduler's service.

  const DEFAULT_PORT := 9091

  function ServiceName(job: Job, rt: ReplicaType): string {
    job.name + "-" + TypeName(rt)
  }

  function RootPort(job: Job): int {
    if job.scheduler.psRootPort.Some? then job.scheduler.psRootPort.value else DEFAULT_PORT
  }

  /** The service as it is created: an orphan, because createServices drops the reference it is given. */
  function NewService(job: Job, uid: string): Service {
    var labels := GenLabels(job, Some(Scheduler));
    Service(ServiceName(job, Scheduler), uid, labels, labels, RootPort(job), None, false)
  }

  /** The API server's answers while services are reconciled; `uid` names a service it creates. */
  datatype Replies = Replies(
    listError: bool, live: LiveJob, patch: nat -> PatchReply, create: P.CreateReply, uid: string)

  datatype Reconciled = Reconciled(ok: bool, services: seq<Service>, creates: nat)

  function ClaimRequest(job: Job, r: Replies): Request {
    Request(job, false, GenLabels(job, None), [], r.live, r.patch)
  }

  /** getServicesForMXJob followed by reconcileServices. */
  function Reconcile(job: Job, services: seq<Service>, r: Replies): Reconciled {
    if r.listError then Reconciled(false, services, 0)
    else
      var claims := ClaimAll(ClaimRequest(job, r), services);
      if claims.errors > 0 then Reconciled(false, claims.after, 0)
      else if claims.claimed != [] then Reconciled(true, claims.after, 0)
      else
        Reconciled(
          !r.create.CreateError?,
          if P.Appears(r.create) then claims.after + [NewService(job, r.uid)] else claims.after,
          1)
  }

  method ReconcileServices(job: Job, services: seq<Service>, r: Replies)
    returns (ok: bool, after: seq<Service>, creates: nat)
    ensures Reconciled(ok, after, creates) == Reconcile(job, services, r)
  {
    if r.listError {
      return false, services, 0;
    }
    var manager := new RefManager(ClaimRequest(job, r));
    var claimed, failed;
    claimed, failed, after := manager.ClaimServices(services);
    if failed {
      return false, after, 0;
    }
    if |claimed| == 0 {
      if P.Appears(r.create) {
        after := after + [NewService(job, r.uid)];
      }
      // A timeout is not reported.
      return !r.create.CreateError?, after, 1;
    }
    return true, after, 0;
  }

  /** A service this job can rely on: it has the job's labels and is controlled by the job, or is an
      orphan that is not on its way out. */
  predicate Usable(job: Job, s: Service) {
    && Matches(GenLabels(job, None), s.labels)
    && (s.controller == Some(job.uid) || (s.controller.None? && !s.deleting))
  }

  function CountUsable(job: Job, services: seq<Service>): nat {
    if services == [] then 0
    else CountUsable(job, services[..|services| - 1]) + if Usable(job, services[|services| - 1]) then 1 else 0
  }

  lemma {:induction false} UsableConcat(job: Job, a: seq<Service>, b: seq<Service>)
    ensures CountUsable(job, a + b) == CountUsable(job, a) + CountUsable(job, b)
  {
    if b == [] {
      assert a + b == a;
    } else {
      assert (a + b)[..|a + b| - 1] == a + b[..|b| - 1];
      UsableConcat(job, a, b[..|b| - 1]);
    }
  }

  /** Claiming never adds a usable service; each one is claimed, or fails the pass, or is gone. */
  lemma {:induction false} ClaimingUsable(job: Job, r: Replies, services: seq<Service>)
    ensures var c := ClaimAll(ClaimRequest(job, r), services);
            && CountUsable(job, c.after) <= CountUsable(job, services)
            && CountUsable(job, c.after) <= |c.claimed| + c.errors
            && |c.claimed| <= CountUsable(job, c.after)
  {
    if services != [] {
      var n := |services| - 1;
      var front, last := services[..n], services[n];
      var q := ClaimRequest(job, r);
      ClaimingUsable(job, r, front);
      var c := At(q, last, n);
      assert Match(q.selector, q.filters, last) <==> Matches(GenLabels(job, None), last.labels);
      UsableConcat(job, ClaimAll(q, front).after, c.after);
      OneUsable(job, last, c);
    }
  }

  lemma OneUsable(job: Job, s: Service, c: Claim)
    requires exists live, reply :: c == ClaimOne(job, false, Matches(GenLabels(job, None), s.labels), s, live, reply)
    ensures var n := CountUsable(job, c.after);
            && n <= (if Usable(job, s) then 1 else 0)
            && n <= (if c.outcome == Claimed then 1 else 0) + (if c.outcome == Errored then 1 else 0)
            && (if c.outcome == Claimed then 1 else 0) <= n
  {
    if c.after != [] {
      var t := c.after[0];
      assert c.after == [t] && t.labels == s.labels;
      assert [t][..0] == [];
      assert CountUsable(job, [t]) == if Usable(job, t) then 1 else 0;
    }
  }

  /** A create is issued exactly when the services could be listed, every claim went through, and no
      usable service is left. */
  lemma ServiceCreatedIffMissing(job: Job, services: seq<Service>, r: Replies)
    ensures var c := ClaimAll(ClaimRequest(job, r), services);
            Reconcile(job, services, r).creates > 0 <==>
            !r.listError && c.errors == 0 && CountUsable(job, c.after) == 0
  {
    ClaimingUsable(job, r, services);
  }

  /** While a usable service exists and the API server does not report it missing, no create is
      issued, even when adopting it fails: that aborts the pass. */
  lemma NoSecondService(job: Job, services: seq<Service>, r: Replies, i: nat)
    requires i < |services| && Usable(job, services[i])
    requires services[i].controller.None? ==> r.patch(i) != NotFound
    ensures Reconcile(job, services, r).creates == 0
    ensures services[i].controller.None? && (r.live != Live(job.uid, false) || r.patch(i) != Patched) ==>
            !Reconcile(job, services, r).ok
  {
    var q := ClaimRequest(job, r);
    var c := At(q, services[i], i);
    assert Match(q.selector, q.filters, services[i]);
    if c.outcome == Errored {
      assert Ends(q, services, i, Errored);
      ErrorsAreLocal(q, services);
    } else {
      assert Ends(q, services, i, Claimed);
      FailuresAreLocal(q, services, services[i]);
    }
  }

  /** Reconciling never makes a second usable service. */
  lemma ServicesBounded(job: Job, services: seq<Service>, r: Replies)
    ensures var before, after := CountUsable(job, services), CountUsable(job, Reconcile(job, services, r).services);
            after <= before || after <= 1
  {
    ClaimingUsable(job, r, services);
    var c := ClaimAll(ClaimRequest(job, r), services);
    UsableConcat(job, c.after, [NewService(job, r.uid)]);
    assert [NewService(job, r.uid)][..0] == [];
    assert CountUsable(job, [NewService(job, r.uid)]) <= 1;
  }

  function Adoptions(patches: seq<Patch>): seq<Patch> {
    if patches == [] then []
    else
      var front, last := patches[..|patches| - 1], patches[|patches| - 1];
      if last.AdoptPatch? then Adoptions(front) + [last] else Adoptions(front)
  }

  lemma AdoptionsConcat(patches: seq<Patch>, p: Patch)
    ensures Adoptions(patches + [p]) == if p.AdoptPatch? then Adoptions(patches) + [p] else Adoptions(patches)
  {
    assert (patches + [p])[..|patches|] == patches;
  }

  lemma AdoptedIsUsable(job: Job, r: Replies, s: Service, i: nat)
    ensures var p := At(ClaimRequest(job, r), s, i).patch;
            p.Some? && p.value.AdoptPatch? ==> Usable(job, s)
  {
    hide Matches, GenLabels;
  }

  /** Only a usable service is ever adopted. */
  lemma {:induction false} NoneAdopted(job: Job, services: seq<Service>, r: Replies)
    requires CountUsable(job, services) == 0
    ensures Adoptions(ClaimAll(ClaimRequest(job, r), services).patches) == []
  {
    hide At, Usable, ClaimRequest;
    if services != [] {
      var n := |services| - 1;
      var front, last := services[..n], services[n];
      var q := ClaimRequest(job, r);
      NoneAdopted(job, front, r);
      AdoptedIsUsable(job, r, last, n);
      var c := At(q, last, n);
      if c.patch.Some? {
        AdoptionsConcat(ClaimAll(q, front).patches, c.patch.value);
      }
    }
  }

  lemma NewServiceMatches(job: Job, uid: string)
    ensures Matches(GenLabels(job, None), NewService(job, uid).labels)
  {
  }

  lemma NewServiceClaim(job: Job, uid: string, r: Replies, i: nat)
    ensures var s := NewService(job, uid);
            var c := At(ClaimRequest(job, r), s, i);
            if !MayAdopt(job, r.live) then c.outcome == Errored && c.patch == None
            else
              && c.patch == Some(AdoptPatch(s))
              && (r.patch(i) == Patched ==> c.outcome == Claimed && c.after == [s.(controller := Some(job.uid))])
  {
    hide Matches, GenLabels;
    NewServiceMatches(job, uid);
  }

  lemma ClaimLast(q: Request, front: seq<Service>, s: Service)
    ensures var a, b, c := ClaimAll(q, front + [s]), ClaimAll(q, front), At(q, s, |front|);
            && a.claimed == (if c.outcome == Claimed then b.claimed + [s] else b.claimed)
            && a.errors == b.errors + (if c.outcome == Errored then 1 else 0)
            && a.patches == (if c.patch.Some? then b.patches + [c.patch.value] else b.patches)
            && a.after == b.after + c.after
  {
    hide At;
    assert (front + [s])[..|front|] == front;
  }

  /** Claiming a list in which only the last service, a new one, is usable. */
  lemma ClaimNew(job: Job, front: seq<Service>, uid: string, r: Replies)
    requires CountUsable(job, front) == 0
    ensures var s := NewService(job, uid);
            var c := ClaimAll(ClaimRequest(job, r), front + [s]);
            && Adoptions(c.patches) == (if MayAdopt(job, r.live) then [AdoptPatch(s)] else [])
            && (!MayAdopt(job, r.live) ==> c.errors > 0)
            && (MayAdopt(job, r.live) && r.patch(|front|) == Patched ==>
                  c.claimed != [] && s.(controller := Some(job.uid)) in c.after)
  {
    hide At, CountUsable, ClaimAll, ClaimRequest, NewService, Adoptions, MayAdopt;
    var s, q := NewService(job, uid), ClaimRequest(job, r);
    NoneAdopted(job, front, r);
    NewServiceClaim(job, uid, r, |front|);
    ClaimLast(q, front, s);
    AdoptionsConcat(ClaimAll(q, front).patches, AdoptPatch(s));
  }

  /** A service made by one pass is an orphan that the next pass has to adopt: it sends exactly one
      adoption, for that service, if the live job allows it, and otherwise is cut short. */
  lemma NewServiceIsAdopted(job: Job, services: seq<Service>, r: Replies, r': Replies)
    requires Reconcile(job, services, r).creates > 0 && P.Appears(r.create) && !r'.listError
    ensures var after := Reconcile(job, services, r).services;
            var next := Reconcile(job, after, r');
            var new' := NewService(job, r.uid);
            var patches := ClaimAll(ClaimRequest(job, r'), after).patches;
            && after != [] && after[|after| - 1] == new'
            && Adoptions(patches) == (if MayAdopt(job, r'.live) then [AdoptPatch(new')] else [])
            && (!MayAdopt(job, r'.live) ==> !next.ok && next.creates == 0)
            && (next.ok && r'.patch(|after| - 1) == Patched ==>
                  next.creates == 0 && new'.(controller := Some(job.uid)) in next.services)
  {
    hide At, CountUsable, ClaimAll, ClaimRequest, NewService, Adoptions, MayAdopt;
    ServiceCreatedIffMissing(job, services, r);
    ClaimNew(job, ClaimAll(ClaimRequest(job, r), services).after, r.uid, r');
  }

  // The environment handed to every replica.

  function DigitChar(d: nat): char
    requires d < 10
  {
    ['0', '1', '2', '3', '4', '5', '6', '7', '8', '9'][d]
  }

  function FormatNat(n: nat): string {
    if n < 10 then [DigitChar(n)] else FormatNat(n / 10) + [DigitChar(n % 10)]
  }

  /** strconv.FormatInt in base 10. */
  function FormatInt(n: int): string {
    if n < 0 then "-" + FormatNat(-n) else FormatNat(n)
  }

  function ParseNat(s: string): int {
    if s == [] then 0 else 10 * ParseNat(s[..|s| - 1]) + (s[|s| - 1] as int - '0' as int)
  }

  /** How a replica reads a number back. */
  function ParseInt(s: string): int {
    if s != [] && s[0] == '-' then -ParseNat(s[1..]) else ParseNat(s)
  }

  lemma {:induction false} FormatNatParses(n: nat)
    ensures FormatNat(n) != [] && FormatNat(n)[0] != '-' && ParseNat(FormatNat(n)) == n
  {
    if n < 10 {
      assert [DigitChar(n)][..0] == [];
      assert ParseNat([DigitChar(n)]) == n;
    } else {
      FormatNatParses(n / 10);
      assert FormatNat(n)[..|FormatNat(n)| - 1] == FormatNat(n / 10);
    }
  }

  lemma FormatIntParses(n: int)
    ensures ParseInt(FormatInt(n)) == n
  {
    hide FormatNat, ParseNat;
    if n < 0 {
      FormatNatParses(-n);
      assert FormatInt(n)[1..] == FormatNat(-n);
    } else {
      FormatNatParses(n);
    }
  }

  function ConfigEnv(job: Job, rt: ReplicaType): map<string, string> {
    var common := map[
      "DMLC_PS_ROOT_URI" := ServiceName(job, Scheduler),
      "DMLC_PS_ROOT_PORT" := FormatInt(RootPort(job)),
      "DMLC_NUM_SERVER" := FormatInt(job.server.replicas),
      "DMLC_NUM_WORKER" := FormatInt(job.worker.replicas),
      "DMLC_ROLE" := TypeName(rt)];
    var verbose := job.Spec(rt).psVerbose;
    if verbose.Some? then common["PS_VERBOSE" := FormatInt(verbose.value)] else common
  }

  /** Every replica of every type is pointed at the job's service by name and by a port that reads
      back as the service's, that service selects the scheduler's pods and no other replica's, and
      its labels make the job claim it. */
  lemma Rendezvous(job: Job, uid: string, rt: ReplicaType)
    ensures var env, service := ConfigEnv(job, rt), NewService(job, uid);
            && Entry(env, "DMLC_PS_ROOT_URI", service.name)
            && Number(env, "DMLC_PS_ROOT_PORT", service.port)
            && service.port == (if job.scheduler.psRootPort.Some? then job.scheduler.psRootPort.value else 9091)
            && (Matches(service.selector, NewPod(job, rt).labels) <==> rt == Scheduler)
            && Usable(job, service)
  {
    hide FormatInt, ParseInt;
    FormatIntParses(RootPort(job));
    EnvEntries(job, rt);
    SelectorSplits(job, rt);
    assert Matches(GenLabels(job, None), NewService(job, uid).labels) by {
      LabelKeysDiffer();
    }
  }

  predicate Entry(env: map<string, string>, key: string, value: string) {
    key in env && env[key] == value
  }

  /** The entry reads back as the number. */
  predicate Number(env: map<string, string>, key: string, value: int) {
    key in env && ParseInt(env[key]) == value
  }

  /** The rest of the environment tells a replica its role and the size of the job, and carries the
      verbosity exactly if the user set one for that type. */
  lemma EnvironmentDescribesJob(job: Job, rt: ReplicaType)
    ensures var env := ConfigEnv(job, rt);
            var role := match rt case Scheduler => "scheduler" case Server => "server" case Worker => "worker";
            var spec := match rt case Scheduler => job.scheduler case Server => job.server case Worker => job.worker;
            && Entry(env, "DMLC_ROLE", role)
            && Number(env, "DMLC_NUM_SERVER", job.server.replicas)
            && Number(env, "DMLC_NUM_WORKER", job.worker.replicas)
            && ("PS_VERBOSE" in env <==> spec.psVerbose.Some?)
            && (spec.psVerbose.Some? ==> Number(env, "PS_VERBOSE", spec.psVerbose.value))
  {
    hide FormatInt, ParseInt;
    FormatIntParses(job.server.replicas);
    FormatIntParses(job.worker.replicas);
    EnvEntries(job, rt);
    if job.Spec(rt).psVerbose.Some? {
      FormatIntParses(job.Spec(rt).psVerbose.value);
    }
  }

  lemma LabelKeysDiffer()
    ensures REPLICA_TYPE_LABEL != JOB_NAME_LABEL && REPLICA_TYPE_LABEL != GROUP_NAME_LABEL
  {
    assert |REPLICA_TYPE_LABEL| == 15 && |JOB_NAME_LABEL| == 10 && |GROUP_NAME_LABEL| == 10;
  }

  lemma EnvEntries(job: Job, rt: ReplicaType)
    ensures var env := ConfigEnv(job, rt);
            && Entry(env, "DMLC_PS_ROOT_URI", ServiceName(job, Scheduler))
            && Entry(env, "DMLC_PS_ROOT_PORT", FormatInt(RootPort(job)))
            && Entry(env, "DMLC_ROLE", TypeName(rt))
            && Entry(env, "DMLC_NUM_SERVER", FormatInt(job.server.replicas))
            && Entry(env, "DMLC_NUM_WORKER", FormatInt(job.worker.replicas))
            && ("PS_VERBOSE" in env <==> job.Spec(rt).psVerbose.Some?)
            && (job.Spec(rt).psVerbose.Some? ==> Entry(env, "PS_VERBOSE", FormatInt(job.Spec(rt).psVerbose.value)))
  {
    hide FormatInt, TypeName;
    assert |"DMLC_PS_ROOT_URI"| == 16 && |"DMLC_PS_ROOT_PORT"| == 17 && |"DMLC_ROLE"| == 9 && |"PS_VERBOSE"| == 10;
    assert |"DMLC_NUM_SERVER"| == 15 && |"DMLC_NUM_WORKER"| == 15 && "DMLC_NUM_SERVER"[9] != "DMLC_NUM_WORKER"[9];
  }

  lemma SelectorSplits(job: Job, rt: ReplicaType)
    ensures Matches(GenLabels(job, Some(Scheduler)), NewPod(job, rt).labels) <==> rt == Scheduler
  {
    LabelKeysDiffer();
    var sel, labels := GenLabels(job, Some(Scheduler)), NewPod(job, rt).labels;
    assert REPLICA_TYPE_LABEL in sel && sel[REPLICA_TYPE_LABEL] == TypeName(Scheduler);
    assert labels[REPLICA_TYPE_LABEL] == TypeName(rt);
    if labels[REPLICA_TYPE_LABEL] == TypeName(Scheduler) {
      TypeNamesDiffer(rt, Scheduler);
    }
    forall k | k in sel && k != REPLICA_TYPE_LABEL ensures k in labels && labels[k] == sel[k] {
      assert k in GenLabels(job, Some(rt)) && GenLabels(job, Some(rt))[k] == sel[k];
    }
  }
}
