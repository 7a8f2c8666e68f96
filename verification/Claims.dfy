/** Claiming services, stated on the services and the replies themselves: which patches are sent, what
    they leave behind, and that the services of other jobs are none of this job's business. */
module Claims {
  import opened Types
  import opened Labels
  import opened Services
  import P = Pods

  /** The service passes the selector and every filter. */
  ghost predicate Fits(q: Request, s: Service) {
    && (forall k :: k in q.selector ==> k in s.labels && s.labels[k] == q.selector[k])
    && (forall f :: f in q.filters ==> f(s))
  }

  /** A service of this job that stopped fitting is to be released. */
  ghost predicate ToRelease(q: Request, s: Service) {
    !q.ownerDeleting && s.controller == Some(q.job.uid) && !Fits(q, s)
  }

  /** An orphan that fits and is not on its way out is to be adopted. */
  ghost predicate ToAdopt(q: Request, s: Service) {
    !q.ownerDeleting && s.controller == None && Fits(q, s) && !s.deleting
  }

  /** The live job is the one that asks, and is not being deleted. */
  ghost predicate Alive(q: Request) {
    q.live == Live(q.job.uid, false)
  }

  lemma FitsIsMatch(q: Request, s: Service)
    ensures Fits(q, s) <==> Match(q.selector, q.filters, s)
  {
  }

  /** One service, case by case: when a patch is sent and which, when it is claimed, when its claim is
      an error. */
  lemma ClaimLaw(q: Request, s: Service, i: nat)
    ensures var c := At(q, s, i);
            && c.patch == (if ToRelease(q, s) then Some(ReleasePatch(s))
                           else if ToAdopt(q, s) && Alive(q) then Some(AdoptPatch(s)) else None)
            && (c.outcome == Claimed <==>
                || (s.controller == Some(q.job.uid) && Fits(q, s))
                || (ToAdopt(q, s) && Alive(q) && q.reply(i) == Patched))
            && (c.outcome == Errored <==>
                || (ToRelease(q, s) && q.reply(i).PatchError?)
                || (ToAdopt(q, s) && (!Alive(q) || q.reply(i) == Invalid || q.reply(i).PatchError?)))
  {
    hide Match, Fits;
    FitsIsMatch(q, s);
  }

  /** What the API server holds of the service afterwards. */
  lemma AfterLaw(q: Request, s: Service, i: nat)
    ensures var after := At(q, s, i).after;
            if ToRelease(q, s) || (ToAdopt(q, s) && Alive(q)) then
              var t := s.(controller := if ToRelease(q, s) then None else Some(q.job.uid));
              match q.reply(i)
              case Patched => after == [t]
              case NotFound => after == []
              case Invalid => after == [s]
              case PatchError(applied) => after == [if applied then t else s]
            else after == [s]
  {
    hide Match, Fits;
    FitsIsMatch(q, s);
  }

  /** The patches a list calls for, in its order. */
  ghost function Due(q: Request, services: seq<Service>): seq<Patch> {
    if services == [] then []
    else
      var front, last := services[..|services| - 1], services[|services| - 1];
      if ToRelease(q, last) then Due(q, front) + [ReleasePatch(last)]
      else if ToAdopt(q, last) && Alive(q) then Due(q, front) + [AdoptPatch(last)]
      else Due(q, front)
  }

  /** Exactly the patches that are due are sent: one release for every service of ours that stopped
      fitting, one adoption for every fitting orphan if the live job allows it, and no other. */
  lemma {:induction false} PatchesExactly(q: Request, services: seq<Service>)
    ensures ClaimAll(q, services).patches == Due(q, services)
  {
    hide At, ToRelease, ToAdopt, Alive;
    if services != [] {
      var front, last := services[..|services| - 1], services[|services| - 1];
      PatchesExactly(q, front);
      ClaimLaw(q, last, |front|);
    }
  }

  /** Claims of earlier services decide where in the cluster a later one stands. */
  lemma {:induction false} InPlace(q: Request, services: seq<Service>, i: nat)
    requires i < |services|
    ensures ClaimAll(q, services[..i]).after + At(q, services[i], i).after <= ClaimAll(q, services).after
  {
    hide At;
    var front, last := services[..|services| - 1], services[|services| - 1];
    if i == |services| - 1 {
      assert services[..i] == front;
    } else {
      assert front[..i] == services[..i];
      InPlace(q, front, i);
    }
  }

  /** Releasing: a service of ours that stopped fitting is set free in its place if the patch goes
      through, and its claim is an error exactly if the patch failed for another reason than the
      service being gone or already free. */
  lemma ReleasedInPlace(q: Request, services: seq<Service>, i: nat)
    requires i < |services| && ToRelease(q, services[i])
    ensures var after, at := ClaimAll(q, services).after, |ClaimAll(q, services[..i]).after|;
            q.reply(i) == Patched ==> at < |after| && after[at] == services[i].(controller := None)
    ensures Ends(q, services, i, Errored) <==> q.reply(i).PatchError?
    ensures q.reply(i).PatchError? ==> ClaimAll(q, services).errors > 0
  {
    hide ClaimAll, At, Fits;
    InPlace(q, services, i);
    AfterLaw(q, services[i], i);
    ClaimLaw(q, services[i], i);
    ErrorsAreLocal(q, services);
    assert Ends(q, services, i, Errored) <==> At(q, services[i], i).outcome == Errored;
  }

  /** Claiming a list fails exactly if some release fails, or some adoption is denied or fails. */
  lemma ErrorsExactly(q: Request, services: seq<Service>)
    ensures ClaimAll(q, services).errors > 0 <==>
            exists i: nat :: i < |services| && FailsAt(q, services[i], q.reply(i))
  {
    hide ClaimAll, At, FailsAt;
    ErrorsAreLocal(q, services);
    forall i: nat | i < |services| ensures Ends(q, services, i, Errored) <==> FailsAt(q, services[i], q.reply(i)) {
      FailsLaw(q, services[i], i);
    }
  }

  ghost predicate FailsAt(q: Request, s: Service, reply: PatchReply) {
    || (ToRelease(q, s) && reply.PatchError?)
    || (ToAdopt(q, s) && (!Alive(q) || reply == Invalid || reply.PatchError?))
  }

  lemma FailsLaw(q: Request, s: Service, i: nat)
    ensures At(q, s, i).outcome == Errored <==> FailsAt(q, s, q.reply(i))
  {
    hide At, ToRelease, ToAdopt;
    ClaimLaw(q, s, i);
  }

  // Two jobs.

  lemma KeyApart()
    ensures GROUP_NAME_LABEL != JOB_NAME_LABEL && JOB_NAME_LABEL != REPLICA_TYPE_LABEL
    ensures GROUP_NAME_LABEL != REPLICA_TYPE_LABEL
  {
    assert |REPLICA_TYPE_LABEL| == 15 && |JOB_NAME_LABEL| == 10 && |GROUP_NAME_LABEL| == 10;
    assert JOB_NAME_LABEL[0] != GROUP_NAME_LABEL[0];
  }

  /** A job's labels name the job, whatever a template says. */
  lemma LabelsNameJob(job: Job, rt: ReplicaType, of: Option<ReplicaType>, uid: string)
    ensures JOB_NAME_LABEL in GenLabels(job, of) && GenLabels(job, of)[JOB_NAME_LABEL] == job.name
    ensures JOB_NAME_LABEL in NewPod(job, rt).labels && NewPod(job, rt).labels[JOB_NAME_LABEL] == job.name
    ensures JOB_NAME_LABEL in NewService(job, uid).labels && NewService(job, uid).labels[JOB_NAME_LABEL] == job.name
    ensures JOB_NAME_LABEL in NewService(job, uid).selector && NewService(job, uid).selector[JOB_NAME_LABEL] == job.name
  {
    KeyApart();
  }

  /** The service's labels, and the pods it selects, word by word. */
  lemma ServiceLabels(job: Job, uid: string)
    ensures var labels :=
              map["group-name" := "ava.qiniu.com", "mxjob-name" := job.name, "mx-replica-type" := "scheduler"];
            NewService(job, uid).labels == labels && NewService(job, uid).selector == labels
    ensures NewService(job, uid).name == job.name + "-scheduler"
    ensures NewService(job, uid).controller == None && !NewService(job, uid).deleting
  {
  }

  /** Jobs with different names never meet: neither's selector matches the other's pods or service,
      neither's service selects the other's pods, and their services have different names. */
  lemma JobsApart(a: Job, b: Job, rt: ReplicaType, uid: string, uid': string)
    requires a.name != b.name
    ensures !Matches(GenLabels(a, None), NewPod(b, rt).labels)
    ensures !Matches(GenLabels(a, None), NewService(b, uid).labels)
    ensures !Matches(NewService(a, uid').selector, NewPod(b, rt).labels)
    ensures NewService(a, uid').name != NewService(b, uid).name
  {
    hide GenLabels, NewPod;
    LabelsNameJob(a, rt, None, uid');
    LabelsNameJob(b, rt, None, uid);
    NamesApart(a, b);
  }

  lemma NamesApart(a: Job, b: Job)
    requires a.name != b.name
    ensures ServiceName(a, Scheduler) != ServiceName(b, Scheduler)
  {
    var suffix := "-" + TypeName(Scheduler);
    assert ServiceName(a, Scheduler) == a.name + suffix && ServiceName(b, Scheduler) == b.name + suffix;
    assert (a.name + suffix)[..|a.name|] == a.name && (b.name + suffix)[..|b.name|] == b.name;
    assert |a.name + suffix| == |a.name| + |suffix| && |b.name + suffix| == |b.name| + |suffix|;
  }

  /** A service that carries another job's name and is not controlled by this job. */
  predicate Foreign(job: Job, s: Service) {
    JOB_NAME_LABEL in s.labels && s.labels[JOB_NAME_LABEL] != job.name && s.controller != Some(job.uid)
  }

  lemma ForeignMisfits(job: Job, s: Service)
    requires Foreign(job, s)
    ensures !Matches(GenLabels(job, None), s.labels)
  {
    LabelsNameJob(job, Worker, None, "");
  }

  lemma ForeignIgnored(job: Job, r: Replies, s: Service, i: nat)
    requires Foreign(job, s)
    ensures At(ClaimRequest(job, r), s, i) == Claim(Ignored, None, [s])
    ensures !Usable(job, s)
  {
    hide GenLabels, Foreign, Matches;
    ForeignMisfits(job, s);
    assert s.controller != Some(job.uid) by {
      NotOurs(job, s);
    }
  }

  lemma NotOurs(job: Job, s: Service)
    requires Foreign(job, s)
    ensures s.controller != Some(job.uid)
  {
  }

  /** Reconciling one job leaves the services of others alone: they are neither patched nor claimed,
      and are there afterwards as they were. */
  lemma {:induction false} OthersLeftAlone(job: Job, services: seq<Service>, r: Replies, s: Service)
    requires s in services && Foreign(job, s)
    ensures var c := ClaimAll(ClaimRequest(job, r), services);
            && s in c.after && s !in c.claimed
            && (forall p :: p in c.patches ==> p.service != s)
            && s in Reconcile(job, services, r).services
  {
    hide At, Foreign, ClaimRequest;
    var q := ClaimRequest(job, r);
    OthersUntouched(job, services, r, s);
    if !r.listError {
      assert s in ClaimAll(q, services).after;
    }
  }

  lemma {:induction false} OthersUntouched(job: Job, services: seq<Service>, r: Replies, s: Service)
    requires Foreign(job, s)
    ensures var c := ClaimAll(ClaimRequest(job, r), services);
            && (s in services ==> s in c.after) && s !in c.claimed
            && (forall p :: p in c.patches ==> p.service != s)
  {
    hide At, Foreign, ClaimRequest;
    if services != [] {
      var front, last := services[..|services| - 1], services[|services| - 1];
      assert services == front + [last];
      OthersUntouched(job, front, r, s);
      ForeignIgnored(job, r, s, |front|);
      var q := ClaimRequest(job, r);
      var p := At(q, last, |front|).patch;
      assert p.Some? ==> p.value.service == last by {
        PatchesItself(q, last, |front|);
      }
    }
  }

  lemma PatchesItself(q: Request, s: Service, i: nat)
    ensures At(q, s, i).patch.Some? ==> At(q, s, i).patch.value.service == s
  {
    hide Match;
  }

  /** So another job's service does not keep this job from getting its own. */
  lemma {:induction false} OthersDoNotCount(job: Job, services: seq<Service>, r: Replies)
    requires (forall s :: s in services ==> Foreign(job, s)) && !r.listError
    ensures Reconcile(job, services, r).creates == 1
  {
    hide Foreign, ClaimAll;
    NoneUsable(job, services);
    NoErrors(job, services, r);
    ClaimingUsable(job, r, services);
    ServiceCreatedIffMissing(job, services, r);
  }

  lemma {:induction false} NoneUsable(job: Job, services: seq<Service>)
    requires forall s :: s in services ==> Foreign(job, s)
    ensures CountUsable(job, services) == 0
  {
    hide Foreign, Usable;
    if services != [] {
      NoneUsable(job, services[..|services| - 1]);
      ForeignIgnored(job, Replies(false, GetFails, i => Patched, P.Created, ""), services[|services| - 1], 0);
    }
  }

  lemma {:induction false} NoErrors(job: Job, services: seq<Service>, r: Replies)
    requires forall s :: s in services ==> Foreign(job, s)
    ensures ClaimAll(ClaimRequest(job, r), services).errors == 0
  {
    hide Foreign, At, ClaimRequest;
    if services != [] {
      NoErrors(job, services[..|services| - 1], r);
      ForeignIgnored(job, r, services[|services| - 1], |services| - 1);
    }
  }

  // Templates.

  /** What the user wrote for a type. */
  function Template(job: Job, rt: ReplicaType): LabelSet {
    match rt
    case Scheduler => job.scheduler.labels
    case Server => job.server.labels
    case Worker => job.worker.labels
  }

  /** A new pod keeps every label of its own type's template that the job does not set itself, has no
      others, and starts out pending. */
  lemma TemplateKept(job: Job, rt: ReplicaType)
    ensures var labels, mine := NewPod(job, rt).labels, {GROUP_NAME_LABEL, JOB_NAME_LABEL, REPLICA_TYPE_LABEL};
            && labels.Keys == Template(job, rt).Keys + mine
            && (forall k :: k in Template(job, rt) && k !in mine ==> labels[k] == Template(job, rt)[k])
    ensures NewPod(job, rt).phase == PodPending && !NewPod(job, rt).deleting
  {
    assert GenLabels(job, Some(rt)).Keys == {GROUP_NAME_LABEL, JOB_NAME_LABEL, REPLICA_TYPE_LABEL};
  }
}
