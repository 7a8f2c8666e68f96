/** The pass as the controller runs it: a job status on the heap, edited in place through pointers,
    copied once, compared and written at the end. Each method is proved against the value-level
    function of the same step. */
module Live {
  import opened Types
  import opened Labels
  import C = Conditions
  import P = Pods
  import FanOut
  import Pass

  class ReplicaCell {
    var active: int
    var succeeded: int
    var failed: int
    var gone: int

    constructor (c: Counts)
      ensures Value() == c
    {
      active, succeeded, failed, gone := c.active, c.succeeded, c.failed, c.gone;
    }

    function Value(): Counts
      reads this
    {
      Counts(active, succeeded, failed, gone)
    }
  }

  class TimeCell {
    var time: Time

    constructor (time: Time)
      ensures this.time == time
    {
      this.time := time;
    }
  }

  function CountsOf(c: ReplicaCell?): Option<Counts>
    reads c
  {
    if c == null then None else Some(c.Value())
  }

  function TimeOf(c: TimeCell?): Option<Time>
    reads c
  {
    if c == null then None else Some(c.time)
  }

  ghost function Just(o: object?): set<object> {
    if o == null then {} else {o}
  }

  /** A new cell for a value that may be absent. */
  method NewCounts(v: Option<Counts>) returns (c: ReplicaCell?)
    ensures CountsOf(c) == v && fresh(Just(c))
  {
    c := null;
    if v.Some? {
      c := new ReplicaCell(v.value);
    }
  }

  method NewTime(v: Option<Time>) returns (c: TimeCell?)
    ensures TimeOf(c) == v && fresh(Just(c))
  {
    c := null;
    if v.Some? {
      c := new TimeCell(v.value);
    }
  }

  const COUNTERS: set<FanOut.Cell> := {
    FanOut.ActiveOf(Scheduler), FanOut.ActiveOf(Server), FanOut.ActiveOf(Worker),
    FanOut.GoneOf(Scheduler), FanOut.GoneOf(Server), FanOut.GoneOf(Worker)}

  class JobStatus {
    var scheduler: ReplicaCell?
    var server: ReplicaCell?
    var worker: ReplicaCell?
    var startTime: TimeCell?
    var completionTime: TimeCell?
    var conditions: array<Condition>

    /** Everything this status reaches. */
    ghost function Cells(): set<object>
      reads this
    {
      {this, conditions} + Just(scheduler) + Just(server) + Just(worker) + Just(startTime) + Just(completionTime)
    }

    /** No two replica types share a counter cell. */
    ghost predicate Valid()
      reads `scheduler, `server, `worker
    {
      && (scheduler != null ==> scheduler != server && scheduler != worker)
      && (server != null ==> server != worker)
    }

    function Value(): Status
      reads this, scheduler, server, worker, startTime, completionTime, conditions
    {
      Status(
        CountsOf(scheduler), CountsOf(server), CountsOf(worker),
        TimeOf(startTime), TimeOf(completionTime), conditions[..])
    }

    function Cell(rt: ReplicaType): ReplicaCell?
      reads `scheduler, `server, `worker
    {
      match rt
      case Scheduler => scheduler
      case Server => server
      case Worker => worker
    }

    /** A status decoded from the API server: nothing else can reach it. */
    constructor (st: Status)
      ensures Valid() && fresh(Cells()) && Value() == st
    {
      hide CountsOf, TimeOf;
      scheduler, server, worker, startTime, completionTime := null, null, null, null, null;
      var copied := ToArray(st.conditions);
      conditions := copied;
      new;
      LoadReplicas(st);
      LoadTimes(st);
    }

    method LoadReplicas(st: Status)
      modifies `scheduler, `server, `worker
      ensures Valid() && fresh(Just(scheduler)) && fresh(Just(server)) && fresh(Just(worker))
      ensures CountsOf(scheduler) == st.scheduler && CountsOf(server) == st.server && CountsOf(worker) == st.worker
    {
      hide CountsOf;
      scheduler := NewCounts(st.scheduler);
      server := NewCounts(st.server);
      worker := NewCounts(st.worker);
    }

    method LoadTimes(st: Status)
      modifies `startTime, `completionTime
      ensures fresh(Just(startTime)) && fresh(Just(completionTime))
      ensures TimeOf(startTime) == st.startTime && TimeOf(completionTime) == st.completionTime
    {
      startTime := NewTime(st.startTime);
      completionTime := NewTime(st.completionTime);
    }

    /** A plain struct copy: every pointer and the condition array are shared. */
    constructor Share(from: JobStatus)
      ensures scheduler == from.scheduler && server == from.server && worker == from.worker
      ensures startTime == from.startTime && completionTime == from.completionTime && conditions == from.conditions
    {
      scheduler, server, worker := from.scheduler, from.server, from.worker;
      startTime, completionTime, conditions := from.startTime, from.completionTime, from.conditions;
    }

    /** The snapshot behind the update gate: equal, and built of new cells only, so that nothing done
        to this status later can reach it. */
    method DeepCopy() returns (out: JobStatus)
      requires Valid()
      ensures out.Valid() && out.Value() == Value()
      ensures fresh(out.Cells())
    {
      hide CountsOf, TimeOf;
      out := new JobStatus.Share(this);
      out.CopyReplicas();
      out.CopyTimes();
      out.conditions := ToArray(conditions[..]);
    }

    /** Replaces the shared counter cells by copies of them. */
    method CopyReplicas()
      requires Valid()
      modifies `scheduler, `server, `worker
      ensures Valid() && fresh(Just(scheduler)) && fresh(Just(server)) && fresh(Just(worker))
      ensures CountsOf(scheduler) == old(CountsOf(scheduler))
      ensures CountsOf(server) == old(CountsOf(server))
      ensures CountsOf(worker) == old(CountsOf(worker))
    {
      if scheduler != null {
        scheduler := new ReplicaCell(scheduler.Value());
      }
      if server != null {
        server := new ReplicaCell(server.Value());
      }
      if worker != null {
        worker := new ReplicaCell(worker.Value());
      }
    }

    method CopyTimes()
      modifies `startTime, `completionTime
      ensures fresh(Just(startTime)) && fresh(Just(completionTime))
      ensures TimeOf(startTime) == old(TimeOf(startTime)) && TimeOf(completionTime) == old(TimeOf(completionTime))
    {
      if startTime != null {
        startTime := new TimeCell(startTime.time);
      }
      if completionTime != null {
        completionTime := new TimeCell(completionTime.time);
      }
    }

    /** setCondition builds a new list; the old array is left as it was. */
    method SetCondition(c: Condition)
      modifies `conditions
      ensures conditions[..] == C.Set(old(conditions[..]), c)
      ensures conditions == old(conditions) || fresh(conditions)
    {
      var cs := conditions[..];
      var current := C.GetCondition(cs, c.kind);
      if current.Some? && current.value.status == c.status && current.value.reason == c.reason {
        return;
      }
      var added := c;
      if current.Some? && current.value.status == c.status {
        added := c.(lastTransition := current.value.lastTransition);
      }
      var kept := C.FilterOutCondition(cs, c.kind);
      conditions := ToArray(kept + [added]);
    }

    method Mark(k: CondType, reason: Reason, now: Time)
      modifies `conditions
      ensures conditions[..] == C.Set(old(conditions[..]), C.NewCondition(k, reason, now))
      ensures conditions == old(conditions) || fresh(conditions)
    {
      SetCondition(C.NewCondition(k, reason, now));
    }

    /** updateMXJobFalseConditions works on a copy of the condition it finds. */
    method Retract(k: CondType, reason: Reason, now: Time)
      modifies `conditions
      ensures conditions[..] == C.Retract(old(conditions[..]), k, reason, now)
      ensures conditions == old(conditions) || fresh(conditions)
    {
      var current := C.GetCondition(conditions[..], k);
      if current.None? || current.value.status == ConditionFalse {
        return;
      }
      SetCondition(current.value.(status := ConditionFalse, lastTransition := now, reason := reason));
    }

    method Has(k: CondType) returns (b: bool)
      ensures b == C.Check(Value().conditions, k)
    {
      b := C.CheckCondition(conditions[..], k);
    }

    method Finished() returns (b: bool)
      ensures b == C.IsJobFinished(Value().conditions)
    {
      b := C.IsJobFinished(conditions[..]);
    }

    /** Adds the Initialized condition if it is missing. */
    method Begin(now: Time) returns (first: bool)
      requires Valid()
      modifies `conditions
      ensures Valid() && Value() == Pass.Begun(old(Value()), now) && first == !Pass.Initialized(old(Value()))
      ensures conditions == old(conditions) || fresh(conditions)
    {
      hide C.Set, C.Get;
      var initialized := Has(JobInitialized);
      first := !initialized;
      if first {
        Mark(JobInitialized, ReasonInitialized, now);
      }
    }

    method SetReplica(rt: ReplicaType, c: Counts)
      requires Valid()
      modifies `scheduler, `server, `worker
      ensures Valid() && Value() == old(Value()).WithReplica(rt, c)
      ensures Cell(rt) != null && fresh(Cell(rt))
      ensures forall t :: t != rt ==> Cell(t) == old(Cell(t))
    {
      var cell := new ReplicaCell(c);
      match rt
      case Scheduler => scheduler := cell;
      case Server => server := cell;
      case Worker => worker := cell;
    }

    method UpdateWorker(c: Counts, replicas: int, now: nat -> Time)
      requires Valid()
      modifies `conditions, `startTime, `completionTime
      ensures Valid() && Value() == Pass.UpdateWorker(old(Value()), c, replicas, now)
      ensures conditions == old(conditions) || fresh(conditions)
      ensures startTime == old(startTime) || fresh(startTime)
      ensures completionTime == old(completionTime) || fresh(completionTime)
    {
      hide C.Set, C.Retract, CountsOf;
      if c.active == replicas && startTime == null {
        startTime := new TimeCell(now(Pass.Point(Worker, Pass.AtStart)));
      }
      if c.active > 0 {
        Mark(JobRunning, ReasonRunning, now(Pass.Point(Worker, Pass.AtRunning)));
      }
      if replicas - c.succeeded == 0 {
        Complete(now);
      }
    }

    method Complete(now: nat -> Time)
      modifies `conditions, `completionTime
      ensures conditions[..] ==
              C.Retract(
                C.Set(old(conditions[..]), C.NewCondition(JobSucceeded, ReasonSucceeded, now(Pass.Point(Worker, Pass.AtSucceeded)))),
                JobFailed, ReasonFailed, now(Pass.Point(Worker, Pass.AtNotFailed)))
      ensures conditions == old(conditions) || fresh(conditions)
      ensures TimeOf(completionTime) ==
              if old(completionTime) == null then Some(now(Pass.Point(Worker, Pass.AtCompletion))) else old(TimeOf(completionTime))
      ensures completionTime == old(completionTime) || fresh(completionTime)
    {
      hide C.Set, C.Retract;
      if completionTime == null {
        completionTime := new TimeCell(now(Pass.Point(Worker, Pass.AtCompletion)));
      }
      Mark(JobSucceeded, ReasonSucceeded, now(Pass.Point(Worker, Pass.AtSucceeded)));
      Retract(JobFailed, ReasonFailed, now(Pass.Point(Worker, Pass.AtNotFailed)));
    }

    method UpdateJobStatus(rt: ReplicaType, replicas: int, now: nat -> Time)
      requires Valid() && Cell(rt) != null
      modifies `conditions, `startTime, `completionTime
      ensures Valid() && Value() == Pass.UpdateStatus(old(Value()), rt, replicas, now)
      ensures conditions == old(conditions) || fresh(conditions)
      ensures startTime == old(startTime) || fresh(startTime)
      ensures completionTime == old(completionTime) || fresh(completionTime)
    {
      hide C.Set, C.Check, Pass.UpdateWorker, TimeOf;
      var c := Cell(rt).Value();
      if rt == Worker {
        UpdateWorker(c, replicas, now);
      }
      if c.failed > 0 || c.gone > 0 {
        var done := C.CheckCondition(conditions[..], JobSucceeded);
        if !done {
          Mark(JobFailed, ReasonFailed, now(Pass.Point(rt, Pass.AtFailed)));
        }
      }
    }

    /** reconcilePods: counts the listed pods of a type, creates the missing ones concurrently or
        declares them gone, and updates the status. It writes only to this object and to new cells. */
    method ReconcilePods(job: Job, pods: seq<Pod>, rt: ReplicaType, r: Pass.Replies)
      returns (ok: bool, born: seq<Pod>, calls: nat)
      requires Valid()
      modifies this
      ensures Valid() && Pass.Stage(ok, Value(), born, calls) == Pass.ReconcilePods(job, old(Value()), pods, rt, r)
      ensures Cell(rt) != null && fresh(Cell(rt))
      ensures forall t :: t != rt ==> Cell(t) == old(Cell(t))
    {
      hide C.Check, Pass.UpdateStatus, Pass.Observe, Pass.Calls, P.Born, P.Refused, Value, Valid;
      var initialized := Has(JobInitialized);
      SetReplica(rt, ZERO);
      var c;
      ok, c, born, calls := CountPods(job, pods, rt, initialized, r.create(rt));
      if !ok {
        return;
      }
      SetReplica(rt, c);
      UpdateJobStatus(rt, job.Replicas(rt), r.now);
    }

    /** All three counter cells exist. */
    ghost predicate Full()
      reads `scheduler, `server, `worker
    {
      scheduler != null && server != null && worker != null
    }

    function Read(c: FanOut.Cell): int
      requires Full()
      reads this, scheduler, server, worker
    {
      match c
      case Tally => 0
      case ActiveOf(rt) => Cell(rt).active
      case GoneOf(rt) => Cell(rt).gone
    }

    /** The counters the goroutines of Terminate share, as they stand in the cells. */
    ghost function Memory(): map<FanOut.Cell, int>
      requires Full()
      reads this, scheduler, server, worker
    {
      map c | c in COUNTERS :: Read(c)
    }

    /** Assigns to one field of one counter cell. */
    method Write(c: FanOut.Cell, v: int)
      requires Valid() && Full() && c in COUNTERS
      modifies scheduler, server, worker
      ensures Memory() == old(Memory())[c := v]
      ensures forall rt :: Cell(rt).succeeded == old(Cell(rt).succeeded) && Cell(rt).failed == old(Cell(rt).failed)
    {
      match c
      case ActiveOf(rt) => Cell(rt).active := v;
      case GoneOf(rt) => Cell(rt).gone := v;
    }

    /** One instruction of goroutine g, on the cells. */
    method Advance(ps: seq<FanOut.Program>, th: FanOut.Threads, g: nat) returns (next: FanOut.Threads)
      requires Valid() && Full()
      requires FanOut.Shaped(ps, FanOut.Machine(th, Memory())) && FanOut.Enabled(ps, FanOut.Machine(th, Memory()), g)
      modifies scheduler, server, worker
      ensures FanOut.Machine(next, Memory()) == FanOut.Step(ps, FanOut.Machine(th, old(Memory())), g)
      ensures forall rt :: Cell(rt).succeeded == old(Cell(rt).succeeded) && Cell(rt).failed == old(Cell(rt).failed)
    {
      next := th.(pc := th.pc[g := th.pc[g] + 1]);
      match ps[g][th.pc[g]]
      case Call =>
      case Lock => next := next.(lock := Some(g));
      case Load(c) => next := next.(reg := th.reg[g := Read(c)]);
      case Store(c, d) => Write(c, th.reg[g] + d);
      case Unlock => next := next.(lock := None);
      case Send => next := next.(channel := th.channel + [g]);
      case Done => next := next.(waiting := th.waiting - 1);
    }

    /** Runs goroutines in an arbitrary order on the cells until the wait group is empty, then takes
        what the non-blocking receive finds. */
    method RunGoroutines(ps: seq<FanOut.Program>) returns (failed: bool)
      requires Valid() && Full() && FanOut.AllDisciplined(ps) && FanOut.CellsIn(ps, Memory())
      modifies scheduler, server, worker
      ensures Memory() == map c | c in old(Memory()) :: old(Memory())[c] + FanOut.Whole(FanOut.Applied(c), ps)
      ensures forall rt :: Cell(rt).succeeded == old(Cell(rt).succeeded) && Cell(rt).failed == old(Cell(rt).failed)
      ensures failed <==> FanOut.Whole(FanOut.Sent, ps) > 0
    {
      hide FanOut.AllDisciplined, FanOut.CellsIn, FanOut.Whole, FanOut.Inv, FanOut.Step, FanOut.Sum, Memory;
      ghost var mem := Memory();
      var th := FanOut.Fresh(|ps|);
      FanOut.InvAtStart(ps, mem);
      while th.waiting != 0
        invariant FanOut.Inv(ps, mem, FanOut.Machine(th, Memory()))
        invariant FanOut.Shaped(ps, FanOut.Machine(th, Memory()))
        invariant forall rt ::
          Cell(rt).succeeded == old(Cell(rt).succeeded) && Cell(rt).failed == old(Cell(rt).failed)
        decreases FanOut.Sum(FanOut.Remaining, ps, th.pc)
      {
        ghost var s := FanOut.Machine(th, Memory());
        ghost var w := FanOut.SomeoneRuns(ps, mem, s);
        FanOut.ReadyIsEnabled(ps, th, Memory(), w);
        assert 0 <= w < |ps| && FanOut.Ready(ps, th, w);
        var g: nat :| 0 <= g < |ps| && FanOut.Ready(ps, th, g);
        FanOut.ReadyIsEnabled(ps, th, Memory(), g);
        FanOut.InvStep(ps, mem, s, g);
        FanOut.RemainingPositive(ps, mem, s);
        th := Advance(ps, th, g);
      }
      FanOut.AtEnd(ps, mem, FanOut.Machine(th, Memory()));
      failed := |th.channel| > 0;
    }

    /** The delete fan-out: under every interleaving each pod moves from its type's active counter to its
        gone counter, and an error comes back iff some call failed. */
    method DeletePods(pods: seq<Pod>, delete: nat -> P.DeleteReply) returns (failed: bool)
      requires Valid() && Full()
      modifies scheduler, server, worker
      ensures forall rt :: Cell(rt).Value() == Pass.Shift(old(Cell(rt).Value()), P.Len(pods, rt))
      ensures failed <==> P.Undeleted(delete, |pods|) > 0
    {
      hide P.Len, P.Undeleted, FanOut.AllDisciplined, FanOut.CellsIn, FanOut.Whole, P.DeletePrograms;
      AllCounters();
      P.DeletesDisciplined(pods, delete, Memory());
      ghost var mem := Memory();
      failed := RunGoroutines(P.DeletePrograms(pods, delete));
      forall rt ensures Cell(rt).Value() == Pass.Shift(old(Cell(rt).Value()), P.Len(pods, rt)) {
        P.DeletesAddUp(pods, delete, rt);
        assert Memory()[FanOut.GoneOf(rt)] == mem[FanOut.GoneOf(rt)] + P.Len(pods, rt);
        assert Memory()[FanOut.ActiveOf(rt)] == mem[FanOut.ActiveOf(rt)] - P.Len(pods, rt);
      }
      P.DeletesAddUp(pods, delete, Worker);
    }

    /** terminateMXJob: deletes the active listed pods concurrently and moves each from its type's
        active counter to its gone counter, in the replica cells themselves. */
    method Terminate(pods: seq<Pod>, delete: nat -> P.DeleteReply) returns (failed: bool)
      requires Valid() && Full()
      modifies scheduler, server, worker
      ensures Valid() && Value() == Pass.Terminated(old(Value()), pods)
      ensures failed <==> P.Undeleted(delete, |P.ActivePods(pods)|) > 0
    {
      hide P.Len, P.Num, P.ActivePods, P.Undeleted;
      var activePods := FilterActive(pods);
      P.ActiveOfType(pods, Scheduler);
      P.ActiveOfType(pods, Server);
      P.ActiveOfType(pods, Worker);
      if |activePods| == 0 {
        NothingToDelete(activePods, delete);
        return false;
      }
      failed := DeletePods(activePods, delete);
      assert scheduler == Cell(Scheduler) && server == Cell(Server) && worker == Cell(Worker);
    }
  }

  lemma AllCounters()
    ensures forall rt :: FanOut.GoneOf(rt) in COUNTERS && FanOut.ActiveOf(rt) in COUNTERS
  {
    forall rt ensures FanOut.GoneOf(rt) in COUNTERS && FanOut.ActiveOf(rt) in COUNTERS {
      assert rt == Scheduler || rt == Server || rt == Worker;
    }
  }

  lemma NothingToDelete(pods: seq<Pod>, delete: nat -> P.DeleteReply)
    requires pods == []
    ensures P.Undeleted(delete, |pods|) == 0 && forall rt :: P.Len(pods, rt) == 0
  {
  }

  /** The counting half of reconcilePods, with the create fan-out. */
  method CountPods(job: Job, pods: seq<Pod>, rt: ReplicaType, initialized: bool, create: nat -> P.CreateReply)
    returns (ok: bool, c: Counts, born: seq<Pod>, calls: nat)
    ensures calls == Pass.Calls(job, initialized, pods, rt) && born == P.Born(job, rt, create, calls)
    ensures ok <==> P.Refused(create, calls) == 0
    ensures ok ==> c == Pass.Observe(job, initialized, pods, rt)
  {
    hide RoleOf, OfType, P.In, P.Born;
    var mine := FilterPodsForReplicaType(pods, rt);
    var diff := job.Replicas(rt) - |mine|;
    var activePods := FilterActive(mine);
    P.ActiveLength(mine);
    var active, gone := |activePods|, 0;
    born, calls, c := [], 0, ZERO;
    if diff > 0 {
      if initialized {
        gone := diff;
      } else {
        calls := diff;
        var failed;
        active, failed := P.CreatePods(create, calls, active + diff);
        if failed {
          return false, c, P.Born(job, rt, create, calls), calls;
        }
      }
    }
    born := P.Born(job, rt, create, calls);
    var succeeded := CountPhase(mine, PodSucceeded);
    var failures := CountPhase(mine, PodFailed);
    return true, Counts(active, succeeded, failures, gone), born, calls;
  }

  /** Copies a list of conditions into a new array, one by one. */
  method ToArray(cs: seq<Condition>) returns (a: array<Condition>)
    ensures fresh(a) && a[..] == cs
  {
    a := new Condition[|cs|](_ => C.NewCondition(JobCreated, ReasonCreated, 0));
    for i := 0 to |cs|
      invariant a[..i] == cs[..i]
    {
      a[i] := cs[i];
    }
    assert a[..|cs|] == a[..] && cs[..|cs|] == cs;
  }

  method FilterActive(pods: seq<Pod>) returns (result: seq<Pod>)
    ensures result == P.ActivePods(pods)
    ensures forall p :: p in result <==> p in pods && p.phase != PodSucceeded && p.phase != PodFailed && !p.deleting
  {
    result := [];
    for i := 0 to |pods|
      invariant result == P.ActivePods(pods[..i])
    {
      assert pods[..i + 1][..i] == pods[..i];
      var p := pods[i];
      if p.phase != PodSucceeded && p.phase != PodFailed && !p.deleting {
        result := result + [p];
      }
    }
    assert pods[..|pods|] == pods;
    forall p ensures p in result <==> p in pods && p.phase != PodSucceeded && p.phase != PodFailed && !p.deleting {
      P.ActiveExactly(pods, p);
      assert multiset(result)[p] > 0 <==> p in result;
      assert multiset(pods)[p] > 0 <==> p in pods;
    }
  }

  /** filterPods: how many pods are in a phase. */
  method CountPhase(pods: seq<Pod>, phase: Phase) returns (n: nat)
    ensures phase == PodSucceeded ==> n == P.In(pods, P.Succeeded)
    ensures phase == PodFailed ==> n == P.In(pods, P.Failed)
  {
    n := 0;
    for i := 0 to |pods|
      invariant phase == PodSucceeded ==> n == P.In(pods[..i], P.Succeeded)
      invariant phase == PodFailed ==> n == P.In(pods[..i], P.Failed)
    {
      assert pods[..i + 1][..i] == pods[..i];
      if phase == pods[i].phase {
        n := n + 1;
      }
    }
    assert pods[..|pods|] == pods;
  }
}
