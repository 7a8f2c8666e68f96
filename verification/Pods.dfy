/** Counting a listing of pods, what API calls do to the cluster's pods, and the two fan-outs that
    issue those calls. */
module Pods {
  import opened Types
  import opened Labels
  import opened FanOut

  /** Every pod is in one bucket; `Leaving` is an unfinished pod already marked for deletion. */
  datatype Bucket = Active | Succeeded | Failed | Leaving

  function BucketOf(p: Pod): Bucket {
    if p.phase == PodSucceeded then Succeeded
    else if p.phase == PodFailed then Failed
    else if p.deleting then Leaving
    else Active
  }

  function In(pods: seq<Pod>, b: Bucket): nat {
    if pods == [] then 0
    else In(pods[..|pods| - 1], b) + if BucketOf(pods[|pods| - 1]) == b then 1 else 0
  }

  /** The pods of type rt in bucket b, and the pods of type rt. */
  function Num(pods: seq<Pod>, rt: ReplicaType, b: Bucket): nat {
    In(OfType(pods, rt), b)
  }

  function Len(pods: seq<Pod>, rt: ReplicaType): nat {
    |OfType(pods, rt)|
  }

  function ActivePods(pods: seq<Pod>): seq<Pod> {
    if pods == [] then []
    else
      var front, last := pods[..|pods| - 1], pods[|pods| - 1];
      if BucketOf(last) == Active then ActivePods(front) + [last] else ActivePods(front)
  }

  lemma {:induction false} BucketsPartition(pods: seq<Pod>)
    ensures |pods| == In(pods, Active) + In(pods, Succeeded) + In(pods, Failed) + In(pods, Leaving)
  {
    if pods != [] {
      BucketsPartition(pods[..|pods| - 1]);
    }
  }

  lemma {:induction false} InConcat(a: seq<Pod>, b: seq<Pod>, k: Bucket)
    ensures In(a + b, k) == In(a, k) + In(b, k)
  {
    if b == [] {
      assert a + b == a;
    } else {
      assert (a + b)[..|a + b| - 1] == a + b[..|b| - 1];
      InConcat(a, b[..|b| - 1], k);
    }
  }

  lemma {:induction false} OfTypeConcat(a: seq<Pod>, b: seq<Pod>, rt: ReplicaType)
    ensures OfType(a + b, rt) == OfType(a, rt) + OfType(b, rt)
  {
    hide RoleOf;
    if b == [] {
      assert a + b == a;
    } else {
      assert (a + b)[..|a + b| - 1] == a + b[..|b| - 1];
      OfTypeConcat(a, b[..|b| - 1], rt);
    }
  }

  lemma NumConcat(a: seq<Pod>, b: seq<Pod>, rt: ReplicaType)
    ensures Len(a + b, rt) == Len(a, rt) + Len(b, rt)
    ensures forall k :: Num(a + b, rt, k) == Num(a, rt, k) + Num(b, rt, k)
  {
    hide OfType, In;
    OfTypeConcat(a, b, rt);
    forall k ensures Num(a + b, rt, k) == Num(a, rt, k) + Num(b, rt, k) {
      InConcat(OfType(a, rt), OfType(b, rt), k);
    }
  }

  lemma NoPods(rt: ReplicaType)
    ensures Len([], rt) == 0 && forall b :: Num([], rt, b) == 0
  {
  }

  lemma SinglePod(p: Pod, rt: ReplicaType)
    ensures Len([p], rt) == if Role(p) == Some(rt) then 1 else 0
    ensures forall b :: Num([p], rt, b) == if Role(p) == Some(rt) && BucketOf(p) == b then 1 else 0
  {
    hide RoleOf, BucketOf;
    assert [p][..0] == [];
    assert OfType([p], rt) == if Role(p) == Some(rt) then [p] else [];
    assert forall b :: In([p], b) == if BucketOf(p) == b then 1 else 0;
  }

  /** Replacing a pod by one with the same labels, and removing one. */
  lemma PodReplaced(pods: seq<Pod>, i: nat, p: Pod, rt: ReplicaType)
    requires i < |pods| && p.labels == pods[i].labels
    ensures Len(pods[i := p], rt) == Len(pods, rt)
    ensures forall b :: Num(pods[i := p], rt, b) == Num(pods, rt, b) - Num([pods[i]], rt, b) + Num([p], rt, b)
  {
    hide Len, Num, RoleOf, BucketOf;
    var a, b := pods[..i], pods[i + 1..];
    assert pods == a + [pods[i]] + b && pods[i := p] == a + [p] + b;
    NumConcat(a, [pods[i]], rt);
    NumConcat(a + [pods[i]], b, rt);
    NumConcat(a, [p], rt);
    NumConcat(a + [p], b, rt);
    SinglePod(pods[i], rt);
    SinglePod(p, rt);
  }

  lemma PodRemoved(pods: seq<Pod>, i: nat, rt: ReplicaType)
    requires i < |pods|
    ensures Len(pods[..i] + pods[i + 1..], rt) == Len(pods, rt) - Len([pods[i]], rt)
    ensures forall b :: Num(pods[..i] + pods[i + 1..], rt, b) == Num(pods, rt, b) - Num([pods[i]], rt, b)
  {
    hide Len, Num;
    var a, b := pods[..i], pods[i + 1..];
    assert pods == a + [pods[i]] + b;
    NumConcat(a, [pods[i]], rt);
    NumConcat(a + [pods[i]], b, rt);
    NumConcat(a, b, rt);
  }

  predicate Finished(p: Pod) {
    p.phase == PodSucceeded || p.phase == PodFailed
  }

  lemma FinishedNum(p: Pod, rt: ReplicaType)
    ensures Num([p], rt, Succeeded) == (if Role(p) == Some(rt) && p.phase == PodSucceeded then 1 else 0)
    ensures Num([p], rt, Failed) == (if Role(p) == Some(rt) && p.phase == PodFailed then 1 else 0)
    ensures Len([p], rt) == (if Role(p) == Some(rt) then 1 else 0)
  {
    hide RoleOf, Num, Len;
    SinglePod(p, rt);
  }

  lemma {:induction false} ActiveLength(pods: seq<Pod>)
    ensures |ActivePods(pods)| == In(pods, Active)
  {
    hide BucketOf;
    if pods != [] {
      ActiveLength(pods[..|pods| - 1]);
    }
  }

  lemma {:induction false} ActiveOfType(pods: seq<Pod>, rt: ReplicaType)
    ensures Len(ActivePods(pods), rt) == Num(pods, rt, Active)
  {
    hide Len, Num, RoleOf, BucketOf;
    if pods == [] {
      NoPods(rt);
    } else {
      var front, last := pods[..|pods| - 1], pods[|pods| - 1];
      assert pods == front + [last];
      ActiveOfType(front, rt);
      NumConcat(front, [last], rt);
      NumConcat(ActivePods(front), [last], rt);
      SinglePod(last, rt);
    }
  }

  /** FilterActivePods keeps exactly the pods, as often as they are listed, that are neither finished
      nor being deleted, whatever else their phase says. */
  lemma {:induction false} ActiveExactly(pods: seq<Pod>, p: Pod)
    ensures multiset(ActivePods(pods))[p] ==
            if p.phase != PodSucceeded && p.phase != PodFailed && !p.deleting then multiset(pods)[p] else 0
  {
    if pods != [] {
      var front, last := pods[..|pods| - 1], pods[|pods| - 1];
      assert pods == front + [last];
      ActiveExactly(front, p);
    }
  }

  /** Every pod counts for its own type, in the bucket its phase and its deletion mark put it in. */
  lemma PodCounts(p: Pod, rt: ReplicaType)
    ensures var mine := if Role(p) == Some(rt) then 1 else 0;
            var finished := p.phase == PodSucceeded || p.phase == PodFailed;
            && Len([p], rt) == mine
            && Num([p], rt, Succeeded) == (if p.phase == PodSucceeded then mine else 0)
            && Num([p], rt, Failed) == (if p.phase == PodFailed then mine else 0)
            && Num([p], rt, Active) == (if !finished && !p.deleting then mine else 0)
            && Num([p], rt, Leaving) == (if !finished && p.deleting then mine else 0)
  {
    hide RoleOf, Num, Len;
    SinglePod(p, rt);
  }

  // Replies of the API server.

  /** A create may be accepted, time out, or be answered with an error; the pod may exist after a
      timeout or an error, or not. */
  datatype CreateReply = Created | TimedOut(appears: bool) | CreateError(appears: bool)

  datatype Fate = Stays | Leaves | Vanishes

  /** A deleted pod is marked or gone at once; after an error it may be in any of the three states. */
  datatype DeleteReply = Deleted(vanished: bool) | DeleteError(fate: Fate)

  predicate Appears(r: CreateReply) {
    r.Created? || r.appears
  }

  /** The first n calls that createNewPod reports as failed; it swallows timeouts. */
  function Refused(create: nat -> CreateReply, n: nat): nat {
    if n == 0 then 0 else Refused(create, n - 1) + if create(n - 1).CreateError? then 1 else 0
  }

  function Undeleted(delete: nat -> DeleteReply, n: nat): nat {
    if n == 0 then 0 else Undeleted(delete, n - 1) + if delete(n - 1).DeleteError? then 1 else 0
  }

  /** The pods that exist because of n create calls. */
  function Born(job: Job, rt: ReplicaType, create: nat -> CreateReply, n: nat): seq<Pod> {
    if n == 0 then []
    else if Appears(create(n - 1)) then Born(job, rt, create, n - 1) + [NewPod(job, rt)]
    else Born(job, rt, create, n - 1)
  }

  function After(p: Pod, r: DeleteReply): seq<Pod> {
    match r
    case Deleted(vanished) => if vanished then [] else [p.(deleting := true)]
    case DeleteError(Stays) => [p]
    case DeleteError(Leaves) => [p.(deleting := true)]
    case DeleteError(Vanishes) => []
  }

  /** The pods left after deleting the active ones; reply k answers the k-th active pod. */
  function Survivors(pods: seq<Pod>, delete: nat -> DeleteReply): seq<Pod> {
    if pods == [] then []
    else
      var front, last := pods[..|pods| - 1], pods[|pods| - 1];
      Survivors(front, delete) +
      (if BucketOf(last) == Active then After(last, delete(|ActivePods(front)|)) else [last])
  }

  lemma {:induction false} BornNum(job: Job, rt: ReplicaType, create: nat -> CreateReply, n: nat, other: ReplicaType)
    ensures var born := Born(job, rt, create, n);
            && |born| <= n
            && ((forall i :: 0 <= i < n ==> Appears(create(i))) <==> |born| == n)
            && Len(born, other) == (if other == rt then |born| else 0)
            && Num(born, other, Active) == (if other == rt then |born| else 0)
  {
    hide OfType, In, NewPod;
    if n == 0 {
      NoPods(other);
    } else {
      BornNum(job, rt, create, n - 1, other);
      if Appears(create(n - 1)) {
        NumConcat(Born(job, rt, create, n - 1), [NewPod(job, rt)], other);
        NewPodCounts(job, rt, other);
      }
    }
  }

  lemma NewPodCounts(job: Job, rt: ReplicaType, other: ReplicaType)
    ensures Len([NewPod(job, rt)], other) == if other == rt then 1 else 0
    ensures Num([NewPod(job, rt)], other, Active) == if other == rt then 1 else 0
  {
    hide OfType, In, RoleOf;
    LabelRoundTrip(job, rt, other);
    SinglePod(NewPod(job, rt), other);
  }

  lemma BornOnlyActive(job: Job, rt: ReplicaType, create: nat -> CreateReply, n: nat, other: ReplicaType)
    ensures forall b :: b != Active ==> Num(Born(job, rt, create, n), other, b) == 0
  {
    hide OfType, In, Born;
    BornNum(job, rt, create, n, other);
    BucketsPartition(OfType(Born(job, rt, create, n), other));
  }

  lemma AfterNum(p: Pod, r: DeleteReply, rt: ReplicaType)
    requires BucketOf(p) == Active
    ensures Num(After(p, r), rt, Succeeded) == 0 && Num(After(p, r), rt, Failed) == 0
    ensures Len(After(p, r), rt) <= Len([p], rt)
    ensures r.Deleted? ==> Num(After(p, r), rt, Active) == 0
  {
    hide Len, Num, RoleOf;
    var q := p.(deleting := true);
    assert q.labels == p.labels && BucketOf(q) == Leaving;
    NoPods(rt);
    SinglePod(p, rt);
    SinglePod(q, rt);
  }

  /** Deleting the active pods, however the calls fare, leaves every finished pod in place. */
  lemma {:induction false} SurvivorsNum(pods: seq<Pod>, delete: nat -> DeleteReply, rt: ReplicaType)
    ensures var left := Survivors(pods, delete);
            && Num(left, rt, Succeeded) == Num(pods, rt, Succeeded)
            && Num(left, rt, Failed) == Num(pods, rt, Failed)
            && Len(left, rt) <= Len(pods, rt)
            && (Undeleted(delete, |ActivePods(pods)|) == 0 ==> Num(left, rt, Active) == 0)
  {
    hide Len, Num, RoleOf;
    if pods == [] {
      NoPods(rt);
    } else {
      var front, last := pods[..|pods| - 1], pods[|pods| - 1];
      assert pods == front + [last];
      SurvivorsNum(front, delete, rt);
      NumConcat(front, [last], rt);
      SinglePod(last, rt);
      if BucketOf(last) == Active {
        var r := delete(|ActivePods(front)|);
        NumConcat(Survivors(front, delete), After(last, r), rt);
        AfterNum(last, r, rt);
      } else {
        NumConcat(Survivors(front, delete), [last], rt);
      }
    }
  }

  /** If every delete is accepted, whatever is left is finished or on its way out. */
  lemma {:induction false} SurvivorsSettled(pods: seq<Pod>, delete: nat -> DeleteReply)
    requires forall k :: 0 <= k < |ActivePods(pods)| ==> delete(k).Deleted?
    ensures forall p :: p in Survivors(pods, delete) ==>
      p.phase == PodSucceeded || p.phase == PodFailed || p.deleting
  {
    if pods != [] {
      SurvivorsSettled(pods[..|pods| - 1], delete);
    }
  }

  /** However the deletes fare, a finished or leaving pod is still there, and nothing that is left was
      not there, but for its deletion mark. */
  lemma {:induction false} SurvivorsKept(pods: seq<Pod>, delete: nat -> DeleteReply, p: Pod)
    ensures p in pods && (p.phase == PodSucceeded || p.phase == PodFailed || p.deleting) ==> p in Survivors(pods, delete)
    ensures p in Survivors(pods, delete) ==> p in pods || (p.deleting && p.(deleting := false) in pods)
  {
    if pods != [] {
      var front, last := pods[..|pods| - 1], pods[|pods| - 1];
      assert pods == front + [last];
      SurvivorsKept(front, delete, p);
    }
  }

  // The goroutines of the two fan-outs.

  function CreateProgram(r: CreateReply): Program {
    if r.CreateError? then [Call, Lock, Load(Tally), Store(Tally, -1), Unlock, Send, Done]
    else [Call, Done]
  }

  /** The counters are updated even when the delete call failed. */
  function DeleteProgram(role: Option<ReplicaType>, r: DeleteReply): Program {
    match (role, r.DeleteError?)
    case (None, false) => [Call, Lock, Unlock, Done]
    case (None, true) => [Call, Send, Lock, Unlock, Done]
    case (Some(rt), false) =>
      [Call, Lock, Load(GoneOf(rt)), Store(GoneOf(rt), 1), Load(ActiveOf(rt)), Store(ActiveOf(rt), -1), Unlock, Done]
    case (Some(rt), true) =>
      [Call, Send, Lock, Load(GoneOf(rt)), Store(GoneOf(rt), 1), Load(ActiveOf(rt)), Store(ActiveOf(rt), -1), Unlock, Done]
  }

  /** Unfolds the recursive readings of a short program. */
  lemma Unfold(p: Program, c: Cell)
    requires 0 < |p| <= 9
    ensures forall k :: 0 < k <= |p| ==>
      && (Holding(p, k) <==> p[k - 1].Lock? || (!p[k - 1].Unlock? && Holding(p, k - 1)))
      && Reading(Sent, p, k) == Reading(Sent, p, k - 1) + (if p[k - 1].Send? then 1 else 0)
      && Reading(Applied(c), p, k) ==
         Reading(Applied(c), p, k - 1) + (if p[k - 1].Store? && p[k - 1].cell == c then p[k - 1].delta else 0)
  {
  }

  lemma CreateProgramDisciplined(r: CreateReply)
    ensures Disciplined(CreateProgram(r))
    ensures Reading(Sent, CreateProgram(r), |CreateProgram(r)|) == if r.CreateError? then 1 else 0
    ensures Reading(Applied(Tally), CreateProgram(r), |CreateProgram(r)|) == if r.CreateError? then -1 else 0
  {
    var p := CreateProgram(r);
    Unfold(p, Tally);
    assert !Holding(p, 0) && !Holding(p, 1);
    if r.CreateError? {
      assert Holding(p, 2) && Holding(p, 3) && Holding(p, 4) && !Holding(p, 5) && !Holding(p, 6);
      assert Reading(Sent, p, 3) == 0;
      assert Reading(Applied(Tally), p, 3) == 0;
    }
  }

  lemma DeleteProgramSends(role: Option<ReplicaType>, r: DeleteReply)
    ensures Reading(Sent, DeleteProgram(role, r), |DeleteProgram(role, r)|) == if r.DeleteError? then 1 else 0
  {
    hide Holding;
    var d := DeleteProgram(role, r);
    var k := if r.DeleteError? then 3 else 2;
    Unfold(d, Tally);
    assert Reading(Sent, d, 0) == 0;
    assert Reading(Sent, d, k) == if r.DeleteError? then 1 else 0;
    if role.Some? {
      assert Reading(Sent, d, k + 3) == Reading(Sent, d, k);
    }
  }

  lemma DeleteProgramDisciplined(role: Option<ReplicaType>, r: DeleteReply)
    ensures Disciplined(DeleteProgram(role, r))
  {
    hide Reading;
    var d := DeleteProgram(role, r);
    var k := if r.DeleteError? then 3 else 2;
    DeleteProgramSends(role, r);
    Unfold(d, Tally);
    assert !Holding(d, 0) && !Holding(d, 1) && !Holding(d, k - 1) && Holding(d, k);
    if role.Some? {
      assert Holding(d, k + 1) && Holding(d, k + 2) && Holding(d, k + 3) && Holding(d, k + 4) && !Holding(d, k + 5);
    }
  }

  lemma DeleteProgramApplied(role: Option<ReplicaType>, r: DeleteReply, c: Cell)
    ensures var d := DeleteProgram(role, r);
            Reading(Applied(c), d, |d|) ==
            if role.Some? && c == GoneOf(role.value) then 1
            else if role.Some? && c == ActiveOf(role.value) then -1
            else 0
  {
    hide Disciplined, Holding;
    var d := DeleteProgram(role, r);
    var k := if r.DeleteError? then 3 else 2;
    Unfold(d, c);
    assert Reading(Applied(c), d, k) == 0;
    if role.Some? {
      assert Reading(Applied(c), d, k + 2) == if c == GoneOf(role.value) then 1 else 0;
      assert Reading(Applied(c), d, k + 4) ==
        if c == GoneOf(role.value) then 1 else if c == ActiveOf(role.value) then -1 else 0;
    }
  }

  /** Whole readings of a list of programs, one goroutine at a time. */
  lemma {:induction false} WholeAt(q: Gauge, ps: seq<Program>, value: nat -> int, n: nat)
    requires n <= |ps|
    requires forall g :: 0 <= g < |ps| ==> Reading(q, ps[g], |ps[g]|) == value(g)
    ensures SumTo(q, ps, seq(|ps|, g requires 0 <= g < |ps| => |ps[g]|), n) == Total(value, n)
  {
    if n > 0 {
      WholeAt(q, ps, value, n - 1);
    }
  }

  function Total(value: nat -> int, n: nat): int {
    if n == 0 then 0 else Total(value, n - 1) + value(n - 1)
  }

  lemma {:induction false} TotalRefused(create: nat -> CreateReply, value: nat -> int, sign: int, n: nat)
    requires forall i: nat :: value(i) == if create(i).CreateError? then sign else 0
    ensures Total(value, n) == sign * Refused(create, n)
  {
    if n > 0 {
      TotalRefused(create, value, sign, n - 1);
    }
  }

  lemma {:induction false} TotalUndeleted(delete: nat -> DeleteReply, value: nat -> int, n: nat)
    requires forall i: nat :: value(i) == if delete(i).DeleteError? then 1 else 0
    ensures Total(value, n) == Undeleted(delete, n)
  {
    if n > 0 {
      TotalUndeleted(delete, value, n - 1);
    }
  }

  lemma {:induction false} TotalOfType(pods: seq<Pod>, up: nat -> int, down: nat -> int, rt: ReplicaType, n: nat)
    requires n <= |pods|
    requires forall i: nat :: i < |pods| ==> up(i) == (if Role(pods[i]) == Some(rt) then 1 else 0) && down(i) == -up(i)
    ensures Total(up, n) == Len(pods[..n], rt) && Total(down, n) == 0 - Len(pods[..n], rt)
  {
    hide Len, RoleOf;
    if n == 0 {
      NoPods(rt);
    } else {
      TotalOfType(pods, up, down, rt, n - 1);
      assert pods[..n] == pods[..n - 1] + [pods[n - 1]];
      NumConcat(pods[..n - 1], [pods[n - 1]], rt);
      SinglePod(pods[n - 1], rt);
    }
  }

  /** Creates n pods concurrently: under every interleaving `active` loses exactly one per failed
      call and an error comes back iff some call failed. */
  method CreatePods(create: nat -> CreateReply, n: nat, active: int) returns (left: int, failed: bool)
    ensures left == active - Refused(create, n)
    ensures failed <==> Refused(create, n) > 0
  {
    var ps := seq(n, i requires 0 <= i < n => CreateProgram(create(i)));
    forall g | 0 <= g < |ps| ensures Disciplined(ps[g]) && ps[g] == CreateProgram(create(g)) {
      CreateProgramDisciplined(create(g));
    }
    assert CellsIn(ps, map[Tally := active]);
    ghost var deltas := (i: nat) => if create(i).CreateError? then -1 else 0;
    ghost var sends := (i: nat) => if create(i).CreateError? then 1 else 0;
    forall g | 0 <= g < |ps|
      ensures Reading(Applied(Tally), ps[g], |ps[g]|) == deltas(g) && Reading(Sent, ps[g], |ps[g]|) == sends(g)
    {
      CreateProgramDisciplined(create(g));
    }
    WholeAt(Applied(Tally), ps, deltas, n);
    TotalRefused(create, deltas, -1, n);
    WholeAt(Sent, ps, sends, n);
    TotalRefused(create, sends, 1, n);
    var mem;
    mem, failed := RunAll(ps, map[Tally := active]);
    left := mem[Tally];
  }

  predicate AllCells(mem: map<Cell, int>) {
    forall rt :: GoneOf(rt) in mem && ActiveOf(rt) in mem
  }

  lemma DeleteProgramCells(role: Option<ReplicaType>, r: DeleteReply, i: nat, mem: map<Cell, int>)
    requires AllCells(mem) && i < |DeleteProgram(role, r)|
    requires var op := DeleteProgram(role, r)[i]; op.Load? || op.Store?
    ensures DeleteProgram(role, r)[i].cell in mem
  {
    assert role.Some? && GoneOf(role.value) in mem && ActiveOf(role.value) in mem;
  }

  /** The goroutines that delete the given pods. */
  function DeletePrograms(pods: seq<Pod>, delete: nat -> DeleteReply): seq<Program> {
    seq(|pods|, i requires 0 <= i < |pods| => DeleteProgram(Role(pods[i]), delete(i)))
  }

  lemma DeletesDisciplined(pods: seq<Pod>, delete: nat -> DeleteReply, mem: map<Cell, int>)
    requires AllCells(mem)
    ensures AllDisciplined(DeletePrograms(pods, delete)) && CellsIn(DeletePrograms(pods, delete), mem)
  {
    hide DeleteProgram, Disciplined, AllCells, RoleOf;
    var ps := DeletePrograms(pods, delete);
    forall g | 0 <= g < |ps| ensures Disciplined(ps[g]) {
      DeleteProgramDisciplined(Role(pods[g]), delete(g));
    }
    forall g, i | 0 <= g < |ps| && 0 <= i < |ps[g]| && (ps[g][i].Load? || ps[g][i].Store?)
      ensures ps[g][i].cell in mem
    {
      DeleteProgramCells(Role(pods[g]), delete(g), i, mem);
    }
  }

  /** What the goroutines that delete the given active pods do together, in whatever order: each pod
      moves from its type's active counter to its gone counter, and one error is sent per failed
      call. */
  lemma DeletesAddUp(pods: seq<Pod>, delete: nat -> DeleteReply, rt: ReplicaType)
    ensures var ps := DeletePrograms(pods, delete);
            && Whole(Applied(GoneOf(rt)), ps) == Len(pods, rt)
            && Whole(Applied(ActiveOf(rt)), ps) == 0 - Len(pods, rt)
            && Whole(Sent, ps) == Undeleted(delete, |pods|)
  {
    hide DeleteProgram, Whole, OfType, RoleOf, Undeleted;
    var ps := DeletePrograms(pods, delete);
    DeleteSent(ps, pods, delete);
    DeleteApplied(ps, pods, delete, rt);
  }

  lemma DeleteSent(ps: seq<Program>, pods: seq<Pod>, delete: nat -> DeleteReply)
    requires |ps| == |pods| && forall i :: 0 <= i < |ps| ==> ps[i] == DeleteProgram(Role(pods[i]), delete(i))
    ensures Whole(Sent, ps) == Undeleted(delete, |pods|)
  {
    hide RoleOf, DeleteProgram;
    var sends := (i: nat) => if delete(i).DeleteError? then 1 else 0;
    forall g | 0 <= g < |ps| ensures Reading(Sent, ps[g], |ps[g]|) == sends(g) {
      DeleteProgramSends(Role(pods[g]), delete(g));
    }
    WholeAt(Sent, ps, sends, |ps|);
    TotalUndeleted(delete, sends, |ps|);
  }

  lemma DeleteApplied(ps: seq<Program>, pods: seq<Pod>, delete: nat -> DeleteReply, rt: ReplicaType)
    requires |ps| == |pods| && forall i :: 0 <= i < |ps| ==> ps[i] == DeleteProgram(Role(pods[i]), delete(i))
    ensures Whole(Applied(GoneOf(rt)), ps) == |OfType(pods, rt)|
    ensures Whole(Applied(ActiveOf(rt)), ps) == -|OfType(pods, rt)|
  {
    hide RoleOf, DeleteProgram, OfType;
    var up := (i: nat) => if i < |pods| && Role(pods[i]) == Some(rt) then 1 else 0;
    var down := (i: nat) => if i < |pods| && Role(pods[i]) == Some(rt) then -1 else 0;
    forall g | 0 <= g < |ps|
      ensures Reading(Applied(GoneOf(rt)), ps[g], |ps[g]|) == up(g)
      ensures Reading(Applied(ActiveOf(rt)), ps[g], |ps[g]|) == down(g)
    {
      DeleteProgramApplied(Role(pods[g]), delete(g), GoneOf(rt));
      DeleteProgramApplied(Role(pods[g]), delete(g), ActiveOf(rt));
    }
    WholeAt(Applied(GoneOf(rt)), ps, up, |ps|);
    TotalOfType(pods, up, down, rt, |pods|);
    WholeAt(Applied(ActiveOf(rt)), ps, down, |ps|);
    assert pods[..|pods|] == pods;
  }
}
