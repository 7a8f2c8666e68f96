/**
 The two goroutine fan-outs of the reconciler (creating missing pods, deleting active pods)
 as one interleaved machine: goroutines that share a mutex, a buffered error channel, a wait
 group and counters. A counter update such as `active--` is a load and a store, so another
 goroutine may run in between. Which branch a goroutine takes is fixed by the API server's
 reply to its call, so each goroutine is a straight-line program.
 */
module FanOut {
  import opened Types

  /** A counter: the local `active` of reconcilePods, or a field of a replica status. */
  datatype Cell = Tally | ActiveOf(rt: ReplicaType) | GoneOf(rt: ReplicaType)

  datatype Instr =
    | Call
    | Lock
    | Load(cell: Cell)
    | Store(cell: Cell, delta: int)
    | Unlock
    | Send
    | Done

  type Program = seq<Instr>

  datatype State = State(
    pc: seq<nat>, reg: seq<int>, mem: map<Cell, int>, lock: Option<nat>, channel: seq<nat>, waiting: int)

  /** Whether the mutex is held after the first k instructions of p. */
  predicate Holding(p: Program, k: nat)
    requires k <= |p|
  {
    k > 0 && (p[k - 1].Lock? || (!p[k - 1].Unlock? && Holding(p, k - 1)))
  }

  /** What is measured over all goroutines of a machine. */
  datatype Gauge = Applied(cell: Cell) | Sent | Unfinished | Remaining

  function Reading(q: Gauge, p: Program, k: nat): int
    requires k <= |p|
  {
    match q
    case Applied(c) =>
      if k == 0 then 0
      else Reading(q, p, k - 1) + if p[k - 1].Store? && p[k - 1].cell == c then p[k - 1].delta else 0
    case Sent => if k == 0 then 0 else Reading(q, p, k - 1) + if p[k - 1].Send? then 1 else 0
    case Unfinished => if k < |p| then 1 else 0
    case Remaining => |p| - k
  }

  /** A goroutine that leaves its wait group last, touches counters only under the lock, does
      not hold the lock while it may block, and reports at most one error. */
  ghost predicate Disciplined(p: Program) {
    && |p| > 0 && p[|p| - 1].Done?
    && Reading(Sent, p, |p|) <= 1
    && (forall i :: 0 <= i < |p| ==> (p[i].Done? ==> i == |p| - 1))
    && (forall i :: 0 <= i < |p| ==> (Holding(p, i) <==> p[i].Unlock? || p[i].Load? || p[i].Store?))
    && (forall i :: 0 <= i < |p| && p[i].Store? ==> i > 0 && p[i - 1] == Load(p[i].cell))
  }

  ghost predicate AllDisciplined(ps: seq<Program>) {
    forall g :: 0 <= g < |ps| ==> Disciplined(ps[g])
  }

  ghost predicate CellsIn(ps: seq<Program>, mem: map<Cell, int>) {
    forall g, i :: 0 <= g < |ps| && 0 <= i < |ps[g]| && (ps[g][i].Load? || ps[g][i].Store?) ==>
      ps[g][i].cell in mem
  }

  predicate Shaped(ps: seq<Program>, s: State) {
    && |s.pc| == |ps| && |s.reg| == |ps|
    && (forall g :: 0 <= g < |ps| ==> s.pc[g] <= |ps[g]|)
    && (forall g :: 0 <= g < |ps| && s.pc[g] < |ps[g]| && (ps[g][s.pc[g]].Load? || ps[g][s.pc[g]].Store?) ==>
      ps[g][s.pc[g]].cell in s.mem)
  }

  function Start(ps: seq<Program>, mem: map<Cell, int>): State {
    State(seq(|ps|, _ => 0), seq(|ps|, _ => 0), mem, None, [], |ps|)
  }

  /** Goroutine g can run: only a taken mutex or a full channel (capacity |ps|) blocks it. */
  predicate Enabled(ps: seq<Program>, s: State, g: nat)
    requires Shaped(ps, s)
  {
    g < |ps| && s.pc[g] < |ps[g]| &&
    match ps[g][s.pc[g]]
    case Lock => s.lock.None?
    case Send => |s.channel| < |ps|
    case _ => true
  }

  function Step(ps: seq<Program>, s: State, g: nat): State
    requires Shaped(ps, s) && Enabled(ps, s, g)
  {
    var t := s.(pc := s.pc[g := s.pc[g] + 1]);
    match ps[g][s.pc[g]]
    case Call => t
    case Lock => t.(lock := Some(g))
    case Load(c) => t.(reg := s.reg[g := s.mem[c]])
    case Store(c, d) => t.(mem := s.mem[c := s.reg[g] + d])
    case Unlock => t.(lock := None)
    case Send => t.(channel := s.channel + [g])
    case Done => t.(waiting := s.waiting - 1)
  }

  /** Everything but the counters, for a machine whose counters live elsewhere. */
  datatype Threads = Threads(pc: seq<nat>, reg: seq<int>, lock: Option<nat>, channel: seq<nat>, waiting: int)

  ghost function Machine(th: Threads, mem: map<Cell, int>): State {
    State(th.pc, th.reg, mem, th.lock, th.channel, th.waiting)
  }

  function Fresh(n: nat): Threads {
    Threads(seq(n, _ => 0), seq(n, _ => 0), None, [], n)
  }

  /** Enabled, as far as it depends on the goroutines. */
  predicate Ready(ps: seq<Program>, th: Threads, g: nat) {
    |th.pc| == |ps| && g < |ps| && th.pc[g] < |ps[g]| &&
    match ps[g][th.pc[g]]
    case Lock => th.lock.None?
    case Send => |th.channel| < |ps|
    case _ => true
  }

  lemma ReadyIsEnabled(ps: seq<Program>, th: Threads, mem: map<Cell, int>, g: nat)
    requires Shaped(ps, Machine(th, mem))
    ensures Ready(ps, th, g) <==> Enabled(ps, Machine(th, mem), g)
  {
  }

  /** The gauge summed over the first n goroutines. */
  function SumTo(q: Gauge, ps: seq<Program>, pc: seq<nat>, n: nat): int
    requires n <= |ps| == |pc|
    requires forall g :: 0 <= g < |ps| ==> pc[g] <= |ps[g]|
  {
    if n == 0 then 0 else SumTo(q, ps, pc, n - 1) + Reading(q, ps[n - 1], pc[n - 1])
  }

  function Sum(q: Gauge, ps: seq<Program>, pc: seq<nat>): int
    requires |ps| == |pc|
    requires forall g :: 0 <= g < |ps| ==> pc[g] <= |ps[g]|
  {
    SumTo(q, ps, pc, |ps|)
  }

  /** The gauge when every goroutine has returned. */
  function Whole(q: Gauge, ps: seq<Program>): int {
    Sum(q, ps, seq(|ps|, g requires 0 <= g < |ps| => |ps[g]|))
  }

  lemma {:induction false} SumAdvance(q: Gauge, ps: seq<Program>, pc: seq<nat>, g: nat, n: nat)
    requires n <= |ps| == |pc| && g < |ps|
    requires forall h :: 0 <= h < |ps| ==> pc[h] <= |ps[h]|
    requires pc[g] < |ps[g]|
    ensures SumTo(q, ps, pc[g := pc[g] + 1], n) ==
            SumTo(q, ps, pc, n) +
            if g < n then Reading(q, ps[g], pc[g] + 1) - Reading(q, ps[g], pc[g]) else 0
  {
    if n > 0 {
      SumAdvance(q, ps, pc, g, n - 1);
    }
  }

  lemma {:induction false} ReadingMonotone(p: Program, j: nat, k: nat)
    requires j <= k <= |p|
    ensures 0 <= Reading(Sent, p, j) <= Reading(Sent, p, k)
    decreases k
  {
    if j < k {
      ReadingMonotone(p, j, k - 1);
    } else if k > 0 {
      ReadingMonotone(p, k - 1, k - 1);
    }
  }

  /** The channel is never full at a send: n goroutines send at most once each. */
  lemma {:induction false} SendsBounded(ps: seq<Program>, pc: seq<nat>, n: nat)
    requires n <= |ps| == |pc| && AllDisciplined(ps)
    requires forall h :: 0 <= h < |ps| ==> pc[h] <= |ps[h]|
    ensures SumTo(Sent, ps, pc, n) <= n
    ensures forall g :: 0 <= g < n && pc[g] < |ps[g]| && ps[g][pc[g]].Send? ==> SumTo(Sent, ps, pc, n) < n
  {
    hide Holding;
    if n > 0 {
      SendsBounded(ps, pc, n - 1);
      ReadingMonotone(ps[n - 1], pc[n - 1], |ps[n - 1]|);
      if pc[n - 1] < |ps[n - 1]| && ps[n - 1][pc[n - 1]].Send? {
        ReadingMonotone(ps[n - 1], pc[n - 1] + 1, |ps[n - 1]|);
      }
    }
  }

  lemma {:induction false} UnfinishedZero(ps: seq<Program>, pc: seq<nat>, n: nat)
    requires n <= |ps| == |pc|
    requires forall h :: 0 <= h < |ps| ==> pc[h] <= |ps[h]|
    ensures 0 <= SumTo(Unfinished, ps, pc, n) <= SumTo(Remaining, ps, pc, n)
    ensures SumTo(Unfinished, ps, pc, n) == 0 <==> forall g :: 0 <= g < n ==> pc[g] == |ps[g]|
  {
    if n > 0 {
      UnfinishedZero(ps, pc, n - 1);
    }
  }

  lemma {:induction false} SumAtStart(q: Gauge, ps: seq<Program>, n: nat)
    requires n <= |ps| && AllDisciplined(ps)
    ensures var pc := seq(|ps|, _ => 0);
            SumTo(q, ps, pc, n) == match q
                                   case Applied(_) => 0
                                   case Sent => 0
                                   case Unfinished => n
                                   case Remaining => SumTo(Remaining, ps, pc, n)
  {
    if n > 0 {
      SumAtStart(q, ps, n - 1);
    }
  }

  /** The mutex belongs to the one goroutine that is inside its critical section. */
  ghost predicate Owned(ps: seq<Program>, s: State)
    requires Shaped(ps, s)
  {
    && (s.lock.Some? ==> s.lock.value < |ps|)
    && forall g :: 0 <= g < |ps| ==> (Holding(ps[g], s.pc[g]) <==> s.lock == Some(g))
  }

  /** Goroutine g has loaded a counter it is about to store to. */
  ghost predicate Loaded(ps: seq<Program>, s: State, g: nat, c: Cell)
    requires Shaped(ps, s) && g < |ps|
  {
    0 < s.pc[g] && ps[g][s.pc[g] - 1] == Load(c)
  }

  /** A loaded register is current: nobody has written the counter since. */
  ghost predicate Current(ps: seq<Program>, s: State)
    requires Shaped(ps, s)
  {
    forall g, c :: 0 <= g < |ps| && c in s.mem && Loaded(ps, s, g, c) ==> s.reg[g] == s.mem[c]
  }

  /** Every counter is its initial value plus the updates completed so far, the channel holds the
      errors sent so far, and the wait group counts the goroutines still running. */
  ghost predicate Accounted(ps: seq<Program>, mem: map<Cell, int>, s: State)
    requires Shaped(ps, s)
  {
    && s.mem.Keys == mem.Keys
    && (forall c :: c in mem ==> s.mem[c] == mem[c] + Sum(Applied(c), ps, s.pc))
    && |s.channel| == Sum(Sent, ps, s.pc)
    && s.waiting == Sum(Unfinished, ps, s.pc)
  }

  /** What every interleaving keeps. */
  ghost predicate Inv(ps: seq<Program>, mem: map<Cell, int>, s: State) {
    AllDisciplined(ps) && CellsIn(ps, mem) && Shaped(ps, s) && Owned(ps, s) && Current(ps, s) && Accounted(ps, mem, s)
  }

  lemma InvAtStart(ps: seq<Program>, mem: map<Cell, int>)
    requires AllDisciplined(ps) && CellsIn(ps, mem)
    ensures Inv(ps, mem, Start(ps, mem))
  {
    var s := Start(ps, mem);
    SumAtStart(Sent, ps, |ps|);
    SumAtStart(Unfinished, ps, |ps|);
    forall c | c in mem ensures Sum(Applied(c), ps, s.pc) == 0 {
      SumAtStart(Applied(c), ps, |ps|);
    }
  }

  /** What discipline says about the next instruction. */
  lemma NextInstr(p: Program, k: nat)
    requires Disciplined(p) && k < |p|
    ensures Holding(p, k) <==> p[k].Unlock? || p[k].Load? || p[k].Store?
    ensures Holding(p, k + 1) <==> p[k].Lock? || p[k].Load? || p[k].Store?
    ensures p[k].Done? <==> k + 1 == |p|
    ensures p[k].Store? ==> k > 0 && p[k - 1] == Load(p[k].cell)
  {
  }

  lemma StepShaped(ps: seq<Program>, mem: map<Cell, int>, s: State, g: nat)
    requires CellsIn(ps, mem) && Shaped(ps, s) && s.mem.Keys == mem.Keys && Enabled(ps, s, g)
    ensures Shaped(ps, Step(ps, s, g))
    ensures Step(ps, s, g).mem.Keys == mem.Keys
    ensures Step(ps, s, g).pc == s.pc[g := s.pc[g] + 1]
  {
    var t := Step(ps, s, g);
    assert t.mem.Keys == mem.Keys;
    forall h | 0 <= h < |ps| && t.pc[h] < |ps[h]| && (ps[h][t.pc[h]].Load? || ps[h][t.pc[h]].Store?)
      ensures ps[h][t.pc[h]].cell in t.mem
    {
      assert ps[h][t.pc[h]].cell in mem;
    }
  }

  lemma StepOwned(ps: seq<Program>, s: State, g: nat)
    requires AllDisciplined(ps) && Shaped(ps, s) && Owned(ps, s) && Enabled(ps, s, g)
    requires Shaped(ps, Step(ps, s, g))
    ensures Owned(ps, Step(ps, s, g))
  {
    NextInstr(ps[g], s.pc[g]);
  }

  lemma StepCurrent(ps: seq<Program>, s: State, g: nat)
    requires AllDisciplined(ps) && Shaped(ps, s) && Owned(ps, s) && Current(ps, s) && Enabled(ps, s, g)
    requires Shaped(ps, Step(ps, s, g))
    ensures Current(ps, Step(ps, s, g))
  {
    hide Holding, Disciplined;
    var t := Step(ps, s, g);
    NextInstr(ps[g], s.pc[g]);
    forall h, c | 0 <= h < |ps| && c in t.mem && Loaded(ps, t, h, c) ensures t.reg[h] == t.mem[c] {
      if h != g {
        assert Loaded(ps, s, h, c);
        NextInstr(ps[h], s.pc[h] - 1);
        assert s.lock == Some(h);
      }
    }
  }

  lemma StepAccounted(ps: seq<Program>, mem: map<Cell, int>, s: State, g: nat)
    requires AllDisciplined(ps) && Shaped(ps, s) && Current(ps, s) && Accounted(ps, mem, s) && Enabled(ps, s, g)
    requires Shaped(ps, Step(ps, s, g)) && Step(ps, s, g).mem.Keys == mem.Keys
    ensures Accounted(ps, mem, Step(ps, s, g))
  {
    hide Sum, Current, AllDisciplined, Step;
    var t := Step(ps, s, g);
    StepCounted(ps, s, g);
    forall c | c in mem ensures t.mem[c] == mem[c] + Sum(Applied(c), ps, t.pc) {
      assert c in t.mem.Keys && c in s.mem.Keys;
      StepApplied(ps, mem, s, g, c);
    }
  }

  /** A send adds to the channel, and the last instruction leaves the wait group. */
  lemma StepCounted(ps: seq<Program>, s: State, g: nat)
    requires AllDisciplined(ps) && Shaped(ps, s) && Enabled(ps, s, g) && Shaped(ps, Step(ps, s, g))
    requires |s.channel| == Sum(Sent, ps, s.pc) && s.waiting == Sum(Unfinished, ps, s.pc)
    ensures var t := Step(ps, s, g);
            |t.channel| == Sum(Sent, ps, t.pc) && t.waiting == Sum(Unfinished, ps, t.pc)
  {
    hide Holding, Disciplined;
    NextInstr(ps[g], s.pc[g]);
    SumAdvance(Sent, ps, s.pc, g, |ps|);
    SumAdvance(Unfinished, ps, s.pc, g, |ps|);
  }

  /** A store adds its delta to the counter, because the register it adds to is current. */
  lemma StepApplied(ps: seq<Program>, mem: map<Cell, int>, s: State, g: nat, c: Cell)
    requires AllDisciplined(ps) && Shaped(ps, s) && Current(ps, s) && Enabled(ps, s, g)
    requires Shaped(ps, Step(ps, s, g)) && c in mem && c in s.mem && c in Step(ps, s, g).mem
    requires s.mem[c] == mem[c] + Sum(Applied(c), ps, s.pc)
    ensures Step(ps, s, g).mem[c] == mem[c] + Sum(Applied(c), ps, Step(ps, s, g).pc)
  {
    hide Holding, Disciplined;
    var p, k := ps[g], s.pc[g];
    NextInstr(p, k);
    SumAdvance(Applied(c), ps, s.pc, g, |ps|);
    if p[k].Store? && p[k].cell == c {
      assert Loaded(ps, s, g, c);
    }
  }

  /** One step of any goroutine keeps the invariant and uses up one instruction. */
  lemma InvStep(ps: seq<Program>, mem: map<Cell, int>, s: State, g: nat)
    requires Inv(ps, mem, s) && Enabled(ps, s, g)
    ensures Inv(ps, mem, Step(ps, s, g))
    ensures Sum(Remaining, ps, Step(ps, s, g).pc) == Sum(Remaining, ps, s.pc) - 1
  {
    StepShaped(ps, mem, s, g);
    StepOwned(ps, s, g);
    StepCurrent(ps, s, g);
    StepAccounted(ps, mem, s, g);
    SumAdvance(Remaining, ps, s.pc, g, |ps|);
  }

  /** Whatever is left to run is never negative. */
  lemma RemainingPositive(ps: seq<Program>, mem: map<Cell, int>, s: State)
    requires Inv(ps, mem, s)
    ensures Sum(Remaining, ps, s.pc) >= 0
  {
    UnfinishedZero(ps, s.pc, |ps|);
  }

  /** A goroutine that has returned does not hold the mutex. */
  lemma ReturnedUnlocked(p: Program)
    requires Disciplined(p)
    ensures !Holding(p, |p|)
  {
    NextInstr(p, |p| - 1);
  }

  /** No goroutine ever blocks on the error channel. */
  lemma SendNeverBlocks(ps: seq<Program>, mem: map<Cell, int>, s: State, g: nat)
    requires Inv(ps, mem, s) && g < |ps| && s.pc[g] < |ps[g]| && ps[g][s.pc[g]].Send?
    ensures Enabled(ps, s, g)
  {
    SendsBounded(ps, s.pc, |ps|);
  }

  /** Freedom from deadlock: while the main goroutine waits, some goroutine can run. */
  lemma SomeoneRuns(ps: seq<Program>, mem: map<Cell, int>, s: State) returns (g: nat)
    requires Inv(ps, mem, s) && s.waiting != 0
    ensures Enabled(ps, s, g)
  {
    UnfinishedZero(ps, s.pc, |ps|);
    if s.lock.Some? {
      g := s.lock.value;
      ReturnedUnlocked(ps[g]);
      NextInstr(ps[g], s.pc[g]);
    } else {
      g :| g < |ps| && s.pc[g] != |ps[g]|;
      if ps[g][s.pc[g]].Send? {
        SendNeverBlocks(ps, mem, s, g);
      }
    }
  }

  /** When the wait group is empty, every counter has received every update exactly once and the
      channel holds one entry per program that sends, whatever the order was. */
  lemma AtEnd(ps: seq<Program>, mem: map<Cell, int>, s: State)
    requires Inv(ps, mem, s) && s.waiting == 0
    ensures s.mem == map c | c in mem :: mem[c] + Whole(Applied(c), ps)
    ensures |s.channel| == Whole(Sent, ps)
    ensures s.lock.None?
    ensures Sum(Remaining, ps, s.pc) == 0
  {
    hide Holding, Disciplined, CellsIn, Current;
    UnfinishedZero(ps, s.pc, |ps|);
    assert s.pc == seq(|ps|, g requires 0 <= g < |ps| => |ps[g]|);
    RemainingAtEnd(ps, s.pc, |ps|);
    forall g | 0 <= g < |ps| ensures !Holding(ps[g], s.pc[g]) {
      ReturnedUnlocked(ps[g]);
    }
  }

  lemma {:induction false} RemainingAtEnd(ps: seq<Program>, pc: seq<nat>, n: nat)
    requires n <= |ps| == |pc|
    requires forall g :: 0 <= g < |ps| ==> pc[g] == |ps[g]|
    ensures SumTo(Remaining, ps, pc, n) == 0
  {
    if n > 0 {
      RemainingAtEnd(ps, pc, n - 1);
    }
  }

  /** A schedule names the goroutine that runs next, again and again. */
  ghost predicate Legal(ps: seq<Program>, s: State, schedule: seq<nat>)
    decreases |schedule|
  {
    schedule == [] ||
    (Shaped(ps, s) && Enabled(ps, s, schedule[0]) && Legal(ps, Step(ps, s, schedule[0]), schedule[1..]))
  }

  ghost function Exec(ps: seq<Program>, s: State, schedule: seq<nat>): State
    requires Legal(ps, s, schedule)
    decreases |schedule|
  {
    if schedule == [] then s else Exec(ps, Step(ps, s, schedule[0]), schedule[1..])
  }

  /** Every schedule keeps the invariant and cannot be longer than the instructions left. */
  lemma {:induction false} ScheduleKeepsInv(ps: seq<Program>, mem: map<Cell, int>, s: State, schedule: seq<nat>)
    requires Inv(ps, mem, s) && Legal(ps, s, schedule)
    ensures Inv(ps, mem, Exec(ps, s, schedule))
    ensures Sum(Remaining, ps, Exec(ps, s, schedule).pc) == Sum(Remaining, ps, s.pc) - |schedule|
    decreases |schedule|
  {
    if schedule != [] {
      InvStep(ps, mem, s, schedule[0]);
      ScheduleKeepsInv(ps, mem, Step(ps, s, schedule[0]), schedule[1..]);
    }
  }

  /** Every schedule that cannot be extended empties the wait group, takes exactly one step per
      instruction, and ends with the same counters and the same number of errors. */
  lemma EveryScheduleAgrees(ps: seq<Program>, mem: map<Cell, int>, schedule: seq<nat>)
    requires AllDisciplined(ps) && CellsIn(ps, mem)
    requires Legal(ps, Start(ps, mem), schedule)
    ensures var s := Exec(ps, Start(ps, mem), schedule);
            && Shaped(ps, s)
            && ((forall g :: !Enabled(ps, s, g)) <==> s.waiting == 0)
            && |schedule| <= Sum(Remaining, ps, Start(ps, mem).pc)
            && (s.waiting == 0 ==>
                  && |schedule| == Sum(Remaining, ps, Start(ps, mem).pc)
                  && s.mem == (map c | c in mem :: mem[c] + Whole(Applied(c), ps))
                  && |s.channel| == Whole(Sent, ps))
  {
    InvAtStart(ps, mem);
    ScheduleKeepsInv(ps, mem, Start(ps, mem), schedule);
    var s := Exec(ps, Start(ps, mem), schedule);
    UnfinishedZero(ps, s.pc, |ps|);
    if s.waiting == 0 {
      AtEnd(ps, mem, s);
    } else {
      var g := SomeoneRuns(ps, mem, s);
      assert Enabled(ps, s, g);
    }
  }

  /** Runs the goroutines in an arbitrary order until the wait group is empty, then takes what the
      non-blocking receive finds: an error iff some goroutine sent one. */
  method RunAll(ps: seq<Program>, mem: map<Cell, int>) returns (final: map<Cell, int>, failed: bool)
    requires AllDisciplined(ps) && CellsIn(ps, mem)
    ensures final == map c | c in mem :: mem[c] + Whole(Applied(c), ps)
    ensures failed <==> Whole(Sent, ps) > 0
  {
    var s := Start(ps, mem);
    InvAtStart(ps, mem);
    while s.waiting != 0
      invariant Inv(ps, mem, s)
      decreases Sum(Remaining, ps, s.pc)
    {
      ghost var w := SomeoneRuns(ps, mem, s);
      assert 0 <= w < |ps| && Enabled(ps, s, w);
      var g: nat :| 0 <= g < |ps| && Enabled(ps, s, g);
      InvStep(ps, mem, s, g);
      UnfinishedZero(ps, s.pc, |ps|);
      s := Step(ps, s, g);
    }
    AtEnd(ps, mem, s);
    final := s.mem;
    failed := |s.channel| > 0;
  }
}
