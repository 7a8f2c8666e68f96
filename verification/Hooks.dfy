/** The goroutine behind a webhook: it calls the hook a number of times and then sends its result on a
    channel that nobody need read. */
module Hooks {
  import opened FanOut

  /** callHookAsync after any number of attempts; without a webhook the result is sent at once. The
      channel has room for one result. */
  function HookProgram(attempts: nat): Program {
    seq(attempts, _ => Call) + [Send, Done]
  }

  lemma {:induction false} HookReadings(attempts: nat, k: nat)
    requires k <= attempts + 2
    ensures !Holding(HookProgram(attempts), k)
    ensures Reading(Sent, HookProgram(attempts), k) == if k <= attempts then 0 else 1
  {
    if k > 0 {
      HookReadings(attempts, k - 1);
    }
  }

  lemma HookDisciplined(attempts: nat)
    ensures Disciplined(HookProgram(attempts))
  {
    hide Holding, Reading;
    var p := HookProgram(attempts);
    HookReadings(attempts, |p|);
    forall i | 0 <= i < |p| ensures !Holding(p, i) {
      HookReadings(attempts, i);
    }
  }

  /** The hook goroutine never blocks, ends after its attempts and one send, and leaves exactly one
      result in the channel, whether or not anyone reads it. */
  lemma HookSendsOnce(attempts: nat, schedule: seq<nat>)
    requires Legal([HookProgram(attempts)], Start([HookProgram(attempts)], map[]), schedule)
    ensures var ps := [HookProgram(attempts)];
            var s := Exec(ps, Start(ps, map[]), schedule);
            && Shaped(ps, s)
            && (s.pc[0] < |ps[0]| ==> Enabled(ps, s, 0))
            && |s.channel| == (if s.pc[0] <= attempts then 0 else 1)
            && |schedule| == s.pc[0] <= attempts + 2
  {
    hide Holding, Disciplined;
    var p := HookProgram(attempts);
    var ps, mem := [p], map[];
    HookDisciplined(attempts);
    assert CellsIn(ps, mem);
    InvAtStart(ps, mem);
    ScheduleKeepsInv(ps, mem, Start(ps, mem), schedule);
    var s := Exec(ps, Start(ps, mem), schedule);
    HookReadings(attempts, s.pc[0]);
    OneSum(Sent, p, s.pc);
    OneSum(Remaining, p, s.pc);
    OneSum(Remaining, p, Start(ps, mem).pc);
    if s.pc[0] < |p| && p[s.pc[0]].Send? {
      SendNeverBlocks(ps, mem, s, 0);
    }
  }

  lemma OneSum(q: Gauge, p: Program, pc: seq<nat>)
    requires |pc| == 1 && pc[0] <= |p|
    ensures Sum(q, [p], pc) == Reading(q, p, pc[0])
  {
    assert SumTo(q, [p], pc, 0) == 0;
  }
}
