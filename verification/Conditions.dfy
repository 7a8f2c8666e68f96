/** The job's condition list: an ordered list that is used as a map keyed by condition type. */
module Conditions {
  import opened Types

  type List = seq<Condition>

  /** The first condition of type k. */
  function Get(cs: List, k: CondType): (r: Option<Condition>)
    ensures r.Some? ==> r.value.kind == k && r.value in cs
    ensures r.None? <==> forall c :: c in cs ==> c.kind != k
  {
    if cs == [] then None
    else if cs[0].kind == k then Some(cs[0])
    else Get(cs[1..], k)
  }

  /** First-match test used inside a pass. */
  predicate Check(cs: List, k: CondType) {
    Get(cs, k).Some? && Get(cs, k).value.status == ConditionTrue
  }

  /** Any-match test behind IsJobSucceed and IsJobFailed. */
  predicate Holds(cs: List, k: CondType) {
    exists c :: c in cs && c.kind == k && c.status == ConditionTrue
  }

  /** Any-match test that gates every pass. */
  predicate IsJobFinished(cs: List) {
    exists c :: c in cs && (c.kind == JobSucceeded || c.kind == JobFailed) && c.status == ConditionTrue
  }

  function FilterOut(cs: List, k: CondType): (r: List)
    ensures forall c :: c in r <==> c in cs && c.kind != k
  {
    if cs == [] then []
    else
      var front := FilterOut(cs[..|cs| - 1], k);
      assert cs == cs[..|cs| - 1] + [cs[|cs| - 1]];
      if cs[|cs| - 1].kind == k then front else front + [cs[|cs| - 1]]
  }

  function NewCondition(k: CondType, reason: Reason, now: Time): Condition {
    Condition(k, ConditionTrue, reason, now, now)
  }

  /** setCondition. */
  function Set(cs: List, c: Condition): List {
    var cur := Get(cs, c.kind);
    if cur.Some? && cur.value.status == c.status && cur.value.reason == c.reason then cs
    else
      FilterOut(cs, c.kind) +
      [if cur.Some? && cur.value.status == c.status then c.(lastTransition := cur.value.lastTransition) else c]
  }

  /** updateMXJobFalseConditions. */
  function Retract(cs: List, k: CondType, reason: Reason, now: Time): List {
    var cur := Get(cs, k);
    if cur.None? || cur.value.status == ConditionFalse then cs
    else Set(cs, cur.value.(status := ConditionFalse, lastTransition := now, reason := reason))
  }

  ghost predicate Unique(cs: List) {
    forall i, j :: 0 <= i < j < |cs| ==> cs[i].kind != cs[j].kind
  }

  /** The map a list with unique types stands for. */
  ghost function AsMap(cs: List): map<CondType, Condition> {
    map k: CondType | Get(cs, k).Some? :: Get(cs, k).value
  }

  /** What Get finds is the first entry of its type. */
  lemma {:induction false} GetIsFirst(cs: List, k: CondType, i: nat)
    requires i < |cs| && cs[i].kind == k && forall j :: 0 <= j < i ==> cs[j].kind != k
    ensures Get(cs, k) == Some(cs[i])
  {
    if i > 0 {
      GetIsFirst(cs[1..], k, i - 1);
    }
  }

  lemma {:induction false} GetConcat(a: List, b: List, k: CondType)
    ensures Get(a + b, k) == if Get(a, k).Some? then Get(a, k) else Get(b, k)
  {
    if a == [] {
      assert a + b == b;
    } else {
      assert (a + b)[1..] == a[1..] + b;
      GetConcat(a[1..], b, k);
    }
  }

  lemma {:induction false} GetFilterOut(cs: List, k: CondType, other: CondType)
    ensures Get(FilterOut(cs, k), other) == if other == k then None else Get(cs, other)
  {
    if cs != [] {
      var front, last := cs[..|cs| - 1], cs[|cs| - 1];
      assert cs == front + [last];
      GetFilterOut(front, k, other);
      GetConcat(front, [last], other);
      GetConcat(FilterOut(front, k), [last], other);
    }
  }

  lemma {:induction false} FilterOutConcat(a: List, b: List, k: CondType)
    ensures FilterOut(a + b, k) == FilterOut(a, k) + FilterOut(b, k)
  {
    if b == [] {
      assert a + b == a;
    } else {
      assert (a + b)[..|a + b| - 1] == a + b[..|b| - 1];
      FilterOutConcat(a, b[..|b| - 1], k);
    }
  }

  lemma {:induction false} FilterOutTwice(cs: List, k: CondType)
    ensures FilterOut(FilterOut(cs, k), k) == FilterOut(cs, k)
  {
    if cs != [] {
      FilterOutTwice(cs[..|cs| - 1], k);
      FilterOutConcat(FilterOut(cs[..|cs| - 1], k), [cs[|cs| - 1]], k);
    }
  }

  /** What setCondition does to any list, duplicates or not: the other types keep their entries and
      their order, the type gets the new status and reason, and its transition time moves only if
      its status does. */
  lemma SetEffect(cs: List, c: Condition)
    ensures forall k :: k != c.kind ==> Get(Set(cs, c), k) == Get(cs, k)
    ensures forall k :: k != c.kind ==> (Holds(Set(cs, c), k) <==> Holds(cs, k))
    ensures FilterOut(Set(cs, c), c.kind) == FilterOut(cs, c.kind)
    ensures var r := Get(Set(cs, c), c.kind);
            r.Some? && r.value.status == c.status && r.value.reason == c.reason
    ensures var r, old' := Get(Set(cs, c), c.kind), Get(cs, c.kind);
            if old'.Some? && old'.value.status == c.status
            then r.value.lastTransition == old'.value.lastTransition
            else r.value.lastTransition == c.lastTransition
    ensures var r, old' := Get(Set(cs, c), c.kind), Get(cs, c.kind);
            if old'.Some? && old'.value.status == c.status && old'.value.reason == c.reason
            then Set(cs, c) == cs
            else r.value.lastUpdate == c.lastUpdate && Set(cs, c) == FilterOut(cs, c.kind) + [r.value]
    ensures c.status == ConditionTrue ==> Holds(Set(cs, c), c.kind)
    ensures Holds(Set(cs, c), c.kind) ==>
            c.status == ConditionTrue || (Holds(cs, c.kind) && !Check(cs, c.kind))
  {
    var t := Set(cs, c);
    if t != cs {
      var kept := FilterOut(cs, c.kind);
      var last := t[|t| - 1];
      assert t == kept + [last];
      forall k ensures Get(t, k) == if k == c.kind then Some(last) else Get(cs, k) {
        GetConcat(kept, [last], k);
        GetFilterOut(cs, c.kind, k);
      }
      FilterOutConcat(kept, [last], c.kind);
      FilterOutTwice(cs, c.kind);
      assert forall x :: x in t <==> x in kept || x == last;
    }
    if c.status == ConditionTrue {
      assert Get(t, c.kind).value in t;
    }
  }

  lemma {:induction false} FilterOutUnique(cs: List, k: CondType)
    requires Unique(cs)
    ensures Unique(FilterOut(cs, k))
  {
    if cs != [] {
      FilterOutUnique(cs[..|cs| - 1], k);
      var front, last := FilterOut(cs[..|cs| - 1], k), cs[|cs| - 1];
      forall c | c in front ensures c.kind != last.kind {
        assert c in cs[..|cs| - 1];
      }
    }
  }

  lemma SetUnique(cs: List, c: Condition)
    requires Unique(cs)
    ensures Unique(Set(cs, c))
  {
    if Set(cs, c) != cs {
      FilterOutUnique(cs, c.kind);
      var kept := FilterOut(cs, c.kind);
      forall i | 0 <= i < |kept| ensures kept[i].kind != c.kind {
        assert kept[i] in kept;
      }
    }
  }

  /** setCondition keeps types unique and is then a map update, or nothing at all. */
  lemma SetIsMapUpdate(cs: List, c: Condition)
    requires Unique(cs)
    ensures Unique(Set(cs, c))
    ensures AsMap(Set(cs, c)) == AsMap(cs)[c.kind := Get(Set(cs, c), c.kind).value]
  {
    hide Get, Set, FilterOut, Unique, Holds;
    SetUnique(cs, c);
    SetEffect(cs, c);
    var m, n := AsMap(Set(cs, c)), AsMap(cs)[c.kind := Get(Set(cs, c), c.kind).value];
    forall k ensures (k in m <==> k in n) && (k in m ==> m[k] == n[k]) {
      assert k != c.kind ==> Get(Set(cs, c), k) == Get(cs, k);
    }
  }

  lemma RetractIsMapUpdate(cs: List, k: CondType, reason: Reason, now: Time)
    requires Unique(cs)
    ensures Unique(Retract(cs, k, reason, now))
    ensures k !in AsMap(cs) ==> Retract(cs, k, reason, now) == cs
    ensures k in AsMap(cs) ==>
            AsMap(Retract(cs, k, reason, now)) == AsMap(cs)[k := Get(Retract(cs, k, reason, now), k).value] &&
            Get(Retract(cs, k, reason, now), k).value.status == ConditionFalse
  {
    hide Get, Set, FilterOut, Unique, Holds;
    var cur := Get(cs, k);
    if cur.Some? && cur.value.status != ConditionFalse {
      var c := cur.value.(status := ConditionFalse, lastTransition := now, reason := reason);
      SetIsMapUpdate(cs, c);
      SetEffect(cs, c);
    }
  }

  /** Retracting leaves no true entry behind, if the two tests agreed beforehand. */
  lemma RetractEffect(cs: List, k: CondType, reason: Reason, now: Time)
    requires Holds(cs, k) <==> Check(cs, k)
    ensures !Holds(Retract(cs, k, reason, now), k) && !Check(Retract(cs, k, reason, now), k)
    ensures forall o :: o != k ==> Get(Retract(cs, k, reason, now), o) == Get(cs, o)
    ensures forall o :: o != k ==> (Holds(Retract(cs, k, reason, now), o) <==> Holds(cs, o))
    ensures Get(cs, k).Some? ==> Get(Retract(cs, k, reason, now), k).Some?
    ensures Get(cs, k).None? ==> Retract(cs, k, reason, now) == cs
    ensures Get(cs, k).Some? && Get(cs, k).value.status != ConditionFalse ==>
            var c, d := Get(cs, k).value, Get(Retract(cs, k, reason, now), k).value;
            && d.status == ConditionFalse && d.reason == reason
            && d.lastTransition == now && d.lastUpdate == c.lastUpdate
  {
    var cur := Get(cs, k);
    if cur.Some? && cur.value.status != ConditionFalse {
      SetEffect(cs, cur.value.(status := ConditionFalse, lastTransition := now, reason := reason));
    }
  }

  /** With unique types the any-match and the first-match tests agree. */
  lemma TestsAgree(cs: List, k: CondType)
    requires Unique(cs)
    ensures Holds(cs, k) <==> Check(cs, k)
    ensures IsJobFinished(cs) <==> Check(cs, JobSucceeded) || Check(cs, JobFailed)
  {
    forall t ensures Holds(cs, t) <==> Check(cs, t) {
      if Holds(cs, t) {
        var c :| c in cs && c.kind == t && c.status == ConditionTrue;
        assert Get(cs, t).value == c;
      }
    }
    assert IsJobFinished(cs) <==> Holds(cs, JobSucceeded) || Holds(cs, JobFailed);
  }

  /** Without uniqueness they need not agree. */
  lemma TestsDisagree(now: Time)
    ensures var cs := [Condition(JobFailed, ConditionFalse, ReasonFailed, now, now),
                       Condition(JobFailed, ConditionTrue, ReasonFailed, now, now)];
            IsJobFinished(cs) && !Check(cs, JobFailed)
  {
    var bad := Condition(JobFailed, ConditionTrue, ReasonFailed, now, now);
    assert bad in [Condition(JobFailed, ConditionFalse, ReasonFailed, now, now), bad];
  }

  // The list scans as the source runs them.

  method GetCondition(cs: List, k: CondType) returns (r: Option<Condition>)
    ensures r == Get(cs, k)
  {
    for i := 0 to |cs|
      invariant Get(cs, k) == Get(cs[i..], k)
    {
      if cs[i].kind == k {
        return Some(cs[i]);
      }
      assert cs[i..][1..] == cs[i + 1..];
    }
    return None;
  }

  method CheckCondition(cs: List, k: CondType) returns (b: bool)
    ensures b == Check(cs, k)
  {
    var c := GetCondition(cs, k);
    b := c.Some? && c.value.status == ConditionTrue;
  }

  method FilterOutCondition(cs: List, k: CondType) returns (r: List)
    ensures r == FilterOut(cs, k)
  {
    r := [];
    for i := 0 to |cs|
      invariant r == FilterOut(cs[..i], k)
    {
      assert cs[..i + 1][..i] == cs[..i];
      if cs[i].kind == k {
        continue;
      }
      r := r + [cs[i]];
    }
    assert cs[..|cs|] == cs;
  }
}
