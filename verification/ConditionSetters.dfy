/** The condition setters as they run: on the list of a resource, in place. */
module ConditionSetters {
  import opened Options
  import opened Conditions

  lemma {:induction false} SetSplit(before: List, after: List, c: Condition)
    requires forall k :: 0 <= k < |before| ==> before[k].kind != c.kind
    ensures Set(before + after, c) == before + Set(after, c)
  {
    if before == [] {
      assert before + after == after;
    } else {
      assert (before + after)[1..] == before[1..] + after;
      SetSplit(before[1..], after, c);
    }
  }

  lemma {:induction false} FindSplit(before: List, after: List, kind: Type)
    requires forall k :: 0 <= k < |before| ==> before[k].kind != kind
    ensures Find(before + after, kind) == Find(after, kind)
  {
    if before == [] {
      assert before + after == after;
    } else {
      assert (before + after)[1..] == before[1..] + after;
      FindSplit(before[1..], after, kind);
    }
  }

  lemma {:induction false} RemoveLast(cs: List, c: Condition, kind: Type)
    ensures Remove(cs + [c], kind) == Remove(cs, kind) + if c.kind == kind then [] else [c]
  {
    if cs == [] {
      assert cs + [c] == [c];
    } else {
      assert (cs + [c])[1..] == cs[1..] + [c];
      RemoveLast(cs[1..], c, kind);
    }
  }

  /** The place of the first condition of a type, or the length of the list. */
  method IndexOf(cs: List, kind: Type) returns (k: nat)
    ensures k <= |cs| && forall j :: 0 <= j < k ==> cs[j].kind != kind
    ensures k < |cs| ==> cs[k].kind == kind
  {
    k := 0;
    while k < |cs| && cs[k].kind != kind
      invariant 0 <= k <= |cs|
      invariant forall j :: 0 <= j < k ==> cs[j].kind != kind
    {
      k := k + 1;
    }
  }

  /** meta.SetStatusCondition */
  method SetStatusCondition(cs: List, c: Condition) returns (r: List)
    ensures r == Set(cs, c)
  {
    var k := IndexOf(cs, c.kind);
    assert cs == cs[..k] + cs[k..];
    SetSplit(cs[..k], cs[k..], c);
    if k < |cs| {
      r := cs[k := c];
      assert cs[k..][1..] == cs[k + 1..];
    } else {
      r := cs + [c];
    }
  }

  /** meta.FindStatusCondition */
  method FindStatusCondition(cs: List, kind: Type) returns (r: Option<Condition>)
    ensures r == Find(cs, kind)
  {
    var k := IndexOf(cs, kind);
    assert cs == cs[..k] + cs[k..];
    FindSplit(cs[..k], cs[k..], kind);
    r := if k < |cs| then Some(cs[k]) else None;
  }

  /** meta.RemoveStatusCondition */
  method RemoveStatusCondition(cs: List, kind: Type) returns (r: List)
    ensures r == Remove(cs, kind)
  {
    r := [];
    for k := 0 to |cs|
      invariant r == Remove(cs[..k], kind)
    {
      RemoveLast(cs[..k], cs[k], kind);
      assert cs[..k] + [cs[k]] == cs[..k + 1];
      if cs[k].kind != kind {
        r := r + [cs[k]];
      }
    }
    assert cs[..|cs|] == cs;
  }

  class Resource {
    var conditions: List
    var ready: bool
    var generation: nat
    var observedGeneration: nat

    constructor (generation: nat)
      ensures Now() == View([], false, generation, 0) && Good(Now())
    {
      conditions, ready, this.generation, observedGeneration := [], false, generation, 0;
    }

    ghost function Now(): View
      reads this
    {
      View(conditions, ready, generation, observedGeneration)
    }

    method GetLastObservedGen() returns (gen: nat)
      ensures gen == LastObserved(conditions)
    {
      var c := FindStatusCondition(conditions, Succeeded);
      gen := if c.Some? then c.value.gen else 0;
    }

    method Put(cs: List, c: Condition, r: Condition)
      requires c.kind == Succeeded && r.kind == Ready
      modifies this`conditions
      ensures conditions == Both(cs, c, r)
    {
      var cs1 := SetStatusCondition(cs, c);
      conditions := SetStatusCondition(cs1, r);
    }

    method SetInProgressConditions(kind: OpKind, async: bool)
      modifies this`conditions
      ensures Now() == Effect(old(Now()), InProgress(kind, async))
    {
      var observed := generation;
      if async {
        observed := GetLastObservedGen();
      }
      var cs := RemoveStatusCondition(conditions, Failed);
      Put(cs, Condition(Succeeded, false, Doing(kind), observed), ReadyCondition(ready, generation));
    }

    method SetSuccessConditions(kind: OpKind, async: bool)
      modifies this`conditions, this`ready
      ensures Now() == Effect(old(Now()), Success(kind, async))
    {
      var observed := generation;
      if async {
        observed := GetLastObservedGen();
      }
      var cs := RemoveStatusCondition(conditions, Failed);
      Put(cs, Condition(Succeeded, true, Done(kind), observed), Condition(Ready, true, Provisioned, observed));
      ready := true;
    }

    method SetFailureConditions(kind: OpKind, async: bool)
      requires kind == Unknown ==> conditions != []
      modifies this`conditions
      ensures Now() == Effect(old(Now()), Failure(kind, async))
    {
      var reason := if kind != Unknown then Undone(kind) else conditions[0].reason;
      var observed := generation;
      if async {
        observed := GetLastObservedGen();
      }
      Put(conditions, Condition(Succeeded, false, reason, observed), ReadyCondition(ready, generation));
    }

    /** The conditions HandleOperationFailure writes. */
    method SetOperationFailure(kind: OpKind)
      modifies this`conditions
      ensures Now() == Effect(old(Now()), OperationFailure(kind))
    {
      var cs := RemoveStatusCondition(conditions, Failed);
      Put(cs, Condition(Succeeded, false, Undone(kind), generation), ReadyCondition(ready, generation));
    }

    /** Writes the reason through a pointer to the Succeeded condition. */
    method SetBlockedCondition()
      requires conditions == [] || Shaped(conditions)
      modifies this`conditions
      ensures Now() == Effect(old(Now()), Block)
    {
      var s, r := Condition(Succeeded, false, Doing(Unknown), generation), ReadyCondition(ready, generation);
      ghost var cs := Remove(conditions, Failed);
      BothBlocked(conditions, ready, s, r);
      SetInProgressConditions(Unknown, false);
      var k := IndexOf(conditions, Succeeded);
      if k < |conditions| {
        conditions := conditions[k := conditions[k].(reason := Blocked)];
      }
    }

    method SetSharedCondition(shared: bool)
      requires Unique(conditions)
      modifies this`conditions
      ensures Now() == Effect(old(Now()), Share(shared))
    {
      var cs := conditions;
      for k := 0 to |conditions|
        invariant |cs| == |conditions| == |old(conditions)| && conditions == old(conditions)
        invariant forall j :: 0 <= j < k ==> cs[j] == Aligned(conditions, generation)[j]
        invariant forall j :: k <= j < |cs| ==> cs[j] == conditions[j]
        invariant Unique(cs)
      {
        var cond := conditions[k];
        if cond.kind != Shared {
          cond := cond.(gen := generation);
          SetAt(cs, cond, k);
          cs := SetStatusCondition(cs, cond);
        }
      }
      assert cs == Aligned(conditions, generation);
      cs := RemoveStatusCondition(cs, Shared);
      conditions := SetStatusCondition(cs, Condition(Shared, shared, Other("share"), 0));
    }

    method SetCredRotationInProgressConditions(reason: Reason)
      modifies this`conditions
      ensures Now() == Effect(old(Now()), Rotate(reason))
    {
      conditions := SetStatusCondition(conditions, Condition(CredRotation, true, reason, generation));
    }

    /** InitConditions and UpdateStatus: the write copies the observed generation of the Succeeded condition. */
    method InitConditions()
      modifies this
      ensures Now() == After(Effect(old(Now()), Init), Write)
    {
      ready := false;
      SetInProgressConditions(Create, false);
      UpdateStatus();
    }

    method UpdateStatus()
      modifies this`observedGeneration
      ensures Now() == After(old(Now()), Write)
    {
      observedGeneration := GetLastObservedGen();
    }
  }

  lemma BothBlocked(cs: List, ready: bool, s: Condition, r: Condition)
    requires s.kind == Succeeded && r.kind == Ready && r.status == ready && (cs == [] || Shaped(cs))
    ensures var l := Both(Remove(cs, Failed), s, r);
      |l| > 0 && l[0] == s && l[0 := s.(reason := Blocked)] == Both(Remove(cs, Failed), s.(reason := Blocked), r)
  {
    if cs != [] {
      RemoveUnique(cs, Failed);
    }
    var cs1 := Remove(cs, Failed);
    BothConsistent(cs1, ready, s, r);
    BothConsistent(cs1, ready, s.(reason := Blocked), r);
    BothLength(cs1, s, r);
    BothLength(cs1, s.(reason := Blocked), r);
  }

  lemma BothLength(cs: List, s: Condition, r: Condition)
    requires s.kind == Succeeded && r.kind == Ready && (cs == [] || Shaped(cs))
    ensures |Both(cs, s, r)| == if cs == [] then 2 else |cs|
  {
    if cs == [] {
      SetNew([s], r);
    } else {
      SetAt(cs, s, 0);
      SetAt(cs[0 := s], r, 1);
    }
  }
}
