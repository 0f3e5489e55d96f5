/** The conditions of a resource and the setters that edit them in place. */
module Conditions {
  import opened Options

  datatype Type = Succeeded | Ready | Failed | Shared | CredRotation | PendingTermination

  datatype OpKind = Create | Update | Delete | Unknown

  datatype Reason =
    | Done(kind: OpKind) | Doing(kind: OpKind) | Undone(kind: OpKind)
    | Provisioned | NotProvisioned | Blocked | NotFound | Other(text: string)

  datatype Condition = Condition(kind: Type, status: bool, reason: Reason, gen: nat)

  type List = seq<Condition>

  predicate Has(cs: List, kind: Type) {
    exists k :: 0 <= k < |cs| && cs[k].kind == kind
  }

  /** The first condition of a type. */
  function Find(cs: List, kind: Type): Option<Condition> {
    if cs == [] then None else if cs[0].kind == kind then Some(cs[0]) else Find(cs[1..], kind)
  }

  /** meta.SetStatusCondition: replace in place by type, else append. */
  function Set(cs: List, c: Condition): List {
    if cs == [] then [c] else if cs[0].kind == c.kind then [c] + cs[1..] else [cs[0]] + Set(cs[1..], c)
  }

  /** meta.RemoveStatusCondition. */
  function Remove(cs: List, kind: Type): List {
    if cs == [] then [] else (if cs[0].kind == kind then [] else [cs[0]]) + Remove(cs[1..], kind)
  }

  predicate Unique(cs: List) {
    forall j, k :: 0 <= j < k < |cs| ==> cs[j].kind != cs[k].kind
  }

  /** Succeeded first, Ready second, and no type twice: what the CRD print columns and the controllers rely on. */
  predicate Shaped(cs: List) {
    Unique(cs) && |cs| >= 2 && cs[0].kind == Succeeded && cs[1].kind == Ready
  }

  /** Either nothing was set yet, or the list is shaped and its Ready condition tells `ready`. */
  predicate Consistent(cs: List, ready: bool) {
    if cs == [] then !ready else Shaped(cs) && cs[1].status == ready
  }

  lemma {:induction false} SetAt(cs: List, c: Condition, k: nat)
    requires Unique(cs) && k < |cs| && cs[k].kind == c.kind
    ensures Set(cs, c) == cs[k := c]
  {
    if k > 0 {
      assert Unique(cs[1..]);
      SetAt(cs[1..], c, k - 1);
    }
  }

  lemma {:induction false} SetNew(cs: List, c: Condition)
    requires !Has(cs, c.kind)
    ensures Set(cs, c) == cs + [c]
  {
    if cs != [] {
      assert forall k :: 0 <= k < |cs[1..]| ==> cs[1..][k] == cs[k + 1];
      SetNew(cs[1..], c);
    }
  }

  lemma {:induction false} RemoveNone(cs: List, kind: Type)
    requires !Has(cs, kind)
    ensures Remove(cs, kind) == cs
  {
    if cs != [] {
      assert forall k :: 0 <= k < |cs[1..]| ==> cs[1..][k] == cs[k + 1];
      RemoveNone(cs[1..], kind);
    }
  }

  lemma {:induction false} RemoveAt(cs: List, kind: Type, k: nat)
    requires Unique(cs) && k < |cs| && cs[k].kind == kind
    ensures Remove(cs, kind) == cs[..k] + cs[k + 1..]
  {
    if k == 0 {
      assert forall j :: 0 <= j < |cs[1..]| ==> cs[1..][j] == cs[j + 1];
      RemoveNone(cs[1..], kind);
    } else {
      assert Unique(cs[1..]) && cs[1..][k - 1] == cs[k];
      RemoveAt(cs[1..], kind, k - 1);
      assert cs[1..][..k - 1] == cs[1..k] && cs[1..][k..] == cs[k + 1..];
      assert [cs[0]] + cs[1..k] == cs[..k];
    }
  }

  lemma SetUnique(cs: List, c: Condition)
    requires Unique(cs)
    ensures Unique(Set(cs, c)) && |cs| <= |Set(cs, c)|
    ensures forall k :: 0 <= k < |cs| ==> Set(cs, c)[k] == if cs[k].kind == c.kind then c else cs[k]
  {
    if k :| 0 <= k < |cs| && cs[k].kind == c.kind {
      SetAt(cs, c, k);
    } else {
      SetNew(cs, c);
    }
  }

  lemma RemoveUnique(cs: List, kind: Type)
    requires Unique(cs) && kind != Succeeded && kind != Ready && (cs == [] || Shaped(cs))
    ensures Unique(Remove(cs, kind)) && !Has(Remove(cs, kind), kind)
    ensures cs != [] ==> |Remove(cs, kind)| >= 2 && Remove(cs, kind)[0] == cs[0] && Remove(cs, kind)[1] == cs[1]
    ensures cs == [] ==> Remove(cs, kind) == []
  {
    if k :| 0 <= k < |cs| && cs[k].kind == kind {
      RemoveAt(cs, kind, k);
    } else {
      RemoveNone(cs, kind);
    }
  }

  /** A resource writes its Succeeded and Ready conditions, in this order. */
  function Both(cs: List, succeeded: Condition, ready: Condition): List
    requires succeeded.kind == Succeeded && ready.kind == Ready
  {
    Set(Set(cs, succeeded), ready)
  }

  lemma BothConsistent(cs: List, ready: bool, s: Condition, r: Condition)
    requires s.kind == Succeeded && r.kind == Ready && r.status == ready && (cs == [] || Shaped(cs))
    ensures Consistent(Both(cs, s, r), ready) && Both(cs, s, r)[0] == s && Both(cs, s, r)[1] == r
    ensures forall k :: 2 <= k < |cs| ==> k < |Both(cs, s, r)| && Both(cs, s, r)[k] == cs[k]
  {
    SetUnique(cs, s);
    if cs == [] {
      SetNew([s], r);
    } else {
      SetUnique(Set(cs, s), r);
    }
  }

  /** The observed generation of the Succeeded condition, 0 without one. */
  function LastObserved(cs: List): nat {
    match Find(cs, Succeeded) case Some(c) => c.gen case None => 0
  }

  lemma ShapedFind(cs: List)
    requires Shaped(cs)
    ensures Find(cs, Succeeded) == Some(cs[0]) && Has(cs, Succeeded) && Has(cs, Ready)
  {
    assert cs[0].kind == Succeeded && cs[1].kind == Ready;
  }

  function ReadyCondition(ready: bool, gen: nat): Condition {
    Condition(Ready, ready, if ready then Provisioned else NotProvisioned, gen)
  }

  /** Aligning every condition but Shared to a generation. */
  function Aligned(cs: List, gen: nat): List {
    seq(|cs|, k requires 0 <= k < |cs| => if cs[k].kind == Shared then cs[k] else cs[k].(gen := gen))
  }

  // ----- the setters, as functions of the list and of readiness

  datatype Setter =
    | Init
    | InProgress(kind: OpKind, async: bool)
    | Success(kind: OpKind, async: bool)
    | Failure(kind: OpKind, async: bool)
    | OperationFailure(kind: OpKind)
    | Block
    | ReadyThenInProgress(ready: bool, kind: OpKind)
    | Share(shared: bool)
    | Unshare
    | Rotate(reason: Reason)
    | EndRotation
    | PendTermination

  datatype View = View(conditions: List, ready: bool, gen: nat, observed: nat)

  /** Applied to a list that was set up before, except for the setters that set it up. */
  function Effect(v: View, setter: Setter): View {
    var cs := v.conditions;
    var at := LastObserved(cs);
    match setter
    case Init =>
      v.(ready := false, conditions := Both(Remove(cs, Failed), Condition(Succeeded, false, Doing(Create), v.gen), ReadyCondition(false, v.gen)))
    case InProgress(kind, async) =>
      v.(conditions := Both(Remove(cs, Failed), Condition(Succeeded, false, Doing(kind), if async then at else v.gen), ReadyCondition(v.ready, v.gen)))
    case Success(kind, async) =>
      var g := if async then at else v.gen;
      v.(ready := true, conditions := Both(Remove(cs, Failed), Condition(Succeeded, true, Done(kind), g), Condition(Ready, true, Provisioned, g)))
    case Failure(kind, async) =>
      if kind == Unknown && cs == [] then v // the source indexes the first condition here
      else
        var reason := if kind == Unknown then cs[0].reason else Undone(kind);
        v.(conditions := Both(cs, Condition(Succeeded, false, reason, if async then at else v.gen), ReadyCondition(v.ready, v.gen)))
    case OperationFailure(kind) =>
      v.(conditions := Both(Remove(cs, Failed), Condition(Succeeded, false, Undone(kind), v.gen), ReadyCondition(v.ready, v.gen)))
    case Block =>
      v.(conditions := Both(Remove(cs, Failed), Condition(Succeeded, false, Blocked, v.gen), ReadyCondition(v.ready, v.gen)))
    case ReadyThenInProgress(ready, kind) =>
      v.(ready := ready, conditions := Both(Remove(cs, Failed), Condition(Succeeded, false, Doing(kind), v.gen), ReadyCondition(ready, v.gen)))
    case Share(shared) =>
      v.(conditions := Set(Remove(Aligned(cs, v.gen), Shared), Condition(Shared, shared, Other("share"), 0)))
    case Unshare => v.(conditions := Remove(cs, Shared))
    case Rotate(reason) => v.(conditions := Set(cs, Condition(CredRotation, true, reason, v.gen)))
    case EndRotation => v.(conditions := Remove(cs, CredRotation))
    case PendTermination => v.(conditions := Set(cs, Condition(PendingTermination, true, Other("pending"), v.gen)))
  }

  /** The setters that need a list that is set up: they add a condition of their own. */
  predicate NeedsConditions(setter: Setter) {
    setter.Share? || setter.Rotate? || setter.PendTermination?
  }

  predicate Good(v: View) {
    Consistent(v.conditions, v.ready) && LastObserved(v.conditions) <= v.gen
  }

  lemma AlignedShaped(cs: List, gen: nat)
    requires Shaped(cs)
    ensures Shaped(Aligned(cs, gen)) && Aligned(cs, gen)[0] == cs[0].(gen := gen) && Aligned(cs, gen)[1] == cs[1].(gen := gen)
  {
  }

  /** Setting a further condition, or removing one, leaves the first two where they are. */
  lemma FurtherOk(cs: List, c: Condition)
    requires Shaped(cs) && c.kind != Succeeded && c.kind != Ready
    ensures Shaped(Set(cs, c)) && Set(cs, c)[0] == cs[0] && Set(cs, c)[1] == cs[1]
    ensures Shaped(Remove(cs, c.kind)) && Remove(cs, c.kind)[0] == cs[0] && Remove(cs, c.kind)[1] == cs[1]
  {
    SetUnique(cs, c);
    RemoveUnique(cs, c.kind);
  }

  lemma ResetOk(cs: List, ready: bool, s: Condition, r: Condition)
    requires s.kind == Succeeded && r.kind == Ready && r.status == ready && (cs == [] || Shaped(cs))
    ensures Both(cs, s, r) != [] && Both(Remove(cs, Failed), s, r) != []
    ensures Consistent(Both(cs, s, r), ready) && LastObserved(Both(cs, s, r)) == s.gen
    ensures Consistent(Both(Remove(cs, Failed), s, r), ready) && LastObserved(Both(Remove(cs, Failed), s, r)) == s.gen
  {
    if cs != [] {
      RemoveUnique(cs, Failed);
    }
    BothConsistent(cs, ready, s, r);
    BothConsistent(Remove(cs, Failed), ready, s, r);
    ShapedFind(Both(cs, s, r));
    ShapedFind(Both(Remove(cs, Failed), s, r));
  }

  lemma MoreOk(v: View, setter: Setter)
    requires Good(v) && v.conditions != []
    requires setter.Share? || setter.Unshare? || setter.Rotate? || setter.EndRotation? || setter.PendTermination?
    ensures Good(Effect(v, setter))
  {
    var cs := v.conditions;
    ShapedFind(cs);
    match setter
    case Share(shared) =>
      var c := Condition(Shared, shared, Other("share"), 0);
      AlignedShaped(cs, v.gen);
      FurtherOk(Aligned(cs, v.gen), c);
      FurtherOk(Remove(Aligned(cs, v.gen), Shared), c);
      ShapedFind(Effect(v, setter).conditions);
    case Unshare =>
      FurtherOk(cs, Condition(Shared, true, Blocked, 0));
      ShapedFind(Effect(v, setter).conditions);
    case Rotate(reason) =>
      FurtherOk(cs, Condition(CredRotation, true, reason, v.gen));
      ShapedFind(Effect(v, setter).conditions);
    case EndRotation =>
      FurtherOk(cs, Condition(CredRotation, true, Blocked, v.gen));
      ShapedFind(Effect(v, setter).conditions);
    case PendTermination =>
      FurtherOk(cs, Condition(PendingTermination, true, Other("pending"), v.gen));
      ShapedFind(Effect(v, setter).conditions);
  }

  /** Every setter keeps the shape, the agreement of Ready with its condition, and the bound on what was observed. */
  lemma SetterKeeps(v: View, setter: Setter)
    requires Good(v) && (NeedsConditions(setter) ==> v.conditions != [])
    ensures Good(Effect(v, setter)) && Effect(v, setter).gen == v.gen
    ensures v.conditions != [] ==> Effect(v, setter).conditions != []
  {
    hide Both;
    var cs := v.conditions;
    var at := LastObserved(cs);
    match setter
    case Init => ResetOk(cs, false, Condition(Succeeded, false, Doing(Create), v.gen), ReadyCondition(false, v.gen));
    case InProgress(kind, async) =>
      ResetOk(cs, v.ready, Condition(Succeeded, false, Doing(kind), if async then at else v.gen), ReadyCondition(v.ready, v.gen));
    case Success(kind, async) =>
      var g := if async then at else v.gen;
      ResetOk(cs, true, Condition(Succeeded, true, Done(kind), g), Condition(Ready, true, Provisioned, g));
    case Failure(kind, async) =>
      if kind != Unknown || cs != [] {
        ResetOk(cs, v.ready, Condition(Succeeded, false, if kind == Unknown then cs[0].reason else Undone(kind), if async then at else v.gen),
                ReadyCondition(v.ready, v.gen));
      }
    case OperationFailure(kind) => ResetOk(cs, v.ready, Condition(Succeeded, false, Undone(kind), v.gen), ReadyCondition(v.ready, v.gen));
    case Block => ResetOk(cs, v.ready, Condition(Succeeded, false, Blocked, v.gen), ReadyCondition(v.ready, v.gen));
    case ReadyThenInProgress(ready, kind) =>
      ResetOk(cs, ready, Condition(Succeeded, false, Doing(kind), v.gen), ReadyCondition(ready, v.gen));
    case _ => if cs != [] { MoreOk(v, setter); }
  }

  // ----- over any sequence of setters, edits and status writes

  datatype Event = Apply(setter: Setter) | Edit | Write

  function After(v: View, e: Event): View {
    match e
    case Apply(setter) => Effect(v, setter)
    case Edit => v.(gen := v.gen + 1)
    case Write => v.(observed := LastObserved(v.conditions))
  }

  function AfterAll(v: View, events: seq<Event>): View
    decreases |events|
  {
    if events == [] then v else AfterAll(After(v, events[0]), events[1..])
  }

  /**
   Over any sequence of setters, edits and status writes on a resource whose conditions were set up: the
   list keeps its shape, Ready agrees with its condition, and nothing newer than the object is observed.
   */
  lemma {:induction false} ConditionsStayConsistent(v: View, events: seq<Event>)
    requires Good(v) && v.conditions != [] && v.observed <= v.gen
    ensures var v1 := AfterAll(v, events);
      Shaped(v1.conditions) && v1.conditions[1].status == v1.ready && LastObserved(v1.conditions) <= v1.gen && v1.observed <= v1.gen
    decreases |events|
  {
    hide Effect;
    if events != [] {
      if events[0].Apply? {
        SetterKeeps(v, events[0].setter);
        EffectObserved(v, events[0].setter);
      }
      ConditionsStayConsistent(After(v, events[0]), events[1..]);
    }
  }

  lemma EffectObserved(v: View, setter: Setter)
    ensures Effect(v, setter).observed == v.observed
  {
    hide Both, LastObserved, Aligned;
  }

  // ----- what each setter leaves in the list

  lemma {:induction false} FindSet(cs: List, c: Condition, kind: Type)
    ensures Find(Set(cs, c), kind) == if kind == c.kind then Some(c) else Find(cs, kind)
  {
    if cs != [] {
      if cs[0].kind == c.kind {
        assert ([c] + cs[1..])[1..] == cs[1..];
      } else {
        FindSet(cs[1..], c, kind);
        assert ([cs[0]] + Set(cs[1..], c))[1..] == Set(cs[1..], c);
      }
    }
  }

  lemma {:induction false} FindRemove(cs: List, gone: Type, kind: Type)
    ensures Find(Remove(cs, gone), kind) == if kind == gone then None else Find(cs, kind)
  {
    if cs != [] {
      FindRemove(cs[1..], gone, kind);
      if cs[0].kind == gone {
        assert [] + Remove(cs[1..], gone) == Remove(cs[1..], gone);
      } else {
        assert ([cs[0]] + Remove(cs[1..], gone))[1..] == Remove(cs[1..], gone);
      }
    }
  }

  lemma {:induction false} FindAligned(cs: List, gen: nat, kind: Type)
    ensures Find(Aligned(cs, gen), kind) ==
            if kind != Shared && Find(cs, kind).Some? then Some(Find(cs, kind).value.(gen := gen)) else Find(cs, kind)
  {
    if cs != [] {
      FindAligned(cs[1..], gen, kind);
      assert Aligned(cs, gen)[1..] == Aligned(cs[1..], gen);
    }
  }

  lemma FindBoth(cs: List, s: Condition, r: Condition, kind: Type)
    requires s.kind == Succeeded && r.kind == Ready
    ensures Find(Both(cs, s, r), kind) == match kind case Succeeded => Some(s) case Ready => Some(r) case _ => Find(cs, kind)
  {
    FindSet(Set(cs, s), r, kind);
    FindSet(cs, s, kind);
  }

  /** A failure of an unknown kind takes its reason from the list, so it needs one. */
  predicate Applicable(v: View, setter: Setter) {
    setter.Failure? && setter.kind == Unknown ==> v.conditions != []
  }

  /** The generation an asynchronous setter observes is the one observed before; any other observes the present one. */
  function ObservedBy(v: View, async: bool): nat {
    if async then LastObserved(v.conditions) else v.gen
  }

  /** The list after a setter that reports: with its two conditions, and without the former Failed type unless it only fails. */
  lemma ReportsFind(v: View, s: Condition, r: Condition, kind: Type)
    requires s.kind == Succeeded && r.kind == Ready
    ensures Find(Both(Remove(v.conditions, Failed), s, r), kind) ==
            match kind case Succeeded => Some(s) case Ready => Some(r) case Failed => None case _ => Find(v.conditions, kind)
    ensures Find(Both(v.conditions, s, r), kind) ==
            match kind case Succeeded => Some(s) case Ready => Some(r) case _ => Find(v.conditions, kind)
  {
    FindBoth(Remove(v.conditions, Failed), s, r, kind);
    FindBoth(v.conditions, s, r, kind);
    FindRemove(v.conditions, Failed, kind);
  }

  /** The list after any other setter. */
  lemma FurtherFind(v: View, setter: Setter, kind: Type)
    requires !Reports(setter)
    ensures var before, after := Find(v.conditions, kind), Find(Effect(v, setter).conditions, kind);
      match setter
      case Share(shared) =>
        after == if kind == Shared then Some(Condition(Shared, shared, Other("share"), 0))
                 else if before.Some? then Some(before.value.(gen := v.gen))
                 else None
      case Unshare => after == if kind == Shared then None else before
      case Rotate(reason) => after == if kind == CredRotation then Some(Condition(CredRotation, true, reason, v.gen)) else before
      case EndRotation => after == if kind == CredRotation then None else before
      case PendTermination =>
        after == if kind == PendingTermination then Some(Condition(PendingTermination, true, Other("pending"), v.gen)) else before
      case _ => true
  {
    hide Find, Set, Remove, Both, Aligned, LastObserved;
    var cs := v.conditions;
    match setter
    case Share(shared) =>
      var aligned := Aligned(cs, v.gen);
      FindAligned(cs, v.gen, kind);
      FindRemove(aligned, Shared, kind);
      FindSet(Remove(aligned, Shared), Condition(Shared, shared, Other("share"), 0), kind);
    case Unshare => FindRemove(cs, Shared, kind);
    case Rotate(reason) => FindSet(cs, Condition(CredRotation, true, reason, v.gen), kind);
    case EndRotation => FindRemove(cs, CredRotation, kind);
    case PendTermination => FindSet(cs, Condition(PendingTermination, true, Other("pending"), v.gen), kind);
    case _ =>
  }

  /** The setters that report success, failure or progress. */
  predicate Reports(setter: Setter) {
    setter.Init? || setter.InProgress? || setter.Success? || setter.Failure? || setter.OperationFailure? || setter.Block?
    || setter.ReadyThenInProgress?
  }

  /** What a reporting setter writes. */
  lemma ReportWritten(v: View, setter: Setter) returns (s: Condition, r: Condition)
    requires Reports(setter) && Applicable(v, setter)
    ensures s.kind == Succeeded && r.kind == Ready
    ensures Effect(v, setter).conditions == Both(if setter.Failure? then v.conditions else Remove(v.conditions, Failed), s, r)
    ensures match setter
      case Success(kind, async) => s == Condition(Succeeded, true, Done(kind), ObservedBy(v, async))
      case InProgress(kind, async) => s == Condition(Succeeded, false, Doing(kind), ObservedBy(v, async))
      case Failure(kind, async) =>
        s == Condition(Succeeded, false, if kind == Unknown then v.conditions[0].reason else Undone(kind), ObservedBy(v, async))
      case OperationFailure(kind) => s == Condition(Succeeded, false, Undone(kind), v.gen)
      case Block => s == Condition(Succeeded, false, Blocked, v.gen)
      case Init => s == Condition(Succeeded, false, Doing(Create), v.gen)
      case ReadyThenInProgress(_, kind) => s == Condition(Succeeded, false, Doing(kind), v.gen)
      case _ => true
    ensures var ready := Effect(v, setter).ready;
      match setter
      case Success(_, async) => ready && r == Condition(Ready, true, Provisioned, ObservedBy(v, async))
      case Init => !ready && r == Condition(Ready, false, NotProvisioned, v.gen)
      case ReadyThenInProgress(now, _) => ready == now && r == Condition(Ready, now, if now then Provisioned else NotProvisioned, v.gen)
      case _ => ready == v.ready && r == Condition(Ready, ready, if ready then Provisioned else NotProvisioned, v.gen)
  {
    hide Both, Remove, LastObserved;
    s := match setter
      case Success(kind, async) => Condition(Succeeded, true, Done(kind), ObservedBy(v, async))
      case InProgress(kind, async) => Condition(Succeeded, false, Doing(kind), ObservedBy(v, async))
      case Failure(kind, async) =>
        Condition(Succeeded, false, if kind == Unknown then v.conditions[0].reason else Undone(kind), ObservedBy(v, async))
      case OperationFailure(kind) => Condition(Succeeded, false, Undone(kind), v.gen)
      case ReadyThenInProgress(_, kind) => Condition(Succeeded, false, Doing(kind), v.gen)
      case Block => Condition(Succeeded, false, Blocked, v.gen)
      case _ => Condition(Succeeded, false, Doing(Create), v.gen);
    r := match setter
      case Success(_, async) => Condition(Ready, true, Provisioned, ObservedBy(v, async))
      case Init => ReadyCondition(false, v.gen)
      case ReadyThenInProgress(now, _) => ReadyCondition(now, v.gen)
      case _ => ReadyCondition(v.ready, v.gen);
  }

  /** The Succeeded condition after each setter, whatever the list. */
  lemma SucceededSays(v: View, setter: Setter)
    requires Applicable(v, setter)
    ensures var before, after := Find(v.conditions, Succeeded), Find(Effect(v, setter).conditions, Succeeded);
      match setter
      case Success(kind, async) => after == Some(Condition(Succeeded, true, Done(kind), ObservedBy(v, async)))
      case InProgress(kind, async) => after == Some(Condition(Succeeded, false, Doing(kind), ObservedBy(v, async)))
      case Failure(kind, async) =>
        after == Some(Condition(Succeeded, false, if kind == Unknown then v.conditions[0].reason else Undone(kind), ObservedBy(v, async)))
      case OperationFailure(kind) => after == Some(Condition(Succeeded, false, Undone(kind), v.gen))
      case Block => after == Some(Condition(Succeeded, false, Blocked, v.gen))
      case Init => after == Some(Condition(Succeeded, false, Doing(Create), v.gen))
      case ReadyThenInProgress(_, kind) => after == Some(Condition(Succeeded, false, Doing(kind), v.gen))
      case Share(_) => after == if before.Some? then Some(before.value.(gen := v.gen)) else None
      case _ => after == before
  {
    hide Find, Effect, Both, Remove, LastObserved;
    if Reports(setter) {
      var s, r := ReportWritten(v, setter);
      ReportsFind(v, s, r, Succeeded);
    } else {
      FurtherFind(v, setter, Succeeded);
    }
  }

  /** The Ready condition after each setter, and readiness itself. */
  lemma ReadySays(v: View, setter: Setter)
    requires Applicable(v, setter)
    ensures var before, after := Find(v.conditions, Ready), Find(Effect(v, setter).conditions, Ready);
      var ready := Effect(v, setter).ready;
      match setter
      case Success(_, async) => ready && after == Some(Condition(Ready, true, Provisioned, ObservedBy(v, async)))
      case Init => !ready && after == Some(Condition(Ready, false, NotProvisioned, v.gen))
      case ReadyThenInProgress(now, _) =>
        ready == now && after == Some(Condition(Ready, now, if now then Provisioned else NotProvisioned, v.gen))
      case Share(_) => ready == v.ready && after == if before.Some? then Some(before.value.(gen := v.gen)) else None
      case Unshare | Rotate(_) | EndRotation | PendTermination => ready == v.ready && after == before
      case _ => ready == v.ready && after == Some(Condition(Ready, ready, if ready then Provisioned else NotProvisioned, v.gen))
  {
    hide Find, Both, Remove, LastObserved;
    if Reports(setter) {
      var s, r := ReportWritten(v, setter);
      ReportsFind(v, s, r, Ready);
      hide Effect;
    } else {
      FurtherFind(v, setter, Ready);
    }
  }

  /** The conditions of other types after each setter: the former Failed type goes, and each has its own setters. */
  lemma OthersSay(v: View, setter: Setter, kind: Type)
    requires Applicable(v, setter) && kind != Succeeded && kind != Ready
    ensures var before, after := Find(v.conditions, kind), Find(Effect(v, setter).conditions, kind);
      match setter
      case Share(shared) =>
        after == if kind == Shared then Some(Condition(Shared, shared, Other("share"), 0))
                 else if before.Some? then Some(before.value.(gen := v.gen))
                 else None
      case Unshare => after == if kind == Shared then None else before
      case Rotate(reason) => after == if kind == CredRotation then Some(Condition(CredRotation, true, reason, v.gen)) else before
      case EndRotation => after == if kind == CredRotation then None else before
      case PendTermination =>
        after == if kind == PendingTermination then Some(Condition(PendingTermination, true, Other("pending"), v.gen)) else before
      case Failure(_, _) => after == before
      case _ => after == if kind == Failed then None else before
  {
    hide Find, Effect, Both, Remove, LastObserved;
    if Reports(setter) {
      var s, r := ReportWritten(v, setter);
      ReportsFind(v, s, r, kind);
    } else {
      FurtherFind(v, setter, kind);
    }
  }

  /** In a list that was set up, Succeeded is the first condition and Ready the second, after every setter. */
  lemma FirstTwo(v: View, setter: Setter)
    requires Good(v) && v.conditions != []
    ensures var cs := Effect(v, setter).conditions;
      |cs| >= 2 && Find(cs, Succeeded) == Some(cs[0]) && Find(cs, Ready) == Some(cs[1])
  {
    SetterKeeps(v, setter);
    var cs := Effect(v, setter).conditions;
    hide Effect;
    assert cs[1..][0] == cs[1];
  }

  /** Whether a setter reports success, if it reports at all. */
  function Verdict(setter: Setter): Option<bool> {
    match setter
    case Success(_, _) => Some(true)
    case InProgress(_, _) | Failure(_, _) | OperationFailure(_) | Block | Init | ReadyThenInProgress(_, _) => Some(false)
    case _ => None
  }

  /** The last report of a run. */
  function LastVerdict(before: Option<bool>, events: seq<Event>): Option<bool>
    decreases |events|
  {
    if events == [] then before
    else
      var now := if events[0].Apply? then Verdict(events[0].setter) else None;
      LastVerdict(if now.Some? then now else before, events[1..])
  }

  /** The status of the Succeeded condition. */
  function Reported(cs: List): Option<bool> {
    match Find(cs, Succeeded) case Some(c) => Some(c.status) case None => None
  }

  predicate AllApplicable(events: seq<Event>) {
    forall k :: 0 <= k < |events| && events[k].Apply? && events[k].setter.Failure? ==> events[k].setter.kind != Unknown
  }

  /** Over any run Succeeded is true exactly when the last setter that reported, reported success. */
  lemma {:induction false} SucceededTellsLast(v: View, events: seq<Event>)
    requires AllApplicable(events)
    ensures Reported(AfterAll(v, events).conditions) == LastVerdict(Reported(v.conditions), events)
    decreases |events|
  {
    hide Effect, LastObserved;
    if events != [] {
      if events[0].Apply? {
        SucceededSays(v, events[0].setter);
      }
      SucceededTellsLast(After(v, events[0]), events[1..]);
    }
  }

  // ----- what the list is after a resource was found missing in SM

  /** The lone condition the reconcilers write then. */
  function Lost(v: View): View {
    v.(ready := false, conditions := [Condition(Ready, false, NotFound, v.gen)])
  }

  lemma SetFirst(cs: List, c: Condition)
    requires cs != []
    ensures Set(cs, c) != [] && Set(cs, c)[0].kind == cs[0].kind
  {
  }

  lemma RemoveFirst(cs: List, kind: Type)
    requires cs != [] && cs[0].kind != kind
    ensures Remove(cs, kind) != [] && Remove(cs, kind)[0] == cs[0]
  {
  }

  lemma LostSticks(v: View, setter: Setter)
    requires v.conditions != [] && v.conditions[0].kind == Ready
    ensures Effect(v, setter).conditions != [] && Effect(v, setter).conditions[0].kind == Ready
  {
    var cs := v.conditions;
    RemoveFirst(cs, Failed);
    RemoveFirst(cs, Shared);
    RemoveFirst(cs, CredRotation);
    forall l: List, s: Condition, r: Condition | l != [] && l[0].kind == Ready && s.kind == Succeeded && r.kind == Ready
      ensures Both(l, s, r) != [] && Both(l, s, r)[0].kind == Ready
    {
      SetFirst(l, s);
      SetFirst(Set(l, s), r);
    }
    hide Both, LastObserved;
    match setter
    case Share(shared) =>
      var aligned := Aligned(cs, v.gen);
      RemoveFirst(aligned, Shared);
      SetFirst(Remove(aligned, Shared), Condition(Shared, shared, Other("share"), 0));
    case Rotate(reason) => SetFirst(cs, Condition(CredRotation, true, reason, v.gen));
    case PendTermination => SetFirst(cs, Condition(PendingTermination, true, Other("pending"), v.gen));
    case _ =>
  }

  /** After that reset no setter ever brings Succeeded back to the first place: the shape is lost for good. */
  lemma {:induction false} LostForGood(v: View, events: seq<Event>)
    requires v.conditions != [] && v.conditions[0].kind == Ready
    ensures !Shaped(AfterAll(v, events).conditions)
    decreases |events|
  {
    hide Effect;
    if events != [] {
      if events[0].Apply? {
        LostSticks(v, events[0].setter);
      }
      LostForGood(After(v, events[0]), events[1..]);
    }
  }
}
