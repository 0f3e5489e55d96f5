/** What the instance protocol guarantees over every run, with no hypothesis on users, crashes or answers. */
module InstanceSafety {
  import opened Options
  import opened Remote
  import opened InstanceWorld
  import opened InstanceReconciler
  import opened InstanceInvariant
  import opened InstanceSteps

  // ----- every action keeps the invariant

  lemma PollCallOk(w: World, p: Proc, ch: Choice)
    requires At(w, p) && w.proc == Some(p)
    requires p.pc.Connect? || p.pc.PollStatus? || p.pc.PollFetch? || p.pc.PollRemoveFinalizer? || p.pc.CleanupCall? || p.pc.DirectSave?
          || p.pc.DeleteQuery? || p.pc.DeleteCall? || p.pc.DeleteSave? || p.pc.DeleteRemoveFinalizer?
    ensures Inv(Advance(w, ch))
  {
    hide Inv, At, AdvanceConnect, AdvancePollStatus, AdvancePollFetch, AdvancePollRemoveFinalizer, AdvanceCleanup, WriteStatus,
         AdvanceDeleteQuery, AdvanceDeleteCall, AdvanceDeleteRemoveFinalizer;
    match p.pc
    case Connect => ConnectOk(w, p, ch);
    case PollStatus => PollStatusOk(w, p, ch);
    case PollFetch => PollFetchOk(w, p, ch);
    case PollRemoveFinalizer => PollRemoveFinalizerOk(w, p, ch);
    case CleanupCall => CleanupOk(w, p, ch);
    case DirectSave => DirectSaveOk(w, p, ch);
    case DeleteQuery => DeleteQueryOk(w, p, ch);
    case DeleteCall => DeleteCallOk(w, p, ch);
    case DeleteSave => DeleteSaveOk(w, p, ch);
    case DeleteRemoveFinalizer => DeleteRemoveFinalizerOk(w, p, ch);
  }

  lemma CallOk(w: World, p: Proc, ch: Choice)
    requires At(w, p) && w.proc == Some(p)
    ensures Inv(Advance(w, ch))
  {
    hide Inv, At, AdvanceCheckExists, AdvanceInit, AdvanceAddFinalizer, AdvanceQuery, AdvanceBuild, AdvanceProvision, AdvanceUpdate,
         AdvanceShare, WriteStatus, AdvanceConnect, AdvancePollStatus, AdvancePollFetch, AdvancePollRemoveFinalizer, AdvanceCleanup,
         AdvanceDeleteQuery, AdvanceDeleteCall, AdvanceDeleteRemoveFinalizer;
    match p.pc
    case CheckExists => CheckExistsOk(w, p, ch);
    case InitConditions => InitOk(w, p, ch);
    case AddFinalizer => AddFinalizerOk(w, p, ch);
    case Query => QueryOk(w, p, ch);
    case Build => BuildOk(w, p, ch);
    case Provision => ProvisionOk(w, p, ch);
    case UpdateCall => UpdateOk(w, p, ch);
    case ShareCall => ShareOk(w, p, ch);
    case Save => SaveOk(w, p, ch);
    case _ => PollCallOk(w, p, ch);
  }

  lemma InvAt(w: World)
    requires Inv(w)
    ensures SmOk(w) && ObjOk(w) && (w.proc.Some? ==> At(w, w.proc.value))
  {
    hide SmOk, ObjOk, CoreOk, PcOk;
  }

  lemma AtCore(w: World, p: Proc)
    requires At(w, p)
    ensures CoreOk(w, p.c, p.base) && ObjOk(w)
  {
    hide SmOk, ObjOk, CoreOk, PcOk;
  }

  lemma BeginOk(w: World)
    requires SmOk(w) && ObjOk(w) && w.obj.Some?
    ensures Inv(Begin(w))
  {
    var o := w.obj.value;
    assert CoreOk(w, o, o.status);
    assert o.deleting ==> o.finalizer;
    hide SmOk, ObjOk, CoreOk, Inv, Go;
    SteadyFrom(w, o, o.status);
    GoOk(w, o, o.status, Connect);
  }

  /** Writes of others leave what the reconcile knows, because its copy is then out of date. */
  lemma PcApart(w: World, w1: World, p: Proc)
    requires PcOk(w, p) && w1.insts == w.insts && w1.ops == w.ops && w1.nextId == w.nextId
    requires Unchanged(w1, p.c) ==> Unchanged(w, p.c)
    ensures PcOk(w1, p)
  {
    hide StatusShape;
  }

  lemma UserApart(w: World, a: Action)
    requires a.UserCreate? || a.UserEdit? || a.UserDelete? || a.Wake? || a.OldRelease?
    ensures Step(w, a).insts == w.insts && Step(w, a).ops == w.ops && Step(w, a).nextId == w.nextId && Step(w, a).proc == w.proc
  {
    hide Advance;
  }

  lemma SmApart(w: World, w1: World)
    requires SmOk(w) && w1.insts == w.insts && w1.ops == w.ops && w1.nextId == w.nextId
    ensures SmOk(w1)
  {
  }

  lemma UserObj(w: World, a: Action)
    requires ObjOk(w) && (a.UserCreate? || a.UserEdit? || a.UserDelete? || a.Wake? || a.OldRelease?)
    ensures ObjOk(Step(w, a))
  {
    hide Advance, Begin, SmFinish;
  }

  lemma UserOk(w: World, a: Action)
    requires SmOk(w) && ObjOk(w) && (a.UserCreate? || a.UserEdit? || a.UserDelete? || a.Wake? || a.OldRelease?)
    ensures SmOk(Step(w, a)) && ObjOk(Step(w, a))
    ensures Step(w, a).insts == w.insts && Step(w, a).ops == w.ops && Step(w, a).nextId == w.nextId && Step(w, a).proc == w.proc
  {
    hide SmOk, ObjOk, Step;
    UserApart(w, a);
    UserObj(w, a);
    SmApart(w, Step(w, a));
  }

  lemma UserCore(w: World, a: Action, c: Instance, base: Status)
    requires ObjOk(w) && CoreOk(w, c, base) && (a.UserCreate? || a.UserEdit? || a.UserDelete? || a.Wake? || a.OldRelease?)
    ensures CoreOk(Step(w, a), c, base) && (Unchanged(Step(w, a), c) ==> Unchanged(w, c))
  {
    hide StatusShape;
  }

  lemma UserActionOk(w: World, a: Action)
    requires Inv(w) && (a.UserCreate? || a.UserEdit? || a.UserDelete? || a.Wake? || a.OldRelease?)
    ensures Inv(Step(w, a))
  {
    InvAt(w);
    UserOk(w, a);
    if w.proc.Some? {
      var p := w.proc.value;
      UserCore(w, a, p.c, p.base);
      hide Step, SmOk, ObjOk, CoreOk;
      PcApart(w, Step(w, a), p);
    }
  }

  lemma FinishSm(w: World, i: Id, good: bool)
    requires SmOk(w) && ObjOk(w)
    ensures SmOk(SmFinish(w, i, good)) && ObjOk(SmFinish(w, i, good))
  {
    hide StatusShape;
  }

  lemma FinishCore(w: World, i: Id, good: bool, c: Instance, base: Status)
    requires SmOk(w) && CoreOk(w, c, base)
    ensures CoreOk(SmFinish(w, i, good), c, base)
  {
    hide StatusShape;
  }

  lemma FinishPc(w: World, i: Id, good: bool, p: Proc)
    requires PcOk(w, p)
    ensures PcOk(SmFinish(w, i, good), p)
  {
    hide StatusShape;
  }

  lemma OperateOk(w: World, i: Id, good: bool)
    requires Inv(w)
    ensures Inv(SmFinish(w, i, good))
  {
    InvAt(w);
    FinishSm(w, i, good);
    if w.proc.Some? {
      FinishCore(w, i, good, w.proc.value.c, w.proc.value.base);
      FinishPc(w, i, good, w.proc.value);
    }
    hide SmOk, ObjOk, CoreOk, PcOk;
  }

  lemma StepKeeps(w: World, a: Action)
    requires Inv(w)
    ensures Inv(Step(w, a))
  {
    hide Inv, At, Advance, Begin, SmFinish, Stop;
    InvAt(w);
    match a
    case Start => if w.obj.Some? { BeginOk(w); }
    case Call(ch) => if w.proc.Some? { CallOk(w, w.proc.value, ch); }
    case Crash => StopOk(w);
    case Operate(i, good) => OperateOk(w, i, good);
    case _ => UserActionOk(w, a);
  }

  ghost function Run(w: World, actions: seq<Action>): World
    decreases |actions|
  {
    if actions == [] then w else Run(Step(w, actions[0]), actions[1..])
  }

  predicate Initial(w: World) {
    w.obj.None? && w.insts == map[] && w.ops == map[] && w.proc.None?
  }

  const NOWHERE := World(None, map[], map[], None, 0, 0)

  lemma {:induction false} RunKeeps(w: World, actions: seq<Action>)
    requires Inv(w)
    ensures Inv(Run(w, actions))
    decreases |actions|
  {
    hide Inv, Step;
    if actions != [] {
      StepKeeps(w, actions[0]);
      RunKeeps(Step(w, actions[0]), actions[1..]);
    }
  }

  ghost predicate Reachable(w: World) {
    exists w0, actions :: Initial(w0) && w == Run(w0, actions)
  }

  lemma ReachableInv(w: World)
    requires Reachable(w)
    ensures Inv(w) && SmOk(w) && ObjOk(w)
  {
    var w0, actions :| Initial(w0) && w == Run(w0, actions);
    assert Inv(w0);
    hide Inv, Run;
    RunKeeps(w0, actions);
    InvAt(w);
  }

  lemma {:induction false} RunThen(w: World, actions: seq<Action>, a: Action)
    ensures Run(w, actions + [a]) == Step(Run(w, actions), a)
    decreases |actions|
  {
    hide Step;
    if actions == [] {
      assert [] + [a] == [a] && [a][1..] == [];
    } else {
      assert (actions + [a])[1..] == actions[1..] + [a];
      RunThen(Step(w, actions[0]), actions[1..], a);
    }
  }

  lemma ReachableStep(w: World, a: Action)
    requires Reachable(w)
    ensures Reachable(Step(w, a))
  {
    hide Step, Run;
    var w0, actions :| Initial(w0) && w == Run(w0, actions);
    RunThen(w0, actions, a);
  }

  // ----- the guarantees

  /** SM never holds two instances for one name, whatever was lost or crashed in between. */
  lemma AtMostOne(w: World, i: Id, j: Id)
    requires Reachable(w) && i in w.insts && j in w.insts
    ensures i == j
  {
    hide Reachable, ObjOk, Inv;
    ReachableInv(w);
  }

  /** No orphan: what SM holds belongs to a resource that carries the finalizer and knows it, or has no id and would list it. */
  lemma NoOrphan(w: World, i: Id)
    requires Reachable(w) && i in w.insts
    ensures w.obj.Some? && w.obj.value.finalizer
    ensures w.obj.value.status.id == Some(i) || (w.obj.value.status.id.None? && Listed(w) == Some(i))
  {
    hide Reachable, Inv;
    ReachableInv(w);
  }

  /** The finalizer only ever goes, and with it the resource, when SM holds nothing. */
  lemma FinalizerReleased(w: World, a: Action)
    requires Inv(w) && w.obj.Some? && w.obj.value.finalizer
    requires Step(w, a).obj.None? || !Step(w, a).obj.value.finalizer
    ensures Vacant(w)
  {
    StepKeeps(w, a);
    InvAt(Step(w, a));
    assert Vacant(Step(w, a)) by { hide Step, SmOk, Inv; }
    hide Inv, SmOk;
    InvAt(w);
    if a.Call? && w.proc.Some? {
      ReleasingCalls(w, a.ch);
    }
  }

  /** A call that writes metadata or status leaves SM alone. */
  lemma ReleasingCalls(w: World, ch: Choice)
    requires w.proc.Some?
    ensures Advance(w, ch).obj == w.obj || Advance(w, ch).insts == w.insts
  {
    hide AdvanceCheckExists, AdvanceInit, AdvanceAddFinalizer, AdvanceQuery, AdvanceBuild, AdvanceProvision, AdvanceUpdate,
         AdvanceShare, WriteStatus, AdvanceConnect, AdvancePollStatus, AdvancePollFetch, AdvancePollRemoveFinalizer, AdvanceCleanup,
         AdvanceDeleteQuery, AdvanceDeleteCall, AdvanceDeleteRemoveFinalizer;
  }

  /** The operation slot: URL and type come and go together and address the instance's own id. */
  lemma OneSlot(w: World)
    requires Reachable(w) && w.obj.Some?
    ensures var s := w.obj.value.status;
      && (s.opUrl.Some? <==> s.opType.Some?)
      && (s.opUrl.Some? ==> s.opType == Some(s.opUrl.value.kind) && s.opUrl.value.op in w.ops)
      && (s.opUrl.Some? && !w.obj.value.deleting ==> s.id == Some(s.opUrl.value.resource))
  {
    hide Reachable, Inv, SmOk;
    ReachableInv(w);
  }

  /** The calls that change SM. */
  predicate MutatesSm(pc: Pc) {
    pc.CleanupCall? || pc.DeleteCall? || pc.Provision? || pc.UpdateCall? || pc.ShareCall?
  }

  /** While an operation runs on an instance that is not being deleted, the reconcile can only clean up that instance after its failure. */
  lemma SlotExclusive(w: World)
    requires Reachable(w) && w.proc.Some? && MutatesSm(w.proc.value.pc)
    requires Current(w, w.proc.value.c) && w.obj.value.status.opUrl.Some? && !w.obj.value.deleting
    ensures var url := w.obj.value.status.opUrl.value;
      && w.proc.value.pc == CleanupCall && w.proc.value.c.status.id == Some(url.resource)
      && (url.resource in w.insts ==> url.op in w.ops && w.ops[url.op].state == Bad)
  {
    hide Reachable, SmOk, Inv;
    ReachableInv(w);
    InvAt(w);
    var p := w.proc.value;
    assert CoreOk(w, p.c, p.base) && PcOk(w, p) && ObjOk(w);
  }

  /** The observed generation never exceeds the object's, and is always that of the Succeeded condition. */
  lemma ObservedGeneration(w: World)
    requires Reachable(w) && w.obj.Some?
    ensures w.obj.value.status.observed == w.obj.value.status.LastObserved() <= w.obj.value.gen
  {
    hide Reachable, Inv, SmOk;
    ReachableInv(w);
  }
}
