/** Every action that Trusted allows keeps the truth of Succeeded. */
module InstanceTruth {
  import opened Options
  import opened Remote
  import opened InstanceWorld
  import opened InstanceReconciler
  import opened InstanceInvariant
  import opened InstanceSteps
  import opened InstanceSafety
  import opened InstanceSpecs

  lemma PollCallTrue(w: World, p: Proc, ch: Choice)
    requires At(w, p) && w.proc == Some(p) && StoredTrue(w) && PcTrue(w, p) && Trusted(w, p, ch)
    requires p.pc.Connect? || p.pc.PollStatus? || p.pc.PollFetch? || p.pc.PollRemoveFinalizer? || p.pc.CleanupCall? || p.pc.DirectSave?
          || p.pc.DeleteQuery? || p.pc.DeleteCall? || p.pc.DeleteSave? || p.pc.DeleteRemoveFinalizer? || p.pc.Save?
    ensures Claims(Advance(w, ch))
  {
    hide Claims, StoredTrue, PcTrue, OpCurrent, At, AdvanceConnect, AdvancePollStatus, AdvancePollFetch, AdvancePollRemoveFinalizer,
         AdvanceCleanup, WriteStatus, AdvanceDeleteQuery, AdvanceDeleteCall, AdvanceDeleteRemoveFinalizer;
    match p.pc
    case Connect => ConnectTrue(w, p, ch);
    case PollStatus => PollTrue(w, p, ch);
    case PollFetch => PollFetchTrue(w, p, ch);
    case PollRemoveFinalizer => PollRemoveTrue(w, p, ch);
    case CleanupCall => CleanupCallTrue(w, p, ch);
    case DeleteQuery => DeleteQueryTrue(w, p, ch);
    case DeleteCall => DeleteCallTrue(w, p, ch);
    case DeleteRemoveFinalizer => DeleteRemoveTrue(w, p, ch);
    case _ => SavesTrue(w, p, ch);
  }

  lemma CallTrue(w: World, p: Proc, ch: Choice)
    requires At(w, p) && w.proc == Some(p) && StoredTrue(w) && PcTrue(w, p) && Trusted(w, p, ch)
    ensures Claims(Advance(w, ch))
  {
    hide Claims, StoredTrue, PcTrue, At, FoundCurrent, Trusted, AdvanceCheckExists, AdvanceInit, AdvanceAddFinalizer, AdvanceQuery,
         AdvanceBuild, AdvanceProvision, AdvanceUpdate, AdvanceShare, WriteStatus, AdvanceConnect, AdvancePollStatus,
         AdvancePollFetch, AdvancePollRemoveFinalizer, AdvanceCleanup, AdvanceDeleteQuery, AdvanceDeleteCall,
         AdvanceDeleteRemoveFinalizer;
    match p.pc
    case CheckExists => CheckExistsTrue(w, p, ch);
    case InitConditions => InitTrue(w, p, ch);
    case AddFinalizer => AddFinalizerTrue(w, p, ch);
    case Query => QueryTrue(w, p, ch) by { if Unchanged(w, p.c) { TrustedQuery(w, p, ch); } }
    case Build => BuildTrue(w, p, ch);
    case Provision => ProvisionCallTrue(w, p, ch);
    case UpdateCall => UpdateCallTrue(w, p, ch);
    case ShareCall => ShareCallTrue(w, p, ch);
    case _ => PollCallTrue(w, p, ch);
  }

  lemma TrustedQuery(w: World, p: Proc, ch: Choice)
    requires Trusted(w, p, ch) && p.pc == Query && Unchanged(w, p.c)
    ensures FoundCurrent(w, p.c)
  {
  }

  lemma FinishTruth(w: World, i: Id, good: bool, o: Instance, s: Status)
    requires SmOk(w) && Truth(w, o, s)
    ensures Truth(SmFinish(w, i, good), o, s)
  {
  }

  lemma OperateTrue(w: World, i: Id, good: bool)
    requires SmOk(w) && Claims(w)
    ensures Claims(SmFinish(w, i, good))
  {
    if w.obj.Some? {
      FinishTruth(w, i, good, w.obj.value, w.obj.value.status);
    }
    if w.proc.Some? && w.proc.value.pc.Save? && Unchanged(w, w.proc.value.c) {
      FinishTruth(w, i, good, w.proc.value.c, w.proc.value.c.status);
    }
    hide Truth, SmOk;
  }

  lemma UserTrue(w: World, a: Action)
    requires Inv(w) && Claims(w) && (a.UserCreate? || a.UserEdit? || a.UserDelete? || a.Wake? || a.OldRelease?)
    ensures Claims(Step(w, a))
  {
    InvAt(w);
    UserOk(w, a);
    UserStored(w, a);
    if w.proc.Some? {
      var p := w.proc.value;
      AtCore(w, p);
      UserCore(w, a, p.c, p.base);
      if p.pc.Save? && Unchanged(Step(w, a), p.c) {
        TruthApart(w, Step(w, a), p.c, p.c.status);
      }
    }
    hide Step, Truth, StoredTrue, Inv;
  }

  lemma UserStored(w: World, a: Action)
    requires ObjOk(w) && StoredTrue(w) && (a.UserCreate? || a.UserEdit? || a.UserDelete? || a.Wake? || a.OldRelease?)
    ensures StoredTrue(Step(w, a))
  {
    hide StatusShape;
  }

  lemma StepTrue(w: World, a: Action)
    requires Inv(w) && Claims(w) && Allowed(w, a)
    ensures Claims(Step(w, a))
  {
    hide Inv, At, SmOk, ObjOk, Advance, SmFinish, StoredTrue, PcTrue, Trusted;
    InvAt(w);
    match a
    case Start => if w.obj.Some? && w.proc.None? { GoTrue(w, w.obj.value, w.obj.value.status, Connect) by { PcOfConnect(w, w.obj.value); } }
    case Call(ch) => if w.proc.Some? { CallTrue(w, w.proc.value, ch); }
    case Crash => StopTrue(w);
    case Operate(i, good) => OperateTrue(w, i, good);
    case _ => UserTrue(w, a);
  }

  lemma PcOfConnect(w: World, o: Instance)
    ensures PcTrue(w, Proc(o, o.status, Connect))
  {
  }
}
