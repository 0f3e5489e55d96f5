/** Every action that the hypotheses allow keeps the invariant, and so does every run of them. */
module BindingRuns {
  import opened Options
  import opened Remote
  import opened BindingWorld
  import opened BindingReconciler
  import opened BindingInvariant
  import opened BindingRely
  import opened BindingEffects
  import opened BindingSmEffects
  import opened BindingSteps
  import opened BindingPolls
  import opened BindingRotations

  // ----- the hypotheses

  /** Nothing is called `x` yet, in either store or in the plans of a rotation. */
  ghost predicate FreshName(w: World, x: Name) {
    x !in w.bindings && Nameless(w.sm, x) && forall m :: m in w.procs ==> PlanName(m, w.procs[m].pc) != Some(x)
  }

  /** A backup may go once its original has moved on, and only through its finalizer while SM holds its binding. */
  ghost predicate Disposable(w: World, m: Name) {
    m in w.bindings && w.bindings[m].stale.Some? ==>
      && Retired(w.bindings, w.secrets, w.bindings[m].orig.GetOr(""), w.bindings[m].stale.value)
      && (w.bindings[m].finalizer || Nameless(w.sm, m))
  }

  /** The time to live of a backup outlasts the write that clears the id of its original. */
  predicate OutlivesClearing(bs: Bindings, p: Proc) {
    p.pc == FetchOriginal && p.c.orig.Some? && p.c.orig.value in bs && bs[p.c.orig.value].status.readyCond == Some(true) ==>
      bs[p.c.orig.value].status.id != p.c.stale
  }

  ghost predicate AllowedCall(w: World, n: Name, ch: Choice)
    requires n in w.procs
  {
    var p := w.procs[n];
    && (Bypasses(p, ch) ==> Nameless(w.sm, n))
    && (p.pc == RotateList ==> FreshName(w, n + ch.suffix))
    && OutlivesClearing(w.bindings, p)
  }

  ghost predicate Allowed(w: World, a: Action) {
    match a
    case Call(n, ch) => n in w.procs ==> AllowedCall(w, n, ch)
    case UserCreate(n, _, _) => n !in w.bindings ==> FreshName(w, n)
    case UserDelete(n) => Disposable(w, n)
    case Collect(n) => Disposable(w, n)
    case _ => true
  }

  // ----- reconciles

  lemma BeginCore(w: World, n: Name)
    requires Bounded(w) && ShapesOk(w.bindings) && FinalizersOk(w.bindings, w.sm, w.secrets) && n in w.bindings
    ensures CoreOk(w, n, w.bindings[n], w.bindings[n].status)
    ensures w.bindings[n].deleting ==> w.bindings[n].finalizer
  {
    var c := w.bindings[n];
    assert c.status.id.Some? ==> Holds(w.bindings, n, c.status.id.value);
  }

  lemma SteadyAll(w: World, n: Name)
    requires Inv(w)
    ensures Steady(w, n)
    ensures Bounded(w) && ShapesOk(w.bindings) && FinalizersOk(w.bindings, w.sm, w.secrets)
  {
    hide ProcOk, PlansOk, Bounded, ShapesOk, OneName, NamesOk, OriginalsOk, OneHolder, OnlyHeld, OneBackup, ReadyOk, SecretsOk,
         FinalizersOk, LeftoversOk, Tracked, AskedOk, BackupsMatch, BackupsRetired;
  }

  lemma StartOk(w: World, n: Name)
    requires Inv(w) && n in w.bindings && n !in w.procs
    ensures Inv(Begin(w, n))
  {
    hide Inv, Steady, Bounded, ShapesOk, FinalizersOk, CoreOk, Go;
    SteadyAll(w, n);
    BeginCore(w, n);
    var c := w.bindings[n];
    GoOn(w, n, c, c.status, if c.status.HasConditions() then FetchInstance else InitConditions);
  }

  lemma CrashOk(w: World, n: Name)
    requires Inv(w)
    ensures Inv(Stop(w, n))
  {
    hide Inv, Steady, Bounded, ShapesOk, FinalizersOk;
    SteadyAll(w, n);
    SteadyStop(w, n);
  }

  lemma SuffixApart(w: World, n: Name, s: string)
    requires FreshName(w, n + s)
    ensures PlanApart(w.procs, n, RenameFirst(s))
  {
  }

  lemma RotateListAllowed(w: World, n: Name, p: Proc, ch: Choice)
    requires At(w, n, p) && p.pc == RotateList && FreshName(w, n + ch.suffix)
    ensures Inv(AdvanceRotateList(w, n, p, ch))
  {
    hide Inv, At, PlanApart;
    SuffixApart(w, n, ch.suffix);
    RotateListOk(w, n, p, ch);
  }

  /** Polling and deletion. */
  lemma PollCallOk(w: World, n: Name, p: Proc, ch: Choice)
    requires At(w, n, p) && (Bypasses(p, ch) ==> Nameless(w.sm, n))
    requires p.pc.InitConditions? || p.pc.FetchInstance? || p.pc.PollStatus? || p.pc.PollProbe? || p.pc.PollFetch?
          || p.pc.PollStore? || p.pc.PollDropSecret? || p.pc.PollRemoveFinalizer? || p.pc.CleanupUnbind?
    ensures n in w.procs && Inv(Advance(w, n, ch))
  {
    hide Inv, Bypasses, Nameless, AdvanceInit, AdvanceFetchInstance, AdvancePollStatus, AdvancePollProbe, AdvancePollFetch,
         AdvanceStore, AdvanceDropSecret, AdvancePollRemoveFinalizer, AdvanceCleanup;
    match p.pc
    case InitConditions => InitOk(w, n, p, ch);
    case FetchInstance => FetchInstanceOk(w, n, p, ch);
    case PollStatus => PollStatusOk(w, n, p, ch);
    case PollProbe => PollProbeOk(w, n, p, ch);
    case PollFetch => PollFetchOk(w, n, p, ch);
    case PollStore => PollStoreOk(w, n, p, ch);
    case PollDropSecret => PollDropOk(w, n, p, ch);
    case PollRemoveFinalizer => PollRemoveFinalizerOk(w, n, p, ch);
    case CleanupUnbind => CleanupOk(w, n, p, ch);
  }

  lemma DeleteCallOk(w: World, n: Name, p: Proc, ch: Choice)
    requires At(w, n, p)
    requires p.pc.DeleteQuery? || p.pc.DeleteUnbind? || p.pc.DeleteSave? || p.pc.DeleteDropSecret? || p.pc.DeleteRemoveFinalizer?
          || p.pc.DeleteSelf? || p.pc.Save?
    ensures n in w.procs && Inv(Advance(w, n, ch))
  {
    hide Inv, AdvanceDropSecret, AdvanceDeleteQuery, AdvanceDeleteUnbind, AdvanceDeleteRemoveFinalizer, WriteStatus,
         AdvanceDeleteSelf;
    match p.pc
    case DeleteQuery => DeleteQueryOk(w, n, p, ch);
    case DeleteUnbind => DeleteUnbindOk(w, n, p, ch);
    case DeleteSave => DeleteSaveOk(w, n, p, ch);
    case DeleteDropSecret => DeleteDropOk(w, n, p, ch);
    case DeleteRemoveFinalizer => DeleteRemoveFinalizerOk(w, n, p, ch);
    case DeleteSelf => DeleteSelfOk(w, n, p, ch);
    case Save => SaveOk(w, n, p, ch);
  }

  lemma RotateCallOk(w: World, n: Name, p: Proc, ch: Choice)
    requires At(w, n, p) && (p.pc == RotateList ==> FreshName(w, n + ch.suffix))
    requires p.pc.RotateAnnotation? || p.pc.RotateList? || p.pc.RenameFirst? || p.pc.RenameSecond? || p.pc.CreateBackup?
          || p.pc.RotateSave?
    ensures n in w.procs && Inv(Advance(w, n, ch))
  {
    hide Inv, FreshName, AdvanceRotateAnnotation, AdvanceRotateList, AdvanceRenameFirst, AdvanceRenameSecond,
         AdvanceCreateBackup, WriteStatus;
    match p.pc
    case RotateAnnotation => RotateAnnotationOk(w, n, p, ch);
    case RotateList => RotateListAllowed(w, n, p, ch);
    case RenameFirst(s) => RenameFirstOk(w, n, p, ch, s);
    case RenameSecond(s) => RenameSecondOk(w, n, p, ch, s);
    case CreateBackup(s) => CreateBackupOk(w, n, p, ch, s);
    case RotateSave => RotateSaveOk(w, n, p, ch);
  }

  lemma CreateCallOk(w: World, n: Name, p: Proc, ch: Choice)
    requires At(w, n, p) && OutlivesClearing(w.bindings, p)
    requires p.pc.CheckExists? || p.pc.AddFinalizer? || p.pc.ReadyCheck? || p.pc.FetchOriginal? || p.pc.Maintain?
          || p.pc.MaintainStore? || p.pc.Query? || p.pc.RecoverStore? || p.pc.Bind? || p.pc.BindStore?
    ensures n in w.procs && Inv(Advance(w, n, ch))
  {
    hide Inv, AdvanceCheckExists, AdvanceAddFinalizer, AdvanceReadyCheck, AdvanceFetchOriginal, AdvanceMaintain,
         AdvanceStore, AdvanceQuery, AdvanceBind;
    match p.pc
    case CheckExists => CheckExistsOk(w, n, p, ch);
    case AddFinalizer => AddFinalizerOk(w, n, p, ch);
    case ReadyCheck => ReadyCheckOk(w, n, p, ch);
    case FetchOriginal => FetchOriginalOk(w, n, p, ch);
    case Maintain => MaintainOk(w, n, p, ch);
    case MaintainStore => MaintainStoreOk(w, n, p, ch);
    case Query => QueryOk(w, n, p, ch);
    case RecoverStore(b, seen) => RecoverStoreOk(w, n, p, ch, b, seen);
    case Bind => BindOk(w, n, p, ch);
    case BindStore(b) => BindStoreOk(w, n, p, ch, b);
  }

  lemma CallOk(w: World, n: Name, ch: Choice)
    requires Inv(w) && n in w.procs && AllowedCall(w, n, ch)
    ensures Inv(Advance(w, n, ch))
  {
    hide Inv, Advance, Bypasses, Nameless, FreshName, OutlivesClearing;
    var p := w.procs[n];
    match p.pc
    case InitConditions | FetchInstance | PollStatus | PollProbe | PollFetch | PollStore | PollDropSecret
       | PollRemoveFinalizer | CleanupUnbind => PollCallOk(w, n, p, ch);
    case DeleteQuery | DeleteUnbind | DeleteSave | DeleteDropSecret | DeleteRemoveFinalizer | DeleteSelf | Save =>
      DeleteCallOk(w, n, p, ch);
    case RotateAnnotation | RotateList | RenameFirst(_) | RenameSecond(_) | CreateBackup(_) | RotateSave =>
      RotateCallOk(w, n, p, ch);
    case _ => CreateCallOk(w, n, p, ch);
  }

  // ----- users, garbage collection and SM

  lemma AllUndisturbed(w: World, w1: World)
    requires Inv(w) && w1.procs == w.procs && Global(w1)
    requires forall m :: m in w.procs ==> Rely(w, w1, m, w.procs[m].pc)
    ensures Inv(w1)
  {
    hide ProcOk, Rely, Bounded, ShapesOk, OneName, NamesOk, OriginalsOk, OneHolder, OnlyHeld, OneBackup, ReadyOk, SecretsOk,
         FinalizersOk, LeftoversOk, Tracked, AskedOk, BackupsMatch, BackupsRetired, PlansOk;
    UidsBounded(w);
    forall m | m in w.procs
      ensures ProcOk(w1, m, w.procs[m])
    {
      RelyKeeps(w, w1, m, w.procs[m]);
    }
  }

  lemma InvGlobal(w: World)
    requires Inv(w)
    ensures Global(w) && Bounded(w) && ShapesOk(w.bindings) && FinalizersOk(w.bindings, w.sm, w.secrets)
    ensures forall m :: m in w.procs ==> PlanFree(w.bindings, m, w.procs[m].pc)
  {
    hide Global, PlanFree, ProcOk;
    SteadyAll(w, "");
    OthersFree(w, "");
  }

  lemma UserCreateOk(w: World, n: Name, externalName: string, policy: Option<bool>)
    requires Inv(w) && FreshName(w, n)
    ensures Inv(CreateObject(w, n, NewBinding(w, None, None, externalName, policy)))
  {
    hide Inv, Global, Bounded, ShapesOk, FinalizersOk, PlanFree, Rely, PlanName, Nameless;
    var o := NewBinding(w, None, None, externalName, policy);
    InvGlobal(w);
    Added(w, n, o);
    forall m | m in w.procs
      ensures Rely(w, CreateObject(w, n, o), m, w.procs[m].pc)
    {
      AdditionRelied(w, n, o, m, w.procs[m].pc);
    }
    AllUndisturbed(w, CreateObject(w, n, o));
  }

  lemma EditedOk(w: World, n: Name, o1: Binding)
    requires Inv(w) && MetaWrite(w, n, o1) && (w.bindings[n].finalizer ==> o1.finalizer)
    ensures Inv(Replaced(w, n, o1))
  {
    hide Inv, Global, Bounded, ShapesOk, FinalizersOk, PlanFree, Rely, Clear, Nameless, Retired;
    InvGlobal(w);
    MetaWritten(w, n, o1);
    AllUndisturbed(w, Replaced(w, n, o1));
  }

  /** A resource without a finalizer answers for nothing. */
  lemma Unguarded(w: World, n: Name)
    requires FinalizersOk(w.bindings, w.sm, w.secrets) && n in w.bindings && !w.bindings[n].finalizer
    ensures Clear(w.bindings, w.sm, w.secrets, n) && (w.bindings[n].stale.None? ==> Nameless(w.sm, n))
  {
  }

  lemma EditWrites(w: World, n: Name, policy: Option<bool>, forceRotate: bool)
    requires ShapesOk(w.bindings) && FinalizersOk(w.bindings, w.sm, w.secrets) && n in w.bindings
    requires w.bindings[n].stale.Some? ==> policy != Some(true) && (w.bindings[n].finalizer || !w.bindings[n].deleting)
    ensures MetaWrite(w, n, w.bindings[n].(policy := policy, forceRotate := forceRotate, rv := w.clock))
  {
    hide Clear, Nameless, Retired, StatusShape, BackupShape;
    if !w.bindings[n].finalizer {
      Unguarded(w, n);
    }
  }

  lemma UserEditOk(w: World, n: Name, policy: Option<bool>, forceRotate: bool)
    requires Inv(w)
    ensures Inv(Step(w, UserEdit(n, policy, forceRotate)))
  {
    hide Inv, Global, Bounded, FinalizersOk, MetaWrite, PlanFree, StatusShape, BackupShape;
    InvGlobal(w);
    if n in w.bindings && !(w.bindings[n].stale.Some? && policy == Some(true)) {
      EditWrites(w, n, policy, forceRotate);
      EditedOk(w, n, w.bindings[n].(policy := policy, forceRotate := forceRotate, rv := w.clock));
    }
  }

  lemma RemovedOk(w: World, n: Name)
    requires Inv(w) && n in w.bindings && !w.bindings[n].finalizer && Nameless(w.sm, n)
    requires w.bindings[n].stale.Some? ==>
               Retired(w.bindings, w.secrets, w.bindings[n].orig.GetOr(""), w.bindings[n].stale.value)
    ensures Inv(w.(bindings := w.bindings - {n}, clock := w.clock + 1))
  {
    hide Inv, Global, Bounded, ShapesOk, FinalizersOk, PlanFree, Rely, Clear, Nameless, Retired;
    InvGlobal(w);
    Unguarded(w, n);
    Removed(w, n);
    AllUndisturbed(w, w.(bindings := w.bindings - {n}, clock := w.clock + 1));
  }

  lemma MarkWrites(w: World, n: Name)
    requires ShapesOk(w.bindings) && n in w.bindings && w.bindings[n].finalizer && Disposable(w, n)
    ensures MetaWrite(w, n, w.bindings[n].(deleting := true, rv := w.clock))
  {
  }

  lemma DisposeOk(w: World, n: Name)
    requires Inv(w) && n in w.bindings && Disposable(w, n)
    ensures Inv(DeleteObject(w, n))
  {
    hide Inv, Global, Bounded, ShapesOk, FinalizersOk, PlanFree, MetaWrite, Clear, Nameless, Retired;
    InvGlobal(w);
    if w.bindings[n].finalizer {
      MarkWrites(w, n);
      EditedOk(w, n, w.bindings[n].(deleting := true, rv := w.clock));
    } else {
      Unguarded(w, n);
      RemovedOk(w, n);
    }
  }

  lemma UserDropSecretOk(w: World, n: Name)
    requires Inv(w)
    ensures Inv(DropSecret(w, n))
  {
    hide Inv, Global, Bounded, ShapesOk, FinalizersOk, PlanFree, Rely;
    InvGlobal(w);
    Dropped(w, n);
    AllUndisturbed(w, DropSecret(w, n));
  }

  lemma OperateOk(w: World, b: Id, good: bool)
    requires Inv(w)
    ensures Inv(SmFinish(w, b, good))
  {
    hide Inv, Global, Bounded, ShapesOk, FinalizersOk, PlanFree, Rely;
    if b in w.sm {
      InvGlobal(w);
      Operated(w, b, good);
      AllUndisturbed(w, SmFinish(w, b, good));
    }
  }

  /** Every allowed action keeps the invariant, whatever the outside world answers. */
  lemma StepKeeps(w: World, a: Action)
    requires Inv(w) && Allowed(w, a)
    ensures Inv(Step(w, a))
  {
    hide Inv, Advance, AllowedCall, FreshName, Disposable, Begin, Stop, CreateObject, DeleteObject, DropSecret, SmFinish;
    match a
    case Start(n) => if n in w.bindings && n !in w.procs { StartOk(w, n); }
    case Call(n, ch) => if n in w.procs { CallOk(w, n, ch); }
    case Crash(n) => CrashOk(w, n);
    case UserCreate(n, externalName, policy) => if n !in w.bindings { UserCreateOk(w, n, externalName, policy); }
    case UserEdit(n, policy, forceRotate) => UserEditOk(w, n, policy, forceRotate);
    case UserDelete(n) => if n in w.bindings { DisposeOk(w, n); }
    case UserDropSecret(n) => UserDropSecretOk(w, n);
    case Collect(n) => if n in w.bindings { DisposeOk(w, n); }
    case Operate(b, good) => OperateOk(w, b, good);
  }

  // ----- runs

  ghost function Run(w: World, actions: seq<Action>): World
    decreases |actions|
  {
    if actions == [] then w else Run(Step(w, actions[0]), actions[1..])
  }

  ghost predicate AllowedRun(w: World, actions: seq<Action>)
    decreases |actions|
  {
    actions == [] || (Allowed(w, actions[0]) && AllowedRun(Step(w, actions[0]), actions[1..]))
  }

  /** Both stores empty, no reconcile under way. */
  predicate Initial(w: World) {
    w.bindings == map[] && w.sm == map[] && w.secrets == map[] && w.procs == map[]
  }

  lemma InitialInv(w: World)
    requires Initial(w)
    ensures Inv(w)
  {
  }

  lemma {:induction false} RunKeeps(w: World, actions: seq<Action>)
    requires Inv(w) && AllowedRun(w, actions)
    ensures Inv(Run(w, actions))
    decreases |actions|
  {
    hide Inv, Step, Allowed;
    if actions != [] {
      StepKeeps(w, actions[0]);
      RunKeeps(Step(w, actions[0]), actions[1..]);
    }
  }

  /** From empty stores, every allowed run, with crashes and lost answers anywhere, ends in the invariant. */
  lemma Reached(w: World, actions: seq<Action>)
    requires Initial(w) && AllowedRun(w, actions)
    ensures Inv(Run(w, actions))
  {
    hide Inv, AllowedRun, Run;
    InitialInv(w);
    RunKeeps(w, actions);
  }

  /** `w` is the end of an allowed run from empty stores. */
  ghost predicate Reachable(w: World) {
    exists w0, actions :: Initial(w0) && AllowedRun(w0, actions) && w == Run(w0, actions)
  }

  lemma {:induction false} AllowedThen(w: World, actions: seq<Action>, a: Action)
    requires AllowedRun(w, actions) && Allowed(Run(w, actions), a)
    ensures AllowedRun(w, actions + [a]) && Run(w, actions + [a]) == Step(Run(w, actions), a)
    decreases |actions|
  {
    hide Step, Allowed;
    if actions == [] {
      assert [] + [a] == [a] && [a][1..] == [];
    } else {
      assert (actions + [a])[1..] == actions[1..] + [a];
      AllowedThen(Step(w, actions[0]), actions[1..], a);
    }
  }

  lemma ReachableStep(w: World, a: Action)
    requires Reachable(w) && Allowed(w, a)
    ensures Reachable(Step(w, a))
  {
    hide Step, Run, AllowedRun, Allowed;
    var w0, actions :| Initial(w0) && AllowedRun(w0, actions) && w == Run(w0, actions);
    AllowedThen(w0, actions, a);
  }

  lemma ReachableInv(w: World)
    requires Reachable(w)
    ensures Inv(w)
  {
    hide Inv, Run, AllowedRun;
    var w0, actions :| Initial(w0) && AllowedRun(w0, actions) && w == Run(w0, actions);
    Reached(w0, actions);
  }

  lemma ReachableInitially(w: World)
    requires Initial(w)
    ensures Reachable(w)
  {
    assert AllowedRun(w, []) && Run(w, []) == w;
  }
}
