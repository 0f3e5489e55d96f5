/** What the protocol of the binding controller guarantees over every run. */
module BindingSafety {
  import opened Options
  import opened Remote
  import opened BindingWorld
  import opened BindingReconciler
  import opened BindingInvariant
  import opened BindingEffects
  import opened BindingSteps
  import opened BindingPolls
  import opened BindingRotations
  import opened BindingRuns

  lemma ReachableGlobal(w: World)
    requires Reachable(w)
    ensures Global(w) && OneName(w.sm) && NamesOk(w.bindings, w.sm) && OneHolder(w.bindings) && BackupsMatch(w.bindings, w.sm)
    ensures OneBackup(w.bindings) && FinalizersOk(w.bindings, w.sm, w.secrets) && Tracked(w.bindings, w.sm)
    ensures SecretsOk(w.bindings, w.sm, w.secrets) && ShapesOk(w.bindings)
  {
    hide Inv, Reachable, Bounded, ShapesOk, OneName, NamesOk, OriginalsOk, OneHolder, OnlyHeld, OneBackup, ReadyOk, SecretsOk,
         FinalizersOk, LeftoversOk, Tracked, AskedOk, BackupsMatch, BackupsRetired;
    ReachableInv(w);
    InvGlobal(w);
  }

  /**
   Credential continuity: the secret of an original that is not being deleted shows credentials of an SM
   binding that was created for it and that nobody has asked SM to remove.
   */
  lemma CredentialContinuity(w: World, n: Name)
    requires Reachable(w) && Original(w.bindings, n) && !w.bindings[n].deleting && n in w.secrets
    ensures Live(w.sm, w.secrets[n]) && w.sm[w.secrets[n]].creator == n
  {
    hide Reachable, Live, Global;
    ReachableGlobal(w);
  }

  /** At most one SM binding per _k8sname, so a recovery query never finds two. */
  lemma AtMostOne(w: World, name: string, n: Name)
    requires Reachable(w)
    ensures |Matches(w, name, n)| <= 1
    ensures forall b1, b2 :: Named(w.sm, b1, n) && Named(w.sm, b2, n) ==> b1 == b2
  {
    hide Reachable, Global;
    ReachableGlobal(w);
    var found := Matches(w, name, n);
    if found != {} {
      var b :| b in found;
      assert Named(w.sm, b, n);
      assert forall b' :: b' in found ==> Named(w.sm, b', n);
      assert found == {b};
    }
  }

  lemma OnlyMatchOf(w: World, name: string, n: Name, b: Id)
    requires b in Matches(w, name, n) && forall b' :: b' in Matches(w, name, n) ==> b' == b
    ensures OnlyMatch(w, name, n) == Some(b)
  {
    assert Matches(w, name, n) == {b};
  }

  /** No orphan: every SM binding is some resource's id, or the one answer to the recovery query of a resource without id. */
  lemma NoOrphan(w: World, b: Id)
    requires Reachable(w) && b in w.sm
    ensures exists n :: n in w.bindings &&
              (w.bindings[n].status.id == Some(b)
               || (w.bindings[n].status.id.None? && OnlyMatch(w, w.bindings[n].externalName, n) == Some(b)))
  {
    hide Reachable, Global, OnlyMatch;
    ReachableGlobal(w);
    var n :| Keeps(w.bindings, w.sm, n, b);
    if w.bindings[n].status.id.None? {
      var name := w.bindings[n].externalName;
      assert Named(w.sm, b, n);
      assert forall b' :: b' in Matches(w, name, n) ==> Named(w.sm, b', n);
      OnlyMatchOf(w, name, n, b);
    }
  }

  /** A backup labelled with `b` is the only one, and SM shows `b` under exactly its names. */
  lemma BackupAgrees(w: World, m: Name, b: Id)
    requires Reachable(w) && Backs(w.bindings, m, b)
    ensures forall m' :: Backs(w.bindings, m', b) ==> m' == m
    ensures b in w.sm ==>
              && w.sm[b].name == w.bindings[m].externalName && w.sm[b].k8sName == Some(m)
              && w.bindings[m].orig == Some(w.sm[b].creator)
  {
    hide Reachable, Global;
    ReachableGlobal(w);
    if b in w.sm {
      assert Named(w.sm, b, m);
    }
  }

  /** Two originals never share an SM binding. */
  lemma NoSharing(w: World, n: Name, m: Name, b: Id)
    requires Reachable(w) && Original(w.bindings, n) && Original(w.bindings, m)
    requires Holds(w.bindings, n, b) && Holds(w.bindings, m, b)
    ensures n == m
  {
    hide Reachable, Global;
    ReachableGlobal(w);
  }

  // ----- finalizers

  predicate Guarded(bs: Bindings, m: Name) {
    m in bs && bs[m].finalizer
  }

  /** While SM holds a binding of an original, under its id or under its name, the original carries the finalizer. */
  lemma FinalizerWhileHeld(w: World, n: Name, b: Id)
    requires Reachable(w) && Original(w.bindings, n) && b in w.sm && (Holds(w.bindings, n, b) || Named(w.sm, b, n))
    ensures Guarded(w.bindings, n)
  {
    hide Reachable, Global;
    ReachableGlobal(w);
  }

  ghost predicate Guards(w: World, w1: World) {
    forall m :: Guarded(w.bindings, m) ==> Guarded(w1.bindings, m)
  }

  predicate ReleasesFinalizer(pc: Pc) {
    pc == PollRemoveFinalizer || pc == DeleteRemoveFinalizer
  }

  lemma WriteGuards(w: World, n: Name, p: Proc, ch: Choice, next: Option<Pc>)
    ensures Guards(w, WriteStatus(w, n, p, ch, next))
  {
  }

  lemma AnnotationGuards(w: World, n: Name, p: Proc, ch: Choice)
    requires p.c.finalizer
    ensures Guards(w, AdvanceRotateAnnotation(w, n, p, ch))
  {
  }

  lemma AddingGuards(w: World, n: Name, p: Proc, ch: Choice)
    ensures Guards(w, AdvanceAddFinalizer(w, n, p, ch))
  {
  }

  lemma BackupGuards(w: World, n: Name, p: Proc, ch: Choice, s: string)
    ensures Guards(w, AdvanceCreateBackup(w, n, p, ch, s))
  {
  }

  lemma DeleteGuards(w: World, n: Name, ch: Choice)
    ensures Guards(w, AdvanceDeleteSelf(w, n, ch))
  {
  }

  lemma CallsGuard(w: World, n: Name, ch: Choice)
    requires n in w.procs && !ReleasesFinalizer(w.procs[n].pc)
    requires w.procs[n].pc == RotateAnnotation ==> w.procs[n].c.finalizer
    ensures Guards(w, Advance(w, n, ch))
  {
    hide WriteStatus, AdvanceRotateAnnotation, AdvanceAddFinalizer, AdvanceCreateBackup, AdvanceDeleteSelf, AdvanceStore,
         AdvanceFetchInstance, AdvancePollStatus, AdvancePollProbe, AdvancePollFetch, AdvanceDropSecret, AdvanceCleanup,
         AdvanceDeleteQuery, AdvanceDeleteUnbind, AdvanceCheckExists, AdvanceRotateList, AdvanceRenameFirst,
         AdvanceRenameSecond, AdvanceReadyCheck, AdvanceFetchOriginal, AdvanceMaintain, AdvanceQuery, AdvanceBind,
         AdvancePollRemoveFinalizer, AdvanceDeleteRemoveFinalizer;
    var p := w.procs[n];
    match p.pc
    case InitConditions =>
      WriteGuards(w, n, p.(c := p.c.(status := p.c.status.(ready := false).Unsucceeded())), ch, Some(FetchInstance));
    case DeleteSave => WriteGuards(w, n, p, ch, Some(DeleteDropSecret));
    case RotateSave => WriteGuards(w, n, p, ch, Some(ReadyCheck));
    case Save => WriteGuards(w, n, p, ch, None);
    case AddFinalizer => AddingGuards(w, n, p, ch);
    case RotateAnnotation => AnnotationGuards(w, n, p, ch);
    case CreateBackup(s) => BackupGuards(w, n, p, ch, s);
    case DeleteSelf => DeleteGuards(w, n, ch);
    case _ =>
  }

  /** At the two calls that remove a finalizer, SM and the secret store are already clean. */
  lemma ReleaseIsClear(w: World, n: Name, p: Proc)
    requires At(w, n, p) && ReleasesFinalizer(p.pc) && p.c.finalizer
    ensures Clear(w.bindings, w.sm, w.secrets, n) && Nameless(w.sm, n)
  {
    hide Inv, Steady, At, StatusShape;
    AtSteady(w, n, p);
    SteadyHeld(w, n);
    if p.pc == PollRemoveFinalizer {
      HeldGone(w, n, p.c, p.base);
    }
  }

  lemma ReleaseGuardsOthers(w: World, n: Name, ch: Choice, m: Name)
    requires n in w.procs && ReleasesFinalizer(w.procs[n].pc)
    requires Guarded(w.bindings, m) && !Guarded(Advance(w, n, ch).bindings, m)
    ensures m == n && w.procs[n].c.finalizer
  {
  }

  lemma AnnotationFinalizer(w: World, n: Name)
    requires Inv(w) && n in w.procs && w.procs[n].pc == RotateAnnotation
    ensures w.procs[n].c.finalizer
  {
    hide Global, CoreOk;
  }

  /** A finalizer only ever goes, and with it the resource, when SM holds nothing of the resource and its secret is gone. */
  lemma FinalizerReleased(w: World, a: Action, m: Name)
    requires Inv(w) && Guarded(w.bindings, m) && !Guarded(Step(w, a).bindings, m)
    ensures Nameless(w.sm, m) && (forall b :: Holds(w.bindings, m, b) ==> b !in w.sm) && m !in w.secrets
  {
    hide Inv, Advance, ReleasesFinalizer;
    match a
    case Call(n, ch) =>
      if n in w.procs {
        if ReleasesFinalizer(w.procs[n].pc) {
          ReleaseGuardsOthers(w, n, ch, m);
          ReleaseIsClear(w, n, w.procs[n]);
        } else {
          if w.procs[n].pc == RotateAnnotation {
            AnnotationFinalizer(w, n);
          }
          CallsGuard(w, n, ch);
          assert false;
        }
      }
    case _ =>
  }

  // ----- one operation at a time

  /** The calls that change SM. */
  predicate MutatesSm(pc: Pc) {
    pc.CleanupUnbind? || pc.DeleteUnbind? || pc.RenameFirst? || pc.RenameSecond? || pc.Bind?
  }

  /** The operation slot: URL and type come and go together, and address the resource's own id. */
  lemma OneSlot(w: World, n: Name)
    requires Reachable(w) && n in w.bindings
    ensures var s := w.bindings[n].status;
      && (s.opUrl.Some? <==> s.opType.Some?)
      && (s.opUrl.Some? ==> s.opType == Some(s.opUrl.value.kind))
      && (s.opUrl.Some? && !w.bindings[n].deleting ==> s.id == Some(s.opUrl.value.resource))
  {
    hide Reachable, Global;
    ReachableGlobal(w);
  }

  lemma SlotCore(w: World, n: Name, p: Proc)
    requires CoreOk(w, n, p.c, p.base) && p.c.finalizer
    ensures n in w.bindings && w.bindings[n].status == p.base && (p.c.deleting ==> w.bindings[n].deleting)
    ensures StatusShape(p.base, p.c.deleting)
  {
  }

  /** No other call of a reconcile changes SM. */
  lemma OnlyMutators(w: World, n: Name, ch: Choice)
    requires n in w.procs && !MutatesSm(w.procs[n].pc)
    ensures Advance(w, n, ch).sm == w.sm
  {
    hide WriteStatus, AdvanceInit, AdvanceRotateAnnotation, AdvanceAddFinalizer, AdvanceCreateBackup, AdvanceDeleteSelf,
         AdvanceStore, AdvanceFetchInstance, AdvancePollStatus, AdvancePollProbe, AdvancePollFetch, AdvanceDropSecret,
         AdvanceDeleteQuery, AdvanceCheckExists, AdvanceRotateList, AdvanceReadyCheck, AdvanceFetchOriginal,
         AdvanceMaintain, AdvanceQuery, AdvancePollRemoveFinalizer, AdvanceDeleteRemoveFinalizer;
  }

  /**
   While an operation runs on a resource that is not being deleted, the only call its reconcile can
   make that changes SM is the cleanup of that very binding, whose operation has failed.
   */
  lemma SlotExclusive(w: World, n: Name)
    requires Reachable(w) && n in w.procs && MutatesSm(w.procs[n].pc)
    requires n in w.bindings && w.bindings[n].status.opUrl.Some? && !w.bindings[n].deleting
    ensures var b := w.bindings[n].status.opUrl.value.resource;
      && w.procs[n].pc == CleanupUnbind && w.procs[n].c.status.id == Some(b)
      && (b in w.sm ==> w.sm[b].provisioning == Failed || w.sm[b].unbinding != NotAsked)
  {
    hide Reachable, Inv, Steady, CoreOk, Nameless, Planned, StatusShape;
    ReachableInv(w);
    var p := w.procs[n];
    AtSteady(w, n, p);
    assert p.c.finalizer;
    SlotCore(w, n, p);
    SlotId(p.base, p.c.deleting);
  }

  lemma SlotId(s: Status, deleting: bool)
    requires StatusShape(s, deleting)
    ensures s.opUrl.Some? && s.id.Some? ==> s.opUrl.value.resource == s.id.value
  {
  }
}
