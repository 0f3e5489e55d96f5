/** The invariant through the calls that create, maintain, rotate and retire. */
module BindingRotations {
  import opened Options
  import opened Remote
  import opened BindingWorld
  import opened BindingReconciler
  import opened BindingInvariant
  import opened BindingRely
  import opened BindingEffects
  import opened BindingSmEffects
  import opened BindingSteps
  import opened BindingPolls

  lemma CheckExistsOk(w: World, n: Name, p: Proc, ch: Choice)
    requires At(w, n, p) && p.pc == CheckExists
    ensures Inv(AdvanceCheckExists(w, n, p, ch))
  {
    hide Inv, Steady, At, Finish, Go, Stop, CoreOk;
    AtSteady(w, n, p);
    StopOk(w, n, p);
    FailOk(w, n, p, p.base.Unsucceeded());
    ShapeOfCore(w, n, p.c, p.base);
    FinishKeeping(w, n, p.c, p.base, p.c.status.Lost());
    GoOn(w, n, p.c, p.base, AddFinalizer);
  }

  /** With the finalizer stored and nothing running, on to the rest of the reconcile. */
  lemma ProceedOk(w: World, n: Name, c: Binding, base: Status, ch: Choice)
    requires Steady(w, n) && CoreOk(w, n, c, base) && c.status == base && Settled(Proc(c, base, ReadyCheck))
    ensures Inv(Proceed(w, n, c, base, ch))
  {
    hide Steady, CoreOk;
    FailOk(w, n, Proc(c, base, ReadyCheck), base.Unsucceeded());
    GoOn(w, n, c, base, if c.status.rotation != NotRotating then RotateAnnotation else ReadyCheck);
  }

  /** An Update of a copy that is still the stored version, keeping or adding the finalizer. */
  lemma UpdateOk(w: World, n: Name, p: Proc, finalizer: bool, forceRotate: bool)
    requires At(w, n, p) && Untouched(p) && Unchanged(w, n, p.c) && finalizer
    ensures Steady(PutMeta(w, n, finalizer, forceRotate), n)
    ensures CoreOk(PutMeta(w, n, finalizer, forceRotate), n,
                   p.c.(finalizer := finalizer, forceRotate := forceRotate, rv := w.clock), p.base)
  {
    AtSteady(w, n, p);
    hide Steady, PcOk;
    assert w.bindings[n] == p.c.(status := p.base);
    var o1 := w.bindings[n].(finalizer := true, forceRotate := forceRotate, rv := w.clock);
    assert PutMeta(w, n, finalizer, forceRotate) == Replaced(w, n, o1);
    assert MetaWrite(w, n, o1) by { assert Bounded(w) && ShapesOk(w.bindings) && BackupsRetired(w.bindings, w.secrets); }
    hide Inv, MetaWrite;
    MetaSaved(w, n, o1);
  }

  lemma AddFinalizerOk(w: World, n: Name, p: Proc, ch: Choice)
    requires At(w, n, p) && p.pc == AddFinalizer
    ensures Inv(AdvanceAddFinalizer(w, n, p, ch))
  {
    hide Inv, Steady, CoreOk, At, Stop, Proceed, PutMeta, StatusShape;
    AtSteady(w, n, p);
    StopOk(w, n, p);
    if p.c.finalizer {
      ProceedOk(w, n, p.c, p.base, ch);
    } else if ch.call != Rejected && Unchanged(w, n, p.c) {
      UpdateOk(w, n, p, true, p.c.forceRotate);
      SteadyStop(PutMeta(w, n, true, p.c.forceRotate), n);
      ProceedOk(PutMeta(w, n, true, p.c.forceRotate), n, p.c.(finalizer := true, rv := w.clock), p.base, ch);
    }
  }

  /** A status that only drops the rotation condition, or sets it on an original. */
  lemma RotationWritable(w: World, n: Name, c: Binding, base: Status, rotation: Rotation)
    requires Steady(w, n) && CoreOk(w, n, c, base) && Settled(Proc(c, base, ReadyCheck))
    requires c.stale.Some? ==> rotation == NotRotating
    ensures Unchanged(w, n, c) ==> Writable(w, n, c, base, base.(rotation := rotation))
  {
    Keeping(w, n, c, base, base.(rotation := rotation));
  }

  lemma StopRotationOk(w: World, n: Name, c: Binding, base: Status)
    requires Steady(w, n) && CoreOk(w, n, c, base) && c.status == base && Settled(Proc(c, base, ReadyCheck))
    ensures Inv(Go(w, n, c.(status := base.(rotation := NotRotating)), base, RotateSave))
  {
    RotationWritable(w, n, c, base, NotRotating);
    hide Steady;
    CoreStatus(w, n, c, base, base.(rotation := NotRotating));
    if Unchanged(w, n, c) {
      WritableStatus(w, n, c, base, base.(rotation := NotRotating));
    }
    hide CoreOk, Writable;
    GoOn(w, n, c.(status := base.(rotation := NotRotating)), base, RotateSave);
  }

  lemma RotateOk(w: World, n: Name, c: Binding, base: Status)
    requires Steady(w, n) && CoreOk(w, n, c, base) && c.status == base && Settled(Proc(c, base, ReadyCheck))
    ensures Inv(Rotate(w, n, c, base))
  {
    hide Steady, Inv, Go;
    StopRotationOk(w, n, c, base);
    if base.rotation == Preparing && base.id.Some? {
      assert c.stale.None?;
      hide CoreOk;
      GoOn(w, n, c, base, RotateList);
    } else {
      hide CoreOk;
      GoOn(w, n, c, base, ReadyCheck);
    }
  }

  lemma RotateAnnotationOk(w: World, n: Name, p: Proc, ch: Choice)
    requires At(w, n, p) && p.pc == RotateAnnotation
    ensures Inv(AdvanceRotateAnnotation(w, n, p, ch))
  {
    hide Inv, Steady, CoreOk, At, Stop, Rotate, PutMeta, StatusShape;
    AtSteady(w, n, p);
    StopOk(w, n, p);
    if !p.c.forceRotate {
      RotateOk(w, n, p.c, p.base);
    } else if ch.call != Rejected && Unchanged(w, n, p.c) {
      UpdateOk(w, n, p, p.c.finalizer, false);
      SteadyStop(PutMeta(w, n, p.c.finalizer, false), n);
      RotateOk(PutMeta(w, n, p.c.finalizer, false), n, p.c.(forceRotate := false, rv := w.clock), p.base);
    }
  }

  /** With a backup in place, the id may be given up. */
  lemma RotatedOk(w: World, n: Name, c: Binding, base: Status)
    requires Steady(w, n) && CoreOk(w, n, c, base) && c.status == base && Settled(Proc(c, base, RotateList))
    requires base.id.Some? && HasBackup(w.bindings, base.id.value) && c.stale.None?
    ensures Inv(Go(w, n, c.(status := base.Rotated()), base, RotateSave))
  {
    hide Steady;
    assert Writable(w, n, c, base, base.Rotated());
    CoreStatus(w, n, c, base, base.Rotated());
    WritableStatus(w, n, c, base, base.Rotated());
    hide CoreOk, Writable;
    GoOn(w, n, c.(status := base.Rotated()), base, RotateSave);
  }

  lemma NamelessPlan(w: World, n: Name, p: Proc, s: string)
    requires p.pc == RotateList && PcOk(w, n, p) && Nameless(w.sm, n + s)
    requires n + s !in w.bindings && !HasBackup(w.bindings, p.c.status.id.value)
    ensures PcOk(w, n, Proc(p.c, p.base, RenameFirst(s)))
  {
    hide HasBackup;
  }

  /** No backup yet: plan one under a free name. */
  lemma PlanOk(w: World, n: Name, p: Proc, s: string)
    requires At(w, n, p) && p.pc == RotateList && p.c.status.id.Some? && !HasBackup(w.bindings, p.c.status.id.value)
    requires n + s !in w.bindings && Nameless(w.sm, n + s) && PlanApart(w.procs, n, RenameFirst(s))
    ensures Inv(Go(w, n, p.c, p.base, RenameFirst(s)))
  {
    hide Inv, CoreOk, At, PlanApart, HasBackup, Nameless, PcOk, Global, Others, PlansOk;
    AtSteady(w, n, p);
    NamelessPlan(w, n, p, s);
    Continue(w, n, Proc(p.c, p.base, RenameFirst(s)));
  }

  lemma RotateListOk(w: World, n: Name, p: Proc, ch: Choice)
    requires At(w, n, p) && p.pc == RotateList
    requires n + ch.suffix !in w.bindings && Nameless(w.sm, n + ch.suffix) && PlanApart(w.procs, n, RenameFirst(ch.suffix))
    ensures Inv(AdvanceRotateList(w, n, p, ch))
  {
    hide Inv, CoreOk, Steady, At, PlanApart, HasBackup, Nameless, Go, Stop;
    AtSteady(w, n, p);
    StopOk(w, n, p);
    if HasBackup(w.bindings, p.c.status.id.value) {
      RotatedOk(w, n, p.c, p.base);
    } else {
      PlanOk(w, n, p, ch.suffix);
    }
  }

  lemma RotationErrorOk(w: World, n: Name, p: Proc, ch: Choice)
    requires Steady(w, n) && CoreOk(w, n, p.c, p.base) && Untouched(p) && Settled(p) && p.c.stale.None?
    ensures Inv(RotationError(w, n, p, ch))
  {
    FailOk(w, n, p, p.base.Unsucceeded());
    RotationWritable(w, n, p.c, p.base, Preparing);
    hide Steady, CoreOk, Writable;
    FinishOk(w, n, p.c, p.base, p.base.(rotation := Preparing));
  }

  lemma SamePlan(w: World, n: Name, pc: Pc)
    requires PlansOk(w.procs) && n in w.procs && PlanName(n, pc) == PlanName(n, w.procs[n].pc)
    ensures PlanApart(w.procs, n, pc)
  {
  }

  lemma PlannedHolds(w: World, n: Name, p: Proc)
    requires CoreOk(w, n, p.c, p.base) && p.c.finalizer && p.base.id.Some? && p.c.stale.None?
    ensures Original(w.bindings, n) && Holds(w.bindings, n, p.base.id.value)
    ensures w.bindings[n].externalName == p.c.externalName
  {
  }

  lemma RenamedOk(w: World, n: Name, p: Proc, seen: SmBinding, next: Pc)
    requires At(w, n, p) && Untouched(p) && Settled(p) && p.base.id.Some? && p.c.stale.None?
    requires PlanName(n, p.pc).Some? && PlanName(n, next) == PlanName(n, p.pc)
    requires var b := p.base.id.value;
      && b in w.sm && Renaming(w, n, b, seen) && (seen.k8sName.Some? ==> seen.k8sName == PlanName(n, p.pc))
      && PcOk(w.(sm := w.sm[b := seen]), n, p.(pc := next))
    ensures Inv(Go(w.(sm := w.sm[p.base.id.value := seen]), n, p.c, p.base, next))
    ensures Steady(w.(sm := w.sm[p.base.id.value := seen]), n)
    ensures CoreOk(w.(sm := w.sm[p.base.id.value := seen]), n, p.c, p.base)
  {
    AtSteady(w, n, p);
    SamePlan(w, n, next);
    var b := p.base.id.value;
    var w1 := w.(sm := w.sm[b := seen]);
    RenameSaved(w, n, b, seen);
    CoreKept(w, w1, n, p.c, p.base);
    hide Inv, PcOk, CoreOk, PlanApart, Global, Others, PlansOk, Renaming;
    Continue(w1, n, p.(pc := next));
  }

  lemma RenameFirstPlanned(w: World, n: Name, p: Proc, s: string)
    requires At(w, n, p) && p.pc == RenameFirst(s) && p.base.id.Some? && p.base.id.value in w.sm
    ensures var b := p.base.id.value;
      var seen := w.sm[b].(name := p.c.externalName + s, k8sName := None);
      Renaming(w, n, b, seen) && PcOk(w.(sm := w.sm[b := seen]), n, p.(pc := RenameSecond(s)))
  {
    hide Inv, Steady;
    AtSteady(w, n, p);
    PlannedHolds(w, n, p);
    hide CoreOk;
    RenamingSame(w, n, p.base.id.value, w.sm[p.base.id.value].(name := p.c.externalName + s, k8sName := None));
  }

  lemma RenameFirstOk(w: World, n: Name, p: Proc, ch: Choice, s: string)
    requires At(w, n, p) && p.pc == RenameFirst(s)
    ensures Inv(AdvanceRenameFirst(w, n, p, ch, s))
  {
    hide Inv, Steady, CoreOk, Go, RotationError, Renaming, At, HasBackup, Nameless;
    AtSteady(w, n, p);
    assert p.c.stale.None?;
    hide Planned;
    RotationErrorOk(w, n, p, ch);
    var b := p.base.id.value;
    if ch.call != Rejected && b in w.sm {
      RenameFirstPlanned(w, n, p, s);
      var seen := w.sm[b].(name := p.c.externalName + s, k8sName := None);
      RenamedOk(w, n, p, seen, RenameSecond(s));
      RotationErrorOk(w.(sm := w.sm[b := seen]), n, p, ch);
    }
  }

  lemma RenameSecondPlanned(w: World, n: Name, p: Proc, s: string)
    requires At(w, n, p) && p.pc == RenameSecond(s) && p.base.id.Some? && p.base.id.value in w.sm
    ensures var b := p.base.id.value;
      var seen := w.sm[b].(k8sName := Some(n + s));
      Renaming(w, n, b, seen) && PcOk(w.(sm := w.sm[b := seen]), n, p.(pc := CreateBackup(s)))
  {
    hide Inv, Steady;
    AtSteady(w, n, p);
    PlannedHolds(w, n, p);
    hide CoreOk;
    RenamingSame(w, n, p.base.id.value, w.sm[p.base.id.value].(k8sName := Some(n + s)));
  }

  lemma RenameSecondOk(w: World, n: Name, p: Proc, ch: Choice, s: string)
    requires At(w, n, p) && p.pc == RenameSecond(s)
    ensures Inv(AdvanceRenameSecond(w, n, p, ch, s))
  {
    hide Inv, Steady, CoreOk, Go, RotationError, Renaming, At, HasBackup, Nameless;
    AtSteady(w, n, p);
    assert p.c.stale.None?;
    hide Planned;
    RotationErrorOk(w, n, p, ch);
    var b := p.base.id.value;
    if ch.call != Rejected && b in w.sm {
      RenameSecondPlanned(w, n, p, s);
      var seen := w.sm[b].(k8sName := Some(n + s));
      RenamedOk(w, n, p, seen, CreateBackup(s));
      RotationErrorOk(w.(sm := w.sm[b := seen]), n, p, ch);
    }
  }

  lemma BackupAddition(w: World, n: Name, p: Proc, s: string)
    requires At(w, n, p) && p.pc == CreateBackup(s)
    ensures Addition(w, n + s, NewBinding(w, p.base.id, Some(n), p.c.externalName + s, Some(false)))
    ensures Original(w.bindings, n) && Holds(w.bindings, n, p.base.id.value)
  {
    AtSteady(w, n, p);
    PlannedHolds(w, n, p);
    assert OriginalsOk(w.bindings, w.sm);
    hide Inv, Steady;
  }

  lemma CoreBeside(w: World, n: Name, x: Name, o: Binding, c: Binding, base: Status)
    requires CoreOk(w, n, c, base) && x != n && c.finalizer
    ensures CoreOk(CreateObject(w, x, o), n, c, base)
  {
  }

  lemma BackupMade(w: World, n: Name, p: Proc, s: string)
    requires At(w, n, p) && p.pc == CreateBackup(s)
    ensures var w1 := CreateObject(w, n + s, NewBinding(w, p.base.id, Some(n), p.c.externalName + s, Some(false)));
      Steady(w1, n) && CoreOk(w1, n, p.c, p.base) && p.base.id.Some? && HasBackup(w1.bindings, p.base.id.value)
  {
    AtSteady(w, n, p);
    var x := n + s;
    var b := p.base.id.value;
    var o := NewBinding(w, p.base.id, Some(n), p.c.externalName + s, Some(false));
    BackupAddition(w, n, p, s);
    BackupSaved(w, n, b, x, o);
    var w1 := CreateObject(w, x, o);
    assert x in w1.bindings && w1.bindings[x].stale == Some(b);
    hide Inv, Steady, Addition;
    CoreBeside(w, n, x, o, p.c, p.base);
  }

  lemma CreateBackupOk(w: World, n: Name, p: Proc, ch: Choice, s: string)
    requires At(w, n, p) && p.pc == CreateBackup(s)
    ensures Inv(AdvanceCreateBackup(w, n, p, ch, s))
  {
    hide Inv, Steady, CoreOk, HasBackup, Go, RotationError, Stop, At;
    AtSteady(w, n, p);
    StopOk(w, n, p);
    RotationErrorOk(w, n, p, ch);
    BackupMade(w, n, p, s);
    var w1 := CreateObject(w, n + s, NewBinding(w, p.base.id, Some(n), p.c.externalName + s, Some(false)));
    hide Planned;
    RotationErrorOk(w1, n, p, ch);
    RotatedOk(w1, n, p.c, p.base);
  }

  lemma RotateSaveOk(w: World, n: Name, p: Proc, ch: Choice)
    requires At(w, n, p) && p.pc == RotateSave
    ensures Inv(WriteStatus(w, n, p, ch, Some(ReadyCheck)))
  {
    hide Inv, Steady, CoreOk, Writable, At, StatusShape;
    AtSteady(w, n, p);
    AtInv(w, n, p);
    WriteStatusOk(w, n, p, ch, Some(ReadyCheck));
  }

  lemma SaveOk(w: World, n: Name, p: Proc, ch: Choice)
    requires At(w, n, p) && p.pc == Save
    ensures Inv(WriteStatus(w, n, p, ch, None))
  {
    hide Inv, Steady, CoreOk, Writable, At, StatusShape;
    AtSteady(w, n, p);
    AtInv(w, n, p);
    WriteStatusOk(w, n, p, ch, None);
  }

  lemma ReadyCheckOk(w: World, n: Name, p: Proc, ch: Choice)
    requires At(w, n, p) && p.pc == ReadyCheck
    ensures Inv(AdvanceReadyCheck(w, n, p, ch))
  {
    hide Inv, Steady, At, Stop, Go;
    AtSteady(w, n, p);
    StopOk(w, n, p);
    var c := p.c;
    if c.status.readyCond == Some(true) {
      if c.stale.Some? && c.policy.Some? && ch.due {
        hide CoreOk;
        BackupOrig(w, n, p);
        GoOn(w, n, c, p.base, FetchOriginal);
      } else if c.status.succeeded != Some(false) && c.policy == Some(true) && (ch.flag || c.forceRotate) {
        RotationWritable(w, n, c, p.base, Preparing);
        hide CoreOk, Writable;
        FinishOk(w, n, c, p.base, c.status.(rotation := Preparing));
      } else {
        ShapeOfCore(w, n, c, p.base);
        hide CoreOk;
        GoOn(w, n, c, p.base, Maintain);
      }
    } else if c.status.id.None? {
      FailOk(w, n, p, p.base.Unsucceeded());
      hide CoreOk;
      GoOn(w, n, c, p.base, Query);
    }
  }

  lemma BackupOrig(w: World, n: Name, p: Proc)
    requires CoreOk(w, n, p.c, p.base)
    ensures p.c.stale.Some? ==> p.c.orig.Some?
  {
  }

  /** An original that is ready with another id has moved on from `b`. */
  lemma MovedOn(w: World, o: Name, b: Id)
    requires ReadyOk(w.bindings, w.sm, w.secrets) && ShapesOk(w.bindings)
    requires o in w.bindings && w.bindings[o].status.readyCond == Some(true) && w.bindings[o].status.id != Some(b)
    ensures Retired(w.bindings, w.secrets, o, b)
  {
    if w.bindings[o].status.id.Some? {
      assert Holds(w.bindings, o, w.bindings[o].status.id.value);
    }
  }

  lemma SteadyReady(w: World, n: Name)
    requires Steady(w, n)
    ensures ReadyOk(w.bindings, w.sm, w.secrets) && ShapesOk(w.bindings)
  {
    hide ReadyOk, ShapesOk, Others, PlansOk;
  }

  lemma OriginalGone(w: World, n: Name, o: Name, b: Id)
    requires Steady(w, n)
    requires o in w.bindings ==> w.bindings[o].status.readyCond == Some(true) && w.bindings[o].status.id != Some(b)
    ensures Retired(w.bindings, w.secrets, o, b)
  {
    SteadyReady(w, n);
    hide Steady, ReadyOk, ShapesOk;
    if o in w.bindings {
      MovedOn(w, o, b);
    }
  }

  lemma FetchOriginalOk(w: World, n: Name, p: Proc, ch: Choice)
    requires At(w, n, p) && p.pc == FetchOriginal
    requires p.c.orig.Some? && p.c.orig.value in w.bindings && w.bindings[p.c.orig.value].status.readyCond == Some(true) ==>
               w.bindings[p.c.orig.value].status.id != p.c.stale
    ensures Inv(AdvanceFetchOriginal(w, n, p, ch))
  {
    hide Inv, Steady, At, Stop, Go, Finish, CoreOk, Retired, StatusShape;
    AtSteady(w, n, p);
    StopOk(w, n, p);
    if ch.call == Ok && p.c.orig.Some? {
      var o := p.c.orig.value;
      if o !in w.bindings || w.bindings[o].status.readyCond == Some(true) {
        OriginalGone(w, n, o, p.c.stale.value);
        GoOn(w, n, p.c, p.base, DeleteSelf);
      } else {
        TerminationOk(w, n, p);
      }
    }
  }

  lemma TerminationOk(w: World, n: Name, p: Proc)
    requires Steady(w, n) && CoreOk(w, n, p.c, p.base)
    ensures Inv(Finish(w, n, p.c, p.base, p.base.(pendingTermination := true)))
  {
    hide Inv, Steady, Finish;
    BackupQuiet(w, n, p);
    ShapeOfCore(w, n, p.c, p.base);
    hide CoreOk;
    FinishKeeping(w, n, p.c, p.base, p.base.(pendingTermination := true));
  }

  lemma SelfMark(w: World, n: Name, p: Proc, o1: Binding)
    requires CoreOk(w, n, p.c, p.base) && PcOk(w, n, p) && p.pc == DeleteSelf && ShapesOk(w.bindings) && n in w.bindings
    requires o1 == w.bindings[n].(deleting := true, rv := w.clock)
    ensures MetaWrite(w, n, o1)
  {
    hide Retired, StatusShape;
  }

  lemma DeleteSelfOk(w: World, n: Name, p: Proc, ch: Choice)
    requires At(w, n, p) && p.pc == DeleteSelf
    ensures Inv(AdvanceDeleteSelf(w, n, ch))
  {
    hide Inv, At, Stop, Retired, Steady, StatusShape, ShapesOk;
    AtSteady(w, n, p);
    AtInv(w, n, p);
    StopOk(w, n, p);
    assert n in w.bindings && w.bindings[n].finalizer;
    var o1 := w.bindings[n].(deleting := true, rv := w.clock);
    SteadyReady(w, n);
    assert MetaWrite(w, n, o1) by { SelfMark(w, n, p, o1); }
    assert DeleteObject(w, n) == Replaced(w, n, o1);
    hide MetaWrite;
    MetaSaved(w, n, o1);
    SteadyStop(Replaced(w, n, o1), n);
  }

  lemma MaintainReadOk(w: World, n: Name, p: Proc, b: Id)
    requires At(w, n, p) && p.pc == Maintain && p.base.id == Some(b) && b in w.sm && w.sm[b].provisioning == Done
    ensures Inv(Go(w, n, p.c, p.base, MaintainStore))
  {
    hide Inv, Usable, Go, At, StatusShape, Steady, OriginalsOk, AskedOk;
    AtSteady(w, n, p);
    SteadyClaims(w, n);
    HolderUsable(w, n, p.c, p.base, b);
    hide CoreOk;
    GoOn(w, n, p.c, p.base, MaintainStore);
  }

  lemma SteadyClaims(w: World, n: Name)
    requires Steady(w, n)
    ensures OriginalsOk(w.bindings, w.sm) && AskedOk(w.bindings, w.sm) && BackupsMatch(w.bindings, w.sm)
  {
    hide OriginalsOk, AskedOk, BackupsMatch, Others, PlansOk, Bounded, ShapesOk, OneName, NamesOk, OneHolder, OnlyHeld, OneBackup,
         ReadyOk, SecretsOk, FinalizersOk, LeftoversOk, Tracked, BackupsRetired;
  }

  lemma MaintainOk(w: World, n: Name, p: Proc, ch: Choice)
    requires At(w, n, p) && p.pc == Maintain
    ensures Inv(AdvanceMaintain(w, n, p, ch))
  {
    hide Inv, Steady, At, Stop, Go, Finish, CoreOk;
    AtSteady(w, n, p);
    StopOk(w, n, p);
    FailOk(w, n, p, p.base);
    FailOk(w, n, p, p.base.Unsucceeded());
    var b := p.c.status.id.value;
    if b in w.sm && w.sm[b].provisioning == Done {
      MaintainReadOk(w, n, p, b);
    }
  }

  lemma MaintainStoreOk(w: World, n: Name, p: Proc, ch: Choice)
    requires At(w, n, p) && p.pc == MaintainStore
    ensures Inv(Advance(w, n, ch))
  {
    hide Inv, Steady, Created, Usable;
    AtSteady(w, n, p);
    BackupQuiet(w, n, p);
    ShapeOfCore(w, n, p.c, p.base);
    StoreHeldOk(w, n, p, ch, p.c.status.id.value, p.c.status.Success());
  }

  lemma BackupQuiet(w: World, n: Name, p: Proc)
    requires CoreOk(w, n, p.c, p.base)
    ensures p.c.stale.Some? ==> p.base.rotation == NotRotating
  {
  }

  // ----- creation and recovery

  /** Writing the secret with credentials of a binding the resource is about to adopt. */
  lemma StoreFoundOk(w: World, n: Name, p: Proc, ch: Choice, b: Id, done: Status)
    requires At(w, n, p) && Untouched(p) && Settled(p) && p.base.id.None? && b < w.nextId
    requires Adoptable(w.bindings, w.sm, n, b) && Created(w.sm, b) && Usable(w.bindings, w.sm, n, b)
    requires StatusShape(done, p.c.deleting) && done.id == Some(b)
    requires p.c.stale.Some? ==> done.rotation == NotRotating
    ensures Inv(AdvanceStore(w, n, p, ch, b, done))
  {
    hide Steady, At, PcOk, Finish;
    AtSteady(w, n, p);
    assert Storable(w, n, b) by { hide Inv; }
    assert Inv(w) && n in w.procs by { AtInv(w, n, p); }
    hide Inv, Storable, Usable;
    SecretSaved(w, n, b);
    var w1 := StoreSecret(w, n, b);
    CoreKept(w, w1, n, p.c, p.base);
    hide CoreOk;
    if ch.call == Ok {
      Adopting(w1, n, p.c, p.base, done, b);
      hide Writable, StatusShape;
      FinishOk(w1, n, p.c, p.base, done);
    } else {
      FailOk(w, n, p, p.base.Unsucceeded());
      FailOk(w1, n, p, p.base.Unsucceeded());
    }
  }

  lemma ResyncShape(s: Status, b: Id, seen: SmBinding, deleting: bool)
    requires StatusShape(s, deleting) && !deleting && s.id.None?
    ensures StatusShape(Resync(s, b, seen), deleting) && Resync(s, b, seen).id == Some(b)
    ensures Resync(s, b, seen).rotation == s.rotation
    ensures Resync(s, b, seen).ready ==> seen.provisioning == Done
  {
  }

  lemma RecoverStoreOk(w: World, n: Name, p: Proc, ch: Choice, b: Id, seen: SmBinding)
    requires At(w, n, p) && p.pc == RecoverStore(b, seen)
    ensures Inv(AdvanceStore(w, n, p, ch, b, Resync(p.c.status, b, seen)))
  {
    hide Inv, Steady, Adoptable, Created, Usable;
    AtSteady(w, n, p);
    BackupQuiet(w, n, p);
    ShapeOfCore(w, n, p.c, p.base);
    hide CoreOk;
    ResyncShape(p.base, b, seen, p.c.deleting);
    StoreFoundOk(w, n, p, ch, b, Resync(p.base, b, seen));
  }

  lemma BindStoreOk(w: World, n: Name, p: Proc, ch: Choice, b: Id)
    requires At(w, n, p) && p.pc == BindStore(b)
    ensures Inv(AdvanceStore(w, n, p, ch, b, p.c.status.WithId(b).Success()))
  {
    hide Inv, Steady, Adoptable, Created, Usable;
    AtSteady(w, n, p);
    BackupQuiet(w, n, p);
    ShapeOfCore(w, n, p.c, p.base);
    hide CoreOk;
    StoreFoundOk(w, n, p, ch, b, p.c.status.WithId(b).Success());
  }

  /** An original that is not being deleted may show the finished binding its query finds. */
  lemma FoundUsable(w: World, n: Name, b: Id)
    requires NamesOk(w.bindings, w.sm) && n in w.bindings && Adoptable(w.bindings, w.sm, n, b)
    requires b in w.sm && w.sm[b].provisioning == Done
    ensures Usable(w.bindings, w.sm, n, b)
  {
  }

  lemma FoundFacts(w: World, n: Name, p: Proc, b: Id)
    requires Steady(w, n) && CoreOk(w, n, p.c, p.base) && p.c.finalizer && p.base.id.None? && b in w.sm
    requires Named(w.sm, b, n) && forall b' :: Named(w.sm, b', n) ==> b' == b
    ensures Adoptable(w.bindings, w.sm, n, b) && b < w.nextId
    ensures w.sm[b].provisioning == Done ==> Usable(w.bindings, w.sm, n, b)
  {
    assert Bounded(w) && NamesOk(w.bindings, w.sm) && AskedOk(w.bindings, w.sm);
    hide Steady, StatusShape;
    FoundAdoptable(w, n, p.c, p.base, b);
    if w.sm[b].provisioning == Done {
      FoundUsable(w, n, b);
    }
  }

  lemma FoundOk(w: World, n: Name, p: Proc, b: Id)
    requires At(w, n, p) && p.pc == Query && b in w.sm
    requires Named(w.sm, b, n) && forall b' :: Named(w.sm, b', n) ==> b' == b
    ensures if w.sm[b].provisioning == Done then Inv(Go(w, n, p.c, p.base, RecoverStore(b, w.sm[b])))
            else Inv(Finish(w, n, p.c, p.base, Resync(p.c.status, b, w.sm[b])))
  {
    hide Inv, At, Adoptable, Usable, Go, Finish, Resync, StatusShape, Steady, CoreOk;
    AtSteady(w, n, p);
    FoundFacts(w, n, p, b);
    if w.sm[b].provisioning == Done {
      GoOn(w, n, p.c, p.base, RecoverStore(b, w.sm[b]));
    } else {
      BackupQuiet(w, n, p);
      ShapeOfCore(w, n, p.c, p.base);
      ResyncShape(p.base, b, w.sm[b], p.c.deleting);
      Adopting(w, n, p.c, p.base, Resync(p.base, b, w.sm[b]), b);
      hide Writable;
      FinishOk(w, n, p.c, p.base, Resync(p.base, b, w.sm[b]));
    }
  }

  lemma QueryAnswer(w: World, n: Name, p: Proc)
    requires At(w, n, p) && p.pc == Query
    ensures OnlyMatch(w, p.c.externalName, n).None? ==> Nameless(w.sm, n)
    ensures forall b :: OnlyMatch(w, p.c.externalName, n) == Some(b) ==>
              Named(w.sm, b, n) && forall b' :: Named(w.sm, b', n) ==> b' == b
  {
    AtSteady(w, n, p);
    hide Inv;
    QueryExact(w, n, p.c, p.base);
  }

  lemma QueryOk(w: World, n: Name, p: Proc, ch: Choice)
    requires At(w, n, p) && p.pc == Query
    ensures Inv(AdvanceQuery(w, n, p, ch))
  {
    hide Inv, Steady, At, CoreOk, OnlyMatch, Go, Finish, Stop, Resync, Nameless;
    AtSteady(w, n, p);
    StopOk(w, n, p);
    QueryAnswer(w, n, p);
    FailOk(w, n, p, p.base.Unsucceeded());
    match OnlyMatch(w, p.c.externalName, n)
    case None => GoOn(w, n, p.c, p.base, Bind);
    case Some(b) =>
      if b in w.sm {
        FoundOk(w, n, p, b);
      }
  }

  lemma NewAdoptable(w: World, n: Name, async: bool)
    requires Bindable(w, n) && Bounded(w)
    ensures var w1 := SmBind(w, n, w.bindings[n].externalName, async);
      && Adoptable(w1.bindings, w1.sm, n, w.nextId)
      && (!async ==> Usable(w1.bindings, w1.sm, n, w.nextId) && Created(w1.sm, w.nextId))
  {
    BindSame(w, n, async);
  }

  lemma SettledBindable(w: World, n: Name, p: Proc)
    requires At(w, n, p) && p.pc == Bind
    ensures Bindable(w, n) && w.bindings[n].externalName == p.c.externalName
  {
    AtSteady(w, n, p);
    hide Inv, Steady;
  }

  lemma BindMade(w: World, n: Name, p: Proc, async: bool)
    requires At(w, n, p) && p.pc == Bind
    ensures var w1 := SmBind(w, n, p.c.externalName, async);
      && Steady(w1, n) && CoreOk(w1, n, p.c, p.base)
      && Adoptable(w1.bindings, w1.sm, n, w.nextId)
      && (!async ==> Usable(w1.bindings, w1.sm, n, w.nextId) && Created(w1.sm, w.nextId))
  {
    hide Steady, CoreOk, PcOk, Bindable, Adoptable, Usable, Created;
    AtSteady(w, n, p);
    SettledBindable(w, n, p);
    NewAdoptable(w, n, async);
    BindSaved(w, n, async);
    hide Inv;
    assert p.c.finalizer by { SettledAt(w, n, p); }
    CoreKept(w, SmBind(w, n, p.c.externalName, async), n, p.c, p.base);
  }

  lemma SettledAt(w: World, n: Name, p: Proc)
    requires PcOk(w, n, p) && p.pc == Bind
    ensures Settled(p)
  {
  }

  lemma BindAsyncOk(w1: World, n: Name, p: Proc, b: Id)
    requires Steady(w1, n) && CoreOk(w1, n, p.c, p.base) && Settled(p) && p.base.id.None? && Untouched(p)
    requires Adoptable(w1.bindings, w1.sm, n, b) && b < w1.nextId
    ensures Inv(Finish(w1, n, p.c, p.base, p.base.WithId(b).Running(Create, b).Unsucceeded()))
  {
    hide Steady, Adoptable, Inv, Finish;
    BackupQuiet(w1, n, p);
    ShapeOfCore(w1, n, p.c, p.base);
    hide CoreOk;
    var status := p.base.WithId(b).Running(Create, b).Unsucceeded();
    assert StatusShape(status, p.c.deleting) && !status.ready;
    Adopting(w1, n, p.c, p.base, status, b);
    hide Writable, StatusShape;
    FinishOk(w1, n, p.c, p.base, status);
  }

  lemma BindOk(w: World, n: Name, p: Proc, ch: Choice)
    requires At(w, n, p) && p.pc == Bind
    ensures Inv(AdvanceBind(w, n, p, ch))
  {
    hide Inv, Steady, Adoptable, Usable, Created, At, Go, Finish, CoreOk, Nameless;
    AtSteady(w, n, p);
    BindMade(w, n, p, ch.async);
    var b := w.nextId;
    var w1 := SmBind(w, n, p.c.externalName, ch.async);
    FailOk(w, n, p, p.base.Unsucceeded());
    FailOk(w1, n, p, p.base.Unsucceeded());
    if ch.async {
      BindAsyncOk(w1, n, p, b);
    } else {
      GoOn(w1, n, p.c, p.base, BindStore(b));
    }
  }
}
