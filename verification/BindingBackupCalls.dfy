/** Every call of a reconcile but the two that unbind leaves the backups alone, and knows enough to go on. */
module BindingBackupCalls {
  import opened Options
  import opened Remote
  import opened BindingWorld
  import opened BindingReconciler
  import opened BindingInvariant
  import opened BindingSteps
  import opened BindingPolls
  import opened BindingRotations
  import opened BindingLimits
  import opened BindingBackups
  import BindingRuns
  import BindingSafety

  /** `p1` goes on where `p` stood: about the same deletion and the same id, or none. */
  predicate Follows(p: Proc, p1: Proc) {
    && Sound(p1) && (p1.pc.CreateBackup? ==> p.pc.RenameSecond?)
    && p1.c.deleting == p.c.deleting && p1.c.stale == p.c.stale
    && (p1.base.id == p.base.id || p1.base.id.None? || p.c.deleting)
  }

  ghost predicate Turn(w: World, n: Name, p: Proc, w1: World, cred: Id) {
    Quiet(w, w1, cred) && (n in w1.procs ==> Follows(p, w1.procs[n]))
  }

  lemma QuietAlike(w: World, v: World, w1: World, cred: Id)
    requires Quiet(w, v, cred) && w1.bindings == v.bindings && w1.sm == v.sm && w1.secrets == v.secrets
    ensures Quiet(w, w1, cred)
  {
  }

  lemma Goes(w: World, v: World, n: Name, p: Proc, c: Binding, base: Status, pc: Pc, cred: Id)
    requires Quiet(w, v, cred) && Follows(p, Proc(c, base, pc))
    ensures Turn(w, n, p, Go(v, n, c, base, pc), cred)
  {
    hide Quiet, Follows;
    QuietAlike(w, v, Go(v, n, c, base, pc), cred);
  }

  lemma Stops(w: World, v: World, n: Name, p: Proc, cred: Id)
    requires Quiet(w, v, cred)
    ensures Turn(w, n, p, Stop(v, n), cred)
  {
    hide Quiet, Follows;
    QuietAlike(w, v, Stop(v, n), cred);
  }

  lemma Finishes(w: World, v: World, n: Name, p: Proc, c: Binding, status: Status, cred: Id)
    requires Quiet(w, v, cred) && Prepared(p.base) && Prepared(status) && c.deleting == p.c.deleting && c.stale == p.c.stale
    ensures Turn(w, n, p, Finish(v, n, c, p.base, status), cred)
  {
    hide Quiet;
    Goes(w, v, n, p, c.(status := status), p.base, Save, cred);
  }

  lemma QuietSelf(w: World, cred: Id)
    ensures Quiet(w, w, cred)
  {
  }

  /** Of a sound reconcile the failure exits are sound, and so is stopping. */
  lemma Leaves(w: World, v: World, n: Name, p: Proc, cred: Id)
    requires Quiet(w, v, cred) && Sound(p)
    ensures Turn(w, n, p, Stop(v, n), cred)
    ensures Turn(w, n, p, Finish(v, n, p.c, p.base, p.c.status.Unsucceeded()), cred)
  {
    hide Turn, Quiet, Finish, Stop;
    Stops(w, v, n, p, cred);
    Finishes(w, v, n, p, p.c, p.c.status.Unsucceeded(), cred);
  }

  /** A call that comes before no other than those of a rotation. */
  predicate Plain(pc: Pc) {
    pc != InitConditions && pc != RotateSave && !Turning(pc)
  }

  lemma GoesOn(w: World, v: World, n: Name, p: Proc, pc: Pc, cred: Id)
    requires Quiet(w, v, cred) && Sound(p) && Plain(pc)
    ensures Turn(w, n, p, Go(v, n, p.c, p.base, pc), cred)
  {
    hide Turn, Quiet, Go;
    Goes(w, v, n, p, p.c, p.base, pc, cred);
  }

  // ----- status writes

  lemma WriteTurn(w: World, n: Name, p0: Proc, p: Proc, ch: Choice, next: Option<Pc>, cred: Id)
    requires Prepared(p.c.status) && (next.Some? ==> Plain(next.value))
    requires p.c.deleting == p0.c.deleting && p.c.stale == p0.c.stale
    requires p.c.status.id == p0.base.id || p.c.status.id.None? || p0.c.deleting || next.None?
    ensures Turn(w, n, p0, WriteStatus(w, n, p, ch, next), cred)
  {
    hide Turn, Quiet, Go, Stop, Prepared;
    QuietSelf(w, cred);
    Stops(w, w, n, p0, cred);
    if ch.call != Rejected && Unchanged(w, n, p.c) {
      var w1 := PutStatus(w, n, p.c.status);
      QuietStatus(w, n, p.c.status, cred);
      Stops(w, w1, n, p0, cred);
      if next.Some? {
        Goes(w, w1, n, p0, p.c.(rv := w.clock), p.c.status, next.value, cred);
      }
    }
  }

  lemma InitTurn(w: World, n: Name, p: Proc, ch: Choice, cred: Id)
    requires At(w, n, p) && Sound(p) && p.pc == InitConditions
    ensures Turn(w, n, p, AdvanceInit(w, n, p, ch), cred)
  {
    hide At, Steady, CoreOk, Turn, WriteStatus;
    AtSteady(w, n, p);
    WriteTurn(w, n, p, p.(c := p.c.(status := p.c.status.(ready := false).Unsucceeded())), ch, Some(FetchInstance), cred);
  }

  lemma DeleteSaveTurn(w: World, n: Name, p: Proc, ch: Choice, cred: Id)
    requires At(w, n, p) && Sound(p) && p.pc == DeleteSave
    ensures Turn(w, n, p, WriteStatus(w, n, p, ch, Some(DeleteDropSecret)), cred)
  {
    hide At, Steady, CoreOk, Turn, WriteStatus;
    AtSteady(w, n, p);
    WriteTurn(w, n, p, p, ch, Some(DeleteDropSecret), cred);
  }

  lemma RotateSaveTurn(w: World, n: Name, p: Proc, ch: Choice, cred: Id)
    requires Sound(p) && p.pc == RotateSave
    ensures Turn(w, n, p, WriteStatus(w, n, p, ch, Some(ReadyCheck)), cred)
  {
    hide Turn, WriteStatus;
    WriteTurn(w, n, p, p, ch, Some(ReadyCheck), cred);
  }

  lemma SaveTurn(w: World, n: Name, p: Proc, ch: Choice, cred: Id)
    requires Sound(p) && p.pc == Save
    ensures Turn(w, n, p, WriteStatus(w, n, p, ch, None), cred)
  {
    hide Turn, WriteStatus;
    WriteTurn(w, n, p, p, ch, None, cred);
  }

  // ----- calls that only read

  lemma FetchInstanceTurn(w: World, n: Name, p: Proc, ch: Choice, cred: Id)
    requires Sound(p)
    ensures Turn(w, n, p, AdvanceFetchInstance(w, n, p, ch), cred)
  {
    hide Turn, Quiet, Go, Stop, Finish, Sound;
    QuietSelf(w, cred);
    Leaves(w, w, n, p, cred);
    GoesOn(w, w, n, p, DeleteDropSecret, cred);
    if Dispatch(p.c).Some? {
      GoesOn(w, w, n, p, Dispatch(p.c).value, cred);
    }
  }

  lemma PollStatusTurn(w: World, n: Name, p: Proc, ch: Choice, cred: Id)
    requires Sound(p)
    ensures Turn(w, n, p, AdvancePollStatus(w, n, p, ch), cred)
  {
    hide Turn, Quiet, Go, Stop, Finish, SmStatus;
    QuietSelf(w, cred);
    Leaves(w, w, n, p, cred);
    GoesOn(w, w, n, p, PollProbe, cred);
    GoesOn(w, w, n, p, PollFetch, cred);
    GoesOn(w, w, n, p, PollDropSecret, cred);
    Goes(w, w, n, p, p.c.(status := p.c.status.Unsucceeded()), p.base, CleanupUnbind, cred);
    Finishes(w, w, n, p, p.c, p.c.status.Unsucceeded().NoOperation(), cred);
  }

  lemma PollReadTurn(w: World, n: Name, p: Proc, ch: Choice, cred: Id)
    requires Sound(p)
    ensures Turn(w, n, p, AdvancePollProbe(w, n, p, ch), cred) && Turn(w, n, p, AdvancePollFetch(w, n, p, ch), cred)
  {
    hide Turn, Quiet, Go, Stop, Finish, Sound;
    QuietSelf(w, cred);
    Leaves(w, w, n, p, cred);
    GoesOn(w, w, n, p, PollDropSecret, cred);
    GoesOn(w, w, n, p, PollStore, cred);
  }

  lemma DeleteQueryTurn(w: World, n: Name, p: Proc, ch: Choice, cred: Id)
    requires Sound(p)
    ensures Turn(w, n, p, AdvanceDeleteQuery(w, n, p, ch), cred)
  {
    hide Turn, Quiet, Go, Stop, Finish, OnlyMatch;
    QuietSelf(w, cred);
    Leaves(w, w, n, p, cred);
    GoesOn(w, w, n, p, DeleteDropSecret, cred);
    match OnlyMatch(w, p.c.externalName, n)
    case Some(b) => Finishes(w, w, n, p, p.c, p.c.status.WithId(b).Unsucceeded(), cred);
    case None =>
  }

  lemma CheckExistsTurn(w: World, n: Name, p: Proc, ch: Choice, cred: Id)
    requires Sound(p)
    ensures Turn(w, n, p, AdvanceCheckExists(w, n, p, ch), cred)
  {
    hide Turn, Quiet, Go, Stop, Finish;
    QuietSelf(w, cred);
    Leaves(w, w, n, p, cred);
    Finishes(w, w, n, p, p.c, p.c.status.Lost(), cred);
    GoesOn(w, w, n, p, AddFinalizer, cred);
  }

  lemma CheckedReady(w: World, n: Name, p: Proc)
    requires At(w, n, p) && p.pc == ReadyCheck
    ensures p.c.status.readyCond == Some(true) ==> p.c.status.ready
  {
    hide At, Steady, CoreOk;
    AtSteady(w, n, p);
    ShapeOfCore(w, n, p.c, p.base);
  }

  lemma ReadyCheckTurn(w: World, n: Name, p: Proc, ch: Choice, cred: Id)
    requires At(w, n, p) && Sound(p) && p.pc == ReadyCheck
    ensures Turn(w, n, p, AdvanceReadyCheck(w, n, p, ch), cred)
  {
    hide At, Turn, Quiet, Go, Stop, Finish;
    CheckedReady(w, n, p);
    QuietSelf(w, cred);
    Leaves(w, w, n, p, cred);
    if p.c.status.readyCond == Some(true) {
      Finishes(w, w, n, p, p.c, p.c.status.(rotation := Preparing), cred);
    }
    GoesOn(w, w, n, p, DeleteSelf, cred);
    GoesOn(w, w, n, p, FetchOriginal, cred);
    GoesOn(w, w, n, p, Maintain, cred);
    GoesOn(w, w, n, p, Query, cred);
  }

  lemma FetchOriginalTurn(w: World, n: Name, p: Proc, ch: Choice, cred: Id)
    requires Sound(p)
    ensures Turn(w, n, p, AdvanceFetchOriginal(w, n, p, ch), cred)
  {
    hide Turn, Quiet, Go, Stop, Finish;
    QuietSelf(w, cred);
    Leaves(w, w, n, p, cred);
    GoesOn(w, w, n, p, DeleteSelf, cred);
    Finishes(w, w, n, p, p.c, p.c.status.(pendingTermination := true), cred);
  }

  lemma MaintainTurn(w: World, n: Name, p: Proc, ch: Choice, cred: Id)
    requires Sound(p)
    ensures Turn(w, n, p, AdvanceMaintain(w, n, p, ch), cred)
  {
    hide Turn, Quiet, Go, Stop, Finish;
    QuietSelf(w, cred);
    Leaves(w, w, n, p, cred);
    Finishes(w, w, n, p, p.c, p.c.status, cred);
    GoesOn(w, w, n, p, MaintainStore, cred);
  }

  lemma ResyncPrepared(s: Status, b: Id, seen: SmBinding)
    requires Prepared(s)
    ensures Prepared(Resync(s, b, seen))
  {
  }

  lemma QueryTurn(w: World, n: Name, p: Proc, ch: Choice, cred: Id)
    requires Sound(p)
    ensures Turn(w, n, p, AdvanceQuery(w, n, p, ch), cred)
  {
    hide Turn, Quiet, Go, Stop, Finish, OnlyMatch, Resync;
    QuietSelf(w, cred);
    Leaves(w, w, n, p, cred);
    GoesOn(w, w, n, p, Bind, cred);
    match OnlyMatch(w, p.c.externalName, n)
    case Some(b) => {
      if b in w.sm {
        ResyncPrepared(p.c.status, b, w.sm[b]);
        GoesOn(w, w, n, p, RecoverStore(b, w.sm[b]), cred);
        Finishes(w, w, n, p, p.c, Resync(p.c.status, b, w.sm[b]), cred);
      }
    }
    case None =>
  }

  // ----- secrets

  /** The only credentials an unmarked backup may show are those it was made for. */
  predicate OnlyLabel(bs: Bindings, n: Name, b: Id, cred: Id) {
    Unmarked(bs, n, cred) ==> b == cred
  }

  lemma LabelNamed(w: World, n: Name, cred: Id)
    requires Steady(w, n) && LabelsLive(w.bindings, w.sm, cred) && Unmarked(w.bindings, n, cred)
    ensures Named(w.sm, cred, n)
  {
    SteadyUse(w, n);
    hide Steady;
    assert Live(w.sm, cred) && Backs(w.bindings, n, cred);
  }

  /** It holds nothing else. */
  lemma HeldLabel(w: World, n: Name, c: Binding, base: Status, b: Id, cred: Id)
    requires Steady(w, n) && LabelsLive(w.bindings, w.sm, cred)
    requires CopyOk(w.bindings, n, c, base) && Current(w.bindings, n, c) && base.id == Some(b)
    ensures OnlyLabel(w.bindings, n, b, cred)
  {
    SteadyHeld(w, n);
    hide Steady;
    assert Holds(w.bindings, n, b);
    if Unmarked(w.bindings, n, cred) {
      LabelNamed(w, n, cred);
    }
  }

  /** It adopts nothing else. */
  lemma FoundLabel(w: World, n: Name, b: Id, cred: Id)
    requires Steady(w, n) && LabelsLive(w.bindings, w.sm, cred) && Adoptable(w.bindings, w.sm, n, b)
    ensures OnlyLabel(w.bindings, n, b, cred)
  {
    hide Steady;
    if Unmarked(w.bindings, n, cred) {
      LabelNamed(w, n, cred);
    }
  }

  lemma StoreTurn(w: World, n: Name, p: Proc, ch: Choice, b: Id, done: Status, cred: Id)
    requires Sound(p) && Prepared(done) && OnlyLabel(w.bindings, n, b, cred)
    ensures Turn(w, n, p, AdvanceStore(w, n, p, ch, b, done), cred)
  {
    hide Turn, Quiet, Finish;
    QuietSelf(w, cred);
    QuietSecret(w, n, b, cred);
    Leaves(w, w, n, p, cred);
    Leaves(w, StoreSecret(w, n, b), n, p, cred);
    Finishes(w, StoreSecret(w, n, b), n, p, p.c, done, cred);
  }

  lemma HeldTurn(w: World, n: Name, p: Proc, ch: Choice, done: Status, cred: Id)
    requires At(w, n, p) && Sound(p) && LabelsLive(w.bindings, w.sm, cred) && (p.pc == PollStore || p.pc == MaintainStore)
    requires Prepared(p.c.status) ==> Prepared(done)
    ensures p.c.status.id.Some? && Turn(w, n, p, AdvanceStore(w, n, p, ch, p.c.status.id.value, done), cred)
  {
    hide At, Steady, LabelsLive, OnlyLabel, Usable, Created, StatusShape, Turn, AdvanceStore, BackupShape;
    AtSteady(w, n, p);
    HeldLabel(w, n, p.c, p.base, p.base.id.value, cred);
    hide CoreOk;
    StoreTurn(w, n, p, ch, p.c.status.id.value, done, cred);
  }

  lemma RecoverStoreTurn(w: World, n: Name, p: Proc, ch: Choice, b: Id, seen: SmBinding, cred: Id)
    requires At(w, n, p) && Sound(p) && LabelsLive(w.bindings, w.sm, cred) && p.pc == RecoverStore(b, seen)
    ensures Turn(w, n, p, AdvanceStore(w, n, p, ch, b, Resync(p.c.status, b, seen)), cred)
  {
    hide At, Steady, CoreOk, LabelsLive, OnlyLabel, Adoptable, Usable, Created, Turn, AdvanceStore, Resync;
    AtSteady(w, n, p);
    FoundLabel(w, n, b, cred);
    ResyncPrepared(p.c.status, b, seen);
    StoreTurn(w, n, p, ch, b, Resync(p.c.status, b, seen), cred);
  }

  lemma BindStoreTurn(w: World, n: Name, p: Proc, ch: Choice, b: Id, cred: Id)
    requires At(w, n, p) && Sound(p) && LabelsLive(w.bindings, w.sm, cred) && p.pc == BindStore(b)
    ensures Turn(w, n, p, AdvanceStore(w, n, p, ch, b, p.c.status.WithId(b).Success()), cred)
  {
    hide At, Steady, CoreOk, LabelsLive, OnlyLabel, Adoptable, Usable, Created, Turn, AdvanceStore;
    AtSteady(w, n, p);
    FoundLabel(w, n, b, cred);
    StoreTurn(w, n, p, ch, b, p.c.status.WithId(b).Success(), cred);
  }

  lemma DropSecretTurn(w: World, n: Name, p: Proc, ch: Choice, next: Pc, cred: Id)
    requires Sound(p) && Plain(next)
    ensures Turn(w, n, p, AdvanceDropSecret(w, n, p, ch, next), cred)
  {
    hide Turn, Quiet, Go, Stop, Sound;
    QuietSelf(w, cred);
    QuietDrop(w, n, cred);
    Leaves(w, w, n, p, cred);
    Leaves(w, DropSecret(w, n), n, p, cred);
    GoesOn(w, DropSecret(w, n), n, p, next, cred);
  }

  // ----- metadata

  /** Nothing is left in SM of a resource whose finalizer is about to go. */
  lemma Released(w: World, n: Name, p: Proc)
    requires At(w, n, p) && BindingSafety.ReleasesFinalizer(p.pc) && p.c.finalizer
    ensures BackupsMatch(w.bindings, w.sm) && Nameless(w.sm, n)
  {
    BindingSafety.ReleaseIsClear(w, n, p);
    AtSteady(w, n, p);
    hide At, Steady, Nameless, CoreOk, PcOk;
    SteadyUse(w, n);
  }

  lemma PollRemoveFinalizerTurn(w: World, n: Name, p: Proc, ch: Choice, cred: Id)
    requires At(w, n, p) && Sound(p) && p.pc == PollRemoveFinalizer
    ensures Turn(w, n, p, AdvancePollRemoveFinalizer(w, n, p, ch), cred)
  {
    hide At, Turn, Quiet, Stop, Finish, PutMeta, Nameless, BackupsMatch;
    QuietSelf(w, cred);
    Leaves(w, w, n, p, cred);
    Finishes(w, w, n, p, p.c, p.c.status.WithoutId().NoOperation(), cred);
    if p.c.finalizer && ch.call != Rejected && Unchanged(w, n, p.c) {
      Released(w, n, p);
      QuietMeta(w, n, false, p.c.forceRotate, cred);
      var w1 := PutMeta(w, n, false, p.c.forceRotate);
      Leaves(w, w1, n, p, cred);
      Finishes(w, w1, n, p, p.c.(finalizer := false, rv := w.clock), p.base.WithoutId().NoOperation(), cred);
    }
  }

  lemma DeleteRemoveFinalizerTurn(w: World, n: Name, p: Proc, ch: Choice, cred: Id)
    requires At(w, n, p) && Sound(p) && p.pc == DeleteRemoveFinalizer
    ensures Turn(w, n, p, AdvanceDeleteRemoveFinalizer(w, n, p, ch), cred)
  {
    hide At, Turn, Quiet, Stop, PutMeta, Nameless, BackupsMatch;
    QuietSelf(w, cred);
    Leaves(w, w, n, p, cred);
    if p.c.finalizer && ch.call != Rejected && Unchanged(w, n, p.c) {
      Released(w, n, p);
      QuietMeta(w, n, false, p.c.forceRotate, cred);
      Leaves(w, PutMeta(w, n, false, p.c.forceRotate), n, p, cred);
    }
  }

  lemma ProceedTurn(w: World, v: World, n: Name, p: Proc, c: Binding, ch: Choice, cred: Id)
    requires Quiet(w, v, cred) && Sound(p) && c.deleting == p.c.deleting && c.stale == p.c.stale && c.status == p.c.status
    ensures Turn(w, n, p, Proceed(v, n, c, p.base, ch), cred)
  {
    hide Turn, Quiet, Go, Finish;
    Finishes(w, v, n, p, c, c.status.Unsucceeded(), cred);
    Goes(w, v, n, p, c, p.base, RotateAnnotation, cred);
    Goes(w, v, n, p, c, p.base, ReadyCheck, cred);
  }

  lemma AddFinalizerTurn(w: World, n: Name, p: Proc, ch: Choice, cred: Id)
    requires Sound(p)
    ensures Turn(w, n, p, AdvanceAddFinalizer(w, n, p, ch), cred)
  {
    hide Turn, Quiet, Stop, Proceed, PutMeta;
    QuietSelf(w, cred);
    Leaves(w, w, n, p, cred);
    ProceedTurn(w, w, n, p, p.c, ch, cred);
    if Unchanged(w, n, p.c) {
      QuietMeta(w, n, true, p.c.forceRotate, cred);
      var w1 := PutMeta(w, n, true, p.c.forceRotate);
      Leaves(w, w1, n, p, cred);
      ProceedTurn(w, w1, n, p, p.c.(finalizer := true, rv := w.clock), ch, cred);
    }
  }

  lemma DeleteSelfTurn(w: World, n: Name, p: Proc, ch: Choice, cred: Id)
    requires At(w, n, p) && Sound(p) && p.pc == DeleteSelf
    ensures Turn(w, n, p, AdvanceDeleteSelf(w, n, ch), cred)
  {
    hide At, Steady, Turn, Quiet, Stop, DeleteObject, Retired, StatusShape, BackupShape, Sound, BackupsMatch, Nameless;
    AtSteady(w, n, p);
    QuietSelf(w, cred);
    Leaves(w, w, n, p, cred);
    if n in w.bindings {
      QuietDeletion(w, n, cred);
      Leaves(w, DeleteObject(w, n), n, p, cred);
    }
  }

  // ----- rotation

  lemma RotateTurn(w: World, v: World, n: Name, p: Proc, c: Binding, cred: Id)
    requires Quiet(w, v, cred) && Sound(p) && c.deleting == p.c.deleting && c.stale == p.c.stale && c.status == p.base
    ensures Turn(w, n, p, Rotate(v, n, c, p.base), cred)
  {
    hide Turn, Quiet, Go;
    Goes(w, v, n, p, c, p.base, ReadyCheck, cred);
    Goes(w, v, n, p, c.(status := p.base.(rotation := NotRotating)), p.base, RotateSave, cred);
    if p.base.rotation == Preparing {
      Goes(w, v, n, p, c, p.base, RotateList, cred);
    }
  }

  lemma RotateAnnotationTurn(w: World, n: Name, p: Proc, ch: Choice, cred: Id)
    requires Sound(p) && Untouched(p) && p.c.finalizer
    ensures Turn(w, n, p, AdvanceRotateAnnotation(w, n, p, ch), cred)
  {
    hide Turn, Quiet, Stop, Rotate, PutMeta;
    QuietSelf(w, cred);
    Leaves(w, w, n, p, cred);
    RotateTurn(w, w, n, p, p.c, cred);
    if Unchanged(w, n, p.c) {
      QuietMeta(w, n, p.c.finalizer, false, cred);
      var w1 := PutMeta(w, n, p.c.finalizer, false);
      Leaves(w, w1, n, p, cred);
      RotateTurn(w, w1, n, p, p.c.(forceRotate := false, rv := w.clock), cred);
    }
  }

  lemma GivesUp(w: World, v: World, n: Name, p: Proc, cred: Id)
    requires Quiet(w, v, cred) && Sound(p)
    ensures Turn(w, n, p, Go(v, n, p.c.(status := p.c.status.Rotated()), p.base, RotateSave), cred)
  {
    hide Turn, Quiet, Go;
    Goes(w, v, n, p, p.c.(status := p.c.status.Rotated()), p.base, RotateSave, cred);
  }

  lemma RotateListTurn(w: World, n: Name, p: Proc, ch: Choice, cred: Id)
    requires Sound(p) && p.pc == RotateList
    ensures Turn(w, n, p, AdvanceRotateList(w, n, p, ch), cred)
  {
    hide Turn, Quiet, Go, Stop, HasBackup;
    QuietSelf(w, cred);
    Leaves(w, w, n, p, cred);
    GivesUp(w, w, n, p, cred);
    Goes(w, w, n, p, p.c, p.base, RenameFirst(ch.suffix), cred);
  }

  lemma RotationErrorTurn(w: World, v: World, n: Name, p: Proc, ch: Choice, cred: Id)
    requires Quiet(w, v, cred) && Sound(p) && Untouched(p) && Turning(p.pc)
    ensures Turn(w, n, p, RotationError(v, n, p, ch), cred)
  {
    hide Turn, Quiet, Finish;
    Leaves(w, v, n, p, cred);
    Finishes(w, v, n, p, p.c, p.c.status.(rotation := Preparing), cred);
  }

  lemma RenameFirstTurn(w: World, n: Name, p: Proc, ch: Choice, s: string, cred: Id)
    requires Sound(p) && Untouched(p) && p.pc == RenameFirst(s)
    ensures Turn(w, n, p, AdvanceRenameFirst(w, n, p, ch, s), cred)
  {
    hide Turn, Quiet, Go, RotationError;
    QuietSelf(w, cred);
    RotationErrorTurn(w, w, n, p, ch, cred);
    if p.c.status.id.Some? && p.c.status.id.value in w.sm {
      var b := p.c.status.id.value;
      QuietRename(w, b, p.c.externalName + s, None, cred);
      var w1 := SmRenameFirst(w, b, p.c.externalName + s);
      RotationErrorTurn(w, w1, n, p, ch, cred);
      Goes(w, w1, n, p, p.c, p.base, RenameSecond(s), cred);
    }
  }

  lemma RenameSecondTurn(w: World, n: Name, p: Proc, ch: Choice, s: string, cred: Id)
    requires Sound(p) && Untouched(p) && p.pc == RenameSecond(s)
    ensures Turn(w, n, p, AdvanceRenameSecond(w, n, p, ch, s), cred)
  {
    hide Turn, Quiet, Go, RotationError;
    QuietSelf(w, cred);
    RotationErrorTurn(w, w, n, p, ch, cred);
    if p.c.status.id.Some? && p.c.status.id.value in w.sm {
      var b := p.c.status.id.value;
      QuietRename(w, b, w.sm[b].name, Some(n + s), cred);
      var w1 := SmRenameSecond(w, b, n + s);
      RotationErrorTurn(w, w1, n, p, ch, cred);
      Goes(w, w1, n, p, p.c, p.base, CreateBackup(s), cred);
    }
  }

  lemma BackupFree(w: World, n: Name, p: Proc, s: string)
    requires At(w, n, p) && p.pc == CreateBackup(s)
    ensures n + s !in w.bindings && n + s !in w.secrets && Untouched(p)
  {
    AtSteady(w, n, p);
    hide At, CoreOk, HasBackup;
    assert Bounded(w);
  }

  lemma CreateBackupTurn(w: World, n: Name, p: Proc, ch: Choice, s: string, cred: Id)
    requires At(w, n, p) && ProcBacked(w, p, cred) && p.pc == CreateBackup(s)
    ensures Turn(w, n, p, AdvanceCreateBackup(w, n, p, ch, s), cred)
  {
    hide At, Turn, Quiet, Go, Stop, RotationError, Unasked, Live, CreateObject, Sound;
    BackupFree(w, n, p, s);
    QuietSelf(w, cred);
    Leaves(w, w, n, p, cred);
    RotationErrorTurn(w, w, n, p, ch, cred);
    var o := NewBinding(w, p.c.status.id, Some(n), p.c.externalName + s, Some(false));
    QuietCreation(w, n + s, o, cred);
    var w1 := CreateObject(w, n + s, o);
    RotationErrorTurn(w, w1, n, p, ch, cred);
    GivesUp(w, w1, n, p, cred);
  }

  lemma BindTurn(w: World, n: Name, p: Proc, ch: Choice, cred: Id)
    requires Sound(p) && Bounded(w)
    ensures Turn(w, n, p, AdvanceBind(w, n, p, ch), cred)
  {
    hide Turn, Quiet, Go, Stop, Finish, SmBind;
    QuietSelf(w, cred);
    Leaves(w, w, n, p, cred);
    QuietBind(w, n, p.c.externalName, ch.async, cred);
    var w1 := SmBind(w, n, p.c.externalName, ch.async);
    Leaves(w, w1, n, p, cred);
    Finishes(w, w1, n, p, p.c, p.c.status.WithId(w.nextId).Running(Create, w.nextId).Unsucceeded(), cred);
    GoesOn(w, w1, n, p, BindStore(w.nextId), cred);
  }
}
