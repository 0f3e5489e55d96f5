/**
 What a stored status tells: a recorded removal was asked of SM, and conditions, once there, always say
 whether the binding is ready.
 */
module BindingTold {
  import opened Options
  import opened Remote
  import opened BindingWorld
  import opened BindingReconciler
  import opened BindingInvariant
  import opened BindingSteps
  import opened BindingPolls
  import opened BindingRuns

  /** The status records no removal that SM does not know of. */
  predicate Told(w: World, s: Status) {
    s.id.Some? ==>
      && s.id.value < w.nextId
      && (s.opType == Some(Delete) && s.id.value in w.sm ==> w.sm[s.id.value].unbinding != NotAsked)
  }

  predicate StoredTold(w: World, o: Binding) {
    Told(w, o.status) && (o.status.HasConditions() || o.status.id.Some? || o.finalizer ==> o.status.readyCond.Some?)
  }

  /** What a reconcile is about to record, SM told it. */
  predicate PcTold(w: World, pc: Pc) {
    match pc
    case RecoverStore(b, seen) => b < w.nextId && (seen.unbinding == Asked && b in w.sm ==> w.sm[b].unbinding != NotAsked)
    case BindStore(b) => b < w.nextId
    case _ => true
  }

  predicate ProcTold(w: World, p: Proc) {
    && PcTold(w, p.pc)
    && Told(w, p.base) && Told(w, p.c.status)
    && (p.pc != InitConditions ==> p.base.readyCond.Some? && p.c.status.readyCond.Some?)
  }

  ghost predicate AllTold(w: World) {
    && (forall n :: n in w.bindings ==> StoredTold(w, w.bindings[n]))
    && (forall n :: n in w.procs ==> ProcTold(w, w.procs[n]))
  }

  /** SM forgets no request, and gives every new binding a new id. */
  ghost predicate Remembers(w: World, w1: World) {
    && w.nextId <= w1.nextId
    && forall b: Id :: b < w.nextId && b in w1.sm ==>
         b in w.sm && (w.sm[b].unbinding != NotAsked ==> w1.sm[b].unbinding != NotAsked)
  }

  lemma ToldStays(w: World, w1: World, s: Status)
    requires Remembers(w, w1) && Told(w, s)
    ensures Told(w1, s)
  {
  }

  lemma PcToldStays(w: World, w1: World, pc: Pc)
    requires Remembers(w, w1) && PcTold(w, pc)
    ensures PcTold(w1, pc)
  {
  }

  /** Every object of the new world is one of the old as far as its status goes, or was told. */
  ghost predicate Keeps(w: World, w1: World) {
    forall m :: m in w1.bindings ==>
      StoredTold(w1, w1.bindings[m])
      || (m in w.bindings && w1.bindings[m].status == w.bindings[m].status && (w1.bindings[m].finalizer ==> w.bindings[m].finalizer))
  }

  /** What a call of the reconcile of `n` does. */
  ghost predicate Tells(w: World, n: Name, w1: World) {
    && Remembers(w, w1) && Keeps(w, w1) && w1.procs - {n} == w.procs - {n}
    && (n in w1.procs ==> ProcTold(w1, w1.procs[n]))
  }

  lemma TellsAll(w: World, n: Name, w1: World)
    requires AllTold(w) && Tells(w, n, w1)
    ensures AllTold(w1)
  {
    hide Remembers, Told, PcTold;
    forall m | m in w1.bindings
      ensures StoredTold(w1, w1.bindings[m])
    {
      if m in w.bindings { if Told(w, w1.bindings[m].status) { ToldStays(w, w1, w1.bindings[m].status); } }
    }
    forall m | m in w1.procs
      ensures ProcTold(w1, w1.procs[m])
    {
      if m != n {
        assert m in w1.procs - {n};
        assert w1.procs[m] == (w1.procs - {n})[m] == (w.procs - {n})[m] == w.procs[m];
        PcToldStays(w, w1, w.procs[m].pc);
        ToldStays(w, w1, w.procs[m].base);
        ToldStays(w, w1, w.procs[m].c.status);
      }
    }
  }

  // ----- putting a call together

  /** The two stores after a call that leaves the statuses alone. */
  ghost predicate Same(w: World, v: World) {
    Remembers(w, v) && Keeps(w, v) && v.procs == w.procs
  }

  lemma GoesTold(w: World, v: World, n: Name, c: Binding, base: Status, pc: Pc)
    requires Same(w, v) && ProcTold(v, Proc(c, base, pc))
    ensures Tells(w, n, Go(v, n, c, base, pc))
  {
    assert v.procs[n := Proc(c, base, pc)] - {n} == v.procs - {n};
  }

  lemma StopsTold(w: World, v: World, n: Name)
    requires Same(w, v)
    ensures Tells(w, n, Stop(v, n))
  {
    assert (v.procs - {n}) - {n} == v.procs - {n};
  }

  lemma SameSelf(w: World)
    ensures Same(w, w)
  {
  }

  /** The stores after a write of a told status. */
  lemma WriteTold(w: World, n: Name, p: Proc, ch: Choice, next: Option<Pc>)
    requires Told(w, p.c.status) && p.c.status.readyCond.Some? && (next.Some? ==> PcTold(w, next.value))
    ensures Tells(w, n, WriteStatus(w, n, p, ch, next))
  {
    SameSelf(w);
    StopsTold(w, w, n);
    if ch.call != Rejected && Unchanged(w, n, p.c) {
      var w1 := PutStatus(w, n, p.c.status);
      assert Same(w, w1);
      StopsTold(w, w1, n);
      if next.Some? {
        GoesTold(w, w1, n, p.c.(rv := w.clock), p.c.status, next.value);
      }
    }
    hide Tells, Same;
  }

  /** The answers of the outside world end up in a told status, or in none. */
  lemma EndsTold(w: World, v: World, n: Name, p: Proc, c: Binding, status: Status)
    requires Same(w, v) && Told(v, p.base) && p.base.readyCond.Some? && Told(v, status) && status.readyCond.Some?
    ensures Tells(w, n, Finish(v, n, c, p.base, status))
  {
    hide Told, Same, Tells;
    GoesTold(w, v, n, c.(status := status), p.base, Save);
  }

  // ----- polls

  lemma FetchInstanceTold(w: World, n: Name, p: Proc, ch: Choice)
    requires ProcTold(w, p) && p.pc == FetchInstance
    ensures Tells(w, n, AdvanceFetchInstance(w, n, p, ch))
  {
    hide Tells, Same, Finish, Go, Stop;
    SameSelf(w);
    StopsTold(w, w, n);
    EndsTold(w, w, n, p, p.c, p.c.status.Unsucceeded());
    GoesTold(w, w, n, p.c, p.base, DeleteDropSecret);
    if Dispatch(p.c).Some? {
      GoesTold(w, w, n, p.c, p.base, Dispatch(p.c).value);
    }
  }

  lemma PollStatusTold(w: World, n: Name, p: Proc, ch: Choice)
    requires ProcTold(w, p) && p.pc == PollStatus
    ensures Tells(w, n, AdvancePollStatus(w, n, p, ch))
  {
    hide Tells, Same, Finish, Go, Stop, SmStatus;
    SameSelf(w);
    StopsTold(w, w, n);
    var failed := p.c.status.Unsucceeded();
    EndsTold(w, w, n, p, p.c, failed);
    EndsTold(w, w, n, p, p.c, failed.NoOperation());
    GoesTold(w, w, n, p.c, p.base, PollProbe);
    GoesTold(w, w, n, p.c, p.base, PollFetch);
    GoesTold(w, w, n, p.c, p.base, PollDropSecret);
    GoesTold(w, w, n, p.c.(status := failed), p.base, CleanupUnbind);
  }

  lemma PollReadTold(w: World, n: Name, p: Proc, ch: Choice)
    requires ProcTold(w, p) && p.pc != InitConditions
    ensures Tells(w, n, AdvancePollProbe(w, n, p, ch)) && Tells(w, n, AdvancePollFetch(w, n, p, ch))
  {
    hide Tells, Same, Finish, Go, Stop;
    SameSelf(w);
    StopsTold(w, w, n);
    EndsTold(w, w, n, p, p.c, p.c.status.Unsucceeded());
    GoesTold(w, w, n, p.c, p.base, PollDropSecret);
    GoesTold(w, w, n, p.c, p.base, PollStore);
  }

  lemma StoreTold(w: World, n: Name, p: Proc, ch: Choice, b: Id, done: Status)
    requires ProcTold(w, p) && p.pc != InitConditions && Told(w, done) && done.readyCond.Some?
    ensures Tells(w, n, AdvanceStore(w, n, p, ch, b, done))
  {
    var w1 := if ch.call == Rejected then w else StoreSecret(w, n, b);
    assert Same(w, w1);
    hide Tells, Same, Finish;
    EndsTold(w, w1, n, p, p.c, p.c.status.Unsucceeded());
    EndsTold(w, w1, n, p, p.c, done);
  }

  lemma DropTold(w: World, n: Name, p: Proc, ch: Choice, next: Pc)
    requires ProcTold(w, p) && p.pc != InitConditions && (next == PollRemoveFinalizer || next == DeleteRemoveFinalizer)
    ensures Tells(w, n, AdvanceDropSecret(w, n, p, ch, next))
  {
    assert Same(w, DropSecret(w, n));
    SameSelf(w);
    hide Tells, Same, Go, Stop;
    StopsTold(w, w, n);
    StopsTold(w, DropSecret(w, n), n);
    GoesTold(w, DropSecret(w, n), n, p.c, p.base, next);
  }

  /** A metadata write that gives no finalizer to an object whose conditions are not there yet. */
  lemma MetaTold(w: World, n: Name, finalizer: bool, forceRotate: bool)
    requires n in w.bindings && Told(w, w.bindings[n].status)
    requires finalizer && !w.bindings[n].finalizer ==> w.bindings[n].status.readyCond.Some?
    ensures var w1 := PutMeta(w, n, finalizer, forceRotate); Same(w, w1) && w1.sm == w.sm && w1.nextId == w.nextId
  {
  }

  lemma PollRemoveFinalizerTold(w: World, n: Name, p: Proc, ch: Choice)
    requires ProcTold(w, p) && p.pc != InitConditions && (n in w.bindings ==> Told(w, w.bindings[n].status))
    ensures Tells(w, n, AdvancePollRemoveFinalizer(w, n, p, ch))
  {
    hide Tells, Same, Finish, Stop, PutMeta;
    SameSelf(w);
    StopsTold(w, w, n);
    EndsTold(w, w, n, p, p.c, p.c.status.WithoutId().NoOperation());
    if n in w.bindings {
      var w1 := PutMeta(w, n, false, p.c.forceRotate);
      MetaTold(w, n, false, p.c.forceRotate);
      StopsTold(w, w1, n);
      EndsTold(w, w1, n, p, p.c.(finalizer := false, rv := w.clock), p.base.WithoutId().NoOperation());
    }
  }

  lemma DeleteRemoveFinalizerTold(w: World, n: Name, p: Proc, ch: Choice)
    requires n in w.bindings ==> Told(w, w.bindings[n].status)
    ensures Tells(w, n, AdvanceDeleteRemoveFinalizer(w, n, p, ch))
  {
    hide Tells, Same, Stop, PutMeta;
    SameSelf(w);
    StopsTold(w, w, n);
    if n in w.bindings {
      MetaTold(w, n, false, p.c.forceRotate);
      StopsTold(w, PutMeta(w, n, false, p.c.forceRotate), n);
    }
  }

  // ----- unbinds

  /** After the request, a binding SM keeps was asked for. */
  lemma UnbindTold(w: World, b: Id, async: bool)
    ensures var w1 := SmUnbind(w, b, async);
      Same(w, w1) && w1.nextId == w.nextId && (b in w1.sm ==> w1.sm[b].unbinding != NotAsked)
  {
  }

  lemma CleanupTold(w: World, n: Name, p: Proc, ch: Choice)
    requires ProcTold(w, p) && p.pc == CleanupUnbind
    ensures Tells(w, n, AdvanceCleanup(w, n, p, ch))
  {
    hide Tells, Same, Finish, Stop;
    SameSelf(w);
    StopsTold(w, w, n);
    if p.c.status.id.Some? {
      var b := p.c.status.id.value;
      var w1 := if ch.call == Rejected then w else SmUnbind(w, b, ch.async);
      UnbindTold(w, b, ch.async);
      assert Same(w, w1) && Told(w1, p.base) && Told(w1, p.c.status);
      StopsTold(w, w1, n);
      EndsTold(w, w1, n, p, p.c, p.c.status.Unsucceeded());
      if ch.call == Ok {
        EndsTold(w, w1, n, p, p.c, p.c.status.Running(Delete, b));
        EndsTold(w, w1, n, p, p.c, p.c.status.NoOperation().WithoutId());
      }
    }
  }

  lemma DeleteUnbindTold(w: World, n: Name, p: Proc, ch: Choice)
    requires ProcTold(w, p) && p.pc == DeleteUnbind
    ensures Tells(w, n, AdvanceDeleteUnbind(w, n, p, ch))
  {
    hide Tells, Same, Finish, Stop, Go;
    SameSelf(w);
    StopsTold(w, w, n);
    if p.c.status.id.Some? {
      var b := p.c.status.id.value;
      var w1 := if ch.call == Rejected then w else SmUnbind(w, b, ch.async);
      UnbindTold(w, b, ch.async);
      assert Same(w, w1) && Told(w1, p.base) && Told(w1, p.c.status);
      EndsTold(w, w1, n, p, p.c, p.c.status.Unsucceeded());
      if ch.call == Ok {
        EndsTold(w, w1, n, p, p.c, p.c.status.Running(Delete, b).Unsucceeded());
        GoesTold(w, w1, n, p.c.(status := p.c.status.WithoutId()), p.base, DeleteSave);
      }
    }
  }

  // ----- ids that SM answers

  /** Nothing recorded is being removed: the id the status takes, it may take. */
  lemma FoundTold(w: World, s: Status, b: Id)
    requires b < w.nextId && s.opType != Some(Delete)
    ensures Told(w, s.WithId(b)) && Told(w, s.WithId(b).Unsucceeded()) && Told(w, s.WithId(b).Success())
  {
  }

  lemma DeleteQueryTold(w: World, n: Name, p: Proc, ch: Choice)
    requires ProcTold(w, p) && p.pc == DeleteQuery && p.c.status.opType != Some(Delete) && Bounded(w)
    ensures Tells(w, n, AdvanceDeleteQuery(w, n, p, ch))
  {
    hide Tells, Same, Finish, Go, Bounded;
    SameSelf(w);
    EndsTold(w, w, n, p, p.c, p.c.status.Unsucceeded());
    GoesTold(w, w, n, p.c, p.base, DeleteDropSecret);
    var found := OnlyMatch(w, p.c.externalName, n);
    if found.Some? {
      assert found.value in Matches(w, p.c.externalName, n);
      assert found.value < w.nextId by { KnownId(w, found.value); }
      FoundTold(w, p.c.status, found.value);
      EndsTold(w, w, n, p, p.c, p.c.status.WithId(found.value).Unsucceeded());
    }
  }

  lemma KnownId(w: World, b: Id)
    requires Bounded(w) && b in w.sm
    ensures b < w.nextId
  {
  }

  /** Recovery adopts a binding in the state SM showed it. */
  lemma ResyncTold(w: World, s: Status, b: Id, seen: SmBinding)
    requires b < w.nextId && s.readyCond.Some? && (seen.unbinding == Asked && b in w.sm ==> w.sm[b].unbinding != NotAsked)
    ensures Told(w, Resync(s, b, seen)) && Resync(s, b, seen).readyCond.Some?
  {
  }

  lemma QueryTold(w: World, n: Name, p: Proc, ch: Choice)
    requires ProcTold(w, p) && p.pc == Query && Bounded(w)
    ensures Tells(w, n, AdvanceQuery(w, n, p, ch))
  {
    hide Tells, Same, Finish, Go, Stop, Bounded, Told, Resync;
    SameSelf(w);
    StopsTold(w, w, n);
    EndsTold(w, w, n, p, p.c, p.c.status.Unsucceeded()) by { UnsucceededTold(w, p.c.status); }
    GoesTold(w, w, n, p.c, p.base, Bind);
    var found := OnlyMatch(w, p.c.externalName, n);
    if found.Some? {
      var b := found.value;
      assert b in Matches(w, p.c.externalName, n);
      KnownId(w, b);
      GoesTold(w, w, n, p.c, p.base, RecoverStore(b, w.sm[b]));
      ResyncTold(w, p.c.status, b, w.sm[b]);
      EndsTold(w, w, n, p, p.c, Resync(p.c.status, b, w.sm[b]));
    }
  }

  lemma UnsucceededTold(w: World, s: Status)
    requires Told(w, s)
    ensures Told(w, s.Unsucceeded()) && s.Unsucceeded().readyCond.Some?
  {
  }

  lemma BoundTold(w: World, n: Name, p: Proc, name: string, async: bool)
    requires ProcTold(w, p) && p.pc == Bind && Bounded(w)
    ensures var w1 := SmBind(w, n, name, async);
      Same(w, w1) && ProcTold(w1, p) && w1.nextId == w.nextId + 1 && (w.nextId in w1.sm ==> p.c.status.id != Some(w.nextId))
  {
    assert w.nextId !in w.sm;
    hide Bounded;
  }

  lemma BindTold(w: World, n: Name, p: Proc, ch: Choice)
    requires ProcTold(w, p) && p.pc == Bind && Bounded(w)
    ensures Tells(w, n, AdvanceBind(w, n, p, ch))
  {
    hide Tells, Same, Finish, Go, Bounded, SmBind;
    var w1 := SmBind(w, n, p.c.externalName, ch.async);
    BoundTold(w, n, p, p.c.externalName, ch.async);
    SameSelf(w);
    EndsTold(w, w, n, p, p.c, p.c.status.Unsucceeded());
    EndsTold(w, w1, n, p, p.c, p.c.status.Unsucceeded());
    EndsTold(w, w1, n, p, p.c, p.c.status.WithId(w.nextId).Running(Create, w.nextId).Unsucceeded());
    GoesTold(w, w1, n, p.c, p.base, BindStore(w.nextId));
  }

  // ----- checks and maintenance

  lemma CheckExistsTold(w: World, n: Name, p: Proc, ch: Choice)
    requires ProcTold(w, p) && p.pc == CheckExists
    ensures Tells(w, n, AdvanceCheckExists(w, n, p, ch))
  {
    hide Tells, Same, Finish, Go, Stop;
    SameSelf(w);
    StopsTold(w, w, n);
    EndsTold(w, w, n, p, p.c, p.c.status.Unsucceeded());
    EndsTold(w, w, n, p, p.c, p.c.status.Lost());
    GoesTold(w, w, n, p.c, p.base, AddFinalizer);
  }

  lemma ProceedTold(w: World, v: World, n: Name, c: Binding, base: Status, ch: Choice)
    requires Same(w, v) && ProcTold(v, Proc(c, base, ReadyCheck))
    ensures Tells(w, n, Proceed(v, n, c, base, ch))
  {
    hide Tells, Same, Finish, Go;
    EndsTold(w, v, n, Proc(c, base, ReadyCheck), c, c.status.Unsucceeded());
    GoesTold(w, v, n, c, base, ReadyCheck);
    GoesTold(w, v, n, c, base, RotateAnnotation);
  }

  /** The metadata of the object a reconcile knows. */
  lemma KnownMeta(w: World, n: Name, p: Proc, finalizer: bool, forceRotate: bool)
    requires ProcTold(w, p) && p.pc != InitConditions && CopyOk(w.bindings, n, p.c, p.base) && Unchanged(w, n, p.c)
    ensures var w1 := PutMeta(w, n, finalizer, forceRotate); Same(w, w1) && w1.sm == w.sm && w1.nextId == w.nextId
  {
    MetaTold(w, n, finalizer, forceRotate);
  }

  lemma ProcToldAt(w: World, w1: World, p: Proc, c: Binding)
    requires ProcTold(w, p) && p.pc != InitConditions && w1.sm == w.sm && w1.nextId == w.nextId && c.status == p.c.status
    ensures ProcTold(w1, Proc(c, p.base, ReadyCheck))
  {
  }

  lemma AddFinalizerTold(w: World, n: Name, p: Proc, ch: Choice)
    requires ProcTold(w, p) && p.pc == AddFinalizer && CopyOk(w.bindings, n, p.c, p.base)
    ensures Tells(w, n, AdvanceAddFinalizer(w, n, p, ch))
  {
    hide Tells, Same, Stop, Proceed, PutMeta, ProcTold, CopyOk;
    SameSelf(w);
    StopsTold(w, w, n);
    ProcToldAt(w, w, p, p.c);
    ProceedTold(w, w, n, p.c, p.base, ch);
    if Unchanged(w, n, p.c) {
      var w1 := PutMeta(w, n, true, p.c.forceRotate);
      KnownMeta(w, n, p, true, p.c.forceRotate);
      StopsTold(w, w1, n);
      ProcToldAt(w, w1, p, p.c.(finalizer := true, rv := w.clock));
      ProceedTold(w, w1, n, p.c.(finalizer := true, rv := w.clock), p.base, ch);
    }
  }

  lemma ReadyCheckTold(w: World, n: Name, p: Proc, ch: Choice)
    requires ProcTold(w, p) && p.pc == ReadyCheck
    ensures Tells(w, n, AdvanceReadyCheck(w, n, p, ch))
  {
    hide Tells, Same, Finish, Go, Stop;
    SameSelf(w);
    StopsTold(w, w, n);
    EndsTold(w, w, n, p, p.c, p.c.status.Unsucceeded());
    EndsTold(w, w, n, p, p.c, p.c.status.(rotation := Preparing));
    GoesTold(w, w, n, p.c, p.base, DeleteSelf);
    GoesTold(w, w, n, p.c, p.base, FetchOriginal);
    GoesTold(w, w, n, p.c, p.base, Maintain);
    GoesTold(w, w, n, p.c, p.base, Query);
  }

  lemma FetchOriginalTold(w: World, n: Name, p: Proc, ch: Choice)
    requires ProcTold(w, p) && p.pc == FetchOriginal
    ensures Tells(w, n, AdvanceFetchOriginal(w, n, p, ch))
  {
    hide Tells, Same, Finish, Go, Stop;
    SameSelf(w);
    StopsTold(w, w, n);
    EndsTold(w, w, n, p, p.c, p.c.status.(pendingTermination := true));
    GoesTold(w, w, n, p.c, p.base, DeleteSelf);
  }

  lemma DeleteSelfTold(w: World, n: Name, ch: Choice)
    ensures Tells(w, n, AdvanceDeleteSelf(w, n, ch))
  {
    SameSelf(w);
    StopsTold(w, w, n);
    if n in w.bindings {
      assert Same(w, DeleteObject(w, n));
      StopsTold(w, DeleteObject(w, n), n);
    }
    hide Tells;
  }

  lemma MaintainTold(w: World, n: Name, p: Proc, ch: Choice)
    requires ProcTold(w, p) && p.pc == Maintain
    ensures Tells(w, n, AdvanceMaintain(w, n, p, ch))
  {
    hide Tells, Same, Finish, Go, Stop;
    SameSelf(w);
    StopsTold(w, w, n);
    EndsTold(w, w, n, p, p.c, p.c.status.Unsucceeded());
    EndsTold(w, w, n, p, p.c, p.c.status);
    GoesTold(w, w, n, p.c, p.base, MaintainStore);
  }

  // ----- rotation

  lemma RotateTold(w: World, v: World, n: Name, c: Binding, base: Status)
    requires Same(w, v) && ProcTold(v, Proc(c, base, ReadyCheck))
    ensures Tells(w, n, Rotate(v, n, c, base))
  {
    hide Tells, Same, Go;
    GoesTold(w, v, n, c, base, ReadyCheck);
    GoesTold(w, v, n, c, base, RotateList);
    GoesTold(w, v, n, c.(status := c.status.(rotation := NotRotating)), base, RotateSave);
  }

  lemma RotateAnnotationTold(w: World, n: Name, p: Proc, ch: Choice)
    requires ProcTold(w, p) && p.pc == RotateAnnotation && CopyOk(w.bindings, n, p.c, p.base)
    ensures Tells(w, n, AdvanceRotateAnnotation(w, n, p, ch))
  {
    hide Tells, Same, Stop, Rotate, PutMeta, ProcTold, CopyOk;
    SameSelf(w);
    StopsTold(w, w, n);
    ProcToldAt(w, w, p, p.c);
    RotateTold(w, w, n, p.c, p.base);
    if Unchanged(w, n, p.c) {
      var w1 := PutMeta(w, n, p.c.finalizer, false);
      KnownMeta(w, n, p, p.c.finalizer, false);
      StopsTold(w, w1, n);
      ProcToldAt(w, w1, p, p.c.(forceRotate := false, rv := w.clock));
      RotateTold(w, w1, n, p.c.(forceRotate := false, rv := w.clock), p.base);
    }
  }

  lemma RotateListTold(w: World, n: Name, p: Proc, ch: Choice)
    requires ProcTold(w, p) && p.pc == RotateList
    ensures Tells(w, n, AdvanceRotateList(w, n, p, ch))
  {
    hide Tells, Same, Go, Stop, HasBackup;
    SameSelf(w);
    StopsTold(w, w, n);
    GoesTold(w, w, n, p.c, p.base, RenameFirst(ch.suffix));
    GoesTold(w, w, n, p.c.(status := p.c.status.Rotated()), p.base, RotateSave);
  }

  lemma RotationErrorTold(w: World, v: World, n: Name, p: Proc, ch: Choice)
    requires Same(w, v) && ProcTold(v, p) && p.pc != InitConditions
    ensures Tells(w, n, RotationError(v, n, p, ch))
  {
    hide Tells, Same, Finish;
    EndsTold(w, v, n, p, p.c, p.c.status.Unsucceeded());
    EndsTold(w, v, n, p, p.c, p.c.status.(rotation := Preparing));
  }

  lemma RenameTold(w: World, b: Id, name: string, k8sName: Option<Name>, p: Proc)
    requires b in w.sm && ProcTold(w, p)
    ensures var w1 := w.(sm := w.sm[b := w.sm[b].(name := name, k8sName := k8sName)]); Same(w, w1) && ProcTold(w1, p)
  {
  }

  lemma RenameFirstTold(w: World, n: Name, p: Proc, ch: Choice, s: string)
    requires ProcTold(w, p) && p.pc == RenameFirst(s)
    ensures Tells(w, n, AdvanceRenameFirst(w, n, p, ch, s))
  {
    hide Tells, Same, ProcTold, RotationError, Go;
    SameSelf(w);
    RotationErrorTold(w, w, n, p, ch);
    if p.c.status.id.Some? && p.c.status.id.value in w.sm {
      var b := p.c.status.id.value;
      var w1 := SmRenameFirst(w, b, p.c.externalName + s);
      RenameTold(w, b, p.c.externalName + s, None, p);
      assert w1 == w.(sm := w.sm[b := w.sm[b].(name := p.c.externalName + s, k8sName := None)]);
      RotationErrorTold(w, w1, n, p, ch);
      ProcToldNext(w1, p, RenameSecond(s));
      GoesTold(w, w1, n, p.c, p.base, RenameSecond(s));
    }
  }

  lemma ProcToldNext(w: World, p: Proc, pc: Pc)
    requires ProcTold(w, p) && p.pc != InitConditions && PcTold(w, pc)
    ensures ProcTold(w, Proc(p.c, p.base, pc))
  {
  }

  lemma RenameSecondTold(w: World, n: Name, p: Proc, ch: Choice, s: string)
    requires ProcTold(w, p) && p.pc == RenameSecond(s)
    ensures Tells(w, n, AdvanceRenameSecond(w, n, p, ch, s))
  {
    hide Tells, Same, ProcTold, RotationError, Go;
    SameSelf(w);
    RotationErrorTold(w, w, n, p, ch);
    if p.c.status.id.Some? && p.c.status.id.value in w.sm {
      var b := p.c.status.id.value;
      var w1 := SmRenameSecond(w, b, n + s);
      RenameTold(w, b, w.sm[b].name, Some(n + s), p);
      assert w1 == w.(sm := w.sm[b := w.sm[b].(name := w.sm[b].name, k8sName := Some(n + s))]);
      RotationErrorTold(w, w1, n, p, ch);
      ProcToldNext(w1, p, CreateBackup(s));
      GoesTold(w, w1, n, p.c, p.base, CreateBackup(s));
    }
  }

  lemma CreateTold(w: World, m: Name, stale: Option<Id>, orig: Option<Name>, externalName: string, policy: Option<bool>)
    requires m !in w.bindings
    ensures Same(w, CreateObject(w, m, NewBinding(w, stale, orig, externalName, policy)))
  {
  }

  lemma CreateBackupTold(w: World, n: Name, p: Proc, ch: Choice, s: string)
    requires ProcTold(w, p) && p.pc == CreateBackup(s)
    ensures Tells(w, n, AdvanceCreateBackup(w, n, p, ch, s))
  {
    hide Tells, Same, RotationError, Go, Stop;
    SameSelf(w);
    StopsTold(w, w, n);
    RotationErrorTold(w, w, n, p, ch);
    if n + s !in w.bindings {
      var w1 := CreateObject(w, n + s, NewBinding(w, p.c.status.id, Some(n), p.c.externalName + s, Some(false)));
      CreateTold(w, n + s, p.c.status.id, Some(n), p.c.externalName + s, Some(false));
      assert ProcTold(w1, p);
      RotationErrorTold(w, w1, n, p, ch);
      GoesTold(w, w1, n, p.c.(status := p.c.status.Rotated()), p.base, RotateSave);
    }
  }

  // ----- every call

  /** Where a status takes an id, it records no removal. */
  lemma Unrecorded(w: World, n: Name, p: Proc)
    requires CoreOk(w, n, p.c, p.base) && PcOk(w, n, p)
    ensures p.pc.DeleteQuery? || p.pc.RecoverStore? || p.pc.BindStore? ==> p.c.status.opType != Some(Delete)
    ensures p.pc == InitConditions ==> p.c.status == p.base
  {
  }

  lemma PollCallTold(w: World, n: Name, p: Proc, ch: Choice)
    requires At(w, n, p) && ProcTold(w, p) && (n in w.bindings ==> Told(w, w.bindings[n].status))
    requires p.pc.InitConditions? || p.pc.FetchInstance? || p.pc.PollStatus? || p.pc.PollProbe? || p.pc.PollFetch?
          || p.pc.PollStore? || p.pc.PollDropSecret? || p.pc.PollRemoveFinalizer? || p.pc.CleanupUnbind?
    ensures Tells(w, n, Advance(w, n, ch))
  {
    hide Inv, Tells, AdvanceFetchInstance, AdvancePollStatus, AdvancePollProbe, AdvancePollFetch, AdvanceStore,
         AdvanceDropSecret, AdvancePollRemoveFinalizer, AdvanceCleanup, WriteStatus;
    match p.pc
    case InitConditions =>
      var c := p.c.(status := p.c.status.(ready := false).Unsucceeded());
      WriteTold(w, n, p.(c := c), ch, Some(FetchInstance));
    case FetchInstance => FetchInstanceTold(w, n, p, ch);
    case PollStatus => PollStatusTold(w, n, p, ch);
    case PollProbe => PollReadTold(w, n, p, ch);
    case PollFetch => PollReadTold(w, n, p, ch);
    case PollStore =>
      SameSelf(w);
      StopsTold(w, w, n);
      if p.c.status.id.Some? { StoreTold(w, n, p, ch, p.c.status.id.value, p.c.status.NoOperation().Success()); }
    case PollDropSecret => DropTold(w, n, p, ch, PollRemoveFinalizer);
    case PollRemoveFinalizer => PollRemoveFinalizerTold(w, n, p, ch);
    case CleanupUnbind => CleanupTold(w, n, p, ch);
  }

  lemma DeleteCallTold(w: World, n: Name, p: Proc, ch: Choice)
    requires At(w, n, p) && ProcTold(w, p) && (n in w.bindings ==> Told(w, w.bindings[n].status)) && Bounded(w)
    requires p.pc.DeleteQuery? ==> p.c.status.opType != Some(Delete)
    requires p.pc.DeleteQuery? || p.pc.DeleteUnbind? || p.pc.DeleteSave? || p.pc.DeleteDropSecret? || p.pc.DeleteRemoveFinalizer?
          || p.pc.DeleteSelf? || p.pc.Save?
    ensures Tells(w, n, Advance(w, n, ch))
  {
    hide Inv, Tells, Bounded, AdvanceDropSecret, AdvanceDeleteQuery, AdvanceDeleteUnbind, AdvanceDeleteRemoveFinalizer, WriteStatus,
         AdvanceDeleteSelf;
    match p.pc
    case DeleteQuery => DeleteQueryTold(w, n, p, ch);
    case DeleteUnbind => DeleteUnbindTold(w, n, p, ch);
    case DeleteSave => WriteTold(w, n, p, ch, Some(DeleteDropSecret));
    case DeleteDropSecret => DropTold(w, n, p, ch, DeleteRemoveFinalizer);
    case DeleteRemoveFinalizer => DeleteRemoveFinalizerTold(w, n, p, ch);
    case DeleteSelf => DeleteSelfTold(w, n, ch);
    case Save => WriteTold(w, n, p, ch, None);
  }

  lemma RotateCallTold(w: World, n: Name, p: Proc, ch: Choice)
    requires At(w, n, p) && ProcTold(w, p) && CopyOk(w.bindings, n, p.c, p.base)
    requires p.pc.RotateAnnotation? || p.pc.RotateList? || p.pc.RenameFirst? || p.pc.RenameSecond? || p.pc.CreateBackup?
          || p.pc.RotateSave?
    ensures Tells(w, n, Advance(w, n, ch))
  {
    hide Inv, Tells, CopyOk, AdvanceRotateAnnotation, AdvanceRotateList, AdvanceRenameFirst, AdvanceRenameSecond,
         AdvanceCreateBackup, WriteStatus;
    match p.pc
    case RotateAnnotation => RotateAnnotationTold(w, n, p, ch);
    case RotateList => RotateListTold(w, n, p, ch);
    case RenameFirst(s) => RenameFirstTold(w, n, p, ch, s);
    case RenameSecond(s) => RenameSecondTold(w, n, p, ch, s);
    case CreateBackup(s) => CreateBackupTold(w, n, p, ch, s);
    case RotateSave => WriteTold(w, n, p, ch, Some(ReadyCheck));
  }

  lemma CreateCallTold(w: World, n: Name, p: Proc, ch: Choice)
    requires At(w, n, p) && ProcTold(w, p) && CopyOk(w.bindings, n, p.c, p.base) && Bounded(w)
    requires p.pc.RecoverStore? || p.pc.BindStore? ==> p.c.status.opType != Some(Delete)
    requires p.pc.CheckExists? || p.pc.AddFinalizer? || p.pc.ReadyCheck? || p.pc.FetchOriginal? || p.pc.Maintain?
          || p.pc.MaintainStore? || p.pc.Query? || p.pc.RecoverStore? || p.pc.Bind? || p.pc.BindStore?
    ensures Tells(w, n, Advance(w, n, ch))
  {
    hide Inv, Tells, CopyOk, Bounded, AdvanceCheckExists, AdvanceAddFinalizer, AdvanceReadyCheck, AdvanceFetchOriginal, AdvanceMaintain,
         AdvanceStore, AdvanceQuery, AdvanceBind, Resync;
    match p.pc
    case CheckExists => CheckExistsTold(w, n, p, ch);
    case AddFinalizer => AddFinalizerTold(w, n, p, ch);
    case ReadyCheck => ReadyCheckTold(w, n, p, ch);
    case FetchOriginal => FetchOriginalTold(w, n, p, ch);
    case Maintain => MaintainTold(w, n, p, ch);
    case MaintainStore =>
      SameSelf(w);
      StopsTold(w, w, n);
      if p.c.status.id.Some? { StoreTold(w, n, p, ch, p.c.status.id.value, p.c.status.Success()); }
    case Query => QueryTold(w, n, p, ch);
    case RecoverStore(b, seen) =>
      ResyncTold(w, p.c.status, b, seen);
      StoreTold(w, n, p, ch, b, Resync(p.c.status, b, seen));
    case Bind => BindTold(w, n, p, ch);
    case BindStore(b) =>
      FoundTold(w, p.c.status, b);
      StoreTold(w, n, p, ch, b, p.c.status.WithId(b).Success());
  }

  lemma CallTold(w: World, n: Name, ch: Choice)
    requires Inv(w) && AllTold(w) && n in w.procs
    ensures AllTold(Advance(w, n, ch))
  {
    var p := w.procs[n];
    assert ProcTold(w, p) && (n in w.bindings ==> StoredTold(w, w.bindings[n]));
    assert n in w.bindings ==> Told(w, w.bindings[n].status);
    hide Inv, Advance, AllTold, StoredTold, Told, ProcTold, Tells, CoreOk, PcOk, CopyOk, Bounded, Steady, ShapesOk, FinalizersOk;
    assert At(w, n, p);
    AtSteady(w, n, p);
    SteadyAll(w, n);
    Unrecorded(w, n, p);
    CopyAt(w, n, p);
    match p.pc {
      case InitConditions | FetchInstance | PollStatus | PollProbe | PollFetch | PollStore | PollDropSecret
         | PollRemoveFinalizer | CleanupUnbind => PollCallTold(w, n, p, ch);
      case DeleteQuery | DeleteUnbind | DeleteSave | DeleteDropSecret | DeleteRemoveFinalizer | DeleteSelf | Save =>
        DeleteCallTold(w, n, p, ch);
      case RotateAnnotation | RotateList | RenameFirst(_) | RenameSecond(_) | CreateBackup(_) | RotateSave =>
        RotateCallTold(w, n, p, ch);
      case _ => CreateCallTold(w, n, p, ch);
    }
    TellsAll(w, n, Advance(w, n, ch));
  }

  lemma CopyAt(w: World, n: Name, p: Proc)
    requires CoreOk(w, n, p.c, p.base)
    ensures CopyOk(w.bindings, n, p.c, p.base)
  {
  }

  // ----- everybody else

  lemma SameAll(w: World, w1: World)
    requires AllTold(w) && Same(w, w1)
    ensures AllTold(w1)
  {
    hide Remembers, Told, PcTold;
    forall m | m in w1.bindings
      ensures StoredTold(w1, w1.bindings[m])
    {
      if m in w.bindings { if Told(w, w1.bindings[m].status) { ToldStays(w, w1, w1.bindings[m].status); } }
    }
    forall m | m in w1.procs
      ensures ProcTold(w1, w1.procs[m])
    {
      PcToldStays(w, w1, w.procs[m].pc);
      ToldStays(w, w1, w.procs[m].base);
      ToldStays(w, w1, w.procs[m].c.status);
    }
  }

  lemma DeleteTold(w: World, n: Name)
    requires n in w.bindings
    ensures Same(w, DeleteObject(w, n))
  {
  }

  lemma EditTold(w: World, n: Name, policy: Option<bool>, forceRotate: bool)
    ensures Same(w, Step(w, UserEdit(n, policy, forceRotate)))
  {
  }

  lemma OperateTold(w: World, b: Id, good: bool)
    ensures Same(w, SmFinish(w, b, good))
  {
  }

  lemma BeginTold(w: World, n: Name)
    requires AllTold(w) && n in w.bindings && n !in w.procs
    ensures AllTold(Begin(w, n))
  {
    var c := w.bindings[n];
    assert StoredTold(w, c);
    SameSelf(w);
    assert ProcTold(w, Proc(c, c.status, if c.status.HasConditions() then FetchInstance else InitConditions));
    hide AllTold, Tells, Same, StoredTold, ProcTold, Go;
    GoesTold(w, w, n, c, c.status, if c.status.HasConditions() then FetchInstance else InitConditions);
    TellsAll(w, n, Begin(w, n));
  }

  lemma StepTold(w: World, a: Action)
    requires Inv(w) && AllTold(w)
    ensures AllTold(Step(w, a))
  {
    SameSelf(w);
    hide Inv, AllTold, Same, Tells, Advance, Begin, Stop, DeleteObject, SmFinish;
    match a {
      case Start(n) => if n in w.bindings && n !in w.procs { BeginTold(w, n); }
      case Call(n, ch) => if n in w.procs { CallTold(w, n, ch); }
      case Crash(n) => StopsTold(w, w, n); TellsAll(w, n, Stop(w, n));
      case UserCreate(n, externalName, policy) =>
        if n !in w.bindings {
          CreateTold(w, n, None, None, externalName, policy);
          SameAll(w, Step(w, a));
        }
      case UserEdit(n, policy, forceRotate) => EditTold(w, n, policy, forceRotate); SameAll(w, Step(w, a));
      case UserDelete(n) => if n in w.bindings { DeleteTold(w, n); SameAll(w, Step(w, a)); }
      case UserDropSecret(n) => DropSecretTold(w, n); SameAll(w, Step(w, a));
      case Collect(n) => if n in w.bindings { DeleteTold(w, n); SameAll(w, DeleteObject(w, n)); }
      case Operate(b, good) => OperateTold(w, b, good); SameAll(w, Step(w, a));
    }
  }

  lemma DropSecretTold(w: World, n: Name)
    ensures Same(w, DropSecret(w, n))
  {
  }

  lemma {:induction false} RunTold(w: World, actions: seq<Action>)
    requires Inv(w) && AllTold(w) && AllowedRun(w, actions)
    ensures AllTold(Run(w, actions))
    decreases |actions|
  {
    hide Inv, Step, Allowed, AllTold;
    if actions != [] {
      StepKeeps(w, actions[0]);
      StepTold(w, actions[0]);
      RunTold(Step(w, actions[0]), actions[1..]);
    }
  }

  lemma ReachableTold(w: World)
    requires Reachable(w)
    ensures Inv(w) && AllTold(w)
  {
    ReachableInv(w);
    hide Inv, Run, AllowedRun;
    var w0, actions :| Initial(w0) && AllowedRun(w0, actions) && w == Run(w0, actions);
    InitialInv(w0);
    hide AllTold;
    assert AllTold(w0) by { InitialTold(w0); }
    RunTold(w0, actions);
  }

  lemma InitialTold(w: World)
    requires Initial(w)
    ensures AllTold(w)
  {
  }

  /** A recorded removal was asked of SM: while SM holds the binding, it is busy removing it or has refused to. */
  lemma RemovalAsked(w: World, n: Name, b: Id)
    requires Reachable(w) && n in w.bindings && w.bindings[n].status.opUrl == Some(OpUrl(Delete, b)) && b in w.sm
    ensures w.bindings[n].status.id == Some(b) && w.sm[b].unbinding != NotAsked
  {
    hide Reachable, Inv;
    ReachableTold(w);
    assert StoredTold(w, w.bindings[n]);
    assert StatusShape(w.bindings[n].status, w.bindings[n].deleting) by { InvGlobal(w); }
  }
}
