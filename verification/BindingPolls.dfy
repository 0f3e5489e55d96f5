/** The invariant through the calls that initialise, poll, clean up and delete. */
module BindingPolls {
  import opened Options
  import opened Remote
  import opened BindingWorld
  import opened BindingReconciler
  import opened BindingInvariant
  import opened BindingRely
  import opened BindingEffects
  import opened BindingSmEffects
  import opened BindingSteps

  ghost predicate At(w: World, n: Name, p: Proc) {
    Inv(w) && n in w.procs && w.procs[n] == p
  }

  lemma AtSteady(w: World, n: Name, p: Proc)
    requires At(w, n, p)
    ensures Steady(w, n) && CoreOk(w, n, p.c, p.base) && PcOk(w, n, p)
  {
    hide Global, CoreOk, PcOk, PlansOk;
  }

  lemma AtInv(w: World, n: Name, p: Proc)
    requires At(w, n, p)
    ensures Inv(w) && n in w.procs && w.procs[n] == p
  {
    hide Inv;
  }

  lemma StopOk(w: World, n: Name, p: Proc)
    requires At(w, n, p)
    ensures Inv(Stop(w, n))
  {
    hide Inv, Steady, CoreOk, PcOk;
    AtSteady(w, n, p);
    SteadyStop(w, n);
  }

  lemma SteadyStop(w: World, n: Name)
    requires Steady(w, n)
    ensures Inv(Stop(w, n))
  {
    hide Global, PlansOk, Others;
    Ended(w, n);
  }

  /** The failure exit from a status that is still the stored one. */
  lemma FailOk(w: World, n: Name, p: Proc, status: Status)
    requires Steady(w, n) && CoreOk(w, n, p.c, p.base)
    requires status == p.base || status == p.base.Unsucceeded()
    ensures Inv(Finish(w, n, p.c, p.base, status))
  {
    hide Steady;
    FinishKeeping(w, n, p.c, p.base, status);
  }

  lemma InitOk(w: World, n: Name, p: Proc, ch: Choice)
    requires At(w, n, p) && p.pc == InitConditions
    ensures Inv(AdvanceInit(w, n, p, ch))
  {
    AtSteady(w, n, p);
    var status := p.c.status.(ready := false).Unsucceeded();
    assert LeftoversOk(w.bindings, w.sm) && ReadyOk(w.bindings, w.sm, w.secrets);
    hide Inv, Others, Global, PlansOk;
    var p1 := p.(c := p.c.(status := status));
    CoreStatus(w, n, p.c, p.base, status);
    Keeping(w, n, p1.c, p.base, status);
    WriteStatusOk(w, n, p1, ch, Some(FetchInstance));
  }

  lemma DispatchOk(w: World, n: Name, p: Proc)
    requires CoreOk(w, n, p.c, p.base) && Untouched(p)
    ensures Dispatch(p.c).Some? ==> PcOk(w, n, p.(pc := Dispatch(p.c).value)) && PlanName(n, Dispatch(p.c).value).None?
  {
  }

  /** A deletion that skips SM because the instance is gone is sound when SM attributes nothing to the resource. */
  predicate Bypasses(p: Proc, ch: Choice) {
    p.pc == FetchInstance && ch.call == Ok && ch.instance == Missing && p.c.deleting && p.c.status.id.None?
  }

  lemma BypassOk(w: World, n: Name, p: Proc, ch: Choice)
    requires At(w, n, p) && Bypasses(p, ch) && Nameless(w.sm, n)
    ensures Inv(Go(w, n, p.c, p.base, DeleteDropSecret))
  {
    hide Inv, At, Steady, CoreOk, Nameless, Go;
    AtSteady(w, n, p);
    GoOn(w, n, p.c, p.base, DeleteDropSecret);
  }

  lemma FetchInstanceOk(w: World, n: Name, p: Proc, ch: Choice)
    requires At(w, n, p) && p.pc == FetchInstance
    requires Bypasses(p, ch) ==> Nameless(w.sm, n)
    ensures Inv(AdvanceFetchInstance(w, n, p, ch))
  {
    hide Inv, At, Steady, CoreOk, Nameless, Go, Stop, Finish, Dispatch, Bypasses;
    AtSteady(w, n, p);
    StopOk(w, n, p);
    FailOk(w, n, p, p.base.Unsucceeded());
    if Bypasses(p, ch) {
      BypassOk(w, n, p, ch);
    }
    DispatchOk(w, n, p);
    if Dispatch(p.c).Some? {
      hide PcOk;
      GoOn(w, n, p.c, p.base, Dispatch(p.c).value);
    }
    assert Bypasses(p, ch) <==> (ch.call == Ok && ch.instance == Missing && p.c.deleting && p.c.status.id.None?) by { BypassMeans(p, ch); }
  }

  lemma BypassMeans(p: Proc, ch: Choice)
    requires p.pc == FetchInstance
    ensures Bypasses(p, ch) <==> (ch.call == Ok && ch.instance == Missing && p.c.deleting && p.c.status.id.None?)
  {
  }

  lemma FailedPc(w: World, n: Name, p: Proc)
    requires CoreOk(w, n, p.c, p.base) && PcOk(w, n, p) && p.pc == PollStatus
    requires SmStatus(w, p.c.status.opUrl.GetOr(OpUrl(Create, 0))) == FailedOp
    requires p.c.status.opUrl.value.kind == Create || !p.c.deleting
    ensures PcOk(w, n, Proc(p.c.(status := p.c.status.Unsucceeded()), p.base, CleanupUnbind))
  {
  }

  lemma BackupCalm(w: World, n: Name, p: Proc)
    requires CoreOk(w, n, p.c, p.base)
    ensures p.c.stale.Some? ==> p.base.rotation == NotRotating
  {
    hide StatusShape;
  }

  lemma PollFailedOk(w: World, n: Name, p: Proc)
    requires At(w, n, p) && p.pc == PollStatus && SmStatus(w, p.c.status.opUrl.GetOr(OpUrl(Create, 0))) == FailedOp
    ensures var failed := p.c.status.Unsucceeded();
      if p.c.status.opUrl.value.kind == Create || !p.c.deleting then
        Inv(Go(w, n, p.c.(status := failed), p.base, CleanupUnbind))
      else Inv(Finish(w, n, p.c, p.base, failed.NoOperation()))
  {
    hide Inv, Steady, At, Go, Finish;
    AtSteady(w, n, p);
    var c := p.c;
    var failed := c.status.Unsucceeded();
    if c.status.opUrl.value.kind == Create || !c.deleting {
      CoreStatus(w, n, c, p.base, failed);
      FailedPc(w, n, p);
      hide CoreOk, PcOk;
      GoOn(w, n, c.(status := failed), p.base, CleanupUnbind);
    } else {
      BackupCalm(w, n, p);
      ShapeOfCore(w, n, c, p.base);
      hide CoreOk;
      FinishKeeping(w, n, c, p.base, failed.NoOperation());
    }
  }

  lemma PollSucceededOk(w: World, n: Name, p: Proc)
    requires At(w, n, p) && p.pc == PollStatus && SmStatus(w, p.c.status.opUrl.GetOr(OpUrl(Create, 0))) == Succeeded
    ensures Inv(Go(w, n, p.c, p.base, if p.c.status.opUrl.value.kind == Create then PollFetch else PollDropSecret))
  {
    AtSteady(w, n, p);
    hide Inv, Steady;
    GoOn(w, n, p.c, p.base, if p.c.status.opUrl.value.kind == Create then PollFetch else PollDropSecret);
  }

  lemma ProbeNextOk(w: World, n: Name, p: Proc)
    requires At(w, n, p) && p.pc == PollStatus && p.c.status.opUrl.value.kind == Delete
    ensures Inv(Go(w, n, p.c, p.base, PollProbe))
  {
    hide Inv, Steady, At, Go;
    AtSteady(w, n, p);
    ShapeOfCore(w, n, p.c, p.base);
    hide CoreOk;
    GoOn(w, n, p.c, p.base, PollProbe);
  }

  lemma PollStatusOk(w: World, n: Name, p: Proc, ch: Choice)
    requires At(w, n, p) && p.pc == PollStatus
    ensures Inv(AdvancePollStatus(w, n, p, ch))
  {
    hide Inv, Steady, At, Go, Finish, Stop, CoreOk, SmStatus;
    AtSteady(w, n, p);
    StopOk(w, n, p);
    FailOk(w, n, p, p.base.Unsucceeded());
    var url := p.c.status.opUrl.value;
    if ch.call != Ok {
      if url.kind == Delete && ch.serverError {
        ProbeNextOk(w, n, p);
      }
    } else if SmStatus(w, url) == FailedOp {
      PollFailedOk(w, n, p);
    } else if SmStatus(w, url) == Succeeded {
      PollSucceededOk(w, n, p);
    }
  }

  lemma ShapeOfCore(w: World, n: Name, c: Binding, base: Status)
    requires CoreOk(w, n, c, base)
    ensures StatusShape(base, c.deleting)
  {
  }

  lemma PollProbeOk(w: World, n: Name, p: Proc, ch: Choice)
    requires At(w, n, p) && p.pc == PollProbe
    ensures Inv(AdvancePollProbe(w, n, p, ch))
  {
    AtSteady(w, n, p);
    StopOk(w, n, p);
    FailOk(w, n, p, p.base.Unsucceeded());
    hide Inv, Steady, CoreOk;
    if p.c.status.id.value !in w.sm {
      GoOn(w, n, p.c, p.base, PollDropSecret);
    }
  }

  /** An original that is not being deleted may show the finished binding it holds. */
  lemma HolderUsable(w: World, n: Name, c: Binding, base: Status, b: Id)
    requires OriginalsOk(w.bindings, w.sm) && AskedOk(w.bindings, w.sm)
    requires CopyOk(w.bindings, n, c, base) && Current(w.bindings, n, c)
    requires base.id == Some(b) && b in w.sm && Created(w.sm, b)
    ensures Usable(w.bindings, w.sm, n, b)
  {
    assert Holds(w.bindings, n, b);
  }

  lemma PollFetchOk(w: World, n: Name, p: Proc, ch: Choice)
    requires At(w, n, p) && p.pc == PollFetch
    ensures Inv(AdvancePollFetch(w, n, p, ch))
  {
    AtSteady(w, n, p);
    StopOk(w, n, p);
    if p.c.status.id.value in w.sm {
      assert Usable(w.bindings, w.sm, n, p.c.status.id.value) by {
        HolderUsable(w, n, p.c, p.base, p.c.status.id.value);
      }
      hide Inv, Steady, CoreOk, Usable, Created;
      GoOn(w, n, p.c, p.base, PollStore);
    }
  }

  /** Writing the secret with credentials of the binding the resource holds. */
  lemma StoreHeldOk(w: World, n: Name, p: Proc, ch: Choice, b: Id, done: Status)
    requires At(w, n, p) && Untouched(p) && p.c.finalizer && p.base.id == Some(b)
    requires Created(w.sm, b) && Usable(w.bindings, w.sm, n, b)
    requires StatusShape(done, p.c.deleting) && done.id == Some(b)
    requires p.c.stale.Some? ==> done.rotation == NotRotating
    ensures Inv(AdvanceStore(w, n, p, ch, b, done))
  {
    AtSteady(w, n, p);
    assert Storable(w, n, b) by { assert Holds(w.bindings, n, b); }
    SecretSaved(w, n, b);
    var w1 := StoreSecret(w, n, b);
    hide Inv, Steady, PcOk, Storable;
    CoreKept(w, w1, n, p.c, p.base);
    hide CoreOk;
    if ch.call == Ok {
      Succeeding(w1, n, p.c, p.base, done);
      hide Writable, StatusShape;
      FinishOk(w1, n, p.c, p.base, done);
    } else {
      FailOk(w, n, p, p.base.Unsucceeded());
      FailOk(w1, n, p, p.base.Unsucceeded());
    }
  }

  lemma PollStoreOk(w: World, n: Name, p: Proc, ch: Choice)
    requires At(w, n, p) && p.pc == PollStore
    ensures Inv(Advance(w, n, ch))
  {
    AtSteady(w, n, p);
    hide Inv, Steady, Created, Usable;
    StoreHeldOk(w, n, p, ch, p.c.status.id.value, p.c.status.NoOperation().Success());
  }

  lemma DropOk(w: World, n: Name, p: Proc, ch: Choice, next: Pc)
    requires At(w, n, p) && PlanName(n, next).None?
    requires PcOk(DropSecret(w, n), n, p.(pc := next))
    ensures Inv(AdvanceDropSecret(w, n, p, ch, next))
  {
    AtSteady(w, n, p);
    StopOk(w, n, p);
    SecretDropped(w, n);
    hide Inv, Steady, PcOk;
    CoreKept(w, DropSecret(w, n), n, p.c, p.base);
    hide CoreOk;
    if ch.call == Lost {
      SteadyStop(DropSecret(w, n), n);
    } else {
      GoOn(DropSecret(w, n), n, p.c, p.base, next);
    }
  }

  lemma PollDropOk(w: World, n: Name, p: Proc, ch: Choice)
    requires At(w, n, p) && p.pc == PollDropSecret
    ensures Inv(AdvanceDropSecret(w, n, p, ch, PollRemoveFinalizer))
  {
    AtSteady(w, n, p);
    hide Inv, Steady, CoreOk;
    DropOk(w, n, p, ch, PollRemoveFinalizer);
  }

  lemma DeleteDropOk(w: World, n: Name, p: Proc, ch: Choice)
    requires At(w, n, p) && p.pc == DeleteDropSecret
    ensures Inv(AdvanceDropSecret(w, n, p, ch, DeleteRemoveFinalizer))
  {
    AtSteady(w, n, p);
    hide Inv, Steady, CoreOk;
    DropOk(w, n, p, ch, DeleteRemoveFinalizer);
  }

  /** Nothing is left in SM under the name of a resource whose id SM no longer holds. */
  lemma HeldGone(w: World, n: Name, c: Binding, base: Status)
    requires OnlyHeld(w.bindings, w.sm) && CoreOk(w, n, c, base) && Current(w.bindings, n, c)
    requires base.id.Some? && base.id.value !in w.sm
    ensures Nameless(w.sm, n) && forall b :: Holds(w.bindings, n, b) ==> b !in w.sm
  {
    assert Holds(w.bindings, n, base.id.value);
  }

  lemma PollRemoveFinalizerOk(w: World, n: Name, p: Proc, ch: Choice)
    requires At(w, n, p) && p.pc == PollRemoveFinalizer
    ensures Inv(AdvancePollRemoveFinalizer(w, n, p, ch))
  {
    hide Inv, Steady, At, Stop, Finish;
    AtSteady(w, n, p);
    StopOk(w, n, p);
    var status := p.base.WithoutId().NoOperation();
    var shaped := StatusShape(status, p.c.deleting);
    assert shaped;
    assert OnlyHeld(w.bindings, w.sm) by { SteadyHeld(w, n); }
    var o := p.c.(status := p.base);
    if !p.c.finalizer {
      Releasing(w, n, p.c, p.base, status);
      hide CoreOk, Writable;
      FinishOk(w, n, p.c, p.base, status);
    } else if ch.call != Rejected && Unchanged(w, n, p.c) {
      HeldGone(w, n, p.c, p.base);
      assert w.bindings[n] == o;
      var w1 := PutMeta(w, n, false, p.c.forceRotate);
      var c1 := p.c.(finalizer := false, rv := w.clock);
      FinalizerGone(w, n, p);
      FinalizerGoneCore(w, n, p.c, p.base);
      hide PcOk;
      SteadyStop(w1, n);
      assert OnlyHeld(w1.bindings, w1.sm) by { SteadyHeld(w1, n); }
      Releasing(w1, n, c1, p.base, status);
      hide CoreOk, Writable;
      FinishOk(w1, n, c1, p.base, status);
    }
  }

  lemma SteadyHeld(w: World, n: Name)
    requires Steady(w, n)
    ensures OnlyHeld(w.bindings, w.sm)
  {
  }

  /** RemoveFinalizer once the secret and the SM binding are gone. */
  lemma FinalizerGone(w: World, n: Name, p: Proc)
    requires At(w, n, p) && p.c.finalizer && Unchanged(w, n, p.c) && w.bindings[n] == p.c.(status := p.base)
    requires Clear(w.bindings, w.sm, w.secrets, n) && Nameless(w.sm, n)
    ensures Steady(PutMeta(w, n, false, p.c.forceRotate), n)
  {
    hide Steady, Nameless, Clear;
    if p.c.deleting {
      RemovalSaved(w, n);
    } else {
      var o1 := w.bindings[n].(finalizer := false, rv := w.clock);
      assert PutMeta(w, n, false, p.c.forceRotate) == Replaced(w, n, o1);
      assert p.c.stale.Some? ==> p.c.policy != Some(true) by { assert ShapesOk(w.bindings); }
      hide Inv;
      MetaSaved(w, n, o1);
    }
  }

  lemma FinalizerGoneCore(w: World, n: Name, c: Binding, base: Status)
    requires CoreOk(w, n, c, base) && Unchanged(w, n, c) && (base.id.Some? ==> base.id.value !in w.sm)
    ensures CoreOk(PutMeta(w, n, false, c.forceRotate), n, c.(finalizer := false, rv := w.clock), base)
  {
  }

  lemma DeleteRemoveFinalizerOk(w: World, n: Name, p: Proc, ch: Choice)
    requires At(w, n, p) && p.pc == DeleteRemoveFinalizer
    ensures Inv(AdvanceDeleteRemoveFinalizer(w, n, p, ch))
  {
    AtSteady(w, n, p);
    StopOk(w, n, p);
    if p.c.finalizer && ch.call != Rejected && Unchanged(w, n, p.c) {
      assert forall b :: !Holds(w.bindings, n, b);
      FinalizerGone(w, n, p);
      hide Inv, Steady, PcOk, CoreOk;
      SteadyStop(PutMeta(w, n, false, p.c.forceRotate), n);
    }
  }

  lemma UnbindOk(w: World, n: Name, p: Proc, async: bool)
    requires At(w, n, p) && p.c.finalizer && p.base.id.Some?
    requires var b := p.base.id.value;
      b in w.sm ==> p.c.deleting || w.sm[b].provisioning == Failed || w.sm[b].unbinding != NotAsked
    ensures Steady(SmUnbind(w, p.base.id.value, async), n)
    ensures CoreOk(SmUnbind(w, p.base.id.value, async), n, p.c, p.base)
  {
    AtSteady(w, n, p);
    hide Steady, PcOk;
    assert Holds(w.bindings, n, p.base.id.value);
    UnbindSaved(w, n, p.base.id.value, async);
    CoreKept(w, SmUnbind(w, p.base.id.value, async), n, p.c, p.base);
  }

  lemma CleanupDoneOk(w: World, n: Name, p: Proc, async: bool)
    requires At(w, n, p) && p.pc == CleanupUnbind
    ensures var b := p.base.id.value;
      var w1 := SmUnbind(w, b, async);
      if b in w.sm && async then Inv(Finish(w1, n, p.c, p.base, p.c.status.Running(Delete, b)))
      else Inv(Finish(w1, n, p.c, p.base, p.c.status.NoOperation().WithoutId()))
  {
    AtSteady(w, n, p);
    var b := p.base.id.value;
    UnbindOk(w, n, p, async);
    var w1 := SmUnbind(w, b, async);
    hide Inv, Steady;
    if b in w.sm && async {
      FinishKeeping(w1, n, p.c, p.base, p.c.status.Running(Delete, b));
    } else {
      SteadyHeld(w1, n);
      Releasing(w1, n, p.c, p.base, p.c.status.NoOperation().WithoutId());
      hide CoreOk, StatusShape, Writable;
      FinishOk(w1, n, p.c, p.base, p.c.status.NoOperation().WithoutId());
    }
  }

  lemma CleanupOk(w: World, n: Name, p: Proc, ch: Choice)
    requires At(w, n, p) && p.pc == CleanupUnbind
    ensures Inv(AdvanceCleanup(w, n, p, ch))
  {
    hide Inv, Steady, CoreOk, SmUnbind, Finish, Go, Stop, Usable, Adoptable, Planned, Writable, Nameless, Retired, Created;
    AtSteady(w, n, p);
    CleanupDoneOk(w, n, p, ch.async);
    UnbindOk(w, n, p, ch.async);
    if ch.call == Rejected {
      StopOk(w, n, p);
      FailOk(w, n, p, p.base.Unsucceeded());
    } else if ch.call == Lost {
      var w1 := SmUnbind(w, p.base.id.value, ch.async);
      SteadyStop(w1, n);
      FailOk(w1, n, p, p.base.Unsucceeded());
    }
  }

  /** The recovery query finds exactly what SM attributes to the resource, and that is at most one binding. */
  lemma QueryExact(w: World, n: Name, c: Binding, base: Status)
    requires OneName(w.sm) && NamesOk(w.bindings, w.sm)
    requires CopyOk(w.bindings, n, c, base) && Current(w.bindings, n, c)
    ensures |Matches(w, c.externalName, n)| <= 1
    ensures OnlyMatch(w, c.externalName, n).None? ==> Nameless(w.sm, n)
    ensures forall b :: OnlyMatch(w, c.externalName, n) == Some(b) ==>
              Named(w.sm, b, n) && forall b' :: Named(w.sm, b', n) ==> b' == b
  {
    var found := Matches(w, c.externalName, n);
    assert forall b :: b in found <==> Named(w.sm, b, n);
    if found != {} {
      var b :| b in found;
      assert found == {b};
    }
  }

  /** What the query finds is the resource's to adopt. */
  lemma FoundAdoptable(w: World, n: Name, c: Binding, base: Status, b: Id)
    requires AskedOk(w.bindings, w.sm) && Bounded(w)
    requires CopyOk(w.bindings, n, c, base) && Current(w.bindings, n, c) && base.id.None?
    requires Named(w.sm, b, n) && forall b' :: Named(w.sm, b', n) ==> b' == b
    ensures Adoptable(w.bindings, w.sm, n, b) && b < w.nextId
  {
  }

  /** A resource without an id that SM attributes something to has no operation and is not ready. */
  lemma FoundFresh(w: World, n: Name, c: Binding, base: Status, b: Id)
    requires LeftoversOk(w.bindings, w.sm)
    requires CopyOk(w.bindings, n, c, base) && Current(w.bindings, n, c) && base.id.None? && Named(w.sm, b, n)
    ensures base.opUrl.None? && !base.ready
  {
  }

  lemma DeleteQueryOk(w: World, n: Name, p: Proc, ch: Choice)
    requires At(w, n, p) && p.pc == DeleteQuery
    ensures Inv(AdvanceDeleteQuery(w, n, p, ch))
  {
    hide Inv, At, Finish, Go, OnlyMatch;
    AtSteady(w, n, p);
    FailOk(w, n, p, p.base.Unsucceeded());
    QueryExact(w, n, p.c, p.base);
    match OnlyMatch(w, p.c.externalName, n)
    case Some(b) =>
      FoundAdoptable(w, n, p.c, p.base, b);
      FoundFresh(w, n, p.c, p.base, b);
      hide Steady, Adoptable;
      Adopting(w, n, p.c, p.base, p.c.status.WithId(b).Unsucceeded(), b);
      hide CoreOk, Writable;
      FinishOk(w, n, p.c, p.base, p.c.status.WithId(b).Unsucceeded());
    case None =>
      hide Inv, Steady, CoreOk;
      GoOn(w, n, p.c, p.base, DeleteDropSecret);
  }

  lemma DeleteDoneOk(w: World, n: Name, p: Proc, async: bool)
    requires At(w, n, p) && p.pc == DeleteUnbind
    ensures var b := p.base.id.value;
      var w1 := SmUnbind(w, b, async);
      if b in w.sm && async then Inv(Finish(w1, n, p.c, p.base, p.c.status.Running(Delete, b).Unsucceeded()))
      else Inv(Go(w1, n, p.c.(status := p.c.status.WithoutId()), p.base, DeleteSave))
  {
    hide Inv, Steady, At, Go, Finish;
    AtSteady(w, n, p);
    var b := p.base.id.value;
    UnbindOk(w, n, p, async);
    var w1 := SmUnbind(w, b, async);
    if b in w.sm && async {
      BackupCalm(w, n, p);
      ShapeOfCore(w, n, p.c, p.base);
      hide CoreOk;
      FinishKeeping(w1, n, p.c, p.base, p.c.status.Running(Delete, b).Unsucceeded());
    } else {
      CoreStatus(w1, n, p.c, p.base, p.c.status.WithoutId());
      hide CoreOk;
      GoOn(w1, n, p.c.(status := p.c.status.WithoutId()), p.base, DeleteSave);
    }
  }

  lemma DeleteUnbindOk(w: World, n: Name, p: Proc, ch: Choice)
    requires At(w, n, p) && p.pc == DeleteUnbind
    ensures Inv(AdvanceDeleteUnbind(w, n, p, ch))
  {
    hide Inv, Steady, CoreOk, At, SmUnbind, Finish, Go, Stop, StatusShape;
    AtSteady(w, n, p);
    DeleteDoneOk(w, n, p, ch.async);
    UnbindOk(w, n, p, ch.async);
    FailOk(w, n, p, p.base.Unsucceeded());
    FailOk(SmUnbind(w, p.base.id.value, ch.async), n, p, p.base.Unsucceeded());
  }

  lemma DeleteSaveOk(w: World, n: Name, p: Proc, ch: Choice)
    requires At(w, n, p) && p.pc == DeleteSave
    ensures Inv(WriteStatus(w, n, p, ch, Some(DeleteDropSecret)))
  {
    AtSteady(w, n, p);
    SteadyHeld(w, n);
    CoreStatus(w, n, p.c, p.base, p.c.status);
    Releasing(w, n, p.c, p.base, p.c.status);
    HeldGone(w, n, p.c, p.base);
    hide Inv, Steady, CoreOk, Writable;
    WriteStatusOk(w, n, p, ch, Some(DeleteDropSecret));
  }
}
