/** Every call of the instance reconcile keeps the invariant. */
module InstanceSteps {
  import opened Options
  import opened Remote
  import opened InstanceWorld
  import opened InstanceReconciler
  import opened InstanceInvariant

  /** Between calls, with a reconcile about to move on. */
  ghost predicate Steady(w: World, c: Instance, base: Status) {
    SmOk(w) && ObjOk(w) && CoreOk(w, c, base)
  }

  // ----- putting a step together

  lemma StopOk(w: World)
    requires SmOk(w) && ObjOk(w)
    ensures Inv(Stop(w))
  {
  }

  lemma GoOk(w: World, c: Instance, base: Status, pc: Pc)
    requires Steady(w, c, base) && PcOk(w, Proc(c, base, pc))
    ensures Inv(Go(w, c, base, pc))
  {
    hide PcOk, SmOk, ObjOk, CoreOk;
    ProcApart(w, Some(Proc(c, base, pc)), c, base);
    PcKept(w, Some(Proc(c, base, pc)), Proc(c, base, pc));
  }

  lemma PcKept(w: World, proc: Option<Proc>, p: Proc)
    requires PcOk(w, p)
    ensures PcOk(w.(proc := proc), p)
  {
    hide StatusShape;
  }

  lemma ProcApart(w: World, proc: Option<Proc>, c: Instance, base: Status)
    requires SmOk(w) && ObjOk(w) && CoreOk(w, c, base)
    ensures SmOk(w.(proc := proc)) && ObjOk(w.(proc := proc)) && CoreOk(w.(proc := proc), c, base)
  {
    hide StatusShape;
  }

  lemma CoreStatus(w: World, c: Instance, base: Status, status: Status)
    requires CoreOk(w, c, base)
    ensures CoreOk(w, c.(status := status), base)
  {
  }

  lemma FinishOk(w: World, c: Instance, base: Status, status: Status)
    requires Steady(w, c, base) && (Unchanged(w, c) ==> Writable(w, c, status))
    ensures Inv(Finish(w, c, base, status))
  {
    hide SmOk, ObjOk, CoreOk, StatusShape, Holds, Recorded;
    CoreStatus(w, c, base, status);
    GoOk(w, c.(status := status), base, Save);
  }

  /** A status with the same id and operation, ready no more than before, is writable. */
  lemma KeepingWritable(w: World, c: Instance, base: Status, status: Status)
    requires CoreOk(w, c, base) && StatusShape(status, c.deleting) && status.LastObserved() <= c.gen
    requires status.id == base.id && (status.opUrl == base.opUrl || status.opUrl.None?)
    ensures Writable(w, c, status)
  {
  }

  /** The same id, operation and readiness. */
  predicate SameResource(s: Status, base: Status) {
    s == base.(hash := s.hash, succeeded := s.succeeded, readyCond := s.readyCond) && (s.readyCond == base.readyCond || s.readyCond.Some?)
    && (s.readyCond.Some? ==> s.readyCond.value.good == s.ready)
  }

  lemma FailOk(w: World, c: Instance, base: Status, kind: OpKind, throttled: bool)
    requires Steady(w, c, base) && SameResource(c.status, base)
    ensures Inv(Fail(w, c, base, kind, throttled))
    ensures Inv(Finish(w, c, base, c.status.Failure(c.gen, c.gen)))
  {
    FailWritable(w, c, base, c.status.InProgress(kind, c.gen, c.gen));
    FailWritable(w, c, base, c.status.Failure(c.gen, c.gen));
    hide Steady, SameResource, Writable, Finish, Inv;
    FinishOk(w, c, base, c.status.InProgress(kind, c.gen, c.gen));
    FinishOk(w, c, base, c.status.Failure(c.gen, c.gen));
  }

  lemma FailWritable(w: World, c: Instance, base: Status, status: Status)
    requires CoreOk(w, c, base) && SameResource(status, base) && status.readyCond.Some?
    requires status.LastObserved() <= c.gen
    ensures Writable(w, c, status)
  {
  }

  lemma UntouchedSame(w: World, c: Instance, base: Status)
    requires CoreOk(w, c, base)
    ensures SameResource(base, base)
    ensures forall hash :: SameResource(base.(hash := hash), base)
  {
  }

  // ----- API writes

  lemma StatusSaved(w: World, c: Instance, base: Status, status: Status)
    requires Steady(w, c, base) && Unchanged(w, c) && Writable(w, c, status) && status.observed == status.LastObserved()
    ensures Steady(PutStatus(w, status), c.(rv := w.clock, status := status), status)
  {
    assert w.obj.value == c.(status := base);
    hide StatusShape;
  }

  lemma MetaSaved(w: World, c: Instance, base: Status, finalizer: bool, status: Status)
    requires Steady(w, c, base) && Unchanged(w, c) && (finalizer || Vacant(w))
    ensures Steady(PutMeta(w, finalizer), c.(finalizer := finalizer, rv := w.clock, status := status), base)
  {
    assert w.obj.value == c.(status := base);
    hide StatusShape;
  }

  lemma WriteOk(w: World, p: Proc, ch: Choice, status: Status, next: Option<Pc>)
    requires Steady(w, p.c, p.base)
    requires Unchanged(w, p.c) ==> Writable(w, p.c, status) && status.observed == status.LastObserved()
    requires next.Some? && Unchanged(w, p.c) ==>
               PcOk(PutStatus(w, status), Proc(p.c.(rv := w.clock, status := status), status, next.value))
    ensures Inv(WriteStatus(w, p, ch, status, next))
  {
    hide PcOk, Writable, SmOk, ObjOk, CoreOk;
    if ch.call == Rejected || !Unchanged(w, p.c) {
      StopOk(w);
    } else {
      StatusSaved(w, p.c, p.base, status);
      if ch.call == Lost || next.None? {
        StopOk(PutStatus(w, status));
      } else {
        GoOk(PutStatus(w, status), p.c.(rv := w.clock, status := status), status, next.value);
      }
    }
  }

  // ----- SM calls

  lemma Provisioned(w: World, c: Instance, base: Status, async: bool)
    requires Steady(w, c, base) && c.finalizer && Vacant(w) && base.id.None? && base.opUrl.None?
    ensures Steady(SmProvision(w, c.spec, async), c, base)
  {
    hide StatusShape;
  }

  lemma Updated(w: World, c: Instance, base: Status, i: Id, async: bool)
    requires Steady(w, c, base) && i in w.insts && base.id == Some(i) && base.opUrl.None?
    ensures Steady(SmUpdate(w, i, c.spec, async), c, base)
  {
    hide StatusShape;
  }

  lemma Deprovisioned(w: World, c: Instance, base: Status, i: Id, async: bool)
    requires Steady(w, c, base) && base.id == Some(i)
    requires Unfailed(w, base) ==> c.deleting && base.opUrl.value.kind != Delete
    ensures Steady(SmDeprovision(w, i, async), c, base)
    ensures !async || i !in w.insts ==> Vacant(SmDeprovision(w, i, async))
  {
    hide StatusShape;
  }

  lemma Shared(w: World, c: Instance, base: Status, i: Id, shared: bool)
    requires Steady(w, c, base) && base.id == Some(i) && c.finalizer
    ensures Steady(SmShare(w, i, shared), c, base)
  {
    hide StatusShape;
  }

  // ----- the calls

  ghost predicate At(w: World, p: Proc) {
    Steady(w, p.c, p.base) && PcOk(w, p)
  }

  lemma WorkOk(w: World, c: Instance, base: Status)
    requires Steady(w, c, base) && c.finalizer && Working(Proc(c, base, Query))
    ensures Inv(Work(w, c, base))
  {
    hide Steady, Inv, Go, Stop, UpdateRequired, ShareRequired;
    assert SmOk(w) && ObjOk(w) by { Parts(w, c, base); }
    StopOk(w);
    if c.status.id.None? {
      GoOk(w, c, base, Query);
    } else if UpdateRequired(c) {
      GoOk(w, c, base, Build);
    } else if ShareRequired(c) {
      assert c.status.ready by { SharingReady(c); }
      GoOk(w, c, base, ShareCall);
    }
  }

  lemma SharingReady(c: Instance)
    requires ShareRequired(c)
    ensures c.status.ready
  {
  }

  lemma Parts(w: World, c: Instance, base: Status)
    requires Steady(w, c, base)
    ensures SmOk(w) && ObjOk(w) && CoreOk(w, c, base)
  {
    hide SmOk, ObjOk, CoreOk;
  }

  lemma HashOk(w: World, c: Instance, base: Status, hash: Hash)
    requires Steady(w, c, base) && c.status == base
    ensures Inv(Finish(w, c, base, base.(hash := hash)))
  {
    Parts(w, c, base);
    KeepingWritable(w, c, base, base.(hash := hash));
    hide Steady, Writable;
    FinishOk(w, c, base, base.(hash := hash));
  }

  lemma SettleOk(w: World, c: Instance, base: Status)
    requires Steady(w, c, base) && Working(Proc(c, base, Query)) && c.status == base
    ensures Inv(Settle(w, c, base))
  {
    hide Steady, Inv, Go, Stop, Finish, Work, Final, CoreOk, ObjOk, SmOk;
    Parts(w, c, base);
    StopOk(w);
    HashOk(w, c, base, Of(c.spec));
    if !Final(c) {
      var c1 := if c.status.ready && !c.status.force && c.gen == c.status.Seen() && c.status.hash == NoHash
        then c.(status := c.status.(hash := Of(c.spec))) else c;
      CoreStatus(w, c, base, c1.status);
      assert Steady(w, c1, base) by { SteadyFrom(w, c1, base); }
      if c1.finalizer {
        WorkOk(w, c1, base);
      } else {
        GoOk(w, c1, base, AddFinalizer);
      }
    }
  }

  lemma SteadyFrom(w: World, c: Instance, base: Status)
    requires SmOk(w) && ObjOk(w) && CoreOk(w, c, base)
    ensures Steady(w, c, base)
  {
    hide SmOk, ObjOk, CoreOk;
  }

  lemma PrepareOk(w: World, c: Instance, base: Status)
    requires Steady(w, c, base) && Working(Proc(c, base, Query)) && c.status == base
    ensures Inv(Prepare(w, c, base))
  {
    hide Inv, Go, Settle, SmOk, ObjOk;
    SettleOk(w, c, base);
    if base.readyCond.None? {
      assert base.id.None?;
      hide CoreOk;
      GoOk(w, c, base, InitConditions);
    }
  }

  lemma ConnectOk(w: World, p: Proc, ch: Choice)
    requires At(w, p) && p.pc == Connect
    ensures Inv(AdvanceConnect(w, p, ch))
  {
    hide Inv, Go, Stop, Finish, Prepare, SmOk, ObjOk, Steady;
    var c := p.c;
    Parts(w, c, p.base);
    StopOk(w);
    UntouchedSame(w, c, p.base);
    FailOk(w, c, p.base, Create, false);
    HashOk(w, c, p.base, Of(c.spec));
    if ch.call != Ok {
    } else if c.status.opUrl.Some? && (c.status.opType == Some(Delete) || !c.deleting) {
      GoOk(w, c, p.base, PollStatus);
    } else if c.deleting {
      hide CoreOk;
      if c.finalizer {
        GoOk(w, c, p.base, if c.status.id.None? then DeleteQuery else DeleteCall);
      }
    } else if c.status.hash == Legacy {
    } else if c.status.id.Some? {
      hide CoreOk;
      GoOk(w, c, p.base, CheckExists);
    } else {
      hide CoreOk;
      PrepareOk(w, c, p.base);
    }
  }

  lemma PollBadOk(w: World, p: Proc)
    requires At(w, p) && p.pc == PollStatus && SmStatus(w, p.c.status.opUrl.GetOr(OpUrl(Create, 0, 0))) == Some(Bad)
    ensures var failed := p.c.status.Failure(p.c.gen, p.c.status.LastObserved());
      if p.c.status.opUrl.value.kind == Create || (p.c.status.opUrl.value.kind == Delete && !p.c.deleting)
      then Inv(Go(w, p.c.(status := failed), p.base, CleanupCall))
      else Inv(Finish(w, p.c, p.base, failed.NoOperation()))
  {
    var c := p.c;
    var failed := c.status.Failure(c.gen, c.status.LastObserved());
    Parts(w, c, p.base);
    hide Steady, Inv, Go, Finish, SmOk, ObjOk;
    CoreStatus(w, c, p.base, failed);
    if c.status.opUrl.value.kind == Create || (c.status.opUrl.value.kind == Delete && !c.deleting) {
      assert !c.deleting;
      hide CoreOk;
      SteadyFrom(w, c.(status := failed), p.base);
      GoOk(w, c.(status := failed), p.base, CleanupCall);
    } else {
      KeepingWritable(w, c, p.base, failed.NoOperation());
      hide CoreOk, Writable;
      FinishOk(w, c, p.base, failed.NoOperation());
    }
  }

  lemma PollGoodOk(w: World, p: Proc)
    requires At(w, p) && p.pc == PollStatus && SmStatus(w, p.c.status.opUrl.GetOr(OpUrl(Create, 0, 0))) == Some(Good)
    ensures p.c.status.opUrl.value.kind == Create ==> Inv(Go(w, p.c, p.base, PollFetch))
    ensures p.c.status.opUrl.value.kind == Update ==>
              Inv(Finish(w, p.c, p.base, p.c.status.Success(p.c.status.LastObserved()).NoOperation()))
  {
    var c := p.c;
    Parts(w, c, p.base);
    hide Steady, Inv, Go, Finish, SmOk, ObjOk;
    if c.status.opUrl.value.kind == Create {
      GoOk(w, c, p.base, PollFetch);
    } else if c.status.opUrl.value.kind == Update {
      SuccessOk(w, c, p.base);
    }
  }

  lemma SuccessOk(w: World, c: Instance, base: Status)
    requires Steady(w, c, base) && c.status == base && base.id.Some?
    ensures Inv(Finish(w, c, base, base.Success(base.LastObserved()).NoOperation()))
  {
    Parts(w, c, base);
    hide Steady, Inv, Finish, SmOk, ObjOk;
    KeepingWritable(w, c, base, base.Success(base.LastObserved()).NoOperation());
    hide CoreOk, Writable;
    FinishOk(w, c, base, base.Success(base.LastObserved()).NoOperation());
  }

  /** A delete operation counts as done only when SM holds nothing more. */
  lemma DeleteDone(w: World, c: Instance, base: Status)
    requires SmOk(w) && CoreOk(w, c, base) && base.id.Some? && base.opUrl.Some? && base.opUrl.value.kind == Delete
    requires SmStatus(w, base.opUrl.value) == Some(Good)
    ensures Vacant(w)
  {
  }

  lemma PollGoneOk(w: World, p: Proc)
    requires At(w, p) && p.pc == PollStatus && p.c.status.opUrl.value.kind == Delete
    requires SmStatus(w, p.c.status.opUrl.value) == Some(Good)
    ensures Inv(Go(w, p.c, p.base, PollRemoveFinalizer))
  {
    Parts(w, p.c, p.base);
    DeleteDone(w, p.c, p.base);
    hide Steady, Inv, Go, SmOk, ObjOk;
    GoOk(w, p.c, p.base, PollRemoveFinalizer);
  }

  lemma PollRunningOk(w: World, p: Proc)
    requires At(w, p) && p.pc == PollStatus
    ensures Inv(Finish(w, p.c, p.base, p.c.status.InProgress(p.c.status.opUrl.value.kind, p.c.gen, p.c.status.LastObserved())))
  {
    Parts(w, p.c, p.base);
    hide Steady, Inv, Finish, SmOk, ObjOk;
    var status := p.c.status.InProgress(p.c.status.opUrl.value.kind, p.c.gen, p.c.status.LastObserved());
    UntouchedSame(w, p.c, p.base);
    FailWritable(w, p.c, p.base, status);
    hide CoreOk, Writable;
    FinishOk(w, p.c, p.base, status);
  }

  lemma PollStatusOk(w: World, p: Proc, ch: Choice)
    requires At(w, p) && p.pc == PollStatus
    ensures Inv(AdvancePollStatus(w, p, ch))
  {
    hide Inv, Go, Stop, Finish, Fail, SmOk, ObjOk, CoreOk, Steady, SmStatus;
    var c := p.c;
    var url := c.status.opUrl.value;
    Parts(w, c, p.base);
    StopOk(w);
    UntouchedSame(w, c, p.base);
    FailOk(w, c, p.base, url.kind, ch.throttled);
    FailOk(w, c, p.base, url.kind, false);
    PollRunningOk(w, p);
    match SmStatus(w, url)
    case Some(Bad) => PollBadOk(w, p);
    case Some(Good) =>
      if url.kind == Delete {
        PollGoneOk(w, p);
      } else {
        PollGoodOk(w, p);
      }
    case _ =>
  }

  lemma PollFetchOk(w: World, p: Proc, ch: Choice)
    requires At(w, p) && p.pc == PollFetch
    ensures Inv(AdvancePollFetch(w, p, ch))
  {
    hide Inv, Stop, Finish, SmOk, ObjOk, CoreOk, Steady;
    Parts(w, p.c, p.base);
    StopOk(w);
    SuccessOk(w, p.c, p.base);
  }

  /** Statuses that give up the id once SM holds nothing. */
  lemma ReleasingWritable(w: World, c: Instance, base: Status)
    requires CoreOk(w, c, base) && Vacant(w) && base.opType == Some(Delete)
    ensures Writable(w, c, base.(id := None).NoOperation())
  {
  }

  lemma PollRemoveFinalizerOk(w: World, p: Proc, ch: Choice)
    requires At(w, p) && p.pc == PollRemoveFinalizer
    ensures Inv(AdvancePollRemoveFinalizer(w, p, ch))
  {
    hide Inv, Stop, Finish, SmOk, ObjOk, CoreOk, Steady, Writable, Vacant;
    Parts(w, p.c, p.base);
    StopOk(w);
    if !p.c.finalizer {
      ReleasingWritable(w, p.c, p.base);
      FinishOk(w, p.c, p.base, p.base.(id := None).NoOperation());
    } else if ch.call != Rejected && Unchanged(w, p.c) {
      MetaSaved(w, p.c, p.base, false, p.base);
      var w1 := PutMeta(w, false);
      var c1 := p.c.(finalizer := false, rv := w.clock);
      Parts(w1, c1, p.base);
      StopOk(w1);
      assert Vacant(w1) by { VacantMeta(w, false); }
      ReleasingWritable(w1, c1, p.base);
      FinishOk(w1, c1, p.base, p.base.(id := None).NoOperation());
    }
  }

  lemma VacantMeta(w: World, finalizer: bool)
    requires w.obj.Some? && Vacant(w)
    ensures Vacant(PutMeta(w, finalizer))
  {
  }

  lemma CleanupCalled(w: World, p: Proc, async: bool)
    requires At(w, p) && p.pc == CleanupCall
    ensures var i := p.c.status.id.value;
      var w1 := SmDeprovision(w, i, async);
      if i in w.insts && async then Inv(Finish(w1, p.c, p.base, p.c.status.Operating(OpUrl(Delete, i, w.nextId))))
      else Inv(Go(w1, p.c.(status := p.c.status.NoOperation().(id := None)), p.base, DirectSave))
  {
    var i := p.c.status.id.value;
    var w1 := SmDeprovision(w, i, async);
    Parts(w, p.c, p.base);
    Deprovisioned(w, p.c, p.base, i, async);
    Parts(w1, p.c, p.base);
    hide Steady, Inv, Go, Finish, SmOk, ObjOk;
    if i in w.insts && async {
      var status := p.c.status.Operating(OpUrl(Delete, i, w.nextId));
      assert Writable(w1, p.c, status);
      hide CoreOk, Writable;
      FinishOk(w1, p.c, p.base, status);
    } else {
      var status := p.c.status.NoOperation().(id := None);
      CoreStatus(w1, p.c, p.base, status);
      hide CoreOk;
      SteadyFrom(w1, p.c.(status := status), p.base);
      GoOk(w1, p.c.(status := status), p.base, DirectSave);
    }
  }

  lemma CleanupSame(w: World, p: Proc)
    requires PcOk(w, p) && p.pc == CleanupCall
    ensures p.c.status.id.Some? && SameResource(p.c.status, p.base)
  {
  }

  /** What is cleaned up has failed. */
  lemma CleanupOfFailed(w: World, p: Proc)
    requires At(w, p) && p.pc == CleanupCall
    ensures !Unfailed(w, p.base)
  {
    hide SmOk, ObjOk, CopyOk;
  }

  lemma CleanupOk(w: World, p: Proc, ch: Choice)
    requires At(w, p) && p.pc == CleanupCall
    ensures Inv(AdvanceCleanup(w, p, ch))
  {
    hide Inv, Stop, Finish, Fail, Go, SmOk, ObjOk, CoreOk, Steady, SameResource, SmDeprovision, Unfailed;
    Parts(w, p.c, p.base);
    CleanupSame(w, p);
    CleanupOfFailed(w, p);
    var i := p.c.status.id.value;
    var w1 := if ch.call == Rejected then w else SmDeprovision(w, i, ch.async);
    CleanupCalled(w, p, ch.async);
    hide PcOk;
    assert p.base.id == Some(i) by { SameId(p.c.status, p.base); }
    Deprovisioned(w, p.c, p.base, i, ch.async);
    Parts(w1, p.c, p.base);
    StopOk(w1);
    FailOk(w1, p.c, p.base, Delete, true);
  }

  lemma SameId(s: Status, base: Status)
    requires SameResource(s, base)
    ensures s.id == base.id
  {
  }

  lemma SaveOk(w: World, p: Proc, ch: Choice)
    requires At(w, p) && p.pc == Save
    ensures Inv(WriteStatus(w, p, ch, UpdateStatus(p.c.status), None))
  {
    hide Inv, SmOk, ObjOk, CoreOk, Steady;
    if Unchanged(w, p.c) {
      ObservedWritable(w, p.c, p.c.status);
    }
    hide Writable;
    WriteOk(w, p, ch, UpdateStatus(p.c.status), None);
  }

  lemma ObservedWritable(w: World, c: Instance, status: Status)
    requires Writable(w, c, status)
    ensures Writable(w, c, UpdateStatus(status))
  {
  }

  lemma DirectSaveOk(w: World, p: Proc, ch: Choice)
    requires At(w, p) && p.pc == DirectSave
    ensures Inv(WriteStatus(w, p, ch, p.c.status, None))
  {
    Parts(w, p.c, p.base);
    assert Writable(w, p.c, p.c.status) && p.c.status.observed == p.c.status.LastObserved();
    hide Inv, SmOk, ObjOk, CoreOk, Steady, Writable;
    WriteOk(w, p, ch, p.c.status, None);
  }

  // ----- deletion

  lemma FoundWritable(w: World, c: Instance, base: Status, i: Id)
    requires SmOk(w) && CoreOk(w, c, base) && base.id.None? && i in w.insts
    ensures base.opUrl.None?
    ensures Writable(w, c, base.(id := Some(i)).InProgress(Delete, c.gen, c.gen))
  {
  }

  lemma DeleteQueryOk(w: World, p: Proc, ch: Choice)
    requires At(w, p) && p.pc == DeleteQuery
    ensures Inv(AdvanceDeleteQuery(w, p, ch, Listed(w)))
  {
    hide Inv, Finish, Fail, Go, SmOk, ObjOk, CoreOk, Steady, Writable;
    Parts(w, p.c, p.base);
    UntouchedSame(w, p.c, p.base);
    FailOk(w, p.c, p.base, Delete, ch.throttled);
    match Listed(w)
    case Some(i) =>
      FoundWritable(w, p.c, p.base, i);
      FinishOk(w, p.c, p.base, p.c.status.(id := Some(i)).InProgress(Delete, p.c.gen, p.c.gen));
    case None =>
      GoOk(w, p.c, p.base, DeleteRemoveFinalizer);
  }

  lemma DeleteCalled(w: World, p: Proc, async: bool)
    requires At(w, p) && p.pc == DeleteCall
    ensures var i := p.c.status.id.value;
      var w1 := SmDeprovision(w, i, async);
      if i in w.insts && async then
        Inv(Finish(w1, p.c, p.base, p.c.status.Operating(OpUrl(Delete, i, w.nextId)).InProgress(Delete, p.c.gen, p.c.gen)))
      else Inv(Go(w1, p.c.(status := p.c.status.(id := None)), p.base, DeleteSave))
  {
    var i := p.c.status.id.value;
    var w1 := SmDeprovision(w, i, async);
    Parts(w, p.c, p.base);
    Deprovisioned(w, p.c, p.base, i, async);
    Parts(w1, p.c, p.base);
    hide Steady, Inv, Go, Finish, SmOk, ObjOk;
    if i in w.insts && async {
      var status := p.c.status.Operating(OpUrl(Delete, i, w.nextId)).InProgress(Delete, p.c.gen, p.c.gen);
      assert Writable(w1, p.c, status);
      hide CoreOk, Writable;
      FinishOk(w1, p.c, p.base, status);
    } else {
      CoreStatus(w1, p.c, p.base, p.c.status.(id := None));
      hide CoreOk;
      SteadyFrom(w1, p.c.(status := p.c.status.(id := None)), p.base);
      GoOk(w1, p.c.(status := p.c.status.(id := None)), p.base, DeleteSave);
    }
  }

  lemma NotDeleting(w: World, c: Instance, base: Status)
    requires CoreOk(w, c, base) && base.opType != Some(Delete)
    ensures Unfailed(w, base) ==> base.opUrl.value.kind != Delete
  {
  }

  lemma DeleteCallOk(w: World, p: Proc, ch: Choice)
    requires At(w, p) && p.pc == DeleteCall
    ensures Inv(AdvanceDeleteCall(w, p, ch))
  {
    hide Inv, Stop, Finish, Fail, Go, SmOk, ObjOk, CoreOk, Steady, SmDeprovision, SameResource;
    Parts(w, p.c, p.base);
    UntouchedSame(w, p.c, p.base);
    var i := p.c.status.id.value;
    var w1 := if ch.call == Rejected then w else SmDeprovision(w, i, ch.async);
    DeleteCalled(w, p, ch.async);
    assert Unfailed(w, p.base) ==> p.base.opUrl.value.kind != Delete by { NotDeleting(w, p.c, p.base); }
    Deprovisioned(w, p.c, p.base, i, ch.async);
    Parts(w1, p.c, p.base);
    StopOk(w1);
    FailOk(w1, p.c, p.base, Delete, ch.throttled);
  }

  lemma DeleteSaveOk(w: World, p: Proc, ch: Choice)
    requires At(w, p) && p.pc == DeleteSave
    ensures Inv(WriteStatus(w, p, ch, p.c.status, Some(DeleteRemoveFinalizer)))
  {
    Parts(w, p.c, p.base);
    assert Writable(w, p.c, p.c.status) && p.c.status.observed == p.c.status.LastObserved();
    hide Inv, SmOk, ObjOk, CoreOk, Steady, Writable;
    WriteOk(w, p, ch, p.c.status, Some(DeleteRemoveFinalizer));
  }

  lemma DeleteRemoveFinalizerOk(w: World, p: Proc, ch: Choice)
    requires At(w, p) && p.pc == DeleteRemoveFinalizer
    ensures Inv(AdvanceDeleteRemoveFinalizer(w, p, ch))
  {
    hide Inv, Stop, SmOk, ObjOk, CoreOk, Steady;
    Parts(w, p.c, p.base);
    StopOk(w);
    if ch.call != Rejected && Unchanged(w, p.c) {
      MetaSaved(w, p.c, p.base, false, p.base);
      Parts(PutMeta(w, false), p.c.(finalizer := false, rv := w.clock, status := p.base), p.base);
      StopOk(PutMeta(w, false));
    }
  }

  // ----- creation, update and sharing

  lemma MissingOk(w: World, c: Instance, base: Status)
    requires Steady(w, c, base) && c.status == base && base.opUrl.None?
    ensures Inv(Finish(w, c, base, base.Missing(c.gen)))
  {
    Parts(w, c, base);
    hide Steady, Inv, Finish, SmOk, ObjOk;
    KeepingWritable(w, c, base, base.Missing(c.gen));
    hide CoreOk, Writable;
    FinishOk(w, c, base, base.Missing(c.gen));
  }

  lemma CheckExistsOk(w: World, p: Proc, ch: Choice)
    requires At(w, p) && p.pc == CheckExists
    ensures Inv(AdvanceCheckExists(w, p, ch))
  {
    hide Inv, Stop, Finish, Prepare, SmOk, ObjOk, CoreOk, Steady;
    Parts(w, p.c, p.base);
    StopOk(w);
    MissingOk(w, p.c, p.base);
    PrepareOk(w, p.c, p.base);
  }

  lemma InitOk(w: World, p: Proc, ch: Choice)
    requires At(w, p) && p.pc == InitConditions
    ensures Inv(AdvanceInit(w, p, ch))
  {
    var status := UpdateStatus(p.c.status.(ready := false).InProgress(Create, p.c.gen, p.c.gen));
    Parts(w, p.c, p.base);
    KeepingWritable(w, p.c, p.base, status);
    hide Inv, Stop, Settle, SmOk, ObjOk, CoreOk, Steady, Writable;
    StopOk(w);
    if ch.call != Rejected && Unchanged(w, p.c) {
      StatusSaved(w, p.c, p.base, status);
      var c1 := p.c.(rv := w.clock, status := status);
      Parts(PutStatus(w, status), c1, status);
      StopOk(PutStatus(w, status));
      SettleOk(PutStatus(w, status), c1, status);
    }
  }

  lemma AddFinalizerOk(w: World, p: Proc, ch: Choice)
    requires At(w, p) && p.pc == AddFinalizer
    ensures Inv(AdvanceAddFinalizer(w, p, ch))
  {
    hide Inv, Stop, Work, SmOk, ObjOk, CoreOk, Steady;
    Parts(w, p.c, p.base);
    StopOk(w);
    if ch.call != Rejected && Unchanged(w, p.c) {
      MetaSaved(w, p.c, p.base, true, p.base);
      var c1 := p.c.(finalizer := true, rv := w.clock, status := p.base);
      Parts(PutMeta(w, true), c1, p.base);
      StopOk(PutMeta(w, true));
      WorkOk(PutMeta(w, true), c1, p.base);
    }
  }

  lemma RecoveredWritable(w: World, c: Instance, base: Status, i: Id)
    requires SmOk(w) && CoreOk(w, c, base) && i in w.insts && base.id.None? && base.opUrl.None?
    requires c.status == base.(hash := c.status.hash)
    ensures Writable(w, c, Recovered(w, c, i))
  {
    hide CopyOk;
  }

  lemma QueryOk(w: World, p: Proc, ch: Choice)
    requires At(w, p) && p.pc == Query
    ensures Inv(AdvanceQuery(w, p, ch, Listed(w)))
  {
    hide Inv, Stop, Finish, Fail, Go, SmOk, ObjOk, CoreOk, Steady, Writable, Recovered, SameResource;
    var c := p.c;
    Parts(w, c, p.base);
    StopOk(w);
    UntouchedSame(w, c, p.base);
    FailOk(w, c, p.base, Create, ch.throttled);
    match Listed(w)
    case Some(i) =>
      RecoveredWritable(w, c, p.base, i);
      FinishOk(w, c, p.base, Recovered(w, c, i));
    case None =>
      var status := c.status.(hash := Of(c.spec));
      CoreStatus(w, c, p.base, status);
      SteadyFrom(w, c.(status := status), p.base);
      GoOk(w, c.(status := status), p.base, Build);
  }

  lemma BuildOk(w: World, p: Proc, ch: Choice)
    requires At(w, p) && p.pc == Build
    ensures Inv(AdvanceBuild(w, p, ch))
  {
    hide Inv, Stop, Finish, Go, SmOk, ObjOk, CoreOk, Steady, SameResource;
    var c := p.c;
    Parts(w, c, p.base);
    UntouchedSame(w, c, p.base);
    FailOk(w, c, p.base, Create, false);
    GoOk(w, c, p.base, Built(c));
    if ch.call != Rejected && Unchanged(w, c) {
      MetaSaved(w, c, p.base, true, c.status);
      MetaSaved(w, c, p.base, true, p.base);
      var w1 := PutMeta(w, c.finalizer);
      LostWrite(w, c);
      StaleFailOk(w, w1, c, p.base);
      GoOk(w1, c.(rv := w.clock, status := p.base), p.base, Built(c));
    }
  }

  /** After a write whose answer was lost, the copy is out of date and its next write fails. */
  lemma LostWrite(w: World, c: Instance)
    requires ObjOk(w) && Unchanged(w, c)
    ensures !Unchanged(PutMeta(w, true), c)
  {
  }

  lemma StaleFailOk(w: World, w1: World, c: Instance, base: Status)
    requires Steady(w, c, base) && Unchanged(w, c) && w1 == PutMeta(w, true) && c.finalizer
    ensures Inv(Finish(w1, c, base, c.status.Failure(c.gen, c.gen)))
  {
    MetaSaved(w, c, base, true, c.status);
    Parts(w1, c.(finalizer := true, rv := w.clock, status := c.status), base);
    LostWrite(w, c);
    assert CoreOk(w1, c, base);
    hide SmOk, ObjOk, CoreOk, Inv, Finish;
    SteadyFrom(w1, c, base);
    FinishOk(w1, c, base, c.status.Failure(c.gen, c.gen));
  }

  lemma ProvisionedOk(w: World, p: Proc, async: bool)
    requires At(w, p) && p.pc == Provision
    ensures var w1 := SmProvision(w, p.c.spec, async);
      var s := p.c.status.(id := Some(w.nextId));
      && Steady(w1, p.c, p.base)
      && (async ==> Writable(w1, p.c, s.Operating(OpUrl(Create, w.nextId, w.nextId)).InProgress(Create, p.c.gen, p.c.gen)))
      && (!async ==> Writable(w1, p.c, s.Success(p.c.gen)))
  {
    Provisioned(w, p.c, p.base, async);
    Parts(w, p.c, p.base);
    hide Steady, CopyOk, SmOk;
  }

  lemma ProvisionOk(w: World, p: Proc, ch: Choice)
    requires At(w, p) && p.pc == Provision
    ensures Inv(AdvanceProvision(w, p, ch))
  {
    hide Inv, Finish, Fail, SmOk, ObjOk, CoreOk, Steady, Writable, SmProvision, SameResource;
    Parts(w, p.c, p.base);
    UntouchedSame(w, p.c, p.base);
    FailOk(w, p.c, p.base, Create, ch.throttled);
    ProvisionedOk(w, p, ch.async);
    var w1 := SmProvision(w, p.c.spec, ch.async);
    FailOk(w1, p.c, p.base, Create, false);
    var s := p.c.status.(id := Some(w.nextId));
    if ch.async {
      FinishOk(w1, p.c, p.base, s.Operating(OpUrl(Create, w.nextId, w.nextId)).InProgress(Create, p.c.gen, p.c.gen));
    } else {
      FinishOk(w1, p.c, p.base, s.Success(p.c.gen));
    }
  }

  lemma UpdatedOk(w: World, p: Proc, i: Id, async: bool)
    requires At(w, p) && p.pc == UpdateCall && p.c.status.id == Some(i) && i in w.insts
    ensures var w1 := SmUpdate(w, i, p.c.spec, async);
      var s := p.c.status.(hash := Of(p.c.spec));
      && Steady(w1, p.c.(status := s), p.base)
      && (async ==>
            Writable(w1, p.c, s.Operating(OpUrl(Update, i, w.nextId)).InProgress(Update, p.c.gen, p.c.gen).(force := false)))
      && (!async ==> Writable(w1, p.c, s.Success(p.c.gen).(force := false)))
  {
    var w1 := SmUpdate(w, i, p.c.spec, async);
    var s := p.c.status.(hash := Of(p.c.spec));
    Updated(w, p.c, p.base, i, async);
    Parts(w, p.c, p.base);
    Parts(w1, p.c, p.base);
    CoreStatus(w1, p.c, p.base, s);
    SteadyFrom(w1, p.c.(status := s), p.base);
    hide Steady, CopyOk, SmOk, ObjOk;
  }

  lemma UpdateOk(w: World, p: Proc, ch: Choice)
    requires At(w, p) && p.pc == UpdateCall
    ensures Inv(AdvanceUpdate(w, p, ch))
  {
    hide Inv, Finish, Fail, SmOk, ObjOk, CoreOk, Steady, Writable, SmUpdate, SameResource, Busy;
    var i := p.c.status.id.value;
    var c := p.c.(status := p.c.status.(hash := Of(p.c.spec)));
    Parts(w, p.c, p.base);
    UntouchedSame(w, p.c, p.base);
    CoreStatus(w, p.c, p.base, c.status);
    SteadyFrom(w, c, p.base);
    FailOk(w, c, p.base, Update, ch.throttled);
    if i in w.insts {
      UpdatedOk(w, p, i, ch.async);
      var w1 := SmUpdate(w, i, c.spec, ch.async);
      FailOk(w1, c, p.base, Update, false);
      UpdateFinishOk(w1, p.c, c, p.base, c.status.Operating(OpUrl(Update, i, w.nextId)).InProgress(Update, c.gen, c.gen).(force := false), ch.async);
      UpdateFinishOk(w1, p.c, c, p.base, c.status.Success(c.gen).(force := false), !ch.async);
    }
  }

  lemma UpdateFinishOk(w1: World, c: Instance, c1: Instance, base: Status, status: Status, does: bool)
    requires c1 == c.(status := c1.status) && Steady(w1, c1, base) && (does ==> Writable(w1, c, status))
    ensures does ==> Inv(Finish(w1, c1, base, status))
  {
    if does {
      assert Writable(w1, c1, status);
      hide Steady, Writable, Inv, Finish;
      FinishOk(w1, c1, base, status);
    }
  }

  lemma AlignedOk(w: World, c: Instance, base: Status, sharing: Sharing)
    requires Steady(w, c, base) && Working(Proc(c, base, ShareCall))
    ensures Inv(Finish(w, c, base, c.status.Aligned(sharing, c.gen)))
    ensures Inv(Finish(w, c, base, c.status.(sharing := sharing)))
  {
    Parts(w, c, base);
    KeepingWritable(w, c, base, c.status.Aligned(sharing, c.gen));
    KeepingWritable(w, c, base, c.status.(sharing := sharing));
    hide Steady, Inv, Finish, SmOk, ObjOk, CoreOk, Writable;
    FinishOk(w, c, base, c.status.Aligned(sharing, c.gen));
    FinishOk(w, c, base, c.status.(sharing := sharing));
  }

  lemma ShareOk(w: World, p: Proc, ch: Choice)
    requires At(w, p) && p.pc == ShareCall
    ensures Inv(AdvanceShare(w, p, ch))
  {
    hide Inv, Stop, Finish, Fail, SmOk, ObjOk, CoreOk, Steady, SmShare, SameResource;
    var share := p.c.wanted == Some(true);
    Parts(w, p.c, p.base);
    UntouchedSame(w, p.c, p.base);
    Shared(w, p.c, p.base, p.c.status.id.value, share);
    var w1 := if ch.call == Rejected then w else SmShare(w, p.c.status.id.value, share);
    ShareLimitOk(w1, p.c, p.base);
    AlignedOk(w1, p.c, p.base, On);
    AlignedOk(w1, p.c, p.base, Off);
    AlignedOk(w1, p.c, p.base, Unsupported);
    AlignedOk(w1, p.c, p.base, Absent);
  }

  lemma ShareLimitOk(w: World, c: Instance, base: Status)
    requires Steady(w, c, base) && SameResource(c.status, base)
    ensures Inv(Finish(w, c, base, c.status.InProgress(Create, c.gen, c.gen)))
  {
    FailWritable(w, c, base, c.status.InProgress(Create, c.gen, c.gen)) by { Parts(w, c, base); }
    hide Steady, SameResource, Writable, Finish, Inv;
    FinishOk(w, c, base, c.status.InProgress(Create, c.gen, c.gen));
  }
}
