/**
 No silently missed specification: a Succeeded condition that is true for the current generation means
 that SM applies the current specification.
 */
module InstanceSpecs {
  import opened Options
  import opened Remote
  import opened InstanceWorld
  import opened InstanceReconciler
  import opened InstanceInvariant
  import opened InstanceSteps
  import opened InstanceSafety

  /** SM applies `spec` to the instance, and nothing else is under way. */
  predicate Faithful(w: World, i: Id, spec: Spec) {
    i in w.insts ==>
      && w.insts[i].applied == spec
      && (w.insts[i].last in w.ops && w.ops[w.insts[i].last].state == Running && w.ops[w.insts[i].last].kind != Delete ==>
            w.ops[w.insts[i].last].target == spec)
  }

  /** A success that `s` reports for the generation of `o` is true. */
  predicate Honest(w: World, o: Instance, s: Status) {
    !o.deleting && s.id.Some? && s.succeeded.Some? && s.succeeded.value.good && s.succeeded.value.gen == o.gen ==>
      Faithful(w, s.id.value, o.spec)
  }

  /** A create or update that `s` records and that has not failed. */
  predicate Pursues(w: World, s: Status) {
    Unfailed(w, s) && s.opUrl.value.kind != Delete
  }

  /** The recorded operation is the latest, and asks for the specification whose generation `s` observed. */
  predicate OnTrack(w: World, o: Instance, s: Status) {
    !o.deleting && Pursues(w, s) ==>
      && w.insts[s.opUrl.value.resource].last == s.opUrl.value.op
      && (s.LastObserved() == o.gen ==> w.ops[s.opUrl.value.op].target == o.spec)
  }

  predicate Truth(w: World, o: Instance, s: Status) {
    Honest(w, o, s) && OnTrack(w, o, s)
  }

  predicate StoredTrue(w: World) {
    w.obj.Some? ==> Truth(w, w.obj.value, w.obj.value.status)
  }

  predicate PcTrue(w: World, p: Proc) {
    && (p.pc.Save? && Unchanged(w, p.c) ==> Truth(w, p.c, p.c.status))
    && (p.pc.PollFetch? && p.c.status.opUrl.Some? && p.c.status.opUrl.value.op in w.ops ==>
          w.ops[p.c.status.opUrl.value.op].state == Good)
  }

  predicate Claims(w: World) {
    StoredTrue(w) && (w.proc.Some? ==> PcTrue(w, w.proc.value))
  }

  // ----- the hypotheses

  /** The recorded operation asks for the specification at hand. */
  predicate OpCurrent(w: World, c: Instance, s: Status) {
    !c.deleting && Pursues(w, s) ==> w.ops[s.opUrl.value.op].target == c.spec
  }

  /** What recovery finds was asked for with the specification at hand. */
  predicate FoundCurrent(w: World, c: Instance) {
    forall i :: i in w.insts && w.insts[i].last in w.ops && w.ops[w.insts[i].last].kind != Delete && w.ops[w.insts[i].last].state != Bad ==>
      w.ops[w.insts[i].last].target == c.spec
  }

  /**
   An error of the SM client or of Status() meets no operation for an older specification; sharing
   meets no update whose record was lost; and recovery finds nothing older than the specification.
   */
  predicate Trusted(w: World, p: Proc, ch: Choice) {
    && (Unchanged(w, p.c) && (p.pc.Connect? || p.pc.PollStatus?) && ch.call != Ok ==> OpCurrent(w, p.c, p.c.status))
    && (Unchanged(w, p.c) && p.pc.ShareCall? && p.c.status.id.Some? && p.c.status.succeeded.Some? && p.c.status.succeeded.value.good ==>
          Faithful(w, p.c.status.id.value, p.c.spec))
    && (Unchanged(w, p.c) && p.pc.Query? ==> FoundCurrent(w, p.c))
  }

  predicate Allowed(w: World, a: Action) {
    a.Call? && w.proc.Some? ==> Trusted(w, w.proc.value, a.ch)
  }

  // ----- putting a step together

  /** What a claim depends on. */
  lemma TruthApart(w: World, w1: World, o: Instance, s: Status)
    requires Truth(w, o, s) && w1.insts == w.insts && w1.ops == w.ops
    ensures Truth(w1, o, s)
  {
  }

  lemma GoTrue(w: World, c: Instance, base: Status, pc: Pc)
    requires StoredTrue(w) && PcTrue(w, Proc(c, base, pc))
    ensures Claims(Go(w, c, base, pc))
  {
  }

  lemma StopTrue(w: World)
    requires StoredTrue(w)
    ensures Claims(Stop(w))
  {
  }

  lemma FinishTrue(w: World, c: Instance, base: Status, status: Status)
    requires StoredTrue(w) && (Unchanged(w, c) ==> Truth(w, c, status))
    ensures Claims(Finish(w, c, base, status))
  {
  }

  /** Statuses that report no success and keep the operation on track. */
  lemma UnsuccessfulTrue(w: World, c: Instance, base: Status, status: Status)
    requires StoredTrue(w) && CopyOk(w, c, base) && !(status.succeeded.Some? && status.succeeded.value.good)
    requires status.opUrl.None? || (status.opUrl == base.opUrl &&
               (status.LastObserved() == base.LastObserved() || (Unchanged(w, c) ==> OpCurrent(w, c, status))))
    ensures Unchanged(w, c) ==> Truth(w, c, status)
  {
  }

  lemma FailTrue(w: World, c: Instance, base: Status, kind: OpKind, throttled: bool)
    requires StoredTrue(w) && CopyOk(w, c, base) && c.status.opUrl == base.opUrl && (Unchanged(w, c) ==> OpCurrent(w, c, c.status))
    ensures Claims(Fail(w, c, base, kind, throttled))
    ensures Claims(Finish(w, c, base, c.status.Failure(c.gen, c.gen)))
  {
    UnsuccessfulTrue(w, c, base, c.status.InProgress(kind, c.gen, c.gen));
    UnsuccessfulTrue(w, c, base, c.status.Failure(c.gen, c.gen));
    hide CopyOk, OpCurrent, Truth, StoredTrue, Claims, Finish;
    FinishTrue(w, c, base, c.status.InProgress(kind, c.gen, c.gen));
    FinishTrue(w, c, base, c.status.Failure(c.gen, c.gen));
  }

  lemma StatusTrue(w: World, c: Instance, base: Status, status: Status)
    requires Unchanged(w, c) && CopyOk(w, c, base) && Truth(w, c, status)
    ensures StoredTrue(PutStatus(w, status))
  {
  }

  lemma MetaTrue(w: World, c: Instance, base: Status, finalizer: bool)
    requires Unchanged(w, c) && CopyOk(w, c, base) && StoredTrue(w)
    ensures StoredTrue(PutMeta(w, finalizer))
  {
  }

  // ----- SM calls keep what the stored status reports

  lemma UpdateTrue(w: World, c: Instance, base: Status, i: Id, async: bool)
    requires Steady(w, c, base) && StoredTrue(w) && c.finalizer && base.opUrl.None? && i in w.insts
    ensures StoredTrue(SmUpdate(w, i, c.spec, async))
  {
    var o := w.obj.value;
    assert SameStatus(o.status, base);
    assert o.status.LastObserved() == base.LastObserved() <= c.gen;
    hide StatusShape;
  }

  lemma ProvisionTrue(w: World, c: Instance, base: Status, async: bool)
    requires Steady(w, c, base) && StoredTrue(w) && c.finalizer && base.id.None? && base.opUrl.None?
    ensures StoredTrue(SmProvision(w, c.spec, async))
  {
    hide StatusShape;
  }

  lemma CleanupTrue(w: World, p: Proc, async: bool)
    requires At(w, p) && StoredTrue(w) && p.pc == CleanupCall
    ensures StoredTrue(SmDeprovision(w, p.c.status.id.value, async))
  {
    hide StatusShape;
  }

  lemma DeleteTrue(w: World, c: Instance, base: Status, i: Id, async: bool)
    requires Steady(w, c, base) && StoredTrue(w) && c.finalizer && c.deleting
    ensures StoredTrue(SmDeprovision(w, i, async))
  {
    hide StatusShape;
  }

  lemma ShareTrue(w: World, i: Id, shared: bool)
    requires StoredTrue(w)
    ensures StoredTrue(SmShare(w, i, shared)) && SmShare(w, i, shared).obj == w.obj
  {
  }

  // ----- the calls

  lemma ConnectTrue(w: World, p: Proc, ch: Choice)
    requires At(w, p) && StoredTrue(w) && p.pc == Connect && (ch.call != Ok && Unchanged(w, p.c) ==> OpCurrent(w, p.c, p.c.status))
    ensures Claims(AdvanceConnect(w, p, ch))
  {
    hide SmOk, ObjOk, CoreOk, Claims, StoredTrue, Finish, Go, Stop, Prepare, OpCurrent, CopyOk;
    Parts(w, p.c, p.base);
    StopTrue(w);
    assert CopyOk(w, p.c, p.base) by { CopyOf(w, p.c, p.base); }
    if ch.call != Ok {
      FailTrue(w, p.c, p.base, Create, false);
    } else {
      HashTrue(w, p.c, p.base);
      PrepareTrue(w, p.c, p.base);
      GoTrue(w, p.c, p.base, PollStatus);
      GoTrue(w, p.c, p.base, CheckExists);
      GoTrue(w, p.c, p.base, DeleteQuery);
      GoTrue(w, p.c, p.base, DeleteCall);
    }
  }

  lemma CopyOf(w: World, c: Instance, base: Status)
    requires CoreOk(w, c, base)
    ensures CopyOk(w, c, base)
  {
    hide StatusShape;
  }

  lemma HashTrue(w: World, c: Instance, base: Status)
    requires StoredTrue(w) && CopyOk(w, c, base) && c.status == base
    ensures Claims(Finish(w, c, base, base.(hash := Of(c.spec))))
  {
    assert Unchanged(w, c) ==> Truth(w, c, base.(hash := Of(c.spec)));
  }

  lemma WorkTrue(w: World, c: Instance, base: Status)
    requires StoredTrue(w)
    ensures Claims(Work(w, c, base))
  {
    hide StoredTrue, UpdateRequired, ShareRequired, Claims, Go, Stop;
    StopTrue(w);
    GoTrue(w, c, base, Query);
    GoTrue(w, c, base, Build);
    GoTrue(w, c, base, ShareCall);
  }

  lemma SettleTrue(w: World, c: Instance, base: Status)
    requires StoredTrue(w) && CopyOk(w, c, base) && c.status == base
    ensures Claims(Settle(w, c, base))
  {
    hide StoredTrue, Claims, Go, Stop, Finish, Work, Final, CopyOk;
    StopTrue(w);
    HashTrue(w, c, base);
    var c1 := if c.status.ready && !c.status.force && c.gen == c.status.Seen() && c.status.hash == NoHash
      then c.(status := c.status.(hash := Of(c.spec))) else c;
    WorkTrue(w, c1, base);
    GoTrue(w, c1, base, AddFinalizer);
  }

  lemma PrepareTrue(w: World, c: Instance, base: Status)
    requires StoredTrue(w) && CopyOk(w, c, base) && c.status == base
    ensures Claims(Prepare(w, c, base))
  {
    hide StoredTrue, Claims, Go, Settle, CopyOk;
    SettleTrue(w, c, base);
    GoTrue(w, c, base, InitConditions);
  }

  /** A finished operation that was on track has made the specification it observed the applied one. */
  lemma DoneTrue(w: World, c: Instance, base: Status)
    requires SmOk(w) && StoredTrue(w) && CopyOk(w, c, base) && StatusShape(base, c.deleting) && !c.deleting
    requires base.opUrl.Some? && base.id.Some? && base.opUrl.value.kind != Delete
    requires base.opUrl.value.resource in w.insts ==> base.opUrl.value.op in w.ops && w.ops[base.opUrl.value.op].state == Good
    ensures Unchanged(w, c) ==> Truth(w, c, base.Success(base.LastObserved()).NoOperation())
  {
    if Unchanged(w, c) {
      assert Truth(w, c, base);
    }
  }

  lemma PollTrue(w: World, p: Proc, ch: Choice)
    requires At(w, p) && StoredTrue(w) && p.pc == PollStatus && (ch.call != Ok && Unchanged(w, p.c) ==> OpCurrent(w, p.c, p.c.status))
    ensures Claims(AdvancePollStatus(w, p, ch))
  {
    hide SmOk, ObjOk, CoreOk, Claims, StoredTrue, Finish, Go, Stop, OpCurrent, CopyOk, SmStatus, Fail;
    Parts(w, p.c, p.base);
    StopTrue(w);
    CopyOf(w, p.c, p.base);
    var url := p.c.status.opUrl.value;
    if ch.call != Ok {
      FailTrue(w, p.c, p.base, url.kind, ch.throttled);
    } else {
      PolledTrue(w, p);
      GoTrue(w, p.c.(status := p.c.status.Failure(p.c.gen, p.c.status.LastObserved())), p.base, CleanupCall);
      GoTrue(w, p.c, p.base, PollRemoveFinalizer);
    }
  }

  lemma ShapeOf(w: World, c: Instance, base: Status)
    requires CoreOk(w, c, base)
    ensures StatusShape(base, c.deleting)
  {
    hide CopyOk;
  }

  lemma PolledTrue(w: World, p: Proc)
    requires At(w, p) && StoredTrue(w) && p.pc == PollStatus
    ensures var url := p.c.status.opUrl.value;
      var at := p.c.status.LastObserved();
      && (SmStatus(w, url) == None ==> Claims(Fail(w, p.c, p.base, url.kind, false)))
      && Claims(Finish(w, p.c, p.base, p.c.status.InProgress(url.kind, p.c.gen, at)))
      && Claims(Finish(w, p.c, p.base, p.c.status.Failure(p.c.gen, at).NoOperation()))
      && (SmStatus(w, url) == Some(Good) && url.kind == Update ==> Claims(Finish(w, p.c, p.base, p.c.status.Success(at).NoOperation())))
      && (SmStatus(w, url) == Some(Good) && url.kind == Create ==> Claims(Go(w, p.c, p.base, PollFetch)))
  {
    hide SmOk, ObjOk, CoreOk, Claims, StoredTrue, Finish, Go, CopyOk, Fail, Truth;
    Parts(w, p.c, p.base);
    CopyOf(w, p.c, p.base);
    ShapeOf(w, p.c, p.base);
    var url := p.c.status.opUrl.value;
    var at := p.c.status.LastObserved();
    if SmStatus(w, url) == None {
      assert OpCurrent(w, p.c, p.c.status) by { UnknownOp(w, p.c, p.base, url); }
      FailTrue(w, p.c, p.base, url.kind, false);
    }
    UnsuccessfulTrue(w, p.c, p.base, p.c.status.InProgress(url.kind, p.c.gen, at));
    FinishTrue(w, p.c, p.base, p.c.status.InProgress(url.kind, p.c.gen, at));
    UnsuccessfulTrue(w, p.c, p.base, p.c.status.Failure(p.c.gen, at).NoOperation());
    FinishTrue(w, p.c, p.base, p.c.status.Failure(p.c.gen, at).NoOperation());
    if SmStatus(w, url) == Some(Good) && url.kind == Update {
      DoneTrue(w, p.c, p.base);
      FinishTrue(w, p.c, p.base, p.c.status.Success(at).NoOperation());
    }
    if SmStatus(w, url) == Some(Good) && url.kind == Create {
      GoTrue(w, p.c, p.base, PollFetch);
    }
  }

  lemma UnknownOp(w: World, c: Instance, s: Status, url: OpUrl)
    requires s.opUrl == Some(url) && SmStatus(w, url) == None
    ensures !Pursues(w, s)
  {
  }

  lemma PollFetchTrue(w: World, p: Proc, ch: Choice)
    requires At(w, p) && StoredTrue(w) && PcTrue(w, p) && p.pc == PollFetch
    ensures Claims(AdvancePollFetch(w, p, ch))
  {
    hide SmOk, ObjOk, Claims, StoredTrue, Finish, Stop, CopyOk, Truth;
    Parts(w, p.c, p.base);
    StopTrue(w);
    CopyOf(w, p.c, p.base);
    ShapeOf(w, p.c, p.base);
    DoneTrue(w, p.c, p.base);
    hide CoreOk;
    FinishTrue(w, p.c, p.base, p.base.Success(p.base.LastObserved()).NoOperation());
  }

  lemma PollRemoveTrue(w: World, p: Proc, ch: Choice)
    requires At(w, p) && StoredTrue(w) && p.pc == PollRemoveFinalizer
    ensures Claims(AdvancePollRemoveFinalizer(w, p, ch))
  {
    hide SmOk, ObjOk, CoreOk, Claims, StoredTrue, Finish, Stop, CopyOk;
    Parts(w, p.c, p.base);
    StopTrue(w);
    CopyOf(w, p.c, p.base);
    FinishTrue(w, p.c, p.base, p.base.(id := None).NoOperation());
    if p.c.finalizer && ch.call != Rejected && Unchanged(w, p.c) {
      MetaTrue(w, p.c, p.base, false);
      StopTrue(PutMeta(w, false));
      FinishTrue(PutMeta(w, false), p.c.(finalizer := false, rv := w.clock), p.base, p.base.(id := None).NoOperation());
    }
  }

  lemma CleanupCallTrue(w: World, p: Proc, ch: Choice)
    requires At(w, p) && StoredTrue(w) && p.pc == CleanupCall
    ensures Claims(AdvanceCleanup(w, p, ch))
  {
    hide SmOk, ObjOk, CoreOk, Claims, StoredTrue, Finish, Stop, Go, CopyOk, Fail, SmDeprovision, OpCurrent;
    Parts(w, p.c, p.base);
    var i := p.c.status.id.value;
    var w1 := if ch.call == Rejected then w else SmDeprovision(w, i, ch.async);
    CleanupTrue(w, p, ch.async);
    StopTrue(w1);
    CleanupSame(w, p);
    assert p.base.id == Some(i) && p.c.status.opUrl == p.base.opUrl by { hide At, Steady; }
    CleanupOfFailed(w, p);
    Deprovisioned(w, p.c, p.base, i, ch.async);
    Parts(w1, p.c, p.base);
    CopyOf(w1, p.c, p.base);
    assert OpCurrent(w, p.c, p.c.status) && OpCurrent(SmDeprovision(w, i, ch.async), p.c, p.c.status) by { FailedOpCurrent(w, p, i, ch.async); }
    FailTrue(w1, p.c, p.base, Delete, true);
    assert i in w.insts && ch.async ==> Truth(w1, p.c, p.c.status.Operating(OpUrl(Delete, i, w.nextId)));
    FinishTrue(w1, p.c, p.base, p.c.status.Operating(OpUrl(Delete, i, w.nextId)));
    GoTrue(w1, p.c.(status := p.c.status.NoOperation().(id := None)), p.base, DirectSave);
  }

  lemma FailedOpCurrent(w: World, p: Proc, i: Id, async: bool)
    requires At(w, p) && p.pc == CleanupCall && p.c.status.id == Some(i)
    ensures OpCurrent(w, p.c, p.c.status) && OpCurrent(SmDeprovision(w, i, async), p.c, p.c.status)
  {
    hide ObjOk, CopyOk;
  }

  lemma DeleteQueryTrue(w: World, p: Proc, ch: Choice)
    requires At(w, p) && StoredTrue(w) && p.pc == DeleteQuery
    ensures Claims(AdvanceDeleteQuery(w, p, ch, Listed(w)))
  {
    hide SmOk, ObjOk, CoreOk, Claims, StoredTrue, Finish, Go, CopyOk, Listed;
    if ch.call != Ok {
      FinishTrue(w, p.c, p.base, if ch.throttled then p.c.status.InProgress(Delete, p.c.gen, p.c.gen) else p.c.status.Failure(p.c.gen, p.c.gen));
    } else {
      GoTrue(w, p.c, p.base, DeleteRemoveFinalizer);
      match Listed(w)
      case Some(i) => FinishTrue(w, p.c, p.base, p.c.status.(id := Some(i)).InProgress(Delete, p.c.gen, p.c.gen));
      case None =>
    }
  }

  lemma DeleteCallTrue(w: World, p: Proc, ch: Choice)
    requires At(w, p) && StoredTrue(w) && p.pc == DeleteCall
    ensures Claims(AdvanceDeleteCall(w, p, ch))
  {
    hide SmOk, ObjOk, CoreOk, Claims, StoredTrue, Finish, Stop, Go, CopyOk, SmDeprovision;
    var c := p.c;
    var i := c.status.id.value;
    DeleteTrue(w, c, p.base, i, ch.async);
    var w1 := if ch.call == Rejected then w else SmDeprovision(w, i, ch.async);
    StopTrue(w1);
    FinishTrue(w1, c, p.base, if ch.throttled then c.status.InProgress(Delete, c.gen, c.gen) else c.status.Failure(c.gen, c.gen));
    FinishTrue(w1, c, p.base, c.status.Operating(OpUrl(Delete, i, w.nextId)).InProgress(Delete, c.gen, c.gen));
    GoTrue(w1, c.(status := c.status.(id := None)), p.base, DeleteSave);
  }

  lemma WriteTrue(w: World, p: Proc, ch: Choice, status: Status, next: Option<Pc>)
    requires At(w, p) && StoredTrue(w) && (Unchanged(w, p.c) ==> Truth(w, p.c, status))
    requires next.Some? ==> !next.value.Save? && !next.value.PollFetch?
    ensures Claims(WriteStatus(w, p, ch, status, next))
  {
    hide SmOk, ObjOk, CoreOk, Claims, StoredTrue, CopyOk, Truth, PcOk;
    Parts(w, p.c, p.base);
    CopyOf(w, p.c, p.base);
    StopTrue(w);
    if ch.call != Rejected && Unchanged(w, p.c) {
      StatusTrue(w, p.c, p.base, status);
      StopTrue(PutStatus(w, status));
      if next.Some? {
        GoTrue(PutStatus(w, status), p.c.(rv := w.clock, status := status), status, next.value);
      }
    }
  }

  lemma SavesTrue(w: World, p: Proc, ch: Choice)
    requires At(w, p) && StoredTrue(w) && PcTrue(w, p)
    ensures p.pc == Save ==> Claims(WriteStatus(w, p, ch, UpdateStatus(p.c.status), None))
    ensures p.pc == DirectSave ==> Claims(WriteStatus(w, p, ch, p.c.status, None))
    ensures p.pc == DeleteSave ==> Claims(WriteStatus(w, p, ch, p.c.status, Some(DeleteRemoveFinalizer)))
  {
    hide At, StoredTrue, Claims, WriteStatus;
    if p.pc == Save {
      WriteTrue(w, p, ch, UpdateStatus(p.c.status), None);
    } else if p.pc == DirectSave {
      assert PcOk(w, p) by { AtPc(w, p); }
      WriteTrue(w, p, ch, p.c.status, None);
    } else if p.pc == DeleteSave {
      assert PcOk(w, p) by { AtPc(w, p); }
      WriteTrue(w, p, ch, p.c.status, Some(DeleteRemoveFinalizer));
    }
  }

  lemma AtPc(w: World, p: Proc)
    requires At(w, p)
    ensures PcOk(w, p) && Steady(w, p.c, p.base)
  {
    hide PcOk, Steady;
  }

  lemma DeleteRemoveTrue(w: World, p: Proc, ch: Choice)
    requires At(w, p) && StoredTrue(w) && p.pc == DeleteRemoveFinalizer
    ensures Claims(AdvanceDeleteRemoveFinalizer(w, p, ch))
  {
    hide SmOk, ObjOk, CoreOk, Claims, StoredTrue, Stop, CopyOk;
    Parts(w, p.c, p.base);
    CopyOf(w, p.c, p.base);
    StopTrue(w);
    if ch.call != Rejected && Unchanged(w, p.c) {
      MetaTrue(w, p.c, p.base, false);
      StopTrue(PutMeta(w, false));
    }
  }

  lemma CheckExistsTrue(w: World, p: Proc, ch: Choice)
    requires At(w, p) && StoredTrue(w) && p.pc == CheckExists
    ensures Claims(AdvanceCheckExists(w, p, ch))
  {
    hide SmOk, ObjOk, CoreOk, Claims, StoredTrue, Finish, Stop, CopyOk, Prepare;
    Parts(w, p.c, p.base);
    CopyOf(w, p.c, p.base);
    StopTrue(w);
    FinishTrue(w, p.c, p.base, p.c.status.Missing(p.c.gen));
    PrepareTrue(w, p.c, p.base);
  }

  lemma InitTrue(w: World, p: Proc, ch: Choice)
    requires At(w, p) && StoredTrue(w) && p.pc == InitConditions
    ensures Claims(AdvanceInit(w, p, ch))
  {
    hide SmOk, ObjOk, CoreOk, Claims, StoredTrue, Stop, CopyOk, Settle;
    var status := UpdateStatus(p.c.status.(ready := false).InProgress(Create, p.c.gen, p.c.gen));
    Parts(w, p.c, p.base);
    CopyOf(w, p.c, p.base);
    StopTrue(w);
    if ch.call != Rejected && Unchanged(w, p.c) {
      StatusTrue(w, p.c, p.base, status);
      var w1 := PutStatus(w, status);
      var c1 := p.c.(rv := w.clock, status := status);
      StopTrue(w1);
      assert CopyOk(w1, c1, status) by { InitCopy(w, p.c, p.base, status); }
      SettleTrue(w1, c1, status);
    }
  }

  lemma InitCopy(w: World, c: Instance, base: Status, status: Status)
    requires Unchanged(w, c) && CopyOk(w, c, base)
    ensures CopyOk(PutStatus(w, status), c.(rv := w.clock, status := status), status)
  {
  }

  lemma AddFinalizerTrue(w: World, p: Proc, ch: Choice)
    requires At(w, p) && StoredTrue(w) && p.pc == AddFinalizer
    ensures Claims(AdvanceAddFinalizer(w, p, ch))
  {
    hide SmOk, ObjOk, CoreOk, Claims, StoredTrue, Stop, CopyOk, Work;
    Parts(w, p.c, p.base);
    CopyOf(w, p.c, p.base);
    StopTrue(w);
    if ch.call != Rejected && Unchanged(w, p.c) {
      MetaTrue(w, p.c, p.base, true);
      StopTrue(PutMeta(w, true));
      WorkTrue(PutMeta(w, true), p.c.(finalizer := true, rv := w.clock, status := p.base), p.base);
    }
  }

  lemma RecoveredTrue(w: World, c: Instance, i: Id)
    requires SmOk(w) && i in w.insts && FoundCurrent(w, c)
    ensures Truth(w, c, Recovered(w, c, i))
  {
  }

  lemma QueryTrue(w: World, p: Proc, ch: Choice)
    requires At(w, p) && StoredTrue(w) && p.pc == Query && (Unchanged(w, p.c) ==> FoundCurrent(w, p.c))
    ensures Claims(AdvanceQuery(w, p, ch, Listed(w)))
  {
    hide SmOk, ObjOk, CoreOk, Claims, StoredTrue, Finish, Go, CopyOk, Listed, FoundCurrent, Truth, Recovered, Fail, OpCurrent;
    Parts(w, p.c, p.base);
    CopyOf(w, p.c, p.base);
    StopTrue(w);
    assert OpCurrent(w, p.c, p.c.status) by { IdleOpCurrent(w, p.c, p.c.status); }
    FailTrue(w, p.c, p.base, Create, ch.throttled);
    GoTrue(w, p.c.(status := p.c.status.(hash := Of(p.c.spec))), p.base, Build);
    match Listed(w)
    case Some(i) =>
      if Unchanged(w, p.c) {
        RecoveredTrue(w, p.c, i);
      }
      FinishTrue(w, p.c, p.base, Recovered(w, p.c, i));
    case None =>
  }

  lemma IdleOpCurrent(w: World, c: Instance, s: Status)
    requires s.opUrl.None?
    ensures OpCurrent(w, c, s)
  {
  }

  lemma BuildTrue(w: World, p: Proc, ch: Choice)
    requires At(w, p) && StoredTrue(w) && p.pc == Build
    ensures Claims(AdvanceBuild(w, p, ch))
  {
    hide SmOk, ObjOk, CoreOk, Claims, StoredTrue, Finish, Go, CopyOk, Truth;
    var c := p.c;
    Parts(w, c, p.base);
    CopyOf(w, c, p.base);
    TruthOfFailure(w, c);
    FinishTrue(w, c, p.base, c.status.Failure(c.gen, c.gen));
    GoTrue(w, c, p.base, Built(c));
    if ch.call != Rejected && Unchanged(w, c) {
      MetaTrue(w, c, p.base, c.finalizer);
      var w1 := PutMeta(w, c.finalizer);
      TruthOfFailure(w1, c);
      FinishTrue(w1, c, p.base, c.status.Failure(c.gen, c.gen));
      GoTrue(w1, c.(rv := w.clock, status := p.base), p.base, Built(c));
    }
  }

  lemma TruthOfFailure(w: World, c: Instance)
    requires c.status.opUrl.None?
    ensures Truth(w, c, c.status.Failure(c.gen, c.gen))
  {
  }

  lemma ProvisionCallTrue(w: World, p: Proc, ch: Choice)
    requires At(w, p) && StoredTrue(w) && p.pc == Provision
    ensures Claims(AdvanceProvision(w, p, ch))
  {
    var c := p.c;
    var w1 := SmProvision(w, c.spec, ch.async);
    var s := c.status.(id := Some(w.nextId));
    ProvisionTrue(w, c, p.base, ch.async);
    assert ch.async ==> Truth(w1, c, s.Operating(OpUrl(Create, w.nextId, w.nextId)).InProgress(Create, c.gen, c.gen));
    assert !ch.async ==> Truth(w1, c, s.Success(c.gen));
    assert forall v :: Truth(v, c, c.status.InProgress(Create, c.gen, c.gen)) && Truth(v, c, c.status.Failure(c.gen, c.gen));
    hide SmOk, ObjOk, CoreOk, Claims, StoredTrue, Finish, CopyOk, Truth, SmProvision;
    FinishTrue(w, c, p.base, if ch.throttled then c.status.InProgress(Create, c.gen, c.gen) else c.status.Failure(c.gen, c.gen));
    FinishTrue(w1, c, p.base, c.status.Failure(c.gen, c.gen));
    FinishTrue(w1, c, p.base, if ch.async then s.Operating(OpUrl(Create, w.nextId, w.nextId)).InProgress(Create, c.gen, c.gen) else s.Success(c.gen));
  }

  lemma UpdateCallTrue(w: World, p: Proc, ch: Choice)
    requires At(w, p) && StoredTrue(w) && p.pc == UpdateCall
    ensures Claims(AdvanceUpdate(w, p, ch))
  {
    var i := p.c.status.id.value;
    var c := p.c.(status := p.c.status.(hash := Of(p.c.spec)));
    var s := if ch.async then c.status.Operating(OpUrl(Update, i, w.nextId)).InProgress(Update, c.gen, c.gen).(force := false)
             else c.status.Success(c.gen).(force := false);
    hide At, Steady, SmOk, ObjOk, CoreOk, Claims, StoredTrue, Finish, CopyOk, Busy, Truth, SmUpdate;
    AtPc(w, p);
    IdleFailureTrue(c);
    if i in w.insts {
      CopyStatus(w, p);
      UpdateTrue(w, c, p.base, i, ch.async);
      UpdateRecordTrue(w, c, i, ch.async);
    }
    FinishTrue(w, c, p.base, if ch.throttled then c.status.InProgress(Update, c.gen, c.gen) else c.status.Failure(c.gen, c.gen));
    if i in w.insts {
      FinishTrue(SmUpdate(w, i, c.spec, ch.async), c, p.base, c.status.Failure(c.gen, c.gen));
      FinishTrue(SmUpdate(w, i, c.spec, ch.async), c, p.base, s);
    }
  }

  lemma UpdateRecordTrue(w: World, c: Instance, i: Id, async: bool)
    requires i in w.insts && c.status.id == Some(i) && c.status.opUrl.None?
    ensures async ==> Truth(SmUpdate(w, i, c.spec, true), c,
                            c.status.Operating(OpUrl(Update, i, w.nextId)).InProgress(Update, c.gen, c.gen).(force := false))
    ensures !async ==> Truth(SmUpdate(w, i, c.spec, false), c, c.status.Success(c.gen).(force := false))
  {
  }

  lemma IdleFailureTrue(c: Instance)
    requires c.status.opUrl.None?
    ensures forall v :: Truth(v, c, c.status.InProgress(Update, c.gen, c.gen)) && Truth(v, c, c.status.Failure(c.gen, c.gen))
  {
  }

  lemma CopyStatus(w: World, p: Proc)
    requires At(w, p) && p.pc == UpdateCall
    ensures Steady(w, p.c.(status := p.c.status.(hash := Of(p.c.spec))), p.base)
  {
    hide SmOk, ObjOk, StatusShape;
  }

  lemma AlignedTrue(w: World, c: Instance, sharing: Sharing)
    requires c.status.opUrl.None? && c.status.id.Some?
    requires Unchanged(w, c) && c.status.succeeded.Some? && c.status.succeeded.value.good ==> Faithful(w, c.status.id.value, c.spec)
    ensures Unchanged(w, c) ==> Truth(w, c, c.status.Aligned(sharing, c.gen)) && Truth(w, c, c.status.(sharing := sharing))
    ensures Unchanged(w, c) ==> Truth(w, c, c.status.InProgress(Create, c.gen, c.gen))
  {
  }

  lemma FaithfulShare(w: World, i: Id, spec: Spec, shared: bool)
    requires Faithful(w, i, spec)
    ensures Faithful(SmShare(w, i, shared), i, spec)
  {
  }

  lemma ShareCallTrue(w: World, p: Proc, ch: Choice)
    requires At(w, p) && StoredTrue(w) && p.pc == ShareCall && Trusted(w, p, ch)
    ensures Claims(AdvanceShare(w, p, ch))
  {
    hide SmOk, ObjOk, CoreOk, Claims, StoredTrue, Finish, CopyOk, Truth, SmShare, Faithful;
    var c := p.c;
    var share := c.wanted == Some(true);
    var i := c.status.id.value;
    ShareTrue(w, i, share);
    if Unchanged(w, c) && c.status.succeeded.Some? && c.status.succeeded.value.good {
      FaithfulShare(w, i, c.spec, share);
    }
    var w1 := if ch.call == Rejected then w else SmShare(w, i, share);
    AlignedTrue(w1, c, On);
    AlignedTrue(w1, c, Off);
    AlignedTrue(w1, c, Unsupported);
    AlignedTrue(w1, c, Absent);
    FinishTrue(w1, c, p.base, c.status.InProgress(Create, c.gen, c.gen));
    FinishTrue(w1, c, p.base, c.status.Aligned(On, c.gen));
    FinishTrue(w1, c, p.base, c.status.Aligned(Off, c.gen));
    FinishTrue(w1, c, p.base, c.status.Aligned(Unsupported, c.gen));
    FinishTrue(w1, c, p.base, c.status.(sharing := Absent));
  }
}
