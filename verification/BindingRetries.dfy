/** The retry store beside the binding reconciler: its gate keeps every reconcile away from SM until the backoff is over. */
module BindingRetries {
  import opened Options
  import opened Remote
  import opened RetryStore
  import opened BindingWorld
  import opened BindingReconciler

  datatype Policy = Policy(base: nat, max: nat, wrapped: int)

  /** All resources, with the entry of one of them in the store, and the times of its failures since the last success. */
  datatype Timed = Timed(w: World, now: int, retry: Option<RetryState>, times: seq<int>)

  /** Time passes; something happens to any resource; or the operator restarts with an empty store. */
  datatype Event = Tick(d: nat) | Acts(a: Action) | Restart

  /** A poll that finds a creation, or its cleanup, failed. */
  predicate Fails(w: World, n: Name, ch: Choice) {
    n in w.procs && w.procs[n].pc == PollStatus && ch.call == Ok &&
    var c := w.procs[n].c;
    c.status.opUrl.Some? && SmStatus(w, c.status.opUrl.value) == FailedOp && (c.status.opUrl.value.kind == Create || !c.deleting)
  }

  /** A creation done at once and stored, or a poll that sees an operation through. */
  predicate Succeeds(w: World, n: Name, ch: Choice) {
    n in w.procs &&
    var p := w.procs[n];
    match p.pc
    case BindStore(_) => ch.call == Ok
    case PollStore => ch.call == Ok && p.c.status.id.Some?
    case PollRemoveFinalizer => !p.c.finalizer || (ch.call == Ok && Unchanged(w, n, p.c))
    case _ => false
  }

  /** A reconcile of `n` begins only when the gate is open. */
  ghost function Next(p: Policy, t: Timed, n: Name, e: Event): Timed {
    match e
    case Tick(d) => t.(now := t.now + d)
    case Restart => t.(w := t.w.(procs := map[]), retry := None, times := [])
    case Acts(a) =>
      if a == Start(n) && !Open(t.retry, t.now) then t
      else
        var w1 := Step(t.w, a);
        if a.Call? && a.n == n && Fails(t.w, n, a.ch) then
          t.(w := w1, retry := Some(Registered(t.retry, p.base, p.max, p.wrapped, t.now, "")), times := t.times + [t.now])
        else if a.Call? && a.n == n && Succeeds(t.w, n, a.ch) then t.(w := w1, retry := None, times := [])
        else t.(w := w1)
  }

  ghost function NextAll(p: Policy, t: Timed, n: Name, events: seq<Event>): Timed
    decreases |events|
  {
    if events == [] then t else NextAll(p, Next(p, t, n, events[0]), n, events[1..])
  }

  /** The reconcile has just registered a failure, cleans up after it, and ends; or it only has its status left to write. */
  predicate Ending(pc: Pc) {
    pc == CleanupUnbind || pc == Save
  }

  /** The reconcile of `n` is at a call besides those. */
  predicate Working(w: World, n: Name) {
    n in w.procs && !Ending(w.procs[n].pc)
  }

  predicate GateOk(p: Policy, t: Timed, n: Name) {
    && t.retry == AfterFailures(p.base, p.max, p.wrapped, t.times)
    && Gated(p.base, p.max, p.wrapped, t.times)
    && (Working(t.w, n) ==> Open(t.retry, t.now))
  }

  /** No reconcile of `n` starts to work, and one that registers a failure stops. */
  predicate EndsOnly(w: World, w1: World, n: Name, fails: bool) {
    Working(w1, n) ==> Working(w, n) && !fails
  }

  lemma PollEnds(w: World, n: Name, ch: Choice)
    requires n in w.procs && w.procs[n].pc == PollStatus
    ensures EndsOnly(w, AdvancePollStatus(w, n, w.procs[n], ch), n, Fails(w, n, ch))
  {
    hide SmStatus;
  }

  lemma EndingEnds(w: World, n: Name, ch: Choice)
    requires n in w.procs && Ending(w.procs[n].pc)
    ensures w.procs[n].pc == CleanupUnbind ==> EndsOnly(w, AdvanceCleanup(w, n, w.procs[n], ch), n, false)
    ensures w.procs[n].pc == Save ==> EndsOnly(w, WriteStatus(w, n, w.procs[n], ch, None), n, false)
  {
  }

  lemma CallEnds(w: World, n: Name, ch: Choice)
    requires n in w.procs
    ensures EndsOnly(w, Advance(w, n, ch), n, Fails(w, n, ch))
  {
    var p := w.procs[n];
    hide Advance, AdvancePollStatus, AdvanceCleanup, WriteStatus, SmStatus;
    if p.pc == PollStatus {
      assert Advance(w, n, ch) == AdvancePollStatus(w, n, p, ch) by { AdvanceEnding(w, n, ch); }
      PollEnds(w, n, ch);
    } else if Ending(p.pc) {
      AdvanceEnding(w, n, ch);
      EndingEnds(w, n, ch);
    }
  }

  lemma AdvanceEnding(w: World, n: Name, ch: Choice)
    requires n in w.procs
    ensures w.procs[n].pc == PollStatus ==> Advance(w, n, ch) == AdvancePollStatus(w, n, w.procs[n], ch)
    ensures w.procs[n].pc == CleanupUnbind ==> Advance(w, n, ch) == AdvanceCleanup(w, n, w.procs[n], ch)
    ensures w.procs[n].pc == Save ==> Advance(w, n, ch) == WriteStatus(w, n, w.procs[n], ch, None)
  {
    hide AdvancePollStatus, AdvanceCleanup, WriteStatus;
  }

  /** Nothing that happens to other resources moves the reconcile of `n`. */
  predicate Still(w: World, w1: World, n: Name) {
    (n in w1.procs <==> n in w.procs) && (n in w.procs ==> w1.procs[n] == w.procs[n])
  }

  /** Going on and stopping, whatever happened to the stores, move the reconcile at hand alone. */
  lemma GoStill(w: World, v: World, m: Name, n: Name)
    requires n != m && v.procs == w.procs
    ensures forall c: Binding, base: Status, pc: Pc :: Still(w, Go(v, m, c, base, pc), n)
    ensures Still(w, Stop(v, m), n)
  {
  }

  /** The calls that only read. */
  lemma ReadStill(w: World, m: Name, ch: Choice, n: Name)
    requires m in w.procs && n != m
    requires var pc := w.procs[m].pc;
      pc.FetchInstance? || pc.PollStatus? || pc.PollProbe? || pc.PollFetch? || pc.DeleteQuery? || pc.CheckExists?
      || pc.RotateList? || pc.ReadyCheck? || pc.FetchOriginal? || pc.Maintain? || pc.Query?
    ensures Still(w, Advance(w, m, ch), n)
  {
    hide Go, Stop, Still, SmStatus, Dispatch, HasBackup, OnlyMatch, Resync;
    GoStill(w, w, m, n);
  }

  /** The calls that write a status. */
  lemma WriteStill(w: World, m: Name, p: Proc, ch: Choice, n: Name, next: Option<Pc>)
    requires n != m
    ensures Still(w, WriteStatus(w, m, p, ch, next), n)
  {
    hide Go, Stop, Still;
    GoStill(w, w, m, n);
    if m in w.bindings {
      GoStill(w, PutStatus(w, m, p.c.status), m, n);
    }
  }

  lemma StatusStill(w: World, m: Name, ch: Choice, n: Name)
    requires m in w.procs && n != m
    requires var pc := w.procs[m].pc; pc.InitConditions? || pc.DeleteSave? || pc.RotateSave? || pc.Save?
    ensures Still(w, Advance(w, m, ch), n)
  {
    hide Still, WriteStatus;
    var p := w.procs[m];
    WriteStill(w, m, p.(c := p.c.(status := p.c.status.(ready := false).Unsucceeded())), ch, n, Some(FetchInstance));
    WriteStill(w, m, p, ch, n, Some(DeleteDropSecret));
    WriteStill(w, m, p, ch, n, Some(ReadyCheck));
    WriteStill(w, m, p, ch, n, None);
  }

  /** The calls that write or remove the secret. */
  lemma StoreStill(w: World, m: Name, p: Proc, ch: Choice, n: Name, b: Id, done: Status)
    requires n != m
    ensures Still(w, AdvanceStore(w, m, p, ch, b, done), n)
  {
    hide Go, Stop, Still;
    GoStill(w, w, m, n);
    GoStill(w, StoreSecret(w, m, b), m, n);
  }

  lemma SecretStill(w: World, m: Name, ch: Choice, n: Name)
    requires m in w.procs && n != m
    requires var pc := w.procs[m].pc;
      pc.PollStore? || pc.MaintainStore? || pc.RecoverStore? || pc.BindStore? || pc.PollDropSecret? || pc.DeleteDropSecret?
    ensures Still(w, Advance(w, m, ch), n)
  {
    hide Go, Stop, Still, AdvanceStore, Resync;
    var p := w.procs[m];
    GoStill(w, w, m, n);
    GoStill(w, DropSecret(w, m), m, n);
    match p.pc
    case PollStore => StoreStill(w, m, p, ch, n, p.c.status.id.GetOr(0), p.c.status.NoOperation().Success());
    case MaintainStore => StoreStill(w, m, p, ch, n, p.c.status.id.GetOr(0), p.c.status.Success());
    case RecoverStore(b, seen) => StoreStill(w, m, p, ch, n, b, Resync(p.c.status, b, seen));
    case BindStore(b) => StoreStill(w, m, p, ch, n, b, p.c.status.WithId(b).Success());
    case _ =>
  }

  lemma MetaProcs(w: World, m: Name, finalizer: bool, forceRotate: bool)
    requires m in w.bindings
    ensures PutMeta(w, m, finalizer, forceRotate).procs == w.procs && DeleteObject(w, m).procs == w.procs
  {
  }

  /** Going on with rotation, after whatever write, moves the reconcile at hand alone. */
  lemma RotateStill(w: World, v: World, m: Name, c: Binding, base: Status, n: Name)
    requires n != m && v.procs == w.procs
    ensures Still(w, Rotate(v, m, c, base), n)
  {
    hide Go, Stop, Still;
    GoStill(w, v, m, n);
  }

  lemma AnnotationStill(w: World, m: Name, p: Proc, ch: Choice, n: Name)
    requires n != m
    ensures Still(w, AdvanceRotateAnnotation(w, m, p, ch), n)
  {
    hide Go, Stop, Still, Rotate, PutMeta;
    GoStill(w, w, m, n);
    RotateStill(w, w, m, p.c, p.base, n);
    if m in w.bindings {
      var w1 := PutMeta(w, m, p.c.finalizer, false);
      MetaProcs(w, m, p.c.finalizer, false);
      GoStill(w, w1, m, n);
      RotateStill(w, w1, m, p.c.(forceRotate := false, rv := w.clock), p.base, n);
    }
  }

  lemma GuardStill(w: World, m: Name, p: Proc, ch: Choice, n: Name)
    requires n != m
    ensures Still(w, AdvanceAddFinalizer(w, m, p, ch), n)
  {
    hide Go, Stop, Still, PutMeta;
    GoStill(w, w, m, n);
    if m in w.bindings {
      MetaProcs(w, m, true, p.c.forceRotate);
      GoStill(w, PutMeta(w, m, true, p.c.forceRotate), m, n);
    }
  }

  lemma ReleaseStill(w: World, m: Name, p: Proc, ch: Choice, n: Name)
    requires n != m
    ensures Still(w, AdvancePollRemoveFinalizer(w, m, p, ch), n) && Still(w, AdvanceDeleteRemoveFinalizer(w, m, p, ch), n)
    ensures Still(w, AdvanceDeleteSelf(w, m, ch), n)
  {
    hide Go, Stop, Still, PutMeta, DeleteObject;
    GoStill(w, w, m, n);
    if m in w.bindings {
      MetaProcs(w, m, false, p.c.forceRotate);
      GoStill(w, PutMeta(w, m, false, p.c.forceRotate), m, n);
      GoStill(w, DeleteObject(w, m), m, n);
    }
  }

  /** The calls that write or delete the resource itself. */
  lemma MetaStill(w: World, m: Name, ch: Choice, n: Name)
    requires m in w.procs && n != m
    requires var pc := w.procs[m].pc;
      pc.PollRemoveFinalizer? || pc.DeleteRemoveFinalizer? || pc.AddFinalizer? || pc.RotateAnnotation? || pc.DeleteSelf?
    ensures Still(w, Advance(w, m, ch), n)
  {
    hide Still, AdvanceRotateAnnotation, AdvanceAddFinalizer, AdvancePollRemoveFinalizer, AdvanceDeleteRemoveFinalizer,
         AdvanceDeleteSelf;
    var p := w.procs[m];
    AnnotationStill(w, m, p, ch, n);
    GuardStill(w, m, p, ch, n);
    ReleaseStill(w, m, p, ch, n);
  }

  /** The calls that create and remove SM bindings. */
  lemma SmStill(w: World, m: Name, ch: Choice, n: Name)
    requires m in w.procs && n != m
    requires var pc := w.procs[m].pc; pc.CleanupUnbind? || pc.DeleteUnbind? || pc.Bind?
    ensures Still(w, Advance(w, m, ch), n)
  {
    hide Go, Stop, Still;
    var p := w.procs[m];
    GoStill(w, w, m, n);
    GoStill(w, SmBind(w, m, p.c.externalName, ch.async), m, n);
    GoStill(w, SmUnbind(w, p.c.status.id.GetOr(0), ch.async), m, n);
  }

  /** The calls that make a backup. */
  lemma BackupStill(w: World, m: Name, ch: Choice, n: Name)
    requires m in w.procs && n != m
    requires var pc := w.procs[m].pc; pc.RenameFirst? || pc.RenameSecond? || pc.CreateBackup?
    ensures Still(w, Advance(w, m, ch), n)
  {
    hide Go, Stop, Still;
    var p := w.procs[m];
    var x := p.pc.suffix;
    GoStill(w, w, m, n);
    GoStill(w, CreateObject(w, m + x, NewBinding(w, p.c.status.id, Some(m), p.c.externalName + x, Some(false))), m, n);
    if p.c.status.id.Some? && p.c.status.id.value in w.sm {
      GoStill(w, SmRenameFirst(w, p.c.status.id.value, p.c.externalName + x), m, n);
      GoStill(w, SmRenameSecond(w, p.c.status.id.value, m + x), m, n);
    }
  }

  /** A call of the reconcile of another resource. */
  lemma OtherCall(w: World, m: Name, ch: Choice, n: Name)
    requires m in w.procs && n != m
    ensures Still(w, Advance(w, m, ch), n)
  {
    hide Still, Advance;
    match w.procs[m].pc
    case FetchInstance | PollStatus | PollProbe | PollFetch | DeleteQuery | CheckExists | RotateList | ReadyCheck
       | FetchOriginal | Maintain | Query => ReadStill(w, m, ch, n);
    case InitConditions | DeleteSave | RotateSave | Save => StatusStill(w, m, ch, n);
    case PollStore | MaintainStore | RecoverStore(_, _) | BindStore(_) | PollDropSecret | DeleteDropSecret =>
      SecretStill(w, m, ch, n);
    case PollRemoveFinalizer | DeleteRemoveFinalizer | AddFinalizer | RotateAnnotation | DeleteSelf =>
      MetaStill(w, m, ch, n);
    case CleanupUnbind | DeleteUnbind | Bind => SmStill(w, m, ch, n);
    case RenameFirst(_) | RenameSecond(_) | CreateBackup(_) => BackupStill(w, m, ch, n);
  }

  lemma OthersEnd(w: World, a: Action, n: Name)
    requires !(a.Call? && a.n == n) && a != Start(n)
    ensures EndsOnly(w, Step(w, a), n, false)
  {
    if a.Call? {
      if a.n in w.procs {
        OtherCall(w, a.n, a.ch, n);
      }
    }
    hide Advance;
  }

  lemma GateNext(p: Policy, t: Timed, n: Name, e: Event)
    requires GateOk(p, t, n)
    ensures GateOk(p, Next(p, t, n, e), n)
  {
    if e.Acts? {
      if e.a.Call? && e.a.n == n {
        if n in t.w.procs {
          CallEnds(t.w, n, e.a.ch);
        }
        if Fails(t.w, n, e.a.ch) {
          assert (t.times + [t.now])[..|t.times|] == t.times;
        }
        hide Advance;
      } else if e.a != Start(n) {
        OthersEnd(t.w, e.a, n);
        hide Step;
      } else {
        hide Advance;
      }
    } else {
      hide Step;
    }
  }

  lemma {:induction false} GateHolds(p: Policy, t: Timed, n: Name, events: seq<Event>)
    requires GateOk(p, t, n)
    ensures GateOk(p, NextAll(p, t, n, events), n)
    decreases |events|
  {
    hide GateOk, Next;
    if events != [] {
      GateNext(p, t, n, events[0]);
      GateHolds(p, Next(p, t, n, events[0]), n, events[1..]);
    }
  }

  /**
   The gate works: whatever happens to this and other resources, a reconcile that comes to any call besides
   the cleanup after the last failure does so after the sum of the delays of all failures since the last
   success.
   */
  lemma BackoffRespected(p: Policy, t: Timed, n: Name, events: seq<Event>)
    requires n !in t.w.procs && t.retry.None? && t.times == []
    ensures var t1 := NextAll(p, t, n, events);
      Working(t1.w, n) && t1.times != [] && Exact(p.base, p.max, p.wrapped, |t1.times|) ==>
        t1.now - t1.times[0] >= TotalDelay(p.base, p.max, |t1.times|)
  {
    hide NextAll, Exact, TotalDelay;
    GateHolds(p, t, n, events);
    var t1 := NextAll(p, t, n, events);
    if Working(t1.w, n) && t1.times != [] && Exact(p.base, p.max, p.wrapped, |t1.times|) {
      NextAttemptWaits(p.base, p.max, p.wrapped, t1.times, t1.now);
    }
  }

  // ----- what counts

  /** The next call of the reconcile cleans up. */
  predicate Cleaning(w1: World, n: Name) {
    n in w1.procs && w1.procs[n].pc == CleanupUnbind
  }

  /** A creation stored, or a removal polled to its end: the reconcile is about to write its last status. */
  predicate Over(pc: Pc, w1: World, n: Name) {
    && n in w1.procs && w1.procs[n].pc == Save
    && (pc == PollRemoveFinalizer || ((pc == PollStore || pc.BindStore?) && w1.procs[n].c.status.succeeded == Some(true)))
  }

  lemma PollCounts(w: World, n: Name, ch: Choice)
    requires n in w.procs && w.procs[n].pc == PollStatus
    ensures Fails(w, n, ch) <==> Cleaning(AdvancePollStatus(w, n, w.procs[n], ch), n)
    ensures !Succeeds(w, n, ch) && !Over(w.procs[n].pc, AdvancePollStatus(w, n, w.procs[n], ch), n)
  {
    hide SmStatus;
  }

  lemma StoreCounts(w: World, n: Name, p: Proc, ch: Choice, b: Id, done: Status)
    requires done.succeeded == Some(true)
    ensures var w1 := AdvanceStore(w, n, p, ch, b, done);
      !Cleaning(w1, n) && n in w1.procs && w1.procs[n].pc == Save
      && (w1.procs[n].c.status.succeeded == Some(true) <==> ch.call == Ok)
  {
  }

  lemma RemovalCounts(w: World, n: Name, ch: Choice)
    requires n in w.procs && w.procs[n].pc == PollRemoveFinalizer
    ensures var w1 := AdvancePollRemoveFinalizer(w, n, w.procs[n], ch);
      !Cleaning(w1, n) && (Succeeds(w, n, ch) <==> Over(w.procs[n].pc, w1, n)) && !Fails(w, n, ch)
  {
    hide PutMeta;
  }

  lemma CreationUncounted(w: World, n: Name, ch: Choice)
    requires n in w.procs
    requires var pc := w.procs[n].pc;
      pc.CheckExists? || pc.ReadyCheck? || pc.FetchOriginal? || pc.Maintain? || pc.Query? || pc.Bind? || pc.AddFinalizer?
      || pc.MaintainStore? || pc.RecoverStore?
    ensures !Cleaning(Advance(w, n, ch), n)
  {
    hide PutMeta, SmBind, OnlyMatch, Resync;
  }

  lemma DeletionUncounted(w: World, n: Name, ch: Choice)
    requires n in w.procs
    requires var pc := w.procs[n].pc;
      pc.InitConditions? || pc.FetchInstance? || pc.PollProbe? || pc.PollFetch? || pc.PollDropSecret? || pc.CleanupUnbind?
      || pc.DeleteQuery? || pc.DeleteUnbind? || pc.DeleteSave? || pc.DeleteDropSecret? || pc.DeleteRemoveFinalizer?
      || pc.DeleteSelf? || pc.Save?
    ensures !Cleaning(Advance(w, n, ch), n)
  {
    hide PutMeta, SmUnbind, OnlyMatch, PutStatus, DeleteObject, DropSecret;
  }

  lemma RotationUncounted(w: World, n: Name, ch: Choice)
    requires n in w.procs
    requires var pc := w.procs[n].pc;
      pc.RotateAnnotation? || pc.RotateList? || pc.RenameFirst? || pc.RenameSecond? || pc.CreateBackup? || pc.RotateSave?
    ensures !Cleaning(Advance(w, n, ch), n)
  {
    hide PutMeta, PutStatus, HasBackup, SmRenameFirst, SmRenameSecond, CreateObject, NewBinding;
  }

  lemma OthersUncounted(w: World, n: Name, ch: Choice)
    requires n in w.procs
    requires var pc := w.procs[n].pc; pc != PollStatus && pc != PollStore && !pc.BindStore? && pc != PollRemoveFinalizer
    ensures !Cleaning(Advance(w, n, ch), n) && !Fails(w, n, ch) && !Succeeds(w, n, ch) && !Over(w.procs[n].pc, Advance(w, n, ch), n)
  {
    hide Advance;
    match w.procs[n].pc
    case CheckExists | ReadyCheck | FetchOriginal | Maintain | Query | Bind | AddFinalizer | MaintainStore
       | RecoverStore(_, _) => CreationUncounted(w, n, ch);
    case RotateAnnotation | RotateList | RenameFirst(_) | RenameSecond(_) | CreateBackup(_) | RotateSave =>
      RotationUncounted(w, n, ch);
    case _ => DeletionUncounted(w, n, ch);
  }

  lemma StoreCounted(w: World, n: Name, ch: Choice)
    requires n in w.procs && (w.procs[n].pc == PollStore || w.procs[n].pc.BindStore?)
    ensures var w1 := Advance(w, n, ch);
      !Cleaning(w1, n) && !Fails(w, n, ch) && (Succeeds(w, n, ch) <==> Over(w.procs[n].pc, w1, n))
  {
    var p := w.procs[n];
    hide AdvanceStore, Status.Success, Status.WithId, Status.NoOperation;
    SuccessReported(p.c.status);
    match p.pc
    case PollStore =>
      if p.c.status.id.Some? { StoreCounts(w, n, p, ch, p.c.status.id.value, p.c.status.NoOperation().Success()); }
    case BindStore(b) => SuccessReported(p.c.status.WithId(b)); StoreCounts(w, n, p, ch, b, p.c.status.WithId(b).Success());
    case _ =>
  }

  lemma SuccessReported(s: Status)
    ensures s.Success().succeeded == Some(true) && s.NoOperation().Success().succeeded == Some(true)
  {
  }

  lemma PollCounted(w: World, n: Name, ch: Choice)
    requires n in w.procs && w.procs[n].pc == PollStatus
    ensures Fails(w, n, ch) <==> Cleaning(Advance(w, n, ch), n)
    ensures !Succeeds(w, n, ch) && !Over(w.procs[n].pc, Advance(w, n, ch), n)
  {
    PollCounts(w, n, ch);
    AdvanceEnding(w, n, ch);
    hide Advance, AdvancePollStatus, Fails, Succeeds, Over, Cleaning;
  }

  lemma RemovalCounted(w: World, n: Name, ch: Choice)
    requires n in w.procs && w.procs[n].pc == PollRemoveFinalizer
    ensures !Cleaning(Advance(w, n, ch), n) && !Fails(w, n, ch)
    ensures Succeeds(w, n, ch) <==> Over(w.procs[n].pc, Advance(w, n, ch), n)
  {
    RemovalCounts(w, n, ch);
    hide AdvancePollRemoveFinalizer, Fails, Succeeds, Over, Cleaning;
  }

  /** The calls that can count. */
  lemma CountedCalls(w: World, n: Name, ch: Choice)
    requires n in w.procs
    ensures Fails(w, n, ch) <==> Cleaning(Advance(w, n, ch), n)
    ensures Succeeds(w, n, ch) <==> Over(w.procs[n].pc, Advance(w, n, ch), n)
  {
    hide Advance, Fails, Succeeds, Over, Cleaning;
    match w.procs[n].pc
    case PollStatus => PollCounted(w, n, ch);
    case PollStore => StoreCounted(w, n, ch);
    case BindStore(b) => StoreCounted(w, n, ch);
    case PollRemoveFinalizer => RemovalCounted(w, n, ch);
    case _ => OthersUncounted(w, n, ch);
  }

  /**
   A call is counted as a failure exactly when the reconcile goes on to clean up, and the failures are forgotten
   exactly when a creation is stored or a removal has been polled to its end; no other call touches the entry.
   */
  lemma RetriesExact(p: Policy, t: Timed, n: Name, ch: Choice)
    requires n in t.w.procs
    ensures var w1, t1 := Advance(t.w, n, ch), Next(p, t, n, Acts(Call(n, ch)));
      var attempts := if t.retry.Some? then t.retry.value.attempts else 0;
      if Cleaning(w1, n) then
        && t1.times == t.times + [t.now] && t1.retry.Some? && t1.retry.value.attempts == attempts + 1
        && t1.retry.value.nextRetry == t.now + Backoff(p.base, p.max, p.wrapped, attempts + 1)
      else if Over(t.w.procs[n].pc, w1, n) then t1.times == [] && t1.retry.None?
      else t1.times == t.times && t1.retry == t.retry
  {
    hide Advance, Cleaning, Over, Fails, Succeeds, Backoff;
    CountedCalls(t.w, n, ch);
  }
}
