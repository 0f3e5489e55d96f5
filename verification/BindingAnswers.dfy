/**
 Reconciles of a binding in which one call is answered in its own way: what an observed generation, a due
 rotation, a resumed rotation, a retirement and a failed call leave in the two stores.
 */
module BindingAnswers {
  import opened Options
  import opened Remote
  import opened BindingWorld
  import opened BindingReconciler
  import opened BindingInvariant
  import opened BindingProgress
  import opened BindingEnds
  import opened BindingLater
  import opened BindingPasses

  /** The call at `at` is answered by `own`, every other by `ch`. */
  ghost function DrainBut(w: World, n: Name, ch: Choice, at: Pc, own: Choice, fuel: nat): World
    decreases fuel
  {
    if n !in w.procs || fuel == 0 then w
    else DrainBut(Advance(w, n, if w.procs[n].pc == at then own else ch), n, ch, at, own, fuel - 1)
  }

  ghost function PassBut(w: World, n: Name, ch: Choice, at: Pc, own: Choice): World
    requires n in w.bindings && n !in w.procs
  {
    DrainBut(Begin(w, n), n, ch, at, own, 14)
  }

  lemma StepBut(w: World, n: Name, c: Binding, base: Status, pc: Pc, ch: Choice, at: Pc, own: Choice, fuel: nat)
    requires fuel > 0
    ensures DrainBut(Go(w, n, c, base, pc), n, ch, at, own, fuel) ==
            DrainBut(Advance(Go(w, n, c, base, pc), n, if pc == at then own else ch), n, ch, at, own, fuel - 1)
  {
    hide Advance;
  }

  /** One call. */
  lemma CallsBut(w: World, n: Name, c: Binding, base: Status, pc: Pc, w1: World, c1: Binding, base1: Status, pc1: Pc,
                 ch: Choice, at: Pc, own: Choice, fuel: nat)
    requires fuel > 0
    requires Advance(Go(w, n, c, base, pc), n, if pc == at then own else ch) == Go(w1, n, c1, base1, pc1)
    ensures DrainBut(Go(w, n, c, base, pc), n, ch, at, own, fuel) == DrainBut(Go(w1, n, c1, base1, pc1), n, ch, at, own, fuel - 1)
  {
    hide Advance, DrainBut, Go;
    StepBut(w, n, c, base, pc, ch, at, own, fuel);
  }

  lemma StopsBut(w: World, n: Name, c: Binding, base: Status, pc: Pc, w1: World, ch: Choice, at: Pc, own: Choice, fuel: nat)
    requires fuel > 0 && n !in w1.procs && Advance(Go(w, n, c, base, pc), n, if pc == at then own else ch) == w1
    ensures DrainBut(Go(w, n, c, base, pc), n, ch, at, own, fuel) == w1
  {
    hide Advance, Go;
    StepBut(w, n, c, base, pc, ch, at, own, fuel);
  }

  lemma SavesBut(w: World, n: Name, c: Binding, base: Status, ch: Choice, at: Pc, own: Choice, fuel: nat)
    requires Calm(ch) && at != Save && fuel > 0 && n in w.bindings && n !in w.procs && w.bindings[n].rv == c.rv
    ensures DrainBut(Go(w, n, c, base, Save), n, ch, at, own, fuel) == PutStatus(w, n, c.status)
  {
    SaveCall(w, n, c, base, ch, 1);
    var w0 := Go(w, n, c, base, Save);
    assert Drain(w0, n, ch, 1) == Drain(Advance(w0, n, ch), n, ch, 0) == Advance(w0, n, ch) by { hide Advance; }
    hide Advance, Drain;
    StopsBut(w, n, c, base, Save, PutStatus(w, n, c.status), ch, at, own, fuel);
  }

  // ----- a ready resource

  /** A ready resource that holds `b`, with nothing under way. */
  predicate Fit(w: World, n: Name, b: Id) {
    && Unmarked(w, n) && b in w.sm && w.bindings[n].finalizer
    && var s := w.bindings[n].status;
    && s.id == Some(b) && s.opUrl.None? && s.rotation == NotRotating && s.readyCond == Some(true)
  }

  lemma ToReady(w: World, n: Name, b: Id, ch: Choice, at: Pc, own: Choice)
    requires Fit(w, n, b) && Calm(ch) && at != FetchInstance && at != CheckExists && at != AddFinalizer
    ensures var o := w.bindings[n];
      PassBut(w, n, ch, at, own) == DrainBut(Go(w, n, o, o.status, ReadyCheck), n, ch, at, own, 11)
  {
    var o := w.bindings[n];
    assert Begin(w, n) == Go(w, n, o, o.status, FetchInstance);
    hide DrainBut, Advance, Go, Begin;
    FetchCall(w, n, o, ch);
    CallsBut(w, n, o, o.status, FetchInstance, w, o, o.status, CheckExists, ch, at, own, 14);
    CheckCall(w, n, o, ch);
    CallsBut(w, n, o, o.status, CheckExists, w, o, o.status, AddFinalizer, ch, at, own, 13);
    FinalizerCall(w, n, o, ch);
    CallsBut(w, n, o, o.status, AddFinalizer, w, o, o.status, ReadyCheck, ch, at, own, 12);
  }

  // ----- an observed generation

  /** Nothing to rotate and nothing to retire. */
  predicate Steady(w: World, n: Name, b: Id, ch: Choice) {
    && Fit(w, n, b) && (w.bindings[n].stale.Some? && w.bindings[n].policy.Some? ==> !ch.due)
    && (w.bindings[n].forceRotate ==> w.bindings[n].policy != Some(true) || w.bindings[n].status.succeeded == Some(false))
  }

  lemma MaintainsCall(w: World, n: Name, b: Id, ch: Choice)
    requires Steady(w, n, b, ch) && Calm(ch)
    ensures var o := w.bindings[n];
      Advance(Go(w, n, o, o.status, ReadyCheck), n, ch) == Go(w, n, o, o.status, Maintain)
  {
    var o := w.bindings[n];
    GoGo(w, n, o, o.status, ReadyCheck, o, o.status, Maintain);
  }

  lemma ObservedCall(w: World, n: Name, c: Binding, b: Id, ch: Choice)
    requires Calm(ch) && n !in w.procs && c.status.id == Some(b) && b in w.sm && w.sm[b].provisioning == Done
    ensures Advance(Go(w, n, c, c.status, Maintain), n, ch.(flag := true)) ==
            if n in w.secrets then w else Go(w, n, c, c.status, MaintainStore)
  {
    assert w.procs[n := Proc(c, c.status, Maintain)] - {n} == w.procs;
    GoGo(w, n, c, c.status, Maintain, c, c.status, MaintainStore);
  }

  lemma RestoreCall(w: World, n: Name, c: Binding, b: Id, ch: Choice)
    requires Calm(ch) && c.status.id == Some(b)
    ensures Advance(Go(w, n, c, c.status, MaintainStore), n, ch) ==
            Go(StoreSecret(w, n, b), n, c.(status := c.status.Success()), c.status, Save)
  {
    GoGo(StoreSecret(w, n, b), n, c, c.status, MaintainStore, c.(status := c.status.Success()), c.status, Save);
  }

  /** The secret shows `b`, and the resource reports success. */
  predicate Restored(w: World, w1: World, n: Name, b: Id) {
    && n in w.bindings
    && Written(w, w1, n, w.bindings[n].finalizer, w.bindings[n].status.(ready := true, succeeded := Some(true), readyCond := Some(true)))
    && w1.secrets == w.secrets[n := b] && w1.sm == w.sm && w1.nextId == w.nextId
  }

  lemma RestoredIs(w: World, n: Name, b: Id)
    requires Unmarked(w, n)
    ensures var w1 := StoreSecret(w, n, b);
      && n in w1.bindings && w1.bindings[n] == w.bindings[n] && n !in w1.procs
      && Restored(w, PutStatus(w1, n, w.bindings[n].status.Success()), n, b)
  {
  }

  /**
   Maintenance of an observed generation does nothing as long as the secret is there; if it is missing, the
   secret is written again from what SM holds.
   */
  lemma MissingSecretRestored(w: World, n: Name, b: Id, ch: Choice)
    requires Steady(w, n, b, ch) && w.sm[b].provisioning == Done && Calm(ch)
    ensures var w1 := PassBut(w, n, ch, Maintain, ch.(flag := true));
      if n in w.secrets then w1 == w else Restored(w, w1, n, b)
  {
    var o := w.bindings[n];
    var own := ch.(flag := true);
    var s := o.status.Success();
    var w1 := StoreSecret(w, n, b);
    hide DrainBut, PassBut, Advance, Go, Begin, Restored, StoreSecret, PutStatus;
    ToReady(w, n, b, ch, Maintain, own);
    MaintainsCall(w, n, b, ch);
    CallsBut(w, n, o, o.status, ReadyCheck, w, o, o.status, Maintain, ch, Maintain, own, 11);
    ObservedCall(w, n, o, b, ch);
    if n in w.secrets {
      StopsBut(w, n, o, o.status, Maintain, w, ch, Maintain, own, 10);
    } else {
      CallsBut(w, n, o, o.status, Maintain, w, o, o.status, MaintainStore, ch, Maintain, own, 10);
      RestoreCall(w, n, o, b, ch);
      RestoredIs(w, n, b);
      CallsBut(w, n, o, o.status, MaintainStore, w1, o.(status := s), o.status, Save, ch, Maintain, own, 9);
      SavesBut(w1, n, o.(status := s), o.status, ch, Maintain, own, 8);
    }
  }

  /** Maintenance of a generation not yet observed writes the secret whether it is there or not. */
  lemma SecretRefreshed(w: World, n: Name, b: Id, ch: Choice)
    requires Steady(w, n, b, ch) && w.sm[b].provisioning == Done && Calm(ch)
    ensures Restored(w, Pass(w, n, ch), n, b)
  {
    var o := w.bindings[n];
    var s := o.status.Success();
    var w1 := StoreSecret(w, n, b);
    assert Begin(w, n) == Go(w, n, o, o.status, FetchInstance);
    hide Drain, Advance, Go, Begin, Restored, StoreSecret, PutStatus;
    FetchCall(w, n, o, ch);
    Calls(w, n, o, o.status, FetchInstance, w, o, o.status, CheckExists, ch, 14);
    CheckCall(w, n, o, ch);
    Calls(w, n, o, o.status, CheckExists, w, o, o.status, AddFinalizer, ch, 13);
    FinalizerCall(w, n, o, ch);
    Calls(w, n, o, o.status, AddFinalizer, w, o, o.status, ReadyCheck, ch, 12);
    MaintainsCall(w, n, b, ch);
    Calls(w, n, o, o.status, ReadyCheck, w, o, o.status, Maintain, ch, 11);
    MaintainedCall(w, n, o, b, ch);
    Calls(w, n, o, o.status, Maintain, w, o, o.status, MaintainStore, ch, 10);
    RestoreCall(w, n, o, b, ch);
    RestoredIs(w, n, b);
    Calls(w, n, o, o.status, MaintainStore, w1, o.(status := s), o.status, Save, ch, 9);
    SaveCall(w1, n, o.(status := s), o.status, ch, 8);
  }

  // ----- a rotation begins

  lemma DueCall(w: World, n: Name, c: Binding, ch: Choice)
    requires ch.call == Ok && c.status.readyCond == Some(true) && (c.stale.None? || c.policy.None? || !ch.due)
    ensures Advance(Go(w, n, c, c.status, ReadyCheck), n, ch) ==
            if c.status.succeeded != Some(false) && c.policy == Some(true) && (ch.flag || c.forceRotate)
            then Go(w, n, c.(status := c.status.(rotation := Preparing)), c.status, Save)
            else Go(w, n, c, c.status, Maintain)
  {
    GoGo(w, n, c, c.status, ReadyCheck, c.(status := c.status.(rotation := Preparing)), c.status, Save);
    GoGo(w, n, c, c.status, ReadyCheck, c, c.status, Maintain);
  }

  /**
   A ready resource with rotation switched on prepares to rotate when the time has come or the annotation asks for
   it, and only records that; the annotation stays until the rotation takes it off.
   */
  lemma RotationPrepared(w: World, n: Name, b: Id, ch: Choice, time: bool)
    requires Fit(w, n, b) && Calm(ch) && w.bindings[n].stale.None? && w.bindings[n].policy == Some(true)
    requires w.bindings[n].status.succeeded != Some(false) && (time || w.bindings[n].forceRotate)
    ensures OnlyWritten(w, PassBut(w, n, ch, ReadyCheck, ch.(flag := time)), n, true, w.bindings[n].status.(rotation := Preparing))
  {
    var o := w.bindings[n];
    var own := ch.(flag := time);
    var s := o.status.(rotation := Preparing);
    hide DrainBut, PassBut, Advance, Go, Begin;
    ToReady(w, n, b, ch, ReadyCheck, own);
    DueCall(w, n, o, own);
    CallsBut(w, n, o, o.status, ReadyCheck, w, o.(status := s), o.status, Save, ch, ReadyCheck, own, 11);
    SavesBut(w, n, o.(status := s), o.status, ch, ReadyCheck, own, 10);
  }

  // ----- a rotation goes on

  /** A resource about to rotate a binding that a backup already stands for. */
  ghost predicate Resuming(w: World, n: Name, b: Id) {
    && Unmarked(w, n) && b in w.sm && Nameless(w.sm, n) && HasBackup(w.bindings, b)
    && var o := w.bindings[n];
    && o.finalizer && o.status.id == Some(b) && o.status.opUrl.None? && o.status.rotation == Preparing
  }

  lemma ListedCall(w: World, n: Name, c: Binding, b: Id, ch: Choice)
    requires Calm(ch) && c.status.id == Some(b) && HasBackup(w.bindings, b)
    ensures Advance(Go(w, n, c, c.status, RotateList), n, ch) == Go(w, n, c.(status := c.status.Rotated()), c.status, RotateSave)
  {
    hide HasBackup;
    GoGo(w, n, c, c.status, RotateList, c.(status := c.status.Rotated()), c.status, RotateSave);
  }

  /** The world once the old id is given up. */
  function GivenUp(w: World, n: Name): World
    requires n in w.bindings
  {
    w.(bindings := w.bindings[n := w.bindings[n].(status := w.bindings[n].status.Rotated(), rv := w.clock)], clock := w.clock + 1)
  }

  lemma AnnotationStays(w: World, n: Name, b: Id)
    requires Resuming(w, n, b)
    ensures var w1 := Unannotated(w, n);
      && n in w1.bindings && HasBackup(w1.bindings, b) && w1.sm == w.sm && w1.procs == w.procs && w1.secrets == w.secrets
      && w1.nextId == w.nextId
      && w1.bindings == w.bindings[n := w.bindings[n].(forceRotate := false, rv := w1.bindings[n].rv)]
      && GivenUp(w1, n) == PutStatus(w1, n, w1.bindings[n].status.Rotated())
  {
    var m :| m in w.bindings && w.bindings[m].stale == Some(b);
    var w1 := Unannotated(w, n);
    assert m in w1.bindings && w1.bindings[m].stale == Some(b);
    assert w.bindings == w.bindings[n := w.bindings[n]];
  }

  lemma ToGivenUp(w: World, n: Name, b: Id, ch: Choice)
    requires Resuming(w, n, b) && Calm(ch)
    ensures n in Unannotated(w, n).bindings
    ensures var w2 := GivenUp(Unannotated(w, n), n);
      && n in w2.bindings
      && Pass(w, n, ch) == Drain(Go(w2, n, w2.bindings[n], w2.bindings[n].status, ReadyCheck), n, ch, 8)
  {
    var o := w.bindings[n];
    assert Begin(w, n) == Go(w, n, o, o.status, FetchInstance);
    AnnotationStays(w, n, b);
    var w1 := Unannotated(w, n);
    var c := w1.bindings[n];
    var s := c.status.Rotated();
    var w2 := GivenUp(w1, n);
    hide Drain, Advance, Go, Begin, HasBackup, Unannotated, GivenUp, Named, Status.Rotated, PutStatus;
    FetchCall(w, n, o, ch);
    Calls(w, n, o, o.status, FetchInstance, w, o, o.status, CheckExists, ch, 14);
    CheckCall(w, n, o, ch);
    Calls(w, n, o, o.status, CheckExists, w, o, o.status, AddFinalizer, ch, 13);
    FinalizerCall(w, n, o, ch);
    Calls(w, n, o, o.status, AddFinalizer, w, o, o.status, RotateAnnotation, ch, 12);
    AnnotationCall(w, n, o, ch.suffix, ch);
    Calls(w, n, o, o.status, RotateAnnotation, w1, c, c.status, RotateList, ch, 11);
    ListedCall(w1, n, c, b, ch);
    Calls(w1, n, c, c.status, RotateList, w1, c.(status := s), c.status, RotateSave, ch, 10);
    DropCall(w1, n, c.(status := s), c.status, ch);
    assert w2.bindings[n] == PutStatus(w1, n, s).bindings[n];
    Calls(w1, n, c.(status := s), c.status, RotateSave, w2, w2.bindings[n], s, ReadyCheck, ch, 9);
    assert w2.bindings[n].status == s by { GivenUpStatus(w1, n); }
  }

  lemma GivenUpStatus(w: World, n: Name)
    requires n in w.bindings
    ensures n in GivenUp(w, n).bindings && GivenUp(w, n).bindings[n].status == w.bindings[n].status.Rotated()
  {
  }

  /** The annotation is gone, no backup made, and a new binding asked for; nothing else has changed. */
  predicate Renewed(w: World, w1: World, n: Name, async: bool, rotation: Rotation) {
    && n in w.bindings && n in w1.bindings && var s1 := w1.bindings[n].status;
    && w1.bindings == w.bindings[n := w.bindings[n].(forceRotate := false, status := s1, rv := w1.bindings[n].rv)]
    && w1.procs == w.procs && w1.nextId == w.nextId + 1
    && w1.sm == w.sm[w.nextId := SmBinding(w.bindings[n].externalName, Some(n), if async then Pending else Done, NotAsked, n)]
    && w1.secrets == (if async then w.secrets else w.secrets[n := w.nextId])
    && s1.id == Some(w.nextId) && s1.rotation == rotation && s1.ready == !async
    && s1.succeeded == Some(!async) && s1.readyCond == Some(!async)
    && (if async then Records(s1, Create, w.nextId) else s1.opUrl.None?)
  }

  lemma RenewedIs(w: World, n: Name, b: Id, async: bool)
    requires Resuming(w, n, b)
    ensures n in Unannotated(w, n).bindings
    ensures var w2 := GivenUp(Unannotated(w, n), n);
      && n in w2.bindings && n !in w2.procs && w2.sm == w.sm
      && var c := w2.bindings[n];
      && c.status.readyCond == Some(false) && c.status.id.None?
      && Renewed(w, if async
                    then PutStatus(SmBind(w2, n, c.externalName, true), n, c.status.WithId(w2.nextId).Running(Create, w2.nextId).Unsucceeded())
                    else PutStatus(StoreSecret(SmBind(w2, n, c.externalName, false), n, w2.nextId), n, c.status.WithId(w2.nextId).Success()),
                 n, async, Rotating)
  {
    AnnotationStays(w, n, b);
    hide Unannotated, HasBackup, Named;
  }

  lemma ToBindIn(w: World, n: Name, ch: Choice, c: Binding, fuel: nat)
    requires Calm(ch) && fuel >= 2 && c.status.readyCond == Some(false) && c.status.id.None? && Nameless(w.sm, n)
    ensures Drain(Go(w, n, c, c.status, ReadyCheck), n, ch, fuel) == Drain(Go(w, n, c, c.status, Bind), n, ch, fuel - 2)
  {
    hide Drain, Advance, Go;
    ReadyCall(w, n, c, ch);
    Calls(w, n, c, c.status, ReadyCheck, w, c, c.status, Query, ch, fuel);
    QueryCall(w, n, c, ch);
    Calls(w, n, c, c.status, Query, w, c, c.status, Bind, ch, fuel - 1);
  }

  lemma ToBound(w: World, n: Name, ch: Choice, c: Binding, fuel: nat)
    requires Calm(ch) && fuel >= 3 && n in w.bindings && n !in w.procs && c == w.bindings[n]
    ensures Drain(Go(w, n, c, c.status, Bind), n, ch, fuel) ==
            if ch.async
            then PutStatus(SmBind(w, n, c.externalName, true), n, c.status.WithId(w.nextId).Running(Create, w.nextId).Unsucceeded())
            else PutStatus(StoreSecret(SmBind(w, n, c.externalName, false), n, w.nextId), n, c.status.WithId(w.nextId).Success())
  {
    var b := w.nextId;
    var w1 := SmBind(w, n, c.externalName, ch.async);
    assert w1.bindings == w.bindings && w1.procs == w.procs;
    var w2 := StoreSecret(w1, n, b);
    assert w2.bindings == w.bindings && w2.procs == w.procs;
    hide Drain, Advance, Go, PutStatus, SmBind, StoreSecret, Status.WithId, Status.Running, Status.Unsucceeded, Status.Success;
    if ch.async {
      var s := c.status.WithId(b).Running(Create, b).Unsucceeded();
      BindLaterCall(w, n, c, ch);
      Calls(w, n, c, c.status, Bind, w1, c.(status := s), c.status, Save, ch, fuel);
      SaveCall(w1, n, c.(status := s), c.status, ch, fuel - 1);
    } else {
      var s := c.status.WithId(b).Success();
      BindCall(w, n, c, ch);
      Calls(w, n, c, c.status, Bind, w1, c, c.status, BindStore(b), ch, fuel);
      StoreCall(w1, n, c, b, ch);
      Calls(w1, n, c, c.status, BindStore(b), w2, c.(status := s), c.status, Save, ch, fuel - 1);
      SaveCall(w2, n, c.(status := s), c.status, ch, fuel - 2);
    }
  }

  /** A rotation that finds its backup goes on from there: the id is given up without a second backup. */
  lemma RotationResumes(w: World, n: Name, b: Id, ch: Choice)
    requires Resuming(w, n, b) && Calm(ch)
    ensures Renewed(w, Pass(w, n, ch), n, ch.async, Rotating)
  {
    hide Drain, Pass, Go, GivenUp, Unannotated, Renewed, PutStatus, SmBind, StoreSecret, HasBackup, Named, Status.WithId,
         Status.Running, Status.Unsucceeded, Status.Success;
    ToGivenUp(w, n, b, ch);
    RenewedIs(w, n, b, ch.async);
    var w2 := GivenUp(Unannotated(w, n), n);
    assert Nameless(w2.sm, n);
    hide Resuming, Nameless;
    ToBindIn(w2, n, ch, w2.bindings[n], 8);
    ToBound(w2, n, ch, w2.bindings[n], 6);
  }

  // ----- a rotation without a binding

  /** A resource about to rotate that has no binding. */
  ghost predicate Pointless(w: World, n: Name) {
    && Unmarked(w, n) && Nameless(w.sm, n)
    && var o := w.bindings[n];
    && o.finalizer && o.status.id.None? && o.status.opUrl.None? && o.status.rotation == Preparing
    && !o.status.ready && o.status.readyCond == Some(false)
  }

  lemma PointlessCall(w: World, n: Name, c: Binding, ch: Choice)
    requires Calm(ch) && n in w.bindings && c == w.bindings[n] && c.finalizer && !c.deleting && c.status.id.None?
    requires c.status.rotation == Preparing
    ensures var w1 := Unannotated(w, n);
      n in w1.bindings &&
      Advance(Go(w, n, c, c.status, RotateAnnotation), n, ch) ==
        Go(w1, n, w1.bindings[n].(status := c.status.(rotation := NotRotating)), c.status, RotateSave)
  {
    var w1 := Unannotated(w, n);
    GoGo(w1, n, c, c.status, RotateAnnotation, w1.bindings[n].(status := c.status.(rotation := NotRotating)), c.status, RotateSave);
  }

  /** The world once the condition is dropped. */
  function Undone(w: World, n: Name): World
    requires n in w.bindings
  {
    w.(bindings := w.bindings[n := w.bindings[n].(status := w.bindings[n].status.(rotation := NotRotating), rv := w.clock)],
       clock := w.clock + 1)
  }

  lemma UndoneFacts(w: World, n: Name)
    requires Pointless(w, n)
    ensures n in Unannotated(w, n).bindings
    ensures var w1 := Unannotated(w, n);
      var w2 := Undone(w1, n);
      && n in w2.bindings && n !in w2.procs && Nameless(w2.sm, n)
      && var c := w2.bindings[n];
      && w1.bindings[n].status == w.bindings[n].status && !w1.bindings[n].deleting
      && c.status == w.bindings[n].status.(rotation := NotRotating)
      && w2 == PutStatus(w1, n, c.status) && c.status.readyCond == Some(false) && c.status.id.None?
  {
    hide Named;
  }

  lemma AbandonedIs(w: World, n: Name, async: bool)
    requires Pointless(w, n)
    ensures n in Unannotated(w, n).bindings
    ensures var w2 := Undone(Unannotated(w, n), n);
      && n in w2.bindings
      && var c := w2.bindings[n];
      && Renewed(w, if async
                    then PutStatus(SmBind(w2, n, c.externalName, true), n, c.status.WithId(w2.nextId).Running(Create, w2.nextId).Unsucceeded())
                    else PutStatus(StoreSecret(SmBind(w2, n, c.externalName, false), n, w2.nextId), n, c.status.WithId(w2.nextId).Success()),
                 n, async, NotRotating)
  {
    UnannotatedFacts(w, n);
    hide Named, Unannotated;
  }

  lemma UnannotatedFacts(w: World, n: Name)
    requires Unmarked(w, n) && w.bindings[n].finalizer
    ensures var w1 := Unannotated(w, n);
      && n in w1.bindings && w1.sm == w.sm && w1.procs == w.procs && w1.secrets == w.secrets && w1.nextId == w.nextId
      && w1.bindings == w.bindings[n := w.bindings[n].(forceRotate := false, rv := w1.bindings[n].rv)]
  {
    assert w.bindings == w.bindings[n := w.bindings[n]];
  }

  lemma ToUndone(w: World, n: Name, ch: Choice)
    requires Pointless(w, n) && Calm(ch)
    ensures n in Unannotated(w, n).bindings
    ensures var w2 := Undone(Unannotated(w, n), n);
      && n in w2.bindings
      && Pass(w, n, ch) == Drain(Go(w2, n, w2.bindings[n], w2.bindings[n].status, ReadyCheck), n, ch, 10)
  {
    var o := w.bindings[n];
    assert Begin(w, n) == Go(w, n, o, o.status, FetchInstance);
    UndoneFacts(w, n);
    var w1 := Unannotated(w, n);
    var s := o.status.(rotation := NotRotating);
    var c := w1.bindings[n].(status := s);
    var w2 := Undone(w1, n);
    hide Drain, Advance, Go, Begin, Unannotated, Undone, Named, PutStatus;
    FirstFetchCall(w, n, o, ch);
    Calls(w, n, o, o.status, FetchInstance, w, o, o.status, AddFinalizer, ch, 14);
    FinalizerCall(w, n, o, ch);
    Calls(w, n, o, o.status, AddFinalizer, w, o, o.status, RotateAnnotation, ch, 13);
    PointlessCall(w, n, o, ch);
    Calls(w, n, o, o.status, RotateAnnotation, w1, c, o.status, RotateSave, ch, 12);
    DropCall(w1, n, c, o.status, ch);
    Calls(w1, n, c, o.status, RotateSave, w2, w2.bindings[n], s, ReadyCheck, ch, 11);
  }

  /** A rotation without a binding to rotate is given up, and a binding created instead. */
  lemma RotationAbandoned(w: World, n: Name, ch: Choice)
    requires Pointless(w, n) && Calm(ch)
    ensures Renewed(w, Pass(w, n, ch), n, ch.async, NotRotating)
  {
    hide Drain, Pass, Go, Undone, Unannotated, Renewed, PutStatus, SmBind, StoreSecret, Named, Status.WithId, Status.Running,
         Status.Unsucceeded, Status.Success;
    ToUndone(w, n, ch);
    UndoneFacts(w, n);
    AbandonedIs(w, n, ch.async);
    hide Pointless, Nameless;
    var w2 := Undone(Unannotated(w, n), n);
    ToBindIn(w2, n, ch, w2.bindings[n], 10);
    ToBound(w2, n, ch, w2.bindings[n], 8);
  }

  /** Without a rotation policy no backup can be made: the reconcile ends, whatever the API server would answer. */
  lemma PolicylessStops(w: World, n: Name, ch: Choice)
    requires n in w.procs && w.procs[n].pc.CreateBackup? && w.procs[n].c.policy.None?
    ensures Advance(w, n, ch) == w.(procs := w.procs - {n})
  {
  }

  // ----- a rotation under way

  /** A resource in rotation without its new binding. */
  ghost predicate Deprived(w: World, n: Name) {
    && Unmarked(w, n) && Nameless(w.sm, n)
    && var o := w.bindings[n];
    && o.finalizer && o.status.id.None? && o.status.opUrl.None? && o.status.rotation == Rotating
    && !o.status.ready && o.status.readyCond == Some(false)
  }

  lemma WaitingCall(w: World, n: Name, c: Binding, ch: Choice)
    requires Calm(ch) && n in w.bindings && c == w.bindings[n] && c.finalizer && !c.deleting && c.status.rotation == Rotating
    requires c.status.id.None? || !c.status.ready
    ensures var w1 := Unannotated(w, n);
      n in w1.bindings &&
      Advance(Go(w, n, c, c.status, RotateAnnotation), n, ch) == Go(w1, n, w1.bindings[n], c.status, ReadyCheck)
  {
    var w1 := Unannotated(w, n);
    GoGo(w1, n, c, c.status, RotateAnnotation, w1.bindings[n], c.status, ReadyCheck);
  }

  lemma DeprivedFacts(w: World, n: Name)
    requires Deprived(w, n)
    ensures var w1 := Unannotated(w, n);
      && n in w1.bindings && n !in w1.procs && Nameless(w1.sm, n)
      && w1.bindings[n].status == w.bindings[n].status && w1.bindings[n].status.readyCond == Some(false) && w1.bindings[n].status.id.None?
  {
    UnannotatedFacts(w, n);
    hide Named, Unannotated;
  }

  lemma GoesOnIs(w: World, n: Name, async: bool)
    requires Deprived(w, n)
    ensures var w2 := Unannotated(w, n);
      && n in w2.bindings
      && var c := w2.bindings[n];
      && Renewed(w, if async
                    then PutStatus(SmBind(w2, n, c.externalName, true), n, c.status.WithId(w2.nextId).Running(Create, w2.nextId).Unsucceeded())
                    else PutStatus(StoreSecret(SmBind(w2, n, c.externalName, false), n, w2.nextId), n, c.status.WithId(w2.nextId).Success()),
                 n, async, Rotating)
  {
    UnannotatedFacts(w, n);
    hide Named, Unannotated;
  }

  lemma ToDeprived(w: World, n: Name, ch: Choice)
    requires Deprived(w, n) && Calm(ch)
    ensures var w1 := Unannotated(w, n);
      && n in w1.bindings
      && Pass(w, n, ch) == Drain(Go(w1, n, w1.bindings[n], w1.bindings[n].status, ReadyCheck), n, ch, 11)
  {
    var o := w.bindings[n];
    assert Begin(w, n) == Go(w, n, o, o.status, FetchInstance);
    DeprivedFacts(w, n);
    var w1 := Unannotated(w, n);
    hide Drain, Advance, Go, Begin, Unannotated, Named;
    FirstFetchCall(w, n, o, ch);
    Calls(w, n, o, o.status, FetchInstance, w, o, o.status, AddFinalizer, ch, 14);
    FinalizerCall(w, n, o, ch);
    Calls(w, n, o, o.status, AddFinalizer, w, o, o.status, RotateAnnotation, ch, 13);
    WaitingCall(w, n, o, ch);
    Calls(w, n, o, o.status, RotateAnnotation, w1, w1.bindings[n], o.status, ReadyCheck, ch, 12);
  }

  /** A rotation that lost its new binding asks for another. */
  lemma RotationGoesOn(w: World, n: Name, ch: Choice)
    requires Deprived(w, n) && Calm(ch)
    ensures Renewed(w, Pass(w, n, ch), n, ch.async, Rotating)
  {
    hide Drain, Pass, Go, Unannotated, Renewed, PutStatus, SmBind, StoreSecret, Named, Status.WithId, Status.Running,
         Status.Unsucceeded, Status.Success;
    ToDeprived(w, n, ch);
    DeprivedFacts(w, n);
    GoesOnIs(w, n, ch.async);
    hide Deprived, Nameless;
    var w1 := Unannotated(w, n);
    ToBindIn(w1, n, ch, w1.bindings[n], 11);
    ToBound(w1, n, ch, w1.bindings[n], 9);
  }

  // ----- what SM does not show

  lemma ForeignCall(w: World, n: Name, c: Binding, own: Choice)
    requires own.flag && c.status.id.Some?
    ensures Advance(Go(w, n, c, c.status, CheckExists), n, own) == Go(w, n, c.(status := c.status.Lost()), c.status, Save)
  {
    GoGo(w, n, c, c.status, CheckExists, c.(status := c.status.Lost()), c.status, Save);
  }

  /** A binding that SM no longer shows for the instance is given up for lost, even if SM holds it. */
  lemma ForeignReported(w: World, n: Name, b: Id, ch: Choice)
    requires Holding(w, n, b) && Calm(ch)
    ensures var s := w.bindings[n].status;
      OnlyWritten(w, PassBut(w, n, ch, CheckExists, ch.(flag := true)), n, w.bindings[n].finalizer,
        Status(s.id, s.opUrl, s.opType, false, None, Some(false), NotRotating, false))
  {
    var o := w.bindings[n];
    var s := o.status.Lost();
    var own := ch.(flag := true);
    assert Begin(w, n) == Go(w, n, o, o.status, FetchInstance);
    hide DrainBut, Advance, Go, Begin;
    FetchCall(w, n, o, ch);
    CallsBut(w, n, o, o.status, FetchInstance, w, o, o.status, CheckExists, ch, CheckExists, own, 14);
    ForeignCall(w, n, o, own);
    CallsBut(w, n, o, o.status, CheckExists, w, o.(status := s), o.status, Save, ch, CheckExists, own, 13);
    SavesBut(w, n, o.(status := s), o.status, ch, CheckExists, own, 12);
  }

  lemma UnshownCall(w: World, n: Name, c: Binding, b: Id, ch: Choice)
    requires Calm(ch) && c.status.id == Some(b) && b in w.sm && w.sm[b].provisioning != Done
    ensures Advance(Go(w, n, c, c.status, Maintain), n, ch) == Go(w, n, c, c.status, Save)
  {
    GoGo(w, n, c, c.status, Maintain, c, c.status, Save);
  }

  /** Maintenance of a binding for which SM shows no credentials leaves the secret alone and writes the status as it is. */
  lemma UnshownKept(w: World, n: Name, b: Id, ch: Choice)
    requires Steady(w, n, b, ch) && w.sm[b].provisioning != Done && Calm(ch)
    ensures Pass(w, n, ch) == w.(bindings := w.bindings[n := w.bindings[n].(rv := w.clock)], clock := w.clock + 1)
  {
    var o := w.bindings[n];
    assert Begin(w, n) == Go(w, n, o, o.status, FetchInstance);
    assert PutStatus(w, n, o.status) == w.(bindings := w.bindings[n := o.(rv := w.clock)], clock := w.clock + 1);
    hide Drain, Advance, Go, Begin, PutStatus;
    FetchCall(w, n, o, ch);
    Calls(w, n, o, o.status, FetchInstance, w, o, o.status, CheckExists, ch, 14);
    CheckCall(w, n, o, ch);
    Calls(w, n, o, o.status, CheckExists, w, o, o.status, AddFinalizer, ch, 13);
    FinalizerCall(w, n, o, ch);
    Calls(w, n, o, o.status, AddFinalizer, w, o, o.status, ReadyCheck, ch, 12);
    MaintainsCall(w, n, b, ch);
    Calls(w, n, o, o.status, ReadyCheck, w, o, o.status, Maintain, ch, 11);
    UnshownCall(w, n, o, b, ch);
    Calls(w, n, o, o.status, Maintain, w, o, o.status, Save, ch, 10);
    SaveCall(w, n, o, o.status, ch, 9);
  }

  // ----- a backup retires

  /** A backup whose original is gone, or that names none. */
  predicate Bereft(w: World, m: Name, b: Id) {
    Fit(w, m, b) && w.bindings[m].stale.Some? && w.bindings[m].policy.Some?
    && (w.bindings[m].orig.Some? ==> w.bindings[m].orig.value !in w.bindings)
  }

  lemma BereftCall(w: World, m: Name, c: Binding, ch: Choice)
    requires Calm(ch) && ch.due && c.status.readyCond == Some(true) && c.stale.Some? && c.policy.Some?
    ensures Advance(Go(w, m, c, c.status, ReadyCheck), m, ch) ==
            Go(w, m, c, c.status, if c.orig.None? then DeleteSelf else FetchOriginal)
  {
    GoGo(w, m, c, c.status, ReadyCheck, c, c.status, if c.orig.None? then DeleteSelf else FetchOriginal);
  }

  lemma NobodyCall(w: World, m: Name, c: Binding, ch: Choice)
    requires Calm(ch) && c.orig.Some? && c.orig.value !in w.bindings
    ensures Advance(Go(w, m, c, c.status, FetchOriginal), m, ch) == Go(w, m, c, c.status, DeleteSelf)
  {
    GoGo(w, m, c, c.status, FetchOriginal, c, c.status, DeleteSelf);
  }

  /** When its time is up it marks itself for deletion. */
  lemma BereftRetires(w: World, m: Name, b: Id, ch: Choice)
    requires Bereft(w, m, b) && Calm(ch) && ch.due
    ensures Pass(w, m, ch) == w.(bindings := w.bindings[m := w.bindings[m].(deleting := true, rv := w.clock)], clock := w.clock + 1)
  {
    var o := w.bindings[m];
    assert Begin(w, m) == Go(w, m, o, o.status, FetchInstance);
    var w1 := DeleteObject(w, m);
    assert w1.procs == w.procs && w1 == w.(bindings := w.bindings[m := o.(deleting := true, rv := w.clock)], clock := w.clock + 1);
    hide Drain, Advance, Go, DeleteObject, Begin;
    FetchCall(w, m, o, ch);
    Calls(w, m, o, o.status, FetchInstance, w, o, o.status, CheckExists, ch, 14);
    CheckCall(w, m, o, ch);
    Calls(w, m, o, o.status, CheckExists, w, o, o.status, AddFinalizer, ch, 13);
    FinalizerCall(w, m, o, ch);
    Calls(w, m, o, o.status, AddFinalizer, w, o, o.status, ReadyCheck, ch, 12);
    BereftCall(w, m, o, ch);
    if o.orig.None? {
      Calls(w, m, o, o.status, ReadyCheck, w, o, o.status, DeleteSelf, ch, 11);
    } else {
      Calls(w, m, o, o.status, ReadyCheck, w, o, o.status, FetchOriginal, ch, 11);
      NobodyCall(w, m, o, ch);
      Calls(w, m, o, o.status, FetchOriginal, w, o, o.status, DeleteSelf, ch, 10);
    }
    MarkCall(w, m, o, o.status, ch);
    Stops(w, m, o, o.status, DeleteSelf, w1, ch, if o.orig.None? then 10 else 9);
  }

  // ----- failed calls

  /** A call whose rejection is reported in the status. */
  predicate Reports(p: Proc, ch: Choice) {
    match p.pc
    case PollStatus => p.c.status.opUrl.Some? && !(p.c.status.opUrl.value.kind == Delete && ch.serverError)
    case CleanupUnbind => ch.throttled && p.c.status.id.Some?
    case CheckExists => ch.throttled && p.c.status.id.Some? && !ch.flag
    case RenameFirst(_) => ch.throttled
    case RenameSecond(_) => ch.throttled
    case CreateBackup(_) => ch.throttled && p.c.policy.Some?
    case DeleteUnbind => p.c.status.id.Some?
    case PollStore => p.c.status.id.Some?
    case MaintainStore => p.c.status.id.Some?
    case Maintain => !ch.flag
    case DeleteQuery | Query | Bind | RecoverStore(_, _) | BindStore(_) => true
    case _ => false
  }

  /** A call whose rejection ends the reconcile. */
  predicate Ends(p: Proc, ch: Choice) {
    match p.pc
    case CleanupUnbind => !ch.throttled
    case CheckExists => !ch.throttled && !ch.flag
    case InitConditions | FetchInstance | PollProbe | PollFetch | PollDropSecret | DeleteSave | DeleteDropSecret
       | DeleteRemoveFinalizer | RotateList | RotateSave | FetchOriginal | DeleteSelf | Save => true
    case AddFinalizer => !p.c.finalizer
    case PollRemoveFinalizer => p.c.finalizer
    case RotateAnnotation => p.c.forceRotate
    case _ => false
  }

  lemma RejectionNext(w: World, n: Name, ch: Choice)
    requires n in w.procs && ch.call == Rejected
    ensures var p := w.procs[n];
      && (Reports(p, ch) ==> Advance(w, n, ch) == Go(w, n, p.c.(status := p.c.status.Unsucceeded()), p.base, Save))
      && (Ends(p, ch) ==> Advance(w, n, ch) == Stop(w, n))
  {
    hide HasBackup, Go, Stop;
  }

  predicate SameStores(w: World, w1: World) {
    w1.bindings == w.bindings && w1.sm == w.sm && w1.secrets == w.secrets
  }

  lemma ChecksHarmless(w: World, n: Name, p: Proc, ch: Choice)
    requires ch.call == Rejected
    ensures SameStores(w, AdvanceReadyCheck(w, n, p, ch)) && SameStores(w, AdvancePollStatus(w, n, p, ch))
    ensures SameStores(w, AdvanceMaintain(w, n, p, ch)) && SameStores(w, AdvanceCheckExists(w, n, p, ch))
  {
    hide SmStatus;
  }

  lemma RotationsHarmless(w: World, n: Name, p: Proc, ch: Choice, s: string)
    requires ch.call == Rejected
    ensures SameStores(w, AdvanceRotateAnnotation(w, n, p, ch)) && SameStores(w, AdvanceRenameFirst(w, n, p, ch, s))
    ensures SameStores(w, AdvanceRenameSecond(w, n, p, ch, s)) && SameStores(w, AdvanceCreateBackup(w, n, p, ch, s))
  {
    hide PutMeta, SmRenameFirst, SmRenameSecond, CreateObject;
  }

  lemma FinalizersHarmless(w: World, n: Name, p: Proc, ch: Choice)
    requires ch.call == Rejected
    ensures SameStores(w, AdvanceAddFinalizer(w, n, p, ch)) && SameStores(w, AdvancePollRemoveFinalizer(w, n, p, ch))
    ensures SameStores(w, AdvanceCleanup(w, n, p, ch)) && SameStores(w, AdvanceDeleteUnbind(w, n, p, ch))
  {
    hide PutMeta, SmUnbind;
  }

  /** What neither is reported nor ends the reconcile makes no call, or goes on. */
  lemma RejectionRest(w: World, n: Name, ch: Choice)
    requires n in w.procs && ch.call == Rejected && !Reports(w.procs[n], ch) && !Ends(w.procs[n], ch)
    ensures SameStores(w, Advance(w, n, ch))
  {
    var p := w.procs[n];
    hide HasBackup, AdvanceInit, AdvanceFetchInstance, AdvancePollStatus, AdvancePollProbe, AdvancePollFetch, AdvanceStore,
         AdvanceDropSecret, AdvancePollRemoveFinalizer, AdvanceCleanup, AdvanceDeleteQuery, AdvanceDeleteUnbind,
         AdvanceDeleteRemoveFinalizer, AdvanceCheckExists, AdvanceAddFinalizer, AdvanceRotateAnnotation, AdvanceRotateList,
         AdvanceRenameFirst, AdvanceRenameSecond, AdvanceCreateBackup, AdvanceReadyCheck, AdvanceFetchOriginal, AdvanceDeleteSelf,
         AdvanceMaintain, AdvanceQuery, AdvanceBind, WriteStatus;
    ChecksHarmless(w, n, p, ch);
    FinalizersHarmless(w, n, p, ch);
    match p.pc
    case RenameFirst(s) => RotationsHarmless(w, n, p, ch, s);
    case RenameSecond(s) => RotationsHarmless(w, n, p, ch, s);
    case CreateBackup(s) => RotationsHarmless(w, n, p, ch, s);
    case _ => RotationsHarmless(w, n, p, ch, "");
  }

  /** A rejected call changes neither store. */
  lemma RejectionHarmless(w: World, n: Name, ch: Choice)
    requires n in w.procs && ch.call == Rejected
    ensures var w1 := Advance(w, n, ch); w1.bindings == w.bindings && w1.sm == w.sm && w1.secrets == w.secrets
  {
    hide Advance, Reports, Ends;
    RejectionNext(w, n, ch);
    if !Reports(w.procs[n], ch) && !Ends(w.procs[n], ch) {
      RejectionRest(w, n, ch);
    }
  }

  /**
   The rejection of a call is written into the status, which keeps the id and the operation and reports no success,
   or the reconcile ends without a trace.
   */
  lemma RejectionReported(w: World, n: Name, ch: Choice, last: Choice)
    requires n in w.procs && Unchanged(w, n, w.procs[n].c) && ch.call == Rejected && last.call == Ok
    ensures var p := w.procs[n];
      && (Reports(p, ch) ==>
            var w1 := Advance(w, n, ch);
            && n in w1.procs
            && var w2 := Advance(w1, n, last);
            && n !in w2.procs && w2.sm == w.sm && w2.secrets == w.secrets && n in w2.bindings
            && w2.bindings == w.bindings[n := w.bindings[n].(rv := w.clock,
                 status := p.c.status.(succeeded := Some(false), readyCond := Some(p.c.status.ready)))])
      && (Ends(p, ch) ==> var w1 := Advance(w, n, ch); w1 == w.(procs := w.procs - {n}))
  {
    var p := w.procs[n];
    RejectionNext(w, n, ch);
    if Reports(p, ch) {
      var c := p.c.(status := p.c.status.Unsucceeded());
      var w1 := Go(w, n, c, p.base, Save);
      assert Advance(w1, n, last) == WriteStatus(w1, n, Proc(c, p.base, Save), last, None) by { hide WriteStatus; }
    }
    hide Advance, Reports, Ends;
  }

  // ----- a removal that SM answers with an internal error

  /** The answer 500 to a poll. */
  predicate Broken(own: Choice) {
    own.call == Rejected && own.serverError
  }

  lemma BrokenCall(w: World, m: Name, c: Binding, b: Id, own: Choice)
    requires Broken(own) && c.status.opUrl == Some(OpUrl(Delete, b))
    ensures Advance(Go(w, m, c, c.status, PollStatus), m, own) == Go(w, m, c, c.status, PollProbe)
  {
    GoGo(w, m, c, c.status, PollStatus, c, c.status, PollProbe);
  }

  lemma ProbeCall(w: World, m: Name, c: Binding, b: Id, ch: Choice)
    requires Calm(ch) && c.status.id == Some(b)
    ensures Advance(Go(w, m, c, c.status, PollProbe), m, ch) ==
            if b !in w.sm then Go(w, m, c, c.status, PollDropSecret)
            else Go(w, m, c.(status := c.status.Unsucceeded()), c.status, Save)
  {
    GoGo(w, m, c, c.status, PollProbe, c, c.status, PollDropSecret);
    GoGo(w, m, c, c.status, PollProbe, c.(status := c.status.Unsucceeded()), c.status, Save);
  }

  lemma ToProbe(w: World, m: Name, b: Id, ch: Choice, own: Choice)
    requires Removing(w, m, b) && Calm(ch) && Broken(own)
    ensures var o := w.bindings[m];
      PassBut(w, m, ch, PollStatus, own) == DrainBut(Go(w, m, o, o.status, PollProbe), m, ch, PollStatus, own, 12)
  {
    var o := w.bindings[m];
    assert Begin(w, m) == Go(w, m, o, o.status, FetchInstance);
    hide DrainBut, Advance, Go, Begin;
    PollCall(w, m, o, ch);
    CallsBut(w, m, o, o.status, FetchInstance, w, o, o.status, PollStatus, ch, PollStatus, own, 14);
    BrokenCall(w, m, o, b, own);
    CallsBut(w, m, o, o.status, PollStatus, w, o, o.status, PollProbe, ch, PollStatus, own, 13);
  }

  lemma GoneParts(w: World, m: Name)
    ensures var w1 := DropSecret(w, m);
      && w1.bindings == w.bindings && w1.procs == w.procs && w1.clock == w.clock
      && w1.(bindings := w1.bindings - {m}, clock := w1.clock + 1) == Gone(w, m) && Gone(w, m).procs == w.procs
      && m !in Gone(w, m).bindings
  {
  }

  lemma ProbedGone(w: World, m: Name, b: Id, ch: Choice, own: Choice)
    requires Removing(w, m, b) && Calm(ch) && Broken(own) && b !in w.sm
    ensures PassBut(w, m, ch, PollStatus, own) == Gone(w, m)
  {
    hide DrainBut, PassBut, Advance, Go, DropSecret, Gone, Status.HasConditions, Status.WithoutId, Status.NoOperation;
    var o := w.bindings[m];
    var w1 := DropSecret(w, m);
    var c1 := o.(finalizer := false, rv := w.clock, status := o.status.WithoutId().NoOperation());
    ToProbe(w, m, b, ch, own);
    GoneParts(w, m);
    ProbeCall(w, m, o, b, ch);
    CallsBut(w, m, o, o.status, PollProbe, w, o, o.status, PollDropSecret, ch, PollStatus, own, 12);
    PollDropCall(w, m, o, ch);
    CallsBut(w, m, o, o.status, PollDropSecret, w1, o, o.status, PollRemoveFinalizer, ch, PollStatus, own, 11);
    PollReleaseCall(w1, m, o, ch);
    CallsBut(w1, m, o, o.status, PollRemoveFinalizer, Gone(w, m), c1, o.status, Save, ch, PollStatus, own, 10);
    UnsavedCall(Gone(w, m), m, c1, o.status, ch);
    StopsBut(Gone(w, m), m, c1, o.status, Save, Gone(w, m), ch, PollStatus, own, 9);
  }

  /**
   SM answers the poll of a removal with an internal error, and is asked for the binding itself: if it is gone, so
   are the resource and its secret; if not, the failure is reported and the operation polled again.
   */
  lemma BrokenPollProbed(w: World, m: Name, b: Id, ch: Choice, own: Choice)
    requires Removing(w, m, b) && Calm(ch) && Broken(own)
    ensures var w1 := PassBut(w, m, ch, PollStatus, own);
      var s := w.bindings[m].status;
      if b !in w.sm then w1 == Gone(w, m)
      else OnlyWritten(w, w1, m, true, s.(succeeded := Some(false), readyCond := Some(s.ready)))
  {
    hide DrainBut, PassBut, Advance, Go, Gone;
    var o := w.bindings[m];
    var s := o.status.Unsucceeded();
    if b !in w.sm {
      ProbedGone(w, m, b, ch, own);
    } else {
      ToProbe(w, m, b, ch, own);
      ProbeCall(w, m, o, b, ch);
      CallsBut(w, m, o, o.status, PollProbe, w, o.(status := s), o.status, Save, ch, PollStatus, own, 12);
      SavesBut(w, m, o.(status := s), o.status, ch, PollStatus, own, 11);
    }
  }

  // ----- what the code finds out for itself

  /** The resource only reports that it has not succeeded. */
  predicate OnlyReported(w: World, w1: World, n: Name, finalizer: bool) {
    n in w.bindings && var s := w.bindings[n].status;
    OnlyWritten(w, w1, n, finalizer, s.(succeeded := Some(false), readyCond := Some(s.ready)))
  }

  lemma ClientlessCall(w: World, n: Name, c: Binding, own: Choice)
    requires own.call == Ok && own.flag && own.instance == InService
    ensures Advance(Go(w, n, c, c.status, FetchInstance), n, own) == Go(w, n, c.(status := c.status.Unsucceeded()), c.status, Save)
  {
    GoGo(w, n, c, c.status, FetchInstance, c.(status := c.status.Unsucceeded()), c.status, Save);
  }

  /** Without an SM client a resource, marked or not, reports the failure and goes no further. */
  lemma ClientlessReported(w: World, n: Name, ch: Choice)
    requires n in w.bindings && n !in w.procs && w.bindings[n].status.HasConditions() && Calm(ch)
    ensures OnlyReported(w, PassBut(w, n, ch, FetchInstance, ch.(flag := true)), n, w.bindings[n].finalizer)
  {
    var o := w.bindings[n];
    var s := o.status.Unsucceeded();
    var own := ch.(flag := true);
    assert Begin(w, n) == Go(w, n, o, o.status, FetchInstance);
    hide DrainBut, Advance, Go, Begin, Status.HasConditions;
    ClientlessCall(w, n, o, own);
    CallsBut(w, n, o, o.status, FetchInstance, w, o.(status := s), o.status, Save, ch, FetchInstance, own, 14);
    SavesBut(w, n, o.(status := s), o.status, ch, FetchInstance, own, 13);
  }

  lemma DescribedCall(w: World, n: Name, c: Binding, own: Choice)
    requires own.call == Ok && own.flag && c.status.opUrl.Some? && SmStatus(w, c.status.opUrl.value) == InProgress
    ensures Advance(Go(w, n, c, c.status, PollStatus), n, own) == Go(w, n, c.(status := c.status.Unsucceeded()), c.status, Save)
  {
    GoGo(w, n, c, c.status, PollStatus, c.(status := c.status.Unsucceeded()), c.status, Save);
  }

  /** A running operation that SM describes is reported as under way, and stays recorded. */
  lemma DescriptionReported(w: World, n: Name, ch: Choice)
    requires n in w.bindings && n !in w.procs && w.bindings[n].status.HasConditions() && Calm(ch)
    requires var s := w.bindings[n].status;
      s.opUrl.Some? && (s.opType == Some(Delete) || !w.bindings[n].deleting) && SmStatus(w, s.opUrl.value) == InProgress
    ensures OnlyReported(w, PassBut(w, n, ch, PollStatus, ch.(flag := true)), n, w.bindings[n].finalizer)
  {
    var o := w.bindings[n];
    var s := o.status.Unsucceeded();
    var own := ch.(flag := true);
    assert Begin(w, n) == Go(w, n, o, o.status, FetchInstance);
    hide DrainBut, Advance, Go, Begin, SmStatus, Status.HasConditions;
    PollCall(w, n, o, ch);
    CallsBut(w, n, o, o.status, FetchInstance, w, o, o.status, PollStatus, ch, PollStatus, own, 14);
    DescribedCall(w, n, o, own);
    CallsBut(w, n, o, o.status, PollStatus, w, o.(status := s), o.status, Save, ch, PollStatus, own, 13);
    SavesBut(w, n, o.(status := s), o.status, ch, PollStatus, own, 12);
  }

  /** A resource about to be created, with its conditions and its finalizer. */
  predicate Guarded(w: World, n: Name) {
    Wanting(w, n) && w.bindings[n].finalizer && w.bindings[n].status.HasConditions()
  }

  lemma TakenCall(w: World, n: Name, c: Binding, own: Choice)
    requires own.call == Ok && own.flag && c.status.readyCond == Some(false) && c.status.id.None?
    ensures Advance(Go(w, n, c, c.status, ReadyCheck), n, own) == Go(w, n, c.(status := c.status.Unsucceeded()), c.status, Save)
  {
    GoGo(w, n, c, c.status, ReadyCheck, c.(status := c.status.Unsucceeded()), c.status, Save);
  }

  lemma GuardedReady(w: World, n: Name, ch: Choice, at: Pc, own: Choice)
    requires Guarded(w, n) && Calm(ch) && at != FetchInstance && at != AddFinalizer
    ensures var o := w.bindings[n];
      && o.status.readyCond == Some(false) && o.status.id.None?
      && PassBut(w, n, ch, at, own) == DrainBut(Go(w, n, o, o.status, ReadyCheck), n, ch, at, own, 12)
  {
    var o := w.bindings[n];
    assert Begin(w, n) == Go(w, n, o, o.status, FetchInstance);
    hide DrainBut, Advance, Go, Begin;
    FirstFetchCall(w, n, o, ch);
    CallsBut(w, n, o, o.status, FetchInstance, w, o, o.status, AddFinalizer, ch, at, own, 14);
    FinalizerCall(w, n, o, ch);
    CallsBut(w, n, o, o.status, AddFinalizer, w, o, o.status, ReadyCheck, ch, at, own, 13);
  }

  lemma GuardedHere(w: World, n: Name)
    requires Guarded(w, n)
    ensures n in w.bindings && n !in w.procs && w.bindings[n].finalizer
  {
  }

  /** When the name of its secret is taken, SM is not asked for a binding. */
  lemma TakenReported(w: World, n: Name, ch: Choice)
    requires Guarded(w, n) && Calm(ch)
    ensures OnlyReported(w, PassBut(w, n, ch, ReadyCheck, ch.(flag := true)), n, true)
  {
    var o := w.bindings[n];
    var s := o.status.Unsucceeded();
    var own := ch.(flag := true);
    hide DrainBut, PassBut, Advance, Go;
    GuardedReady(w, n, ch, ReadyCheck, own);
    TakenCall(w, n, o, own);
    CallsBut(w, n, o, o.status, ReadyCheck, w, o.(status := s), o.status, Save, ch, ReadyCheck, own, 12);
    SavesBut(w, n, o.(status := s), o.status, ch, ReadyCheck, own, 11);
  }

  lemma UnreadableCall(w: World, n: Name, c: Binding, own: Choice)
    requires own.flag
    ensures Advance(Go(w, n, c, c.status, Bind), n, own) == Go(w, n, c.(status := c.status.Unsucceeded()), c.status, Save)
  {
    GoGo(w, n, c, c.status, Bind, c.(status := c.status.Unsucceeded()), c.status, Save);
  }

  lemma ReportedIs(w: World, n: Name)
    requires n in w.bindings
    ensures OnlyReported(w, PutStatus(w, n, w.bindings[n].status.Unsucceeded()), n, w.bindings[n].finalizer)
  {
  }

  lemma ToUnreadable(w: World, n: Name, o: Binding, ch: Choice, own: Choice)
    requires Calm(ch) && own.flag && n in w.bindings && n !in w.procs && o == w.bindings[n]
    requires o.status.readyCond == Some(false) && o.status.id.None? && Nameless(w.sm, n)
    ensures DrainBut(Go(w, n, o, o.status, ReadyCheck), n, ch, Bind, own, 12) == PutStatus(w, n, o.status.Unsucceeded())
  {
    hide DrainBut, Advance, Go, PutStatus;
    var s := o.status.Unsucceeded();
    ReadyCall(w, n, o, ch);
    CallsBut(w, n, o, o.status, ReadyCheck, w, o, o.status, Query, ch, Bind, own, 12);
    QueryCall(w, n, o, ch);
    CallsBut(w, n, o, o.status, Query, w, o, o.status, Bind, ch, Bind, own, 11);
    UnreadableCall(w, n, o, own);
    CallsBut(w, n, o, o.status, Bind, w, o.(status := s), o.status, Save, ch, Bind, own, 10);
    SavesBut(w, n, o.(status := s), o.status, ch, Bind, own, 9);
  }

  /** Neither is it when the parameters cannot be read. */
  lemma UnreadableReported(w: World, n: Name, ch: Choice)
    requires Guarded(w, n) && Nameless(w.sm, n) && Calm(ch)
    ensures n in w.bindings && n !in w.procs
    ensures OnlyReported(w, PassBut(w, n, ch, Bind, ch.(flag := true)), n, true)
  {
    hide DrainBut, PassBut, Advance, Go, Nameless, Guarded, PutStatus, OnlyReported;
    GuardedHere(w, n);
    GuardedReady(w, n, ch, Bind, ch.(flag := true));
    ToUnreadable(w, n, w.bindings[n], ch, ch.(flag := true));
    ReportedIs(w, n);
  }

  /** A rotation whose PATCH or backup is refused for good is prepared again, with the status as it was. */
  lemma RotationRetried(w: World, n: Name, ch: Choice, last: Choice)
    requires n in w.procs && Unchanged(w, n, w.procs[n].c) && ch.call == Rejected && !ch.throttled && last.call == Ok
    requires var p := w.procs[n]; p.pc.RenameFirst? || p.pc.RenameSecond? || (p.pc.CreateBackup? && p.c.policy.Some?)
    ensures var p := w.procs[n];
      var w1 := Advance(w, n, ch);
      && n in w1.procs
      && var w2 := Advance(w1, n, last);
      && n !in w2.procs && w2.sm == w.sm && w2.secrets == w.secrets && n in w2.bindings
      && w2.bindings == w.bindings[n := w.bindings[n].(rv := w.clock, status := p.c.status.(rotation := Preparing))]
  {
    var p := w.procs[n];
    var c := p.c.(status := p.c.status.(rotation := Preparing));
    var w1 := Go(w, n, c, p.base, Save);
    assert Advance(w, n, ch) == w1 by { hide Go; }
    assert Advance(w1, n, last) == WriteStatus(w1, n, Proc(c, p.base, Save), last, None) by { hide WriteStatus; }
    hide Advance;
  }

  // ----- lost answers

  /** The two stores of `w1`, and the reconciles of `w2`. */
  predicate Mixes(w: World, w1: World, w2: World) {
    && w.bindings == w1.bindings && w.sm == w1.sm && w.secrets == w1.secrets
    && w.procs == w2.procs
  }

  function Lostly(ch: Choice): Choice {
    ch.(call := Outcome.Lost)
  }

  function Badly(ch: Choice): Choice {
    ch.(call := Rejected)
  }

  function Goodly(ch: Choice): Choice {
    ch.(call := Ok)
  }

  lemma LostStores(w: World, n: Name, p: Proc, ch: Choice, b: Id, done: Status, next: Pc)
    ensures Mixes(AdvanceStore(w, n, p, Lostly(ch), b, done), AdvanceStore(w, n, p, Goodly(ch), b, done),
                  AdvanceStore(w, n, p, Badly(ch), b, done))
    ensures Mixes(AdvanceDropSecret(w, n, p, Lostly(ch), next), AdvanceDropSecret(w, n, p, Goodly(ch), next),
                  AdvanceDropSecret(w, n, p, Badly(ch), next))
  {
  }

  lemma LostWrites(w: World, n: Name, p: Proc, ch: Choice, next: Option<Pc>)
    ensures Mixes(WriteStatus(w, n, p, Lostly(ch), next), WriteStatus(w, n, p, Goodly(ch), next),
                  WriteStatus(w, n, p, Badly(ch), next))
    ensures Mixes(AdvanceInit(w, n, p, Lostly(ch)), AdvanceInit(w, n, p, Goodly(ch)), AdvanceInit(w, n, p, Badly(ch)))
  {
  }

  lemma LostFinalizers(w: World, n: Name, p: Proc, ch: Choice)
    requires p.c.finalizer
    ensures Mixes(AdvancePollRemoveFinalizer(w, n, p, Lostly(ch)), AdvancePollRemoveFinalizer(w, n, p, Goodly(ch)),
                  AdvancePollRemoveFinalizer(w, n, p, Badly(ch)))
    ensures Mixes(AdvanceDeleteRemoveFinalizer(w, n, p, Lostly(ch)), AdvanceDeleteRemoveFinalizer(w, n, p, Goodly(ch)),
                  AdvanceDeleteRemoveFinalizer(w, n, p, Badly(ch)))
  {
  }

  lemma LostMarks(w: World, n: Name, ch: Choice)
    ensures Mixes(AdvanceDeleteSelf(w, n, Lostly(ch)), AdvanceDeleteSelf(w, n, Goodly(ch)), AdvanceDeleteSelf(w, n, Badly(ch)))
  {
  }

  lemma LostCleanup(w: World, n: Name, p: Proc, ch: Choice)
    ensures Mixes(AdvanceCleanup(w, n, p, Lostly(ch)), AdvanceCleanup(w, n, p, Goodly(ch)), AdvanceCleanup(w, n, p, Badly(ch)))
  {
    KeepsProcs(w, if p.c.status.id.Some? then p.c.status.id.value else 0, ch.async);
    hide SmUnbind, Status.Unsucceeded;
  }

  lemma LostUnbind(w: World, n: Name, p: Proc, ch: Choice)
    ensures Mixes(AdvanceDeleteUnbind(w, n, p, Lostly(ch)), AdvanceDeleteUnbind(w, n, p, Goodly(ch)),
                  AdvanceDeleteUnbind(w, n, p, Badly(ch)))
  {
    KeepsProcs(w, if p.c.status.id.Some? then p.c.status.id.value else 0, ch.async);
    hide SmUnbind, Status.Unsucceeded;
  }

  lemma KeepsProcs(w: World, b: Id, async: bool)
    ensures SmUnbind(w, b, async).procs == w.procs
  {
  }

  lemma LostRenameFirst(w: World, n: Name, p: Proc, ch: Choice, s: string)
    ensures Mixes(AdvanceRenameFirst(w, n, p, Lostly(ch), s), AdvanceRenameFirst(w, n, p, Goodly(ch), s),
                  AdvanceRenameFirst(w, n, p, Badly(ch), s))
  {
    hide Status.Unsucceeded;
  }

  lemma LostRenameSecond(w: World, n: Name, p: Proc, ch: Choice, s: string)
    ensures Mixes(AdvanceRenameSecond(w, n, p, Lostly(ch), s), AdvanceRenameSecond(w, n, p, Goodly(ch), s),
                  AdvanceRenameSecond(w, n, p, Badly(ch), s))
  {
    hide Status.Unsucceeded;
  }

  lemma LostBackup(w: World, n: Name, p: Proc, ch: Choice, s: string)
    ensures Mixes(AdvanceCreateBackup(w, n, p, Lostly(ch), s), AdvanceCreateBackup(w, n, p, Goodly(ch), s),
                  AdvanceCreateBackup(w, n, p, Badly(ch), s))
  {
    hide Status.Unsucceeded, Status.Rotated, NewBinding;
  }

  lemma LostBinds(w: World, n: Name, p: Proc, ch: Choice)
    ensures Mixes(AdvanceBind(w, n, p, Lostly(ch)), AdvanceBind(w, n, p, Goodly(ch)), AdvanceBind(w, n, p, Badly(ch)))
  {
  }

  lemma RotateSecrets(w: World, n: Name, c: Binding, base: Status)
    ensures Rotate(w, n, c, base).secrets == w.secrets
  {
  }

  lemma MetaProcs(w: World, n: Name, finalizer: bool, forceRotate: bool)
    requires n in w.bindings
    ensures PutMeta(w, n, finalizer, forceRotate).procs == w.procs
  {
  }

  lemma LostAnnotations(w: World, n: Name, p: Proc, ch: Choice)
    requires p.c.forceRotate
    ensures Mixes(AdvanceRotateAnnotation(w, n, p, Lostly(ch)), AdvanceRotateAnnotation(w, n, p, Goodly(ch)),
                  AdvanceRotateAnnotation(w, n, p, Badly(ch)))
  {
    hide Rotate, PutMeta;
    if n in w.bindings {
      MetaProcs(w, n, p.c.finalizer, false);
      RotateSecrets(PutMeta(w, n, p.c.finalizer, false), n, p.c.(forceRotate := false, rv := w.clock), p.base);
    }
  }

  lemma LostAdditions(w: World, n: Name, p: Proc, ch: Choice)
    requires !p.c.finalizer
    ensures Mixes(AdvanceAddFinalizer(w, n, p, Lostly(ch)), AdvanceAddFinalizer(w, n, p, Goodly(ch)),
                  AdvanceAddFinalizer(w, n, p, Badly(ch)))
  {
  }

  /** A call that writes to one of the two stores. */
  predicate Writes(p: Proc) {
    match p.pc
    case InitConditions | PollDropSecret | CleanupUnbind | DeleteUnbind | DeleteSave | DeleteDropSecret | RenameFirst(_)
       | RenameSecond(_) | CreateBackup(_) | RotateSave | DeleteSelf | RecoverStore(_, _) | Bind | BindStore(_) | Save => true
    case PollStore => p.c.status.id.Some?
    case MaintainStore => p.c.status.id.Some?
    case PollRemoveFinalizer => p.c.finalizer
    case DeleteRemoveFinalizer => p.c.finalizer
    case AddFinalizer => !p.c.finalizer
    case RotateAnnotation => p.c.forceRotate
    case _ => false
  }

  /** A write whose answer is lost has all of its effect, and the reconcile goes on as if it had none. */
  lemma LostIsBoth(w: World, n: Name, ch: Choice)
    requires n in w.procs && Writes(w.procs[n])
    ensures Mixes(Advance(w, n, ch.(call := Outcome.Lost)), Advance(w, n, ch.(call := Ok)), Advance(w, n, ch.(call := Rejected)))
  {
    var p := w.procs[n];
    hide Mixes, AdvanceInit, AdvanceFetchInstance, AdvancePollStatus, AdvancePollProbe, AdvancePollFetch, AdvanceStore,
         AdvanceDropSecret, AdvancePollRemoveFinalizer, AdvanceCleanup, AdvanceDeleteQuery, AdvanceDeleteUnbind,
         AdvanceDeleteRemoveFinalizer, AdvanceCheckExists, AdvanceAddFinalizer, AdvanceRotateAnnotation, AdvanceRotateList,
         AdvanceRenameFirst, AdvanceRenameSecond, AdvanceCreateBackup, AdvanceReadyCheck, AdvanceFetchOriginal, AdvanceDeleteSelf,
         AdvanceMaintain, AdvanceQuery, AdvanceBind, WriteStatus, Resync;
    match p.pc
    case InitConditions => LostWrites(w, n, p, ch, None);
    case PollStore => LostStores(w, n, p, ch, p.c.status.id.value, p.c.status.NoOperation().Success(), Save);
    case PollDropSecret => LostStores(w, n, p, ch, 0, FreshStatus, PollRemoveFinalizer);
    case PollRemoveFinalizer => LostFinalizers(w, n, p, ch);
    case CleanupUnbind => LostCleanup(w, n, p, ch);
    case DeleteUnbind => LostUnbind(w, n, p, ch);
    case DeleteSave => LostWrites(w, n, p, ch, Some(DeleteDropSecret));
    case DeleteDropSecret => LostStores(w, n, p, ch, 0, FreshStatus, DeleteRemoveFinalizer);
    case DeleteRemoveFinalizer => LostFinalizers(w, n, p, ch);
    case AddFinalizer => LostAdditions(w, n, p, ch);
    case RotateAnnotation => LostAnnotations(w, n, p, ch);
    case RenameFirst(s) => LostRenameFirst(w, n, p, ch, s);
    case RenameSecond(s) => LostRenameSecond(w, n, p, ch, s);
    case CreateBackup(s) => LostBackup(w, n, p, ch, s);
    case RotateSave => LostWrites(w, n, p, ch, Some(ReadyCheck));
    case DeleteSelf => LostMarks(w, n, ch);
    case MaintainStore => LostStores(w, n, p, ch, p.c.status.id.value, p.c.status.Success(), Save);
    case RecoverStore(b, seen) => LostStores(w, n, p, ch, b, Resync(p.c.status, b, seen), Save);
    case Bind => LostBinds(w, n, p, ch);
    case BindStore(b) => LostStores(w, n, p, ch, b, p.c.status.WithId(b).Success(), Save);
    case Save => LostWrites(w, n, p, ch, None);
    case _ =>
  }
}
