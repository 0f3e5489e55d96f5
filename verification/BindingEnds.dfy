/** How a rotation ends: the backup adopts the old binding, the original drops its condition, and the backup goes. */
module BindingEnds {
  import opened Options
  import opened Remote
  import opened BindingWorld
  import opened BindingReconciler
  import opened BindingInvariant
  import opened BindingProgress

  /** The last call of a reconcile that stops. */
  lemma Stops(w: World, n: Name, c: Binding, base: Status, pc: Pc, w1: World, ch: Choice, fuel: nat)
    requires fuel > 0 && n !in w1.procs && Advance(Go(w, n, c, base, pc), n, ch) == w1
    ensures Drain(Go(w, n, c, base, pc), n, ch, fuel) == w1
  {
    hide Advance;
    DrainStep(Go(w, n, c, base, pc), n, ch, fuel);
  }

  // ----- the backup adopts the old binding

  /** A backup that was never reconciled; SM shows the old binding `b` under its names. */
  ghost predicate Adopting(w: World, m: Name, b: Id) {
    && m in w.bindings && m !in w.procs
    && var o := w.bindings[m];
    && !o.deleting && !o.finalizer && o.status == FreshStatus
    && b in w.sm && w.sm[b].name == o.externalName && w.sm[b].k8sName == Some(m)
    && w.sm[b].provisioning == Done && w.sm[b].unbinding == NotAsked
    && (forall b' :: Named(w.sm, b', m) ==> b' == b)
  }

  const STARTED := FreshStatus.Unsucceeded()

  lemma InitCall(w: World, n: Name, c: Binding, ch: Choice)
    requires Calm(ch) && n in w.bindings && c == w.bindings[n] && c.status == FreshStatus
    ensures var w1 := PutStatus(w, n, STARTED);
      Advance(Go(w, n, c, c.status, InitConditions), n, ch) == Go(w1, n, w1.bindings[n], STARTED, FetchInstance)
  {
    var w1 := PutStatus(w, n, STARTED);
    GoGo(w1, n, c, c.status, InitConditions, w1.bindings[n], STARTED, FetchInstance);
  }

  lemma FirstFetchCall(w: World, n: Name, c: Binding, ch: Choice)
    requires Calm(ch) && !c.deleting && c.status.opUrl.None? && c.status.id.None?
    ensures Advance(Go(w, n, c, c.status, FetchInstance), n, ch) == Go(w, n, c, c.status, AddFinalizer)
  {
    GoGo(w, n, c, c.status, FetchInstance, c, c.status, AddFinalizer);
  }

  lemma AddFinalizerCall(w: World, n: Name, c: Binding, ch: Choice)
    requires Calm(ch) && n in w.bindings && c == w.bindings[n] && !c.finalizer && !c.deleting && c.status.rotation == NotRotating
    ensures var w1 := PutMeta(w, n, true, c.forceRotate);
      n in w1.bindings && Advance(Go(w, n, c, c.status, AddFinalizer), n, ch) == Go(w1, n, w1.bindings[n], c.status, ReadyCheck)
  {
    var w1 := PutMeta(w, n, true, c.forceRotate);
    GoGo(w1, n, c, c.status, AddFinalizer, w1.bindings[n], c.status, ReadyCheck);
  }

  lemma UnreadyCall(w: World, n: Name, c: Binding, ch: Choice)
    requires Calm(ch) && c.status.readyCond == Some(false) && c.status.id.None?
    ensures Advance(Go(w, n, c, c.status, ReadyCheck), n, ch) == Go(w, n, c, c.status, Query)
  {
    GoGo(w, n, c, c.status, ReadyCheck, c, c.status, Query);
  }

  /** The one binding SM attributes to the resource. */
  ghost predicate Finds(w: World, n: Name, b: Id) {
    && n in w.bindings && b in w.sm && w.sm[b].name == w.bindings[n].externalName && w.sm[b].k8sName == Some(n)
    && forall b' :: Named(w.sm, b', n) ==> b' == b
  }

  lemma OneMatch(w: World, name: string, n: Name, b: Id)
    requires b in w.sm && w.sm[b].name == name && w.sm[b].k8sName == Some(n) && forall b' :: Named(w.sm, b', n) ==> b' == b
    ensures OnlyMatch(w, name, n) == Some(b)
  {
    assert Matches(w, name, n) == {b} by {
      assert forall b' :: b' in Matches(w, name, n) ==> Named(w.sm, b', n);
    }
  }

  lemma RecoverCall(w: World, n: Name, c: Binding, b: Id, ch: Choice)
    requires Calm(ch) && b in w.sm && w.sm[b].name == c.externalName && w.sm[b].k8sName == Some(n) && w.sm[b].provisioning == Done
    requires forall b' :: Named(w.sm, b', n) ==> b' == b
    ensures Advance(Go(w, n, c, c.status, Query), n, ch) == Go(w, n, c, c.status, RecoverStore(b, w.sm[b]))
  {
    OneMatch(Go(w, n, c, c.status, Query), c.externalName, n, b);
    GoGo(w, n, c, c.status, Query, c, c.status, RecoverStore(b, w.sm[b]));
  }

  lemma RecoveredCall(w: World, n: Name, c: Binding, b: Id, seen: SmBinding, ch: Choice)
    requires Calm(ch) && seen.provisioning == Done && seen.unbinding == NotAsked && c.status.opUrl.None? && c.status.opType.None?
    ensures Advance(Go(w, n, c, c.status, RecoverStore(b, seen)), n, ch) ==
            Go(StoreSecret(w, n, b), n, c.(status := c.status.WithId(b).Success()), c.status, Save)
  {
    assert Resync(c.status, b, seen) == c.status.WithId(b).Success();
    GoGo(StoreSecret(w, n, b), n, c, c.status, RecoverStore(b, seen), c.(status := c.status.WithId(b).Success()), c.status, Save);
  }

  /** The world once the backup has adopted `b`. */
  function Adopted(w: World, m: Name, b: Id): World
    requires m in w.bindings
  {
    var o := w.bindings[m].(finalizer := true, status := STARTED.WithId(b).Success(), rv := w.clock + 2);
    w.(bindings := w.bindings[m := o], secrets := w.secrets[m := b], clock := w.clock + 3)
  }

  /** With its first conditions and its finalizer. */
  function Prepared(w: World, m: Name): World
    requires m in w.bindings && !w.bindings[m].deleting
  {
    PutMeta(PutStatus(w, m, STARTED), m, true, w.bindings[m].forceRotate)
  }

  lemma ToQuery(w: World, m: Name, b: Id, ch: Choice)
    requires Adopting(w, m, b) && Calm(ch)
    ensures var w2 := Prepared(w, m);
      m in w2.bindings && Pass(w, m, ch) == Drain(Go(w2, m, w2.bindings[m], STARTED, Query), m, ch, 10)
  {
    var o := w.bindings[m];
    var w1 := PutStatus(w, m, STARTED);
    var c1 := w1.bindings[m];
    var w2 := Prepared(w, m);
    var c2 := w2.bindings[m];
    assert Begin(w, m) == Go(w, m, o, o.status, InitConditions);
    hide Drain, Advance, Go, PutStatus, PutMeta, Adopting;
    InitCall(w, m, o, ch);
    Calls(w, m, o, o.status, InitConditions, w1, c1, STARTED, FetchInstance, ch, 14);
    FirstFetchCall(w1, m, c1, ch);
    Calls(w1, m, c1, STARTED, FetchInstance, w1, c1, STARTED, AddFinalizer, ch, 13);
    AddFinalizerCall(w1, m, c1, ch);
    Calls(w1, m, c1, STARTED, AddFinalizer, w2, c2, STARTED, ReadyCheck, ch, 12);
    UnreadyCall(w2, m, c2, ch);
    Calls(w2, m, c2, STARTED, ReadyCheck, w2, c2, STARTED, Query, ch, 11);
  }

  lemma PreparedFacts(w: World, m: Name)
    requires m in w.bindings && !w.bindings[m].deleting
    ensures var w2 := Prepared(w, m);
      && w2.sm == w.sm && w2.secrets == w.secrets && w2.procs == w.procs && w2.clock == w.clock + 2 && w2.nextId == w.nextId
      && w2.bindings == w.bindings[m := w.bindings[m].(finalizer := true, status := STARTED, rv := w.clock + 1)]
  {
  }

  lemma AdoptedIs(w: World, m: Name, b: Id)
    requires m in w.bindings && !w.bindings[m].deleting
    ensures m in Prepared(w, m).bindings
    ensures PutStatus(StoreSecret(Prepared(w, m), m, b), m, STARTED.WithId(b).Success()) == Adopted(w, m, b)
  {
    PreparedFacts(w, m);
    hide Prepared;
  }

  /** One undisturbed pass: the backup holds and shows the old binding. */
  lemma AdoptionCompletes(w: World, m: Name, b: Id, ch: Choice)
    requires Adopting(w, m, b) && Calm(ch)
    ensures Pass(w, m, ch) == Adopted(w, m, b)
  {
    ToQuery(w, m, b, ch);
    PreparedFacts(w, m);
    var w2 := Prepared(w, m);
    var c2 := w2.bindings[m];
    var w3 := StoreSecret(w2, m, b);
    var c3 := c2.(status := STARTED.WithId(b).Success());
    AdoptedIs(w, m, b);
    hide Drain, Advance, Go, Prepared, PutStatus, Pass, Adopted;
    RecoverCall(w2, m, c2, b, ch);
    Calls(w2, m, c2, STARTED, Query, w2, c2, STARTED, RecoverStore(b, w.sm[b]), ch, 10);
    RecoveredCall(w2, m, c2, b, w.sm[b], ch);
    Calls(w2, m, c2, STARTED, RecoverStore(b, w.sm[b]), w3, c3, STARTED, Save, ch, 9);
    SaveCall(w3, m, c3, STARTED, ch, 8);
  }

  // ----- the original drops its condition

  /** An original that holds its new binding and still says that it rotates. */
  predicate Rotated(w: World, n: Name, b: Id) {
    && n in w.bindings && n !in w.procs && b in w.sm && w.sm[b].provisioning == Done
    && var o := w.bindings[n];
    && !o.deleting && o.finalizer && !o.forceRotate && o.stale.None?
    && o.status == o.status.WithId(b).Success() && o.status.opUrl.None? && o.status.rotation == Rotating
  }

  lemma RotateCall(w: World, n: Name, c: Binding, ch: Choice)
    requires Calm(ch) && !c.forceRotate && c.status.rotation == Rotating && c.status.id.Some? && c.status.ready
    ensures Advance(Go(w, n, c, c.status, RotateAnnotation), n, ch) ==
            Go(w, n, c.(status := c.status.(rotation := NotRotating)), c.status, RotateSave)
  {
    GoGo(w, n, c, c.status, RotateAnnotation, c.(status := c.status.(rotation := NotRotating)), c.status, RotateSave);
  }

  lemma DropCall(w: World, n: Name, c: Binding, base: Status, ch: Choice)
    requires Calm(ch) && n in w.bindings && w.bindings[n] == c.(status := base)
    ensures var w1 := PutStatus(w, n, c.status);
      Advance(Go(w, n, c, base, RotateSave), n, ch) == Go(w1, n, w1.bindings[n], c.status, ReadyCheck)
  {
    var w1 := PutStatus(w, n, c.status);
    GoGo(w1, n, c, base, RotateSave, w1.bindings[n], c.status, ReadyCheck);
  }

  lemma MaintainCall(w: World, n: Name, c: Binding, ch: Choice)
    requires Calm(ch) && c.status.readyCond == Some(true) && c.stale.None? && !c.forceRotate
    ensures Advance(Go(w, n, c, c.status, ReadyCheck), n, ch) == Go(w, n, c, c.status, Maintain)
  {
    GoGo(w, n, c, c.status, ReadyCheck, c, c.status, Maintain);
  }

  lemma MaintainedCall(w: World, n: Name, c: Binding, b: Id, ch: Choice)
    requires Calm(ch) && c.status.id == Some(b) && b in w.sm && w.sm[b].provisioning == Done
    ensures Advance(Go(w, n, c, c.status, Maintain), n, ch) == Go(w, n, c, c.status, MaintainStore)
  {
    GoGo(w, n, c, c.status, Maintain, c, c.status, MaintainStore);
  }

  lemma StoredCall(w: World, n: Name, c: Binding, b: Id, ch: Choice)
    requires Calm(ch) && c.status.id == Some(b) && c.status == c.status.Success()
    ensures Advance(Go(w, n, c, c.status, MaintainStore), n, ch) == Go(StoreSecret(w, n, b), n, c, c.status, Save)
  {
    GoGo(StoreSecret(w, n, b), n, c, c.status, MaintainStore, c, c.status, Save);
  }

  /** The world once the original has dropped the condition. */
  function Dropped(w: World, n: Name, b: Id): World
    requires n in w.bindings
  {
    var o := w.bindings[n];
    w.(bindings := w.bindings[n := o.(status := o.status.(rotation := NotRotating), rv := w.clock + 1)],
       secrets := w.secrets[n := b], clock := w.clock + 2)
  }

  lemma DroppedIs(w: World, n: Name, b: Id)
    requires n in w.bindings
    ensures var s := w.bindings[n].status.(rotation := NotRotating);
      PutStatus(StoreSecret(PutStatus(w, n, s), n, b), n, s) == Dropped(w, n, b)
  {
  }

  lemma ToMaintain(w: World, n: Name, b: Id, ch: Choice)
    requires Rotated(w, n, b) && Calm(ch)
    ensures var s := w.bindings[n].status.(rotation := NotRotating);
      var w1 := PutStatus(w, n, s);
      Pass(w, n, ch) == Drain(Go(w1, n, w1.bindings[n], s, ReadyCheck), n, ch, 9)
  {
    var o := w.bindings[n];
    var s := o.status.(rotation := NotRotating);
    var w1 := PutStatus(w, n, s);
    var c1 := w1.bindings[n];
    assert Begin(w, n) == Go(w, n, o, o.status, FetchInstance);
    hide Drain, Advance, Go, PutStatus;
    FetchCall(w, n, o, ch);
    Calls(w, n, o, o.status, FetchInstance, w, o, o.status, CheckExists, ch, 14);
    CheckCall(w, n, o, ch);
    Calls(w, n, o, o.status, CheckExists, w, o, o.status, AddFinalizer, ch, 13);
    FinalizerCall(w, n, o, ch);
    Calls(w, n, o, o.status, AddFinalizer, w, o, o.status, RotateAnnotation, ch, 12);
    RotateCall(w, n, o, ch);
    Calls(w, n, o, o.status, RotateAnnotation, w, o.(status := s), o.status, RotateSave, ch, 11);
    DropCall(w, n, o.(status := s), o.status, ch);
    Calls(w, n, o.(status := s), o.status, RotateSave, w1, c1, s, ReadyCheck, ch, 10);
  }

  /** One undisturbed pass: the original no longer says that it rotates, and shows its new binding. */
  lemma ConditionDropped(w: World, n: Name, b: Id, ch: Choice)
    requires Rotated(w, n, b) && Calm(ch)
    ensures Pass(w, n, ch) == Dropped(w, n, b)
  {
    ToMaintain(w, n, b, ch);
    DroppedIs(w, n, b);
    var s := w.bindings[n].status.(rotation := NotRotating);
    var w1 := PutStatus(w, n, s);
    var c1 := w1.bindings[n];
    var w2 := StoreSecret(w1, n, b);
    assert w1.sm == w.sm && c1 == w.bindings[n].(status := s, rv := w.clock) && w1.procs == w.procs && n in w2.bindings && w2.bindings[n] == c1;
    hide Drain, Advance, Go, PutStatus, Pass, Dropped, StoreSecret;
    MaintainCall(w1, n, c1, ch);
    Calls(w1, n, c1, s, ReadyCheck, w1, c1, s, Maintain, ch, 9);
    MaintainedCall(w1, n, c1, b, ch);
    Calls(w1, n, c1, s, Maintain, w1, c1, s, MaintainStore, ch, 8);
    StoredCall(w1, n, c1, b, ch);
    assert w2.procs == w.procs by { StoreApart(w1, n, b); }
    Calls(w1, n, c1, s, MaintainStore, w2, c1, s, Save, ch, 7);
    SaveCall(w2, n, c1, s, ch, 6);
  }

  lemma StoreApart(w: World, n: Name, b: Id)
    ensures StoreSecret(w, n, b).procs == w.procs
  {
  }

  // ----- the backup goes

  /** A backup of the original `n` that holds its binding. */
  predicate Kept(w: World, m: Name, n: Name, b: Id) {
    && m in w.bindings && m !in w.procs && b in w.sm
    && var o := w.bindings[m];
    && !o.deleting && o.finalizer && o.stale.Some? && o.orig == Some(n) && o.policy.Some?
    && o.status == o.status.WithId(b).Success() && o.status.opUrl.None? && o.status.rotation == NotRotating
  }

  /** One whose original is ready. */
  predicate Expiring(w: World, m: Name, n: Name, b: Id) {
    Kept(w, m, n, b) && n in w.bindings && w.bindings[n].status.readyCond == Some(true)
  }

  lemma ExpiredCall(w: World, m: Name, c: Binding, ch: Choice)
    requires Calm(ch) && ch.due && c.status.readyCond == Some(true) && c.stale.Some? && c.policy.Some? && c.orig.Some?
    ensures Advance(Go(w, m, c, c.status, ReadyCheck), m, ch) == Go(w, m, c, c.status, FetchOriginal)
  {
    GoGo(w, m, c, c.status, ReadyCheck, c, c.status, FetchOriginal);
  }

  lemma LookCall(w: World, m: Name, c: Binding, ch: Choice)
    requires Calm(ch) && c.orig.Some? && c.orig.value in w.bindings && w.bindings[c.orig.value].status.readyCond == Some(true)
    ensures Advance(Go(w, m, c, c.status, FetchOriginal), m, ch) == Go(w, m, c, c.status, DeleteSelf)
  {
    GoGo(w, m, c, c.status, FetchOriginal, c, c.status, DeleteSelf);
  }

  lemma MarkCall(w: World, m: Name, c: Binding, base: Status, ch: Choice)
    requires Calm(ch) && m in w.bindings && m !in w.procs
    ensures Advance(Go(w, m, c, base, DeleteSelf), m, ch) == DeleteObject(w, m)
  {
    assert w.procs[m := Proc(c, base, DeleteSelf)] - {m} == w.procs;
  }

  /** One undisturbed pass: the backup is marked for deletion. */
  lemma RetirementStarts(w: World, m: Name, n: Name, b: Id, ch: Choice)
    requires Expiring(w, m, n, b) && Calm(ch) && ch.due
    ensures Pass(w, m, ch) == DeleteObject(w, m)
  {
    var o := w.bindings[m];
    assert Begin(w, m) == Go(w, m, o, o.status, FetchInstance);
    assert DeleteObject(w, m).procs == w.procs;
    hide Drain, Advance, Go, DeleteObject;
    FetchCall(w, m, o, ch);
    Calls(w, m, o, o.status, FetchInstance, w, o, o.status, CheckExists, ch, 14);
    CheckCall(w, m, o, ch);
    Calls(w, m, o, o.status, CheckExists, w, o, o.status, AddFinalizer, ch, 13);
    FinalizerCall(w, m, o, ch);
    Calls(w, m, o, o.status, AddFinalizer, w, o, o.status, ReadyCheck, ch, 12);
    ExpiredCall(w, m, o, ch);
    Calls(w, m, o, o.status, ReadyCheck, w, o, o.status, FetchOriginal, ch, 11);
    LookCall(w, m, o, ch);
    Calls(w, m, o, o.status, FetchOriginal, w, o, o.status, DeleteSelf, ch, 10);
    MarkCall(w, m, o, o.status, ch);
    Stops(w, m, o, o.status, DeleteSelf, DeleteObject(w, m), ch, 9);
  }

  /** A resource marked for deletion that records a binding, and not that it is being removed. */
  predicate Leaving(w: World, m: Name, b: Id) {
    && m in w.bindings && m !in w.procs
    && var o := w.bindings[m];
    && o.deleting && o.finalizer && o.status.id == Some(b) && !Unbinds(o.status) && o.status.HasConditions()
  }

  /** The status records an unbind that SM carries out. */
  predicate Unbinds(s: Status) {
    s.opUrl.Some? && s.opType == Some(Delete)
  }

  lemma LeaveCall(w: World, m: Name, c: Binding, ch: Choice)
    requires Calm(ch) && c.deleting && c.finalizer && !Unbinds(c.status)
    ensures Advance(Go(w, m, c, c.status, FetchInstance), m, ch) ==
            Go(w, m, c, c.status, if c.status.id.None? then DeleteQuery else DeleteUnbind)
  {
    GoGo(w, m, c, c.status, FetchInstance, c, c.status, if c.status.id.None? then DeleteQuery else DeleteUnbind);
  }

  lemma UnbindCall(w: World, m: Name, c: Binding, b: Id, ch: Choice)
    requires Calm(ch) && (ch.async ==> b !in w.sm) && c.status.id == Some(b)
    ensures Advance(Go(w, m, c, c.status, DeleteUnbind), m, ch) ==
            Go(w.(sm := w.sm - {b}), m, c.(status := c.status.WithoutId()), c.status, DeleteSave)
  {
    assert b !in w.sm ==> w.sm - {b} == w.sm;
    GoGo(w.(sm := w.sm - {b}), m, c, c.status, DeleteUnbind, c.(status := c.status.WithoutId()), c.status, DeleteSave);
  }

  lemma UnboundCall(w: World, m: Name, c: Binding, base: Status, ch: Choice)
    requires Calm(ch) && m in w.bindings && w.bindings[m] == c.(status := base)
    ensures var w1 := PutStatus(w, m, c.status);
      Advance(Go(w, m, c, base, DeleteSave), m, ch) == Go(w1, m, w1.bindings[m], c.status, DeleteDropSecret)
  {
    var w1 := PutStatus(w, m, c.status);
    GoGo(w1, m, c, base, DeleteSave, w1.bindings[m], c.status, DeleteDropSecret);
  }

  lemma DropSecretCall(w: World, m: Name, c: Binding, ch: Choice)
    requires Calm(ch)
    ensures Advance(Go(w, m, c, c.status, DeleteDropSecret), m, ch) == Go(DropSecret(w, m), m, c, c.status, DeleteRemoveFinalizer)
  {
    GoGo(DropSecret(w, m), m, c, c.status, DeleteDropSecret, c, c.status, DeleteRemoveFinalizer);
  }

  lemma ReleaseCall(w: World, m: Name, c: Binding, ch: Choice)
    requires Calm(ch) && m in w.bindings && w.bindings[m] == c && c.finalizer && c.deleting && m !in w.procs
    ensures Advance(Go(w, m, c, c.status, DeleteRemoveFinalizer), m, ch) == w.(bindings := w.bindings - {m}, clock := w.clock + 1)
  {
    assert w.procs[m := Proc(c, c.status, DeleteRemoveFinalizer)] - {m} == w.procs;
  }

  /** The world without the resource, its binding and its secret. */
  function Left(w: World, m: Name, b: Id): World {
    w.(bindings := w.bindings - {m}, sm := w.sm - {b}, secrets := w.secrets - {m}, clock := w.clock + 2)
  }

  /** One undisturbed pass when SM works at once, or does not know the binding: resource, binding and secret are gone. */
  lemma DeletionCompletes(w: World, m: Name, b: Id, ch: Choice)
    requires Leaving(w, m, b) && Calm(ch) && (ch.async ==> b !in w.sm)
    ensures Pass(w, m, ch) == Left(w, m, b)
  {
    var o := w.bindings[m];
    var s := o.status.WithoutId();
    var w1 := w.(sm := w.sm - {b});
    var w2 := PutStatus(w1, m, s);
    var c2 := w2.bindings[m];
    var w3 := DropSecret(w2, m);
    LeftIs(w, m, b);
    assert Begin(w, m) == Go(w, m, o, o.status, FetchInstance);
    assert c2 == o.(status := s, rv := w.clock) && w3.bindings == w2.bindings && w3.procs == w.procs;
    hide Drain, Advance, Go, PutStatus, DropSecret, Left, Status.HasConditions;
    LeaveCall(w, m, o, ch);
    Calls(w, m, o, o.status, FetchInstance, w, o, o.status, DeleteUnbind, ch, 14);
    UnbindCall(w, m, o, b, ch);
    Calls(w, m, o, o.status, DeleteUnbind, w1, o.(status := s), o.status, DeleteSave, ch, 13);
    UnboundCall(w1, m, o.(status := s), o.status, ch);
    Calls(w1, m, o.(status := s), o.status, DeleteSave, w2, c2, s, DeleteDropSecret, ch, 12);
    DropSecretCall(w2, m, c2, ch);
    Calls(w2, m, c2, s, DeleteDropSecret, w3, c2, s, DeleteRemoveFinalizer, ch, 11);
    ReleaseCall(w3, m, c2, ch);
    Stops(w3, m, c2, s, DeleteRemoveFinalizer, w3.(bindings := w3.bindings - {m}, clock := w3.clock + 1), ch, 10);
  }

  lemma LeftIs(w: World, m: Name, b: Id)
    requires m in w.bindings
    ensures var w3 := DropSecret(PutStatus(w.(sm := w.sm - {b}), m, w.bindings[m].status.WithoutId()), m);
      w3.(bindings := w3.bindings - {m}, clock := w3.clock + 1) == Left(w, m, b)
  {
    var bs := w.bindings[m := w.bindings[m].(status := w.bindings[m].status.WithoutId(), rv := w.clock)];
    assert bs - {m} == w.bindings - {m};
  }

  // ----- the whole rotation

  /** One reconcile of a resource that exists and is not being reconciled. */
  ghost function Reconciled(w: World, n: Name, ch: Choice): World {
    if n in w.bindings && n !in w.procs then Pass(w, n, ch) else w
  }

  /** The original rotates, its backup adopts, the original settles, and the backup's time is up: it marks itself, and goes. */
  ghost function Ended(w: World, n: Name, s: string): World {
    var m := n + s;
    var w1 := Reconciled(w, n, Plain(s));
    var w2 := Reconciled(w1, m, Plain(s));
    var w3 := Reconciled(w2, n, Plain(s));
    var w4 := Reconciled(w3, m, Plain(s).(due := true));
    Reconciled(w4, m, Plain(s))
  }

  /** An original about to rotate a binding that is in order, with the backup's name free everywhere. */
  ghost predicate Ripe(w: World, n: Name, s: string) {
    && Rotatable(w, n, s) && w.bindings[n].stale.None? && n + s !in w.procs && n + s !in w.secrets && Nameless(w.sm, n + s)
    && var b := w.bindings[n].status.id.value; w.sm[b].provisioning == Done && w.sm[b].unbinding == NotAsked
  }

  lemma RipeAdopts(w: World, n: Name, s: string)
    requires Ripe(w, n, s)
    ensures var b := w.bindings[n].status.id.value;
      var w1 := Reconciled(w, n, Plain(s));
      Adopting(w1, n + s, b) && Rotated(w1, n, w.nextId) && w.nextId != b
  {
    RotationCompletes(w, n, s);
    RipeFacts(w, n, s);
    assert n + s != n by { assert |n + s| > |n|; }
    var o := w.bindings[n];
    var b := o.status.id.value;
    ReconciledIs(w, n, Plain(s));
    OnlyOld(w.sm, Pass(w, n, Plain(s)).sm, b, w.nextId, w.sm[b].(name := o.externalName + s, k8sName := Some(n + s)),
            SmBinding(o.externalName, Some(n), Done, NotAsked, n), n + s);
    hide Pass, HasBackup, Reconciled, Named;
  }

  lemma OnlyOld(sm: Sm, sm1: Sm, b: Id, b1: Id, old1: SmBinding, new1: SmBinding, m: Name)
    requires Nameless(sm, m) && new1.k8sName != Some(m) && sm1 == sm[b := old1][b1 := new1]
    ensures forall b' :: Named(sm1, b', m) ==> b' == b
  {
    forall b' | Named(sm1, b', m)
      ensures b' == b
    {
      assert !Named(sm, b', m);
    }
  }

  lemma AdoptedRests(w: World, n: Name, m: Name, b: Id, b1: Id)
    requires Adopting(w, m, b) && Rotated(w, n, b1) && n != m && w.bindings[m].stale.Some? && w.bindings[m].orig == Some(n)
    requires w.bindings[m].policy.Some?
    ensures var w2 := Adopted(w, m, b);
      Rotated(w2, n, b1) && n in w2.bindings && Expiring(Dropped(w2, n, b1), m, n, b)
  {
  }

  lemma MarkedLeaves(w: World, m: Name, n: Name, b: Id)
    requires Expiring(w, m, n, b)
    ensures Leaving(DeleteObject(w, m), m, b)
  {
  }

  /** What is left of a rotation. */
  lemma EndedWorld(w: World, n: Name, m: Name, b: Id, b1: Id)
    requires m in w.bindings && n in w.bindings && n != m && w.bindings[m].stale.Some?
    ensures var w2 := Adopted(w, m, b);
      && n in w2.bindings
      && var w3 := Dropped(w2, n, b1);
      && m in w3.bindings && w3.bindings[m].finalizer
      && var w5 := Left(DeleteObject(w3, m), m, b);
      && w5.bindings.Keys == w.bindings.Keys - {m} && w5.sm == w.sm - {b} && w5.procs == w.procs
      && w5.secrets == w.secrets[n := b1] - {m}
      && w5.bindings[n] == w.bindings[n].(status := w.bindings[n].status.(rotation := NotRotating), rv := w5.bindings[n].rv)
      && (forall x :: x in w.bindings && x != n && x != m ==> w5.bindings[x] == w.bindings[x])
  {
    var w3 := Dropped(Adopted(w, m, b), n, b1);
    assert w3.secrets - {m} == w.secrets[n := b1] - {m};
  }

  /** The four reconciles after the rotation itself. */
  lemma Finishing(w: World, n: Name, m: Name, b: Id, b1: Id, ch: Choice)
    requires Adopting(w, m, b) && Rotated(w, n, b1) && n != m && w.bindings[m].stale.Some? && w.bindings[m].orig == Some(n)
    requires w.bindings[m].policy.Some? && Calm(ch) && !ch.async
    ensures var w4 := Reconciled(Reconciled(Reconciled(w, m, ch), n, ch), m, ch.(due := true));
      && n in Adopted(w, m, b).bindings && m in Dropped(Adopted(w, m, b), n, b1).bindings
      && Reconciled(w4, m, ch) == Left(DeleteObject(Dropped(Adopted(w, m, b), n, b1), m), m, b)
  {
    hide Pass;
    AdoptionCompletes(w, m, b, ch);
    AdoptedRests(w, n, m, b, b1);
    hide Adopting, Rotated, Expiring, Leaving, Adopted, Dropped, DeleteObject, Left;
    var w2 := Adopted(w, m, b);
    AdoptingHere(w, m, b);
    ConditionDropped(w2, n, b1, ch);
    RotatedHere(w2, n, b1);
    var w3 := Dropped(w2, n, b1);
    ExpiringHere(w3, m, n, b);
    RetirementStarts(w3, m, n, b, ch.(due := true));
    MarkedLeaves(w3, m, n, b);
    var w4 := DeleteObject(w3, m);
    LeavingHere(w4, m, b);
    DeletionCompletes(w4, m, b, ch);
  }

  /**
   A rotation ends: after five undisturbed reconciles the resource holds and shows a new binding and says
   so, and neither the backup nor the old binding nor anything else of the rotation is left.
   */
  lemma RotationEnds(w: World, n: Name, s: string)
    requires Ripe(w, n, s)
    ensures var o := w.bindings[n];
      var b, b1 := o.status.id.value, w.nextId;
      var w5 := Ended(w, n, s);
      && w5.procs == w.procs && w5.bindings.Keys == w.bindings.Keys
      && (forall x :: x in w.bindings && x != n ==> w5.bindings[x] == w.bindings[x])
      && w5.sm == (w.sm - {b})[b1 := SmBinding(o.externalName, Some(n), Done, NotAsked, n)]
      && w5.secrets == w.secrets[n := b1]
      && w5.bindings[n].status == o.status.Rotated().WithId(b1).Success().(rotation := NotRotating)
      && !w5.bindings[n].forceRotate && !w5.bindings[n].deleting
  {
    var m := n + s;
    var o := w.bindings[n];
    var b, b1 := o.status.id.value, w.nextId;
    assert m != n by { assert |n + s| > |n|; }
    RotationCompletes(w, n, s);
    RipeAdopts(w, n, s);
    RipeFacts(w, n, s);
    var w1 := Reconciled(w, n, Plain(s));
    hide Pass, HasBackup, Ripe, Rotatable, Adopting, Rotated, Adopted, Dropped, DeleteObject, Left, Reconciled;
    assert w1 == Pass(w, n, Plain(s)) by { ReconciledIs(w, n, Plain(s)); }
    Finishing(w1, n, m, b, b1, Plain(s));
    EndedWorld(w1, n, m, b, b1);
    RotatedSm(w.sm, b, b1, SmBinding(o.externalName + s, Some(m), w.sm[b].provisioning, w.sm[b].unbinding, w.sm[b].creator),
              SmBinding(o.externalName, Some(n), Done, NotAsked, n));
    RotatedSecrets(w.secrets, n, m, b1);
  }

  lemma RipeFacts(w: World, n: Name, s: string)
    requires Ripe(w, n, s)
    ensures n in w.bindings && n !in w.procs && n + s !in w.secrets && n + s !in w.bindings
    ensures w.bindings[n].status.id.Some? && w.bindings[n].status.id.value in w.sm
  {
  }

  lemma ReconciledIs(w: World, n: Name, ch: Choice)
    requires n in w.bindings && n !in w.procs
    ensures Reconciled(w, n, ch) == Pass(w, n, ch)
  {
    hide Pass;
  }

  lemma RotatedSecrets(secrets: map<Name, Id>, n: Name, m: Name, b1: Id)
    requires m !in secrets && m != n
    ensures secrets[n := b1][n := b1] - {m} == secrets[n := b1]
  {
  }

  lemma RotatedSm(sm: Sm, b: Id, b1: Id, old1: SmBinding, new1: SmBinding)
    requires b != b1
    ensures sm[b := old1][b1 := new1] - {b} == (sm - {b})[b1 := new1]
  {
  }

  lemma AdoptingHere(w: World, m: Name, b: Id)
    requires Adopting(w, m, b)
    ensures m in w.bindings && m !in w.procs
  {
  }

  lemma RotatedHere(w: World, n: Name, b: Id)
    requires Rotated(w, n, b)
    ensures n in w.bindings && n !in w.procs
  {
  }

  lemma ExpiringHere(w: World, m: Name, n: Name, b: Id)
    requires Expiring(w, m, n, b)
    ensures m in w.bindings && m !in w.procs
  {
  }

  lemma LeavingHere(w: World, m: Name, b: Id)
    requires Leaving(w, m, b)
    ensures m in w.bindings && m !in w.procs
  {
  }
}
