/** What one undisturbed pass of a rotation achieves. */
module BindingProgress {
  import opened Options
  import opened Remote
  import opened BindingWorld
  import opened BindingReconciler
  import opened BindingInvariant

  /** Answers without error or delay from a ready instance, and a random suffix. */
  function Plain(suffix: string): Choice {
    Choice(Ok, false, false, InService, false, false, false, suffix)
  }

  /** Answers without error, from a ready instance; whether SM works at once or later is left open. */
  predicate Calm(ch: Choice) {
    ch.call == Ok && !ch.flag && ch.instance == InService
  }

  ghost function Drain(w: World, n: Name, ch: Choice, fuel: nat): World
    decreases fuel
  {
    if n !in w.procs || fuel == 0 then w else Drain(Advance(w, n, ch), n, ch, fuel - 1)
  }

  /** One whole reconcile; none makes more than fourteen calls. */
  ghost function Pass(w: World, n: Name, ch: Choice): World
    requires n in w.bindings && n !in w.procs
  {
    Drain(Begin(w, n), n, ch, 14)
  }

  /** An original about to rotate, with nothing running, and a suffix that is free. */
  ghost predicate Rotatable(w: World, n: Name, s: string) {
    && n in w.bindings && n !in w.procs && s != "" && n + s !in w.bindings
    && var o := w.bindings[n];
    && !o.deleting && o.finalizer && o.policy.Some?
    && o.status.id.Some? && o.status.opUrl.None? && o.status.rotation == Preparing
    && var b := o.status.id.value;
    && b in w.sm && b < w.nextId && w.nextId !in w.sm && !HasBackup(w.bindings, b)
    && (forall b' :: Named(w.sm, b', n) ==> b' == b)
  }

  lemma DrainStep(w: World, n: Name, ch: Choice, fuel: nat)
    requires n in w.procs && fuel > 0
    ensures Drain(w, n, ch, fuel) == Drain(Advance(w, n, ch), n, ch, fuel - 1)
  {
    hide Advance;
  }

  lemma GoGo(w: World, n: Name, c: Binding, base: Status, pc: Pc, c1: Binding, base1: Status, pc1: Pc)
    ensures Go(Go(w, n, c, base, pc), n, c1, base1, pc1) == Go(w, n, c1, base1, pc1)
  {
    assert w.procs[n := Proc(c, base, pc)][n := Proc(c1, base1, pc1)] == w.procs[n := Proc(c1, base1, pc1)];
  }

  /** One call. */
  lemma Calls(w: World, n: Name, c: Binding, base: Status, pc: Pc, w1: World, c1: Binding, base1: Status, pc1: Pc, ch: Choice, fuel: nat)
    requires fuel > 0
    requires Advance(Go(w, n, c, base, pc), n, ch) == Go(w1, n, c1, base1, pc1)
    ensures Drain(Go(w, n, c, base, pc), n, ch, fuel) == Drain(Go(w1, n, c1, base1, pc1), n, ch, fuel - 1)
  {
    hide Advance, Drain;
    DrainStep(Go(w, n, c, base, pc), n, ch, fuel);
  }

  /** The world with the rotation annotation removed. */
  function Unannotated(w: World, n: Name): World
    requires n in w.bindings
  {
    if w.bindings[n].forceRotate then PutMeta(w, n, true, false) else w
  }

  lemma FetchCall(w: World, n: Name, c: Binding, ch: Choice)
    requires Calm(ch) && !c.deleting && c.status.opUrl.None? && c.status.id.Some?
    ensures Advance(Go(w, n, c, c.status, FetchInstance), n, ch) == Go(w, n, c, c.status, CheckExists)
  {
    GoGo(w, n, c, c.status, FetchInstance, c, c.status, CheckExists);
  }

  lemma CheckCall(w: World, n: Name, c: Binding, ch: Choice)
    requires Calm(ch) && c.status.id.Some? && c.status.id.value in w.sm
    ensures Advance(Go(w, n, c, c.status, CheckExists), n, ch) == Go(w, n, c, c.status, AddFinalizer)
  {
    GoGo(w, n, c, c.status, CheckExists, c, c.status, AddFinalizer);
  }

  lemma FinalizerCall(w: World, n: Name, c: Binding, ch: Choice)
    requires Calm(ch) && c.finalizer
    ensures Advance(Go(w, n, c, c.status, AddFinalizer), n, ch) ==
            Go(w, n, c, c.status, if c.status.rotation != NotRotating then RotateAnnotation else ReadyCheck)
  {
    GoGo(w, n, c, c.status, AddFinalizer, c, c.status, if c.status.rotation != NotRotating then RotateAnnotation else ReadyCheck);
  }

  lemma ToRotateAnnotation(w: World, n: Name, s: string, ch: Choice)
    requires Calm(ch) && ch.suffix == s
    requires Rotatable(w, n, s)
    ensures var o := w.bindings[n];
      Pass(w, n, ch) == Drain(Go(w, n, o, o.status, RotateAnnotation), n, ch, 11)
  {
    var o := w.bindings[n];
    assert Begin(w, n) == Go(w, n, o, o.status, FetchInstance);
    hide Drain, Advance, Go, HasBackup;
    FetchCall(w, n, o, ch);
    Calls(w, n, o, o.status, FetchInstance, w, o, o.status, CheckExists, ch, 14);
    CheckCall(w, n, o, ch);
    Calls(w, n, o, o.status, CheckExists, w, o, o.status, AddFinalizer, ch, 13);
    FinalizerCall(w, n, o, ch);
    Calls(w, n, o, o.status, AddFinalizer, w, o, o.status, RotateAnnotation, ch, 12);
  }

  lemma AnnotationCall(w: World, n: Name, c: Binding, s: string, ch: Choice)
    requires Calm(ch) && ch.suffix == s
    requires n in w.bindings && c == w.bindings[n] && c.finalizer && !c.deleting && c.status.id.Some? && c.status.rotation == Preparing
    ensures var w1 := Unannotated(w, n);
      n in w1.bindings &&
      Advance(Go(w, n, c, c.status, RotateAnnotation), n, ch) == Go(w1, n, w1.bindings[n], c.status, RotateList)
  {
    var w1 := Unannotated(w, n);
    GoGo(w1, n, c, c.status, RotateAnnotation, w1.bindings[n], c.status, RotateList);
  }

  lemma ToRotateList(w: World, n: Name, s: string, ch: Choice)
    requires Calm(ch) && ch.suffix == s
    requires Rotatable(w, n, s)
    ensures var w1 := Unannotated(w, n);
      n in w1.bindings &&
      var c := w1.bindings[n];
      Drain(Go(w, n, w.bindings[n], w.bindings[n].status, RotateAnnotation), n, ch, 11) ==
        Drain(Go(w1, n, c, c.status, RotateList), n, ch, 10)
  {
    var o := w.bindings[n];
    var w1 := Unannotated(w, n);
    var c := w1.bindings[n];
    assert c.status == o.status;
    hide Drain, Advance, Go, HasBackup, Unannotated;
    AnnotationCall(w, n, o, s, ch);
    Calls(w, n, o, o.status, RotateAnnotation, w1, c, c.status, RotateList, ch, 11);
  }

  /** The backup made from a resource. */
  function BackupOf(w: World, c: Binding, n: Name, s: string): Binding {
    NewBinding(w, c.status.id, Some(n), c.externalName + s, Some(false))
  }

  function Renamed(w: World, b: Id, c: Binding, n: Name, s: string): World
    requires b in w.sm
  {
    w.(sm := w.sm[b := w.sm[b].(name := c.externalName + s, k8sName := Some(n + s))])
  }

  lemma ListCall(w: World, n: Name, c: Binding, b: Id, s: string, ch: Choice)
    requires Calm(ch) && ch.suffix == s
    requires c.status.id == Some(b) && !HasBackup(w.bindings, b)
    ensures Advance(Go(w, n, c, c.status, RotateList), n, ch) == Go(w, n, c, c.status, RenameFirst(s))
  {
    hide HasBackup;
    GoGo(w, n, c, c.status, RotateList, c, c.status, RenameFirst(s));
  }

  lemma FirstPatchCall(w: World, n: Name, c: Binding, b: Id, s: string, ch: Choice)
    requires Calm(ch) && ch.suffix == s
    requires c.status.id == Some(b) && b in w.sm
    ensures Advance(Go(w, n, c, c.status, RenameFirst(s)), n, ch) ==
            Go(SmRenameFirst(w, b, c.externalName + s), n, c, c.status, RenameSecond(s))
  {
    GoGo(SmRenameFirst(w, b, c.externalName + s), n, c, c.status, RenameFirst(s), c, c.status, RenameSecond(s));
  }

  lemma SecondPatchCall(w: World, n: Name, c: Binding, b: Id, s: string, ch: Choice)
    requires Calm(ch) && ch.suffix == s
    requires c.status.id == Some(b) && b in w.sm
    ensures Advance(Go(w, n, c, c.status, RenameSecond(s)), n, ch) ==
            Go(SmRenameSecond(w, b, n + s), n, c, c.status, CreateBackup(s))
  {
    GoGo(SmRenameSecond(w, b, n + s), n, c, c.status, RenameSecond(s), c, c.status, CreateBackup(s));
  }

  lemma TwoPatches(w: World, b: Id, c: Binding, n: Name, s: string)
    requires b in w.sm
    ensures b in SmRenameFirst(w, b, c.externalName + s).sm
    ensures SmRenameSecond(SmRenameFirst(w, b, c.externalName + s), b, n + s) == Renamed(w, b, c, n, s)
  {
    var w1 := SmRenameFirst(w, b, c.externalName + s);
    assert w1.sm[b := w1.sm[b].(k8sName := Some(n + s))] == Renamed(w, b, c, n, s).sm;
  }

  lemma ToCreateBackup(w: World, n: Name, s: string, ch: Choice, c: Binding, b: Id)
    requires Calm(ch) && ch.suffix == s
    requires n in w.bindings && c == w.bindings[n] && c.status.id == Some(b) && b in w.sm && !HasBackup(w.bindings, b)
    ensures Drain(Go(w, n, c, c.status, RotateList), n, ch, 10) ==
            Drain(Go(Renamed(w, b, c, n, s), n, c, c.status, CreateBackup(s)), n, ch, 7)
  {
    hide Drain, Advance, Go, HasBackup, SmRenameFirst, SmRenameSecond, Renamed;
    ListCall(w, n, c, b, s, ch);
    Calls(w, n, c, c.status, RotateList, w, c, c.status, RenameFirst(s), ch, 10);
    FirstPatchCall(w, n, c, b, s, ch);
    TwoPatches(w, b, c, n, s);
    var w1 := SmRenameFirst(w, b, c.externalName + s);
    Calls(w, n, c, c.status, RenameFirst(s), w1, c, c.status, RenameSecond(s), ch, 9);
    SecondPatchCall(w1, n, c, b, s, ch);
    Calls(w1, n, c, c.status, RenameSecond(s), Renamed(w, b, c, n, s), c, c.status, CreateBackup(s), ch, 8);
  }

  lemma BackupCall(w: World, n: Name, c: Binding, s: string, ch: Choice)
    requires Calm(ch) && ch.suffix == s
    requires c.policy.Some? && n + s !in w.bindings
    ensures Advance(Go(w, n, c, c.status, CreateBackup(s)), n, ch) ==
            Go(CreateObject(w, n + s, BackupOf(w, c, n, s)), n, c.(status := c.status.Rotated()), c.status, RotateSave)
  {
    GoGo(CreateObject(w, n + s, BackupOf(w, c, n, s)), n, c, c.status, CreateBackup(s), c.(status := c.status.Rotated()), c.status, RotateSave);
  }

  lemma RotateSaveCall(w: World, n: Name, c: Binding, base: Status, ch: Choice)
    requires Calm(ch)
    requires n in w.bindings && w.bindings[n].rv == c.rv
    ensures Advance(Go(w, n, c, base, RotateSave), n, ch) ==
            Go(PutStatus(w, n, c.status), n, c.(rv := w.clock), c.status, ReadyCheck)
  {
    GoGo(PutStatus(w, n, c.status), n, c, base, RotateSave, c.(rv := w.clock), c.status, ReadyCheck);
  }

  lemma ToReadyCheck(w: World, n: Name, s: string, ch: Choice, c: Binding)
    requires Calm(ch) && ch.suffix == s
    requires n in w.bindings && c == w.bindings[n] && c.policy.Some? && n + s !in w.bindings
    ensures var w1 := CreateObject(w, n + s, BackupOf(w, c, n, s));
      var c1 := c.(status := c.status.Rotated(), rv := w1.clock);
      n in w1.bindings &&
      Drain(Go(w, n, c, c.status, CreateBackup(s)), n, ch, 7) ==
        Drain(Go(PutStatus(w1, n, c1.status), n, c1, c1.status, ReadyCheck), n, ch, 5)
  {
    var w1 := CreateObject(w, n + s, BackupOf(w, c, n, s));
    var c0 := c.(status := c.status.Rotated());
    var c1 := c0.(rv := w1.clock);
    assert n in w1.bindings && w1.bindings[n] == c;
    hide Drain, Advance, Go, CreateObject, BackupOf, PutStatus, Status.Rotated;
    BackupCall(w, n, c, s, ch);
    Calls(w, n, c, c.status, CreateBackup(s), w1, c0, c.status, RotateSave, ch, 7);
    RotateSaveCall(w1, n, c0, c.status, ch);
    Calls(w1, n, c0, c.status, RotateSave, PutStatus(w1, n, c1.status), c1, c1.status, ReadyCheck, ch, 6);
  }

  lemma NoMatch(w: World, name: string, n: Name)
    requires forall b :: !Named(w.sm, b, n)
    ensures OnlyMatch(w, name, n) == None
  {
    assert forall b :: b in Matches(w, name, n) ==> Named(w.sm, b, n);
    assert Matches(w, name, n) == {};
  }

  lemma ReadyCall(w: World, n: Name, c: Binding, ch: Choice)
    requires Calm(ch)
    requires c.status.readyCond == Some(false) && c.status.id.None?
    ensures Advance(Go(w, n, c, c.status, ReadyCheck), n, ch) == Go(w, n, c, c.status, Query)
  {
    GoGo(w, n, c, c.status, ReadyCheck, c, c.status, Query);
  }

  lemma QueryCall(w: World, n: Name, c: Binding, ch: Choice)
    requires Calm(ch)
    requires forall b :: !Named(w.sm, b, n)
    ensures Advance(Go(w, n, c, c.status, Query), n, ch) == Go(w, n, c, c.status, Bind)
  {
    NoMatch(Go(w, n, c, c.status, Query), c.externalName, n);
    GoGo(w, n, c, c.status, Query, c, c.status, Bind);
  }

  lemma ToBind(w: World, n: Name, ch: Choice, c: Binding)
    requires Calm(ch)
    requires c.status.readyCond == Some(false) && c.status.id.None? && forall b :: !Named(w.sm, b, n)
    ensures Drain(Go(w, n, c, c.status, ReadyCheck), n, ch, 5) == Drain(Go(w, n, c, c.status, Bind), n, ch, 3)
  {
    hide Drain, Advance, Go;
    ReadyCall(w, n, c, ch);
    Calls(w, n, c, c.status, ReadyCheck, w, c, c.status, Query, ch, 5);
    QueryCall(w, n, c, ch);
    Calls(w, n, c, c.status, Query, w, c, c.status, Bind, ch, 4);
  }

  lemma BindCall(w: World, n: Name, c: Binding, ch: Choice)
    requires Calm(ch) && !ch.async
    ensures Advance(Go(w, n, c, c.status, Bind), n, ch) ==
            Go(SmBind(w, n, c.externalName, false), n, c, c.status, BindStore(w.nextId))
  {
    GoGo(SmBind(w, n, c.externalName, false), n, c, c.status, Bind, c, c.status, BindStore(w.nextId));
  }

  lemma StoreCall(w: World, n: Name, c: Binding, b: Id, ch: Choice)
    requires Calm(ch)
    ensures Advance(Go(w, n, c, c.status, BindStore(b)), n, ch) ==
            Go(StoreSecret(w, n, b), n, c.(status := c.status.WithId(b).Success()), c.status, Save)
  {
    GoGo(StoreSecret(w, n, b), n, c, c.status, BindStore(b), c.(status := c.status.WithId(b).Success()), c.status, Save);
  }

  lemma SaveCall(w: World, n: Name, c: Binding, base: Status, ch: Choice, fuel: nat)
    requires Calm(ch) && fuel > 0 && n in w.bindings && n !in w.procs && w.bindings[n].rv == c.rv
    ensures Drain(Go(w, n, c, base, Save), n, ch, fuel) == PutStatus(w, n, c.status)
  {
    var w0 := Go(w, n, c, base, Save);
    DrainStep(w0, n, ch, fuel);
    assert w0.procs - {n} == w.procs;
    assert Advance(w0, n, ch) == WriteStatus(w0, n, Proc(c, base, Save), ch, None) by { hide WriteStatus; }
    hide Advance;
    assert WriteStatus(w0, n, Proc(c, base, Save), ch, None) == PutStatus(w, n, c.status);
  }

  lemma ToEnd(w: World, n: Name, ch: Choice, c: Binding)
    requires Calm(ch) && !ch.async
    requires n in w.bindings && n !in w.procs && c == w.bindings[n]
    ensures var b := w.nextId;
      var w1 := StoreSecret(SmBind(w, n, c.externalName, false), n, b);
      Drain(Go(w, n, c, c.status, Bind), n, ch, 3) == PutStatus(w1, n, c.status.WithId(b).Success())
  {
    var b := w.nextId;
    var w1 := SmBind(w, n, c.externalName, false);
    var w2 := StoreSecret(w1, n, b);
    var done := c.status.WithId(b).Success();
    hide Drain, Advance, Go, PutStatus, Status.Success, Status.WithId;
    BindCall(w, n, c, ch);
    Calls(w, n, c, c.status, Bind, w1, c, c.status, BindStore(b), ch, 3);
    StoreCall(w1, n, c, b, ch);
    Calls(w1, n, c, c.status, BindStore(b), w2, c.(status := done), c.status, Save, ch, 2);
    SaveCall(w2, n, c.(status := done), c.status, ch, 1);
  }

  /** With the old binding renamed, the backup in place and the id given up. */
  function Cleared(w: World, n: Name, s: string): World
    requires n in w.bindings && w.bindings[n].status.id.Some? && w.bindings[n].status.id.value in w.sm
    requires w.bindings[n].finalizer && !w.bindings[n].deleting
  {
    var w1 := Unannotated(w, n);
    var c := w1.bindings[n];
    var w2 := Renamed(w1, c.status.id.value, c, n, s);
    var w3 := CreateObject(w2, n + s, BackupOf(w2, c, n, s));
    if n in w3.bindings then PutStatus(w3, n, c.status.Rotated()) else w3
  }

  lemma ToCleared(w: World, n: Name, s: string, ch: Choice)
    requires Calm(ch) && ch.suffix == s
    requires Rotatable(w, n, s)
    ensures var w4 := Cleared(w, n, s);
      n in w4.bindings &&
      Pass(w, n, ch) == Drain(Go(w4, n, w4.bindings[n], w4.bindings[n].status, ReadyCheck), n, ch, 5)
  {
    hide Drain, Pass, HasBackup, Go;
    var b := w.bindings[n].status.id.value;
    ToRotateAnnotation(w, n, s, ch);
    ToRotateList(w, n, s, ch);
    var w1 := Unannotated(w, n);
    var c := w1.bindings[n];
    assert !HasBackup(w1.bindings, b) by { BackupsUnchanged(w, n, b); }
    ToCreateBackup(w1, n, s, ch, c, b);
    var w2 := Renamed(w1, b, c, n, s);
    ToReadyCheck(w2, n, s, ch, c);
    assert |n + s| > |n|;
  }

  lemma ClearedFacts(w: World, n: Name, s: string)
    requires Rotatable(w, n, s)
    ensures var o := w.bindings[n];
      var b := o.status.id.value;
      var w4 := Cleared(w, n, s);
      && w4.procs == w.procs && w4.secrets == w.secrets && w4.nextId == w.nextId && w4.bindings.Keys == w.bindings.Keys + {n + s}
      && n in w4.bindings && w4.bindings[n].status == o.status.Rotated() && !w4.bindings[n].forceRotate
      && w4.bindings[n].externalName == o.externalName && w4.bindings[n].finalizer && !w4.bindings[n].deleting
      && w4.bindings[n].stale == o.stale
      && (forall m :: m in w.bindings && m != n ==> w4.bindings[m] == w.bindings[m])
      && w4.bindings[n + s].stale == Some(b) && w4.bindings[n + s].orig == Some(n)
      && w4.bindings[n + s].externalName == o.externalName + s && w4.bindings[n + s].status == FreshStatus
      && w4.bindings[n + s].policy == Some(false) && !w4.bindings[n + s].finalizer && !w4.bindings[n + s].deleting
      && w4.sm == w.sm[b := w.sm[b].(name := o.externalName + s, k8sName := Some(n + s))]
      && n + s != n
  {
    hide HasBackup;
    assert |n + s| > |n|;
  }

  /**
   One undisturbed pass rotates: the resource holds and shows a new binding under its own names, and a
   backup labelled with the old id exists under the names SM now shows for the old binding.
   */
  lemma RotationCompletes(w: World, n: Name, s: string)
    requires Rotatable(w, n, s)
    ensures var o := w.bindings[n];
      var b, b1 := o.status.id.value, w.nextId;
      var w1 := Pass(w, n, Plain(s));
      && w1.procs == w.procs && w1.bindings.Keys == w.bindings.Keys + {n + s}
      && (forall m :: m in w.bindings && m != n ==> w1.bindings[m] == w.bindings[m])
      && w1.bindings[n].status.id == Some(b1) && w1.bindings[n].status.ready && w1.bindings[n].status.succeeded == Some(true)
      && w1.bindings[n].status.rotation == Rotating && !w1.bindings[n].forceRotate
      && w1.bindings[n].status == o.status.Rotated().WithId(b1).Success()
      && w1.bindings[n].finalizer && !w1.bindings[n].deleting && w1.bindings[n].stale == o.stale
      && w1.bindings[n + s].stale == Some(b) && w1.bindings[n + s].orig == Some(n)
      && w1.bindings[n + s].externalName == o.externalName + s && w1.bindings[n + s].status == FreshStatus
      && w1.bindings[n + s].policy == Some(false) && !w1.bindings[n + s].finalizer && !w1.bindings[n + s].deleting
      && w1.sm == w.sm[b := w.sm[b].(name := o.externalName + s, k8sName := Some(n + s))]
                      [b1 := SmBinding(o.externalName, Some(n), Done, NotAsked, n)]
      && w1.secrets == w.secrets[n := b1]
  {
    ToCleared(w, n, s, Plain(s));
    ClearedFacts(w, n, s);
    var w4 := Cleared(w, n, s);
    var c := w4.bindings[n];
    NothingNamed(w, n, s, w.bindings[n].status.id.value, w4.sm);
    hide Drain, Pass, HasBackup, Cleared, Go;
    ToBind(w4, n, Plain(s), c);
    ToEnd(w4, n, Plain(s), c);
  }

  lemma BindLaterCall(w: World, n: Name, c: Binding, ch: Choice)
    requires Calm(ch) && ch.async
    ensures var s := c.status.WithId(w.nextId).Running(Create, w.nextId).Unsucceeded();
      Advance(Go(w, n, c, c.status, Bind), n, ch) ==
        Go(SmBind(w, n, c.externalName, true), n, c.(status := s), c.status, Save)
  {
    GoGo(SmBind(w, n, c.externalName, true), n, c, c.status, Bind,
         c.(status := c.status.WithId(w.nextId).Running(Create, w.nextId).Unsucceeded()), c.status, Save);
  }

  lemma ToStart(w: World, n: Name, ch: Choice, c: Binding)
    requires Calm(ch) && ch.async && n in w.bindings && n !in w.procs && c == w.bindings[n]
    ensures Drain(Go(w, n, c, c.status, Bind), n, ch, 3) ==
            PutStatus(SmBind(w, n, c.externalName, true), n, c.status.WithId(w.nextId).Running(Create, w.nextId).Unsucceeded())
  {
    var s := c.status.WithId(w.nextId).Running(Create, w.nextId).Unsucceeded();
    var w1 := SmBind(w, n, c.externalName, true);
    hide Drain, Advance, Go, PutStatus, Status.WithId, Status.Running, Status.Unsucceeded;
    BindLaterCall(w, n, c, ch);
    Calls(w, n, c, c.status, Bind, w1, c.(status := s), c.status, Save, ch, 3);
    SaveCall(w1, n, c.(status := s), c.status, ch, 2);
  }

  /**
   When SM creates the new binding later, one undisturbed pass leaves the same backup, the resource with the
   operation under way, and its secret as it was.
   */
  lemma RotationStarts(w: World, n: Name, s: string)
    requires Rotatable(w, n, s)
    ensures var o := w.bindings[n];
      var b, b1 := o.status.id.value, w.nextId;
      var w1 := Pass(w, n, Plain(s).(async := true));
      && w1.procs == w.procs && w1.bindings.Keys == w.bindings.Keys + {n + s}
      && (forall m :: m in w.bindings && m != n ==> w1.bindings[m] == w.bindings[m])
      && w1.bindings[n].status == o.status.Rotated().WithId(b1).Running(Create, b1).Unsucceeded() && !w1.bindings[n].forceRotate
      && w1.bindings[n].finalizer && !w1.bindings[n].deleting && w1.bindings[n].stale == o.stale
      && w1.bindings[n + s].stale == Some(b) && w1.bindings[n + s].orig == Some(n)
      && w1.bindings[n + s].externalName == o.externalName + s && w1.bindings[n + s].status == FreshStatus
      && w1.bindings[n + s].policy == Some(false) && !w1.bindings[n + s].finalizer && !w1.bindings[n + s].deleting
      && w1.sm == w.sm[b := w.sm[b].(name := o.externalName + s, k8sName := Some(n + s))]
                      [b1 := SmBinding(o.externalName, Some(n), Pending, NotAsked, n)]
      && w1.secrets == w.secrets
  {
    var ch := Plain(s).(async := true);
    ToCleared(w, n, s, ch);
    ClearedFacts(w, n, s);
    var w4 := Cleared(w, n, s);
    var c := w4.bindings[n];
    NothingNamed(w, n, s, w.bindings[n].status.id.value, w4.sm);
    hide Drain, Pass, HasBackup, Cleared, Go, PutStatus, SmBind, Rotatable, Status.Rotated, Status.WithId, Status.Running,
         Status.Unsucceeded;
    assert c.status.readyCond == Some(false) && c.status.id.None? by { RotatedUnready(w.bindings[n].status); }
    ToBind(w4, n, ch, c);
    ToStart(w4, n, ch, c);
    BoundLater(w4, n, c.externalName, c.status.WithId(w4.nextId).Running(Create, w4.nextId).Unsucceeded());
  }

  lemma RotatedUnready(s: Status)
    ensures s.Rotated().readyCond == Some(false) && s.Rotated().id.None?
  {
  }

  lemma BoundLater(w: World, n: Name, name: string, s: Status)
    requires n in w.bindings
    ensures var w1 := PutStatus(SmBind(w, n, name, true), n, s);
      && w1.bindings == w.bindings[n := w.bindings[n].(status := s, rv := w.clock)] && w1.secrets == w.secrets
      && w1.procs == w.procs && w1.sm == w.sm[w.nextId := SmBinding(name, Some(n), Pending, NotAsked, n)]
  {
  }

  lemma BackupsUnchanged(w: World, n: Name, b: Id)
    requires n in w.bindings && w.bindings[n].finalizer && !w.bindings[n].deleting && !HasBackup(w.bindings, b)
    ensures !HasBackup(Unannotated(w, n).bindings, b)
  {
    var bs1 := Unannotated(w, n).bindings;
    if m :| m in bs1 && bs1[m].stale == Some(b) {
      assert m in w.bindings && w.bindings[m].stale == Some(b);
    }
  }

  lemma NothingNamed(w: World, n: Name, s: string, b: Id, sm: Sm)
    requires Rotatable(w, n, s) && w.bindings[n].status.id == Some(b)
    requires sm == w.sm[b := w.sm[b].(name := w.bindings[n].externalName + s, k8sName := Some(n + s))]
    ensures forall b' :: !Named(sm, b', n)
  {
    hide HasBackup;
    assert |n + s| > |n|;
    forall b'
      ensures !Named(sm, b', n)
    {
      if b' != b {
        assert Named(w.sm, b', n) <==> Named(sm, b', n);
      }
    }
  }
}
