/**
 What each undisturbed reconcile of a binding leaves in the two stores: creation, recovery, cleanup,
 maintenance, and the states that no reconcile changes.
 */
module BindingPasses {
  import opened Options
  import opened Remote
  import opened BindingWorld
  import opened BindingReconciler
  import opened BindingInvariant
  import opened BindingProgress
  import opened BindingEnds
  import opened BindingLater

  // ----- what a reconcile writes

  /** The resource has the finalizer or not, and this status; no other resource, and no reconcile, has changed. */
  predicate Written(w: World, w1: World, n: Name, finalizer: bool, s: Status) {
    && n in w.bindings && n in w1.bindings && w1.procs == w.procs && w1.nextId >= w.nextId
    && w1.bindings == w.bindings[n := w.bindings[n].(finalizer := finalizer, status := s, rv := w1.bindings[n].rv)]
  }

  /** The same, with secrets and SM left alone. */
  predicate OnlyWritten(w: World, w1: World, n: Name, finalizer: bool, s: Status) {
    Written(w, w1, n, finalizer, s) && w1.secrets == w.secrets && w1.sm == w.sm && w1.nextId == w.nextId
  }

  predicate Unmarked(w: World, n: Name) {
    n in w.bindings && n !in w.procs && !w.bindings[n].deleting
  }

  /** What the conditions say besides success. */
  predicate SameReport(s1: Status, s: Status) {
    s1.ready == s.ready && s1.readyCond == Some(s.ready) && s1.rotation == s.rotation && s1.pendingTermination == s.pendingTermination
  }

  // ----- a resource without conditions gets them first

  function Started(s: Status): Status {
    s.(ready := false, succeeded := Some(false), readyCond := Some(false))
  }

  /** The world with the first conditions of the resource. */
  function WithConditions(w: World, n: Name): World
    requires n in w.bindings
  {
    if w.bindings[n].status.HasConditions() then w else PutStatus(w, n, Started(w.bindings[n].status))
  }

  lemma ConditionsCall(w: World, n: Name, c: Binding, ch: Choice)
    requires Calm(ch) && n in w.bindings && c == w.bindings[n]
    ensures var w1 := PutStatus(w, n, Started(c.status));
      Advance(Go(w, n, c, c.status, InitConditions), n, ch) == Go(w1, n, w1.bindings[n], Started(c.status), FetchInstance)
  {
    var w1 := PutStatus(w, n, Started(c.status));
    GoGo(w1, n, c, c.status, InitConditions, w1.bindings[n], Started(c.status), FetchInstance);
  }

  /** From there on a pass is the same; it has at least thirteen calls left. */
  lemma ToFetch(w: World, n: Name, ch: Choice) returns (fuel: nat)
    requires Calm(ch) && n in w.bindings && n !in w.procs
    ensures var w1 := WithConditions(w, n);
      && n in w1.bindings && w1.bindings[n].status.HasConditions() && fuel >= 13
      && Pass(w, n, ch) == Drain(Go(w1, n, w1.bindings[n], w1.bindings[n].status, FetchInstance), n, ch, fuel)
  {
    var o := w.bindings[n];
    if o.status.HasConditions() {
      hide Drain;
      return 14;
    } else {
      var w1 := PutStatus(w, n, Started(o.status));
      var c1 := w1.bindings[n];
      assert Begin(w, n) == Go(w, n, o, o.status, InitConditions);
      assert c1.status == Started(o.status) && c1.status.HasConditions();
      hide Drain, Advance, Go, PutStatus, Started;
      ConditionsCall(w, n, o, ch);
      Calls(w, n, o, o.status, InitConditions, w1, c1, c1.status, FetchInstance, ch, 14);
      return 13;
    }
  }

  // ----- creation

  /** A resource that holds nothing, runs nothing and is not ready. */
  predicate Wanting(w: World, n: Name) {
    && Unmarked(w, n)
    && var s := w.bindings[n].status;
    && s.id.None? && s.opUrl.None? && s.rotation == NotRotating && (s.HasConditions() ==> s.readyCond == Some(false))
  }

  /** The world with its finalizer. */
  function WithFinalizer(w: World, n: Name): World
    requires n in w.bindings
  {
    if w.bindings[n].finalizer then w else PutMeta(w, n, true, w.bindings[n].forceRotate)
  }

  lemma GuardCall(w: World, n: Name, c: Binding, ch: Choice)
    requires Calm(ch) && n in w.bindings && c == w.bindings[n] && !c.deleting && c.status.rotation == NotRotating
    ensures var w1 := WithFinalizer(w, n);
      n in w1.bindings && Advance(Go(w, n, c, c.status, AddFinalizer), n, ch) == Go(w1, n, w1.bindings[n], c.status, ReadyCheck)
  {
    var w1 := WithFinalizer(w, n);
    GoGo(w1, n, c, c.status, AddFinalizer, w1.bindings[n], c.status, ReadyCheck);
  }

  /** The world before the recovery query. */
  function Readied(w: World, n: Name): World
    requires n in w.bindings
  {
    WithFinalizer(WithConditions(w, n), n)
  }

  lemma ConditionsFacts(w: World, n: Name)
    requires n in w.bindings && n !in w.procs
    ensures var w1 := WithConditions(w, n);
      && n in w1.bindings && OnlyWritten(w, w1, n, w.bindings[n].finalizer, w1.bindings[n].status)
      && w1.bindings[n].status == if w.bindings[n].status.HasConditions() then w.bindings[n].status else Started(w.bindings[n].status)
  {
    assert w.bindings == w.bindings[n := w.bindings[n]];
    hide Status.HasConditions;
  }

  lemma FinalizerFacts(w: World, n: Name)
    requires Unmarked(w, n)
    ensures var w1 := WithFinalizer(w, n);
      && n in w1.bindings && OnlyWritten(w, w1, n, true, w.bindings[n].status)
  {
    assert w.bindings == w.bindings[n := w.bindings[n]];
  }

  lemma ReadiedFacts(w: World, n: Name)
    requires Unmarked(w, n)
    ensures var w1 := Readied(w, n);
      && n in w1.bindings && OnlyWritten(w, w1, n, true, w1.bindings[n].status)
      && w1.bindings[n].status == if w.bindings[n].status.HasConditions() then w.bindings[n].status else Started(w.bindings[n].status)
  {
    ConditionsFacts(w, n);
    hide WithConditions, Started, Status.HasConditions;
    var w1 := WithConditions(w, n);
    FinalizerFacts(w1, n);
    hide WithFinalizer;
    var w2 := Readied(w, n);
    assert w2.bindings[n] == w.bindings[n].(finalizer := true, status := w1.bindings[n].status, rv := w2.bindings[n].rv);
  }

  lemma ConditionedFacts(w: World, n: Name)
    requires Wanting(w, n)
    ensures var w1 := WithConditions(w, n);
      && n in w1.bindings && Readied(w, n) == WithFinalizer(w1, n) && n in Readied(w, n).bindings
      && var c1 := w1.bindings[n];
      && !c1.deleting && c1.status.opUrl.None? && c1.status.id.None? && c1.status.rotation == NotRotating
      && c1.status.readyCond == Some(false) && Readied(w, n).bindings[n].status == c1.status
  {
  }

  lemma ToQueryFrom(w: World, n: Name, ch: Choice) returns (fuel: nat)
    requires Wanting(w, n) && Calm(ch)
    ensures var w1 := Readied(w, n);
      && n in w1.bindings && fuel >= 10
      && Pass(w, n, ch) == Drain(Go(w1, n, w1.bindings[n], w1.bindings[n].status, Query), n, ch, fuel)
  {
    hide Drain, Advance, Go, Pass, Readied, WithConditions, WithFinalizer, Status.HasConditions;
    ConditionedFacts(w, n);
    fuel := ToFetch(w, n, ch);
    hide Wanting;
    var w1 := WithConditions(w, n);
    var c1 := w1.bindings[n];
    var w2 := Readied(w, n);
    var c2 := w2.bindings[n];
    FirstFetchCall(w1, n, c1, ch);
    Calls(w1, n, c1, c1.status, FetchInstance, w1, c1, c1.status, AddFinalizer, ch, fuel);
    GuardCall(w1, n, c1, ch);
    Calls(w1, n, c1, c1.status, AddFinalizer, w2, c2, c2.status, ReadyCheck, ch, fuel - 1);
    UnreadyCall(w2, n, c2, ch);
    Calls(w2, n, c2, c2.status, ReadyCheck, w2, c2, c2.status, Query, ch, fuel - 2);
    fuel := fuel - 3;
  }

  lemma ReadiedNameless(w: World, n: Name)
    requires Unmarked(w, n) && Nameless(w.sm, n)
    ensures Nameless(Readied(w, n).sm, n)
  {
    ReadiedFacts(w, n);
    hide Readied, Named;
  }

  lemma ToBindFrom(w: World, n: Name, ch: Choice) returns (fuel: nat)
    requires Wanting(w, n) && Nameless(w.sm, n) && Calm(ch)
    ensures var w1 := Readied(w, n);
      && n in w1.bindings && fuel >= 9
      && Pass(w, n, ch) == Drain(Go(w1, n, w1.bindings[n], w1.bindings[n].status, Bind), n, ch, fuel)
  {
    hide Drain, Advance, Go, Pass, Readied, Named, Status.HasConditions;
    fuel := ToQueryFrom(w, n, ch);
    ReadiedNameless(w, n);
    hide Wanting, Unmarked;
    var w1 := Readied(w, n);
    var c1 := w1.bindings[n];
    QueryCall(w1, n, c1, ch);
    Calls(w1, n, c1, c1.status, Query, w1, c1, c1.status, Bind, ch, fuel);
    fuel := fuel - 1;
  }

  /** The binding was asked for under the resource's names, and its creation is recorded. */
  predicate CreationRecorded(w: World, w1: World, n: Name) {
    && n in w1.bindings && n in w.bindings && var s1 := w1.bindings[n].status;
    && Written(w, w1, n, true, s1) && w1.secrets == w.secrets && w1.nextId == w.nextId + 1
    && w1.sm == w.sm[w.nextId := SmBinding(w.bindings[n].externalName, Some(n), Pending, NotAsked, n)]
    && s1.id == Some(w.nextId) && s1.opUrl == Some(OpUrl(Create, w.nextId)) && s1.opType == Some(Create)
    && s1.succeeded == Some(false) && s1.readyCond == Some(s1.ready) && (!w.bindings[n].status.ready ==> !s1.ready)
    && s1.rotation == w.bindings[n].status.rotation
  }

  lemma CreationRecords(w: World, n: Name)
    requires Wanting(w, n)
    ensures var w1 := Readied(w, n);
      && n in w1.bindings
      && var s := w1.bindings[n].status.WithId(w1.nextId).Running(Create, w1.nextId).Unsucceeded();
      CreationRecorded(w, PutStatus(SmBind(w1, n, w1.bindings[n].externalName, true), n, s), n)
  {
    ReadiedFacts(w, n);
    hide Readied;
  }

  lemma BoundHere(w: World, n: Name, async: bool)
    requires Unmarked(w, n)
    ensures var w1 := Readied(w, n);
      && n in w1.bindings && w1.nextId == w.nextId && w1.bindings[n].status.id == w.bindings[n].status.id
      && var w2 := SmBind(w1, n, w1.bindings[n].externalName, async);
      && w2.bindings == w1.bindings && w2.procs == w1.procs && n !in w2.procs
      && var w3 := StoreSecret(w2, n, w.nextId); w3.bindings == w2.bindings && w3.procs == w2.procs
  {
    ReadiedFacts(w, n);
    hide Readied;
  }

  /** When SM creates later. */
  lemma CreationStarts(w: World, n: Name, ch: Choice)
    requires Wanting(w, n) && Nameless(w.sm, n) && Calm(ch) && ch.async
    ensures CreationRecorded(w, Pass(w, n, ch), n)
  {
    hide Drain, Advance, Go, Pass, Readied, Named, CreationRecorded, PutStatus, SmBind, Nameless, Status.WithId, Status.Running,
         Status.Unsucceeded;
    var fuel := ToBindFrom(w, n, ch);
    BoundHere(w, n, true);
    CreationRecords(w, n);
    hide Wanting, Unmarked;
    var w1 := Readied(w, n);
    var c1 := w1.bindings[n];
    var s := c1.status.WithId(w1.nextId).Running(Create, w1.nextId).Unsucceeded();
    var w2 := SmBind(w1, n, c1.externalName, true);
    BindLaterCall(w1, n, c1, ch);
    Calls(w1, n, c1, c1.status, Bind, w2, c1.(status := s), c1.status, Save, ch, fuel);
    SaveCall(w2, n, c1.(status := s), c1.status, ch, fuel - 1);
  }

  /** The resource is ready, and its secret shows a new binding under the resource's names. */
  predicate CreationShown(w: World, w1: World, n: Name) {
    && n in w1.bindings && n in w.bindings && var s1 := w1.bindings[n].status;
    && Written(w, w1, n, true, s1) && w1.secrets == w.secrets[n := w.nextId] && w1.nextId == w.nextId + 1
    && w1.sm == w.sm[w.nextId := SmBinding(w.bindings[n].externalName, Some(n), Done, NotAsked, n)]
    && s1.id == Some(w.nextId) && s1.opUrl.None? && s1.opType == w.bindings[n].status.opType
    && s1.succeeded == Some(true) && s1.readyCond == Some(true) && s1.ready && s1.rotation == w.bindings[n].status.rotation
  }

  lemma CreationShows(w: World, n: Name)
    requires Wanting(w, n)
    ensures var w1 := Readied(w, n);
      && n in w1.bindings
      && var s := w1.bindings[n].status.WithId(w1.nextId).Success();
      CreationShown(w, PutStatus(StoreSecret(SmBind(w1, n, w1.bindings[n].externalName, false), n, w1.nextId), n, s), n)
  {
    ReadiedFacts(w, n);
    hide Readied;
  }

  /** When SM creates at once. */
  lemma CreationCompletes(w: World, n: Name, ch: Choice)
    requires Wanting(w, n) && Nameless(w.sm, n) && Calm(ch) && !ch.async
    ensures CreationShown(w, Pass(w, n, ch), n)
  {
    hide Drain, Advance, Go, Pass, Readied, Named, CreationShown, PutStatus, SmBind, StoreSecret, Nameless, Status.WithId,
         Status.Success;
    var fuel := ToBindFrom(w, n, ch);
    BoundHere(w, n, false);
    CreationShows(w, n);
    hide Wanting, Unmarked;
    var w1 := Readied(w, n);
    var c1 := w1.bindings[n];
    var b := w1.nextId;
    var s := c1.status.WithId(b).Success();
    var w2 := SmBind(w1, n, c1.externalName, false);
    var w3 := StoreSecret(w2, n, b);
    BindCall(w1, n, c1, ch);
    Calls(w1, n, c1, c1.status, Bind, w2, c1, c1.status, BindStore(b), ch, fuel);
    StoreCall(w2, n, c1, b, ch);
    Calls(w2, n, c1, c1.status, BindStore(b), w3, c1.(status := s), c1.status, Save, ch, fuel - 1);
    SaveCall(w3, n, c1.(status := s), c1.status, ch, fuel - 2);
  }

  // ----- recovery

  predicate Unrecorded(s: Status) {
    s.opUrl.None? && s.opType.None?
  }

  /** A recorded operation, polled by the next reconcile. */
  predicate Records(s: Status, kind: OpKind, b: Id) {
    s.opUrl == Some(OpUrl(kind, b)) && s.opType == Some(kind)
  }

  /**
   The status after recovery: the id of the binding found, with its creation recorded while SM is at it, success
   when SM is done, and failure when SM failed; a binding on its way out has its removal recorded.
   */
  predicate Adopts(s1: Status, s: Status, b: Id, seen: SmBinding) {
    && s1.id == Some(b) && s1.rotation == s.rotation && s1.pendingTermination == s.pendingTermination
    && (seen.unbinding == Asked ==> Records(s1, Delete, b))
    && (seen.unbinding == Refused ==> Unrecorded(s1))
    && (seen.unbinding == NotAsked && seen.provisioning == Pending ==> Records(s1, Create, b))
    && (seen.unbinding == NotAsked && seen.provisioning != Pending ==> Unrecorded(s1))
    && (if seen.unbinding == NotAsked && seen.provisioning == Done
        then s1.succeeded == Some(true) && s1.readyCond == Some(true) && s1.ready
        else s1.succeeded == Some(false) && s1.readyCond == Some(s.ready) && s1.ready == s.ready)
  }

  /** What recovery leaves: the status, and the secret of a binding that SM has created. */
  predicate Recovered(w: World, w1: World, n: Name, b: Id) {
    && n in w.bindings && n in w1.bindings && b in w.sm
    && Written(w, w1, n, true, w1.bindings[n].status) && w1.sm == w.sm && w1.nextId == w.nextId
    && w1.secrets == (if w.sm[b].provisioning == Done then w.secrets[n := b] else w.secrets)
    && Adopts(w1.bindings[n].status, Readied(w, n).bindings[n].status, b, w.sm[b])
  }

  lemma FoundCall(w: World, n: Name, c: Binding, b: Id, ch: Choice)
    requires Calm(ch) && Finds(w, n, b) && c.externalName == w.bindings[n].externalName
    ensures Advance(Go(w, n, c, c.status, Query), n, ch) ==
            if w.sm[b].provisioning == Done then Go(w, n, c, c.status, RecoverStore(b, w.sm[b]))
            else Go(w, n, c.(status := Resync(c.status, b, w.sm[b])), c.status, Save)
  {
    hide Resync;
    OneMatch(Go(w, n, c, c.status, Query), c.externalName, n, b);
    GoGo(w, n, c, c.status, Query, c, c.status, RecoverStore(b, w.sm[b]));
    GoGo(w, n, c, c.status, Query, c.(status := Resync(c.status, b, w.sm[b])), c.status, Save);
  }

  lemma RecoverStoreCall(w: World, n: Name, c: Binding, b: Id, seen: SmBinding, ch: Choice)
    requires Calm(ch)
    ensures Advance(Go(w, n, c, c.status, RecoverStore(b, seen)), n, ch) ==
            Go(StoreSecret(w, n, b), n, c.(status := Resync(c.status, b, seen)), c.status, Save)
  {
    hide Resync;
    GoGo(StoreSecret(w, n, b), n, c, c.status, RecoverStore(b, seen), c.(status := Resync(c.status, b, seen)), c.status, Save);
  }

  lemma ResyncAdopts(s: Status, b: Id, seen: SmBinding)
    ensures Adopts(Resync(s, b, seen), s, b, seen)
  {
  }

  lemma RecoveredIs(w: World, n: Name, b: Id)
    requires Unmarked(w, n) && Finds(w, n, b)
    ensures var w1 := Readied(w, n);
      && Finds(w1, n, b) && n !in w1.procs && w1.sm == w.sm
      && w1.bindings[n].externalName == w.bindings[n].externalName
      && var w2 := if w.sm[b].provisioning == Done then StoreSecret(w1, n, b) else w1;
      && n in w2.bindings && n !in w2.procs && w2.bindings[n] == w1.bindings[n]
      && Recovered(w, PutStatus(w2, n, Resync(w1.bindings[n].status, b, w.sm[b])), n, b)
  {
    ReadiedFacts(w, n);
    ResyncAdopts(Readied(w, n).bindings[n].status, b, w.sm[b]);
    hide Readied, Resync, Adopts;
  }

  /** One undisturbed pass: the binding SM shows is adopted in the state SM shows it. */
  lemma RecoveryAdopts(w: World, n: Name, b: Id, ch: Choice)
    requires Wanting(w, n) && Finds(w, n, b) && Calm(ch)
    ensures Recovered(w, Pass(w, n, ch), n, b)
  {
    hide Drain, Advance, Go, Pass, Readied, Named, Finds, Recovered, PutStatus, StoreSecret, Resync;
    var fuel := ToQueryFrom(w, n, ch);
    RecoveredIs(w, n, b);
    FindsHere(w, n, b);
    hide Wanting, Unmarked;
    var w1 := Readied(w, n);
    var c1 := w1.bindings[n];
    var s := Resync(c1.status, b, w.sm[b]);
    FoundCall(w1, n, c1, b, ch);
    if w.sm[b].provisioning == Done {
      Calls(w1, n, c1, c1.status, Query, w1, c1, c1.status, RecoverStore(b, w.sm[b]), ch, fuel);
      RecoverStoreCall(w1, n, c1, b, w.sm[b], ch);
      var w2 := StoreSecret(w1, n, b);
      Calls(w1, n, c1, c1.status, RecoverStore(b, w.sm[b]), w2, c1.(status := s), c1.status, Save, ch, fuel - 1);
      SaveCall(w2, n, c1.(status := s), c1.status, ch, fuel - 2);
    } else {
      Calls(w1, n, c1, c1.status, Query, w1, c1.(status := s), c1.status, Save, ch, fuel);
      SaveCall(w1, n, c1.(status := s), c1.status, ch, fuel - 1);
    }
  }

  lemma FindsHere(w: World, n: Name, b: Id)
    requires Finds(w, n, b)
    ensures n in w.bindings && b in w.sm
  {
  }

  // ----- cleanup

  /** A resource whose creation failed, or whose cleanup was refused. */
  predicate Failing(w: World, n: Name, b: Id) {
    && Unmarked(w, n)
    && var s := w.bindings[n].status;
    && s.HasConditions() && s.id == Some(b) && s.opUrl.Some? && s.opUrl.value.resource == b && b in w.sm
    && (if s.opUrl.value.kind == Create then w.sm[b].provisioning == Failed else w.sm[b].unbinding == Refused)
  }

  lemma FailedCall(w: World, n: Name, c: Binding, b: Id, ch: Choice)
    requires Calm(ch) && !c.deleting && c.status.opUrl.Some? && c.status.opUrl.value.resource == b && b in w.sm
    requires if c.status.opUrl.value.kind == Create then w.sm[b].provisioning == Failed else w.sm[b].unbinding == Refused
    ensures Advance(Go(w, n, c, c.status, PollStatus), n, ch) ==
            Go(w, n, c.(status := c.status.Unsucceeded()), c.status, CleanupUnbind)
  {
    GoGo(w, n, c, c.status, PollStatus, c.(status := c.status.Unsucceeded()), c.status, CleanupUnbind);
  }

  lemma CleanupCall(w: World, n: Name, c: Binding, base: Status, b: Id, ch: Choice)
    requires Calm(ch) && c.status.id == Some(b) && b in w.sm
    ensures Advance(Go(w, n, c, base, CleanupUnbind), n, ch) ==
            Go(SmUnbind(w, b, ch.async), n,
               c.(status := if ch.async then c.status.Running(Delete, b) else c.status.NoOperation().WithoutId()), base, Save)
  {
    GoGo(SmUnbind(w, b, ch.async), n, c, base, CleanupUnbind,
         c.(status := if ch.async then c.status.Running(Delete, b) else c.status.NoOperation().WithoutId()), base, Save);
  }

  /** The failure is told; the binding is gone with its id, or its removal is under way and recorded. */
  predicate CleanedUp(w: World, w1: World, n: Name, b: Id, async: bool) {
    && n in w.bindings && n in w1.bindings && b in w.sm
    && var s := w.bindings[n].status; var s1 := w1.bindings[n].status;
    && Written(w, w1, n, w.bindings[n].finalizer, s1) && w1.secrets == w.secrets && w1.nextId == w.nextId
    && w1.sm == (if async then w.sm[b := w.sm[b].(unbinding := Asked)] else w.sm - {b})
    && s1.succeeded == Some(false) && SameReport(s1, s)
    && (if async then s1.id == Some(b) && Records(s1, Delete, b) else s1.id.None? && Unrecorded(s1))
  }

  lemma CleanupIs(w: World, n: Name, b: Id, async: bool)
    requires Failing(w, n, b)
    ensures var failed := w.bindings[n].status.Unsucceeded();
      var s := if async then failed.Running(Delete, b) else failed.NoOperation().WithoutId();
      && failed.id == Some(b)
      && var w1 := SmUnbind(w, b, async);
      && n in w1.bindings && w1.bindings[n] == w.bindings[n] && n !in w1.procs
      && CleanedUp(w, PutStatus(w1, n, s), n, b, async)
  {
  }

  /** One undisturbed pass after a failure. */
  lemma FailureCleans(w: World, n: Name, b: Id, ch: Choice)
    requires Failing(w, n, b) && Calm(ch)
    ensures CleanedUp(w, Pass(w, n, ch), n, b, ch.async)
  {
    var o := w.bindings[n];
    assert Begin(w, n) == Go(w, n, o, o.status, FetchInstance);
    hide Drain, Advance, Go, PutStatus, SmUnbind, CleanedUp, Begin;
    CleanupIs(w, n, b, ch.async);
    var failed := o.status.Unsucceeded();
    var s := if ch.async then failed.Running(Delete, b) else failed.NoOperation().WithoutId();
    PollCall(w, n, o, ch);
    FailedCall(w, n, o, b, ch);
    hide Failing, Status.Unsucceeded, Status.Running, Status.NoOperation, Status.WithoutId;
    Calls(w, n, o, o.status, FetchInstance, w, o, o.status, PollStatus, ch, 14);
    Calls(w, n, o, o.status, PollStatus, w, o.(status := failed), o.status, CleanupUnbind, ch, 13);
    CleanupCall(w, n, o.(status := failed), o.status, b, ch);
    Calls(w, n, o.(status := failed), o.status, CleanupUnbind, SmUnbind(w, b, ch.async), o.(status := s), o.status, Save, ch, 12);
    SaveCall(SmUnbind(w, b, ch.async), n, o.(status := s), o.status, ch, 11);
  }

  /** A resource that records the removal of a binding SM no longer holds. */
  predicate Rid(w: World, n: Name, b: Id) {
    && Unmarked(w, n) && b !in w.sm
    && var s := w.bindings[n].status; s.HasConditions() && s.id == Some(b) && Records(s, Delete, b)
  }

  lemma UnguardCall(w: World, n: Name, c: Binding, ch: Choice)
    requires Calm(ch) && n in w.bindings && w.bindings[n] == c && !c.deleting
    ensures var w1 := if c.finalizer then PutMeta(w, n, false, c.forceRotate) else w;
      && n in w1.bindings
      && Advance(Go(w, n, c, c.status, PollRemoveFinalizer), n, ch) ==
         Go(w1, n, w1.bindings[n].(status := c.status.WithoutId().NoOperation()), c.status, Save)
  {
    var w1 := if c.finalizer then PutMeta(w, n, false, c.forceRotate) else w;
    GoGo(w1, n, c, c.status, PollRemoveFinalizer, w1.bindings[n].(status := c.status.WithoutId().NoOperation()), c.status, Save);
  }

  /** Secret, finalizer, id and operation are gone; the report is as it was. */
  predicate Emptied(w: World, w1: World, n: Name) {
    && n in w.bindings && n in w1.bindings
    && Written(w, w1, n, false, w.bindings[n].status.(id := None, opUrl := None, opType := None))
    && w1.secrets == w.secrets - {n} && w1.sm == w.sm && w1.nextId == w.nextId
  }

  lemma EmptiedIs(w: World, n: Name)
    requires Unmarked(w, n)
    ensures var w1 := DropSecret(w, n);
      && n in w1.bindings && w1.bindings[n] == w.bindings[n]
      && var w2 := if w.bindings[n].finalizer then PutMeta(w1, n, false, w.bindings[n].forceRotate) else w1;
      && n in w2.bindings && n !in w2.procs
      && Emptied(w, PutStatus(w2, n, w.bindings[n].status.WithoutId().NoOperation()), n)
  {
  }

  /** One undisturbed pass after the cleanup. */
  lemma CleanupSeen(w: World, n: Name, b: Id, ch: Choice)
    requires Rid(w, n, b) && Calm(ch)
    ensures Emptied(w, Pass(w, n, ch), n)
  {
    var o := w.bindings[n];
    assert Begin(w, n) == Go(w, n, o, o.status, FetchInstance);
    hide Drain, Advance, Go, PutStatus, PutMeta, DropSecret, Emptied, Begin;
    EmptiedIs(w, n);
    PollCall(w, n, o, ch);
    RemovedCall(w, n, o, b, ch);
    hide Rid, Status.WithoutId, Status.NoOperation;
    var w1 := DropSecret(w, n);
    var w2 := if o.finalizer then PutMeta(w1, n, false, o.forceRotate) else w1;
    var c2 := w2.bindings[n].(status := o.status.WithoutId().NoOperation());
    Calls(w, n, o, o.status, FetchInstance, w, o, o.status, PollStatus, ch, 14);
    Calls(w, n, o, o.status, PollStatus, w, o, o.status, PollDropSecret, ch, 13);
    PollDropCall(w, n, o, ch);
    Calls(w, n, o, o.status, PollDropSecret, w1, o, o.status, PollRemoveFinalizer, ch, 12);
    UnguardCall(w1, n, o, ch);
    Calls(w1, n, o, o.status, PollRemoveFinalizer, w2, c2, o.status, Save, ch, 11);
    SaveCall(w2, n, c2, o.status, ch, 10);
  }

  // ----- what no reconcile mends

  /** A resource at rest that holds `b`. */
  predicate Holding(w: World, n: Name, b: Id) {
    && Unmarked(w, n)
    && var s := w.bindings[n].status; s.HasConditions() && s.id == Some(b) && s.opUrl.None?
  }

  lemma LostCall(w: World, n: Name, c: Binding, b: Id, ch: Choice)
    requires Calm(ch) && c.status.id == Some(b) && b !in w.sm
    ensures Advance(Go(w, n, c, c.status, CheckExists), n, ch) == Go(w, n, c.(status := c.status.Lost()), c.status, Save)
  {
    GoGo(w, n, c, c.status, CheckExists, c.(status := c.status.Lost()), c.status, Save);
  }

  /** A binding that SM no longer knows: the resource keeps its id and says nothing but that it is not ready. */
  lemma LossReported(w: World, n: Name, b: Id, ch: Choice)
    requires Holding(w, n, b) && b !in w.sm && Calm(ch)
    ensures var s := w.bindings[n].status;
      OnlyWritten(w, Pass(w, n, ch), n, w.bindings[n].finalizer,
        Status(s.id, s.opUrl, s.opType, false, None, Some(false), NotRotating, false))
  {
    var o := w.bindings[n];
    var s := o.status.Lost();
    assert Begin(w, n) == Go(w, n, o, o.status, FetchInstance);
    hide Drain, Advance, Go, Begin;
    FetchCall(w, n, o, ch);
    Calls(w, n, o, o.status, FetchInstance, w, o, o.status, CheckExists, ch, 14);
    LostCall(w, n, o, b, ch);
    Calls(w, n, o, o.status, CheckExists, w, o.(status := s), o.status, Save, ch, 13);
    SaveCall(w, n, o.(status := s), o.status, ch, 12);
  }

  lemma IdleCall(w: World, n: Name, c: Binding, ch: Choice)
    requires Calm(ch) && n !in w.procs && c.status.readyCond != Some(true) && c.status.id.Some?
    ensures Advance(Go(w, n, c, c.status, ReadyCheck), n, ch) == w
  {
    assert w.procs[n := Proc(c, c.status, ReadyCheck)] - {n} == w.procs;
  }

  /** A binding that SM holds and that is not ready, with nothing under way: nothing is done for it but the finalizer. */
  lemma UnreadyStays(w: World, n: Name, b: Id, ch: Choice)
    requires Holding(w, n, b) && b in w.sm && Calm(ch)
    requires w.bindings[n].status.readyCond != Some(true) && w.bindings[n].status.rotation == NotRotating
    ensures Pass(w, n, ch) == WithFinalizer(w, n)
  {
    var o := w.bindings[n];
    var w1 := WithFinalizer(w, n);
    assert n in w1.bindings && w1.procs == w.procs && w1.bindings[n].status == o.status;
    assert Begin(w, n) == Go(w, n, o, o.status, FetchInstance);
    hide Drain, Advance, Go, Begin, WithFinalizer;
    FetchCall(w, n, o, ch);
    Calls(w, n, o, o.status, FetchInstance, w, o, o.status, CheckExists, ch, 14);
    CheckCall(w, n, o, ch);
    Calls(w, n, o, o.status, CheckExists, w, o, o.status, AddFinalizer, ch, 13);
    GuardCall(w, n, o, ch);
    Calls(w, n, o, o.status, AddFinalizer, w1, w1.bindings[n], o.status, ReadyCheck, ch, 12);
    IdleCall(w1, n, w1.bindings[n], ch);
    Stops(w1, n, w1.bindings[n], o.status, ReadyCheck, w1, ch, 11);
  }

  lemma UnknownCall(w: World, n: Name, c: Binding, b: Id, ch: Choice)
    requires Calm(ch) && c.status.opUrl == Some(OpUrl(Create, b)) && b !in w.sm
    ensures Advance(Go(w, n, c, c.status, PollStatus), n, ch) == Go(w, n, c.(status := c.status.Unsucceeded()), c.status, Save)
  {
    GoGo(w, n, c, c.status, PollStatus, c.(status := c.status.Unsucceeded()), c.status, Save);
  }

  /** A creation that SM no longer knows is recorded for good. */
  lemma UnknownStays(w: World, n: Name, b: Id, ch: Choice)
    requires Awaiting(w, n, b) && b !in w.sm && Calm(ch)
    ensures var s := w.bindings[n].status;
      OnlyWritten(w, Pass(w, n, ch), n, w.bindings[n].finalizer, s.(succeeded := Some(false), readyCond := Some(s.ready)))
  {
    var o := w.bindings[n];
    var s := o.status.Unsucceeded();
    assert Begin(w, n) == Go(w, n, o, o.status, FetchInstance);
    hide Drain, Advance, Go, Begin;
    PollCall(w, n, o, ch);
    Calls(w, n, o, o.status, FetchInstance, w, o, o.status, PollStatus, ch, 14);
    UnknownCall(w, n, o, b, ch);
    Calls(w, n, o, o.status, PollStatus, w, o.(status := s), o.status, Save, ch, 13);
    SaveCall(w, n, o.(status := s), o.status, ch, 12);
  }

  // ----- the service instance

  /** Answers without error, with the instance as seen. */
  predicate Seeing(ch: Choice, instance: InstanceView) {
    ch.call == Ok && !ch.flag && ch.instance == instance
  }

  lemma AbsentCall(w: World, n: Name, c: Binding, ch: Choice)
    requires Seeing(ch, InstanceView.Missing) && !c.deleting
    ensures Advance(Go(w, n, c, c.status, FetchInstance), n, ch) == Go(w, n, c.(status := c.status.Unsucceeded()), c.status, Save)
  {
    GoGo(w, n, c, c.status, FetchInstance, c.(status := c.status.Unsucceeded()), c.status, Save);
  }

  lemma BlockedSave(w: World, n: Name, c: Binding, base: Status, ch: Choice, fuel: nat)
    requires ch.call == Ok && fuel > 0 && n in w.bindings && n !in w.procs && w.bindings[n].rv == c.rv
    ensures Drain(Go(w, n, c, base, Save), n, ch, fuel) == PutStatus(w, n, c.status)
  {
    var w0 := Go(w, n, c, base, Save);
    DrainStep(w0, n, ch, fuel);
    assert w0.procs - {n} == w.procs;
    assert Advance(w0, n, ch) == WriteStatus(w0, n, Proc(c, base, Save), ch, None) by { hide WriteStatus; }
    hide Advance;
  }

  /** Without its instance a resource only reports that it is blocked, whatever it records. */
  lemma AbsenceReported(w: World, n: Name, ch: Choice)
    requires Unmarked(w, n) && w.bindings[n].status.HasConditions() && Seeing(ch, InstanceView.Missing)
    ensures var s := w.bindings[n].status;
      OnlyWritten(w, Pass(w, n, ch), n, w.bindings[n].finalizer, s.(succeeded := Some(false), readyCond := Some(s.ready)))
  {
    var o := w.bindings[n];
    var s := o.status.Unsucceeded();
    assert Begin(w, n) == Go(w, n, o, o.status, FetchInstance);
    hide Drain, Advance, Go, Begin;
    AbsentCall(w, n, o, ch);
    Calls(w, n, o, o.status, FetchInstance, w, o.(status := s), o.status, Save, ch, 14);
    BlockedSave(w, n, o.(status := s), o.status, ch, 13);
  }

  lemma NearFetchCall(w: World, n: Name, c: Binding, ch: Choice)
    requires ch.call == Ok && !ch.flag && ch.instance != InstanceView.Missing && !c.deleting && c.status.opUrl.None?
    ensures Advance(Go(w, n, c, c.status, FetchInstance), n, ch) ==
            Go(w, n, c, c.status, if c.status.id.Some? then CheckExists else AddFinalizer)
  {
    GoGo(w, n, c, c.status, FetchInstance, c, c.status, if c.status.id.Some? then CheckExists else AddFinalizer);
  }

  lemma NearCheckCall(w: World, n: Name, c: Binding, ch: Choice)
    requires ch.call == Ok && !ch.flag && c.status.id.Some? && c.status.id.value in w.sm
    ensures Advance(Go(w, n, c, c.status, CheckExists), n, ch) == Go(w, n, c, c.status, AddFinalizer)
  {
    GoGo(w, n, c, c.status, CheckExists, c, c.status, AddFinalizer);
  }

  lemma BlockedCall(w: World, n: Name, c: Binding, ch: Choice)
    requires ch.call == Ok && (ch.instance == Terminating || ch.instance == NotReady)
    requires n in w.bindings && c == w.bindings[n] && !c.deleting
    ensures var w1 := WithFinalizer(w, n);
      && n in w1.bindings
      && Advance(Go(w, n, c, c.status, AddFinalizer), n, ch) ==
         Go(w1, n, w1.bindings[n].(status := c.status.Unsucceeded()), c.status, Save)
  {
    var w1 := WithFinalizer(w, n);
    GoGo(w1, n, c, c.status, AddFinalizer, w1.bindings[n].(status := c.status.Unsucceeded()), c.status, Save);
  }

  /** While its instance goes away or is not ready, a resource without an operation gets its finalizer and reports that it is blocked. */
  lemma UnreadinessReported(w: World, n: Name, ch: Choice)
    requires Unmarked(w, n) && (Seeing(ch, Terminating) || Seeing(ch, NotReady))
    requires var s := w.bindings[n].status;
      s.HasConditions() && s.opUrl.None? && (s.id.Some? ==> s.id.value in w.sm)
    ensures var s := w.bindings[n].status;
      OnlyWritten(w, Pass(w, n, ch), n, true, s.(succeeded := Some(false), readyCond := Some(s.ready)))
  {
    var o := w.bindings[n];
    var s := o.status.Unsucceeded();
    var w1 := WithFinalizer(w, n);
    assert n in w1.bindings && w1.procs == w.procs && OnlyWritten(w, PutStatus(w1, n, s), n, true, s);
    assert Begin(w, n) == Go(w, n, o, o.status, FetchInstance);
    hide Drain, Advance, Go, Begin, WithFinalizer, OnlyWritten, PutStatus;
    NearFetchCall(w, n, o, ch);
    var fuel := 13;
    if o.status.id.Some? {
      Calls(w, n, o, o.status, FetchInstance, w, o, o.status, CheckExists, ch, 14);
      NearCheckCall(w, n, o, ch);
      Calls(w, n, o, o.status, CheckExists, w, o, o.status, AddFinalizer, ch, 13);
      fuel := 12;
    } else {
      Calls(w, n, o, o.status, FetchInstance, w, o, o.status, AddFinalizer, ch, 14);
    }
    BlockedCall(w, n, o, ch);
    var c1 := w1.bindings[n].(status := s);
    Calls(w, n, o, o.status, AddFinalizer, w1, c1, o.status, Save, ch, fuel);
    BlockedSave(w1, n, c1, o.status, ch, fuel - 1);
  }

  lemma DeserterCall(w: World, n: Name, c: Binding, ch: Choice)
    requires Seeing(ch, InstanceView.Missing) && c.deleting && c.status.id.None?
    ensures Advance(Go(w, n, c, c.status, FetchInstance), n, ch) == Go(w, n, c, c.status, DeleteDropSecret)
  {
    GoGo(w, n, c, c.status, FetchInstance, c, c.status, DeleteDropSecret);
  }

  lemma DropAnyCall(w: World, m: Name, c: Binding, ch: Choice)
    requires ch.call == Ok
    ensures Advance(Go(w, m, c, c.status, DeleteDropSecret), m, ch) == Go(DropSecret(w, m), m, c, c.status, DeleteRemoveFinalizer)
  {
    GoGo(DropSecret(w, m), m, c, c.status, DeleteDropSecret, c, c.status, DeleteRemoveFinalizer);
  }

  lemma ReleaseAnyCall(w: World, m: Name, c: Binding, ch: Choice)
    requires ch.call == Ok && m in w.bindings && w.bindings[m] == c && c.finalizer && c.deleting && m !in w.procs
    ensures Advance(Go(w, m, c, c.status, DeleteRemoveFinalizer), m, ch) == w.(bindings := w.bindings - {m}, clock := w.clock + 1)
  {
    assert w.procs[m := Proc(c, c.status, DeleteRemoveFinalizer)] - {m} == w.procs;
  }

  /** Marked for deletion, without an id and without its instance: the resource and its secret go, and SM is not asked. */
  lemma DeserterGoes(w: World, n: Name, ch: Choice)
    requires n in w.bindings && n !in w.procs && Seeing(ch, InstanceView.Missing)
    requires var o := w.bindings[n]; o.deleting && o.finalizer && o.status.HasConditions() && o.status.id.None?
    ensures Pass(w, n, ch) == Gone(w, n)
  {
    var o := w.bindings[n];
    var w1 := DropSecret(w, n);
    assert Begin(w, n) == Go(w, n, o, o.status, FetchInstance);
    assert w1.bindings == w.bindings && w1.procs == w.procs && w1.clock == w.clock;
    assert w1.(bindings := w1.bindings - {n}, clock := w1.clock + 1) == Gone(w, n);
    hide Drain, Advance, Go, DropSecret, Begin, Gone;
    DeserterCall(w, n, o, ch);
    Calls(w, n, o, o.status, FetchInstance, w, o, o.status, DeleteDropSecret, ch, 14);
    DropAnyCall(w, n, o, ch);
    Calls(w, n, o, o.status, DeleteDropSecret, w1, o, o.status, DeleteRemoveFinalizer, ch, 13);
    ReleaseAnyCall(w1, n, o, ch);
    Stops(w1, n, o, o.status, DeleteRemoveFinalizer, w1.(bindings := w1.bindings - {n}, clock := w1.clock + 1), ch, 12);
  }
}
