/** The reconciles of a rotation whose bindings SM creates and removes later: polls, and the passes around them. */
module BindingLater {
  import opened Options
  import opened Remote
  import opened BindingWorld
  import opened BindingReconciler
  import opened BindingInvariant
  import opened BindingProgress
  import opened BindingEnds

  lemma PollCall(w: World, n: Name, c: Binding, ch: Choice)
    requires Calm(ch) && c.status.opUrl.Some? && (c.status.opType == Some(Delete) || !c.deleting)
    ensures Advance(Go(w, n, c, c.status, FetchInstance), n, ch) == Go(w, n, c, c.status, PollStatus)
  {
    GoGo(w, n, c, c.status, FetchInstance, c, c.status, PollStatus);
  }

  lemma RunningCall(w: World, n: Name, c: Binding, ch: Choice)
    requires Calm(ch) && n !in w.procs && c.status.opUrl.Some? && SmStatus(w, c.status.opUrl.value) == InProgress
    ensures Advance(Go(w, n, c, c.status, PollStatus), n, ch) == w
  {
    assert w.procs[n := Proc(c, c.status, PollStatus)] - {n} == w.procs;
  }

  /** A pass that finds the operation running changes nothing. */
  lemma PollWaits(w: World, n: Name, ch: Choice)
    requires Calm(ch) && n in w.bindings && n !in w.procs
    requires var s := w.bindings[n].status;
      s.HasConditions() && s.opUrl.Some? && (s.opType == Some(Delete) || !w.bindings[n].deleting)
      && SmStatus(w, s.opUrl.value) == InProgress
    ensures Pass(w, n, ch) == w
  {
    var o := w.bindings[n];
    assert Begin(w, n) == Go(w, n, o, o.status, FetchInstance);
    hide Drain, Advance, Go, SmStatus;
    PollCall(w, n, o, ch);
    Calls(w, n, o, o.status, FetchInstance, w, o, o.status, PollStatus, ch, 14);
    RunningCall(w, n, o, ch);
    Stops(w, n, o, o.status, PollStatus, w, ch, 13);
  }

  // ----- the new binding of the original

  /** A resource that records the creation of its binding `b`. */
  predicate Awaiting(w: World, n: Name, b: Id) {
    && n in w.bindings && n !in w.procs
    && var o := w.bindings[n];
    && !o.deleting && o.status.HasConditions() && o.status == o.status.WithId(b).Running(Create, b)
  }

  /** An original in rotation whose new binding `b` SM is creating, or has created. */
  predicate Creating(w: World, n: Name, b: Id) {
    && Awaiting(w, n, b) && b in w.sm && w.sm[b].provisioning != Failed
    && var o := w.bindings[n];
    && o.finalizer && !o.forceRotate && o.stale.None?
    && o.status == o.status.Unsucceeded() && !o.status.ready && o.status.rotation == Rotating
  }

  lemma CreationWaits(w: World, n: Name, b: Id, ch: Choice)
    requires Creating(w, n, b) && w.sm[b].provisioning == Pending && Calm(ch)
    ensures Pass(w, n, ch) == w
  {
    hide Pass;
    PollWaits(w, n, ch);
  }

  lemma CreatedCall(w: World, n: Name, c: Binding, b: Id, ch: Choice)
    requires Calm(ch) && c.status.opUrl == Some(OpUrl(Create, b)) && b in w.sm && w.sm[b].provisioning == Done
    ensures Advance(Go(w, n, c, c.status, PollStatus), n, ch) == Go(w, n, c, c.status, PollFetch)
  {
    GoGo(w, n, c, c.status, PollStatus, c, c.status, PollFetch);
  }

  lemma FetchedCall(w: World, n: Name, c: Binding, b: Id, ch: Choice)
    requires Calm(ch) && c.status.id == Some(b) && b in w.sm
    ensures Advance(Go(w, n, c, c.status, PollFetch), n, ch) == Go(w, n, c, c.status, PollStore)
  {
    GoGo(w, n, c, c.status, PollFetch, c, c.status, PollStore);
  }

  lemma CreatedStoreCall(w: World, n: Name, c: Binding, b: Id, ch: Choice)
    requires Calm(ch) && c.status.id == Some(b)
    ensures Advance(Go(w, n, c, c.status, PollStore), n, ch) ==
            Go(StoreSecret(w, n, b), n, c.(status := c.status.NoOperation().Success()), c.status, Save)
  {
    GoGo(StoreSecret(w, n, b), n, c, c.status, PollStore, c.(status := c.status.NoOperation().Success()), c.status, Save);
  }

  /** The world once the original shows its new binding. */
  function NewShown(w: World, n: Name, b: Id): World
    requires n in w.bindings
  {
    var o := w.bindings[n];
    w.(bindings := w.bindings[n := o.(status := o.status.NoOperation().Success(), rv := w.clock)],
       secrets := w.secrets[n := b], clock := w.clock + 1)
  }

  /** One undisturbed pass after SM is done: the resource shows its new binding. */
  lemma CreationSeen(w: World, n: Name, b: Id, ch: Choice)
    requires Awaiting(w, n, b) && b in w.sm && w.sm[b].provisioning == Done && Calm(ch)
    ensures Pass(w, n, ch) == NewShown(w, n, b)
  {
    var o := w.bindings[n];
    var w1 := StoreSecret(w, n, b);
    var done := o.status.NoOperation().Success();
    assert Begin(w, n) == Go(w, n, o, o.status, FetchInstance);
    assert PutStatus(w1, n, done) == NewShown(w, n, b);
    assert w1.bindings == w.bindings && w1.procs == w.procs;
    hide Drain, Advance, Go, PutStatus, StoreSecret, NewShown;
    PollCall(w, n, o, ch);
    Calls(w, n, o, o.status, FetchInstance, w, o, o.status, PollStatus, ch, 14);
    CreatedCall(w, n, o, b, ch);
    Calls(w, n, o, o.status, PollStatus, w, o, o.status, PollFetch, ch, 13);
    FetchedCall(w, n, o, b, ch);
    Calls(w, n, o, o.status, PollFetch, w, o, o.status, PollStore, ch, 12);
    CreatedStoreCall(w, n, o, b, ch);
    Calls(w, n, o, o.status, PollStore, w1, o.(status := done), o.status, Save, ch, 11);
    SaveCall(w1, n, o.(status := done), o.status, ch, 10);
  }

  // ----- a backup whose time is up too early

  lemma EarlyCall(w: World, m: Name, c: Binding, ch: Choice)
    requires Calm(ch) && m !in w.procs && c.orig.Some? && c.orig.value in w.bindings
    requires w.bindings[c.orig.value].status.readyCond != Some(true)
    ensures Advance(Go(w, m, c, c.status, FetchOriginal), m, ch) ==
            if c.status.pendingTermination then w
            else Go(w, m, c.(status := c.status.(pendingTermination := true)), c.status, Save)
  {
    assert w.procs[m := Proc(c, c.status, FetchOriginal)] - {m} == w.procs;
    GoGo(w, m, c, c.status, FetchOriginal, c.(status := c.status.(pendingTermination := true)), c.status, Save);
  }

  /** The world once the backup says that it waits for its original. */
  function Reprieved(w: World, m: Name): World
    requires m in w.bindings
  {
    if w.bindings[m].status.pendingTermination then w
    else PutStatus(w, m, w.bindings[m].status.(pendingTermination := true))
  }

  /** One undisturbed pass: while its original is not ready, a backup stays. */
  lemma RetirementWaits(w: World, m: Name, n: Name, b: Id, ch: Choice)
    requires Kept(w, m, n, b) && n in w.bindings && w.bindings[n].status.readyCond != Some(true) && Calm(ch) && ch.due
    ensures Pass(w, m, ch) == Reprieved(w, m)
  {
    var o := w.bindings[m];
    assert Begin(w, m) == Go(w, m, o, o.status, FetchInstance);
    hide Drain, Advance, Go, PutStatus;
    FetchCall(w, m, o, ch);
    Calls(w, m, o, o.status, FetchInstance, w, o, o.status, CheckExists, ch, 14);
    CheckCall(w, m, o, ch);
    Calls(w, m, o, o.status, CheckExists, w, o, o.status, AddFinalizer, ch, 13);
    FinalizerCall(w, m, o, ch);
    Calls(w, m, o, o.status, AddFinalizer, w, o, o.status, ReadyCheck, ch, 12);
    ExpiredCall(w, m, o, ch);
    Calls(w, m, o, o.status, ReadyCheck, w, o, o.status, FetchOriginal, ch, 11);
    EarlyCall(w, m, o, ch);
    if o.status.pendingTermination {
      Stops(w, m, o, o.status, FetchOriginal, w, ch, 10);
    } else {
      var waiting := o.status.(pendingTermination := true);
      Calls(w, m, o, o.status, FetchOriginal, w, o.(status := waiting), o.status, Save, ch, 10);
      SaveCall(w, m, o.(status := waiting), o.status, ch, 9);
    }
  }

  // ----- the old binding of the backup

  lemma UnbindLaterCall(w: World, m: Name, c: Binding, b: Id, ch: Choice)
    requires Calm(ch) && ch.async && c.status.id == Some(b) && b in w.sm
    ensures Advance(Go(w, m, c, c.status, DeleteUnbind), m, ch) ==
            Go(SmUnbind(w, b, true), m, c.(status := c.status.Running(Delete, b).Unsucceeded()), c.status, Save)
  {
    GoGo(SmUnbind(w, b, true), m, c, c.status, DeleteUnbind,
         c.(status := c.status.Running(Delete, b).Unsucceeded()), c.status, Save);
  }

  /** The world once SM was asked to remove the binding. */
  function BeingLeft(w: World, m: Name, b: Id): World
    requires m in w.bindings && b in w.sm
  {
    var o := w.bindings[m];
    w.(bindings := w.bindings[m := o.(status := o.status.Running(Delete, b).Unsucceeded(), rv := w.clock)],
       sm := w.sm[b := w.sm[b].(unbinding := Asked)], clock := w.clock + 1)
  }

  /** One undisturbed pass when SM works later: the resource records the operation. */
  lemma DeletionStarts(w: World, m: Name, b: Id, ch: Choice)
    requires Leaving(w, m, b) && Calm(ch) && ch.async && b in w.sm
    ensures Pass(w, m, ch) == BeingLeft(w, m, b)
  {
    var o := w.bindings[m];
    var s := o.status.Running(Delete, b).Unsucceeded();
    var w1 := SmUnbind(w, b, true);
    assert Begin(w, m) == Go(w, m, o, o.status, FetchInstance);
    assert PutStatus(w1, m, s) == BeingLeft(w, m, b);
    assert w1.bindings == w.bindings && w1.procs == w.procs;
    hide Drain, Advance, Go, PutStatus, SmUnbind, BeingLeft, Status.HasConditions;
    LeaveCall(w, m, o, ch);
    Calls(w, m, o, o.status, FetchInstance, w, o, o.status, DeleteUnbind, ch, 14);
    UnbindLaterCall(w, m, o, b, ch);
    Calls(w, m, o, o.status, DeleteUnbind, w1, o.(status := s), o.status, Save, ch, 13);
    SaveCall(w1, m, o.(status := s), o.status, ch, 12);
  }

  /** A resource marked for deletion that records the removal of its binding. */
  predicate Removing(w: World, m: Name, b: Id) {
    && m in w.bindings && m !in w.procs
    && var o := w.bindings[m];
    && o.deleting && o.finalizer && o.status == o.status.WithId(b).Running(Delete, b) && o.status.HasConditions()
  }

  /** One whose removal SM has not refused. */
  predicate BeingRemoved(w: World, m: Name, b: Id) {
    Removing(w, m, b) && (b in w.sm ==> w.sm[b].unbinding == Asked)
  }

  lemma DeletionWaits(w: World, m: Name, b: Id, ch: Choice)
    requires BeingRemoved(w, m, b) && b in w.sm && Calm(ch)
    ensures Pass(w, m, ch) == w
  {
    hide Pass;
    PollWaits(w, m, ch);
  }

  lemma RemovedCall(w: World, m: Name, c: Binding, b: Id, ch: Choice)
    requires Calm(ch) && c.status.opUrl == Some(OpUrl(Delete, b)) && b !in w.sm
    ensures Advance(Go(w, m, c, c.status, PollStatus), m, ch) == Go(w, m, c, c.status, PollDropSecret)
  {
    GoGo(w, m, c, c.status, PollStatus, c, c.status, PollDropSecret);
  }

  lemma PollDropCall(w: World, m: Name, c: Binding, ch: Choice)
    requires Calm(ch)
    ensures Advance(Go(w, m, c, c.status, PollDropSecret), m, ch) == Go(DropSecret(w, m), m, c, c.status, PollRemoveFinalizer)
  {
    GoGo(DropSecret(w, m), m, c, c.status, PollDropSecret, c, c.status, PollRemoveFinalizer);
  }

  lemma PollReleaseCall(w: World, m: Name, c: Binding, ch: Choice)
    requires Calm(ch) && m in w.bindings && w.bindings[m] == c && c.finalizer && c.deleting
    ensures var w1 := w.(bindings := w.bindings - {m}, clock := w.clock + 1);
      var c1 := c.(finalizer := false, rv := w.clock, status := c.status.WithoutId().NoOperation());
      Advance(Go(w, m, c, c.status, PollRemoveFinalizer), m, ch) == Go(w1, m, c1, c.status, Save)
  {
    var w1 := w.(bindings := w.bindings - {m}, clock := w.clock + 1);
    var c1 := c.(finalizer := false, rv := w.clock, status := c.status.WithoutId().NoOperation());
    GoGo(w1, m, c, c.status, PollRemoveFinalizer, c1, c.status, Save);
  }

  lemma UnsavedCall(w: World, m: Name, c: Binding, base: Status, ch: Choice)
    requires m !in w.bindings && m !in w.procs
    ensures Advance(Go(w, m, c, base, Save), m, ch) == w
  {
    assert w.procs[m := Proc(c, base, Save)] - {m} == w.procs;
  }

  /** The world without the resource and its secret. */
  function Gone(w: World, m: Name): World {
    w.(bindings := w.bindings - {m}, secrets := w.secrets - {m}, clock := w.clock + 1)
  }

  /** One undisturbed pass after SM is done: the resource and its secret are gone. */
  lemma DeletionSeen(w: World, m: Name, b: Id, ch: Choice)
    requires Removing(w, m, b) && b !in w.sm && Calm(ch)
    ensures Pass(w, m, ch) == Gone(w, m)
  {
    var o := w.bindings[m];
    var w1 := DropSecret(w, m);
    var c1 := o.(finalizer := false, rv := w.clock, status := o.status.WithoutId().NoOperation());
    assert Begin(w, m) == Go(w, m, o, o.status, FetchInstance);
    assert w1.bindings == w.bindings && w1.procs == w.procs && w1.clock == w.clock;
    assert w1.(bindings := w1.bindings - {m}, clock := w1.clock + 1) == Gone(w, m);
    hide Drain, Advance, Go, DropSecret;
    PollCall(w, m, o, ch);
    Calls(w, m, o, o.status, FetchInstance, w, o, o.status, PollStatus, ch, 14);
    RemovedCall(w, m, o, b, ch);
    Calls(w, m, o, o.status, PollStatus, w, o, o.status, PollDropSecret, ch, 13);
    PollDropCall(w, m, o, ch);
    Calls(w, m, o, o.status, PollDropSecret, w1, o, o.status, PollRemoveFinalizer, ch, 12);
    PollReleaseCall(w1, m, o, ch);
    Calls(w1, m, o, o.status, PollRemoveFinalizer, Gone(w, m), c1, o.status, Save, ch, 11);
    UnsavedCall(Gone(w, m), m, c1, o.status, ch);
    Stops(Gone(w, m), m, c1, o.status, Save, Gone(w, m), ch, 10);
  }
}
