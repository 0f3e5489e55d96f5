/**
 Where the guarantees end: the hypotheses of BindingRuns on the time to live of a backup, on deleting a
 backup, by hand or by garbage collection, before its original has moved on or before it has its finalizer,
 and on the deletion that skips SM are exact at their steps.
 */
module BindingLimits {
  import opened Options
  import opened Remote
  import opened BindingWorld
  import opened BindingReconciler
  import opened BindingInvariant
  import opened BindingSteps
  import opened BindingPolls
  import opened BindingRuns

  /** An answer without error or delay, from a ready instance, with the looked-at deadline passed. */
  const PLAIN := Choice(Ok, false, false, InService, false, true, false, "")

  // ----- the time to live of a backup

  /** A backup whose time is up reads its original, deletes itself, and its deletion unbinds what it holds. */
  function Retirement(m: Name): seq<Action> {
    [Call(m, PLAIN), Call(m, PLAIN), Start(m), Call(m, PLAIN), Call(m, PLAIN)]
  }

  /** The ready original `o` of the backup `m`, which is about to look at it; `m` holds `b`, its label. */
  ghost predicate Retiring(w: World, m: Name, o: Name, b: Id) {
    && Inv(w) && m in w.procs && w.procs[m].pc == FetchOriginal
    && w.procs[m].c.orig == Some(o) && w.procs[m].c.stale == Some(b) && b in w.sm
    && w.procs[m].base.id == Some(b) && w.procs[m].base.opUrl.None? && w.procs[m].base.HasConditions()
    && Original(w.bindings, o) && !w.bindings[o].deleting && o != m
    && w.bindings[o].status.readyCond == Some(true) && w.bindings[o].status.id.Some? && o in w.secrets
  }

  lemma RunFive(w: World, a: seq<Action>)
    requires |a| == 5
    ensures Run(w, a) == Step(Step(Step(Step(Step(w, a[0]), a[1]), a[2]), a[3]), a[4])
  {
    hide Step;
    var w1 := Step(w, a[0]);
    var w2 := Step(w1, a[1]);
    var w3 := Step(w2, a[2]);
    var w4 := Step(w3, a[3]);
    assert Run(w, a) == Run(w1, a[1..]);
    assert Run(w1, a[1..]) == Run(w2, a[1..][1..]) && a[1..][1..] == a[2..];
    assert Run(w2, a[2..]) == Run(w3, a[2..][1..]) && a[2..][1..] == a[3..];
    assert Run(w3, a[3..]) == Run(w4, a[3..][1..]) && a[3..][1..] == a[4..];
    assert Run(w4, a[4..]) == Run(Step(w4, a[4]), a[4..][1..]);
  }

  /** The world after the backup marked itself. */
  function Marked(w: World, m: Name): World
    requires m in w.bindings && m in w.procs
  {
    w.(bindings := w.bindings[m := w.bindings[m].(deleting := true, rv := w.clock)], clock := w.clock + 1,
       procs := w.procs - {m})
  }

  lemma RetiringMeans(w: World, m: Name, o: Name, b: Id)
    requires Retiring(w, m, o, b)
    ensures m in w.procs && At(w, m, w.procs[m]) && w.procs[m].pc == FetchOriginal && w.procs[m].c.orig == Some(o)
    ensures w.procs[m].base.id == Some(b) && w.procs[m].base.opUrl.None? && w.procs[m].base.HasConditions()
    ensures o in w.secrets && Original(w.bindings, o) && !w.bindings[o].deleting && w.bindings[o].status.id.Some?
    ensures w.bindings[o].status.readyCond == Some(true)
  {
    hide Inv;
  }

  lemma BackupFacts(w: World, m: Name, p: Proc)
    requires At(w, m, p) && p.pc == FetchOriginal
    ensures m in w.bindings && w.bindings[m].status == p.base && w.bindings[m].finalizer
  {
    AtSteady(w, m, p);
    hide Inv, At, Steady;
  }

  /** A ready original that is not being deleted shows the live credentials of its id. */
  lemma OwnLive(w: World, o: Name)
    requires Inv(w) && Original(w.bindings, o) && !w.bindings[o].deleting && o in w.secrets
    requires w.bindings[o].status.readyCond == Some(true) && w.bindings[o].status.id.Some?
    ensures w.secrets[o] in w.sm && w.bindings[o].status.id == Some(w.secrets[o])
  {
    SteadyAll(w, o);
    SteadyUse(w, o);
    hide Inv, Steady;
    assert StatusShape(w.bindings[o].status, w.bindings[o].deleting);
    assert Holds(w.bindings, o, w.bindings[o].status.id.value);
  }

  lemma SteadyUse(w: World, n: Name)
    requires Steady(w, n)
    ensures ReadyOk(w.bindings, w.sm, w.secrets) && SecretsOk(w.bindings, w.sm, w.secrets)
    ensures Tracked(w.bindings, w.sm) && BackupsMatch(w.bindings, w.sm)
    ensures NamesOk(w.bindings, w.sm) && OriginalsOk(w.bindings, w.sm)
    ensures FinalizersOk(w.bindings, w.sm, w.secrets)
  {
    hide ReadyOk, SecretsOk, Tracked, BackupsMatch, NamesOk, OriginalsOk, FinalizersOk, Others, PlansOk, Bounded, ShapesOk,
         OneName, OneHolder, OnlyHeld, OneBackup, LeftoversOk, AskedOk, BackupsRetired;
  }

  lemma LookStep(w: World, m: Name)
    requires m in w.procs && w.procs[m].pc == FetchOriginal && w.procs[m].c.orig.Some?
    requires var o := w.procs[m].c.orig.value; o in w.bindings && w.bindings[o].status.readyCond == Some(true)
    ensures Step(w, Call(m, PLAIN)) == Go(w, m, w.procs[m].c, w.procs[m].base, DeleteSelf)
  {
  }

  lemma MarkStep(w: World, m: Name)
    requires m in w.procs && w.procs[m].pc == DeleteSelf && m in w.bindings && w.bindings[m].finalizer
    ensures Step(w, Call(m, PLAIN)) == Marked(w, m)
  {
  }

  lemma MarkingSteps(w: World, m: Name, o: Name, b: Id)
    requires Retiring(w, m, o, b)
    ensures m in w.bindings && Step(Step(w, Call(m, PLAIN)), Call(m, PLAIN)) == Marked(w, m)
  {
    hide Retiring, At, Step;
    RetiringMeans(w, m, o, b);
    BackupFacts(w, m, w.procs[m]);
    LookStep(w, m);
    var w1 := Go(w, m, w.procs[m].c, w.procs[m].base, DeleteSelf);
    MarkStep(w1, m);
    assert w1.procs - {m} == w.procs - {m};
  }

  lemma UnbindingSteps(w: World, m: Name, b: Id)
    requires m in w.bindings && m !in w.procs && w.bindings[m].deleting && w.bindings[m].finalizer
    requires w.bindings[m].status.id == Some(b) && w.bindings[m].status.opUrl.None? && w.bindings[m].status.HasConditions()
    ensures Step(Step(Step(w, Start(m)), Call(m, PLAIN)), Call(m, PLAIN)).sm == w.sm - {b}
    ensures Step(Step(Step(w, Start(m)), Call(m, PLAIN)), Call(m, PLAIN)).bindings == w.bindings
    ensures Step(Step(Step(w, Start(m)), Call(m, PLAIN)), Call(m, PLAIN)).secrets == w.secrets
  {
    var w1 := Step(w, Start(m));
    var w2 := Step(w1, Call(m, PLAIN));
    assert w2.procs[m].pc == DeleteUnbind;
    assert b !in w.sm ==> w.sm - {b} == w.sm;
  }

  /**
   Retiring a backup keeps the credentials its ready original shows exactly when the original has
   already been given another id: the time to live alone protects nothing.
   */
  lemma RetirementExact(w: World, m: Name, o: Name, b: Id)
    requires Retiring(w, m, o, b)
    ensures var w1 := Run(w, Retirement(m));
      o in w1.secrets && (w1.secrets[o] in w1.sm <==> w.bindings[o].status.id != Some(b))
  {
    hide Retiring, Run, Step, At;
    RunFive(w, Retirement(m));
    RetiringMeans(w, m, o, b);
    BackupFacts(w, m, w.procs[m]);
    MarkingSteps(w, m, o, b);
    UnbindingSteps(Marked(w, m), m, b);
    assert Inv(w) by { InvAt(w, m); }
    hide Inv;
    OwnLive(w, o);
  }

  lemma InvAt(w: World, m: Name)
    requires m in w.procs && At(w, m, w.procs[m])
    ensures Inv(w)
  {
    hide Inv;
  }

  // ----- deleting a backup by hand

  /** The finalized backup `m` of the ready original `o`, at rest; it holds `b`, its label. */
  ghost predicate Discarding(w: World, m: Name, o: Name, b: Id) {
    && Inv(w) && m in w.bindings && m !in w.procs && b in w.sm
    && w.bindings[m].finalizer && w.bindings[m].stale == Some(b) && w.bindings[m].status.id == Some(b)
    && w.bindings[m].status.opUrl.None? && w.bindings[m].status.HasConditions()
    && Original(w.bindings, o) && !w.bindings[o].deleting && o != m && o in w.secrets
    && w.bindings[o].status.readyCond == Some(true) && w.bindings[o].status.id.Some?
  }

  /** The backup is deleted, and its deletion unbinds what it holds. */
  ghost function Discarded(w: World, m: Name): World {
    Step(Step(Step(Step(w, UserDelete(m)), Start(m)), Call(m, PLAIN)), Call(m, PLAIN))
  }

  lemma DiscardStarts(w: World, m: Name)
    requires m in w.bindings && w.bindings[m].finalizer
    ensures var w1 := Step(w, UserDelete(m));
      && w1.bindings == w.bindings[m := w.bindings[m].(deleting := true, rv := w.clock)]
      && w1.sm == w.sm && w1.secrets == w.secrets && w1.procs == w.procs
  {
  }

  /**
   Deleting a backup by hand keeps the credentials its ready original shows exactly when the original has
   already been given another id.
   */
  lemma DiscardExact(w: World, m: Name, o: Name, b: Id)
    requires Discarding(w, m, o, b)
    ensures var w1 := Discarded(w, m);
      o in w1.secrets && (w1.secrets[o] in w1.sm <==> w.bindings[o].status.id != Some(b))
  {
    hide Inv, Step;
    DiscardStarts(w, m);
    UnbindingSteps(Step(w, UserDelete(m)), m, b);
    OwnLive(w, o);
  }

  // ----- a backup has no finalizer until its first reconcile

  lemma OthersKeep(w: World, m: Name, x: Name, b: Id)
    requires BackupsMatch(w.bindings, w.sm) && NamesOk(w.bindings, w.sm) && OriginalsOk(w.bindings, w.sm)
    requires m in w.bindings && w.bindings[m].stale.Some? && b in w.sm && x != m
    requires forall o :: Original(w.bindings, o) ==> !Holds(w.bindings, o, w.bindings[m].stale.value)
    requires Named(w.sm, b, m)
    ensures !Keeps(w.bindings, w.sm, x, b)
  {
  }

  /**
   Deleting a backup whose original has moved on leaves no orphan exactly when the backup has its
   finalizer or SM attributes nothing to it.
   */
  lemma BackupDeletionExact(w: World, m: Name)
    requires Inv(w) && m in w.bindings && w.bindings[m].stale.Some?
    requires forall o :: Original(w.bindings, o) ==> !Holds(w.bindings, o, w.bindings[m].stale.value)
    ensures Tracked(Step(w, UserDelete(m)).bindings, w.sm) <==> w.bindings[m].finalizer || Nameless(w.sm, m)
  {
    hide Inv, Steady, BackupsMatch, NamesOk, OriginalsOk, FinalizersOk, SecretsOk, ReadyOk, ShapesOk, Bounded, Original;
    var bs1 := Step(w, UserDelete(m)).bindings;
    SteadyAll(w, m);
    SteadyUse(w, m);
    if w.bindings[m].finalizer {
      MarkedTracked(w, m);
    } else if b :| Named(w.sm, b, m) {
      forall x
        ensures !Keeps(bs1, w.sm, x, b)
      {
        if x != m {
          OthersKeep(w, m, x, b);
          RemovedKeeps(w, m, x, b);
        }
      }
    } else {
      UnusedBackup(w, m);
    }
  }

  /** Garbage collection of a backup whose original is gone leaves no orphan on the same condition. */
  lemma CollectExact(w: World, m: Name)
    requires Inv(w) && m in w.bindings && w.bindings[m].stale.Some?
    requires w.bindings[m].orig.Some? && w.bindings[m].orig.value !in w.bindings
    requires forall o :: Original(w.bindings, o) ==> !Holds(w.bindings, o, w.bindings[m].stale.value)
    ensures Tracked(Step(w, Collect(m)).bindings, w.sm) <==> w.bindings[m].finalizer || Nameless(w.sm, m)
  {
    hide Inv, Original, Holds, Tracked, Nameless, DeleteObject;
    assert Step(w, Collect(m)) == Step(w, UserDelete(m));
    BackupDeletionExact(w, m);
  }

  lemma MarkedTracked(w: World, m: Name)
    requires m in w.bindings && w.bindings[m].finalizer && Tracked(w.bindings, w.sm)
    ensures Tracked(Step(w, UserDelete(m)).bindings, w.sm)
  {
    var bs1 := Step(w, UserDelete(m)).bindings;
    assert forall x, b :: Keeps(w.bindings, w.sm, x, b) ==> Keeps(bs1, w.sm, x, b);
  }

  lemma RemovedKeeps(w: World, m: Name, x: Name, b: Id)
    ensures Keeps(w.bindings - {m}, w.sm, x, b) ==> Keeps(w.bindings, w.sm, x, b)
  {
  }

  lemma UnusedBackup(w: World, m: Name)
    requires Tracked(w.bindings, w.sm) && FinalizersOk(w.bindings, w.sm, w.secrets) && Nameless(w.sm, m)
    requires m in w.bindings && !w.bindings[m].finalizer
    ensures Tracked(w.bindings - {m}, w.sm)
  {
    forall b | b in w.sm
      ensures exists x :: Keeps(w.bindings - {m}, w.sm, x, b)
    {
      var x :| Keeps(w.bindings, w.sm, x, b);
      assert Keeps(w.bindings - {m}, w.sm, x, b);
    }
  }

  // ----- a deletion that skips SM

  /** The answers that take the short way: the instance is not found. */
  const GONE := PLAIN.(instance := Missing)

  function ShortDeletion(n: Name): seq<Action> {
    [Call(n, GONE), Call(n, PLAIN), Call(n, PLAIN)]
  }

  /** A deletion without id whose instance is gone, with nobody else writing the resource. */
  ghost predicate Skipping(w: World, n: Name) {
    Inv(w) && n in w.procs && Bypasses(w.procs[n], GONE) && Unchanged(w, n, w.procs[n].c)
  }

  lemma RunThree(w: World, a: seq<Action>)
    requires |a| == 3
    ensures Run(w, a) == Step(Step(Step(w, a[0]), a[1]), a[2])
  {
    hide Step;
    var w1 := Step(w, a[0]);
    var w2 := Step(w1, a[1]);
    assert Run(w, a) == Run(w1, a[1..]);
    assert Run(w1, a[1..]) == Run(w2, a[1..][1..]) && a[1..][1..] == a[2..];
    assert Run(w2, a[2..]) == Run(Step(w2, a[2]), a[2..][1..]);
  }

  lemma SkippingFacts(w: World, n: Name)
    requires Skipping(w, n)
    ensures n in w.bindings && w.bindings[n].deleting && w.bindings[n].status.id.None?
    ensures w.procs[n].c.finalizer && w.procs[n].c.stale == w.bindings[n].stale
  {
    var p := w.procs[n];
    AtSteady(w, n, p);
    hide Inv, Steady;
  }

  lemma SkipFirst(w: World, n: Name)
    requires n in w.procs && Bypasses(w.procs[n], GONE)
    ensures Step(w, Call(n, GONE)) == Go(w, n, w.procs[n].c, w.procs[n].base, DeleteDropSecret)
  {
  }

  lemma SkipSecond(w: World, n: Name)
    requires n in w.procs && w.procs[n].pc == DeleteDropSecret
    ensures Step(w, Call(n, PLAIN)) == Go(DropSecret(w, n), n, w.procs[n].c, w.procs[n].base, DeleteRemoveFinalizer)
  {
  }

  lemma SkipThird(w: World, n: Name)
    requires n in w.procs && w.procs[n].pc == DeleteRemoveFinalizer && w.procs[n].c.finalizer
    requires Unchanged(w, n, w.procs[n].c) && w.bindings[n].deleting
    ensures var w1 := Step(w, Call(n, PLAIN)); w1.bindings == w.bindings - {n} && w1.sm == w.sm
  {
  }

  /** Another resource holds `b`. */
  ghost predicate HeldElsewhere(bs: Bindings, n: Name, b: Id) {
    exists x :: x != n && Holds(bs, x, b)
  }

  /**
   Deleting a binding whose instance is gone leaves no orphan exactly when another resource holds whatever
   SM attributes to it; for an original, exactly when SM attributes nothing to it.
   */
  lemma BypassExact(w: World, n: Name)
    requires Skipping(w, n)
    ensures var w1 := Run(w, ShortDeletion(n));
      && n !in w1.bindings && w1.sm == w.sm
      && (Tracked(w1.bindings, w1.sm) <==> forall b :: Named(w.sm, b, n) ==> HeldElsewhere(w.bindings, n, b))
      && (w.procs[n].c.stale.None? ==> (Tracked(w1.bindings, w1.sm) <==> Nameless(w.sm, n)))
  {
    SkippingFacts(w, n);
    assert Inv(w);
    SteadyAll(w, n);
    SteadyUse(w, n);
    hide Inv, Steady, Step, Run;
    RunThree(w, ShortDeletion(n));
    SkipFirst(w, n);
    var w1 := Go(w, n, w.procs[n].c, w.procs[n].base, DeleteDropSecret);
    SkipSecond(w1, n);
    SkipThird(Go(DropSecret(w1, n), n, w.procs[n].c, w.procs[n].base, DeleteRemoveFinalizer), n);
    TrackedWithout(w, n);
    if w.bindings[n].stale.None? {
      NotHeldElsewhere(w, n);
    }
  }

  lemma TrackedWithout(w: World, n: Name)
    requires n in w.bindings && w.bindings[n].status.id.None? && Tracked(w.bindings, w.sm)
    ensures Tracked(w.bindings - {n}, w.sm) <==> forall b :: Named(w.sm, b, n) ==> HeldElsewhere(w.bindings, n, b)
  {
    var bs1 := w.bindings - {n};
    if Tracked(bs1, w.sm) {
      forall b | Named(w.sm, b, n)
        ensures HeldElsewhere(w.bindings, n, b)
      {
        var x :| Keeps(bs1, w.sm, x, b);
        assert x != n && Holds(w.bindings, x, b);
      }
    } else {
      var b :| b in w.sm && forall x :: !Keeps(bs1, w.sm, x, b);
      var y :| Keeps(w.bindings, w.sm, y, b);
      assert !Keeps(bs1, w.sm, y, b);
      assert y == n && Named(w.sm, b, n);
      if x :| x != n && Holds(w.bindings, x, b) {
        assert Keeps(bs1, w.sm, x, b);
      }
    }
  }

  /** What SM attributes to an original nobody else holds. */
  lemma NotHeldElsewhere(w: World, n: Name)
    requires Original(w.bindings, n)
    requires BackupsMatch(w.bindings, w.sm) && OriginalsOk(w.bindings, w.sm)
    ensures forall b :: Named(w.sm, b, n) ==> !HeldElsewhere(w.bindings, n, b)
  {
  }
}
