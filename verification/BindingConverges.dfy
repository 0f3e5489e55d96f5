/**
 Rotations converge: the reconciles of the original and of its backup may come in any order and any number, and
 SM may create the new binding and remove the old one later.
 */
module BindingConverges {
  import opened Options
  import opened Remote
  import opened BindingWorld
  import opened BindingReconciler
  import opened BindingInvariant
  import opened BindingProgress
  import opened BindingEnds
  import opened BindingLater

  // ----- a pass that only maintains the secret

  /** A resource at rest that holds `b` and is neither rotating, nor due to rotate, nor deleted. */
  predicate Resting(w: World, n: Name, b: Id) {
    && n in w.bindings && n !in w.procs && b in w.sm && w.sm[b].provisioning == Done
    && var o := w.bindings[n];
    && !o.deleting && o.finalizer && o.status == o.status.WithId(b).Success() && o.status.opUrl.None?
    && o.status.rotation == NotRotating && (o.forceRotate ==> o.policy != Some(true))
  }

  /** The world after its secret was stored again. */
  function Maintained(w: World, n: Name, b: Id): World
    requires n in w.bindings
  {
    w.(bindings := w.bindings[n := w.bindings[n].(rv := w.clock)], secrets := w.secrets[n := b], clock := w.clock + 1)
  }

  lemma MaintainedIs(w: World, n: Name, b: Id)
    requires n in w.bindings
    ensures var w1 := StoreSecret(w, n, b);
      w1.procs == w.procs && n in w1.bindings && w1.bindings[n] == w.bindings[n]
      && PutStatus(w1, n, w.bindings[n].status) == Maintained(w, n, b)
  {
  }

  lemma KeepCall(w: World, n: Name, c: Binding, ch: Choice)
    requires Calm(ch) && c.status.readyCond == Some(true) && (c.stale.Some? ==> !ch.due) && (c.forceRotate ==> c.policy != Some(true))
    ensures Advance(Go(w, n, c, c.status, ReadyCheck), n, ch) == Go(w, n, c, c.status, Maintain)
  {
    GoGo(w, n, c, c.status, ReadyCheck, c, c.status, Maintain);
  }

  lemma MaintenanceCompletes(w: World, n: Name, b: Id, ch: Choice)
    requires Resting(w, n, b) && Calm(ch) && (w.bindings[n].stale.Some? ==> !ch.due)
    ensures Pass(w, n, ch) == Maintained(w, n, b)
  {
    var o := w.bindings[n];
    var w1 := StoreSecret(w, n, b);
    assert Begin(w, n) == Go(w, n, o, o.status, FetchInstance);
    hide Drain, Advance, Go, PutStatus, Maintained, StoreSecret;
    MaintainedIs(w, n, b);
    FetchCall(w, n, o, ch);
    Calls(w, n, o, o.status, FetchInstance, w, o, o.status, CheckExists, ch, 14);
    CheckCall(w, n, o, ch);
    Calls(w, n, o, o.status, CheckExists, w, o, o.status, AddFinalizer, ch, 13);
    FinalizerCall(w, n, o, ch);
    Calls(w, n, o, o.status, AddFinalizer, w, o, o.status, ReadyCheck, ch, 12);
    KeepCall(w, n, o, ch);
    Calls(w, n, o, o.status, ReadyCheck, w, o, o.status, Maintain, ch, 11);
    MaintainedCall(w, n, o, b, ch);
    Calls(w, n, o, o.status, Maintain, w, o, o.status, MaintainStore, ch, 10);
    StoredCall(w, n, o, b, ch);
    Calls(w, n, o, o.status, MaintainStore, w1, o, o.status, Save, ch, 9);
    SaveCall(w1, n, o, o.status, ch, 8);
  }

  // ----- where a rotation can stand

  /** The original waits for the new binding, or holds it and may still say that it rotates. */
  predicate OriginalOk(w: World, n: Name, b1: Id) {
    || Creating(w, n, b1) || Rotated(w, n, b1)
    || (Resting(w, n, b1) && w.bindings[n].stale.None? && !w.bindings[n].forceRotate)
  }

  /** The backup was never reconciled, holds the old binding, is marked, has it removed, or is gone with everything it held. */
  ghost predicate BackupOk(w: World, m: Name, n: Name, b: Id) {
    if m !in w.bindings then b !in w.sm && m !in w.secrets
    else
      && w.bindings[m].stale.Some? && w.bindings[m].orig == Some(n) && w.bindings[m].policy == Some(false)
      && (Adopting(w, m, b) || (Kept(w, m, n, b) && Resting(w, m, b) && Live(w.sm, b))
          || (Leaving(w, m, b) && w.bindings[m].status.opUrl.None? && Live(w.sm, b)) || BeingRemoved(w, m, b))
  }

  ghost predicate Rotation(w: World, n: Name, m: Name, b: Id, b1: Id) {
    && n != m && b != b1 && m !in w.procs && OriginalOk(w, n, b1) && BackupOk(w, m, n, b)
    && w.sm[b1].unbinding == NotAsked
  }

  /** What the original has left to do. */
  function OriginalRank(w: World, n: Name): nat {
    if n !in w.bindings then 0
    else if w.bindings[n].status.opUrl.Some? then 2
    else if w.bindings[n].status.rotation != NotRotating then 1
    else 0
  }

  /** What the backup has left to do: one step more when SM may remove the old binding `later`. */
  function BackupRank(w: World, m: Name, later: bool): nat {
    var more := if later then 1 else 0;
    if m !in w.bindings then 0
    else if w.bindings[m].status.opUrl.Some? then 1
    else if w.bindings[m].deleting then 1 + more
    else if w.bindings[m].finalizer then 2 + more
    else 3 + more
  }

  // ----- every move keeps the rotation going

  /** What one pass of the original does. */
  function OriginalMoved(w: World, n: Name, b1: Id): World
    requires n in w.bindings
  {
    if w.bindings[n].status.opUrl.Some? then
      if b1 in w.sm && w.sm[b1].provisioning == Pending then w else NewShown(w, n, b1)
    else if w.bindings[n].status.rotation == NotRotating then Maintained(w, n, b1)
    else Dropped(w, n, b1)
  }

  lemma OriginalMove(w: World, n: Name, b1: Id, ch: Choice)
    requires OriginalOk(w, n, b1) && Calm(ch)
    ensures Reconciled(w, n, ch) == OriginalMoved(w, n, b1)
  {
    hide Pass;
    if w.bindings[n].status.opUrl.Some? {
      if w.sm[b1].provisioning == Pending {
        CreationWaits(w, n, b1, ch);
      } else {
        CreationSeen(w, n, b1, ch);
      }
    } else if w.bindings[n].status.rotation == NotRotating {
      MaintenanceCompletes(w, n, b1, ch);
    } else {
      ConditionDropped(w, n, b1, ch);
    }
  }

  /** The original's passes leave the backup alone. */
  lemma BackupApart(w: World, w1: World, n: Name, m: Name, b: Id)
    requires BackupOk(w, m, n, b) && n != m
    requires w1.bindings.Keys == w.bindings.Keys && (m in w.bindings ==> w1.bindings[m] == w.bindings[m])
    requires w1.sm == w.sm && w1.procs == w.procs && (m in w1.secrets <==> m in w.secrets)
    ensures BackupOk(w1, m, n, b) && forall later :: BackupRank(w1, m, later) == BackupRank(w, m, later)
  {
  }

  /** SM is done with the new binding. */
  predicate NewDone(w: World, b1: Id) {
    b1 in w.sm && w.sm[b1].provisioning == Done
  }

  lemma OriginalStays(w: World, n: Name, b1: Id)
    requires OriginalOk(w, n, b1)
    ensures var w1 := OriginalMoved(w, n, b1);
      && OriginalOk(w1, n, b1) && OriginalRank(w1, n) <= OriginalRank(w, n)
      && (NewDone(w, b1) && OriginalRank(w, n) > 0 ==> OriginalRank(w1, n) < OriginalRank(w, n))
      && w1.sm == w.sm && w1.procs == w.procs && w1.bindings == w.bindings[n := w1.bindings[n]]
      && (forall x :: x != n ==> (x in w1.secrets <==> x in w.secrets))
  {
  }

  lemma OriginalKeeps(w: World, n: Name, m: Name, b: Id, b1: Id, ch: Choice)
    requires Rotation(w, n, m, b, b1) && Calm(ch)
    ensures var w1 := Reconciled(w, n, ch);
      && Rotation(w1, n, m, b, b1) && OriginalRank(w1, n) <= OriginalRank(w, n)
      && (NewDone(w, b1) && OriginalRank(w, n) > 0 ==> OriginalRank(w1, n) < OriginalRank(w, n))
      && forall later :: BackupRank(w1, m, later) == BackupRank(w, m, later)
  {
    OriginalMove(w, n, b1, ch);
    OriginalStays(w, n, b1);
    hide Reconciled, BackupOk, BackupRank, OriginalOk, OriginalMoved, OriginalRank;
    BackupApart(w, Reconciled(w, n, ch), n, m, b);
  }

  predicate Ready(w: World, n: Name) {
    n in w.bindings && w.bindings[n].status.readyCond == Some(true)
  }

  /** What one pass of the backup does. */
  function BackupMoved(w: World, m: Name, n: Name, b: Id, ch: Choice): World {
    if m !in w.bindings then w
    else if w.bindings[m].status.opUrl.Some? then
      if b in w.sm then w else Gone(w, m)
    else if w.bindings[m].deleting then
      if ch.async && b in w.sm then BeingLeft(w, m, b) else Left(w, m, b)
    else if !w.bindings[m].finalizer then Adopted(w, m, b)
    else if !ch.due then Maintained(w, m, b)
    else if Ready(w, n) then DeleteObject(w, m)
    else Reprieved(w, m)
  }

  lemma BackupMove(w: World, n: Name, m: Name, b: Id, ch: Choice)
    requires BackupOk(w, m, n, b) && m !in w.procs && n in w.bindings && Calm(ch)
    ensures Reconciled(w, m, ch) == BackupMoved(w, m, n, b, ch)
  {
    hide Pass, Named;
    if m in w.bindings {
      ReconciledIs(w, m, ch);
      hide Reconciled;
      if w.bindings[m].status.opUrl.Some? {
        RemovalMove(w, m, b, ch);
      } else if w.bindings[m].deleting {
        DeletionMove(w, m, b, ch);
      } else if !w.bindings[m].finalizer {
        AdoptionCompletes(w, m, b, ch);
      } else if !ch.due {
        MaintenanceCompletes(w, m, b, ch);
      } else if Ready(w, n) {
        RetirementStarts(w, m, n, b, ch);
      } else {
        RetirementWaits(w, m, n, b, ch);
      }
    }
  }

  lemma RemovalMove(w: World, m: Name, b: Id, ch: Choice)
    requires BeingRemoved(w, m, b) && Calm(ch)
    ensures Pass(w, m, ch) == if b in w.sm then w else Gone(w, m)
  {
    hide Pass, Gone, Removing;
    RemovedHere(w, m, b);
    if b in w.sm {
      DeletionWaits(w, m, b, ch);
    } else {
      DeletionSeen(w, m, b, ch);
    }
  }

  lemma RemovedHere(w: World, m: Name, b: Id)
    requires Removing(w, m, b)
    ensures m in w.bindings && m !in w.procs
  {
  }

  lemma DeletionMove(w: World, m: Name, b: Id, ch: Choice)
    requires Leaving(w, m, b) && b in w.sm && Calm(ch)
    ensures m in w.bindings && Pass(w, m, ch) == if ch.async then BeingLeft(w, m, b) else Left(w, m, b)
  {
    hide Pass, BeingLeft, Left;
    if ch.async {
      DeletionStarts(w, m, b, ch);
    } else {
      DeletionCompletes(w, m, b, ch);
    }
  }

  /** The backup's passes leave the original alone. */
  lemma OriginalApart(w: World, w1: World, n: Name, b1: Id)
    requires OriginalOk(w, n, b1) && n in w1.bindings && w1.bindings[n] == w.bindings[n] && w1.procs == w.procs
    requires b1 in w1.sm && w1.sm[b1] == w.sm[b1]
    ensures OriginalOk(w1, n, b1) && OriginalRank(w1, n) == OriginalRank(w, n)
  {
  }

  lemma BackupFrame(w: World, n: Name, m: Name, b: Id, b1: Id, ch: Choice)
    requires n != m && b != b1 && n in w.bindings && b1 in w.sm
    requires m in w.bindings && w.bindings[m].deleting ==> w.bindings[m].finalizer
    ensures var w1 := BackupMoved(w, m, n, b, ch);
      && n in w1.bindings && w1.bindings[n] == w.bindings[n] && w1.procs == w.procs && b1 in w1.sm && w1.sm[b1] == w.sm[b1]
  {
  }

  /** A pass of the backup that finds its time up, its original ready, and SM not busy with its binding. */
  predicate Ripens(w: World, n: Name, b: Id, ch: Choice) {
    ch.due && Ready(w, n) && !(b in w.sm && w.sm[b].unbinding == Asked)
  }

  lemma BackupStays(w: World, n: Name, m: Name, b: Id, ch: Choice)
    requires BackupOk(w, m, n, b) && n != m && n in w.bindings
    ensures BackupOk(BackupMoved(w, m, n, b, ch), m, n, b)
  {
    if m in w.bindings {
      if w.bindings[m].status.opUrl.Some? || w.bindings[m].deleting {
        assert !Adopting(w, m, b) && !Kept(w, m, n, b);
      } else {
        assert !Leaving(w, m, b) && !BeingRemoved(w, m, b);
      }
    }
  }

  lemma BackupLowers(w: World, n: Name, m: Name, b: Id, ch: Choice, later: bool)
    requires BackupOk(w, m, n, b) && n != m && n in w.bindings && (ch.async ==> later)
    ensures var w1 := BackupMoved(w, m, n, b, ch);
      && BackupRank(w1, m, later) <= BackupRank(w, m, later)
      && (Ripens(w, n, b, ch) && BackupRank(w, m, later) > 0 ==> BackupRank(w1, m, later) < BackupRank(w, m, later))
  {
    hide Named, Live;
  }

  lemma BackupKeeps(w: World, n: Name, m: Name, b: Id, b1: Id, ch: Choice, later: bool)
    requires Rotation(w, n, m, b, b1) && Calm(ch) && (ch.async ==> later)
    ensures var w1 := Reconciled(w, m, ch);
      && Rotation(w1, n, m, b, b1) && OriginalRank(w1, n) == OriginalRank(w, n)
      && BackupRank(w1, m, later) <= BackupRank(w, m, later)
      && (Ripens(w, n, b, ch) && BackupRank(w, m, later) > 0 ==> BackupRank(w1, m, later) < BackupRank(w, m, later))
  {
    MarkedFinalized(w, n, m, b, b1);
    BackupMove(w, n, m, b, ch);
    hide Reconciled, BackupMoved, BackupRank, OriginalRank, BackupOk, OriginalOk, Ripens;
    BackupFrame(w, n, m, b, b1, ch);
    BackupStays(w, n, m, b, ch);
    BackupLowers(w, n, m, b, ch, later);
    OriginalApart(w, BackupMoved(w, m, n, b, ch), n, b1);
  }

  lemma MarkedFinalized(w: World, n: Name, m: Name, b: Id, b1: Id)
    requires Rotation(w, n, m, b, b1)
    ensures m in w.bindings && w.bindings[m].deleting ==> w.bindings[m].finalizer
    ensures n in w.bindings && b1 in w.sm
  {
  }

  /** SM finishes what it was asked to do with the new or the old binding. */
  lemma FinishKeeps(w: World, n: Name, m: Name, b: Id, b1: Id, former: bool)
    requires Rotation(w, n, m, b, b1)
    ensures var w1 := SmFinish(w, if former then b else b1, true);
      && Rotation(w1, n, m, b, b1) && OriginalRank(w1, n) == OriginalRank(w, n)
      && forall later :: BackupRank(w1, m, later) == BackupRank(w, m, later)
  {
    if former {
      OldFinished(w, n, m, b);
    } else {
      NewFinished(w, n, m, b, b1);
    }
    hide BackupOk;
  }

  lemma OldFinished(w: World, n: Name, m: Name, b: Id)
    requires BackupOk(w, m, n, b)
    ensures BackupOk(SmFinish(w, b, true), m, n, b)
  {
  }

  lemma NewFinished(w: World, n: Name, m: Name, b: Id, b1: Id)
    requires BackupOk(w, m, n, b) && b != b1 && b1 in w.sm && w.sm[b1].unbinding == NotAsked
    ensures BackupOk(SmFinish(w, b1, true), m, n, b)
  {
    assert forall b' :: Named(SmFinish(w, b1, true).sm, b', m) ==> Named(w.sm, b', m);
  }

  // ----- what a rotation leaves alone

  /** The status once every operation is done and the rotation over. */
  function Finished(s: Status): Status {
    (if s.opUrl.Some? then s.NoOperation() else s).Success().(rotation := NotRotating)
  }

  /** Apart from the two resources and their bindings, `w` is `w0`; the original and its binding end the same. */
  ghost predicate Around(w0: World, w: World, n: Name, m: Name, b: Id, b1: Id) {
    && w.procs == w0.procs && w.bindings.Keys - {m} == w0.bindings.Keys - {m} && w.sm - {b, b1} == w0.sm - {b, b1}
    && (forall x :: x in w.bindings && x in w0.bindings && x != n && x != m ==> w.bindings[x] == w0.bindings[x])
    && w.secrets - {n, m} == w0.secrets - {n, m}
    && (b1 in w.sm && b1 in w0.sm ==> w.sm[b1] == w0.sm[b1].(provisioning := w.sm[b1].provisioning))
    && (n in w.bindings && n in w0.bindings ==>
          && w.bindings[n] == w0.bindings[n].(rv := w.bindings[n].rv, status := w.bindings[n].status)
          && Finished(w.bindings[n].status) == Finished(w0.bindings[n].status))
  }

  lemma AroundItself(w: World, n: Name, m: Name, b: Id, b1: Id)
    ensures Around(w, w, n, m, b, b1)
  {
  }

  lemma AroundThen(w0: World, w: World, w1: World, n: Name, m: Name, b: Id, b1: Id)
    requires Around(w0, w, n, m, b, b1) && Around(w, w1, n, m, b, b1) && n in w0.bindings && n != m
    requires b1 in w0.sm && b1 in w.sm
    ensures Around(w0, w1, n, m, b, b1)
  {
    hide Finished;
    assert n in w0.bindings.Keys - {m} && n in w.bindings && n in w1.bindings;
    forall x | x in w1.bindings && x in w0.bindings && x != n && x != m
      ensures w1.bindings[x] == w0.bindings[x]
    {
      assert x in w1.bindings.Keys - {m};
    }
  }

  /** The resource shows the new binding, once it has no operation any more. */
  predicate Shown(w: World, n: Name, b1: Id) {
    n in w.bindings && w.bindings[n].status.opUrl.None? ==> n in w.secrets && w.secrets[n] == b1
  }

  lemma OriginalAround(w: World, n: Name, m: Name, b: Id, b1: Id)
    requires OriginalOk(w, n, b1) && n != m && b != b1
    ensures Around(w, OriginalMoved(w, n, b1), n, m, b, b1) && Shown(OriginalMoved(w, n, b1), n, b1)
  {
    hide OriginalOk, Around, Shown, NewShown, Maintained, Dropped;
    assert n in w.bindings by { OriginalHere(w, n, b1); }
    StatusAround(w, n, m, b, b1);
    AroundItself(w, n, m, b, b1);
    if w.bindings[n].status.opUrl.Some? && b1 in w.sm && w.sm[b1].provisioning == Pending {
      PendingShown(w, n, b1);
    }
  }

  lemma OriginalHere(w: World, n: Name, b1: Id)
    requires OriginalOk(w, n, b1)
    ensures n in w.bindings && b1 in w.sm
  {
  }

  lemma PendingShown(w: World, n: Name, b1: Id)
    requires n in w.bindings && w.bindings[n].status.opUrl.Some?
    ensures Shown(w, n, b1)
  {
  }

  lemma StatusAround(w: World, n: Name, m: Name, b: Id, b1: Id)
    requires n in w.bindings && n != m && b != b1
    ensures w.bindings[n].status.opUrl.Some? ==> Around(w, NewShown(w, n, b1), n, m, b, b1)
    ensures w.bindings[n].status.opUrl.None? ==>
              Around(w, Maintained(w, n, b1), n, m, b, b1) && Around(w, Dropped(w, n, b1), n, m, b, b1)
    ensures Shown(NewShown(w, n, b1), n, b1) && Shown(Maintained(w, n, b1), n, b1) && Shown(Dropped(w, n, b1), n, b1)
  {
  }

  lemma RemovedAround(w: World, n: Name, m: Name, b: Id, b1: Id)
    requires n != m && b != b1 && n in w.bindings && m in w.bindings
    ensures Around(w, Gone(w, m), n, m, b, b1) && Gone(w, m).secrets - {m} == w.secrets - {m}
    ensures Around(w, Left(w, m, b), n, m, b, b1) && Left(w, m, b).secrets - {m} == w.secrets - {m}
    ensures b in w.sm ==> Around(w, BeingLeft(w, m, b), n, m, b, b1) && BeingLeft(w, m, b).secrets - {m} == w.secrets - {m}
  {
  }

  lemma KeptAround(w: World, n: Name, m: Name, b: Id, b1: Id)
    requires n != m && b != b1 && n in w.bindings && m in w.bindings
    ensures Around(w, Adopted(w, m, b), n, m, b, b1) && Adopted(w, m, b).secrets - {m} == w.secrets - {m}
    ensures Around(w, Maintained(w, m, b), n, m, b, b1) && Maintained(w, m, b).secrets - {m} == w.secrets - {m}
  {
    hide Finished;
  }

  lemma TimedAround(w: World, n: Name, m: Name, b: Id, b1: Id)
    requires n != m && b != b1 && n in w.bindings && m in w.bindings
    ensures Around(w, Reprieved(w, m), n, m, b, b1) && Reprieved(w, m).secrets - {m} == w.secrets - {m}
    ensures w.bindings[m].finalizer ==>
              Around(w, DeleteObject(w, m), n, m, b, b1) && DeleteObject(w, m).secrets - {m} == w.secrets - {m}
  {
    hide Finished;
  }

  lemma BackupAround(w: World, n: Name, m: Name, b: Id, b1: Id, ch: Choice)
    requires n != m && b != b1 && n in w.bindings
    ensures Around(w, BackupMoved(w, m, n, b, ch), n, m, b, b1)
    ensures BackupMoved(w, m, n, b, ch).secrets - {m} == w.secrets - {m}
  {
    hide Around, Gone, Left, BeingLeft, Adopted, Maintained, Reprieved, DeleteObject, Ready;
    AroundItself(w, n, m, b, b1);
    if m in w.bindings {
      RemovedAround(w, n, m, b, b1);
      KeptAround(w, n, m, b, b1);
      TimedAround(w, n, m, b, b1);
    }
  }

  lemma FinishAround(w: World, n: Name, m: Name, b: Id, b1: Id, former: bool)
    requires b1 in w.sm && w.sm[b1].unbinding == NotAsked
    ensures Around(w, SmFinish(w, if former then b else b1, true), n, m, b, b1)
  {
  }

  lemma StillShown(w: World, w1: World, n: Name, m: Name, b1: Id)
    requires n != m && w1.secrets - {m} == w.secrets - {m} && Shown(w, n, b1)
    requires n in w.bindings && n in w1.bindings && w1.bindings[n] == w.bindings[n]
    ensures Shown(w1, n, b1)
  {
    assert n in w.secrets - {m} <==> n in w.secrets;
    assert n in w1.secrets - {m} <==> n in w1.secrets;
  }

  // ----- any order, any number

  /** A reconcile of the original or of its backup, or the end of an operation on the former or the new binding. */
  datatype Move = Original(ch: Choice) | Backup(ch: Choice) | Finish(former: bool)

  ghost function Moved(w: World, n: Name, m: Name, b: Id, b1: Id, move: Move): World {
    match move
    case Original(ch) => Reconciled(w, n, ch)
    case Backup(ch) => Reconciled(w, m, ch)
    case Finish(former) => SmFinish(w, if former then b else b1, true)
  }

  ghost function MovedAll(w: World, n: Name, m: Name, b: Id, b1: Id, moves: seq<Move>): World
    decreases |moves|
  {
    if moves == [] then w else MovedAll(Moved(w, n, m, b, b1, moves[0]), n, m, b, b1, moves[1..])
  }

  /** Every reconcile is answered; SM removes the old binding at once, unless it may do so `later`. */
  predicate Undisturbed(moves: seq<Move>, later: bool) {
    forall k :: 0 <= k < |moves| ==> Answered(moves[k], later)
  }

  predicate Answered(move: Move, later: bool) {
    match move
    case Original(ch) => Calm(ch)
    case Backup(ch) => Calm(ch) && (ch.async ==> later)
    case Finish(_) => true
  }

  /** The reconciles of the original that find the new binding created. */
  ghost function Turns(w: World, n: Name, m: Name, b: Id, b1: Id, moves: seq<Move>): nat
    decreases |moves|
  {
    if moves == [] then 0
    else (if moves[0].Original? && NewDone(w, b1) then 1 else 0) + Turns(Moved(w, n, m, b, b1, moves[0]), n, m, b, b1, moves[1..])
  }

  /** The reconciles of the backup that find its time up, its original ready and SM not busy with its binding. */
  ghost function Dues(w: World, n: Name, m: Name, b: Id, b1: Id, moves: seq<Move>): nat
    decreases |moves|
  {
    if moves == [] then 0
    else (if moves[0].Backup? && Ripens(w, n, b, moves[0].ch) then 1 else 0) +
         Dues(Moved(w, n, m, b, b1, moves[0]), n, m, b, b1, moves[1..])
  }

  /** A rotation under way from `w0`. */
  ghost predicate Underway(w0: World, w: World, n: Name, m: Name, b: Id, b1: Id) {
    Rotation(w, n, m, b, b1) && Around(w0, w, n, m, b, b1) && Shown(w, n, b1) && n in w0.bindings && b1 in w0.sm
  }

  lemma OriginalProceeds(w0: World, w: World, n: Name, m: Name, b: Id, b1: Id, ch: Choice)
    requires Underway(w0, w, n, m, b, b1) && Calm(ch)
    ensures var w1 := Reconciled(w, n, ch);
      && Underway(w0, w1, n, m, b, b1) && OriginalRank(w1, n) <= OriginalRank(w, n)
      && (NewDone(w, b1) && OriginalRank(w, n) > 0 ==> OriginalRank(w1, n) < OriginalRank(w, n))
      && forall later :: BackupRank(w1, m, later) == BackupRank(w, m, later)
  {
    MarkedFinalized(w, n, m, b, b1);
    OriginalKeeps(w, n, m, b, b1, ch);
    OriginalMove(w, n, b1, ch);
    OriginalAround(w, n, m, b, b1);
    hide Around, Shown, Reconciled, OriginalRank, BackupRank, OriginalOk, BackupOk, OriginalMoved;
    AroundThen(w0, w, Reconciled(w, n, ch), n, m, b, b1);
  }

  lemma BackupProceeds(w0: World, w: World, n: Name, m: Name, b: Id, b1: Id, ch: Choice, later: bool)
    requires Underway(w0, w, n, m, b, b1) && Calm(ch) && (ch.async ==> later)
    ensures var w1 := Reconciled(w, m, ch);
      && Underway(w0, w1, n, m, b, b1) && OriginalRank(w1, n) == OriginalRank(w, n)
      && BackupRank(w1, m, later) <= BackupRank(w, m, later)
      && (Ripens(w, n, b, ch) && BackupRank(w, m, later) > 0 ==> BackupRank(w1, m, later) < BackupRank(w, m, later))
  {
    MarkedFinalized(w, n, m, b, b1);
    BackupKeeps(w, n, m, b, b1, ch, later);
    BackupMove(w, n, m, b, ch);
    hide Around, Shown, Reconciled, OriginalRank, BackupRank, OriginalOk, BackupOk, BackupMoved, Ripens;
    BackupFrame(w, n, m, b, b1, ch);
    BackupAround(w, n, m, b, b1, ch);
    StillShown(w, Reconciled(w, m, ch), n, m, b1);
    AroundThen(w0, w, Reconciled(w, m, ch), n, m, b, b1);
  }

  lemma FinishProceeds(w0: World, w: World, n: Name, m: Name, b: Id, b1: Id, former: bool)
    requires Underway(w0, w, n, m, b, b1)
    ensures var w1 := SmFinish(w, if former then b else b1, true);
      && Underway(w0, w1, n, m, b, b1) && OriginalRank(w1, n) == OriginalRank(w, n)
      && forall later :: BackupRank(w1, m, later) == BackupRank(w, m, later)
  {
    MarkedFinalized(w, n, m, b, b1);
    FinishKeeps(w, n, m, b, b1, former);
    FinishAround(w, n, m, b, b1, former);
    hide Around, OriginalRank, BackupRank, OriginalOk, BackupOk;
    AroundThen(w0, w, SmFinish(w, if former then b else b1, true), n, m, b, b1);
  }

  /** No move raises either rank, and those that find things done lower them. */
  lemma MoveKeeps(w0: World, w: World, n: Name, m: Name, b: Id, b1: Id, move: Move, later: bool)
    requires Underway(w0, w, n, m, b, b1) && Answered(move, later)
    ensures var w1 := Moved(w, n, m, b, b1, move);
      && Underway(w0, w1, n, m, b, b1)
      && OriginalRank(w1, n) <= OriginalRank(w, n) && BackupRank(w1, m, later) <= BackupRank(w, m, later)
      && (move.Original? && NewDone(w, b1) && OriginalRank(w, n) > 0 ==> OriginalRank(w1, n) < OriginalRank(w, n))
      && (move.Backup? && Ripens(w, n, b, move.ch) && BackupRank(w, m, later) > 0 ==>
            BackupRank(w1, m, later) < BackupRank(w, m, later))
  {
    hide Underway, Reconciled, SmFinish, OriginalRank, BackupRank, NewDone, Ripens;
    match move {
      case Original(ch) => OriginalProceeds(w0, w, n, m, b, b1, ch);
      case Backup(ch) => BackupProceeds(w0, w, n, m, b, b1, ch, later);
      case Finish(former) => FinishProceeds(w0, w, n, m, b, b1, former);
    }
  }

  lemma {:induction false} MovesEnd(w0: World, w: World, n: Name, m: Name, b: Id, b1: Id, moves: seq<Move>, later: bool)
    requires Underway(w0, w, n, m, b, b1) && Undisturbed(moves, later)
    requires Turns(w, n, m, b, b1, moves) >= OriginalRank(w, n) && Dues(w, n, m, b, b1, moves) >= BackupRank(w, m, later)
    ensures var w1 := MovedAll(w, n, m, b, b1, moves);
      Underway(w0, w1, n, m, b, b1) && OriginalRank(w1, n) == 0 && BackupRank(w1, m, later) == 0
    decreases |moves|
  {
    hide Underway, Moved, OriginalRank, BackupRank, Answered, NewDone, Ripens;
    if moves != [] {
      MoveKeeps(w0, w, n, m, b, b1, moves[0], later);
      MovesEnd(w0, Moved(w, n, m, b, b1, moves[0]), n, m, b, b1, moves[1..], later);
    }
  }

  // ----- from the beginning to the end

  /** The answers to the first reconcile of the original. */
  function First(s: string, async: bool): Choice {
    Plain(s).(async := async)
  }

  /** A rotation that may start; SM may create the new binding later when no operation type is left behind. */
  ghost predicate Startable(w: World, n: Name, s: string, async: bool) {
    Ripe(w, n, s) && (async ==> w.bindings[n].status.opType.None?)
  }

  /** What the first reconcile of the original leaves. */
  ghost predicate Begun(w: World, w1: World, n: Name, m: Name, b: Id, b1: Id, async: bool) {
    && n in w.bindings && n in w1.bindings && m in w1.bindings && b in w.sm && n != m && b != b1
    && var o := w.bindings[n];
    && w1.procs == w.procs && w1.bindings.Keys == w.bindings.Keys + {m}
    && (forall x :: x in w.bindings && x != n ==> w1.bindings[x] == w.bindings[x])
    && Finished(w1.bindings[n].status) == o.status.Rotated().WithId(b1).Success().(rotation := NotRotating)
    && !w1.bindings[n].forceRotate && !w1.bindings[n].deleting
    && w1.sm == w.sm[b := w.sm[b].(name := w1.bindings[m].externalName, k8sName := Some(m))]
                    [b1 := SmBinding(o.externalName, Some(n), if async then Pending else Done, NotAsked, n)]
    && w1.secrets - {n} == w.secrets - {n}
  }

  lemma BeginsAtOnce(w: World, n: Name, s: string)
    requires Ripe(w, n, s)
    ensures var w1 := Reconciled(w, n, First(s, false));
      var b := w.bindings[n].status.id.value;
      && Begun(w, w1, n, n + s, b, w.nextId, false) && Rotated(w1, n, w.nextId) && Shown(w1, n, w.nextId)
      && Adopting(w1, n + s, b) && w1.bindings[n + s].stale == Some(b) && w1.bindings[n + s].orig == Some(n)
      && w1.bindings[n + s].policy == Some(false)
  {
    RotationCompletes(w, n, s);
    RipeAdopts(w, n, s);
    RipeFacts(w, n, s);
    RipeApart(w, n, s);
    ReconciledIs(w, n, Plain(s));
    assert First(s, false) == Plain(s);
    hide Pass, HasBackup, Reconciled, Rotatable, Adopting;
    var w1 := Reconciled(w, n, Plain(s));
    assert w1.secrets == w.secrets[n := w.nextId];
    assert w.secrets[n := w.nextId] - {n} == w.secrets - {n};
  }

  lemma RipeApart(w: World, n: Name, s: string)
    requires Ripe(w, n, s)
    ensures n + s !in w.procs && n + s != n
  {
    assert |n + s| > |n|;
  }

  lemma BeginsLater(w: World, n: Name, s: string)
    requires Startable(w, n, s, true)
    ensures var w1 := Reconciled(w, n, First(s, true));
      var b := w.bindings[n].status.id.value;
      && Begun(w, w1, n, n + s, b, w.nextId, true) && Creating(w1, n, w.nextId) && Shown(w1, n, w.nextId)
      && Adopting(w1, n + s, b) && w1.bindings[n + s].stale == Some(b) && w1.bindings[n + s].orig == Some(n)
      && w1.bindings[n + s].policy == Some(false)
  {
    RotationStarts(w, n, s);
    RipeFacts(w, n, s);
    RipeApart(w, n, s);
    ReconciledIs(w, n, First(s, true));
    var o := w.bindings[n];
    var b := o.status.id.value;
    OnlyOld(w.sm, Pass(w, n, First(s, true)).sm, b, w.nextId, w.sm[b].(name := o.externalName + s, k8sName := Some(n + s)),
            SmBinding(o.externalName, Some(n), Pending, NotAsked, n), n + s);
    hide Pass, HasBackup, Reconciled, Named;
  }

  lemma BegunUnderway(w: World, n: Name, s: string, async: bool)
    requires Startable(w, n, s, async)
    ensures var w1 := Reconciled(w, n, First(s, async));
      var b := w.bindings[n].status.id.value;
      && Begun(w, w1, n, n + s, b, w.nextId, async) && Underway(w1, w1, n, n + s, b, w.nextId)
      && OriginalRank(w1, n) == (if async then 2 else 1)
      && (forall later :: BackupRank(w1, n + s, later) == if later then 4 else 3)
  {
    var w1 := Reconciled(w, n, First(s, async));
    var b := w.bindings[n].status.id.value;
    if async {
      BeginsLater(w, n, s);
    } else {
      BeginsAtOnce(w, n, s);
    }
    hide Startable, Reconciled, Around, Named, Finished;
    AroundItself(w1, n, n + s, b, w.nextId);
  }

  /** What is left of a rotation when it is over. */
  ghost predicate Over(w: World, w1: World, n: Name) {
    && n in w.bindings && w.bindings[n].status.id.Some?
    && var b, b1 := w.bindings[n].status.id.value, w.nextId;
    && w1.procs == w.procs && w1.bindings.Keys == w.bindings.Keys
    && (forall x :: x in w.bindings && x in w1.bindings && x != n ==> w1.bindings[x] == w.bindings[x])
    && w1.sm == (w.sm - {b})[b1 := SmBinding(w.bindings[n].externalName, Some(n), Done, NotAsked, n)]
    && w1.secrets == w.secrets[n := b1]
    && n in w1.bindings
    && w1.bindings[n].status == w.bindings[n].status.Rotated().WithId(b1).Success().(rotation := NotRotating)
    && !w1.bindings[n].forceRotate && !w1.bindings[n].deleting
  }

  lemma UnderwayOver(w: World, w1: World, w2: World, n: Name, m: Name, b: Id, b1: Id, async: bool, later: bool)
    requires Begun(w, w1, n, m, b, b1, async) && Underway(w1, w2, n, m, b, b1)
    requires OriginalRank(w2, n) == 0 && BackupRank(w2, m, later) == 0
    requires w.bindings[n].status.id == Some(b) && b1 == w.nextId && m !in w.bindings && m !in w.secrets
    ensures Over(w, w2, n)
  {
    assert Resting(w2, n, b1) by { hide Around, BackupOk, Finished; }
    assert m !in w2.bindings && b !in w2.sm && m !in w2.secrets by { hide Around, OriginalOk, Finished; }
    OverSm(w.sm, w1.sm, w2.sm, b, b1, w.sm[b].(name := w1.bindings[m].externalName, k8sName := Some(m)), w1.sm[b1]);
    OverSecrets(w.secrets, w1.secrets, w2.secrets, n, m, b1);
    OverKeys(w.bindings.Keys, w1.bindings.Keys, w2.bindings.Keys, m);
    assert Finished(w2.bindings[n].status) == w2.bindings[n].status;
    hide Finished, OriginalOk, BackupOk;
  }

  lemma OverSm(sm: Sm, sm1: Sm, sm2: Sm, b: Id, b1: Id, former: SmBinding, new1: SmBinding)
    requires b != b1 && sm1 == sm[b := former][b1 := new1] && sm2 - {b, b1} == sm1 - {b, b1} && b !in sm2 && b1 in sm2
    ensures sm2 == (sm - {b})[b1 := sm2[b1]]
  {
    assert sm1 - {b, b1} == sm - {b, b1};
    assert sm2 == (sm2 - {b, b1})[b1 := sm2[b1]];
    assert (sm - {b})[b1 := sm2[b1]] == (sm - {b, b1})[b1 := sm2[b1]];
  }

  lemma OverSecrets(secrets: Secrets, secrets1: Secrets, secrets2: Secrets, n: Name, m: Name, b1: Id)
    requires secrets1 - {n} == secrets - {n} && secrets2 - {n, m} == secrets1 - {n, m} && m !in secrets && m !in secrets2 && n != m
    requires n in secrets2 && secrets2[n] == b1
    ensures secrets2 == secrets[n := b1]
  {
    assert secrets2 - {n} == secrets2 - {n, m} && secrets - {n} == secrets - {n, m};
    assert secrets1 - {n, m} == (secrets1 - {n}) - {m};
    assert secrets2 == (secrets2 - {n})[n := b1];
    assert secrets[n := b1] == (secrets - {n})[n := b1];
  }

  lemma OverKeys(keys: set<Name>, keys1: set<Name>, keys2: set<Name>, m: Name)
    requires keys1 == keys + {m} && m !in keys && keys2 - {m} == keys1 - {m} && m !in keys2
    ensures keys2 == keys
  {
    assert keys2 == keys2 - {m} && keys == keys1 - {m};
  }

  /**
   Rotations converge: once the original has begun, any further undisturbed reconciles of the original and of
   the backup, in any order and number, end the rotation, with SM creating the new binding and removing the old
   one at once or later.  It takes one reconcile of the original, two when SM creates the new binding later, that
   find it created; and three of the backup, four when SM may remove the old binding later, that find its time up,
   the original ready and SM not busy with the old binding.  What is left is the same for all of them.
   */
  lemma RotationConverges(w: World, n: Name, s: string, async: bool, later: bool, moves: seq<Move>)
    requires Startable(w, n, s, async) && Undisturbed(moves, later)
    requires var w1 := Reconciled(w, n, First(s, async));
      var b := w.bindings[n].status.id.value;
      && Turns(w1, n, n + s, b, w.nextId, moves) >= (if async then 2 else 1)
      && Dues(w1, n, n + s, b, w.nextId, moves) >= (if later then 4 else 3)
    ensures var b := w.bindings[n].status.id.value;
      Over(w, MovedAll(Reconciled(w, n, First(s, async)), n, n + s, b, w.nextId, moves), n)
  {
    var w1 := Reconciled(w, n, First(s, async));
    var b, b1 := w.bindings[n].status.id.value, w.nextId;
    RipeFacts(w, n, s);
    hide Startable, Ripe, Rotatable, Reconciled, Underway, OriginalRank, BackupRank, MovedAll, Undisturbed, Turns, Dues,
         Begun, Over, First;
    BegunUnderway(w, n, s, async);
    MovesEnd(w1, w1, n, n + s, b, b1, moves, later);
    var w2 := MovedAll(w1, n, n + s, b, b1, moves);
    UnderwayOver(w, w1, w2, n, n + s, b, b1, async, later);
  }

  // ----- with an SM that does everything at once

  /** The reconciles of the original. */
  function Originals(moves: seq<Move>): nat {
    if moves == [] then 0 else (if moves[0].Original? then 1 else 0) + Originals(moves[1..])
  }

  /** The reconciles of the backup that find its time up. */
  function Timely(moves: seq<Move>): nat {
    if moves == [] then 0 else (if moves[0].Backup? && moves[0].ch.due then 1 else 0) + Timely(moves[1..])
  }

  predicate Reconciles(moves: seq<Move>) {
    forall k :: 0 <= k < |moves| ==> !moves[k].Finish?
  }

  /** Neither resource has an operation. */
  predicate Quiescent(w: World, n: Name, m: Name) {
    n in w.bindings && w.bindings[n].status.opUrl.None? && (m in w.bindings ==> w.bindings[m].status.opUrl.None?)
  }

  lemma QuiescentKnows(w: World, n: Name, m: Name, b: Id, b1: Id, ch: Choice)
    requires Rotation(w, n, m, b, b1) && Quiescent(w, n, m)
    ensures NewDone(w, b1) && (Ripens(w, n, b, ch) <==> ch.due)
  {
    hide Named;
  }

  lemma QuiescentStays(w: World, n: Name, m: Name, b: Id, b1: Id, move: Move)
    requires Rotation(w, n, m, b, b1) && Quiescent(w, n, m) && Answered(move, false) && !move.Finish?
    ensures Quiescent(Moved(w, n, m, b, b1, move), n, m)
  {
    MarkedFinalized(w, n, m, b, b1);
    hide Reconciled, OriginalOk, BackupOk;
    match move {
      case Original(ch) => OriginalMove(w, n, b1, ch); OriginalStays(w, n, b1);
      case Backup(ch) => BackupMove(w, n, m, b, ch);
    }
  }

  lemma {:induction false} CountsAtOnce(w0: World, w: World, n: Name, m: Name, b: Id, b1: Id, moves: seq<Move>)
    requires Underway(w0, w, n, m, b, b1) && Quiescent(w, n, m) && Undisturbed(moves, false) && Reconciles(moves)
    ensures Turns(w, n, m, b, b1, moves) == Originals(moves) && Dues(w, n, m, b, b1, moves) == Timely(moves)
    decreases |moves|
  {
    hide Rotation, Around, Shown, Moved, Answered, NewDone, Ripens, Quiescent, OriginalRank, BackupRank;
    if moves != [] {
      QuiescentKnows(w, n, m, b, b1, if moves[0].Backup? then moves[0].ch else Plain(""));
      QuiescentStays(w, n, m, b, b1, moves[0]);
      MoveKeeps(w0, w, n, m, b, b1, moves[0], false);
      CountsAtOnce(w0, Moved(w, n, m, b, b1, moves[0]), n, m, b, b1, moves[1..]);
    }
  }

  lemma BegunQuiescent(w: World, n: Name, s: string)
    requires Ripe(w, n, s)
    ensures Quiescent(Reconciled(w, n, First(s, false)), n, n + s)
  {
    hide Reconciled, Ripe;
    BeginsAtOnce(w, n, s);
  }

  /**
   When SM does everything at once, one more reconcile of the original and three of the backup after its time is
   up are enough, in any order and among any number of others.
   */
  lemma RotationConvergesAtOnce(w: World, n: Name, s: string, moves: seq<Move>)
    requires Ripe(w, n, s) && Undisturbed(moves, false) && Reconciles(moves) && Originals(moves) >= 1 && Timely(moves) >= 3
    ensures var b := w.bindings[n].status.id.value;
      Over(w, MovedAll(Reconciled(w, n, First(s, false)), n, n + s, b, w.nextId, moves), n)
  {
    var w1 := Reconciled(w, n, First(s, false));
    var b := w.bindings[n].status.id.value;
    hide Ripe, Rotatable, Reconciled, Underway, OriginalRank, BackupRank, MovedAll, Undisturbed, Reconciles, Turns,
         Dues, Originals, Timely, Begun, Over, First, Quiescent;
    BegunUnderway(w, n, s, false);
    BegunQuiescent(w, n, s);
    CountsAtOnce(w1, w1, n, n + s, b, w.nextId, moves);
    RotationConverges(w, n, s, false, false, moves);
  }
}
