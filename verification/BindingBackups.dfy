/**
 What becomes of the credentials that a rotation has put aside: what every unmarked backup stands for, what a
 reconcile has to know for that, and which effects on the two stores leave it alone.
 */
module BindingBackups {
  import opened Options
  import opened Remote
  import opened BindingWorld
  import opened BindingReconciler
  import opened BindingInvariant

  /** A backup of `b` that is not marked for deletion. */
  predicate Unmarked(bs: Bindings, m: Name, b: Id) {
    Backs(bs, m, b) && !bs[m].deleting
  }

  /** The credentials every unmarked backup was made for are live. */
  ghost predicate LabelsLive(bs: Bindings, sm: Sm, cred: Id) {
    forall m :: Unmarked(bs, m, cred) ==> Live(sm, cred)
  }

  /** They are what its secret shows. */
  ghost predicate LabelsShown(bs: Bindings, secrets: Secrets, cred: Id) {
    forall m :: Unmarked(bs, m, cred) && m in secrets ==> secrets[m] == cred
  }

  /** A rotation is prepared for ready resources only. */
  predicate Prepared(s: Status) {
    s.rotation == Preparing ==> s.ready
  }

  predicate AllPrepared(bs: Bindings) {
    forall n :: n in bs ==> Prepared(bs[n].status)
  }

  ghost predicate StoresBacked(w: World, cred: Id) {
    LabelsLive(w.bindings, w.sm, cred) && LabelsShown(w.bindings, w.secrets, cred) && AllPrepared(w.bindings)
  }

  // ----- what a reconcile has to know

  /** SM was not asked to remove `b`, unless it could not even be created. */
  predicate Mild(sm: Sm, b: Id) {
    b in sm ==> sm[b].unbinding == NotAsked || sm[b].provisioning == Failed
  }

  /** From the search for a backup to its creation. */
  predicate Turning(pc: Pc) {
    pc.RotateList? || pc.RenameFirst? || pc.RenameSecond? || pc.CreateBackup?
  }

  predicate Sound(p: Proc) {
    && Prepared(p.base) && Prepared(p.c.status)
    && (p.pc == InitConditions ==> p.base.rotation == NotRotating)
    && (Turning(p.pc) ==> p.base.rotation == Preparing)
    && (p.pc == RotateSave ==> p.c.status.id.None? || p.c.status.id == p.base.id)
  }

  /** The binding of an original whose deletion was not seen is still what it was, unless a backup answers for it. */
  predicate Unasked(bs: Bindings, sm: Sm, p: Proc, cred: Id) {
    !p.c.deleting && p.c.stale.None? && p.base.id == Some(cred) && !Mild(sm, cred) ==> HasBackup(bs, cred)
  }

  predicate ProcBacked(w: World, p: Proc, cred: Id) {
    && Sound(p)
    && Unasked(w.bindings, w.sm, p, cred)
    && (p.pc.CreateBackup? && p.base.id == Some(cred) ==> Live(w.sm, cred))
  }

  ghost predicate Backed(w: World, cred: Id) {
    StoresBacked(w, cred) && forall n :: n in w.procs ==> ProcBacked(w, w.procs[n], cred)
  }

  // ----- effects that leave the backups alone

  /** SM bindings stay live, and are not newly asked for. */
  ghost predicate Gentle(w: World, w1: World) {
    forall b: Id :: b < w.nextId ==> (Live(w.sm, b) ==> Live(w1.sm, b)) && (Mild(w.sm, b) ==> Mild(w1.sm, b))
  }

  /** A new backup is one of live credentials, and has no secret yet. */
  ghost predicate LabelsKept(w: World, w1: World, cred: Id) {
    forall m :: Unmarked(w1.bindings, m, cred) ==>
      Unmarked(w.bindings, m, cred) || (Live(w1.sm, cred) && m !in w1.secrets)
  }

  ghost predicate BackupsKept(w: World, w1: World) {
    forall m, b :: Backs(w.bindings, m, b) && b in w1.sm ==> Backs(w1.bindings, m, b)
  }

  ghost predicate SecretsKept(w: World, w1: World, cred: Id) {
    forall m :: Unmarked(w1.bindings, m, cred) && m in w1.secrets ==>
      w1.secrets[m] == cred || (m in w.secrets && w.secrets[m] == w1.secrets[m])
  }

  predicate StatusesKept(w: World, w1: World) {
    forall m :: m in w1.bindings ==>
      Prepared(w1.bindings[m].status) || (m in w.bindings && w.bindings[m].status == w1.bindings[m].status)
  }

  ghost predicate Quiet(w: World, w1: World, cred: Id) {
    Gentle(w, w1) && LabelsKept(w, w1, cred) && BackupsKept(w, w1) && SecretsKept(w, w1, cred) && StatusesKept(w, w1)
  }

  lemma LabelsBounded(w: World)
    requires Bounded(w)
    ensures forall m, b: Id :: Backs(w.bindings, m, b) ==> b < w.nextId
  {
  }

  lemma QuietStores(w: World, w1: World, cred: Id)
    requires Bounded(w) && StoresBacked(w, cred) && Quiet(w, w1, cred)
    ensures StoresBacked(w1, cred)
  {
    LabelsBounded(w);
    hide Bounded, Live, Mild, Prepared, BackupsKept, Backs;
    assert forall m :: Unmarked(w.bindings, m, cred) ==> Backs(w.bindings, m, cred);
  }

  lemma QuietUnasked(w: World, w1: World, p: Proc, cred: Id)
    requires Quiet(w, w1, cred) && Unasked(w.bindings, w.sm, p, cred) && (p.base.id.Some? ==> p.base.id.value < w.nextId)
    ensures Unasked(w1.bindings, w1.sm, p, cred)
  {
    hide Live, LabelsKept, SecretsKept, StatusesKept;
    if p.base.id == Some(cred) && !Mild(w1.sm, cred) {
      assert !Mild(w.sm, cred) && cred in w1.sm;
      if HasBackup(w.bindings, cred) {
        var m :| m in w.bindings && w.bindings[m].stale == Some(cred);
        assert Backs(w.bindings, m, cred);
        assert Backs(w1.bindings, m, cred);
      }
    }
  }

  lemma QuietProc(w: World, w1: World, p: Proc, cred: Id)
    requires Quiet(w, w1, cred) && ProcBacked(w, p, cred) && (p.base.id.Some? ==> p.base.id.value < w.nextId)
    ensures ProcBacked(w1, p, cred)
  {
    QuietUnasked(w, w1, p, cred);
    hide Mild, Sound, Unasked, LabelsKept, BackupsKept, SecretsKept, StatusesKept, Live;
  }

  // ----- the effects of calls, of users, of the collector and of SM

  lemma Untold(w: World, w1: World, cred: Id)
    requires w1.bindings == w.bindings && w1.sm == w.sm && w1.secrets == w.secrets
    ensures Quiet(w, w1, cred)
  {
  }

  lemma QuietStatus(w: World, n: Name, status: Status, cred: Id)
    requires n in w.bindings && Prepared(status)
    ensures Quiet(w, PutStatus(w, n, status), cred)
  {
  }

  /** An object that stays a backup of the same credentials, or no backup, and marked if it was. */
  lemma QuietObject(w: World, n: Name, o1: Binding, cred: Id)
    requires n in w.bindings && o1.status == w.bindings[n].status && o1.stale == w.bindings[n].stale
    requires w.bindings[n].deleting ==> o1.deleting
    ensures Quiet(w, w.(bindings := w.bindings[n := o1], clock := w.clock + 1), cred)
  {
  }

  lemma QuietRemoval(w: World, n: Name, cred: Id)
    requires BackupsMatch(w.bindings, w.sm) && Nameless(w.sm, n)
    ensures Quiet(w, w.(bindings := w.bindings - {n}, clock := w.clock + 1), cred)
  {
  }

  lemma QuietMeta(w: World, n: Name, finalizer: bool, forceRotate: bool, cred: Id)
    requires n in w.bindings
    requires w.bindings[n].deleting && !finalizer ==> BackupsMatch(w.bindings, w.sm) && Nameless(w.sm, n)
    ensures Quiet(w, PutMeta(w, n, finalizer, forceRotate), cred)
  {
    hide Quiet, BackupsMatch, Nameless;
    if w.bindings[n].deleting && !finalizer {
      QuietRemoval(w, n, cred);
    } else {
      QuietObject(w, n, w.bindings[n].(finalizer := finalizer, forceRotate := forceRotate, rv := w.clock), cred);
    }
  }

  lemma QuietDeletion(w: World, n: Name, cred: Id)
    requires n in w.bindings
    requires !w.bindings[n].finalizer ==> BackupsMatch(w.bindings, w.sm) && Nameless(w.sm, n)
    ensures Quiet(w, DeleteObject(w, n), cred)
  {
    hide Quiet, BackupsMatch, Nameless;
    if w.bindings[n].finalizer {
      QuietObject(w, n, w.bindings[n].(deleting := true, rv := w.clock), cred);
    } else {
      QuietRemoval(w, n, cred);
    }
  }

  lemma QuietCreation(w: World, n: Name, o: Binding, cred: Id)
    requires n !in w.bindings && n !in w.secrets && Prepared(o.status)
    requires o.stale == Some(cred) ==> Live(w.sm, cred)
    ensures Quiet(w, CreateObject(w, n, o), cred)
  {
  }

  lemma QuietSecret(w: World, n: Name, b: Id, cred: Id)
    requires Unmarked(w.bindings, n, cred) ==> b == cred
    ensures Quiet(w, StoreSecret(w, n, b), cred)
  {
  }

  lemma QuietDrop(w: World, n: Name, cred: Id)
    ensures Quiet(w, DropSecret(w, n), cred)
  {
  }

  lemma QuietRename(w: World, b: Id, name: string, k8sName: Option<Name>, cred: Id)
    requires b in w.sm
    ensures Quiet(w, w.(sm := w.sm[b := w.sm[b].(name := name, k8sName := k8sName)]), cred)
  {
  }

  lemma QuietBind(w: World, n: Name, name: string, async: bool, cred: Id)
    requires w.nextId !in w.sm
    ensures Quiet(w, SmBind(w, n, name, async), cred)
  {
  }

  lemma QuietFinish(w: World, b: Id, good: bool, cred: Id)
    ensures Quiet(w, SmFinish(w, b, good), cred)
  {
  }
}
