/**
 What one reconcile may rely on while others, users and SM act: the rely half of a rely-guarantee
 argument.  `RelyKeeps` shows that everything a reconcile knows survives such an interference.
 */
module BindingRely {
  import opened Options
  import opened Remote
  import opened BindingWorld
  import opened BindingReconciler
  import opened BindingInvariant

  /** The same object, at most edited or marked for deletion in between. */
  predicate Edited(o: Binding, o1: Binding, clock: nat) {
    && o1.uid == o.uid && o1.status == o.status
    && o1.stale == o.stale && o1.orig == o.orig && o1.externalName == o.externalName
    && (o.deleting ==> o1.deleting) && (o.finalizer ==> o1.finalizer)
    && (o1.rv >= clock || o1 == o)
  }

  /** The object named `m` is the same, or gone if it had no finalizer, or a new one. */
  predicate RelyObject(bs: Bindings, bs1: Bindings, clock: nat, m: Name) {
    && (m in bs1 ==>
          (m in bs && Edited(bs[m], bs1[m], clock)) || (bs1[m].uid >= clock && bs1[m].rv >= clock))
    && (m in bs && bs[m].finalizer ==> m in bs1 && bs1[m].uid == bs[m].uid)
  }

  /** SM bindings are not resurrected, and outcomes are final. */
  ghost predicate RelySm(sm: Sm, sm1: Sm, nextId: Id) {
    forall b :: b in sm1 && b < nextId ==>
      && b in sm
      && (sm[b].provisioning != Pending ==> sm1[b].provisioning == sm[b].provisioning)
      && (sm[b].unbinding != NotAsked ==> sm1[b].unbinding != NotAsked)
  }

  /** Nobody else gives or takes the name of `m`. */
  ghost predicate RelyNames(bs: Bindings, sm: Sm, sm1: Sm, m: Name) {
    m in bs ==> forall b :: (Named(sm1, b, m) ==> Named(sm, b, m)) && (Named(sm, b, m) && b in sm1 ==> Named(sm1, b, m))
  }

  /** Nobody else unbinds what the original `m` answers for. */
  ghost predicate RelyMine(bs: Bindings, bs1: Bindings, sm: Sm, sm1: Sm, m: Name) {
    && (forall b :: Original(bs, m) && (Holds(bs, m, b) || Named(sm, b, m)) && Live(sm, b) && Original(bs1, m) && !bs1[m].deleting ==>
          Live(sm1, b) && sm1[b].creator == sm[b].creator)
    && (forall b :: Original(bs, m) && bs[m].status.id.None? && Named(sm, b, m) && sm[b].unbinding == NotAsked ==>
          b in sm1 && sm1[b].unbinding == NotAsked)
  }

  predicate RelySecret(secrets: Secrets, secrets1: Secrets, m: Name) {
    m in secrets1 ==> m in secrets && secrets1[m] == secrets[m]
  }

  /** Nobody else makes or removes a backup of what the original `m` holds. */
  ghost predicate RelyBackups(bs: Bindings, bs1: Bindings, sm: Sm, sm1: Sm, m: Name) {
    forall b :: Original(bs, m) && Holds(bs, m, b) ==>
      && (!HasBackup(bs, b) ==> !HasBackup(bs1, b))
      && (HasBackup(bs, b) && b in sm && b in sm1 && m in bs1 && !bs1[m].deleting ==> HasBackup(bs1, b))
  }

  ghost predicate RelyPlan(bs: Bindings, bs1: Bindings, sm: Sm, sm1: Sm, m: Name, x: Name) {
    && x !in bs1
    && (forall b :: Named(sm1, b, x) ==> Named(sm, b, x))
    && (forall b :: Original(bs, m) && Holds(bs, m, b) && b in sm && b in sm1 ==>
          sm1[b].name == sm[b].name && sm1[b].k8sName == sm[b].k8sName)
  }

  predicate RelyRetired(bs: Bindings, bs1: Bindings, secrets: Secrets, secrets1: Secrets, m: Name) {
    m in bs && bs[m].stale.Some? ==>
      Retired(bs, secrets, bs[m].orig.GetOr(""), bs[m].stale.value) ==>
        Retired(bs1, secrets1, bs[m].orig.GetOr(""), bs[m].stale.value)
  }

  ghost predicate Rely(w: World, w1: World, m: Name, pc: Pc) {
    && w.clock <= w1.clock && w.nextId <= w1.nextId
    && RelyObject(w.bindings, w1.bindings, w.clock, m)
    && RelySm(w.sm, w1.sm, w.nextId)
    && RelyNames(w.bindings, w.sm, w1.sm, m)
    && RelyMine(w.bindings, w1.bindings, w.sm, w1.sm, m)
    && RelySecret(w.secrets, w1.secrets, m)
    && RelyBackups(w.bindings, w1.bindings, w.sm, w1.sm, m)
    && (PlanName(m, pc).Some? ==> RelyPlan(w.bindings, w1.bindings, w.sm, w1.sm, m, PlanName(m, pc).value))
    && RelyRetired(w.bindings, w1.bindings, w.secrets, w1.secrets, m)
  }

  lemma CopyKept(w: World, w1: World, m: Name, p: Proc)
    requires p.c.rv < w.clock && p.c.uid < w.clock
    requires CopyOk(w.bindings, m, p.c, p.base) && RelyObject(w.bindings, w1.bindings, w.clock, m)
    ensures CopyOk(w1.bindings, m, p.c, p.base)
    ensures Current(w1.bindings, m, p.c) ==> Current(w.bindings, m, p.c) && Edited(w.bindings[m], w1.bindings[m], w.clock)
    ensures Unchanged(w1, m, p.c) ==> Unchanged(w, m, p.c) && w1.bindings[m] == w.bindings[m]
  {
  }

  lemma UsableKept(w: World, w1: World, m: Name, c: Binding, b: Id)
    requires Current(w.bindings, m, c) && RelyObject(w.bindings, w1.bindings, w.clock, m)
    requires w.bindings[m].uid < w.clock
    requires w.bindings[m].finalizer
    requires RelyMine(w.bindings, w1.bindings, w.sm, w1.sm, m)
    requires Holds(w.bindings, m, b) || (b in w.sm ==> Named(w.sm, b, m))
    requires Usable(w.bindings, w.sm, m, b)
    ensures Usable(w1.bindings, w1.sm, m, b)
  {
  }

  lemma CreatedKept(w: World, w1: World, b: Id)
    requires RelySm(w.sm, w1.sm, w.nextId) && b < w.nextId && Created(w.sm, b)
    ensures Created(w1.sm, b)
  {
  }

  lemma AdoptableKept(w: World, w1: World, m: Name, b: Id)
    requires b < w.nextId && RelySm(w.sm, w1.sm, w.nextId) && RelyNames(w.bindings, w.sm, w1.sm, m)
    requires RelyMine(w.bindings, w1.bindings, w.sm, w1.sm, m)
    requires m in w.bindings && w.bindings[m].status.id.None?
    requires m in w1.bindings && w1.bindings[m].stale == w.bindings[m].stale
    requires Adoptable(w.bindings, w.sm, m, b)
    ensures Adoptable(w1.bindings, w1.sm, m, b)
  {
    if b in w1.sm {
      assert Named(w.sm, b, m);
    }
  }

  lemma WritableKept(w: World, w1: World, m: Name, p: Proc, status: Status)
    requires Rely(w, w1, m, p.pc)
    requires p.c.rv < w.clock && p.c.uid < w.clock && CopyOk(w.bindings, m, p.c, p.base)
    requires p.base.id.Some? ==> p.base.id.value < w.nextId
    requires Unchanged(w, m, p.c) ==> Writable(w, m, p.c, p.base, status)
    ensures Unchanged(w1, m, p.c) ==> Writable(w1, m, p.c, p.base, status)
  {
    CopyKept(w, w1, m, p);
    if Unchanged(w1, m, p.c) {
      hide RelyMine, RelyPlan, RelyRetired, RelySm, Named, Adoptable, Created, Live, RelyBackups, HasBackup, Nameless;
      if status.id.Some? && Created(w.sm, status.id.value) {
        CreatedKept(w, w1, status.id.value);
      }
      if Nameless(w.sm, m) {
        NamelessKept(w, w1, m);
      }
      IdWritableKept(w, w1, m, p, status);
    }
  }

  lemma NamelessKept(w: World, w1: World, m: Name)
    requires m in w.bindings && Nameless(w.sm, m) && RelyNames(w.bindings, w.sm, w1.sm, m)
    ensures Nameless(w1.sm, m)
  {
  }

  lemma IdWritableKept(w: World, w1: World, m: Name, p: Proc, status: Status)
    requires Rely(w, w1, m, p.pc)
    requires Unchanged(w, m, p.c) && Unchanged(w1, m, p.c)
    requires w.bindings[m] == p.c.(status := p.base) == w1.bindings[m]
    requires status.id.Some? ==> status.id.value < w.nextId
    requires p.base.id.Some? ==> p.base.id.value < w.nextId
    requires IdWritable(w.bindings, w.sm, m, p.c, p.base, status)
    ensures IdWritable(w1.bindings, w1.sm, m, p.c, p.base, status)
  {
    hide RelyPlan, RelyRetired, Adoptable;
    if status.id != p.base.id {
      if p.base.id.None? {
        AdoptableKept(w, w1, m, status.id.value);
      } else if p.base.id.value in w.sm {
        assert Holds(w.bindings, m, p.base.id.value);
      }
    }
  }

  lemma PlannedKept(w: World, w1: World, m: Name, p: Proc, b: Id, x: Name)
    requires CopyOk(w.bindings, m, p.c, p.base) && p.c.finalizer && p.base.id == Some(b)
    requires RelyBackups(w.bindings, w1.bindings, w.sm, w1.sm, m) && RelyPlan(w.bindings, w1.bindings, w.sm, w1.sm, m, x)
    requires Planned(w.bindings, w.sm, p.c, b, x)
    ensures Planned(w1.bindings, w1.sm, p.c, b, x)
    ensures Nameless(w.sm, x) ==> Nameless(w1.sm, x)
    ensures b in w.sm && b in w1.sm ==> w1.sm[b].name == w.sm[b].name && w1.sm[b].k8sName == w.sm[b].k8sName
  {
    assert Holds(w.bindings, m, b);
  }

  /** Every fact a reconcile has gathered survives interference that respects the rely condition. */
  lemma RelyKeeps(w: World, w1: World, m: Name, p: Proc)
    requires ProcOk(w, m, p) && Rely(w, w1, m, p.pc)
    requires forall n :: n in w.bindings ==> w.bindings[n].uid < w.clock
    ensures ProcOk(w1, m, p)
  {
    CopyKept(w, w1, m, p);
    PcKept(w, w1, m, p);
  }

  lemma PcKept(w: World, w1: World, m: Name, p: Proc)
    requires ProcOk(w, m, p) && Rely(w, w1, m, p.pc)
    requires forall n :: n in w.bindings ==> w.bindings[n].uid < w.clock
    ensures PcOk(w1, m, p)
  {
    hide RelyMine, RelyPlan, RelyBackups, RelyNames, Adoptable, Usable, Planned, Writable, Nameless, Created, Live, Named;
    var id := p.c.status.id;
    match p.pc
    case PollFetch =>
      CreatedKept(w, w1, id.value);
    case PollStore =>
      CreatedKept(w, w1, id.value);
      UsableKept(w, w1, m, p.c, id.value);
    case MaintainStore =>
      CreatedKept(w, w1, id.value);
      UsableKept(w, w1, m, p.c, id.value);
    case DeleteDropSecret => NamelessKept(w, w1, m);
    case DeleteRemoveFinalizer => NamelessKept(w, w1, m);
    case Bind => NamelessKept(w, w1, m);
    case RenameFirst(s) => PlannedKept(w, w1, m, p, id.value, m + s);
    case RenameSecond(s) => PlannedKept(w, w1, m, p, id.value, m + s);
    case CreateBackup(s) => PlannedKept(w, w1, m, p, id.value, m + s);
    case RecoverStore(b, seen) => StoreKept(w, w1, m, p, b);
    case BindStore(b) => StoreKept(w, w1, m, p, b);
    case RotateSave => WritableKept(w, w1, m, p, p.c.status);
    case Save => WritableKept(w, w1, m, p, p.c.status);
    case _ =>
  }

  lemma StoreKept(w: World, w1: World, m: Name, p: Proc, b: Id)
    requires Rely(w, w1, m, p.pc) && CopyOk(w.bindings, m, p.c, p.base) && p.c.uid < w.clock
    requires Untouched(p) && Settled(p) && p.c.status.id.None? && b < w.nextId
    requires Adoptable(w.bindings, w.sm, m, b) && Usable(w.bindings, w.sm, m, b) && Created(w.sm, b)
    ensures Adoptable(w1.bindings, w1.sm, m, b) && Usable(w1.bindings, w1.sm, m, b) && Created(w1.sm, b)
  {
    hide RelyPlan, RelyBackups, RelyRetired;
    CreatedKept(w, w1, b);
    UsableKept(w, w1, m, p.c, b);
    AdoptableKept(w, w1, m, b);
  }
}
