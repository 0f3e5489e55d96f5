/** Every call of every reconcile keeps the invariant. */
module BindingSteps {
  import opened Options
  import opened Remote
  import opened BindingWorld
  import opened BindingReconciler
  import opened BindingInvariant
  import opened BindingRely
  import opened BindingEffects
  import opened BindingSmEffects

  // ----- putting a step together

  lemma ProcsApart(w: World, procs: map<Name, Proc>, m: Name, p: Proc)
    requires ProcOk(w, m, p)
    ensures ProcOk(w.(procs := procs), m, p)
  {
    hide CoreOk, StatusShape, Created, Usable, Adoptable, Planned, Nameless, IdWritable, Retired;
    assert CoreOk(w.(procs := procs), m, p.c, p.base) by { CoreApart(w, procs, m, p.c, p.base); }
  }

  lemma CoreApart(w: World, procs: map<Name, Proc>, m: Name, c: Binding, base: Status)
    requires CoreOk(w, m, c, base)
    ensures CoreOk(w.(procs := procs), m, c, base)
  {
  }

  lemma GlobalApart(w: World, procs: map<Name, Proc>)
    requires Global(w)
    ensures Global(w.(procs := procs))
  {
    hide ShapesOk, OneName, NamesOk, OriginalsOk, OneHolder, OnlyHeld, OneBackup, ReadyOk, SecretsOk, FinalizersOk,
         LeftoversOk, Tracked, AskedOk, BackupsMatch, BackupsRetired;
  }

  lemma PlanIsFree(w: World, m: Name, p: Proc)
    requires PcOk(w, m, p)
    ensures PlanFree(w.bindings, m, p.pc)
  {
    hide StatusShape, Created, Usable, Adoptable, Nameless, Writable, Retired;
  }

  /** A call that respects what the others rely on leaves them undisturbed. */
  lemma Undisturbed(w: World, w1: World, n: Name)
    requires Inv(w) && w1.procs == w.procs
    requires forall m :: m in w.procs && m != n ==> Rely(w, w1, m, w.procs[m].pc)
    ensures Others(w1, n)
  {
    hide ProcOk, Rely, Bounded, ShapesOk, OneName, NamesOk, OriginalsOk, OneHolder, OnlyHeld, OneBackup, ReadyOk, SecretsOk,
         FinalizersOk, LeftoversOk, Tracked, AskedOk, BackupsMatch, BackupsRetired, PlansOk;
    forall m | m in w.procs && m != n
      ensures ProcOk(w1, m, w.procs[m])
    {
      UidsBounded(w);
      RelyKeeps(w, w1, m, w.procs[m]);
    }
  }

  lemma UidsBounded(w: World)
    requires Bounded(w)
    ensures forall n :: n in w.bindings ==> w.bindings[n].uid < w.clock
  {
  }

  /** No other reconcile plans for the name `n` plans for. */
  ghost predicate PlanApart(procs: map<Name, Proc>, n: Name, pc: Pc) {
    PlanName(n, pc).Some? ==> forall m :: m in procs && m != n ==> PlanName(m, procs[m].pc) != PlanName(n, pc)
  }

  lemma Continue(w1: World, n: Name, p: Proc)
    requires Global(w1) && PlansOk(w1.procs) && Others(w1, n)
    requires ProcOk(w1, n, p) && PlanApart(w1.procs, n, p.pc)
    ensures Inv(w1.(procs := w1.procs[n := p]))
  {
    hide ProcOk, Global;
    var procs := w1.procs[n := p];
    GlobalApart(w1, procs);
    forall m | m in procs
      ensures ProcOk(w1.(procs := procs), m, procs[m])
    {
      ProcsApart(w1, procs, m, procs[m]);
    }
  }

  lemma Ended(w1: World, n: Name)
    requires Global(w1) && PlansOk(w1.procs) && Others(w1, n)
    ensures Inv(Stop(w1, n))
  {
    hide ProcOk, Global;
    var procs := w1.procs - {n};
    GlobalApart(w1, procs);
    forall m | m in procs
      ensures ProcOk(w1.(procs := procs), m, procs[m])
    {
      ProcsApart(w1, procs, m, procs[m]);
    }
  }

  /** Between calls, with the reconcile of `n` about to move on. */
  ghost predicate Steady(w: World, n: Name) {
    Global(w) && PlansOk(w.procs) && Others(w, n)
  }

  // ----- status writes a reconcile may prepare

  /** Statuses that keep the id. */
  lemma Keeping(w: World, n: Name, c: Binding, base: Status, status: Status)
    requires LeftoversOk(w.bindings, w.sm) && ReadyOk(w.bindings, w.sm, w.secrets)
    requires CoreOk(w, n, c, base) && StatusShape(status, c.deleting)
    requires c.stale.Some? ==> status.rotation == NotRotating
    requires status.id == base.id && (status.ready ==> base.ready)
    requires status.id.None? && status.opUrl.Some? ==> base.opUrl.Some?
    ensures Unchanged(w, n, c) ==> Writable(w, n, c, base, status)
  {
    if Unchanged(w, n, c) && status.id.Some? {
      assert Holds(w.bindings, n, status.id.value);
    }
  }

  /** Success with an id the resource already has. */
  lemma Succeeding(w: World, n: Name, c: Binding, base: Status, status: Status)
    requires CoreOk(w, n, c, base) && StatusShape(status, c.deleting)
    requires c.stale.Some? ==> status.rotation == NotRotating
    requires status.id == base.id && status.id.Some? && Created(w.sm, status.id.value)
    requires n in w.secrets ==> w.secrets[n] == status.id.value
    ensures Writable(w, n, c, base, status)
  {
  }

  /** Statuses that take an id. */
  lemma Adopting(w: World, n: Name, c: Binding, base: Status, status: Status, b: Id)
    requires StatusShape(status, c.deleting)
    requires c.stale.Some? ==> status.rotation == NotRotating
    requires base.id.None? && status.id == Some(b) && b < w.nextId && c.finalizer && Adoptable(w.bindings, w.sm, n, b)
    requires status.ready ==> Created(w.sm, b) && (n in w.secrets ==> w.secrets[n] == b)
    ensures Writable(w, n, c, base, status)
  {
  }

  /** Statuses that give up an id SM no longer holds. */
  lemma Releasing(w: World, n: Name, c: Binding, base: Status, status: Status)
    requires OnlyHeld(w.bindings, w.sm) && CoreOk(w, n, c, base) && StatusShape(status, c.deleting)
    requires c.stale.Some? ==> status.rotation == NotRotating
    requires base.id.Some? && base.id.value !in w.sm && status.id.None?
    ensures Unchanged(w, n, c) ==> Writable(w, n, c, base, status)
  {
    if Unchanged(w, n, c) {
      assert Holds(w.bindings, n, base.id.value);
    }
  }

  lemma FinishOk(w: World, n: Name, c: Binding, base: Status, status: Status)
    requires Steady(w, n) && CoreOk(w, n, c, base)
    requires Unchanged(w, n, c) ==> Writable(w, n, c, base, status)
    ensures Inv(Finish(w, n, c, base, status))
  {
    hide Global, CoreOk, Writable, Others, PlansOk;
    var p := Proc(c.(status := status), base, Save);
    assert CoreOk(w, n, p.c, base) by { CoreStatus(w, n, c, base, status); }
    assert Unchanged(w, n, p.c) ==> Writable(w, n, p.c, base, status) by { if Unchanged(w, n, p.c) { WritableStatus(w, n, c, base, status); } }
    Continue(w, n, p);
  }

  lemma CoreStatus(w: World, n: Name, c: Binding, base: Status, status: Status)
    requires CoreOk(w, n, c, base)
    ensures CoreOk(w, n, c.(status := status), base)
  {
  }

  lemma WritableStatus(w: World, n: Name, c: Binding, base: Status, status: Status)
    requires Writable(w, n, c, base, status)
    ensures Writable(w, n, c.(status := status), base, status)
  {
  }

  /** The failure and in-progress exits. */
  lemma FinishKeeping(w: World, n: Name, c: Binding, base: Status, status: Status)
    requires Steady(w, n) && CoreOk(w, n, c, base) && StatusShape(status, c.deleting)
    requires c.stale.Some? ==> status.rotation == NotRotating
    requires status.id == base.id && (status.ready ==> base.ready)
    requires status.id.None? && status.opUrl.Some? ==> base.opUrl.Some?
    ensures Inv(Finish(w, n, c, base, status))
  {
    hide ShapesOk, OneName, NamesOk, OriginalsOk, OneHolder, OnlyHeld, OneBackup, SecretsOk, FinalizersOk, Bounded, ReadyOk,
         LeftoversOk, Tracked, AskedOk, BackupsMatch, BackupsRetired, CoreOk, StatusShape, Writable, Others, PlansOk;
    Keeping(w, n, c, base, status);
    FinishOk(w, n, c, base, status);
  }

  /** On to a call that plans no backup. */
  lemma GoOn(w: World, n: Name, c: Binding, base: Status, pc: Pc)
    requires Steady(w, n) && CoreOk(w, n, c, base) && PlanName(n, pc).None?
    requires PcOk(w, n, Proc(c, base, pc))
    ensures Inv(Go(w, n, c, base, pc))
  {
    hide Global, CoreOk, PcOk, Others, PlansOk;
    Continue(w, n, Proc(c, base, pc));
  }

  lemma StatusSaved(w: World, n: Name, c: Binding, base: Status, status: Status)
    requires Inv(w) && n in w.procs && StatusWrite(w, n, c, base, status)
    ensures Steady(PutStatus(w, n, status), n)
  {
    var w1 := PutStatus(w, n, status);
    hide ProcOk, Rely, StatusWrite;
    StatusWritten(w, n, c, base, status);
    OthersFree(w, n);
    hide Global, PlansOk;
    Undisturbed(w, w1, n);
  }

  lemma OthersFree(w: World, n: Name)
    requires Inv(w)
    ensures forall m :: m in w.procs ==> PlanFree(w.bindings, m, w.procs[m].pc)
  {
    hide Global, PlansOk, CoreOk, PcOk;
    forall m | m in w.procs
      ensures PlanFree(w.bindings, m, w.procs[m].pc)
    {
      PlanIsFree(w, m, w.procs[m]);
    }
  }

  lemma CoreSaved(w: World, n: Name, c: Binding, base: Status, status: Status)
    requires CoreOk(w, n, c, base) && StatusWrite(w, n, c, base, status)
    requires !c.finalizer && status.id.Some? ==> status.id.value !in w.sm
    ensures CoreOk(PutStatus(w, n, status), n, c.(rv := w.clock), status)
  {
    hide IdWritable, Nameless, Created;
  }

  /** UpdateStatus, and the call after it. */
  lemma WriteStatusOk(w: World, n: Name, p: Proc, ch: Choice, next: Option<Pc>)
    requires Inv(w) && n in w.procs && CoreOk(w, n, p.c, p.base)
    requires Unchanged(w, n, p.c) ==> Writable(w, n, p.c, p.base, p.c.status)
    requires next.Some? && Unchanged(w, n, p.c) ==>
               && PlanName(n, next.value).None?
               && (!p.c.finalizer && p.c.status.id.Some? ==> p.c.status.id.value !in w.sm)
               && PcOk(PutStatus(w, n, p.c.status), n, Proc(p.c.(rv := w.clock), p.c.status, next.value))
    ensures Inv(WriteStatus(w, n, p, ch, next))
  {
    assert StatusWrite(w, n, p.c, p.base, p.c.status) || !Unchanged(w, n, p.c);
    if ch.call == Rejected || !Unchanged(w, n, p.c) {
      hide Global, CoreOk, PcOk, PlansOk, ProcOk;
      Ended(w, n);
    } else {
      var w1 := PutStatus(w, n, p.c.status);
      StatusSaved(w, n, p.c, p.base, p.c.status);
      if ch.call == Lost || next.None? {
        hide Global, CoreOk, PcOk, PlansOk, ProcOk, Others;
        Ended(w1, n);
      } else {
        CoreSaved(w, n, p.c, p.base, p.c.status);
        hide Global, CoreOk, PcOk, PlansOk, ProcOk, Others;
        GoOn(w1, n, p.c.(rv := w.clock), p.c.status, next.value);
      }
    }
  }

  // ----- the other calls

  lemma MetaSaved(w: World, n: Name, o1: Binding)
    requires Inv(w) && n in w.procs && MetaWrite(w, n, o1)
    ensures Steady(Replaced(w, n, o1), n)
  {
    hide ProcOk, Rely, MetaWrite;
    MetaWritten(w, n, o1);
    OthersFree(w, n);
    hide Global, PlansOk;
    Undisturbed(w, Replaced(w, n, o1), n);
  }

  lemma RemovalSaved(w: World, n: Name)
    requires Inv(w) && n in w.procs && n in w.bindings && w.bindings[n].deleting
    requires Clear(w.bindings, w.sm, w.secrets, n) && Nameless(w.sm, n)
    ensures Steady(w.(bindings := w.bindings - {n}, clock := w.clock + 1), n)
  {
    hide ProcOk, Rely, Nameless, Clear;
    assert w.bindings[n].stale.Some? ==> Backs(w.bindings, n, w.bindings[n].stale.value);
    Removed(w, n);
    OthersFree(w, n);
    hide Global, PlansOk;
    Undisturbed(w, w.(bindings := w.bindings - {n}, clock := w.clock + 1), n);
  }

  lemma SecretSaved(w: World, n: Name, b: Id)
    requires Inv(w) && n in w.procs && Storable(w, n, b)
    ensures Steady(StoreSecret(w, n, b), n)
  {
    hide ProcOk, Rely, Storable;
    Stored(w, n, b);
    OthersFree(w, n);
    hide Global, PlansOk;
    Undisturbed(w, StoreSecret(w, n, b), n);
  }

  lemma SecretDropped(w: World, n: Name)
    requires Inv(w) && n in w.procs
    ensures Steady(DropSecret(w, n), n)
  {
    hide ProcOk, Rely;
    Dropped(w, n);
    OthersFree(w, n);
    hide Global, PlansOk;
    Undisturbed(w, DropSecret(w, n), n);
  }

  lemma BindSaved(w: World, n: Name, async: bool)
    requires Inv(w) && n in w.procs && Bindable(w, n)
    ensures Steady(SmBind(w, n, w.bindings[n].externalName, async), n)
  {
    var w1 := SmBind(w, n, w.bindings[n].externalName, async);
    hide ProcOk, Rely, Bindable;
    Bound(w, n, async);
    OthersFree(w, n);
    hide Global, PlansOk;
    Undisturbed(w, w1, n);
  }

  lemma UnbindSaved(w: World, n: Name, b: Id, async: bool)
    requires Inv(w) && n in w.procs && (b in w.sm ==> Unbindable(w, n, b))
    ensures Steady(SmUnbind(w, b, async), n)
  {
    hide ProcOk, Rely, Unbindable;
    if b in w.sm {
      Unbound(w, n, b, async);
      OthersFree(w, n);
      hide Global, PlansOk;
      Undisturbed(w, SmUnbind(w, b, async), n);
    }
  }

  lemma RenameSaved(w: World, n: Name, b: Id, seen: SmBinding)
    requires Inv(w) && n in w.procs && Renaming(w, n, b, seen)
    requires seen.k8sName.Some? ==> seen.k8sName == PlanName(n, w.procs[n].pc)
    ensures Steady(w.(sm := w.sm[b := seen]), n)
  {
    hide ProcOk, Rely, Renaming, PlanName;
    Renamed(w, n, b, seen);
    OthersFree(w, n);
    hide Global;
    Undisturbed(w, w.(sm := w.sm[b := seen]), n);
  }

  lemma BackupSaved(w: World, n: Name, b: Id, x: Name, o: Binding)
    requires Inv(w) && n in w.procs && Addition(w, x, o) && o.stale == Some(b)
    requires Original(w.bindings, n) && Holds(w.bindings, n, b)
    requires PlanName(n, w.procs[n].pc) == Some(x)
    ensures Steady(CreateObject(w, x, o), n)
  {
    hide ProcOk, Rely, PlanName, Addition;
    Added(w, x, o);
    OthersFree(w, n);
    forall m | m in w.procs && m != n
      ensures Rely(w, CreateObject(w, x, o), m, w.procs[m].pc)
    {
      AdditionRelied(w, x, o, m, w.procs[m].pc);
    }
    hide Global;
    Undisturbed(w, CreateObject(w, x, o), n);
  }

  /** Calls that leave the resources and the clock alone leave what their caller knows of them. */
  lemma CoreKept(w: World, w1: World, n: Name, c: Binding, base: Status)
    requires CoreOk(w, n, c, base)
    requires w1.bindings == w.bindings && w1.clock == w.clock && w.nextId <= w1.nextId
    requires c.finalizer || w1.sm == w.sm
    ensures CoreOk(w1, n, c, base)
  {
  }
}
