/** The guarantee half, continued: new resources, SM calls and secrets. */
module BindingSmEffects {
  import opened Options
  import opened Remote
  import opened BindingWorld
  import opened BindingReconciler
  import opened BindingInvariant
  import opened BindingRely
  import opened BindingEffects

  // ----- a new resource

  /** `o` is a new original, or the backup of what `o0` holds under the names SM already shows. */
  ghost predicate Addition(w: World, n: Name, o: Binding) {
    && n !in w.bindings
    && o.uid == w.clock && o.rv == w.clock && !o.finalizer && !o.deleting && o.status == FreshStatus
    && BackupShape(n, o)
    && (o.stale.None? ==> Nameless(w.sm, n))
    && (o.stale.Some? ==>
          && var b := o.stale.value;
          && b < w.nextId && !HasBackup(w.bindings, b)
          && (forall b' :: Named(w.sm, b', n) ==> b' == b)
          && (b in w.sm ==> Named(w.sm, b, n) && w.sm[b].name == o.externalName && o.orig == Some(w.sm[b].creator)))
  }

  lemma AdditionSame(w: World, n: Name, o: Binding)
    requires Addition(w, n, o)
    ensures var bs, bs1 := w.bindings, w.bindings[n := o];
      && (forall x, b: Id :: Backs(bs1, x, b) <==> Backs(bs, x, b) || (x == n && o.stale == Some(b)))
      && (forall x, b :: Holds(bs1, x, b) <==> Holds(bs, x, b))
      && (forall x :: Original(bs1, x) <==> Original(bs, x) || (x == n && o.stale.None?))
  {
  }

  lemma AdditionKeepsNames(w: World, n: Name, o: Binding)
    requires Addition(w, n, o) && NamesOk(w.bindings, w.sm) && OriginalsOk(w.bindings, w.sm)
    ensures NamesOk(w.bindings[n := o], w.sm) && OriginalsOk(w.bindings[n := o], w.sm)
  {
    AdditionSame(w, n, o);
    hide HasBackup, Holds, Backs, Original, BackupShape;
  }

  lemma AdditionKeepsHolders(w: World, n: Name, o: Binding)
    requires Addition(w, n, o) && OnlyHeld(w.bindings, w.sm) && BackupsMatch(w.bindings, w.sm)
    requires OneHolder(w.bindings) && LeftoversOk(w.bindings, w.sm)
    ensures OnlyHeld(w.bindings[n := o], w.sm) && BackupsMatch(w.bindings[n := o], w.sm)
    ensures OneHolder(w.bindings[n := o]) && LeftoversOk(w.bindings[n := o], w.sm)
  {
    AdditionSame(w, n, o);
    hide HasBackup, Nameless, BackupShape;
  }

  lemma AdditionKeepsOneBackup(w: World, n: Name, o: Binding)
    requires Addition(w, n, o) && OneBackup(w.bindings)
    ensures OneBackup(w.bindings[n := o])
  {
    AdditionSame(w, n, o);
    hide Named, Nameless, BackupShape;
    assert forall x, b :: Backs(w.bindings, x, b) ==> HasBackup(w.bindings, b);
  }

  lemma AdditionKeepsUse(w: World, n: Name, o: Binding)
    requires Addition(w, n, o) && Bounded(w) && BackupsRetired(w.bindings, w.secrets)
    requires ReadyOk(w.bindings, w.sm, w.secrets) && AskedOk(w.bindings, w.sm) && SecretsOk(w.bindings, w.sm, w.secrets)
    ensures BackupsRetired(w.bindings[n := o], w.secrets)
    ensures ReadyOk(w.bindings[n := o], w.sm, w.secrets) && AskedOk(w.bindings[n := o], w.sm)
    ensures SecretsOk(w.bindings[n := o], w.sm, w.secrets)
  {
    AdditionSame(w, n, o);
    hide HasBackup, BackupShape, Live, Backs, Holds;
  }

  lemma AdditionKeepsShapes(w: World, n: Name, o: Binding)
    requires Addition(w, n, o) && Bounded(w) && ShapesOk(w.bindings) && FinalizersOk(w.bindings, w.sm, w.secrets)
    ensures Bounded(CreateObject(w, n, o)) && ShapesOk(w.bindings[n := o])
    ensures FinalizersOk(w.bindings[n := o], w.sm, w.secrets)
  {
    AdditionSame(w, n, o);
    hide HasBackup;
  }

  lemma AdditionKeepsTracked(w: World, n: Name, o: Binding)
    requires Addition(w, n, o) && Tracked(w.bindings, w.sm)
    ensures Tracked(w.bindings[n := o], w.sm)
  {
    hide HasBackup, BackupShape, Nameless;
    assert forall x, b :: Keeps(w.bindings, w.sm, x, b) ==> Keeps(w.bindings[n := o], w.sm, x, b);
  }

  lemma AdditionRelied(w: World, n: Name, o: Binding, m: Name, pc: Pc)
    requires Addition(w, n, o) && Bounded(w) && PlanFree(w.bindings, m, pc) && PlanName(m, pc) != Some(n)
    requires o.stale.Some? && Original(w.bindings, m) ==> !Holds(w.bindings, m, o.stale.value)
    ensures Rely(w, CreateObject(w, n, o), m, pc)
  {
    var bs, bs1 := w.bindings, w.bindings[n := o];
    forall b: Id | Original(bs, m) && Holds(bs, m, b)
      ensures HasBackup(bs, b) <==> HasBackup(bs1, b)
    {
      if HasBackup(bs, b) {
        var x :| x in bs && bs[x].stale == Some(b);
        assert x in bs1 && bs1[x].stale == Some(b);
      }
    }
    hide BackupShape, Nameless;
  }

  lemma Added(w: World, n: Name, o: Binding)
    requires Global(w) && Addition(w, n, o)
    ensures Global(CreateObject(w, n, o))
  {
    AdditionKeepsNames(w, n, o);
    AdditionKeepsHolders(w, n, o);
    AdditionKeepsOneBackup(w, n, o);
    AdditionKeepsUse(w, n, o);
    AdditionKeepsShapes(w, n, o);
    AdditionKeepsTracked(w, n, o);
    hide Bounded, ShapesOk, OneName, NamesOk, OriginalsOk, OneHolder, OnlyHeld, OneBackup, FinalizersOk, BackupsRetired,
         LeftoversOk, Tracked, ReadyOk, AskedOk, SecretsOk, BackupsMatch, Addition;
  }

  // ----- secrets

  /** `n` may show the credentials of `b`. */
  ghost predicate Storable(w: World, n: Name, b: Id) {
    && n in w.bindings && w.bindings[n].finalizer && Usable(w.bindings, w.sm, n, b)
    && (Original(w.bindings, n) ==> Holds(w.bindings, n, b) || (Named(w.sm, b, n) && w.bindings[n].status.id.None?))
  }

  lemma StoreSparesRetired(w: World, n: Name, b: Id, m: Name, mark: Id)
    requires Storable(w, n, b) && BackupsMatch(w.bindings, w.sm)
    requires Backs(w.bindings, m, mark) && Retired(w.bindings, w.secrets, w.bindings[m].orig.GetOr(""), mark)
    ensures Retired(w.bindings, w.secrets[n := b], w.bindings[m].orig.GetOr(""), mark)
  {
    if mark == b && b in w.sm {
      assert Named(w.sm, b, m);
    }
  }

  lemma Stored(w: World, n: Name, b: Id)
    requires Global(w) && Storable(w, n, b)
    ensures Global(StoreSecret(w, n, b))
    ensures forall m, pc :: m != n && PlanFree(w.bindings, m, pc) ==> Rely(w, StoreSecret(w, n, b), m, pc)
  {
    hide ShapesOk, OneName, NamesOk, OriginalsOk, OneHolder, OnlyHeld, OneBackup, ReadyOk, SecretsOk, FinalizersOk,
         LeftoversOk, Tracked, AskedOk, BackupsMatch, Retired, HasBackup, Usable, Live, Named, Holds, RelyRetired;
    var w1 := StoreSecret(w, n, b);
    forall m, mark | Backs(w.bindings, m, mark) && Retired(w.bindings, w.secrets, w.bindings[m].orig.GetOr(""), mark)
      ensures Retired(w1.bindings, w1.secrets, w.bindings[m].orig.GetOr(""), mark)
    {
      StoreSparesRetired(w, n, b, m, mark);
    }
    forall m
      ensures RelyRetired(w.bindings, w1.bindings, w.secrets, w1.secrets, m)
    {
      RetiredRelied(w, w1, m);
    }
    StoreKeepsUse(w, n, b);
    hide Rely, PlanFree;
    forall m, pc | m != n && PlanFree(w.bindings, m, pc)
      ensures Rely(w, w1, m, pc)
    {
      StoreRelied(w, n, b, m, pc);
    }
  }

  lemma StoreRelied(w: World, n: Name, b: Id, m: Name, pc: Pc)
    requires m != n && PlanFree(w.bindings, m, pc)
    requires RelyRetired(w.bindings, w.bindings, w.secrets, w.secrets[n := b], m)
    ensures Rely(w, StoreSecret(w, n, b), m, pc)
  {
    hide HasBackup, RelyRetired;
  }

  lemma StoreKeepsUse(w: World, n: Name, b: Id)
    requires Storable(w, n, b) && ShapesOk(w.bindings)
    requires ReadyOk(w.bindings, w.sm, w.secrets) && SecretsOk(w.bindings, w.sm, w.secrets)
    requires FinalizersOk(w.bindings, w.sm, w.secrets)
    ensures ReadyOk(w.bindings, w.sm, w.secrets[n := b]) && SecretsOk(w.bindings, w.sm, w.secrets[n := b])
    ensures FinalizersOk(w.bindings, w.sm, w.secrets[n := b])
  {
    hide BackupShape;
  }

  lemma Dropped(w: World, n: Name)
    requires Global(w)
    ensures Global(DropSecret(w, n))
    ensures forall m, pc :: PlanFree(w.bindings, m, pc) ==> Rely(w, DropSecret(w, n), m, pc)
  {
    hide ShapesOk, OneName, NamesOk, OriginalsOk, OneHolder, OnlyHeld, OneBackup,
         LeftoversOk, Tracked, AskedOk, BackupsMatch, HasBackup, Live, Named, Holds, Nameless;
    forall m, pc | PlanFree(w.bindings, m, pc)
      ensures Rely(w, DropSecret(w, n), m, pc)
    {
      DropRelied(w, n, m, pc);
    }
  }

  lemma DropRelied(w: World, n: Name, m: Name, pc: Pc)
    requires PlanFree(w.bindings, m, pc)
    ensures Rely(w, DropSecret(w, n), m, pc)
  {
    hide HasBackup;
  }

  // ----- Bind

  /** `n`, finalizer stored and no id, may ask for a binding: SM attributes none to it. */
  ghost predicate Bindable(w: World, n: Name) {
    && n in w.bindings && w.bindings[n].finalizer
    && w.bindings[n].status.id.None? && w.bindings[n].status.opUrl.None? && !w.bindings[n].status.ready
    && Nameless(w.sm, n)
  }

  lemma BindSame(w: World, n: Name, async: bool)
    requires n in w.bindings && Bounded(w)
    ensures var sm1 := SmBind(w, n, w.bindings[n].externalName, async).sm;
      && (forall x, b: Id :: Named(sm1, b, x) <==> Named(w.sm, b, x) || (b == w.nextId && x == n))
      && (forall b :: b in w.sm ==> b in sm1 && sm1[b] == w.sm[b] && b != w.nextId)
      && (forall b :: b in sm1 ==> b in w.sm || b == w.nextId)
      && (forall x :: !Holds(w.bindings, x, w.nextId) && !Backs(w.bindings, x, w.nextId))
  {
  }

  lemma BindKeepsNames(w: World, n: Name, async: bool)
    requires Bindable(w, n) && Bounded(w) && OneName(w.sm)
    requires NamesOk(w.bindings, w.sm) && OriginalsOk(w.bindings, w.sm) && OnlyHeld(w.bindings, w.sm)
    requires BackupsMatch(w.bindings, w.sm) && LeftoversOk(w.bindings, w.sm)
    ensures var sm1 := SmBind(w, n, w.bindings[n].externalName, async).sm;
      && OneName(sm1) && NamesOk(w.bindings, sm1) && OriginalsOk(w.bindings, sm1) && OnlyHeld(w.bindings, sm1)
      && BackupsMatch(w.bindings, sm1) && LeftoversOk(w.bindings, sm1)
  {
    BindSame(w, n, async);
    hide Named, Holds, Backs;
  }

  lemma BindKeepsUse(w: World, n: Name, async: bool)
    requires Bindable(w, n) && Bounded(w) && FinalizersOk(w.bindings, w.sm, w.secrets)
    requires ReadyOk(w.bindings, w.sm, w.secrets) && AskedOk(w.bindings, w.sm) && SecretsOk(w.bindings, w.sm, w.secrets)
    ensures var sm1 := SmBind(w, n, w.bindings[n].externalName, async).sm;
      && FinalizersOk(w.bindings, sm1, w.secrets)
      && ReadyOk(w.bindings, sm1, w.secrets) && AskedOk(w.bindings, sm1) && SecretsOk(w.bindings, sm1, w.secrets)
  {
    BindSame(w, n, async);
    hide Named, Holds, Backs;
  }

  lemma BindKeepsTracked(w: World, n: Name, async: bool)
    requires Bindable(w, n) && Bounded(w) && Tracked(w.bindings, w.sm)
    ensures Tracked(w.bindings, SmBind(w, n, w.bindings[n].externalName, async).sm)
  {
    var sm1 := SmBind(w, n, w.bindings[n].externalName, async).sm;
    assert forall x, b :: Keeps(w.bindings, w.sm, x, b) ==> Keeps(w.bindings, sm1, x, b);
    assert Keeps(w.bindings, sm1, n, w.nextId);
  }

  lemma BindRelied(w: World, n: Name, async: bool, m: Name, pc: Pc)
    requires Bindable(w, n) && Bounded(w) && m != n && PlanFree(w.bindings, m, pc)
    ensures Rely(w, SmBind(w, n, w.bindings[n].externalName, async), m, pc)
  {
    BindSame(w, n, async);
    hide Holds, Nameless;
  }

  lemma Bound(w: World, n: Name, async: bool)
    requires Global(w) && Bindable(w, n)
    ensures Global(SmBind(w, n, w.bindings[n].externalName, async))
    ensures forall m, pc :: m != n && PlanFree(w.bindings, m, pc) ==>
              Rely(w, SmBind(w, n, w.bindings[n].externalName, async), m, pc)
  {
    hide ShapesOk, OneName, NamesOk, OriginalsOk, OneHolder, OnlyHeld, OneBackup, ReadyOk, SecretsOk, FinalizersOk,
         LeftoversOk, Tracked, AskedOk, BackupsMatch, BackupsRetired, Rely, HasBackup, PlanFree;
    BindKeepsNames(w, n, async);
    BindKeepsUse(w, n, async);
    BindKeepsTracked(w, n, async);
    forall m, pc | m != n && PlanFree(w.bindings, m, pc)
      ensures Rely(w, SmBind(w, n, w.bindings[n].externalName, async), m, pc)
    {
      BindRelied(w, n, async, m, pc);
    }
  }

  // ----- Unbind

  /** `n` may unbind the `b` it holds: it is being deleted, or `b` failed to be created or was unbound before. */
  predicate Unbindable(w: World, n: Name, b: Id) {
    && Holds(w.bindings, n, b) && b in w.sm
    && (w.bindings[n].deleting || w.sm[b].provisioning == Failed || w.sm[b].unbinding != NotAsked)
  }

  /** No other original that is not being deleted can be affected by the unbind. */
  lemma NoVictim(w: World, n: Name, b: Id, m: Name)
    requires Unbindable(w, n, b)
    requires NamesOk(w.bindings, w.sm) && OriginalsOk(w.bindings, w.sm) && OneHolder(w.bindings)
    requires BackupsMatch(w.bindings, w.sm) && BackupsRetired(w.bindings, w.secrets)
    requires SecretsOk(w.bindings, w.sm, w.secrets)
    requires Original(w.bindings, m) && (m != n || !w.bindings[m].deleting)
    ensures m != n ==> !Named(w.sm, b, m)
    ensures !w.bindings[m].deleting && Live(w.sm, b) ==>
              !Holds(w.bindings, m, b) && !(m in w.secrets && w.secrets[m] == b)
  {
    if !Original(w.bindings, n) {
      assert Named(w.sm, b, n);
    }
  }

  lemma UnbindSame(w: World, b: Id, async: bool)
    requires b in w.sm
    ensures var sm1 := SmUnbind(w, b, async).sm;
      && (forall x, b' :: Named(sm1, b', x) <==> Named(w.sm, b', x) && (b' != b || async))
      && (forall b' :: b' in sm1 <==> b' in w.sm && (b' != b || async))
      && (forall b' :: b' in sm1 && b' != b ==> sm1[b'] == w.sm[b'])
      && (b in sm1 ==> sm1[b] == w.sm[b].(unbinding := Asked))
  {
  }

  lemma UnbindKeepsNames(w: World, b: Id, async: bool)
    requires b in w.sm && OneName(w.sm)
    requires NamesOk(w.bindings, w.sm) && OriginalsOk(w.bindings, w.sm) && OnlyHeld(w.bindings, w.sm)
    requires BackupsMatch(w.bindings, w.sm) && LeftoversOk(w.bindings, w.sm)
    requires FinalizersOk(w.bindings, w.sm, w.secrets) && ReadyOk(w.bindings, w.sm, w.secrets)
    ensures var sm1 := SmUnbind(w, b, async).sm;
      && OneName(sm1) && NamesOk(w.bindings, sm1) && OriginalsOk(w.bindings, sm1) && OnlyHeld(w.bindings, sm1)
      && BackupsMatch(w.bindings, sm1) && LeftoversOk(w.bindings, sm1)
      && FinalizersOk(w.bindings, sm1, w.secrets) && ReadyOk(w.bindings, sm1, w.secrets)
  {
    UnbindSame(w, b, async);
    hide Named, Holds, Backs;
  }

  lemma UnbindKeepsUse(w: World, n: Name, b: Id, async: bool)
    requires Unbindable(w, n, b)
    requires NamesOk(w.bindings, w.sm) && OriginalsOk(w.bindings, w.sm) && OneHolder(w.bindings)
    requires BackupsMatch(w.bindings, w.sm) && BackupsRetired(w.bindings, w.secrets)
    requires AskedOk(w.bindings, w.sm) && SecretsOk(w.bindings, w.sm, w.secrets) && OnlyHeld(w.bindings, w.sm)
    ensures AskedOk(w.bindings, SmUnbind(w, b, async).sm)
    ensures SecretsOk(w.bindings, SmUnbind(w, b, async).sm, w.secrets)
  {
    var sm1 := SmUnbind(w, b, async).sm;
    UnbindSame(w, b, async);
    forall m | Original(w.bindings, m) && !w.bindings[m].deleting && m in w.secrets
      ensures Live(sm1, w.secrets[m]) && sm1[w.secrets[m]].creator == m
    {
      NoVictim(w, n, b, m);
    }
    forall m, b' | Original(w.bindings, m) && b' in sm1 && sm1[b'].unbinding != NotAsked && (Holds(w.bindings, m, b') || Named(sm1, b', m))
      ensures Holds(w.bindings, m, b') && (w.bindings[m].deleting || sm1[b'].provisioning == Failed)
    {
      if b' == b {
        UnbindAnswers(w, n, b, m);
      }
    }
  }

  lemma UnbindAnswers(w: World, n: Name, b: Id, m: Name)
    requires Unbindable(w, n, b)
    requires NamesOk(w.bindings, w.sm) && OriginalsOk(w.bindings, w.sm) && OneHolder(w.bindings)
    requires BackupsMatch(w.bindings, w.sm) && BackupsRetired(w.bindings, w.secrets)
    requires AskedOk(w.bindings, w.sm) && SecretsOk(w.bindings, w.sm, w.secrets)
    requires Original(w.bindings, m) && (Holds(w.bindings, m, b) || Named(w.sm, b, m))
    ensures Holds(w.bindings, m, b) && (w.bindings[m].deleting || w.sm[b].provisioning == Failed)
  {
  }

  lemma UnbindKeepsTracked(w: World, b: Id, async: bool)
    requires b in w.sm && Tracked(w.bindings, w.sm)
    ensures Tracked(w.bindings, SmUnbind(w, b, async).sm)
  {
    var sm1 := SmUnbind(w, b, async).sm;
    UnbindSame(w, b, async);
    assert forall x, b' :: b' in sm1 && Keeps(w.bindings, w.sm, x, b') ==> Keeps(w.bindings, sm1, x, b');
  }

  lemma UnbindSpares(w: World, n: Name, b: Id, async: bool, m: Name)
    requires Unbindable(w, n, b) && m != n
    requires NamesOk(w.bindings, w.sm) && OriginalsOk(w.bindings, w.sm) && OneHolder(w.bindings)
    requires BackupsMatch(w.bindings, w.sm) && BackupsRetired(w.bindings, w.secrets)
    requires SecretsOk(w.bindings, w.sm, w.secrets)
    ensures RelyMine(w.bindings, w.bindings, w.sm, SmUnbind(w, b, async).sm, m)
  {
    UnbindSame(w, b, async);
    if Original(w.bindings, m) {
      NoVictim(w, n, b, m);
    }
    hide NamesOk, OriginalsOk, OneHolder, BackupsMatch, BackupsRetired, SecretsOk, Retired, SmUnbind;
  }

  lemma UnbindRelied(w: World, n: Name, b: Id, async: bool, m: Name, pc: Pc)
    requires Unbindable(w, n, b) && m != n && PlanFree(w.bindings, m, pc)
    requires RelyMine(w.bindings, w.bindings, w.sm, SmUnbind(w, b, async).sm, m)
    ensures Rely(w, SmUnbind(w, b, async), m, pc)
  {
    UnbindSame(w, b, async);
    hide RelyMine, HasBackup, Holds, Original;
  }

  lemma Unbound(w: World, n: Name, b: Id, async: bool)
    requires Global(w) && Unbindable(w, n, b)
    ensures Global(SmUnbind(w, b, async))
    ensures forall m, pc :: m != n && PlanFree(w.bindings, m, pc) ==> Rely(w, SmUnbind(w, b, async), m, pc)
  {
    hide ShapesOk, OneName, NamesOk, OriginalsOk, OneHolder, OnlyHeld, OneBackup, ReadyOk, SecretsOk, FinalizersOk,
         LeftoversOk, Tracked, AskedOk, BackupsMatch, BackupsRetired, Rely, HasBackup, PlanFree;
    UnbindKeepsNames(w, b, async);
    UnbindKeepsUse(w, n, b, async);
    UnbindKeepsTracked(w, b, async);
    forall m, pc | m != n && PlanFree(w.bindings, m, pc)
      ensures Rely(w, SmUnbind(w, b, async), m, pc)
    {
      UnbindSpares(w, n, b, async, m);
      UnbindRelied(w, n, b, async, m, pc);
    }
  }

  // ----- the two halves of a rename

  /** A change of the names of the `b` that the original `n` holds, while it has no backup. */
  ghost predicate Renaming(w: World, n: Name, b: Id, seen: SmBinding) {
    && Original(w.bindings, n) && Holds(w.bindings, n, b) && b in w.sm && !HasBackup(w.bindings, b)
    && seen == w.sm[b].(name := seen.name, k8sName := seen.k8sName)
    && (seen.k8sName.Some? ==>
          seen.k8sName.value !in w.bindings && forall b' :: Named(w.sm, b', seen.k8sName.value) ==> b' == b)
  }

  /** Only the resource `n` itself may have been attributed `b`. */
  lemma RenamingNobody(w: World, n: Name, b: Id, seen: SmBinding)
    requires Renaming(w, n, b, seen) && NamesOk(w.bindings, w.sm) && OriginalsOk(w.bindings, w.sm)
    ensures forall x :: x in w.bindings && x != n ==> !Named(w.sm, b, x)
  {
    assert forall x :: Backs(w.bindings, x, b) ==> HasBackup(w.bindings, b);
  }

  lemma RenamingSame(w: World, n: Name, b: Id, seen: SmBinding)
    requires Renaming(w, n, b, seen)
    ensures var sm1 := w.sm[b := seen];
      && (forall x, b' :: Named(sm1, b', x) <==> if b' == b then seen.k8sName == Some(x) else Named(w.sm, b', x))
      && (forall b' :: b' in sm1 <==> b' in w.sm)
      && (forall b' :: b' in sm1 ==> sm1[b'] == w.sm[b'].(name := sm1[b'].name, k8sName := sm1[b'].k8sName))
  {
  }

  lemma RenamingKeepsNames(w: World, n: Name, b: Id, seen: SmBinding)
    requires Renaming(w, n, b, seen) && OneName(w.sm)
    requires NamesOk(w.bindings, w.sm) && OriginalsOk(w.bindings, w.sm) && OnlyHeld(w.bindings, w.sm)
    ensures OneName(w.sm[b := seen]) && NamesOk(w.bindings, w.sm[b := seen]) && OriginalsOk(w.bindings, w.sm[b := seen])
    ensures OnlyHeld(w.bindings, w.sm[b := seen])
  {
    RenamingSame(w, n, b, seen);
    RenamingNobody(w, n, b, seen);
    hide Named, Holds, Backs, HasBackup, Original;
  }

  lemma RenamingKeepsUse(w: World, n: Name, b: Id, seen: SmBinding)
    requires Renaming(w, n, b, seen)
    requires LeftoversOk(w.bindings, w.sm) && FinalizersOk(w.bindings, w.sm, w.secrets)
    requires ReadyOk(w.bindings, w.sm, w.secrets) && AskedOk(w.bindings, w.sm) && SecretsOk(w.bindings, w.sm, w.secrets)
    ensures var sm1 := w.sm[b := seen];
      && LeftoversOk(w.bindings, sm1) && FinalizersOk(w.bindings, sm1, w.secrets)
      && ReadyOk(w.bindings, sm1, w.secrets) && AskedOk(w.bindings, sm1) && SecretsOk(w.bindings, sm1, w.secrets)
  {
    RenamingSame(w, n, b, seen);
    hide Named, Holds, Backs, HasBackup;
  }

  lemma RenamingKeepsBackups(w: World, n: Name, b: Id, seen: SmBinding)
    requires Renaming(w, n, b, seen) && NamesOk(w.bindings, w.sm) && OriginalsOk(w.bindings, w.sm)
    requires BackupsMatch(w.bindings, w.sm)
    ensures BackupsMatch(w.bindings, w.sm[b := seen])
  {
    RenamingSame(w, n, b, seen);
    RenamingNobody(w, n, b, seen);
    assert forall m :: !Backs(w.bindings, m, b);
    hide Named, HasBackup;
  }

  lemma RenamingKeepsTracked(w: World, n: Name, b: Id, seen: SmBinding)
    requires Renaming(w, n, b, seen) && Tracked(w.bindings, w.sm)
    ensures Tracked(w.bindings, w.sm[b := seen])
  {
    var sm1 := w.sm[b := seen];
    assert Keeps(w.bindings, sm1, n, b);
    assert forall x, b' :: b' != b && Keeps(w.bindings, w.sm, x, b') ==> Keeps(w.bindings, sm1, x, b');
  }

  lemma RenamingRelied(w: World, n: Name, b: Id, seen: SmBinding, m: Name, pc: Pc)
    requires Renaming(w, n, b, seen) && NamesOk(w.bindings, w.sm) && OriginalsOk(w.bindings, w.sm)
    requires OneHolder(w.bindings)
    requires m != n && PlanFree(w.bindings, m, pc) && (seen.k8sName.Some? ==> PlanName(m, pc) != seen.k8sName)
    ensures Rely(w, w.(sm := w.sm[b := seen]), m, pc)
  {
    RenamingSame(w, n, b, seen);
    RenamingNobody(w, n, b, seen);
    hide Named, HasBackup, NamesOk, OriginalsOk;
  }

  lemma Renamed(w: World, n: Name, b: Id, seen: SmBinding)
    requires Global(w) && Renaming(w, n, b, seen)
    ensures Global(w.(sm := w.sm[b := seen]))
    ensures forall m, pc :: m != n && PlanFree(w.bindings, m, pc) && (seen.k8sName.Some? ==> PlanName(m, pc) != seen.k8sName) ==>
              Rely(w, w.(sm := w.sm[b := seen]), m, pc)
  {
    hide ShapesOk, OneName, NamesOk, OriginalsOk, OneHolder, OnlyHeld, OneBackup, ReadyOk, SecretsOk, FinalizersOk,
         LeftoversOk, Tracked, AskedOk, BackupsMatch, BackupsRetired, Rely, HasBackup, PlanFree;
    RenamingKeepsNames(w, n, b, seen);
    RenamingKeepsUse(w, n, b, seen);
    RenamingKeepsBackups(w, n, b, seen);
    RenamingKeepsTracked(w, n, b, seen);
    forall m, pc | m != n && PlanFree(w.bindings, m, pc) && (seen.k8sName.Some? ==> PlanName(m, pc) != seen.k8sName)
      ensures Rely(w, w.(sm := w.sm[b := seen]), m, pc)
    {
      RenamingRelied(w, n, b, seen, m, pc);
    }
  }

  // ----- SM finishes an operation

  lemma OperateSame(w: World, b: Id, good: bool)
    requires b in w.sm
    ensures var sm1 := SmFinish(w, b, good).sm;
      && (forall x, b' :: Named(sm1, b', x) <==> Named(w.sm, b', x) && b' in sm1)
      && (forall b' :: b' in sm1 ==> b' in w.sm && sm1[b'].name == w.sm[b'].name && sm1[b'].creator == w.sm[b'].creator)
      && (forall b' :: b' in w.sm && w.sm[b'].unbinding == NotAsked ==> b' in sm1 && sm1[b'].unbinding == NotAsked)
      && (forall b' :: b' in sm1 && w.sm[b'].provisioning != Pending ==> sm1[b'].provisioning == w.sm[b'].provisioning)
      && (forall b' :: b' in sm1 && w.sm[b'].unbinding != NotAsked ==> sm1[b'].unbinding != NotAsked)
  {
    var sm1 := SmFinish(w, b, good).sm;
    assert forall b' :: b' != b ==> (b' in sm1 <==> b' in w.sm) && (b' in sm1 ==> sm1[b'] == w.sm[b']);
    assert b in sm1 ==> sm1[b] == w.sm[b].(provisioning := sm1[b].provisioning, unbinding := sm1[b].unbinding);
  }

  lemma OperateKeepsNames(w: World, b: Id, good: bool)
    requires b in w.sm && OneName(w.sm)
    requires NamesOk(w.bindings, w.sm) && OriginalsOk(w.bindings, w.sm) && OnlyHeld(w.bindings, w.sm)
    requires BackupsMatch(w.bindings, w.sm) && LeftoversOk(w.bindings, w.sm)
    requires FinalizersOk(w.bindings, w.sm, w.secrets)
    ensures var sm1 := SmFinish(w, b, good).sm;
      && OneName(sm1) && NamesOk(w.bindings, sm1) && OriginalsOk(w.bindings, sm1) && OnlyHeld(w.bindings, sm1)
      && BackupsMatch(w.bindings, sm1) && LeftoversOk(w.bindings, sm1) && FinalizersOk(w.bindings, sm1, w.secrets)
  {
    OperateSame(w, b, good);
    hide Named, Holds, Backs, SmFinish;
  }

  lemma OperateKeepsUse(w: World, b: Id, good: bool)
    requires b in w.sm
    requires ReadyOk(w.bindings, w.sm, w.secrets) && AskedOk(w.bindings, w.sm) && SecretsOk(w.bindings, w.sm, w.secrets)
    ensures var sm1 := SmFinish(w, b, good).sm;
      ReadyOk(w.bindings, sm1, w.secrets) && AskedOk(w.bindings, sm1) && SecretsOk(w.bindings, sm1, w.secrets)
  {
    OperateSame(w, b, good);
    hide Named, Holds, Backs, SmFinish;
  }

  lemma OperateKeepsTracked(w: World, b: Id, good: bool)
    requires b in w.sm && Tracked(w.bindings, w.sm)
    ensures Tracked(w.bindings, SmFinish(w, b, good).sm)
  {
    var sm1 := SmFinish(w, b, good).sm;
    OperateSame(w, b, good);
    assert forall x, b' :: b' in sm1 && Keeps(w.bindings, w.sm, x, b') ==> Keeps(w.bindings, sm1, x, b');
  }

  lemma OperateRelied(w: World, b: Id, good: bool, m: Name, pc: Pc)
    requires b in w.sm && PlanFree(w.bindings, m, pc)
    ensures Rely(w, SmFinish(w, b, good), m, pc)
  {
    hide HasBackup, Named, Holds, SmFinish, RelyMine;
    OperateSame(w, b, good);
    OperateApart(w, b, good);
    OperateMine(w, b, good, m);
  }

  lemma OperateMine(w: World, b: Id, good: bool, m: Name)
    requires b in w.sm
    ensures RelyMine(w.bindings, w.bindings, w.sm, SmFinish(w, b, good).sm, m)
  {
    hide SmFinish, Holds;
    OperateSame(w, b, good);
  }

  lemma OperateApart(w: World, b: Id, good: bool)
    ensures var w1 := SmFinish(w, b, good);
      w1.bindings == w.bindings && w1.secrets == w.secrets && w1.clock == w.clock && w1.nextId == w.nextId && w1.procs == w.procs
    ensures b in w.sm ==> forall b' :: b' in SmFinish(w, b, good).sm ==>
              SmFinish(w, b, good).sm[b'].k8sName == w.sm[b'].k8sName || b' !in w.sm
  {
  }

  lemma Operated(w: World, b: Id, good: bool)
    requires Global(w) && b in w.sm
    ensures Global(SmFinish(w, b, good))
    ensures forall m, pc :: PlanFree(w.bindings, m, pc) ==> Rely(w, SmFinish(w, b, good), m, pc)
  {
    hide ShapesOk, OneName, NamesOk, OriginalsOk, OneHolder, OnlyHeld, OneBackup, ReadyOk, SecretsOk, FinalizersOk,
         LeftoversOk, Tracked, AskedOk, BackupsMatch, BackupsRetired, Rely, HasBackup, PlanFree;
    OperateKeepsNames(w, b, good);
    OperateKeepsUse(w, b, good);
    OperateKeepsTracked(w, b, good);
    forall m, pc | PlanFree(w.bindings, m, pc)
      ensures Rely(w, SmFinish(w, b, good), m, pc)
    {
      OperateRelied(w, b, good, m, pc);
    }
  }
}
