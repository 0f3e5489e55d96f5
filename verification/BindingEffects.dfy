/**
 The guarantee half: each call of a reconcile keeps the two stores consistent and respects what every
 other reconcile relies on.
 */
module BindingEffects {
  import opened Options
  import opened Remote
  import opened BindingWorld
  import opened BindingReconciler
  import opened BindingInvariant
  import opened BindingRely

  /** The plan of a reconcile is for a name that does not exist yet. */
  predicate PlanFree(bs: Bindings, m: Name, pc: Pc) {
    PlanName(m, pc).Some? ==> PlanName(m, pc).value !in bs
  }

  lemma BackupsSame(bs: Bindings, bs1: Bindings)
    requires bs.Keys == bs1.Keys && forall m :: m in bs ==> bs1[m].stale == bs[m].stale
    ensures forall b: Id :: HasBackup(bs, b) <==> HasBackup(bs1, b)
  {
    forall b: Id
      ensures HasBackup(bs, b) <==> HasBackup(bs1, b)
    {
      if HasBackup(bs, b) {
        var m :| m in bs && bs[m].stale == Some(b);
        assert m in bs1 && bs1[m].stale == Some(b);
      }
      if HasBackup(bs1, b) {
        var m :| m in bs1 && bs1[m].stale == Some(b);
        assert m in bs && bs[m].stale == Some(b);
      }
    }
  }

  // ----- a status write

  ghost predicate StatusWrite(w: World, n: Name, c: Binding, base: Status, status: Status) {
    Unchanged(w, n, c) && w.bindings[n] == c.(status := base) && Writable(w, n, c, base, status)
  }

  function Rewritten(w: World, n: Name, status: Status): Bindings
    requires n in w.bindings
  {
    PutStatus(w, n, status).bindings
  }

  lemma StatusKeepsNames(w: World, n: Name, c: Binding, base: Status, status: Status)
    requires StatusWrite(w, n, c, base, status)
    requires NamesOk(w.bindings, w.sm) && OriginalsOk(w.bindings, w.sm)
    ensures NamesOk(Rewritten(w, n, status), w.sm) && OriginalsOk(Rewritten(w, n, status), w.sm)
  {
    hide HasBackup, Nameless, Created, StatusShape;
    var bs1 := Rewritten(w, n, status);
    assert forall x, b :: Backs(bs1, x, b) <==> Backs(w.bindings, x, b);
    forall m, b | Original(bs1, m) && Holds(bs1, m, b) && b in w.sm
      ensures w.sm[b].creator == m && forall x :: Named(w.sm, b, x) && x in bs1 && x != m ==> Backs(bs1, x, b)
    {
      if m != n || status.id == base.id {
        assert Original(w.bindings, m) && Holds(w.bindings, m, b);
      } else {
        assert Named(w.sm, b, n);
      }
    }
  }

  lemma StatusKeepsHolders(w: World, n: Name, c: Binding, base: Status, status: Status)
    requires StatusWrite(w, n, c, base, status)
    requires OnlyHeld(w.bindings, w.sm) && BackupsMatch(w.bindings, w.sm)
    ensures OnlyHeld(Rewritten(w, n, status), w.sm) && BackupsMatch(Rewritten(w, n, status), w.sm)
  {
    hide HasBackup, Nameless, Created, StatusShape;
    var bs1 := Rewritten(w, n, status);
    assert forall x, b :: Backs(bs1, x, b) <==> Backs(w.bindings, x, b);
    assert forall x, b :: (x != n || status.id == base.id) && Holds(bs1, x, b) ==> Holds(w.bindings, x, b);
    assert forall x :: Original(bs1, x) <==> Original(w.bindings, x);
  }

  lemma StatusKeepsOneHolder(w: World, n: Name, c: Binding, base: Status, status: Status)
    requires StatusWrite(w, n, c, base, status) && OneHolder(w.bindings)
    requires NamesOk(w.bindings, w.sm) && OriginalsOk(w.bindings, w.sm)
    ensures OneHolder(Rewritten(w, n, status))
  {
    hide HasBackup, Nameless, Created, StatusShape;
    var bs1 := Rewritten(w, n, status);
    assert forall x, b :: (x != n || status.id == base.id) && Holds(bs1, x, b) ==> Holds(w.bindings, x, b);
    assert forall x :: Original(bs1, x) <==> Original(w.bindings, x);
    if c.stale.None? && status.id.Some? && status.id != base.id {
      assert Named(w.sm, status.id.value, n);
      assert w.sm[status.id.value].creator == n;
    }
  }

  lemma StatusKeepsRetired(w: World, n: Name, c: Binding, base: Status, status: Status, m: Name, b: Id)
    requires StatusWrite(w, n, c, base, status) && BackupsMatch(w.bindings, w.sm)
    requires ShapesOk(w.bindings) && Backs(w.bindings, m, b)
    requires Retired(w.bindings, w.secrets, w.bindings[m].orig.GetOr(""), b)
    ensures Retired(Rewritten(w, n, status), w.secrets, w.bindings[m].orig.GetOr(""), b)
  {
    hide HasBackup, Nameless, Created, StatusShape;
    assert b in w.sm ==> Named(w.sm, b, m);
  }

  lemma StatusKeepsTracked(w: World, n: Name, c: Binding, base: Status, status: Status)
    requires StatusWrite(w, n, c, base, status)
    requires Tracked(w.bindings, w.sm) && BackupsMatch(w.bindings, w.sm) && OnlyHeld(w.bindings, w.sm)
    ensures Tracked(Rewritten(w, n, status), w.sm)
  {
    hide Nameless, Created, StatusShape;
    var bs1 := Rewritten(w, n, status);
    forall b | b in w.sm
      ensures exists x :: Keeps(bs1, w.sm, x, b)
    {
      var x :| Keeps(w.bindings, w.sm, x, b);
      if x != n || status.id == base.id {
        assert Keeps(bs1, w.sm, x, b);
      } else if base.id.None? {
        assert Keeps(bs1, w.sm, n, b);
      } else {
        var m :| m in w.bindings && w.bindings[m].stale == Some(b);
        assert Backs(w.bindings, m, b) && Named(w.sm, b, m);
        if w.bindings[m].status.id.Some? {
          assert Holds(w.bindings, m, w.bindings[m].status.id.value);
        }
        assert Keeps(bs1, w.sm, m, b);
      }
    }
  }

  lemma StatusKeepsShapes(w: World, n: Name, c: Binding, base: Status, status: Status)
    requires StatusWrite(w, n, c, base, status)
    requires Bounded(w) && ShapesOk(w.bindings) && OneBackup(w.bindings)
    ensures Bounded(PutStatus(w, n, status)) && ShapesOk(Rewritten(w, n, status)) && OneBackup(Rewritten(w, n, status))
  {
    hide IdWritable, Created, StatusShape, Nameless;
    var bs1 := Rewritten(w, n, status);
    assert forall x, b :: Backs(bs1, x, b) <==> Backs(w.bindings, x, b);
  }

  lemma StatusKeepsFinalizers(w: World, n: Name, c: Binding, base: Status, status: Status)
    requires StatusWrite(w, n, c, base, status)
    requires FinalizersOk(w.bindings, w.sm, w.secrets) && LeftoversOk(w.bindings, w.sm)
    ensures FinalizersOk(Rewritten(w, n, status), w.sm, w.secrets) && LeftoversOk(Rewritten(w, n, status), w.sm)
  {
    hide HasBackup, Created, Adoptable, StatusShape;
    var bs1 := Rewritten(w, n, status);
    assert forall x, b :: (x != n || status.id == base.id) && Holds(bs1, x, b) ==> Holds(w.bindings, x, b);
    assert forall x :: Original(bs1, x) <==> Original(w.bindings, x);
  }

  lemma StatusKeepsUse(w: World, n: Name, c: Binding, base: Status, status: Status)
    requires StatusWrite(w, n, c, base, status)
    requires ReadyOk(w.bindings, w.sm, w.secrets) && SecretsOk(w.bindings, w.sm, w.secrets)
    ensures ReadyOk(Rewritten(w, n, status), w.sm, w.secrets) && SecretsOk(Rewritten(w, n, status), w.sm, w.secrets)
  {
    hide Nameless, StatusShape, IdWritable;
    var bs1 := Rewritten(w, n, status);
    assert forall x, b :: x != n && Holds(bs1, x, b) ==> Holds(w.bindings, x, b);
    assert forall x :: Original(bs1, x) <==> Original(w.bindings, x);
  }

  lemma StatusKeepsAsked(w: World, n: Name, c: Binding, base: Status, status: Status)
    requires StatusWrite(w, n, c, base, status) && OnlyHeld(w.bindings, w.sm) && BackupsMatch(w.bindings, w.sm)
    requires AskedOk(w.bindings, w.sm)
    ensures AskedOk(Rewritten(w, n, status), w.sm)
  {
    hide Nameless, StatusShape, Created;
    var bs1 := Rewritten(w, n, status);
    assert forall x, b :: (x != n || status.id == base.id) && Holds(bs1, x, b) ==> Holds(w.bindings, x, b);
    assert forall x :: Original(bs1, x) <==> Original(w.bindings, x);
    if status.id != base.id && base.id.Some? && base.id.value in w.sm {
      assert Holds(w.bindings, n, base.id.value);
      var m :| m in w.bindings && w.bindings[m].stale == base.id;
      assert Backs(w.bindings, m, base.id.value) && Named(w.sm, base.id.value, m);
    }
  }

  lemma StatusWritten(w: World, n: Name, c: Binding, base: Status, status: Status)
    requires Global(w) && StatusWrite(w, n, c, base, status)
    ensures Global(PutStatus(w, n, status))
    ensures forall m, pc :: m != n && PlanFree(w.bindings, m, pc) ==> Rely(w, PutStatus(w, n, status), m, pc)
  {
    hide Bounded, ShapesOk, OneName, NamesOk, OriginalsOk, OneHolder, OnlyHeld, OneBackup, FinalizersOk,
         LeftoversOk, Tracked, ReadyOk, AskedOk, SecretsOk, Writable, Retired, RelyRetired, HasBackup, BackupsMatch;
    var w1 := PutStatus(w, n, status);
    StatusKeepsNames(w, n, c, base, status);
    StatusKeepsTracked(w, n, c, base, status);
    StatusKeepsShapes(w, n, c, base, status);
    StatusKeepsFinalizers(w, n, c, base, status);
    StatusKeepsUse(w, n, c, base, status);
    StatusKeepsAsked(w, n, c, base, status);
    StatusKeepsHolders(w, n, c, base, status);
    StatusKeepsOneHolder(w, n, c, base, status);
    BackupsSame(w.bindings, w1.bindings);
    forall m, b | Backs(w.bindings, m, b) && Retired(w.bindings, w.secrets, w.bindings[m].orig.GetOr(""), b)
      ensures Retired(w1.bindings, w1.secrets, w.bindings[m].orig.GetOr(""), b)
    {
      StatusKeepsRetired(w, n, c, base, status, m, b);
    }
    forall m
      ensures RelyRetired(w.bindings, w1.bindings, w.secrets, w1.secrets, m)
    {
      RetiredRelied(w, w1, m);
    }
  }

  lemma RetiredRelied(w: World, w1: World, m: Name)
    requires forall m, b :: Backs(w.bindings, m, b) && Retired(w.bindings, w.secrets, w.bindings[m].orig.GetOr(""), b) ==>
               Retired(w1.bindings, w1.secrets, w.bindings[m].orig.GetOr(""), b)
    ensures RelyRetired(w.bindings, w1.bindings, w.secrets, w1.secrets, m)
  {
    hide Retired;
    if m in w.bindings && w.bindings[m].stale.Some? {
      assert Backs(w.bindings, m, w.bindings[m].stale.value);
    }
  }

  // ----- a change of metadata

  /** SM holds nothing that `n` would have to delete, and no secret is left. */
  ghost predicate Clear(bs: Bindings, sm: Sm, secrets: Secrets, n: Name) {
    && n !in secrets
    && (forall b :: Holds(bs, n, b) ==> b !in sm)
  }

  /** `o1` may replace the object `n`: same status and identity, and a finalizer while there is something to finalize. */
  ghost predicate MetaWrite(w: World, n: Name, o1: Binding) {
    && n in w.bindings
    && var o := w.bindings[n];
    && o1.uid == o.uid && o1.status == o.status && o1.stale == o.stale && o1.orig == o.orig
    && o1.externalName == o.externalName && o1.rv == w.clock && (o.deleting ==> o1.deleting)
    && (o1.stale.Some? ==> o1.policy != Some(true))
    && (o1.deleting ==> o1.finalizer)
    && (!o1.finalizer ==> Clear(w.bindings, w.sm, w.secrets, n) && (o.stale.None? ==> Nameless(w.sm, n)))
    && (o1.deleting && !o.deleting && o.stale.Some? ==>
          Retired(w.bindings, w.secrets, o.orig.GetOr(""), o.stale.value))
  }

  function Replaced(w: World, n: Name, o1: Binding): World {
    w.(bindings := w.bindings[n := o1], clock := w.clock + 1)
  }

  lemma MetaSame(w: World, n: Name, o1: Binding)
    requires MetaWrite(w, n, o1)
    ensures var bs, bs1 := w.bindings, Replaced(w, n, o1).bindings;
      && (forall x, b :: Backs(bs1, x, b) <==> Backs(bs, x, b))
      && (forall x, b :: Holds(bs1, x, b) <==> Holds(bs, x, b))
      && (forall x :: Original(bs1, x) <==> Original(bs, x))
      && (forall x, b :: Keeps(bs1, w.sm, x, b) <==> Keeps(bs, w.sm, x, b))
  {
  }

  lemma MetaKeepsNames(w: World, n: Name, o1: Binding)
    requires MetaWrite(w, n, o1)
    requires NamesOk(w.bindings, w.sm) && OriginalsOk(w.bindings, w.sm) && OnlyHeld(w.bindings, w.sm)
    requires BackupsMatch(w.bindings, w.sm) && OneHolder(w.bindings) && OneBackup(w.bindings)
    ensures var bs1 := Replaced(w, n, o1).bindings;
      && NamesOk(bs1, w.sm) && OriginalsOk(bs1, w.sm) && OnlyHeld(bs1, w.sm)
      && BackupsMatch(bs1, w.sm) && OneHolder(bs1) && OneBackup(bs1)
  {
    MetaSame(w, n, o1);
    hide Clear, Retired, Holds, Backs;
  }

  lemma MetaKeepsShapes(w: World, n: Name, o1: Binding)
    requires MetaWrite(w, n, o1) && Bounded(w) && ShapesOk(w.bindings) && LeftoversOk(w.bindings, w.sm)
    ensures var w1 := Replaced(w, n, o1);
      Bounded(w1) && ShapesOk(w1.bindings) && LeftoversOk(w1.bindings, w.sm)
  {
    hide Clear, Retired, Nameless, Named;
  }

  lemma MetaKeepsUse(w: World, n: Name, o1: Binding)
    requires MetaWrite(w, n, o1)
    requires ReadyOk(w.bindings, w.sm, w.secrets) && AskedOk(w.bindings, w.sm) && SecretsOk(w.bindings, w.sm, w.secrets)
    ensures var bs1 := Replaced(w, n, o1).bindings;
      ReadyOk(bs1, w.sm, w.secrets) && AskedOk(bs1, w.sm) && SecretsOk(bs1, w.sm, w.secrets)
  {
    MetaSame(w, n, o1);
    hide Clear, Retired, Nameless, Holds, Backs, Named, Live;
  }

  lemma MetaKeepsFinalizers(w: World, n: Name, o1: Binding)
    requires MetaWrite(w, n, o1)
    requires FinalizersOk(w.bindings, w.sm, w.secrets) && BackupsRetired(w.bindings, w.secrets)
    ensures var bs1 := Replaced(w, n, o1).bindings;
      FinalizersOk(bs1, w.sm, w.secrets) && BackupsRetired(bs1, w.secrets)
  {
    MetaSame(w, n, o1);
  }

  lemma MetaKeepsTracked(w: World, n: Name, o1: Binding)
    requires MetaWrite(w, n, o1) && Tracked(w.bindings, w.sm)
    ensures Tracked(Replaced(w, n, o1).bindings, w.sm)
  {
    MetaSame(w, n, o1);
    hide Keeps, Clear, Retired, Nameless, Holds, Backs, Original;
  }

  lemma MetaRelied(w: World, n: Name, o1: Binding, m: Name, pc: Pc)
    requires MetaWrite(w, n, o1) && PlanFree(w.bindings, m, pc) && (m != n || (w.bindings[n].finalizer ==> o1.finalizer))
    ensures Rely(w, Replaced(w, n, o1), m, pc)
  {
    var w1 := Replaced(w, n, o1);
    BackupsSame(w.bindings, w1.bindings);
    hide HasBackup, Clear, Nameless;
  }

  lemma MetaWritten(w: World, n: Name, o1: Binding)
    requires Global(w) && MetaWrite(w, n, o1)
    ensures Global(Replaced(w, n, o1))
    ensures forall m, pc :: PlanFree(w.bindings, m, pc) && (m != n || (w.bindings[n].finalizer ==> o1.finalizer)) ==>
              Rely(w, Replaced(w, n, o1), m, pc)
  {
    var w1 := Replaced(w, n, o1);
    MetaKeepsNames(w, n, o1);
    MetaKeepsShapes(w, n, o1);
    MetaKeepsUse(w, n, o1);
    MetaKeepsFinalizers(w, n, o1);
    MetaKeepsTracked(w, n, o1);
    forall m, pc | PlanFree(w.bindings, m, pc) && (m != n || (w.bindings[n].finalizer ==> o1.finalizer))
      ensures Rely(w, w1, m, pc)
    {
      MetaRelied(w, n, o1, m, pc);
    }
    hide Bounded, ShapesOk, OneName, NamesOk, OriginalsOk, OneHolder, OnlyHeld, OneBackup, FinalizersOk, BackupsRetired,
         LeftoversOk, Tracked, ReadyOk, AskedOk, SecretsOk, BackupsMatch, Rely, MetaWrite;
  }

  // ----- the removal of an object

  lemma RemovalKeepsNames(w: World, n: Name)
    requires n in w.bindings && NamesOk(w.bindings, w.sm) && OriginalsOk(w.bindings, w.sm) && OnlyHeld(w.bindings, w.sm)
    requires BackupsMatch(w.bindings, w.sm) && OneHolder(w.bindings) && OneBackup(w.bindings)
    ensures var bs1 := w.bindings - {n};
      && NamesOk(bs1, w.sm) && OriginalsOk(bs1, w.sm) && OnlyHeld(bs1, w.sm)
      && BackupsMatch(bs1, w.sm) && OneHolder(bs1) && OneBackup(bs1)
  {
    var bs, bs1 := w.bindings, w.bindings - {n};
    assert forall x, b :: Backs(bs1, x, b) <==> x != n && Backs(bs, x, b);
    assert forall x, b :: Holds(bs1, x, b) <==> x != n && Holds(bs, x, b);
    assert forall x :: Original(bs1, x) <==> x != n && Original(bs, x);
    hide Holds, Backs, Named;
  }

  lemma RemovalKeepsUse(w: World, n: Name)
    requires n in w.bindings && n !in w.secrets && Bounded(w) && ShapesOk(w.bindings)
    requires LeftoversOk(w.bindings, w.sm) && ReadyOk(w.bindings, w.sm, w.secrets) && AskedOk(w.bindings, w.sm)
    requires SecretsOk(w.bindings, w.sm, w.secrets) && BackupsRetired(w.bindings, w.secrets)
    requires FinalizersOk(w.bindings, w.sm, w.secrets)
    ensures var w1 := w.(bindings := w.bindings - {n}, clock := w.clock + 1);
      && Bounded(w1) && ShapesOk(w1.bindings) && LeftoversOk(w1.bindings, w.sm)
      && ReadyOk(w1.bindings, w.sm, w.secrets) && AskedOk(w1.bindings, w.sm) && SecretsOk(w1.bindings, w.sm, w.secrets)
      && BackupsRetired(w1.bindings, w.secrets) && FinalizersOk(w1.bindings, w.sm, w.secrets)
  {
    var bs, bs1 := w.bindings, w.bindings - {n};
    assert forall x, b :: Backs(bs1, x, b) <==> x != n && Backs(bs, x, b);
    assert forall x, b :: Holds(bs1, x, b) <==> x != n && Holds(bs, x, b);
    assert forall x :: Original(bs1, x) <==> x != n && Original(bs, x);
    hide StatusShape, BackupShape, Named, Live;
  }

  lemma Removed(w: World, n: Name)
    requires Global(w) && n in w.bindings && Clear(w.bindings, w.sm, w.secrets, n) && Nameless(w.sm, n)
    requires w.bindings[n].stale.Some? ==>
               Retired(w.bindings, w.secrets, w.bindings[n].orig.GetOr(""), w.bindings[n].stale.value)
    ensures Global(w.(bindings := w.bindings - {n}, clock := w.clock + 1))
    ensures forall m, pc :: PlanFree(w.bindings, m, pc) && (m != n || !w.bindings[n].finalizer) ==>
              Rely(w, w.(bindings := w.bindings - {n}, clock := w.clock + 1), m, pc)
  {
    hide Bounded, ShapesOk, OneName, NamesOk, OriginalsOk, OneHolder, OnlyHeld, OneBackup, FinalizersOk, BackupsRetired,
         LeftoversOk, ReadyOk, AskedOk, SecretsOk, HasBackup, BackupsMatch, Nameless, Keeps, Backs, RelyBackups;
    var w1 := w.(bindings := w.bindings - {n}, clock := w.clock + 1);
    assert n !in w.secrets;
    RemovalKeepsNames(w, n);
    RemovalKeepsUse(w, n);
    assert Tracked(w1.bindings, w.sm) by {
      forall b | b in w.sm
        ensures exists x :: Keeps(w1.bindings, w.sm, x, b)
      {
        var x :| Keeps(w.bindings, w.sm, x, b);
        RemovalKeeps(w, n, x, b);
        assert Keeps(w1.bindings, w.sm, x, b);
      }
    }
    forall m
      ensures RelyBackups(w.bindings, w1.bindings, w.sm, w1.sm, m)
    {
      RemovalSparesBackups(w, n, m);
    }
    hide Tracked, Clear;
  }

  lemma RemovalKeeps(w: World, n: Name, x: Name, b: Id)
    requires n in w.bindings && Clear(w.bindings, w.sm, w.secrets, n) && Nameless(w.sm, n)
    requires b in w.sm && Keeps(w.bindings, w.sm, x, b)
    ensures x != n && Keeps(w.bindings - {n}, w.sm, x, b)
  {
  }

  lemma RemovalSparesBackups(w: World, n: Name, m: Name)
    requires n in w.bindings && BackupsMatch(w.bindings, w.sm) && OriginalsOk(w.bindings, w.sm)
    requires w.bindings[n].stale.Some? ==>
               Retired(w.bindings, w.secrets, w.bindings[n].orig.GetOr(""), w.bindings[n].stale.value)
    ensures RelyBackups(w.bindings, w.bindings - {n}, w.sm, w.sm, m)
  {
    var bs1 := w.bindings - {n};
    forall b | Original(w.bindings, m) && Holds(w.bindings, m, b)
      ensures !HasBackup(w.bindings, b) ==> !HasBackup(bs1, b)
      ensures HasBackup(w.bindings, b) && b in w.sm && m in bs1 && !bs1[m].deleting ==> HasBackup(bs1, b)
    {
      if HasBackup(w.bindings, b) && b in w.sm && m in bs1 && !bs1[m].deleting {
        var x :| x in w.bindings && w.bindings[x].stale == Some(b);
        assert Backs(w.bindings, x, b);
        assert x in bs1 && bs1[x].stale == Some(b);
      }
    }
  }
}
