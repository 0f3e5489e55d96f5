/**
 Every allowed action keeps what the unmarked backups of some credentials stand for, unless it unbinds an
 original that holds them.
 */
module BindingBackupSteps {
  import opened Options
  import opened Remote
  import opened BindingWorld
  import opened BindingReconciler
  import opened BindingInvariant
  import opened BindingSteps
  import opened BindingPolls
  import opened BindingLimits
  import opened BindingRuns
  import opened BindingBackups
  import opened BindingBackupCalls
  import BindingRetries
  import BindingRotations
  import BindingSafety

  // ----- the two calls that unbind

  /** SM differs in `b` alone, which is not created anew. */
  ghost predicate AllBut(w: World, w1: World, b: Id) {
    && w1.bindings == w.bindings && w1.secrets == w.secrets
    && (forall x: Id :: x != b ==> ((x in w1.sm <==> x in w.sm) && (x in w.sm ==> w1.sm[x] == w.sm[x])))
    && (b in w1.sm ==> b in w.sm && w1.sm[b].provisioning == w.sm[b].provisioning)
  }

  /** No backup that is not marked carries `b`. */
  ghost predicate Spared(bs: Bindings, b: Id) {
    forall m :: !Unmarked(bs, m, b)
  }

  lemma UnbindStores(w: World, w1: World, b: Id, cred: Id)
    requires StoresBacked(w, cred) && AllBut(w, w1, b) && (b == cred ==> Spared(w.bindings, cred))
    ensures StoresBacked(w1, cred)
  {
    hide Unmarked, Prepared;
  }

  /** What the reconcile at hand asks SM to remove, nobody else was sure of. */
  predicate Given(w: World, p: Proc, b: Id) {
    !p.c.deleting && p.c.stale.None? && b in w.sm && w.sm[b].provisioning != Failed ==> HasBackup(w.bindings, b)
  }

  lemma UnaskedBut(w: World, w1: World, b: Id, p: Proc, cred: Id)
    requires Unasked(w.bindings, w.sm, p, cred) && AllBut(w, w1, b)
    requires b == cred && p.base.id == Some(cred) ==> Given(w, p, cred)
    ensures Unasked(w1.bindings, w1.sm, p, cred)
  {
    hide HasBackup;
  }

  /** What an original and another resource both hold, the other resource backs. */
  lemma HeldTwice(w: World, n: Name, m: Name, b: Id)
    requires OneHolder(w.bindings) && BackupsMatch(w.bindings, w.sm) && OriginalsOk(w.bindings, w.sm)
    requires Holds(w.bindings, n, b) && Original(w.bindings, m) && Holds(w.bindings, m, b) && m != n && b in w.sm
    ensures HasBackup(w.bindings, b)
  {
    assert !Original(w.bindings, n);
    assert Named(w.sm, b, n);
    assert Backs(w.bindings, n, b);
  }

  lemma SteadyOne(w: World, n: Name)
    requires Steady(w, n)
    ensures OneHolder(w.bindings)
  {
    hide OneHolder, ReadyOk, SecretsOk, Tracked, BackupsMatch, NamesOk, OriginalsOk, FinalizersOk, Others, PlansOk,
         Bounded, ShapesOk, OneName, OnlyHeld, OneBackup, LeftoversOk, AskedOk, BackupsRetired;
  }

  /** A reconcile that knows its id to be in SM holds it. */
  lemma KnownHeld(w: World, m: Name, c: Binding, base: Status, b: Id)
    requires CoreOk(w, m, c, base) && base.id == Some(b) && b in w.sm
    ensures Holds(w.bindings, m, b) && w.bindings[m].stale == c.stale
  {
    hide StatusShape, BackupShape;
  }

  lemma OtherHolder(w: World, n: Name, m: Name, p: Proc, q: Proc, b: Id)
    requires At(w, n, p) && At(w, m, q) && m != n && p.base.id == Some(b) && b in w.sm
    requires q.c.stale.None? && q.base.id == Some(b)
    ensures HasBackup(w.bindings, b)
  {
    hide At, Inv, Steady, CoreOk, PcOk, HasBackup, OneHolder, BackupsMatch, OriginalsOk;
    AtSteady(w, n, p);
    AtSteady(w, m, q);
    KnownHeld(w, n, p.c, p.base, b);
    KnownHeld(w, m, q.c, q.base, b);
    SteadyUse(w, n);
    SteadyOne(w, n);
    HeldTwice(w, n, m, b);
  }

  lemma PlannedAlone(w: World, m: Name, q: Proc)
    requires At(w, m, q) && q.pc.CreateBackup?
    ensures q.c.stale.None? && q.base.id.Some? && !HasBackup(w.bindings, q.base.id.value)
  {
    hide At, Inv, Steady, CoreOk, HasBackup;
    AtSteady(w, m, q);
  }

  lemma OthersBut(w: World, w1: World, n: Name, m: Name, p: Proc, q: Proc, b: Id, cred: Id)
    requires At(w, n, p) && At(w, m, q) && m != n && p.base.id == Some(b)
    requires ProcBacked(w, q, cred) && AllBut(w, w1, b)
    ensures ProcBacked(w1, q, cred)
  {
    hide At, Sound, Unasked, HasBackup;
    if b == cred && b in w.sm && q.c.stale.None? && q.base.id == Some(b) {
      OtherHolder(w, n, m, p, q, b);
    }
    if q.pc.CreateBackup? {
      PlannedAlone(w, m, q);
    }
    UnaskedBut(w, w1, b, q, cred);
  }

  /** The cleanup unbinds nothing that an unmarked backup stands for. */
  lemma CleanupSpares(w: World, n: Name, p: Proc, cred: Id)
    requires At(w, n, p) && p.pc == CleanupUnbind && LabelsLive(w.bindings, w.sm, cred)
    ensures p.c.status.id.Some? && p.base.id == p.c.status.id && (p.base.id == Some(cred) ==> Spared(w.bindings, cred))
  {
    AtSteady(w, n, p);
    hide At, Steady, CoreOk;
  }

  lemma UnbindBut(w: World, b: Id, async: bool)
    ensures AllBut(w, w, b) && AllBut(w, SmUnbind(w, b, async), b)
  {
  }

  lemma KeptBut(w: World, w1: World, b: Id, n: Name, c: Binding, base: Status, status: Status)
    requires AllBut(w, w1, b)
    ensures AllBut(w, Finish(w1, n, c, base, status), b) && AllBut(w, Stop(w1, n), b)
  {
  }

  lemma CleanupBut(w: World, n: Name, p: Proc, ch: Choice)
    requires p.c.status.id.Some?
    ensures AllBut(w, AdvanceCleanup(w, n, p, ch), p.c.status.id.value)
  {
    hide AllBut, Finish, Stop, SmUnbind;
    var b := p.c.status.id.value;
    var w1 := if ch.call == Rejected then w else SmUnbind(w, b, ch.async);
    UnbindBut(w, b, ch.async);
    KeptBut(w, w1, b, n, p.c, p.base, p.c.status.Unsucceeded());
    KeptBut(w, w1, b, n, p.c, p.base, p.c.status.Running(Delete, b));
    KeptBut(w, w1, b, n, p.c, p.base, p.c.status.NoOperation().WithoutId());
  }

  /** If the reconcile goes on at all, it has kept its base. */
  predicate GoesAs(p: Proc, w1: World, n: Name) {
    n in w1.procs ==> Follows(p, w1.procs[n]) && w1.procs[n].base == p.base
  }

  lemma EndsAs(v: World, n: Name, p: Proc, status: Status)
    requires Sound(p) && Prepared(status)
    ensures GoesAs(p, Finish(v, n, p.c, p.base, status), n) && GoesAs(p, Stop(v, n), n)
  {
  }

  lemma CleanupFollows(w: World, n: Name, p: Proc, ch: Choice)
    requires Sound(p)
    ensures GoesAs(p, AdvanceCleanup(w, n, p, ch), n)
  {
    hide SmUnbind, GoesAs, Finish, Stop;
    if p.c.status.id.Some? {
      var b := p.c.status.id.value;
      var w1 := if ch.call == Rejected then w else SmUnbind(w, b, ch.async);
      EndsAs(w1, n, p, p.c.status.Unsucceeded());
      EndsAs(w1, n, p, p.c.status.Running(Delete, b));
      EndsAs(w1, n, p, p.c.status.NoOperation().WithoutId());
    } else {
      EndsAs(w, n, p, p.c.status);
    }
  }

  /** Nobody else's reconcile is moved. */
  ghost predicate Apart(w: World, w1: World, n: Name) {
    forall m :: m in w1.procs && m != n ==> m in w.procs && w1.procs[m] == w.procs[m]
  }

  lemma CallApart(w: World, n: Name, ch: Choice)
    requires n in w.procs
    ensures Apart(w, Advance(w, n, ch), n)
  {
    hide Advance;
    forall m | m in Advance(w, n, ch).procs && m != n
      ensures m in w.procs && Advance(w, n, ch).procs[m] == w.procs[m]
    {
      BindingRetries.OtherCall(w, n, ch, m);
    }
  }

  lemma OwnBut(w: World, w1: World, p: Proc, p1: Proc, b: Id, cred: Id)
    requires ProcBacked(w, p, cred) && AllBut(w, w1, b) && p.base.id == Some(b) && (b == cred ==> Given(w, p, cred))
    requires Follows(p, p1) && p1.base == p.base && !p.pc.RenameSecond?
    ensures ProcBacked(w1, p1, cred)
  {
    hide HasBackup, Sound, AllBut, Mild;
    UnaskedBut(w, w1, b, p, cred);
  }

  lemma ButBacked(w: World, w1: World, n: Name, p: Proc, b: Id, cred: Id)
    requires Backed(w, cred) && At(w, n, p) && p.base.id == Some(b) && AllBut(w, w1, b)
    requires b == cred ==> Spared(w.bindings, cred) && Given(w, p, cred)
    requires Apart(w, w1, n) && !p.pc.RenameSecond?
    requires GoesAs(p, w1, n)
    ensures Backed(w1, cred)
  {
    AtInv(w, n, p);
    hide Inv, AllBut, Spared, StoresBacked, ProcBacked, Given, Follows;
    UnbindStores(w, w1, b, cred);
    forall m | m in w1.procs
      ensures ProcBacked(w1, w1.procs[m], cred)
    {
      if m == n {
        OwnBut(w, w1, p, w1.procs[n], b, cred);
      } else {
        OthersBut(w, w1, n, m, p, w.procs[m], b, cred);
      }
    }
  }

  lemma CleanupGiven(w: World, n: Name, p: Proc, cred: Id)
    requires At(w, n, p) && p.pc == CleanupUnbind && ProcBacked(w, p, cred) && p.base.id == Some(cred)
    ensures Given(w, p, cred)
  {
    AtSteady(w, n, p);
    hide At, Steady, CoreOk, Sound, HasBackup;
  }

  lemma CleanupBacked(w: World, n: Name, p: Proc, ch: Choice, cred: Id)
    requires Backed(w, cred) && At(w, n, p) && p.pc == CleanupUnbind
    requires Apart(w, AdvanceCleanup(w, n, p, ch), n)
    ensures Backed(AdvanceCleanup(w, n, p, ch), cred)
  {
    hide At, AllBut, Spared, ProcBacked, Given, Follows, Apart, Sound, AdvanceCleanup;
    BackedAt(w, n, p, cred);
    CleanupSpares(w, n, p, cred);
    CleanupBut(w, n, p, ch);
    CleanupFollows(w, n, p, ch);
    if p.base.id == Some(cred) {
      CleanupGiven(w, n, p, cred);
    }
    ButBacked(w, AdvanceCleanup(w, n, p, ch), n, p, p.base.id.value, cred);
  }

  lemma BackedAt(w: World, n: Name, p: Proc, cred: Id)
    requires Backed(w, cred) && At(w, n, p)
    ensures StoresBacked(w, cred) && LabelsLive(w.bindings, w.sm, cred) && ProcBacked(w, p, cred) && Sound(p)
  {
    AtInv(w, n, p);
    hide Inv, Sound, Unasked, LabelsLive, LabelsShown, AllPrepared;
  }

  /** The deletion of a backup unbinds nothing that an unmarked backup stands for. */
  lemma MarkedSpares(w: World, n: Name, cred: Id)
    requires BackupsMatch(w.bindings, w.sm) && LabelsLive(w.bindings, w.sm, cred)
    requires Holds(w.bindings, n, cred) && !Original(w.bindings, n) && w.bindings[n].deleting
    ensures Spared(w.bindings, cred)
  {
  }

  lemma DeletingKnown(w: World, n: Name, p: Proc)
    requires At(w, n, p) && p.pc == DeleteUnbind
    ensures p.c.status.id.Some? && p.base.id == p.c.status.id && p.c.deleting && Holds(w.bindings, n, p.base.id.value)
    ensures w.bindings[n].deleting && w.bindings[n].stale == p.c.stale
  {
    AtSteady(w, n, p);
    hide At, Steady, StatusShape, BackupShape;
  }

  lemma DeletionSpares(w: World, n: Name, p: Proc, cred: Id)
    requires At(w, n, p) && p.pc == DeleteUnbind && p.c.stale.Some? && LabelsLive(w.bindings, w.sm, cred)
    requires p.base.id == Some(cred)
    ensures Spared(w.bindings, cred)
  {
    hide At, Steady, LabelsLive, BackupsMatch, CoreOk, PcOk, Spared;
    AtSteady(w, n, p);
    SteadyUse(w, n);
    DeletingKnown(w, n, p);
    MarkedSpares(w, n, cred);
  }

  lemma DeletionBut(w: World, n: Name, p: Proc, ch: Choice)
    requires p.c.status.id.Some?
    ensures AllBut(w, AdvanceDeleteUnbind(w, n, p, ch), p.c.status.id.value)
  {
  }

  lemma DeletionFollows(w: World, n: Name, p: Proc, ch: Choice)
    requires Sound(p)
    ensures GoesAs(p, AdvanceDeleteUnbind(w, n, p, ch), n)
  {
    hide SmUnbind, GoesAs, Finish, Stop, Go;
    if p.c.status.id.Some? {
      var b := p.c.status.id.value;
      var w1 := if ch.call == Rejected then w else SmUnbind(w, b, ch.async);
      EndsAs(w1, n, p, p.c.status.Unsucceeded());
      EndsAs(w1, n, p, p.c.status.Running(Delete, b).Unsucceeded());
      SavesAs(w1, n, p);
    } else {
      EndsAs(w, n, p, p.c.status);
    }
  }

  lemma SavesAs(v: World, n: Name, p: Proc)
    requires Sound(p)
    ensures GoesAs(p, Go(v, n, p.c.(status := p.c.status.WithoutId()), p.base, DeleteSave), n)
  {
  }

  /** Nothing happened to the stores when the call was rejected. */
  lemma DeletionRejected(w: World, n: Name, p: Proc, ch: Choice, cred: Id)
    requires ch.call == Rejected && p.c.status.id.Some? && Sound(p)
    ensures Turn(w, n, p, AdvanceDeleteUnbind(w, n, p, ch), cred)
  {
    hide Turn, Quiet, Finish;
    QuietSelf(w, cred);
    Leaves(w, w, n, p, cred);
  }

  // ----- the other calls

  lemma OwnTurn(w: World, w1: World, n: Name, p: Proc, cred: Id)
    requires Turn(w, n, p, w1, cred) && n in w1.procs && ProcBacked(w, p, cred)
    requires p.base.id.Some? ==> p.base.id.value < w.nextId
    requires w1.procs[n].pc.CreateBackup? && w1.procs[n].base.id == Some(cred) ==> Live(w1.sm, cred)
    requires p.c.deleting ==> w1.procs[n].c.deleting
    ensures ProcBacked(w1, w1.procs[n], cred)
  {
    hide Sound, Mild, Live, HasBackup, Quiet;
    QuietProc(w, w1, p, cred);
  }

  lemma KnownBounded(w: World, n: Name)
    requires Inv(w) && n in w.procs
    ensures w.procs[n].base.id.Some? ==> w.procs[n].base.id.value < w.nextId
  {
    hide Global, PcOk, StatusShape, BackupShape, CopyOk;
  }

  lemma TurnBacked(w: World, w1: World, n: Name, p: Proc, cred: Id)
    requires Backed(w, cred) && At(w, n, p) && Turn(w, n, p, w1, cred) && Apart(w, w1, n)
    requires n in w1.procs && w1.procs[n].pc.CreateBackup? && w1.procs[n].base.id == Some(cred) ==> Live(w1.sm, cred)
    ensures Backed(w1, cred)
  {
    hide Inv, StoresBacked, ProcBacked, Quiet, Sound, Bounded, ShapesOk, FinalizersOk, Global, Live;
    AtInv(w, n, p);
    InvGlobal(w);
    QuietStores(w, w1, cred);
    forall m | m in w1.procs
      ensures ProcBacked(w1, w1.procs[m], cred)
    {
      if m == n {
        KnownBounded(w, n);
        OwnTurn(w, w1, n, p, cred);
      } else {
        KnownBounded(w, m);
        QuietProc(w, w1, w.procs[m], cred);
      }
    }
  }

  /** The binding of a rotation whose renaming is answered is live. */
  lemma RenamedLive(w: World, n: Name, p: Proc, s: string, cred: Id)
    requires At(w, n, p) && ProcBacked(w, p, cred) && p.pc == RenameSecond(s) && p.base.id == Some(cred) && cred in w.sm
    ensures Live(w.sm, cred)
  {
    RenamingKnown(w, n, p, s);
    AtSteady(w, n, p);
    hide At, PcOk, CoreOk, Steady, HasBackup, ReadyOk;
    SteadyUse(w, n);
    ReadyDone(w, n, cred);
  }

  lemma ReadyDone(w: World, n: Name, b: Id)
    requires ReadyOk(w.bindings, w.sm, w.secrets) && Original(w.bindings, n) && w.bindings[n].status.ready
    requires Holds(w.bindings, n, b) && b in w.sm
    ensures w.sm[b].provisioning == Done
  {
  }

  lemma RenamingKnown(w: World, n: Name, p: Proc, s: string)
    requires At(w, n, p) && p.pc == RenameSecond(s) && p.base.id.Some?
    ensures p.c.stale.None? && !p.c.deleting && !HasBackup(w.bindings, p.base.id.value)
    ensures Original(w.bindings, n) && Holds(w.bindings, n, p.base.id.value) && w.bindings[n].status == p.base
  {
    AtSteady(w, n, p);
    hide At, Steady, HasBackup, StatusShape, BackupShape;
  }

  lemma RenamedGoes(w: World, n: Name, p: Proc, ch: Choice, s: string)
    requires p.pc == RenameSecond(s)
    ensures var w1 := AdvanceRenameSecond(w, n, p, ch, s);
      n in w1.procs && w1.procs[n].pc.CreateBackup? && w1.procs[n].base.id.Some? && p.base.id == p.c.status.id ==>
        var b := w1.procs[n].base.id.value;
        w1.procs[n].base == p.base && b in w.sm && (Live(w.sm, b) ==> Live(w1.sm, b))
  {
  }

  lemma RenameSecondBacked(w: World, n: Name, p: Proc, ch: Choice, s: string, cred: Id)
    requires Backed(w, cred) && At(w, n, p) && p.pc == RenameSecond(s)
    requires Apart(w, AdvanceRenameSecond(w, n, p, ch, s), n)
    ensures Backed(AdvanceRenameSecond(w, n, p, ch, s), cred)
  {
    hide At, Turn, ProcBacked, Sound, Apart, AdvanceRenameSecond, Live, Inv, Steady, CoreOk, Planned;
    AtSteady(w, n, p);
    BackedAt(w, n, p, cred);
    BindingBackupCalls.RenameSecondTurn(w, n, p, ch, s, cred);
    RenamedGoes(w, n, p, ch, s);
    if p.base.id == Some(cred) && cred in w.sm {
      RenamedLive(w, n, p, s, cred);
    }
    TurnBacked(w, AdvanceRenameSecond(w, n, p, ch, s), n, p, cred);
  }

  /** Only the second PATCH leads to the creation of a backup. */
  lemma PlainTurn(w: World, w1: World, n: Name, p: Proc, cred: Id)
    requires Backed(w, cred) && At(w, n, p) && Turn(w, n, p, w1, cred) && Apart(w, w1, n) && !p.pc.RenameSecond?
    ensures Backed(w1, cred)
  {
    hide At, ProcBacked, Sound, Apart, Quiet, Backed;
    TurnBacked(w, w1, n, p, cred);
  }

  // ----- the hypothesis

  /** An original is unbound only when no unmarked backup carries its id. */
  ghost predicate Spares(w: World, a: Action, cred: Id) {
    a.Call? && a.n in w.procs && a.ch.call != Rejected ==>
      var p := w.procs[a.n];
      p.pc == DeleteUnbind && p.c.stale.None? && p.c.status.id == Some(cred) ==> Spared(w.bindings, cred)
  }

  lemma DeletionBacked(w: World, n: Name, p: Proc, ch: Choice, cred: Id)
    requires Backed(w, cred) && At(w, n, p) && p.pc == DeleteUnbind && Spares(w, Call(n, ch), cred)
    requires Apart(w, AdvanceDeleteUnbind(w, n, p, ch), n)
    ensures Backed(AdvanceDeleteUnbind(w, n, p, ch), cred)
  {
    hide AllBut, Spared, ProcBacked, Follows, Apart, Sound, AdvanceDeleteUnbind, Turn, Inv, Backed;
    AtInv(w, n, p);
    BackedAt(w, n, p, cred);
    DeletingKnown(w, n, p);
    if ch.call == Rejected {
      DeletionRejected(w, n, p, ch, cred);
      PlainTurn(w, AdvanceDeleteUnbind(w, n, p, ch), n, p, cred);
    } else {
      if p.c.stale.Some? && p.base.id == Some(cred) {
        DeletionSpares(w, n, p, cred);
      }
      DeletionBut(w, n, p, ch);
      DeletionFollows(w, n, p, ch);
      ButBacked(w, AdvanceDeleteUnbind(w, n, p, ch), n, p, p.base.id.value, cred);
    }
  }

  /** Creation, polling and maintenance. */
  lemma PollCallTurn(w: World, n: Name, p: Proc, ch: Choice, cred: Id)
    requires At(w, n, p) && ProcBacked(w, p, cred) && LabelsLive(w.bindings, w.sm, cred)
    requires p.pc.InitConditions? || p.pc.FetchInstance? || p.pc.PollStatus? || p.pc.PollProbe? || p.pc.PollFetch?
          || p.pc.PollStore? || p.pc.PollDropSecret? || p.pc.PollRemoveFinalizer? || p.pc.Maintain? || p.pc.MaintainStore?
          || p.pc.Query? || p.pc.RecoverStore? || p.pc.Bind? || p.pc.BindStore?
    ensures n in w.procs && Turn(w, n, p, Advance(w, n, ch), cred)
  {
    hide Inv, Global, Bounded, ShapesOk, FinalizersOk, LabelsLive, Unasked, Live, Sound, Turn, AdvanceInit,
         AdvanceFetchInstance, AdvancePollStatus, AdvancePollProbe, AdvancePollFetch, AdvanceStore, AdvanceDropSecret,
         AdvancePollRemoveFinalizer, AdvanceCleanup, AdvanceDeleteQuery, AdvanceDeleteUnbind,
         AdvanceDeleteRemoveFinalizer, AdvanceCheckExists, AdvanceAddFinalizer, AdvanceRotateAnnotation,
         AdvanceRotateList, AdvanceRenameFirst, AdvanceRenameSecond, AdvanceCreateBackup, AdvanceReadyCheck,
         AdvanceFetchOriginal, AdvanceDeleteSelf, AdvanceMaintain, AdvanceQuery, AdvanceBind, WriteStatus, Resync;
    AtInv(w, n, p);
    InvGlobal(w);
    hide At;
    match p.pc
    case InitConditions => InitTurn(w, n, p, ch, cred);
    case FetchInstance => FetchInstanceTurn(w, n, p, ch, cred);
    case PollStatus => PollStatusTurn(w, n, p, ch, cred);
    case PollProbe | PollFetch => PollReadTurn(w, n, p, ch, cred);
    case PollStore => HeldTurn(w, n, p, ch, p.c.status.NoOperation().Success(), cred);
    case PollDropSecret => DropSecretTurn(w, n, p, ch, PollRemoveFinalizer, cred);
    case PollRemoveFinalizer => PollRemoveFinalizerTurn(w, n, p, ch, cred);
    case Maintain => MaintainTurn(w, n, p, ch, cred);
    case MaintainStore => HeldTurn(w, n, p, ch, p.c.status.Success(), cred);
    case Query => QueryTurn(w, n, p, ch, cred);
    case RecoverStore(b, seen) => RecoverStoreTurn(w, n, p, ch, b, seen, cred);
    case Bind => BindTurn(w, n, p, ch, cred);
    case BindStore(b) => BindStoreTurn(w, n, p, ch, b, cred);
  }

  /** Deletion, rotation and retirement, but for the calls that unbind and the second PATCH. */
  lemma RotateCallTurn(w: World, n: Name, p: Proc, ch: Choice, cred: Id)
    requires At(w, n, p) && ProcBacked(w, p, cred)
    requires p.pc.DeleteQuery? || p.pc.DeleteSave? || p.pc.DeleteDropSecret? || p.pc.DeleteRemoveFinalizer? || p.pc.CheckExists?
          || p.pc.AddFinalizer? || p.pc.RotateAnnotation? || p.pc.RotateList? || p.pc.RenameFirst? || p.pc.CreateBackup?
          || p.pc.RotateSave? || p.pc.ReadyCheck? || p.pc.FetchOriginal? || p.pc.DeleteSelf? || p.pc.Save?
    ensures n in w.procs && Turn(w, n, p, Advance(w, n, ch), cred)
  {
    hide At, Inv, Steady, CoreOk, Planned, Writable, Nameless, Retired, StatusShape, Unasked, Live, Sound, Turn,
         AdvanceInit, AdvanceFetchInstance, AdvancePollStatus, AdvancePollProbe, AdvancePollFetch, AdvanceStore,
         AdvanceDropSecret, AdvancePollRemoveFinalizer, AdvanceCleanup, AdvanceDeleteQuery, AdvanceDeleteUnbind,
         AdvanceDeleteRemoveFinalizer, AdvanceCheckExists, AdvanceAddFinalizer, AdvanceRotateAnnotation,
         AdvanceRotateList, AdvanceRenameFirst, AdvanceRenameSecond, AdvanceCreateBackup, AdvanceReadyCheck,
         AdvanceFetchOriginal, AdvanceDeleteSelf, AdvanceMaintain, AdvanceQuery, AdvanceBind, WriteStatus, Resync;
    AtInv(w, n, p);
    AtSteady(w, n, p);
    match p.pc
    case DeleteQuery => DeleteQueryTurn(w, n, p, ch, cred);
    case DeleteSave => DeleteSaveTurn(w, n, p, ch, cred);
    case DeleteDropSecret => DropSecretTurn(w, n, p, ch, DeleteRemoveFinalizer, cred);
    case DeleteRemoveFinalizer => DeleteRemoveFinalizerTurn(w, n, p, ch, cred);
    case CheckExists => CheckExistsTurn(w, n, p, ch, cred);
    case AddFinalizer => AddFinalizerTurn(w, n, p, ch, cred);
    case RotateAnnotation => RotateAnnotationTurn(w, n, p, ch, cred);
    case RotateList => RotateListTurn(w, n, p, ch, cred);
    case RenameFirst(s) => RenameFirstTurn(w, n, p, ch, s, cred);
    case CreateBackup(s) => CreateBackupTurn(w, n, p, ch, s, cred);
    case RotateSave => RotateSaveTurn(w, n, p, ch, cred);
    case ReadyCheck => ReadyCheckTurn(w, n, p, ch, cred);
    case FetchOriginal => FetchOriginalTurn(w, n, p, ch, cred);
    case DeleteSelf => DeleteSelfTurn(w, n, p, ch, cred);
    case Save => SaveTurn(w, n, p, ch, cred);
  }

  lemma CallBacked(w: World, n: Name, ch: Choice, cred: Id)
    requires Inv(w) && Backed(w, cred) && n in w.procs && Spares(w, Call(n, ch), cred)
    ensures Backed(Advance(w, n, ch), cred)
  {
    hide Inv, Backed, StoresBacked, Sound, ProcBacked, Turn, Apart, Spares, LabelsLive, AdvanceInit,
         AdvanceFetchInstance, AdvancePollStatus, AdvancePollProbe, AdvancePollFetch, AdvanceStore, AdvanceDropSecret,
         AdvancePollRemoveFinalizer, AdvanceCleanup, AdvanceDeleteQuery, AdvanceDeleteUnbind,
         AdvanceDeleteRemoveFinalizer, AdvanceCheckExists, AdvanceAddFinalizer, AdvanceRotateAnnotation,
         AdvanceRotateList, AdvanceRenameFirst, AdvanceRenameSecond, AdvanceCreateBackup, AdvanceReadyCheck,
         AdvanceFetchOriginal, AdvanceDeleteSelf, AdvanceMaintain, AdvanceQuery, AdvanceBind, WriteStatus, Resync;
    var p := w.procs[n];
    assert At(w, n, p);
    BackedAt(w, n, p, cred);
    CallApart(w, n, ch);
    match p.pc
    case CleanupUnbind => CleanupBacked(w, n, p, ch, cred);
    case DeleteUnbind => DeletionBacked(w, n, p, ch, cred);
    case RenameSecond(s) => RenameSecondBacked(w, n, p, ch, s, cred);
    case DeleteQuery | DeleteSave | DeleteDropSecret | DeleteRemoveFinalizer | CheckExists | AddFinalizer | RotateAnnotation
       | RotateList | RenameFirst(_) | CreateBackup(_) | RotateSave | ReadyCheck | FetchOriginal | DeleteSelf | Save => {
      hide Advance;
      RotateCallTurn(w, n, p, ch, cred);
      PlainTurn(w, Advance(w, n, ch), n, p, cred);
    }
    case _ => {
      hide Advance;
      PollCallTurn(w, n, p, ch, cred);
      PlainTurn(w, Advance(w, n, ch), n, p, cred);
    }
  }

  // ----- users, the collector and SM

  /** Everybody else's actions move no reconcile. */
  lemma OthersBacked(w: World, w1: World, cred: Id)
    requires Inv(w) && Backed(w, cred) && Quiet(w, w1, cred) && w1.procs == w.procs
    ensures Backed(w1, cred)
  {
    hide Inv, StoresBacked, ProcBacked, Quiet, Bounded, ShapesOk, FinalizersOk, Global;
    InvGlobal(w);
    QuietStores(w, w1, cred);
    forall m | m in w1.procs
      ensures ProcBacked(w1, w1.procs[m], cred)
    {
      KnownBounded(w, m);
      QuietProc(w, w1, w.procs[m], cred);
    }
  }

  lemma BeginBacked(w: World, n: Name, cred: Id)
    requires AllPrepared(w.bindings) && AskedOk(w.bindings, w.sm) && n in w.bindings && n !in w.procs
    ensures n in Begin(w, n).procs && ProcBacked(w, Begin(w, n).procs[n], cred)
  {
    hide HasBackup;
    assert Holds(w.bindings, n, cred) <==> w.bindings[n].status.id == Some(cred);
  }

  lemma StartBacked(w: World, n: Name, cred: Id)
    requires Inv(w) && Backed(w, cred) && n in w.bindings && n !in w.procs
    ensures Backed(Begin(w, n), cred)
  {
    hide Inv, ProcBacked, LabelsLive, LabelsShown, AllPrepared, Steady, Bounded, ShapesOk, FinalizersOk, OriginalsOk,
         AskedOk, BackupsMatch, Begin;
    SteadyAll(w, n);
    BindingRotations.SteadyClaims(w, n);
    BeginBacked(w, n, cred);
    assert Begin(w, n) == w.(procs := w.procs[n := Begin(w, n).procs[n]]) by { BeginIs(w, n); }
    forall m | m in Begin(w, n).procs
      ensures ProcBacked(Begin(w, n), Begin(w, n).procs[m], cred)
    {
      SameBacked(w, Begin(w, n), Begin(w, n).procs[m], cred);
    }
  }

  lemma BeginIs(w: World, n: Name)
    requires n in w.bindings && n !in w.procs
    ensures n in Begin(w, n).procs && Begin(w, n) == w.(procs := w.procs[n := Begin(w, n).procs[n]])
  {
  }

  lemma SameBacked(w: World, w1: World, p: Proc, cred: Id)
    requires ProcBacked(w, p, cred) && w1.bindings == w.bindings && w1.sm == w.sm
    ensures ProcBacked(w1, p, cred)
  {
    hide Sound, HasBackup;
  }

  lemma CrashBacked(w: World, n: Name, cred: Id)
    requires Backed(w, cred)
    ensures Backed(Stop(w, n), cred)
  {
    hide ProcBacked, LabelsLive, LabelsShown, AllPrepared;
    forall m | m in Stop(w, n).procs
      ensures ProcBacked(Stop(w, n), Stop(w, n).procs[m], cred)
    {
      SameBacked(w, Stop(w, n), w.procs[m], cred);
    }
  }

  /** SM attributes nothing to a resource that goes at once. */
  lemma GoesNameless(w: World, n: Name)
    requires Inv(w) && n in w.bindings && Disposable(w, n) && !w.bindings[n].finalizer
    ensures BackupsMatch(w.bindings, w.sm) && Nameless(w.sm, n)
  {
    hide Inv, Steady, Bounded, ShapesOk, BackupsMatch;
    SteadyAll(w, n);
    SteadyUse(w, n);
  }

  lemma DisposeBacked(w: World, n: Name, cred: Id)
    requires Inv(w) && Backed(w, cred) && n in w.bindings && Disposable(w, n)
    ensures Backed(DeleteObject(w, n), cred)
  {
    hide Inv, Backed, Disposable, Quiet, BackupsMatch, Nameless;
    if !w.bindings[n].finalizer {
      GoesNameless(w, n);
    }
    QuietDeletion(w, n, cred);
    OthersBacked(w, DeleteObject(w, n), cred);
  }

  lemma CreateBacked(w: World, n: Name, externalName: string, policy: Option<bool>, cred: Id)
    requires Inv(w) && Backed(w, cred) && n !in w.bindings
    ensures Backed(CreateObject(w, n, NewBinding(w, None, None, externalName, policy)), cred)
  {
    hide Inv, Backed, Quiet, ShapesOk, FinalizersOk, Global;
    InvGlobal(w);
    var o := NewBinding(w, None, None, externalName, policy);
    QuietCreation(w, n, o, cred);
    OthersBacked(w, CreateObject(w, n, o), cred);
  }

  lemma EditBacked(w: World, n: Name, policy: Option<bool>, forceRotate: bool, cred: Id)
    requires Inv(w) && Backed(w, cred)
    ensures Backed(Step(w, UserEdit(n, policy, forceRotate)), cred)
  {
    hide Inv, Backed, Quiet;
    if n in w.bindings {
      QuietObject(w, n, w.bindings[n].(policy := policy, forceRotate := forceRotate, rv := w.clock), cred);
    }
    Untold(w, w, cred);
    OthersBacked(w, Step(w, UserEdit(n, policy, forceRotate)), cred);
  }

  lemma DropBacked(w: World, n: Name, cred: Id)
    requires Inv(w) && Backed(w, cred)
    ensures Backed(DropSecret(w, n), cred)
  {
    hide Inv, Backed, Quiet;
    QuietDrop(w, n, cred);
    OthersBacked(w, DropSecret(w, n), cred);
  }

  lemma OperateBacked(w: World, b: Id, good: bool, cred: Id)
    requires Inv(w) && Backed(w, cred)
    ensures Backed(SmFinish(w, b, good), cred)
  {
    hide Inv, Backed, Quiet;
    QuietFinish(w, b, good, cred);
    OthersBacked(w, SmFinish(w, b, good), cred);
  }

  lemma StepBacked(w: World, a: Action, cred: Id)
    requires Inv(w) && Backed(w, cred) && Allowed(w, a) && Spares(w, a, cred)
    ensures Backed(Step(w, a), cred)
  {
    hide Inv, Backed, Advance, Disposable, FreshName, AllowedCall, Spares, Begin, Stop, CreateObject, DeleteObject,
         DropSecret, SmFinish;
    match a
    case Start(n) => if n in w.bindings && n !in w.procs { StartBacked(w, n, cred); }
    case Call(n, ch) => if n in w.procs { CallBacked(w, n, ch, cred); }
    case Crash(n) => CrashBacked(w, n, cred);
    case UserCreate(n, externalName, policy) => if n !in w.bindings { CreateBacked(w, n, externalName, policy, cred); }
    case UserEdit(n, policy, forceRotate) => EditBacked(w, n, policy, forceRotate, cred);
    case UserDelete(n) => if n in w.bindings { DisposeBacked(w, n, cred); }
    case UserDropSecret(n) => DropBacked(w, n, cred);
    case Collect(n) => if n in w.bindings { DisposeBacked(w, n, cred); }
    case Operate(b, good) => OperateBacked(w, b, good, cred);
  }
}
