/** Every step of a lawful run keeps the ledger. */
module InstanceLedgerSteps {
  import opened Options
  import opened Remote
  import opened InstanceWorld
  import opened InstanceReconciler
  import opened InstanceInvariant
  import opened InstanceSteps
  import opened InstanceSafety
  import opened InstanceSpecs
  import opened InstanceLedger

  // ----- putting a step together

  lemma GoBooked(w: World, h: Ledger, c: Instance, base: Status, pc: Pc)
    requires Booked(w, h) && PcRecords(w, h, Proc(c, base, pc))
    ensures LedgerOk(Go(w, c, base, pc), h)
  {
  }

  /** Most calls of the reconcile rest on no record. */
  predicate Plain(pc: Pc) {
    !pc.Save? && !pc.Build? && !pc.Provision? && !pc.ShareCall?
  }

  lemma GoPlain(w: World, h: Ledger, c: Instance, base: Status, pc: Pc)
    requires Booked(w, h) && !h.owed && Plain(pc)
    ensures LedgerOk(Go(w, c, base, pc), h)
  {
    hide Booked, LogTells, StoredRecords;
    GoBooked(w, h, c, base, pc);
  }

  lemma StopBooked(w: World, h: Ledger)
    requires Booked(w, h) && !h.owed
    ensures LedgerOk(Stop(w), h)
  {
  }

  lemma FinishBooked(w: World, h: Ledger, c: Instance, base: Status, status: Status)
    requires Booked(w, h) && (Unchanged(w, c) ==> Records(w, h.log, WouldRecord(h), c, status))
    ensures LedgerOk(Finish(w, c, base, status), h)
  {
    assert Unchanged(w, c) ==> Records(w, h.log, WouldRecord(h), c.(status := status), status) by { hide Booked; }
    assert Booked(Go(w, c.(status := status), base, Save), h);
    hide Records, Booked;
    assert Unchanged(w, c) ==> Records(Go(w, c.(status := status), base, Save), h.log, WouldRecord(h), c.(status := status), status) by {
      RecordsApart(w, Go(w, c.(status := status), base, Save), h.log, WouldRecord(h), c.(status := status), c.(status := status), status);
    }
  }

  /** What a record depends on. */
  lemma RecordsApart(w: World, w1: World, log: seq<Id>, recorded: nat, c: Instance, o: Instance, s: Status)
    requires w1.insts == w.insts && w1.ops == w.ops && o.deleting == c.deleting && o.gen == c.gen && o.spec == c.spec
    ensures Records(w1, log, recorded, o, s) <==> Records(w, log, recorded, c, s)
  {
  }

  /** A status that reports no success and keeps the operation keeps the record. */
  lemma KeepRecords(w: World, h: Ledger, c: Instance, base: Status, status: Status)
    requires Booked(w, h) && !h.owed && CopyOk(w, c, base)
    requires status == base.(succeeded := status.succeeded, readyCond := status.readyCond) && !GoodStatus(status)
    ensures Unchanged(w, c) ==> Records(w, h.log, WouldRecord(h), c, status)
  {
  }

  /** A status that reports neither success nor operation needs no record. */
  lemma IdleRecords(w: World, log: seq<Id>, recorded: nat, c: Instance, status: Status)
    requires status.opUrl.None? && !GoodStatus(status)
    ensures Records(w, log, recorded, c, status)
  {
  }

  lemma NamelessRecords(w: World, log: seq<Id>, recorded: nat, c: Instance, status: Status)
    requires status.id.None? || c.deleting
    ensures Records(w, log, recorded, c, status)
  {
  }

  lemma FailBooked(w: World, h: Ledger, c: Instance, base: Status, kind: OpKind, throttled: bool)
    requires Booked(w, h) && !h.owed && CopyOk(w, c, base)
    requires c.status.opUrl.None? || c.status == base.(succeeded := c.status.succeeded, readyCond := c.status.readyCond)
    ensures LedgerOk(Fail(w, c, base, kind, throttled), h)
    ensures LedgerOk(Finish(w, c, base, c.status.Failure(c.gen, c.gen)), h)
  {
    hide Booked, CopyOk, Records, LedgerOk, Finish;
    var s1 := c.status.InProgress(kind, c.gen, c.gen);
    var s2 := c.status.Failure(c.gen, c.gen);
    if c.status.opUrl.None? {
      IdleRecords(w, h.log, WouldRecord(h), c, s1);
      IdleRecords(w, h.log, WouldRecord(h), c, s2);
    } else {
      KeepRecords(w, h, c, base, s1);
      KeepRecords(w, h, c, base, s2);
    }
    FinishBooked(w, h, c, base, s1);
    FinishBooked(w, h, c, base, s2);
  }

  lemma StatusBooked(w: World, h: Ledger, c: Instance, base: Status, status: Status, recorded: nat)
    requires Unchanged(w, c) && CopyOk(w, c, base) && Booked(w, h) && Records(w, h.log, recorded, c, status)
    requires recorded <= |h.log|
    ensures Booked(PutStatus(w, status), Ledger(h.log, recorded, false))
  {
    hide Records, Tells;
    assert w.obj == Some(c.(status := base));
    var w1 := PutStatus(w, status);
    RecordsApart(w, w1, h.log, recorded, c, w1.obj.value, status);
    assert LogTells(w1, h) by { TellsApart(w, w1, h); }
  }

  lemma TellsApart(w: World, w1: World, h: Ledger)
    requires LogTells(w, h) && w1.insts == w.insts && w1.ops == w.ops
    requires w1.obj.Some? && !w1.obj.value.deleting ==> w.obj.Some? && !w.obj.value.deleting
    ensures LogTells(w1, h)
  {
  }

  lemma MetaBooked(w: World, h: Ledger, c: Instance, base: Status, finalizer: bool)
    requires Unchanged(w, c) && CopyOk(w, c, base) && Booked(w, h)
    ensures Booked(PutMeta(w, finalizer), h)
  {
    hide Records, Tells;
    var w1 := PutMeta(w, finalizer);
    TellsApart(w, w1, h);
    if w1.obj.Some? {
      RecordsApart(w, w1, h.log, h.recorded, w.obj.value, w1.obj.value, w.obj.value.status);
    }
  }

  // ----- the calls that leave SM and the log alone

  predicate Quietly(w: World, h: Ledger, p: Proc) {
    Booked(w, h) && PcRecords(w, h, p)
  }

  lemma HashBooked(w: World, h: Ledger, c: Instance, base: Status)
    requires Booked(w, h) && CopyOk(w, c, base) && c.status == base && base.opUrl.None?
    requires Unchanged(w, c) && !c.deleting && GoodStatus(base) && base.id.Some? && base.id.value in w.insts ==>
               WouldRecord(h) <= |h.log| && Agree(w.ops, h.log[..WouldRecord(h)], c.spec)
    ensures LedgerOk(Finish(w, c, base, base.(hash := Of(c.spec))), h)
  {
    hide Agree, LogTells, LedgerOk, Finish;
    assert Unchanged(w, c) ==> Records(w, h.log, WouldRecord(h), c, base.(hash := Of(c.spec)));
    hide Records, Booked, CopyOk;
    FinishBooked(w, h, c, base, base.(hash := Of(c.spec)));
  }

  /** A success of the present generation was recorded for the specification at hand. */
  lemma FillBooked(w: World, h: Ledger, c: Instance, base: Status)
    requires Booked(w, h) && !h.owed && CopyOk(w, c, base) && c.status == base && base.opUrl.None?
    requires GoodStatus(base) ==> c.gen == base.LastObserved()
    ensures LedgerOk(Finish(w, c, base, base.(hash := Of(c.spec))), h)
  {
    hide Agree, LogTells, LedgerOk, Finish;
    if Unchanged(w, c) {
      assert w.obj.value == c.(status := base);
      assert Records(w, h.log, h.recorded, w.obj.value, base);
    }
    HashBooked(w, h, c, base);
  }

  lemma OwedBooked(w: World, h: Ledger, owed: bool)
    requires Booked(w, h)
    ensures Booked(w, h.(owed := owed))
  {
    hide Records, Tells;
  }

  lemma MigrateBooked(w: World, h: Ledger, p: Proc, ch: Choice)
    requires At(w, p) && Quietly(w, h, p) && p.pc == Connect && LawfulCall(w, h, p, ch) && Migrates(p, ch)
    ensures LedgerOk(AdvanceConnect(w, p, ch), h.(owed := Agree(w.ops, h.log, p.c.spec)))
  {
    hide SmOk, ObjOk, CoreOk, Booked, Finish, CopyOk, LedgerOk, FoundCurrent, Records, Agree;
    Parts(w, p.c, p.base);
    CopyOf(w, p.c, p.base);
    var h1 := h.(owed := Agree(w.ops, h.log, p.c.spec));
    OwedBooked(w, h, h1.owed);
    BookedBound(w, h);
    assert h.log[..|h.log|] == h.log;
    HashBooked(w, h1, p.c, p.base);
  }

  lemma ConnectBooked(w: World, h: Ledger, p: Proc, ch: Choice)
    requires At(w, p) && Quietly(w, h, p) && p.pc == Connect && LawfulCall(w, h, p, ch)
    ensures LedgerOk(AdvanceConnect(w, p, ch), h.(owed := Migrates(p, ch) && Agree(w.ops, h.log, p.c.spec)))
  {
    hide SmOk, ObjOk, CoreOk, Booked, Finish, Go, Stop, Prepare, CopyOk, LedgerOk, FoundCurrent, Records, Agree, LawfulCall;
    Parts(w, p.c, p.base);
    CopyOf(w, p.c, p.base);
    StopBooked(w, h);
    if Migrates(p, ch) {
      MigrateBooked(w, h, p, ch);
    } else if ch.call != Ok {
      FailBooked(w, h, p.c, p.base, Create, false);
    } else {
      GoPlain(w, h, p.c, p.base, PollStatus);
      GoPlain(w, h, p.c, p.base, CheckExists);
      GoPlain(w, h, p.c, p.base, DeleteQuery);
      GoPlain(w, h, p.c, p.base, DeleteCall);
      if p.c.status.opUrl.None? {
        PrepareBooked(w, h, p.c, p.base);
      }
    }
  }

  lemma ShareRests(w: World, h: Ledger, c: Instance, base: Status)
    requires Booked(w, h) && !h.owed && c.status.hash == Of(c.spec) && (base.hash == c.status.hash || c.gen == c.status.Seen())
    requires !base.force && base.sharing != Unsupported
    ensures LedgerOk(Go(w, c, base, ShareCall), h)
  {
    hide Booked;
    GoBooked(w, h, c, base, ShareCall);
  }

  lemma WorkBooked(w: World, h: Ledger, c: Instance, base: Status)
    requires Booked(w, h) && !h.owed && (base.hash == c.status.hash || c.gen == c.status.Seen())
    requires c.status == base.(hash := c.status.hash)
    ensures LedgerOk(Work(w, c, base), h)
  {
    hide Booked, Go, Stop, LedgerOk;
    StopBooked(w, h);
    GoPlain(w, h, c, base, Query);
    if c.status.id.None? {
    } else if UpdateRequired(c) {
      GoBooked(w, h, c, base, Build);
    } else if ShareRequired(c) {
      ShareRests(w, h, c, base);
    }
  }

  lemma SettleBooked(w: World, h: Ledger, c: Instance, base: Status)
    requires Booked(w, h) && !h.owed && CopyOk(w, c, base) && c.status == base && base.opUrl.None?
    ensures LedgerOk(Settle(w, c, base), h)
  {
    hide Booked, Go, Stop, Finish, Work, CopyOk, LedgerOk, ShareRequired;
    StopBooked(w, h);
    if Final(c) {
      if c.status.hash == NoHash {
        FillBooked(w, h, c, base);
      }
    } else {
      var c1 := if c.status.ready && !c.status.force && c.gen == c.status.Seen() && c.status.hash == NoHash
        then c.(status := c.status.(hash := Of(c.spec))) else c;
      WorkBooked(w, h, c1, base);
      GoPlain(w, h, c1, base, AddFinalizer);
    }
  }

  lemma PrepareBooked(w: World, h: Ledger, c: Instance, base: Status)
    requires Booked(w, h) && !h.owed && CopyOk(w, c, base) && c.status == base && base.opUrl.None?
    ensures LedgerOk(Prepare(w, c, base), h)
  {
    hide Booked, Go, Settle, CopyOk, LedgerOk;
    SettleBooked(w, h, c, base);
    GoPlain(w, h, c, base, InitConditions);
  }

  /** The success of a recorded request that SM carried out. */
  lemma DoneRecords(w: World, h: Ledger, c: Instance, base: Status)
    requires Booked(w, h) && !h.owed && CopyOk(w, c, base) && StoredTrue(w) && StatusShape(base, c.deleting) && !c.deleting
    requires base.opUrl.Some? && base.id.Some? && base.opUrl.value.kind != Delete
    requires base.opUrl.value.resource in w.insts ==> base.opUrl.value.op in w.ops && w.ops[base.opUrl.value.op].state == Good
    ensures Unchanged(w, c) ==> Records(w, h.log, WouldRecord(h), c, base.Success(base.LastObserved()).NoOperation())
  {
    if Unchanged(w, c) {
      assert Records(w, h.log, h.recorded, c, base) && OnTrack(w, c, base);
      assert h.log[..|h.log|] == h.log;
    }
  }

  lemma PollBooked(w: World, h: Ledger, p: Proc, ch: Choice)
    requires At(w, p) && Quietly(w, h, p) && p.pc == PollStatus && StoredTrue(w)
    ensures LedgerOk(AdvancePollStatus(w, p, ch), h)
  {
    hide SmOk, ObjOk, CoreOk, Booked, Finish, Go, Stop, CopyOk, LedgerOk, Fail, Records, SmStatus, StoredTrue;
    Parts(w, p.c, p.base);
    CopyOf(w, p.c, p.base);
    ShapeOf(w, p.c, p.base);
    StopBooked(w, h);
    var c := p.c;
    var url := c.status.opUrl.value;
    var at := c.status.LastObserved();
    FailBooked(w, h, c, p.base, url.kind, ch.throttled);
    FailBooked(w, h, c, p.base, url.kind, false);
    KeepRecords(w, h, c, p.base, c.status.InProgress(url.kind, c.gen, at));
    FinishBooked(w, h, c, p.base, c.status.InProgress(url.kind, c.gen, at));
    IdleRecords(w, h.log, WouldRecord(h), c, c.status.Failure(c.gen, at).NoOperation());
    FinishBooked(w, h, c, p.base, c.status.Failure(c.gen, at).NoOperation());
    GoPlain(w, h, c.(status := c.status.Failure(c.gen, at)), p.base, CleanupCall);
    GoPlain(w, h, c, p.base, PollFetch);
    GoPlain(w, h, c, p.base, PollRemoveFinalizer);
    if SmStatus(w, url) == Some(Good) && url.kind == Update {
      GoodUpdate(w, url);
      DoneRecords(w, h, c, p.base);
      FinishBooked(w, h, c, p.base, c.status.Success(at).NoOperation());
    }
  }

  lemma GoodUpdate(w: World, url: OpUrl)
    requires SmStatus(w, url) == Some(Good) && url.kind != Delete
    ensures url.op in w.ops && w.ops[url.op].state == Good
  {
  }

  lemma PollFetchBooked(w: World, h: Ledger, p: Proc, ch: Choice)
    requires At(w, p) && Quietly(w, h, p) && p.pc == PollFetch && StoredTrue(w) && PcTrue(w, p)
    ensures LedgerOk(AdvancePollFetch(w, p, ch), h)
  {
    hide SmOk, ObjOk, Booked, Finish, Stop, CopyOk, LedgerOk, Records, StoredTrue;
    Parts(w, p.c, p.base);
    CopyOf(w, p.c, p.base);
    ShapeOf(w, p.c, p.base);
    StopBooked(w, h);
    DoneRecords(w, h, p.c, p.base);
    hide CoreOk;
    FinishBooked(w, h, p.c, p.base, p.base.Success(p.base.LastObserved()).NoOperation());
  }

  lemma PollRemoveBooked(w: World, h: Ledger, p: Proc, ch: Choice)
    requires At(w, p) && Quietly(w, h, p) && p.pc == PollRemoveFinalizer
    ensures LedgerOk(AdvancePollRemoveFinalizer(w, p, ch), h)
  {
    hide SmOk, ObjOk, CoreOk, Booked, Finish, Stop, CopyOk, LedgerOk, Records;
    Parts(w, p.c, p.base);
    CopyOf(w, p.c, p.base);
    StopBooked(w, h);
    var status := p.base.(id := None).NoOperation();
    NamelessRecords(w, h.log, WouldRecord(h), p.c, status);
    FinishBooked(w, h, p.c, p.base, status);
    if p.c.finalizer && ch.call != Rejected && Unchanged(w, p.c) {
      var w1 := PutMeta(w, false);
      MetaBooked(w, h, p.c, p.base, false);
      StopBooked(w1, h);
      NamelessRecords(w1, h.log, WouldRecord(h), p.c.(finalizer := false, rv := w.clock), status);
      FinishBooked(w1, h, p.c.(finalizer := false, rv := w.clock), p.base, status);
    }
  }

  lemma DeleteQueryBooked(w: World, h: Ledger, p: Proc, ch: Choice)
    requires At(w, p) && Quietly(w, h, p) && p.pc == DeleteQuery
    ensures LedgerOk(AdvanceDeleteQuery(w, p, ch, Listed(w)), h)
  {
    hide SmOk, ObjOk, CoreOk, Booked, Finish, Go, CopyOk, LedgerOk, Records, Listed;
    var s := if ch.throttled then p.c.status.InProgress(Delete, p.c.gen, p.c.gen) else p.c.status.Failure(p.c.gen, p.c.gen);
    NamelessRecords(w, h.log, WouldRecord(h), p.c, s);
    FinishBooked(w, h, p.c, p.base, s);
    GoPlain(w, h, p.c, p.base, DeleteRemoveFinalizer);
    match Listed(w)
    case Some(i) =>
      var found := p.c.status.(id := Some(i)).InProgress(Delete, p.c.gen, p.c.gen);
      NamelessRecords(w, h.log, WouldRecord(h), p.c, found);
      FinishBooked(w, h, p.c, p.base, found);
    case None =>
  }

  lemma DeleteRemoveBooked(w: World, h: Ledger, p: Proc, ch: Choice)
    requires At(w, p) && Quietly(w, h, p) && p.pc == DeleteRemoveFinalizer
    ensures LedgerOk(AdvanceDeleteRemoveFinalizer(w, p, ch), h)
  {
    hide SmOk, ObjOk, CoreOk, Booked, Stop, CopyOk, LedgerOk;
    Parts(w, p.c, p.base);
    CopyOf(w, p.c, p.base);
    StopBooked(w, h);
    if ch.call != Rejected && Unchanged(w, p.c) {
      MetaBooked(w, h, p.c, p.base, false);
      StopBooked(PutMeta(w, false), h);
    }
  }

  lemma CheckExistsBooked(w: World, h: Ledger, p: Proc, ch: Choice)
    requires At(w, p) && Quietly(w, h, p) && p.pc == CheckExists
    ensures LedgerOk(AdvanceCheckExists(w, p, ch), h)
  {
    hide SmOk, ObjOk, CoreOk, Booked, Stop, Finish, Prepare, CopyOk, LedgerOk, Records;
    Parts(w, p.c, p.base);
    CopyOf(w, p.c, p.base);
    StopBooked(w, h);
    IdleRecords(w, h.log, WouldRecord(h), p.c, p.c.status.Missing(p.c.gen));
    FinishBooked(w, h, p.c, p.base, p.c.status.Missing(p.c.gen));
    PrepareBooked(w, h, p.c, p.base);
  }

  lemma InitBooked(w: World, h: Ledger, p: Proc, ch: Choice)
    requires At(w, p) && Quietly(w, h, p) && p.pc == InitConditions
    ensures LedgerOk(AdvanceInit(w, p, ch), h)
  {
    hide SmOk, ObjOk, CoreOk, Booked, Stop, Settle, CopyOk, LedgerOk, Records;
    var status := UpdateStatus(p.c.status.(ready := false).InProgress(Create, p.c.gen, p.c.gen));
    Parts(w, p.c, p.base);
    CopyOf(w, p.c, p.base);
    StopBooked(w, h);
    if ch.call != Rejected && Unchanged(w, p.c) {
      assert h.recorded <= |h.log| by { BookedBound(w, h); }
      NamelessRecords(w, h.log, h.recorded, p.c, status);
      StatusBooked(w, h, p.c, p.base, status, h.recorded);
      var w1 := PutStatus(w, status);
      InitCopy(w, p.c, p.base, status);
      StopBooked(w1, h);
      SettleBooked(w1, h, p.c.(rv := w.clock, status := status), status);
    }
  }

  lemma BookedBound(w: World, h: Ledger)
    requires Booked(w, h)
    ensures h.recorded <= |h.log|
  {
  }

  lemma AddFinalizerBooked(w: World, h: Ledger, p: Proc, ch: Choice)
    requires At(w, p) && Quietly(w, h, p) && p.pc == AddFinalizer
    ensures LedgerOk(AdvanceAddFinalizer(w, p, ch), h)
  {
    hide SmOk, ObjOk, CoreOk, Booked, Stop, Work, CopyOk, LedgerOk;
    Parts(w, p.c, p.base);
    CopyOf(w, p.c, p.base);
    StopBooked(w, h);
    if ch.call != Rejected && Unchanged(w, p.c) {
      MetaBooked(w, h, p.c, p.base, true);
      StopBooked(PutMeta(w, true), h);
      WorkBooked(PutMeta(w, true), h, p.c.(finalizer := true, rv := w.clock, status := p.base), p.base);
    }
  }

  lemma BuildRests(w: World, h: Ledger, c: Instance, base: Status)
    requires Booked(w, h) && !h.owed && (c.status.id.None? && Unchanged(w, c) ==> HashOf(c.status, c.spec))
    ensures LedgerOk(Go(w, c, base, Built(c)), h)
  {
    hide Booked, HashOf;
    GoBooked(w, h, c, base, Built(c));
  }

  lemma BuildBooked(w: World, h: Ledger, p: Proc, ch: Choice)
    requires At(w, p) && Quietly(w, h, p) && p.pc == Build && LawfulCall(w, h, p, ch)
    ensures LedgerOk(AdvanceBuild(w, p, ch), h)
  {
    hide SmOk, ObjOk, CoreOk, Booked, Finish, Go, CopyOk, LedgerOk, Records, FoundCurrent, HashOf;
    var c := p.c;
    Parts(w, c, p.base);
    CopyOf(w, c, p.base);
    BuildRests(w, h, c, p.base);
    IdleRecords(w, h.log, WouldRecord(h), c, c.status.Failure(c.gen, c.gen));
    FinishBooked(w, h, c, p.base, c.status.Failure(c.gen, c.gen));
    if ch.relabel && ch.call != Rejected && Unchanged(w, c) {
      MetaBooked(w, h, c, p.base, c.finalizer);
      var w1 := PutMeta(w, c.finalizer);
      IdleRecords(w1, h.log, WouldRecord(h), c, c.status.Failure(c.gen, c.gen));
      FinishBooked(w1, h, c, p.base, c.status.Failure(c.gen, c.gen));
      BuildRests(w1, h, c.(rv := w.clock, status := p.base), p.base);
    }
  }
}
