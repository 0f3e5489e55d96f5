/** The calls of SM, the status writes and the actions of others keep the ledger of a lawful run. */
module InstanceLedgerCalls {
  import opened Options
  import opened Remote
  import opened InstanceWorld
  import opened InstanceReconciler
  import opened InstanceInvariant
  import opened InstanceSteps
  import opened InstanceSafety
  import opened InstanceSpecs
  import opened InstanceLedger
  import opened InstanceLedgerSteps

  // ----- creation

  lemma ProvisionedBooked(w: World, h: Ledger, c: Instance, base: Status, async: bool, owed: bool)
    requires Steady(w, c, base) && Booked(w, h) && c.finalizer && Vacant(w) && base.id.None?
    ensures Booked(SmProvision(w, c.spec, async), Ledger([w.nextId], 0, owed))
  {
    hide StatusShape;
    var w1 := SmProvision(w, c.spec, async);
    assert w1.insts == map[w.nextId := Inst(w.nextId, c.spec, false)];
    assert LogOk(w1.ops, [w.nextId]);
  }

  lemma CreatedRecords(w: World, c: Instance, async: bool)
    requires c.status.opUrl.None? && HashOf(c.status, c.spec)
    ensures var w1 := SmProvision(w, c.spec, async);
      var s := c.status.(id := Some(w.nextId));
      && (async ==> Records(w1, [w.nextId], 1, c, s.Operating(OpUrl(Create, w.nextId, w.nextId)).InProgress(Create, c.gen, c.gen)))
      && (!async ==> Records(w1, [w.nextId], 1, c, s.Success(c.gen)))
  {
  }

  lemma ProvisionBooked(w: World, h: Ledger, p: Proc, ch: Choice)
    requires At(w, p) && Quietly(w, h, p) && p.pc == Provision
    ensures LedgerOk(AdvanceProvision(w, p, ch), if ch.call == Rejected then h else Ledger([w.nextId], 0, ch.call == Ok))
  {
    var c := p.c;
    assert c.status.opUrl.None? && c.finalizer && Vacant(w) && p.base.id.None? by { hide Steady; }
    hide At, SmOk, ObjOk, CoreOk, Steady, Booked, Finish, CopyOk, LedgerOk, Records, SmProvision, HashOf, Vacant;
    assert Steady(w, c, p.base) by { AtPc(w, p); }
    if ch.call == Rejected {
      var s := if ch.throttled then c.status.InProgress(Create, c.gen, c.gen) else c.status.Failure(c.gen, c.gen);
      IdleRecords(w, h.log, WouldRecord(h), c, s);
      FinishBooked(w, h, c, p.base, s);
    } else {
      var w1 := SmProvision(w, c.spec, ch.async);
      var h1 := Ledger([w.nextId], 0, ch.call == Ok);
      ProvisionedBooked(w, h, c, p.base, ch.async, ch.call == Ok);
      ProvisionFrame(w, c.spec, ch.async);
      if ch.call == Lost {
        IdleRecords(w1, h1.log, WouldRecord(h1), c, c.status.Failure(c.gen, c.gen));
        FinishBooked(w1, h1, c, p.base, c.status.Failure(c.gen, c.gen));
      } else {
        if Unchanged(w, c) {
          CreatedRecords(w, c, ch.async);
        }
        var s := c.status.(id := Some(w.nextId));
        FinishBooked(w1, h1, c, p.base, if ch.async then s.Operating(OpUrl(Create, w.nextId, w.nextId)).InProgress(Create, c.gen, c.gen)
                                        else s.Success(c.gen));
      }
    }
  }

  // ----- update

  lemma ExtendedOk(w: World, log: seq<Id>, i: Id, spec: Spec, async: bool)
    requires SmOk(w) && i in w.insts && Tells(w, log, i) && !Busy(w, i)
    ensures i in SmUpdate(w, i, spec, async).insts && Tells(SmUpdate(w, i, spec, async), log + [w.nextId], i)
  {
    var w1 := SmUpdate(w, i, spec, async);
    var log1 := log + [w.nextId];
    assert Before(log1) == log && Last(log1) == w.nextId;
    assert forall k :: 0 <= k < |log| ==> log[k] in w.ops && log[k] < w.nextId && OpOf(w1.ops, log[k]) == OpOf(w.ops, log[k]);
    AppliesApart(w.ops, w1.ops, log);
    assert w.ops[Last(log)].state != Running;
    assert forall k :: 0 <= k < |log| ==> log1[k] == log[k];
    assert LogOk(w1.ops, log1);
  }

  lemma UpdatedBooked(w: World, h: Ledger, c: Instance, base: Status, i: Id, async: bool, owed: bool)
    requires Steady(w, c, base) && Booked(w, h) && c.finalizer && base.id == Some(i) && base.opUrl.None? && i in w.insts && !Busy(w, i)
    ensures Booked(SmUpdate(w, i, c.spec, async), Ledger(h.log + [w.nextId], h.recorded, owed))
  {
    var w1 := SmUpdate(w, i, c.spec, async);
    var h1 := Ledger(h.log + [w.nextId], h.recorded, owed);
    assert w.obj.Some? && SameStatus(w.obj.value.status, base) && SmOk(w);
    if !w.obj.value.deleting {
      assert Tells(w, h.log, i) by { hide Tells, Records; }
      ExtendedOk(w, h.log, i, c.spec, async);
      assert LogOk(w.ops, h.log);
      hide Tells, Records, Busy, StatusShape;
      assert LogTells(w1, h1);
    }
    hide LogTells, StatusShape, Busy;
    assert StoredRecords(w1, h1) by { hide Steady; UpdateStored(w, h, w.obj.value, i, c.spec, async); }
  }

  /** An idle record stands when another request enters the log. */
  lemma UpdateStored(w: World, h: Ledger, o: Instance, i: Id, spec: Spec, async: bool)
    requires h.recorded <= |h.log| && Records(w, h.log, h.recorded, o, o.status) && o.status.opUrl.None? && i in w.insts
    requires SmOk(w) && (!o.deleting ==> LogOk(w.ops, h.log))
    ensures Records(SmUpdate(w, i, spec, async), h.log + [w.nextId], h.recorded, o, o.status)
  {
    var w1 := SmUpdate(w, i, spec, async);
    assert (h.log + [w.nextId])[..h.recorded] == h.log[..h.recorded];
    if !o.deleting {
      PrefixApart(w, w1, h.log, h.recorded);
    }
  }

  /** New operations leave alone what the requests of the log agree with. */
  lemma PrefixApart(w: World, w1: World, log: seq<Id>, recorded: nat)
    requires LogOk(w.ops, log) && recorded <= |log| && forall op :: op in w.ops ==> op in w1.ops && w1.ops[op] == w.ops[op]
    ensures forall spec :: Agree(w.ops, log[..recorded], spec) ==> Agree(w1.ops, log[..recorded], spec)
  {
    forall spec | Agree(w.ops, log[..recorded], spec)
      ensures Agree(w1.ops, log[..recorded], spec)
    {
      AgreeLater(w.ops, w1.ops, log[..recorded], spec);
    }
  }

  lemma UpdatedRecords(w: World, log: seq<Id>, c: Instance, i: Id, async: bool)
    requires i in w.insts && c.status.id == Some(i) && c.status.opUrl.None? && c.status.hash == Of(c.spec)
    ensures var w1 := SmUpdate(w, i, c.spec, async);
      var log1 := log + [w.nextId];
      && (async ==> Records(w1, log1, |log1|, c, c.status.Operating(OpUrl(Update, i, w.nextId)).InProgress(Update, c.gen, c.gen).(force := false)))
      && (!async ==> Records(w1, log1, |log1|, c, c.status.Success(c.gen).(force := false)))
  {
  }

  /** SM accepts an update of an instance that it holds and that is not busy. */
  predicate Accepts(w: World, p: Proc, ch: Choice) {
    ch.call != Rejected && p.c.status.id.Some? && p.c.status.id.value in w.insts && !Busy(w, p.c.status.id.value)
  }

  lemma UpdateBooked(w: World, h: Ledger, p: Proc, ch: Choice)
    requires At(w, p) && Quietly(w, h, p) && p.pc == UpdateCall
    ensures LedgerOk(AdvanceUpdate(w, p, ch), if Accepts(w, p, ch) then Ledger(h.log + [w.nextId], h.recorded, ch.call == Ok) else h)
  {
    var c := p.c.(status := p.c.status.(hash := Of(p.c.spec)));
    assert c.status.opUrl.None? && c.finalizer && p.base.opUrl.None? && p.base.id == c.status.id by { hide Steady; }
    hide At, SmOk, ObjOk, CoreOk, Steady, Booked, Finish, CopyOk, LedgerOk, Records, SmUpdate, HashOf, Busy;
    assert Steady(w, p.c, p.base) by { AtPc(w, p); }
    var i := c.status.id.value;
    if !Accepts(w, p, ch) {
      var s := if ch.throttled then c.status.InProgress(Update, c.gen, c.gen) else c.status.Failure(c.gen, c.gen);
      IdleRecords(w, h.log, WouldRecord(h), c, s);
      FinishBooked(w, h, c, p.base, s);
    } else {
      var w1 := SmUpdate(w, i, c.spec, ch.async);
      var h1 := Ledger(h.log + [w.nextId], h.recorded, ch.call == Ok);
      UpdatedBooked(w, h, p.c, p.base, i, ch.async, ch.call == Ok);
      if ch.call == Lost {
        IdleRecords(w1, h1.log, WouldRecord(h1), c, c.status.Failure(c.gen, c.gen));
        FinishBooked(w1, h1, c, p.base, c.status.Failure(c.gen, c.gen));
      } else {
        UpdatedRecords(w, h.log, c, i, ch.async);
        FinishBooked(w1, h1, c, p.base,
                     if ch.async then c.status.Operating(OpUrl(Update, i, w.nextId)).InProgress(Update, c.gen, c.gen).(force := false)
                     else c.status.Success(c.gen).(force := false));
      }
    }
  }

  // ----- sharing

  lemma SharedBooked(w: World, h: Ledger, i: Id, shared: bool)
    requires Booked(w, h)
    ensures Booked(SmShare(w, i, shared), h)
  {
    var w1 := SmShare(w, i, shared);
    assert w1.ops == w.ops && w1.insts.Keys == w.insts.Keys;
    assert forall j :: j in w1.insts ==> w1.insts[j].last == w.insts[j].last && w1.insts[j].applied == w.insts[j].applied;
  }

  lemma AlignedRecords(w: World, w1: World, h: Ledger, p: Proc, sharing: Sharing)
    requires At(w, p) && Quietly(w, h, p) && p.pc == ShareCall && w1.insts.Keys == w.insts.Keys && w1.ops == w.ops
    ensures Unchanged(w, p.c) ==> Records(w1, h.log, WouldRecord(h), p.c, p.c.status.Aligned(sharing, p.c.gen))
    ensures Unchanged(w, p.c) ==> Records(w1, h.log, WouldRecord(h), p.c, p.c.status.(sharing := sharing))
  {
    if Unchanged(w, p.c) {
      ShareCopy(w, p);
      assert Records(w, h.log, h.recorded, p.c, p.base);
    }
  }

  lemma SharingFinish(w: World, w1: World, h: Ledger, p: Proc, sharing: Sharing)
    requires At(w, p) && Quietly(w, h, p) && p.pc == ShareCall && w1.insts.Keys == w.insts.Keys && w1.ops == w.ops && w1.obj == w.obj
    requires Booked(w1, h)
    ensures LedgerOk(Finish(w1, p.c, p.base, p.c.status.Aligned(sharing, p.c.gen)), h)
    ensures LedgerOk(Finish(w1, p.c, p.base, p.c.status.(sharing := sharing)), h)
  {
    AlignedRecords(w, w1, h, p, sharing);
    hide At, Booked, LedgerOk, Records, Quietly, Finish;
    FinishBooked(w1, h, p.c, p.base, p.c.status.Aligned(sharing, p.c.gen));
    FinishBooked(w1, h, p.c, p.base, p.c.status.(sharing := sharing));
  }

  lemma ShareIdle(w: World, p: Proc)
    requires At(w, p) && p.pc == ShareCall
    ensures p.c.status.id.Some? && p.c.status.opUrl.None?
  {
    hide Steady;
  }

  /** What sharing can write. */
  predicate SharedStatus(c: Instance, s: Status) {
    s == c.status.InProgress(Create, c.gen, c.gen) || s == c.status.Aligned(s.sharing, c.gen) || s == c.status.(sharing := s.sharing)
  }

  lemma ShareWrites(w: World, p: Proc, ch: Choice)
    requires p.c.status.id.Some?
    ensures exists s: Status :: SharedStatus(p.c, s) && AdvanceShare(w, p, ch) ==
              Finish(if ch.call == Rejected then w else SmShare(w, p.c.status.id.value, p.c.wanted == Some(true)), p.c, p.base, s)
  {
    hide SmShare;
    var w1 := if ch.call == Rejected then w else SmShare(w, p.c.status.id.value, p.c.wanted == Some(true));
    var s := AdvanceShare(w, p, ch).proc.value.c.status;
    assert SharedStatus(p.c, s) && AdvanceShare(w, p, ch) == Finish(w1, p.c, p.base, s);
  }

  lemma ShareBooked(w: World, h: Ledger, p: Proc, ch: Choice)
    requires At(w, p) && Quietly(w, h, p) && p.pc == ShareCall
    ensures LedgerOk(AdvanceShare(w, p, ch), h)
  {
    hide At, Booked, Finish, LedgerOk, Records, SmShare, PcRecords, AdvanceShare;
    var c := p.c;
    var share := c.wanted == Some(true);
    ShareIdle(w, p);
    var i := c.status.id.value;
    SharedKeys(w, i, share);
    SharedBooked(w, h, i, share);
    ShareWrites(w, p, ch);
    var w1 := if ch.call == Rejected then w else SmShare(w, i, share);
    var s: Status :| SharedStatus(c, s) && AdvanceShare(w, p, ch) == Finish(w1, c, p.base, s);
    if s == c.status.InProgress(Create, c.gen, c.gen) {
      IdleRecords(w1, h.log, WouldRecord(h), c, s);
      FinishBooked(w1, h, c, p.base, s);
    } else {
      SharingFinish(w, w1, h, p, s.sharing);
    }
  }

  lemma SharedKeys(w: World, i: Id, share: bool)
    ensures SmShare(w, i, share).insts.Keys == w.insts.Keys && SmShare(w, i, share).ops == w.ops && SmShare(w, i, share).obj == w.obj
  {
  }

  // ----- deprovisioning

  lemma DeletedTells(w: World, log: seq<Id>, i: Id, async: bool)
    requires SmOk(w) && i in w.insts && Tells(w, log, i) && w.ops[Last(log)].state == Bad
    ensures var w1 := SmDeprovision(w, i, async);
      i in w1.insts ==> Tells(w1, log, i)
  {
    var w1 := SmDeprovision(w, i, async);
    assert forall k :: 0 <= k < |log| ==> log[k] in w.ops && log[k] < w.nextId && OpOf(w1.ops, log[k]) == OpOf(w.ops, log[k]);
    AppliesApart(w.ops, w1.ops, log);
  }

  lemma DeletedRecords(w: World, h: Ledger, o: Instance, s: Status, i: Id, async: bool)
    requires SmOk(w) && h.recorded <= |h.log| && Records(w, h.log, h.recorded, o, s)
    requires i in w.insts && !o.deleting ==> LogOk(w.ops, h.log)
    ensures Records(SmDeprovision(w, i, async), h.log, h.recorded, o, s)
  {
    var w1 := SmDeprovision(w, i, async);
    if i in w.insts && !o.deleting {
      assert forall k :: 0 <= k < |h.log| ==> h.log[k] in w.ops && h.log[k] < w.nextId && OpOf(w1.ops, h.log[k]) == OpOf(w.ops, h.log[k]);
      PrefixApart(w, w1, h.log, h.recorded);
    }
  }

  /** What the failed operation tells of the log. */
  lemma CleanupLog(w: World, h: Ledger, p: Proc)
    requires At(w, p) && Booked(w, h) && p.pc == CleanupCall && p.c.status.id.value in w.insts
    ensures w.obj.Some? && (!w.obj.value.deleting ==>
              Tells(w, h.log, p.c.status.id.value) && LogOk(w.ops, h.log) && w.ops[Last(h.log)].state == Bad)
  {
    hide StatusShape, Agree, Applies;
    assert CoreOk(w, p.c, p.base) && PcOk(w, p) && ObjOk(w);
    assert p.c.finalizer;
    assert SameStatus(w.obj.value.status, p.base);
    if !w.obj.value.deleting {
      assert Tells(w, h.log, p.c.status.id.value);
      assert Records(w, h.log, h.recorded, w.obj.value, w.obj.value.status);
    }
  }

  lemma CleanedBooked(w: World, h: Ledger, p: Proc, async: bool)
    requires At(w, p) && Quietly(w, h, p) && p.pc == CleanupCall
    ensures var w1 := SmDeprovision(w, p.c.status.id.value, async);
      && Booked(w1, h)
      && (p.c.status.id.value in w.insts && async && Unchanged(w, p.c) ==>
            Records(w1, h.log, WouldRecord(h), p.c, p.c.status.Operating(OpUrl(Delete, p.c.status.id.value, w.nextId))))
  {
    var i := p.c.status.id.value;
    var w1 := SmDeprovision(w, i, async);
    assert SmOk(w) by { Parts(w, p.c, p.base); }
    assert Unchanged(w, p.c) ==> w.obj.value.deleting == p.c.deleting by { hide SmOk, ObjOk, Booked, PcOk, StatusShape; }
    hide At, PcOk, PcRecords;
    if i in w.insts {
      assert w.obj.Some? && (!w.obj.value.deleting ==> Tells(w, h.log, i) && LogOk(w.ops, h.log) && w.ops[Last(h.log)].state == Bad) by {
        assert At(w, p); CleanupLog(w, h, p);
      }
      if !w.obj.value.deleting {
        DeletedTells(w, h.log, i, async);
        assert w1.ops[Last(h.log)] == w.ops[Last(h.log)] by { hide Tells, Records; }
      }
      hide Tells, LogOk;
      assert LogTells(w1, h);
      if w.obj.Some? { DeletedRecords(w, h, w.obj.value, w.obj.value.status, i, async); }
      if async && Unchanged(w, p.c) && !p.c.deleting {
        assert OpOf(w1.ops, Last(h.log)).state == Bad;
      }
    }
  }

  lemma CleanupRecords(w: World, h: Ledger, p: Proc)
    requires At(w, p) && Quietly(w, h, p) && p.pc == CleanupCall
    ensures Unchanged(w, p.c) ==> Records(w, h.log, h.recorded, p.c, p.base)
    ensures p.c.status.id.Some? && !h.owed
  {
    if Unchanged(w, p.c) {
      CleanupCopy(w, p);
      assert Records(w, h.log, h.recorded, p.c, p.base) by { hide LogTells, At; }
    }
    hide Steady, Booked;
  }

  lemma CleanupBooked(w: World, h: Ledger, p: Proc, ch: Choice)
    requires At(w, p) && Quietly(w, h, p) && p.pc == CleanupCall
    ensures LedgerOk(AdvanceCleanup(w, p, ch), h)
  {
    hide At, Booked, Finish, Go, Stop, CopyOk, LedgerOk, Records, SmDeprovision, Fail, PcRecords;
    CleanupRecords(w, h, p);
    var c := p.c;
    var i := c.status.id.value;
    var w1 := if ch.call == Rejected then w else SmDeprovision(w, i, ch.async);
    CleanedBooked(w, h, p, ch.async);
    DeprovisionFrame(w, i, ch.async);
    CleanupStill(w, p, w1);
    StopBooked(w1, h);
    GoPlain(w1, h, c.(status := c.status.NoOperation().(id := None)), p.base, DirectSave);
    if i in w.insts && ch.async && ch.call != Rejected {
      FinishBooked(w1, h, c, p.base, c.status.Operating(OpUrl(Delete, i, w.nextId)));
    }
    FailBooked(w1, h, c, p.base, Delete, true);
  }

  lemma CleanupStill(w: World, p: Proc, w1: World)
    requires At(w, p) && p.pc == CleanupCall
    requires w1 == w || exists async :: w1 == SmDeprovision(w, p.c.status.id.value, async)
    ensures CopyOk(w1, p.c, p.base)
    ensures p.c.status == p.base.(succeeded := p.c.status.succeeded, readyCond := p.c.status.readyCond)
  {
    hide SmOk, ObjOk, StatusShape;
  }

  lemma CleanupCopy(w: World, p: Proc)
    requires At(w, p) && Unchanged(w, p.c)
    ensures w.obj == Some(p.c.(status := p.base))
  {
    hide SmOk, ObjOk, StatusShape, PcOk;
  }

  lemma DeletingBooked(w: World, w1: World, h: Ledger)
    requires Booked(w, h) && w1.obj == w.obj && (w.obj.Some? ==> w.obj.value.deleting)
    ensures Booked(w1, h)
  {
  }

  lemma DeleteCallBooked(w: World, h: Ledger, p: Proc, ch: Choice)
    requires At(w, p) && Quietly(w, h, p) && p.pc == DeleteCall
    ensures LedgerOk(AdvanceDeleteCall(w, p, ch), h)
  {
    var c := p.c;
    var i := c.status.id.value;
    var w1 := if ch.call == Rejected then w else SmDeprovision(w, i, ch.async);
    DeprovisionFrame(w, i, ch.async);
    assert (w.obj.Some? ==> w.obj.value.deleting) && c.deleting by { hide SmOk, ObjOk, StatusShape; }
    hide At, SmOk, ObjOk, CoreOk, Steady, Booked, Finish, Go, Stop, CopyOk, LedgerOk, Records, SmDeprovision;
    DeletingBooked(w, w1, h);
    StopBooked(w1, h);
    GoPlain(w1, h, c.(status := c.status.(id := None)), p.base, DeleteSave);
    var s := if ch.throttled then c.status.InProgress(Delete, c.gen, c.gen) else c.status.Failure(c.gen, c.gen);
    NamelessRecords(w1, h.log, WouldRecord(h), c, s);
    FinishBooked(w1, h, c, p.base, s);
    var s1 := c.status.Operating(OpUrl(Delete, i, w.nextId)).InProgress(Delete, c.gen, c.gen);
    NamelessRecords(w1, h.log, WouldRecord(h), c, s1);
    FinishBooked(w1, h, c, p.base, s1);
  }

  // ----- recovery

  lemma RecoveredRecords(w: World, h: Ledger, p: Proc, i: Id)
    requires At(w, p) && Booked(w, h) && p.pc == Query && Unchanged(w, p.c) && i in w.insts && FoundCurrent(w, p.c)
    ensures Records(w, h.log, |h.log|, p.c, Recovered(w, p.c, i))
  {
    CleanupCopy(w, p);
    assert SmOk(w) by { Parts(w, p.c, p.base); }
    assert Tells(w, h.log, i) by { hide Records, Tells, StatusShape; }
  }

  lemma QueryBooked(w: World, h: Ledger, p: Proc, ch: Choice)
    requires At(w, p) && Quietly(w, h, p) && p.pc == Query && (Unchanged(w, p.c) ==> FoundCurrent(w, p.c))
    ensures LedgerOk(AdvanceQuery(w, p, ch, Listed(w)), h.(owed := ch.call == Ok && Listed(w).Some?))
  {
    var c := p.c;
    assert c.status.opUrl.None? by { hide Steady; }
    if Listed(w).Some? && Unchanged(w, c) {
      RecoveredRecords(w, h, p, Listed(w).value);
    }
    hide At, SmOk, ObjOk, CoreOk, Steady, Finish, Go, Stop, CopyOk, LedgerOk, Records, Recovered, LogTells, StoredRecords, Listed, FoundCurrent;
    var h1 := h.(owed := ch.call == Ok && Listed(w).Some?);
    assert Booked(w, h1);
    hide Booked;
    if ch.call != Ok {
      var s := if ch.throttled then c.status.InProgress(Create, c.gen, c.gen) else c.status.Failure(c.gen, c.gen);
      IdleRecords(w, h.log, WouldRecord(h), c, s);
      FinishBooked(w, h, c, p.base, s);
    } else {
      match Listed(w)
      case Some(i) => FinishBooked(w, h1, c, p.base, Recovered(w, c, i));
      case None =>
        GoBooked(w, h, c.(status := c.status.(hash := Of(c.spec))), p.base, Build);
    }
  }

  // ----- status writes

  /** The ledger after a status write. */
  function Written(w: World, h: Ledger, p: Proc, ch: Choice): Ledger {
    if h.owed && ch.call != Rejected && Unchanged(w, p.c) then Ledger(h.log, |h.log|, false) else h.(owed := false)
  }

  lemma ObservedRecords(w: World, log: seq<Id>, recorded: nat, c: Instance, s: Status)
    requires Records(w, log, recorded, c, s)
    ensures Records(w, log, recorded, c, UpdateStatus(s))
  {
  }

  lemma SaveBooked(w: World, h: Ledger, p: Proc, ch: Choice)
    requires At(w, p) && Quietly(w, h, p) && p.pc == Save
    ensures LedgerOk(WriteStatus(w, p, ch, UpdateStatus(p.c.status), None), Written(w, h, p, ch))
  {
    var status := UpdateStatus(p.c.status);
    if Unchanged(w, p.c) {
      ObservedRecords(w, h.log, WouldRecord(h), p.c, p.c.status);
    }
    assert CopyOk(w, p.c, p.base) by { Parts(w, p.c, p.base); CopyOf(w, p.c, p.base); }
    hide At, LogTells, StoredRecords, Records, CopyOk, LedgerOk;
    assert Booked(w, h.(owed := false));
    hide Booked;
    if ch.call == Rejected || !Unchanged(w, p.c) {
      StopBooked(w, h.(owed := false));
    } else {
      BookedBound(w, h);
      StatusBooked(w, h, p.c, p.base, status, WouldRecord(h));
      StopBooked(PutStatus(w, status), Ledger(h.log, WouldRecord(h), false));
    }
  }

  lemma DirectSaveBooked(w: World, h: Ledger, p: Proc, ch: Choice)
    requires At(w, p) && Quietly(w, h, p) && (p.pc == DirectSave || p.pc == DeleteSave)
    ensures LedgerOk(WriteStatus(w, p, ch, p.c.status, if p.pc == DirectSave then None else Some(DeleteRemoveFinalizer)), h)
  {
    assert p.c.status.id.None? by { hide Steady; }
    assert CopyOk(w, p.c, p.base) by { Parts(w, p.c, p.base); CopyOf(w, p.c, p.base); }
    hide At, LogTells, StoredRecords, Records, CopyOk, LedgerOk, Booked, Steady, PcOk;
    StopBooked(w, h);
    if ch.call != Rejected && Unchanged(w, p.c) {
      var w1 := PutStatus(w, p.c.status);
      BookedBound(w, h);
      NamelessRecords(w, h.log, h.recorded, p.c, p.c.status);
      StatusBooked(w, h, p.c, p.base, p.c.status, h.recorded);
      StopBooked(w1, h);
      GoPlain(w1, h, p.c.(rv := w.clock, status := p.c.status), p.c.status, DeleteRemoveFinalizer);
    }
  }
}
