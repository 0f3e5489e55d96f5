/**
 What each undisturbed reconcile of an instance leaves in the two stores, field by field: creation, recovery,
 update, sharing, polling and cleanup, and what decides between them.
 */
module InstancePasses {
  import opened Options
  import opened Remote
  import opened InstanceWorld
  import opened InstanceReconciler
  import opened InstanceInvariant
  import opened InstanceSteps
  import opened InstanceSafety
  import opened InstanceConvergence
  import InstanceConverges

  /** The object with this status, between two reconciles; its specification and metadata are as they were. */
  predicate Left(w: World, w1: World, finalizer: bool, s: Status) {
    && w.obj.Some? && w1.obj.Some? && w1.proc.None?
    && w1.obj.value == w.obj.value.(finalizer := finalizer, status := s, rv := w1.obj.value.rv)
  }

  /** The same, with SM left alone. */
  predicate OnlyLeft(w: World, w1: World, finalizer: bool, s: Status) {
    Left(w, w1, finalizer, s) && w1.insts == w.insts && w1.ops == w.ops && w1.nextId == w.nextId
  }

  /** Success for a generation. */
  predicate Succeeds(s: Status, gen: nat) {
    && s.succeeded == Some(Cond(true, gen, false)) && s.readyCond == Some(Cond(true, gen, false)) && s.ready
    && s.observed == gen
  }

  /** No success, for the generation `at`; readiness is as it was. */
  predicate Falters(s: Status, ready: bool, updating: bool, gen: nat, at: nat) {
    && s.succeeded == Some(Cond(false, at, updating)) && s.readyCond == Some(Cond(ready, gen, false)) && s.ready == ready
  }

  /** A recorded operation. */
  predicate Records(s: Status, kind: OpKind, i: Id, op: Id) {
    s.opUrl == Some(OpUrl(kind, i, op)) && s.opType == Some(kind)
  }

  predicate Unrecorded(s: Status) {
    s.opUrl.None? && s.opType.None?
  }

  // ----- creation

  /** SM holds a new instance with the specification at hand, and the resource records it. */
  predicate Created(w: World, w1: World, async: bool) {
    && w.obj.Some? && w1.obj.Some? && var o := w.obj.value; var s := w1.obj.value.status;
    && Left(w, w1, true, s) && w1.nextId == w.nextId + 1
    && w1.insts == w.insts[w.nextId := Inst(w.nextId, o.spec, false)]
    && w1.ops == w.ops[w.nextId := Op(Create, w.nextId, if async then Running else Good, o.spec)]
    && s.id == Some(w.nextId) && s.force == o.status.force && s.sharing == o.status.sharing
    && (if async then Records(s, Create, w.nextId, w.nextId) && Falters(s, false, false, o.gen, o.gen) && s.observed == o.gen
        else Succeeds(s, o.gen) && s.opUrl.None?)
  }

  /**
   With no instance in SM one is created; the stored hash is that of the specification, except that a change of
   labels brings back the hash that was stored.
   */
  lemma CreationLeaves(w: World, ch: Choice)
    requires Unnamed(w) && Cooperative(ch) && w.insts == map[]
    ensures Created(w, Pass(w, ch), ch.async)
    ensures Pass(w, ch).obj.value.status.hash == if ch.relabel then w.obj.value.status.hash else Of(w.obj.value.spec)
  {
    PassCreates(w, ch);
    PreparedSame(w);
    PreparedObject(w);
    hide Pass, Prepared;
  }

  lemma PreparedObject(w: World)
    requires Unnamed(w)
    ensures var w1 := Prepared(w);
      w1.obj.Some? && w1.obj.value == w.obj.value.(finalizer := true, status := w1.obj.value.status, rv := w1.obj.value.rv)
  {
  }

  // ----- recovery

  /**
   The status after recovery: ready unless its creation has not succeeded, the operation recorded while it runs,
   success or failure for the generation at hand when it has ended, and the Shared condition of a shared instance.
   */
  predicate Adopts(s: Status, o: Instance, i: Id, inst: Inst, ops: map<Id, Op>) {
    var known := inst.last in ops;
    var kind, state := (if known then ops[inst.last].kind else Create), (if known then ops[inst.last].state else Good);
    && s.id == Some(i) && s.hash == Of(o.spec) && s.force == o.status.force && s.observed == o.gen
    && s.sharing == (if inst.shared then On else o.status.sharing)
    && match state
       case Good => Succeeds(s, o.gen) && Unrecorded(s)
       case Running =>
         Records(s, kind, i, inst.last) && Falters(s, o.status.ready || kind != Create, kind == Update, o.gen, o.gen)
       case Bad => Unrecorded(s) && Falters(s, o.status.ready || kind != Create, false, o.gen, o.gen)
  }

  lemma RecoveredAdopts(w: World, c: Instance, i: Id)
    requires i in w.insts
    ensures Adopts(UpdateStatus(Recovered(w, c, i)), c, i, w.insts[i], w.ops)
  {
  }

  lemma RecoveryLeaves(w: World, ch: Choice, i: Id)
    requires Unnamed(w) && Cooperative(ch) && i in w.insts && forall j :: j in w.insts ==> j == i
    ensures var w1 := Pass(w, ch);
      && w1.obj.Some? && OnlyLeft(w, w1, true, w1.obj.value.status)
      && Adopts(w1.obj.value.status, w.obj.value, i, w.insts[i], w.ops)
  {
    PassRecovers(w, ch, i);
    PreparedSame(w);
    PreparedObject(w);
    var w1 := Prepared(w);
    RecoveredAdopts(w1, w1.obj.value, i);
    hide Pass, Prepared, Recovered;
  }

  // ----- what decides

  /** The specification was seen, nothing asks for an update, and the sharing is what it should be. */
  predicate Finished(o: Instance) {
    o.status.ready && !o.status.force && o.gen == o.status.Seen() && !SharingDue(o)
  }

  /** The Shared condition of a ready instance differs from the specification, and sharing is not ruled out. */
  predicate SharingDue(o: Instance) {
    o.status.ready && o.status.sharing != Unsupported && ((o.status.sharing == On) != (o.wanted == Some(true)))
  }

  /** The stored hash is not that of the specification; one that is missing does not count once the generation was seen. */
  predicate HashDiffers(o: Instance) {
    o.status.hash != Of(o.spec) && !(o.status.hash == NoHash && !o.status.force && o.gen == o.status.Seen())
  }

  /** A secret has changed, or the instance follows its secrets, or a ready one was edited or is still being updated. */
  predicate UpdateDue(o: Instance) {
    o.status.force || o.subscribed
    || (o.status.ready && (HashDiffers(o) || (o.status.succeeded.Some? && o.status.succeeded.value.updating)))
  }

  lemma Decisions(o: Instance)
    ensures Final(o) <==> Finished(o)
    ensures UpdateRequired(Filled(o)) <==> UpdateDue(o)
    ensures ShareRequired(o) <==> SharingDue(o)
  {
  }

  // ----- update

  /** SM was asked for the specification at hand, and the resource records that. */
  predicate Updated(w: World, w1: World, i: Id, async: bool) {
    && w.obj.Some? && w1.obj.Some? && i in w.insts && var o := w.obj.value; var s := w1.obj.value.status;
    && Left(w, w1, true, s) && w1.nextId == w.nextId + 1
    && w1.insts == w.insts[i := w.insts[i].(last := w.nextId, applied := if async then w.insts[i].applied else o.spec)]
    && w1.ops == w.ops[w.nextId := Op(Update, i, if async then Running else Good, o.spec)]
    && s.id == Some(i) && s.hash == Of(o.spec) && !s.force && s.sharing == o.status.sharing
    && (if async then Records(s, Update, i, w.nextId) && Falters(s, o.status.ready, true, o.gen, o.gen) && s.observed == o.gen
        else Succeeds(s, o.gen) && s.opUrl.None?)
  }

  /** An update that is due is asked for. */
  lemma UpdateLeaves(w: World, ch: Choice, i: Id)
    requires Present(w) && Cooperative(ch) && w.obj.value.status.id == Some(i) && !Busy(w, i)
    requires !Finished(w.obj.value) && UpdateDue(w.obj.value)
    ensures Updated(w, Pass(w, ch), i, ch.async)
  {
    Decisions(w.obj.value);
    hide Final, UpdateRequired, Finished, UpdateDue, HashDiffers, SharingDue, ShareRequired, Filled;
    PassUpdates(w, ch);
    hide Pass;
  }

  /** On an instance that SM is busy with the update is refused, and stays due only when SM was out of capacity. */
  lemma RefusalLeaves(w: World, ch: Choice, i: Id)
    requires Present(w) && Cooperative(ch) && w.obj.value.status.id == Some(i) && Busy(w, i)
    requires !Finished(w.obj.value) && UpdateDue(w.obj.value)
    ensures var w1 := Pass(w, ch);
      && w1.obj.Some? && var o := w.obj.value; var s := w1.obj.value.status;
      && OnlyLeft(w, w1, true, s) && Falters(s, o.status.ready, ch.throttled, o.gen, o.gen)
      && s.id == Some(i) && s.hash == Of(o.spec) && s.force == o.status.force && s.sharing == o.status.sharing && s.opUrl.None?
  {
    Decisions(w.obj.value);
    hide Final, UpdateRequired, Finished, UpdateDue, HashDiffers, SharingDue, ShareRequired, Filled;
    PassRefused(w, ch);
    hide Pass;
  }

  // ----- sharing

  /** Sharing that is due, with no update before it, is done and reported. */
  lemma SharingLeaves(w: World, ch: Choice, i: Id)
    requires Present(w) && Cooperative(ch) && w.obj.value.status.id == Some(i)
    requires SharingDue(w.obj.value) && !UpdateDue(w.obj.value)
    ensures var w1 := Pass(w, ch);
      && w1.obj.Some? && var o := w.obj.value; var s := w1.obj.value.status;
      && Left(w, w1, true, s) && w1.insts == w.insts[i := w.insts[i].(shared := o.wanted == Some(true))]
      && w1.ops == w.ops && w1.nextId == w.nextId
      && s.sharing == (if o.wanted == Some(true) then On else if o.wanted == Some(false) then Off else Absent)
      && s.id == Some(i) && s.ready && s.force == o.status.force && s.opUrl.None?
      && (o.status.succeeded.Some? ==> s.succeeded.Some? && s.succeeded.value.good == o.status.succeeded.value.good)
      && (o.status.succeeded.Some? && o.wanted.Some? ==> s.succeeded.value.gen == o.gen)
  {
    var o := w.obj.value;
    Decisions(o);
    assert !Finished(o);
    assert o.wanted.Some? ==> o.wanted == Some(true) || o.wanted == Some(false) by {
      if o.wanted.Some? {
        var share := o.wanted.value;
        assert o.wanted == Some(share) && (share == true || share == false);
      }
    }
    hide Final, UpdateRequired, UpdateDue, HashDiffers, Finished, ShareRequired;
    PassShares(w, ch);
    hide Pass;
  }

  /** Nothing is due: at most a missing hash is filled in, once the generation was seen and the sharing is right. */
  lemma NothingDue(w: World, ch: Choice)
    requires Present(w) && Cooperative(ch) && (Finished(w.obj.value) || (!UpdateDue(w.obj.value) && !SharingDue(w.obj.value)))
    ensures var w1 := Pass(w, ch);
      var o := w.obj.value;
      if Finished(o) && o.status.hash == NoHash
      then OnlyLeft(w, w1, true, o.status.(hash := Of(o.spec), observed := o.status.LastObserved()))
      else w1 == w
  {
    Decisions(w.obj.value);
    hide Final, UpdateRequired, UpdateDue, HashDiffers, Finished, SharingDue, ShareRequired, Filled;
    if Final(w.obj.value) {
      PassFinal(w, ch);
    } else {
      PassRests(w, ch);
    }
    hide Pass;
  }

  // ----- when nothing is done any more

  lemma DueChanges(w: World, i: Id)
    requires Present(w) && w.obj.value.status.id == Some(i) && !Busy(w, i)
    requires !Finished(w.obj.value) && (UpdateDue(w.obj.value) || SharingDue(w.obj.value))
    ensures Pass(w, PLAIN) != w
  {
    hide Pass, UpdateDue, Finished;
    if UpdateDue(w.obj.value) {
      UpdateLeaves(w, PLAIN, i);
    } else {
      SharingLeaves(w, PLAIN, i);
    }
  }

  lemma FillChanges(w: World)
    requires Present(w) && Finished(w.obj.value) && w.obj.value.status.hash == NoHash
    ensures Pass(w, PLAIN) != w
  {
    hide Pass, Finished;
    NothingDue(w, PLAIN);
  }

  /**
   On an instance that SM holds and is done with, no reconcile changes anything if and only if its generation was
   seen, with a hash, and the sharing is right, or neither an update nor a sharing is due.  Where it is ready, it
   follows that its sharing is right or ruled out, and that an edit it has not seen left the recorded hash that of the
   specification.
   */
  lemma QuietExact(w: World)
    requires Present(w) && Idle(w)
    ensures var o := w.obj.value;
      && (InstanceConverges.Quiet(w) <==>
            (Finished(o) && o.status.hash != NoHash) || (!Finished(o) && !UpdateDue(o) && !SharingDue(o)))
      && (InstanceConverges.Quiet(w) && o.status.ready ==>
            && (o.status.sharing == Unsupported || ((o.status.sharing == On) <==> (o.wanted == Some(true))))
            && (o.gen != o.status.Seen() ==> o.status.hash == Of(o.spec) && !o.status.force))
  {
    var o := w.obj.value;
    var i := o.status.id.value;
    if Finished(o) {
      if o.status.hash == NoHash {
        FillChanges(w);
      } else {
        forall ch | Cooperative(ch)
          ensures Pass(w, ch) == w
        {
          hide Pass, Finished;
          NothingDue(w, ch);
        }
      }
    } else if UpdateDue(o) || SharingDue(o) {
      DueChanges(w, i);
    } else {
      forall ch | Cooperative(ch)
        ensures Pass(w, ch) == w
      {
        hide Pass, Finished, UpdateDue, SharingDue;
        NothingDue(w, ch);
      }
    }
    hide Pass;
  }

  // ----- polling and cleanup

  /** The poll that finds a creation or an update done reports success for the generation it was asked for. */
  lemma SuccessLeaves(w: World, ch: Choice)
    requires AtRest(w) && Cooperative(ch) && w.obj.value.status.opUrl.Some? && w.obj.value.status.opUrl.value.kind != Delete
    requires SmStatus(w, w.obj.value.status.opUrl.value) == Some(Good)
    requires w.obj.value.status.id == Some(w.obj.value.status.opUrl.value.resource)
    ensures var w1 := Pass(w, ch);
      && w1.obj.Some? && var o := w.obj.value; var s := w1.obj.value.status;
      && OnlyLeft(w, w1, o.finalizer, s) && Succeeds(s, o.status.LastObserved()) && Unrecorded(s)
      && s.id == o.status.id && s.hash == o.status.hash && s.force == o.status.force && s.sharing == o.status.sharing
  {
    PassSucceeds(w, ch);
    hide Pass;
  }

  /** The poll that finds an update failed forgets the operation and reports the failure. */
  lemma FailureLeaves(w: World, ch: Choice)
    requires AtRest(w) && Cooperative(ch) && w.obj.value.status.opUrl.Some? && w.obj.value.status.opUrl.value.kind == Update
    requires SmStatus(w, w.obj.value.status.opUrl.value) == Some(Bad)
    ensures var w1 := Pass(w, ch);
      && w1.obj.Some? && var o := w.obj.value; var s := w1.obj.value.status;
      && OnlyLeft(w, w1, o.finalizer, s) && Falters(s, o.status.ready, false, o.gen, o.status.LastObserved()) && Unrecorded(s)
      && s.id == o.status.id && s.hash == o.status.hash && s.force == o.status.force && s.sharing == o.status.sharing
  {
    PassFails(w, ch);
    hide Pass;
  }

  /** The poll that finds a creation failed, or its cleanup, removes the instance: at once, or as a recorded operation. */
  lemma CleanupLeaves(w: World, ch: Choice, i: Id)
    requires AtRest(w) && Cooperative(ch) && w.obj.value.status.opUrl.Some? && w.obj.value.status.opUrl.value.kind != Update
    requires SmStatus(w, w.obj.value.status.opUrl.value) == Some(Bad)
    requires w.obj.value.status.id == Some(w.obj.value.status.opUrl.value.resource) && w.obj.value.status.id == Some(i) && i in w.insts
    ensures var w1 := Pass(w, ch);
      && w1.obj.Some? && var o := w.obj.value; var s := w1.obj.value.status;
      && Left(w, w1, o.finalizer, s) && Falters(s, o.status.ready, false, o.gen, o.status.LastObserved())
      && s.hash == o.status.hash && s.force == o.status.force && s.sharing == o.status.sharing
      && (if ch.async
          then s.id == Some(i) && Records(s, Delete, i, w.nextId) && w1.insts == w.insts[i := w.insts[i].(last := w.nextId)]
               && w1.ops == w.ops[w.nextId := Op(Delete, i, Running, w.insts[i].applied)]
          else s.id.None? && Unrecorded(s) && w1.insts == w.insts - {i} && w1.ops == w.ops)
  {
    PassCleans(w, ch);
    hide Pass;
  }

  /** The poll that finds the cleanup done forgets the instance and takes the finalizer off. */
  lemma ForgettingLeaves(w: World, ch: Choice)
    requires AtRest(w) && Cooperative(ch) && w.obj.value.status.opUrl.Some? && w.obj.value.status.opUrl.value.kind == Delete
    requires SmStatus(w, w.obj.value.status.opUrl.value) == Some(Good)
    ensures var w1 := Pass(w, ch);
      var s := w.obj.value.status;
      OnlyLeft(w, w1, false, s.(id := None, opUrl := None, opType := None, observed := s.LastObserved()))
  {
    PassForgets(w, ch);
    hide Pass;
  }

  /** A hash of the former kind is replaced, and nothing else is done. */
  lemma MigrationLeaves(w: World, ch: Choice)
    requires AtRest(w) && Cooperative(ch) && w.obj.value.status.opUrl.None? && w.obj.value.status.hash == Legacy
    ensures var o := w.obj.value;
      OnlyLeft(w, Pass(w, ch), o.finalizer, o.status.(hash := Of(o.spec), observed := o.status.LastObserved()))
  {
    PassMigrates(w, ch);
    hide Pass;
  }

  // ----- an instance that SM does not know

  /** The resource keeps the id of an instance SM no longer holds, and says nothing but that it is not ready. */
  lemma LossLeaves(w: World, ch: Choice)
    requires AtRest(w) && Cooperative(ch)
    requires var s := w.obj.value.status; s.opUrl.None? && s.hash != Legacy && s.id.Some? && s.id.value !in w.insts
    ensures var w1 := Pass(w, ch);
      var o := w.obj.value;
      OnlyLeft(w, w1, o.finalizer,
        o.status.(ready := false, succeeded := None, readyCond := Some(Cond(false, o.gen, false)), sharing := Absent, observed := 0))
  {
    var o := w.obj.value;
    PassBegins(w, ch);
    var w1 := Go(w, o, o.status, CheckExists);
    DrainStep(w1, ch, 7);
    assert AdvanceConnect(w, Proc(o, o.status, Connect), ch) == w1 by { hide Prepare; }
    assert Advance(w1, ch) == Finish(w, o, o.status, o.status.Missing(o.gen)) by { hide Prepare; }
    DrainSave(w, o, o.status, o.status.Missing(o.gen), ch, 6);
    hide Advance, AdvanceConnect, Drain, Prepare;
  }

  /** An operation that SM no longer knows is recorded for good, and reported as failed. */
  lemma UnknownLeaves(w: World, ch: Choice)
    requires AtRest(w) && Cooperative(ch) && w.obj.value.status.opUrl.Some? && SmStatus(w, w.obj.value.status.opUrl.value).None?
    ensures var w1 := Pass(w, ch);
      && w1.obj.Some? && var o := w.obj.value; var s := w1.obj.value.status;
      && OnlyLeft(w, w1, o.finalizer, s) && s.opUrl == o.status.opUrl && s.opType == o.status.opType && s.id == o.status.id
      && Falters(s, o.status.ready, false, o.gen, o.gen)
  {
    var o := w.obj.value;
    PassPolls(w, ch);
    DrainSave(w, o, o.status, o.status.Failure(o.gen, o.gen), ch, 6);
    hide Drain, Pass;
  }

  // ----- failed calls

  /** Sharing that SM rejects: an instance that cannot be shared is not tried again; any other is, under the next reconcile. */
  lemma SharingRejected(w: World, p: Proc, ch: Choice, last: Choice)
    requires w.proc == Some(p) && p.pc == ShareCall && p.c.status.id.Some? && Unchanged(w, p.c)
    requires ch.call == Rejected && !ch.throttled && last.call == Ok
    ensures var w1 := Advance(w, ch);
      && w1.proc.Some? && var w2 := Advance(w1, last);
      && w2.obj.Some? && w2.proc.None? && w2.insts == w.insts && w2.ops == w.ops
      && var s := w2.obj.value.status;
      && s.sharing == (if p.c.wanted != Some(true) then On else if ch.unsharable then Unsupported else Off)
      && s.id == p.c.status.id && s.ready == p.c.status.ready && s.hash == p.c.status.hash && s.force == p.c.status.force
      && s.opUrl == p.c.status.opUrl && s.opType == p.c.status.opType
      && (p.c.status.succeeded.Some? ==> s.succeeded == Some(p.c.status.succeeded.value.(gen := p.c.gen)))
      && (p.c.status.succeeded.None? ==> s.succeeded.None?)
  {
    var s := p.c.status.Aligned(if p.c.wanted != Some(true) then On else if ch.unsharable then Unsupported else Off, p.c.gen);
    var w1 := Finish(w, p.c, p.base, s);
    assert Advance(w, ch) == w1 by { hide SmShare; }
    assert Advance(w1, last) == Stop(PutStatus(w1, UpdateStatus(s))) by { hide PutStatus, Stop; }
    hide Advance;
  }

  /** A call whose rejection is reported in the status, for which operation, and whether as one under way. */
  predicate Reports(p: Proc, ch: Choice) {
    match p.pc
    case Connect => true
    case PollStatus => p.c.status.opUrl.Some?
    case CleanupCall => ch.throttled && p.c.status.id.Some?
    case DeleteQuery | Query | Provision => true
    case DeleteCall => p.c.status.id.Some?
    case UpdateCall => p.c.status.id.Some?
    case Build => ch.relabel || ch.flag
    case ShareCall => ch.throttled && p.c.status.id.Some?
    case _ => false
  }

  /** Whether the report is of an update under way. */
  predicate Retried(p: Proc, ch: Choice) {
    ch.throttled && (p.pc == UpdateCall || (p.pc == PollStatus && p.c.status.opUrl.Some? && p.c.status.opUrl.value.kind == Update))
  }

  /** The report, about to be saved. */
  predicate Told(w: World, w1: World, p: Proc, ch: Choice) {
    && w1.proc.Some? && var s := w1.proc.value.c.status;
    && w1 == w.(proc := Some(Proc(p.c.(status := s), p.base, Save)))
    && Falters(s, p.c.status.ready, Retried(p, ch), p.c.gen, p.c.gen)
    && s.id == p.c.status.id && s.opUrl == p.c.status.opUrl && s.opType == p.c.status.opType
    && s.force == p.c.status.force && s.sharing == p.c.status.sharing
    && s.hash == (if p.pc == UpdateCall then Of(p.c.spec) else p.c.status.hash)
  }

  lemma PollTold(w: World, p: Proc, ch: Choice)
    requires ch.call == Rejected && Reports(p, ch)
    ensures p.pc == Connect ==> Told(w, AdvanceConnect(w, p, ch), p, ch)
    ensures p.pc == PollStatus ==> Told(w, AdvancePollStatus(w, p, ch), p, ch)
    ensures p.pc == DeleteQuery ==> Told(w, AdvanceDeleteQuery(w, p, ch, Listed(w)), p, ch)
    ensures p.pc == Query ==> Told(w, AdvanceQuery(w, p, ch, Listed(w)), p, ch)
  {
    hide SmStatus, Prepare, Recovered;
  }

  lemma WorkTold(w: World, p: Proc, ch: Choice)
    requires ch.call == Rejected && Reports(p, ch)
    ensures p.pc == CleanupCall ==> Told(w, AdvanceCleanup(w, p, ch), p, ch)
    ensures p.pc == DeleteCall ==> Told(w, AdvanceDeleteCall(w, p, ch), p, ch)
    ensures p.pc == Provision ==> Told(w, AdvanceProvision(w, p, ch), p, ch)
    ensures p.pc == UpdateCall ==> Told(w, AdvanceUpdate(w, p, ch), p, ch)
  {
    hide SmDeprovision, SmProvision, SmUpdate, Busy;
  }

  lemma BuildTold(w: World, p: Proc, ch: Choice)
    requires ch.call == Rejected && Reports(p, ch)
    ensures p.pc == Build ==> Told(w, AdvanceBuild(w, p, ch), p, ch)
    ensures p.pc == ShareCall ==> Told(w, AdvanceShare(w, p, ch), p, ch)
  {
    hide SmShare, PutMeta;
  }

  lemma RejectionNext(w: World, p: Proc, ch: Choice)
    requires w.proc == Some(p) && ch.call == Rejected && Reports(p, ch)
    ensures Told(w, Advance(w, ch), p, ch)
  {
    PollTold(w, p, ch);
    WorkTold(w, p, ch);
    BuildTold(w, p, ch);
    hide Told, AdvanceConnect, AdvancePollStatus, AdvancePollFetch, AdvancePollRemoveFinalizer, AdvanceCleanup,
         AdvanceDeleteQuery, AdvanceDeleteCall, AdvanceDeleteRemoveFinalizer, AdvanceCheckExists, AdvanceInit, AdvanceAddFinalizer,
         AdvanceQuery, AdvanceBuild, AdvanceProvision, AdvanceUpdate, AdvanceShare, WriteStatus;
  }

  /**
   The rejection of a call is written into the status, which keeps the id, the operation, the flag and the Shared
   condition, and reports no success; after a rejected update it is the specification that was sent that is recorded.
   */
  lemma RejectionReported(w: World, p: Proc, ch: Choice, last: Choice)
    requires w.proc == Some(p) && Unchanged(w, p.c) && ch.call == Rejected && Reports(p, ch) && last.call == Ok
    ensures var w1 := Advance(w, ch);
      && w1.proc.Some? && var w2 := Advance(w1, last);
      && w2.obj.Some? && w2.proc.None? && w2.insts == w.insts && w2.ops == w.ops
      && var s := w2.obj.value.status;
      && Falters(s, p.c.status.ready, Retried(p, ch), p.c.gen, p.c.gen) && s.observed == p.c.gen
      && s.id == p.c.status.id && s.opUrl == p.c.status.opUrl && s.opType == p.c.status.opType
      && s.force == p.c.status.force && s.sharing == p.c.status.sharing
      && s.hash == (if p.pc == UpdateCall then Of(p.c.spec) else p.c.status.hash)
  {
    RejectionNext(w, p, ch);
    var w1 := Advance(w, ch);
    hide Reports, Retried;
    assert Advance(w1, last) == Stop(PutStatus(w1, UpdateStatus(w1.proc.value.c.status))) by { hide PutStatus, Stop; }
    hide Advance;
  }

  /** SM has deleted the instance and a watched secret cannot be unwatched: the reconcile ends, and the status still names it. */
  lemma UnwatchingFails(w: World, p: Proc, ch: Choice, i: Id)
    requires w.proc == Some(p) && p.pc == DeleteCall && p.c.status.id == Some(i) && ch.call == Ok && ch.flag
    requires ch.async ==> i !in w.insts
    ensures Advance(w, ch) == w.(insts := w.insts - {i}, proc := None)
  {
    assert i !in w.insts ==> w.insts - {i} == w.insts;
  }

  /** A read that is not answered ends the reconcile, and leaves both stores alone. */
  lemma UnreadEnds(w: World, p: Proc, ch: Choice)
    requires w.proc == Some(p) && (p.pc == PollFetch || p.pc == CheckExists) && ch.call != Ok
    ensures Advance(w, ch) == w.(proc := None)
  {
  }

  // ----- lost answers

  /** The two stores of `w1`, and the reconcile of `w2`. */
  predicate Mixes(w: World, w1: World, w2: World) {
    w.obj == w1.obj && w.insts == w1.insts && w.ops == w1.ops && w.proc == w2.proc
  }

  /** A call that writes to one of the two stores. */
  predicate Writes(p: Proc, ch: Choice) {
    match p.pc
    case CleanupCall | DirectSave | DeleteCall | DeleteSave | DeleteRemoveFinalizer | InitConditions | AddFinalizer
       | Provision | ShareCall | Save => true
    case PollRemoveFinalizer => p.c.finalizer
    case UpdateCall => true
    case Build => ch.relabel && !ch.flag
    case _ => false
  }

  lemma LostCleanups(w: World, p: Proc, ch: Choice)
    ensures Mixes(AdvanceCleanup(w, p, ch.(call := Lost)), AdvanceCleanup(w, p, ch.(call := Ok)), AdvanceCleanup(w, p, ch.(call := Rejected)))
    ensures Mixes(AdvanceDeleteCall(w, p, ch.(call := Lost)), AdvanceDeleteCall(w, p, ch.(call := Ok)),
                  AdvanceDeleteCall(w, p, ch.(call := Rejected)))
  {
  }

  lemma LostWrites(w: World, p: Proc, ch: Choice, status: Status, next: Option<Pc>)
    ensures Mixes(WriteStatus(w, p, ch.(call := Lost), status, next), WriteStatus(w, p, ch.(call := Ok), status, next),
                  WriteStatus(w, p, ch.(call := Rejected), status, next))
  {
  }

  lemma LostFinalizers(w: World, p: Proc, ch: Choice)
    ensures Mixes(AdvanceDeleteRemoveFinalizer(w, p, ch.(call := Lost)), AdvanceDeleteRemoveFinalizer(w, p, ch.(call := Ok)),
                  AdvanceDeleteRemoveFinalizer(w, p, ch.(call := Rejected)))
    ensures p.c.finalizer ==>
              Mixes(AdvancePollRemoveFinalizer(w, p, ch.(call := Lost)), AdvancePollRemoveFinalizer(w, p, ch.(call := Ok)),
                    AdvancePollRemoveFinalizer(w, p, ch.(call := Rejected)))
  {
  }

  lemma LostPreparations(w: World, p: Proc, ch: Choice)
    ensures Mixes(AdvanceInit(w, p, ch.(call := Lost)), AdvanceInit(w, p, ch.(call := Ok)), AdvanceInit(w, p, ch.(call := Rejected)))
    ensures Mixes(AdvanceAddFinalizer(w, p, ch.(call := Lost)), AdvanceAddFinalizer(w, p, ch.(call := Ok)),
                  AdvanceAddFinalizer(w, p, ch.(call := Rejected)))
  {
    hide Settle, Work;
  }

  lemma LostUpdates(w: World, p: Proc, ch: Choice)
    requires !ch.throttled
    ensures Mixes(AdvanceUpdate(w, p, ch.(call := Lost)), AdvanceUpdate(w, p, ch.(call := Ok)), AdvanceUpdate(w, p, ch.(call := Rejected)))
  {
  }

  lemma LostProvisions(w: World, p: Proc, ch: Choice)
    requires !ch.throttled
    ensures Mixes(AdvanceProvision(w, p, ch.(call := Lost)), AdvanceProvision(w, p, ch.(call := Ok)),
                  AdvanceProvision(w, p, ch.(call := Rejected)))
  {
  }

  lemma LostShares(w: World, p: Proc, ch: Choice)
    ensures Mixes(AdvanceShare(w, p, ch.(call := Lost)), AdvanceShare(w, p, ch.(call := Ok)), AdvanceShare(w, p, ch.(call := Rejected)))
  {
  }

  lemma LostBuilds(w: World, p: Proc, ch: Choice)
    requires ch.relabel && !ch.flag
    ensures Mixes(AdvanceBuild(w, p, ch.(call := Lost)), AdvanceBuild(w, p, ch.(call := Ok)), AdvanceBuild(w, p, ch.(call := Rejected)))
  {
  }

  /** A write whose answer is lost has all of its effect, and the reconcile goes on as if it had none. */
  lemma LostIsBoth(w: World, p: Proc, ch: Choice)
    requires w.proc == Some(p) && Writes(p, ch) && !ch.throttled
    ensures Mixes(Advance(w, ch.(call := Lost)), Advance(w, ch.(call := Ok)), Advance(w, ch.(call := Rejected)))
  {
    hide Mixes, AdvanceConnect, AdvancePollStatus, AdvancePollFetch, AdvancePollRemoveFinalizer, AdvanceCleanup,
         AdvanceDeleteQuery, AdvanceDeleteCall, AdvanceDeleteRemoveFinalizer, AdvanceCheckExists, AdvanceInit, AdvanceAddFinalizer,
         AdvanceQuery, AdvanceBuild, AdvanceProvision, AdvanceUpdate, AdvanceShare, WriteStatus;
    LostCleanups(w, p, ch);
    LostFinalizers(w, p, ch);
    LostPreparations(w, p, ch);
    LostUpdates(w, p, ch);
    LostProvisions(w, p, ch);
    LostShares(w, p, ch);
    match p.pc
    case DirectSave => LostWrites(w, p, ch, p.c.status, None);
    case DeleteSave => LostWrites(w, p, ch, p.c.status, Some(DeleteRemoveFinalizer));
    case Build => LostBuilds(w, p, ch);
    case Save => LostWrites(w, p, ch, UpdateStatus(p.c.status), None);
    case _ =>
  }
}
