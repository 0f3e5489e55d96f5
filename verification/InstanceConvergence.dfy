/**
 Convergence: with the specification left alone and an SM that answers and finishes its operations, the
 reconcile reaches a state in which it writes nothing any more.
 */
module InstanceConvergence {
  import opened Options
  import opened Remote
  import opened InstanceWorld
  import opened InstanceReconciler
  import opened InstanceInvariant
  import opened InstanceSteps
  import opened InstanceSafety

  /** Calls that are answered; whether SM works at once or later is left open. */
  predicate Cooperative(ch: Choice) {
    ch.call == Ok && !ch.flag
  }

  ghost function Drain(w: World, ch: Choice, fuel: nat): World
    decreases fuel
  {
    if w.proc.None? || fuel == 0 then w else Drain(Advance(w, ch), ch, fuel - 1)
  }

  /** One whole reconcile; none makes more than eight calls. */
  ghost function Pass(w: World, ch: Choice): World {
    if w.obj.None? then w else Drain(Begin(w), ch, 8)
  }

  /** SM finishes the operation it is busy with. */
  ghost function Settled(w: World): World {
    if i :| Busy(w, i) then SmFinish(w, i, true) else w
  }

  predicate Idle(w: World) {
    forall i :: i in w.insts ==> !Busy(w, i)
  }

  // ----- one pass, call by call

  lemma DrainStep(w: World, ch: Choice, fuel: nat)
    requires w.proc.Some? && fuel > 0
    ensures Drain(w, ch, fuel) == Drain(Advance(w, ch), ch, fuel - 1)
  {
    hide Advance;
  }

  lemma DrainEnd(w: World, ch: Choice, fuel: nat)
    requires w.proc.None?
    ensures Drain(w, ch, fuel) == w
  {
    hide Advance;
  }

  /** The last call of a pass: a status write against the current version. */
  lemma DrainSave(w: World, c: Instance, base: Status, status: Status, ch: Choice, fuel: nat)
    requires Unchanged(w, c) && Cooperative(ch) && fuel > 0
    ensures Drain(Finish(w, c, base, status), ch, fuel) == Stop(PutStatus(w, UpdateStatus(status)))
  {
    var w1 := Finish(w, c, base, status);
    DrainStep(w1, ch, fuel);
    DrainEnd(Stop(PutStatus(w1, UpdateStatus(status))), ch, fuel - 1);
  }

  /** A stored object about to be reconciled, at rest. */
  predicate AtRest(w: World) {
    w.proc.None? && w.obj.Some? && !w.obj.value.deleting
  }

  lemma PassBegins(w: World, ch: Choice)
    requires AtRest(w) && Cooperative(ch)
    ensures Pass(w, ch) == Drain(AdvanceConnect(w, Proc(w.obj.value, w.obj.value.status, Connect), ch), ch, 7)
  {
    var w1 := Begin(w);
    DrainStep(w1, ch, 8);
    assert Advance(w1, ch) == AdvanceConnect(w1, Proc(w.obj.value, w.obj.value.status, Connect), ch);
    ConnectApart(w, w1, Proc(w.obj.value, w.obj.value.status, Connect), ch);
  }

  lemma ConnectApart(w: World, w1: World, p: Proc, ch: Choice)
    requires w1 == w.(proc := w1.proc)
    requires ch.call == Ok && !p.c.deleting
    ensures AdvanceConnect(w1, p, ch) == AdvanceConnect(w, p, ch)
  {
    hide UpdateRequired, ShareRequired, Final;
  }

  /** The first call of a pass that neither polls nor migrates, and the look at the instance after it. */
  lemma PassPrepares(w: World, ch: Choice)
    requires AtRest(w) && Cooperative(ch) && w.obj.value.status.opUrl.None? && w.obj.value.status.hash != Legacy
    requires w.obj.value.status.id.Some? ==> w.obj.value.status.id.value in w.insts
    ensures Pass(w, ch) == Drain(Prepare(w, w.obj.value, w.obj.value.status), ch, if w.obj.value.status.id.Some? then 6 else 7)
  {
    hide Prepare;
    var o := w.obj.value;
    PassBegins(w, ch);
    if o.status.id.Some? {
      var w1 := Go(w, o, o.status, CheckExists);
      DrainStep(w1, ch, 7);
      PrepareApart(w, w1, o, o.status);
    }
  }

  /** Preparation looks at the copy alone, and always decides on the next call or on stopping. */
  lemma PrepareApart(w: World, w1: World, c: Instance, base: Status)
    requires w.proc.None? && w1 == w.(proc := w1.proc)
    ensures Prepare(w1, c, base) == Prepare(w, c, base)
  {
    hide UpdateRequired, ShareRequired, Final;
  }

  lemma PassMigrates(w: World, ch: Choice)
    requires AtRest(w) && Cooperative(ch) && w.obj.value.status.opUrl.None? && w.obj.value.status.hash == Legacy
    ensures Pass(w, ch) == PutStatus(w, UpdateStatus(w.obj.value.status.(hash := Of(w.obj.value.spec))))
  {
    var o := w.obj.value;
    PassBegins(w, ch);
    DrainSave(w, o, o.status, o.status.(hash := Of(o.spec)), ch, 7);
  }

  // ----- polling

  lemma PassPolls(w: World, ch: Choice)
    requires AtRest(w) && Cooperative(ch) && w.obj.value.status.opUrl.Some?
    ensures Pass(w, ch) == Drain(AdvancePollStatus(w, Proc(w.obj.value, w.obj.value.status, PollStatus), ch), ch, 6)
  {
    var o := w.obj.value;
    PassBegins(w, ch);
    var w1 := Go(w, o, o.status, PollStatus);
    DrainStep(w1, ch, 7);
    hide AdvanceConnect;
    PollApart(w, w1, Proc(o, o.status, PollStatus), ch);
  }

  lemma PollApart(w: World, w1: World, p: Proc, ch: Choice)
    requires w.proc.None? && w1 == w.(proc := w1.proc)
    ensures AdvancePollStatus(w1, p, ch) == AdvancePollStatus(w, p, ch)
  {
  }

  /** The status after a create or update has succeeded. */
  function Polled(o: Instance): Status {
    UpdateStatus(o.status.Success(o.status.LastObserved()).NoOperation())
  }

  lemma PassSucceeds(w: World, ch: Choice)
    requires AtRest(w) && Cooperative(ch) && w.obj.value.status.opUrl.Some? && w.obj.value.status.opUrl.value.kind != Delete
    requires SmStatus(w, w.obj.value.status.opUrl.value) == Some(Good)
    requires w.obj.value.status.id == Some(w.obj.value.status.opUrl.value.resource)
    ensures Pass(w, ch) == PutStatus(w, Polled(w.obj.value))
  {
    var o := w.obj.value;
    PassPolls(w, ch);
    var done := o.status.Success(o.status.LastObserved()).NoOperation();
    if o.status.opUrl.value.kind == Create {
      var w1 := Go(w, o, o.status, PollFetch);
      DrainStep(w1, ch, 6);
      DrainSave(w1, o, o.status, done, ch, 5);
    } else {
      DrainSave(w, o, o.status, done, ch, 6);
    }
  }

  /** A poll that finds the operation running, and writes only what SM describes. */
  function Waited(w: World, ch: Choice): World
    requires w.obj.Some? && w.obj.value.status.opUrl.Some?
  {
    var o := w.obj.value;
    if ch.described then
      PutStatus(w, UpdateStatus(o.status.InProgress(o.status.opUrl.value.kind, o.gen, o.status.LastObserved())))
    else w
  }

  lemma PassWaits(w: World, ch: Choice)
    requires AtRest(w) && Cooperative(ch) && w.obj.value.status.opUrl.Some?
    requires SmStatus(w, w.obj.value.status.opUrl.value) == Some(Running)
    ensures Pass(w, ch) == Waited(w, ch)
  {
    var o := w.obj.value;
    PassPolls(w, ch);
    if ch.described {
      DrainSave(w, o, o.status, o.status.InProgress(o.status.opUrl.value.kind, o.gen, o.status.LastObserved()), ch, 6);
    } else {
      DrainEnd(Stop(w), ch, 6);
    }
  }

  /** The status after an update has failed. */
  function Failed(o: Instance): Status {
    UpdateStatus(o.status.Failure(o.gen, o.status.LastObserved()).NoOperation())
  }

  lemma PassFails(w: World, ch: Choice)
    requires AtRest(w) && Cooperative(ch) && w.obj.value.status.opUrl.Some? && w.obj.value.status.opUrl.value.kind == Update
    requires SmStatus(w, w.obj.value.status.opUrl.value) == Some(Bad)
    ensures Pass(w, ch) == PutStatus(w, Failed(w.obj.value))
  {
    var o := w.obj.value;
    PassPolls(w, ch);
    DrainSave(w, o, o.status, o.status.Failure(o.gen, o.status.LastObserved()).NoOperation(), ch, 6);
  }

  /** What a failed create or cleanup leaves: the record of a new cleanup, or no instance. */
  function Cleaned(w: World, i: Id, async: bool): World
    requires w.obj.Some?
  {
    var o := w.obj.value;
    var failed := o.status.Failure(o.gen, o.status.LastObserved());
    var w1 := SmDeprovision(w, i, async);
    if async then PutStatus(w1, UpdateStatus(failed.Operating(OpUrl(Delete, i, w.nextId))))
    else PutStatus(w1, failed.NoOperation().(id := None))
  }

  lemma PassCleans(w: World, ch: Choice)
    requires AtRest(w) && Cooperative(ch) && w.obj.value.status.opUrl.Some? && w.obj.value.status.opUrl.value.kind != Update
    requires SmStatus(w, w.obj.value.status.opUrl.value) == Some(Bad)
    requires w.obj.value.status.id == Some(w.obj.value.status.opUrl.value.resource)
    ensures Pass(w, ch) == Cleaned(w, w.obj.value.status.id.value, ch.async)
  {
    var o := w.obj.value;
    var i := o.status.id.value;
    PassPolls(w, ch);
    var failed := o.status.Failure(o.gen, o.status.LastObserved());
    var w1 := Go(w, o.(status := failed), o.status, CleanupCall);
    DrainStep(w1, ch, 6);
    var w2 := SmDeprovision(w1, i, ch.async);
    if ch.async {
      DrainSave(w2, o.(status := failed), o.status, failed.Operating(OpUrl(Delete, i, w.nextId)), ch, 5);
    } else {
      var done := failed.NoOperation().(id := None);
      var w3 := Go(w2, o.(status := done), o.status, DirectSave);
      DrainStep(w3, ch, 5);
      DrainEnd(Stop(PutStatus(w3, done)), ch, 4);
    }
  }

  /** What a finished deletion leaves of a resource that is not itself being deleted. */
  function Forgotten(w: World): World
    requires w.obj.Some? && !w.obj.value.deleting
  {
    var w1 := if w.obj.value.finalizer then PutMeta(w, false) else w;
    PutStatus(w1, UpdateStatus(w.obj.value.status.(id := None).NoOperation()))
  }

  lemma PassForgets(w: World, ch: Choice)
    requires AtRest(w) && Cooperative(ch) && w.obj.value.status.opUrl.Some? && w.obj.value.status.opUrl.value.kind == Delete
    requires SmStatus(w, w.obj.value.status.opUrl.value) == Some(Good)
    ensures Pass(w, ch) == Forgotten(w)
  {
    var o := w.obj.value;
    PassPolls(w, ch);
    var w1 := Go(w, o, o.status, PollRemoveFinalizer);
    DrainStep(w1, ch, 6);
    var w2 := if o.finalizer then PutMeta(w1, false) else w1;
    DrainSave(w2, if o.finalizer then o.(finalizer := false, rv := w.clock) else o, o.status,
              o.status.(id := None).NoOperation(), ch, 5);
  }

  // ----- work on an instance that is there

  /** An instance that SM holds, with no operation recorded and its hash in the present format. */
  predicate Present(w: World) {
    && AtRest(w) && w.obj.value.finalizer
    && var s := w.obj.value.status;
    && s.opUrl.None? && s.hash != Legacy && s.readyCond.Some? && s.id.Some? && s.id.value in w.insts
  }

  /** The copy after isFinalState has filled in a missing hash. */
  function Filled(c: Instance): Instance {
    if c.status.ready && !c.status.force && c.gen == c.status.Seen() && c.status.hash == NoHash
    then c.(status := c.status.(hash := Of(c.spec))) else c
  }

  lemma PassSettles(w: World, ch: Choice)
    requires Present(w) && Cooperative(ch)
    ensures Pass(w, ch) == Drain(Settle(w, w.obj.value, w.obj.value.status), ch, 6)
  {
    PassPrepares(w, ch);
    hide Settle;
  }

  lemma PassFinal(w: World, ch: Choice)
    requires Present(w) && Cooperative(ch) && Final(w.obj.value)
    ensures Pass(w, ch) ==
            if w.obj.value.status.hash == NoHash then PutStatus(w, UpdateStatus(w.obj.value.status.(hash := Of(w.obj.value.spec)))) else w
  {
    var o := w.obj.value;
    PassSettles(w, ch);
    hide Final;
    if o.status.hash == NoHash {
      DrainSave(w, o, o.status, o.status.(hash := Of(o.spec)), ch, 6);
    } else {
      DrainEnd(Stop(w), ch, 6);
    }
  }

  lemma PassWorks(w: World, ch: Choice)
    requires Present(w) && Cooperative(ch) && !Final(w.obj.value)
    ensures Pass(w, ch) == Drain(Work(w, Filled(w.obj.value), w.obj.value.status), ch, 6)
  {
    PassSettles(w, ch);
    hide Final, Work;
  }

  lemma PassRests(w: World, ch: Choice)
    requires Present(w) && Cooperative(ch) && !Final(w.obj.value)
    requires !UpdateRequired(Filled(w.obj.value)) && !ShareRequired(w.obj.value)
    ensures Pass(w, ch) == w
  {
    PassWorks(w, ch);
    DrainEnd(Stop(w), ch, 6);
    hide Final, UpdateRequired;
  }

  function Relabelled(w: World, relabel: bool): World
    requires w.obj.Some?
  {
    if relabel then PutMeta(w, w.obj.value.finalizer) else w
  }

  /** What an update leaves. */
  function UpdatedTo(w: World, ch: Choice): World
    requires w.obj.Some? && w.obj.value.finalizer && w.obj.value.status.id.Some? && w.obj.value.status.id.value in w.insts
  {
    var o := w.obj.value;
    var i := o.status.id.value;
    var s := o.status.(hash := Of(o.spec));
    var w1 := SmUpdate(Relabelled(w, ch.relabel), i, o.spec, ch.async);
    if ch.async then
      PutStatus(w1, UpdateStatus(s.Operating(OpUrl(Update, i, w.nextId)).InProgress(Update, o.gen, o.gen).(force := false)))
    else PutStatus(w1, UpdateStatus(s.Success(o.gen).(force := false)))
  }

  lemma WorkUpdates(w: World)
    requires Present(w) && UpdateRequired(Filled(w.obj.value))
    ensures Work(w, Filled(w.obj.value), w.obj.value.status) == Go(w, Filled(w.obj.value), w.obj.value.status, Build)
  {
    hide UpdateRequired;
  }

  lemma BuildDrains(w: World, c: Instance, base: Status, ch: Choice)
    requires Cooperative(ch) && w.obj == Some(c.(status := base)) && c.finalizer && !c.deleting && c.status.id.Some? && base.id == c.status.id
    requires c.status == base.(hash := c.status.hash)
    ensures var w1 := Relabelled(w, ch.relabel);
      exists c1: Instance :: c1 == w1.obj.value.(status := c1.status) && c1.status == base.(hash := c1.status.hash)
                && Drain(Go(w, c, base, Build), ch, 6) == Drain(Go(w1, c1, base, UpdateCall), ch, 5)
  {
    var w0 := Go(w, c, base, Build);
    DrainStep(w0, ch, 6);
    if ch.relabel {
      var c1 := c.(rv := w.clock, status := base);
      assert Advance(w0, ch) == Go(Relabelled(w, true), c1, base, UpdateCall);
      assert c1 == Relabelled(w, true).obj.value.(status := c1.status);
    } else {
      assert Advance(w0, ch) == Go(w, c, base, UpdateCall);
      assert c == w.obj.value.(status := c.status);
    }
  }

  lemma UpdateDrains(w: World, c: Instance, base: Status, ch: Choice)
    requires Cooperative(ch) && w.obj == Some(c.(status := base)) && c.status.id.Some? && c.status == base.(hash := c.status.hash)
    requires c.status.id.value in w.insts && !Busy(w, c.status.id.value)
    ensures var i := c.status.id.value;
      var s := base.(hash := Of(c.spec));
      Drain(Go(w, c, base, UpdateCall), ch, 5) ==
        if ch.async then
          PutStatus(SmUpdate(w, i, c.spec, true),
                    UpdateStatus(s.Operating(OpUrl(Update, i, w.nextId)).InProgress(Update, c.gen, c.gen).(force := false))).(proc := None)
        else PutStatus(SmUpdate(w, i, c.spec, false), UpdateStatus(s.Success(c.gen).(force := false))).(proc := None)
  {
    var w0 := Go(w, c, base, UpdateCall);
    var i := c.status.id.value;
    var c1 := c.(status := c.status.(hash := Of(c.spec)));
    DrainStep(w0, ch, 5);
    var w1 := SmUpdate(w0, i, c.spec, ch.async);
    var s := if ch.async
      then c1.status.Operating(OpUrl(Update, i, w.nextId)).InProgress(Update, c.gen, c.gen).(force := false)
      else c1.status.Success(c.gen).(force := false);
    assert Advance(w0, ch) == Finish(w1, c1, base, s);
    DrainSave(w1, c1, base, s, ch, 4);
  }

  lemma PassUpdates(w: World, ch: Choice)
    requires Present(w) && Cooperative(ch) && !Final(w.obj.value) && UpdateRequired(Filled(w.obj.value))
    requires !Busy(w, w.obj.value.status.id.value)
    ensures Pass(w, ch) == UpdatedTo(w, ch)
  {
    var o := w.obj.value;
    PassWorks(w, ch);
    WorkUpdates(w);
    hide Final, UpdateRequired, Work;
    BuildDrains(w, Filled(o), o.status, ch);
    var w1 := Relabelled(w, ch.relabel);
    var c1: Instance :| c1 == w1.obj.value.(status := c1.status) && c1.status == o.status.(hash := c1.status.hash)
           && Drain(Go(w, Filled(o), o.status, Build), ch, 6) == Drain(Go(w1, c1, o.status, UpdateCall), ch, 5);
    UpdateDrains(w1, c1, o.status, ch);
  }

  /** What an update leaves that SM refuses because the instance is busy. */
  function RefusedTo(w: World, ch: Choice): World
    requires w.obj.Some? && w.obj.value.finalizer
  {
    var o := w.obj.value;
    var s := o.status.(hash := Of(o.spec));
    PutStatus(Relabelled(w, ch.relabel),
              UpdateStatus(if ch.throttled then s.InProgress(Update, o.gen, o.gen) else s.Failure(o.gen, o.gen)))
  }

  lemma RefusalDrains(w: World, c: Instance, base: Status, ch: Choice)
    requires Cooperative(ch) && w.obj == Some(c.(status := base)) && c.status.id.Some? && c.status == base.(hash := c.status.hash)
    requires Busy(w, c.status.id.value)
    ensures var s := base.(hash := Of(c.spec));
      Drain(Go(w, c, base, UpdateCall), ch, 5) ==
        PutStatus(w, UpdateStatus(if ch.throttled then s.InProgress(Update, c.gen, c.gen) else s.Failure(c.gen, c.gen))).(proc := None)
  {
    var w0 := Go(w, c, base, UpdateCall);
    var c1 := c.(status := c.status.(hash := Of(c.spec)));
    DrainStep(w0, ch, 5);
    var s := if ch.throttled then c1.status.InProgress(Update, c.gen, c.gen) else c1.status.Failure(c.gen, c.gen);
    assert Advance(w0, ch) == Finish(w, c1, base, s);
    DrainSave(w, c1, base, s, ch, 4);
  }

  lemma PassRefused(w: World, ch: Choice)
    requires Present(w) && Cooperative(ch) && !Final(w.obj.value) && UpdateRequired(Filled(w.obj.value))
    requires Busy(w, w.obj.value.status.id.value)
    ensures Pass(w, ch) == RefusedTo(w, ch)
  {
    var o := w.obj.value;
    PassWorks(w, ch);
    WorkUpdates(w);
    hide Final, UpdateRequired, Work;
    BuildDrains(w, Filled(o), o.status, ch);
    var w1 := Relabelled(w, ch.relabel);
    var c1: Instance :| c1 == w1.obj.value.(status := c1.status) && c1.status == o.status.(hash := c1.status.hash)
           && Drain(Go(w, Filled(o), o.status, Build), ch, 6) == Drain(Go(w1, c1, o.status, UpdateCall), ch, 5);
    RefusalDrains(w1, c1, o.status, ch);
  }

  /** What sharing or unsharing leaves. */
  function SharedTo(w: World): World
    requires w.obj.Some? && w.obj.value.status.id.Some?
  {
    var c := Filled(w.obj.value);
    var w1 := SmShare(w, c.status.id.value, c.wanted == Some(true));
    PutStatus(w1, UpdateStatus(
      if c.wanted == Some(true) then c.status.Aligned(On, c.gen)
      else if c.wanted.Some? then c.status.Aligned(Off, c.gen)
      else c.status.(sharing := Absent)))
  }

  lemma PassShares(w: World, ch: Choice)
    requires Present(w) && Cooperative(ch) && !Final(w.obj.value)
    requires !UpdateRequired(Filled(w.obj.value)) && ShareRequired(w.obj.value)
    ensures Pass(w, ch) == SharedTo(w)
  {
    var o := w.obj.value;
    var c := Filled(o);
    PassWorks(w, ch);
    assert ShareRequired(c) && c.status.id == o.status.id;
    assert Work(w, c, o.status) == Go(w, c, o.status, ShareCall) by { hide UpdateRequired; }
    hide Final, UpdateRequired, ShareRequired, Work, Filled;
    assert c == o.(status := c.status) by { FilledSame(o); }
    var w0 := Go(w, c, o.status, ShareCall);
    DrainStep(w0, ch, 6);
    var w1 := SmShare(w0, c.status.id.value, c.wanted == Some(true));
    var s := if c.wanted == Some(true) then c.status.Aligned(On, c.gen)
      else if c.wanted.Some? then c.status.Aligned(Off, c.gen) else c.status.(sharing := Absent);
    DrainSave(w1, c, o.status, s, ch, 5);
  }

  lemma FilledSame(o: Instance)
    ensures Filled(o) == o.(status := Filled(o).status)
  {
  }

  // ----- creation and recovery

  /** No instance named, no operation recorded, and the hash in the present format. */
  predicate Unnamed(w: World) {
    && AtRest(w)
    && var s := w.obj.value.status;
    && s.opUrl.None? && s.hash != Legacy && s.id.None? && !s.ready && (s.succeeded.Some? ==> s.readyCond.Some?)
  }

  predicate NoConditions(s: Status) {
    s.succeeded.None? && s.readyCond.None? && s.sharing == Absent
  }

  /** With its first conditions and its finalizer stored. */
  function Prepared(w: World): World
    requires w.obj.Some?
  {
    var o := w.obj.value;
    var w1 := if NoConditions(o.status) then PutStatus(w, UpdateStatus(o.status.(ready := false).InProgress(Create, o.gen, o.gen))) else w;
    if o.finalizer then w1 else PutMeta(w1, true)
  }

  /** Writes of the preparation leave the rest of the object alone. */
  lemma PreparedSame(w: World)
    requires Unnamed(w)
    ensures var w1 := Prepared(w);
      && w1.obj.Some? && w1.insts == w.insts && w1.ops == w.ops && w1.nextId == w.nextId && w1.proc.None?
      && var o := w1.obj.value;
      && o.finalizer && !o.deleting && o.gen == w.obj.value.gen && o.spec == w.obj.value.spec && o.wanted == w.obj.value.wanted
      && o.subscribed == w.obj.value.subscribed
      && o.status.id.None? && o.status.opUrl.None? && o.status.opType == w.obj.value.status.opType && !o.status.ready
      && o.status.hash == w.obj.value.status.hash && o.status.sharing == w.obj.value.status.sharing
      && o.status.force == w.obj.value.status.force
  {
  }

  lemma SettleDrains(w: World, ch: Choice, fuel: nat)
    requires Cooperative(ch) && AtRest(w) && fuel >= 6 && !w.obj.value.status.ready && w.obj.value.status.id.None?
    ensures var w1 := if w.obj.value.finalizer then w else PutMeta(w, true);
      Drain(Settle(w, w.obj.value, w.obj.value.status), ch, fuel) ==
        Drain(Go(w1, w1.obj.value, w1.obj.value.status, Query), ch, if w.obj.value.finalizer then fuel else fuel - 1)
  {
    var o := w.obj.value;
    if o.finalizer {
      assert Settle(w, o, o.status) == Go(w, o, o.status, Query);
    } else {
      var w0 := Go(w, o, o.status, AddFinalizer);
      assert Settle(w, o, o.status) == w0;
      DrainStep(w0, ch, fuel);
      var w1 := PutMeta(w, true);
      assert Advance(w0, ch) == Go(w1, w1.obj.value, w1.obj.value.status, Query);
    }
  }

  /** The calls left to a pass when it queries SM. */
  function QueryFuel(o: Instance): nat {
    7 - (if NoConditions(o.status) then 1 else 0) - (if o.finalizer then 0 else 1)
  }

  lemma PassQueries(w: World, ch: Choice)
    requires Unnamed(w) && Cooperative(ch)
    ensures var w1 := Prepared(w);
      Pass(w, ch) == Drain(Go(w1, w1.obj.value, w1.obj.value.status, Query), ch, QueryFuel(w.obj.value))
  {
    hide Settle;
    var o := w.obj.value;
    PassPrepares(w, ch);
    if NoConditions(o.status) {
      var w0 := Go(w, o, o.status, InitConditions);
      DrainStep(w0, ch, 7);
      var s := UpdateStatus(o.status.(ready := false).InProgress(Create, o.gen, o.gen));
      var w1 := PutStatus(w, s);
      SettleApart(w1, PutStatus(w0, s), w1.obj.value, s);
      assert Advance(w0, ch) == Settle(w1, w1.obj.value, s);
      SettleDrains(w1, ch, 6);
    } else {
      SettleDrains(w, ch, 7);
    }
  }

  lemma SettleApart(w: World, w1: World, c: Instance, base: Status)
    requires w.proc.None? && w1 == w.(proc := w1.proc)
    ensures Settle(w1, c, base) == Settle(w, c, base)
  {
    hide UpdateRequired, ShareRequired, Final;
  }

  /** The only instance SM holds is the one recovery lists. */
  lemma ListedOnly(w: World, i: Id)
    requires i in w.insts && forall j :: j in w.insts ==> j == i
    ensures Listed(w) == Some(i)
  {
  }

  lemma PassRecovers(w: World, ch: Choice, i: Id)
    requires Unnamed(w) && Cooperative(ch) && i in w.insts && forall j :: j in w.insts ==> j == i
    ensures var w1 := Prepared(w);
      Pass(w, ch) == PutStatus(w1, UpdateStatus(Recovered(w1, w1.obj.value, i)))
  {
    PassQueries(w, ch);
    PreparedSame(w);
    var w1 := Prepared(w);
    hide Prepared, Recovered;
    var k := QueryFuel(w.obj.value);
    hide Pass;
    var w2 := Go(w1, w1.obj.value, w1.obj.value.status, Query);
    DrainStep(w2, ch, k);
    ListedOnly(w2, i);
    RecoveredApart(w1, w2, w1.obj.value, i);
    DrainSave(w1, w1.obj.value, w1.obj.value.status, Recovered(w1, w1.obj.value, i), ch, k - 1);
  }

  lemma RecoveredApart(w: World, w1: World, c: Instance, i: Id)
    requires w1.insts == w.insts && w1.ops == w.ops && i in w.insts
    ensures Recovered(w1, c, i) == Recovered(w, c, i)
  {
  }

  /** What a creation leaves. */
  function CreatedTo(w: World, ch: Choice): World
    requires w.obj.Some?
  {
    var o := w.obj.value;
    var s := (if ch.relabel then o.status else o.status.(hash := Of(o.spec))).(id := Some(w.nextId));
    var w1 := SmProvision(Relabelled(w, ch.relabel), o.spec, ch.async);
    if w1.obj.None? then w1
    else if ch.async then PutStatus(w1, UpdateStatus(s.Operating(OpUrl(Create, w.nextId, w.nextId)).InProgress(Create, o.gen, o.gen)))
    else PutStatus(w1, UpdateStatus(s.Success(o.gen)))
  }

  lemma ProvisionDrains(w: World, c: Instance, base: Status, ch: Choice, fuel: nat)
    requires Cooperative(ch) && w.obj == Some(c.(status := base)) && fuel >= 2
    ensures var s := c.status.(id := Some(w.nextId));
      Drain(Go(w, c, base, Provision), ch, fuel) ==
        if ch.async then
          PutStatus(SmProvision(w, c.spec, true),
                    UpdateStatus(s.Operating(OpUrl(Create, w.nextId, w.nextId)).InProgress(Create, c.gen, c.gen))).(proc := None)
        else PutStatus(SmProvision(w, c.spec, false), UpdateStatus(s.Success(c.gen))).(proc := None)
  {
    var w0 := Go(w, c, base, Provision);
    DrainStep(w0, ch, fuel);
    var s := c.status.(id := Some(w.nextId));
    var w1 := SmProvision(w0, c.spec, ch.async);
    DrainSave(w1, c, base, if ch.async then s.Operating(OpUrl(Create, w.nextId, w.nextId)).InProgress(Create, c.gen, c.gen) else s.Success(c.gen), ch, fuel - 1);
  }

  lemma PassCreates(w: World, ch: Choice)
    requires Unnamed(w) && Cooperative(ch) && w.insts == map[]
    ensures Pass(w, ch) == CreatedTo(Prepared(w), ch)
  {
    PassQueries(w, ch);
    PreparedSame(w);
    var w1 := Prepared(w);
    hide Prepared;
    var k := QueryFuel(w.obj.value);
    hide Pass;
    CreationDrains(w1, ch, k);
  }

  lemma CreationDrains(w: World, ch: Choice, fuel: nat)
    requires Cooperative(ch) && w.obj.Some? && w.insts == map[] && fuel >= 5
    requires w.obj.value.finalizer && !w.obj.value.deleting && w.obj.value.status.id.None?
    ensures Drain(Go(w, w.obj.value, w.obj.value.status, Query), ch, fuel) == CreatedTo(w, ch).(proc := None)
  {
    var o := w.obj.value;
    var w2 := Go(w, o, o.status, Query);
    var c := o.(status := o.status.(hash := Of(o.spec)));
    var w3 := Go(w, c, o.status, Build);
    DrainStep(w2, ch, fuel);
    assert Advance(w2, ch) == w3 by { assert Listed(w2).None?; }
    DrainStep(w3, ch, fuel - 1);
    assert Advance(w3, ch) ==
           if ch.relabel then Go(PutMeta(w, true), o.(rv := w.clock), o.status, Provision) else Go(w, c, o.status, Provision);
    hide Advance, Drain;
    if ch.relabel {
      ProvisionDrains(PutMeta(w, true), o.(rv := w.clock), o.status, ch, fuel - 2);
    } else {
      ProvisionDrains(w, c, o.status, ch, fuel - 2);
    }
  }
}
