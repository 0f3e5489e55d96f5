/** A rank that every pass over an idle instance lowers until nothing is left to do. */
module InstanceRank {
  import opened Options
  import opened Remote
  import opened InstanceWorld
  import opened InstanceReconciler
  import opened InstanceInvariant
  import opened InstanceSteps
  import opened InstanceSafety
  import opened InstanceConvergence

  // ----- the hypotheses

  /** SM still holds the instance that the status names, and is not deleting it behind its back. */
  predicate Known(w: World)
    requires w.obj.Some?
  {
    var s := w.obj.value.status;
    s.id.Some? && (s.opUrl.None? || s.opUrl.value.kind != Delete) ==>
      s.id.value in w.insts && !(Busy(w, s.id.value) && w.ops[w.insts[s.id.value].last].kind == Delete)
  }

  /** The Shared condition differs from what the specification asks for. */
  predicate Mismatch(o: Instance) {
    match o.status.sharing
    case Absent => o.wanted == Some(true)
    case Unsupported => false
    case Off => o.wanted == Some(true)
    case On => o.wanted != Some(true)
  }

  /** No subscription stands before a sharing that is still to be done. */
  predicate Agreed(w: World)
    requires w.obj.Some?
  {
    !(w.obj.value.subscribed && Mismatch(w.obj.value))
  }

  /** At rest, with an instance that SM knows. */
  ghost predicate Resting(w: World) {
    Inv(w) && AtRest(w) && Known(w)
  }

  /** What no pass changes: the specification, and behind a subscription the Shared condition. */
  predicate Kept(w: World, w1: World)
    requires w.obj.Some? && w1.obj.Some?
  {
    var o, o1 := w.obj.value, w1.obj.value;
    && o1.subscribed == o.subscribed && o1.wanted == o.wanted
    && (o.subscribed ==> o1.status.sharing == o.status.sharing)
  }

  // ----- the rank

  /** Work left on an instance that is there, its hash in the present format. */
  function WorkRank(o: Instance): nat {
    if Final(o) then (if o.status.hash == NoHash then 1 else 0)
    else if UpdateRequired(Filled(o)) then 3
    else if ShareRequired(o) then 1
    else 0
  }

  function IdleRank(o: Instance): nat {
    if o.status.hash == Legacy then 1 + WorkRank(o.(status := UpdateStatus(o.status.(hash := Of(o.spec))))) else WorkRank(o)
  }

  function Rank(w: World): nat
    requires w.obj.Some?
  {
    var o := w.obj.value;
    var s := o.status;
    if s.opUrl.Some? then
      if s.opUrl.value.kind == Delete then (if SmStatus(w, s.opUrl.value) == Some(Good) then 11 else 13)
      else if SmStatus(w, s.opUrl.value) == Some(Good) then 1 + IdleRank(o.(status := Polled(o)))
      else if s.opUrl.value.kind == Update then 1 + IdleRank(o.(status := Failed(o)))
      else 13
    else if s.id.None? then (if s.hash == Legacy then 10 else 9)
    else IdleRank(o)
  }

  /** A pass from `w` to `w1` that writes and, unless a subscription stands in the way, leaves less to do. */
  ghost predicate Lowers(w: World, w1: World)
    requires w.obj.Some?
  {
    && AtRest(w1) && Known(w1) && Kept(w, w1) && w1.clock > w.clock
    && (Agreed(w) ==> Rank(Settled(w1)) < Rank(w))
  }

  lemma RankBounds(o: Instance)
    ensures WorkRank(o) <= 3 && IdleRank(o) <= 4
  {
  }

  // ----- what a resting world offers

  lemma RestFacts(w: World)
    requires Inv(w) && AtRest(w)
    ensures SmOk(w) && StatusShape(w.obj.value.status, false) && Recorded(w, w.obj.value.status) && Holds(w, w.obj.value.status, false)
    ensures w.insts != map[] ==> w.obj.value.finalizer
    ensures w.obj.value.status.observed == w.obj.value.status.LastObserved() <= w.obj.value.gen
  {
    hide SmOk, StatusShape, Recorded, Holds;
  }

  lemma DrainInv(w: World, ch: Choice, fuel: nat)
    requires Inv(w)
    ensures Inv(Drain(w, ch, fuel))
    decreases fuel
  {
    hide Inv, Advance;
    if w.proc.Some? && fuel > 0 {
      StepKeeps(w, Call(ch));
      DrainInv(Advance(w, ch), ch, fuel - 1);
    }
  }

  lemma PassInv(w: World, ch: Choice)
    requires Inv(w) && AtRest(w)
    ensures Inv(Pass(w, ch))
  {
    hide Inv, Drain, Begin;
    StepKeeps(w, Start);
    DrainInv(Begin(w), ch, 8);
  }

  // ----- SM settles

  lemma SettledIs(w: World, i: Id)
    requires SmOk(w) && Busy(w, i)
    ensures Settled(w) == SmFinish(w, i, true)
  {
  }

  lemma SettledIdle(w: World)
    requires Idle(w)
    ensures Settled(w) == w
  {
  }

  lemma SettledFacts(w: World)
    requires Resting(w)
    ensures Resting(Settled(w)) && Idle(Settled(w))
    ensures w.obj.Some? && Settled(w).obj == w.obj
  {
    hide Inv, Settled, Known, Idle, SmOk, StatusShape, Recorded, Holds, Busy;
    RestFacts(w);
    if i :| Busy(w, i) {
      SettledIs(w, i);
      StepKeeps(w, Operate(i, true));
      FinishKnown(w, i);
      FinishIdle(w, i);
    } else {
      assert Idle(w) by { NobodyBusy(w); }
      SettledIdle(w);
    }
  }

  lemma NobodyBusy(w: World)
    requires forall i :: !Busy(w, i)
    ensures Idle(w)
  {
    hide Busy;
  }

  lemma FinishIdle(w: World, i: Id)
    requires SmOk(w) && AtRest(w) && Busy(w, i)
    ensures Idle(SmFinish(w, i, true)) && AtRest(SmFinish(w, i, true)) && SmFinish(w, i, true).obj == w.obj
  {
  }

  lemma FinishKnown(w: World, i: Id)
    requires SmOk(w) && w.obj.Some? && Known(w) && Holds(w, w.obj.value.status, false) && Busy(w, i)
    ensures Known(SmFinish(w, i, true))
  {
  }

  // ----- one lemma per phase

  lemma MigrateRank(w: World, ch: Choice)
    requires Resting(w) && Idle(w) && Cooperative(ch)
    requires w.obj.value.status.opUrl.None? && w.obj.value.status.hash == Legacy
    ensures Lowers(w, Pass(w, ch))
  {
    PassMigrates(w, ch);
    hide Inv, Pass, Final, UpdateRequired, ShareRequired, WorkRank;
    var w1 := PutStatus(w, UpdateStatus(w.obj.value.status.(hash := Of(w.obj.value.spec))));
    assert Idle(w1);
    SettledIdle(w1);
    assert WorkRank(w1.obj.value) == WorkRank(w1.obj.value.(rv := w.obj.value.rv)) by { WorkRankVersion(w1.obj.value, w.obj.value.rv); }
  }

  /** The resource version plays no part. */
  lemma WorkRankVersion(o: Instance, rv: nat)
    ensures WorkRank(o) == WorkRank(o.(rv := rv))
    ensures IdleRank(o) == IdleRank(o.(rv := rv))
  {
  }

  lemma SuccessRank(w: World, ch: Choice)
    requires Resting(w) && Idle(w) && Cooperative(ch)
    requires w.obj.value.status.opUrl.Some? && w.obj.value.status.opUrl.value.kind != Delete
    requires SmStatus(w, w.obj.value.status.opUrl.value) == Some(Good)
    ensures Lowers(w, Pass(w, ch))
  {
    RestFacts(w);
    hide Inv, Pass, Final, UpdateRequired, ShareRequired, WorkRank, IdleRank;
    PassSucceeds(w, ch);
    var w1 := PutStatus(w, Polled(w.obj.value));
    assert Idle(w1);
    SettledIdle(w1);
    WorkRankVersion(w1.obj.value, w.obj.value.rv);
  }

  lemma FailureRank(w: World, ch: Choice)
    requires Resting(w) && Idle(w) && Cooperative(ch)
    requires w.obj.value.status.opUrl.Some? && w.obj.value.status.opUrl.value.kind == Update
    requires SmStatus(w, w.obj.value.status.opUrl.value) == Some(Bad)
    ensures Lowers(w, Pass(w, ch))
  {
    RestFacts(w);
    hide Inv, Pass, Final, UpdateRequired, ShareRequired, WorkRank, IdleRank;
    PassFails(w, ch);
    var w1 := PutStatus(w, Failed(w.obj.value));
    assert Idle(w1);
    SettledIdle(w1);
    WorkRankVersion(w1.obj.value, w.obj.value.rv);
  }

  lemma ForgetRank(w: World, ch: Choice)
    requires Resting(w) && Idle(w) && Cooperative(ch)
    requires w.obj.value.status.opUrl.Some? && w.obj.value.status.opUrl.value.kind == Delete
    requires SmStatus(w, w.obj.value.status.opUrl.value) == Some(Good)
    ensures Lowers(w, Pass(w, ch))
  {
    hide Inv, Pass;
    PassForgets(w, ch);
    var w1 := Forgotten(w);
    assert Idle(w1);
    SettledIdle(w1);
  }

  lemma CleanRank(w: World, ch: Choice)
    requires Resting(w) && Idle(w) && Cooperative(ch)
    requires w.obj.value.status.opUrl.Some? && w.obj.value.status.opUrl.value.kind != Update
    requires SmStatus(w, w.obj.value.status.opUrl.value) == Some(Bad)
    ensures Lowers(w, Pass(w, ch))
  {
    RestFacts(w);
    hide Inv, Pass;
    PassCleans(w, ch);
    var i := w.obj.value.status.id.value;
    var w1 := Cleaned(w, i, ch.async);
    assert Rank(w) == 13;
    if ch.async {
      assert Busy(w1, i);
      assert Settled(w1) == SmFinish(w1, i, true) by { CleanedOnly(w, i); }
      assert i !in SmFinish(w1, i, true).insts;
    } else {
      assert w1.insts == map[];
      SettledIdle(w1);
    }
  }

  lemma CleanedOnly(w: World, i: Id)
    requires w.obj.Some? && SmOk(w) && i in w.insts
    ensures Settled(Cleaned(w, i, true)) == SmFinish(Cleaned(w, i, true), i, true)
  {
    var w1 := Cleaned(w, i, true);
    assert Busy(w1, i);
    assert forall j :: Busy(w1, j) ==> j == i;
  }

  /** An instance at rest that names what SM holds is ready to be worked on. */
  lemma PresentFacts(w: World)
    requires Resting(w) && w.obj.value.status.opUrl.None? && w.obj.value.status.id.Some?
    requires w.obj.value.status.hash != Legacy
    ensures Present(w)
  {
    RestFacts(w);
    hide Inv;
  }

  lemma FinalRank(w: World, ch: Choice)
    requires Resting(w) && Idle(w) && Cooperative(ch) && Present(w) && Final(w.obj.value)
    ensures if Rank(w) == 0 then Pass(w, ch) == w else Lowers(w, Pass(w, ch))
  {
    hide Inv, Pass;
    PassFinal(w, ch);
    var o := w.obj.value;
    if o.status.hash == NoHash {
      var w1 := PutStatus(w, UpdateStatus(o.status.(hash := Of(o.spec))));
      assert Idle(w1);
      SettledIdle(w1);
    }
  }

  /** After a success for the present generation at most sharing is left. */
  lemma AfterSuccess(o: Instance)
    requires o.status.ready && !o.status.force && o.gen == o.status.Seen() && o.status.hash == Of(o.spec)
    requires o.status.succeeded.Some? ==> !o.status.succeeded.value.updating
    requires o.subscribed ==> !Mismatch(o)
    ensures IdleRank(o) <= 1
  {
  }

  lemma UpdateRank(w: World, ch: Choice)
    requires Resting(w) && Idle(w) && Cooperative(ch) && Present(w)
    requires !Final(w.obj.value) && UpdateRequired(Filled(w.obj.value))
    ensures Lowers(w, Pass(w, ch))
  {
    RestFacts(w);
    PassUpdates(w, ch);
    assert Rank(w) == 3;
    hide Inv, Pass, Final, UpdateRequired, ShareRequired, WorkRank;
    var i := w.obj.value.status.id.value;
    var w1 := UpdatedTo(w, ch);
    if ch.async {
      UpdatedBusy(w, ch);
      var w2 := SmFinish(w1, i, true);
      if Agreed(w) {
        AfterSuccess(w2.obj.value.(status := Polled(w2.obj.value)));
      }
      hide IdleRank;
      assert SmStatus(w2, w2.obj.value.status.opUrl.value) == Some(Good);
    } else {
      assert forall j :: j in w1.insts ==> !Busy(w1, j);
      SettledIdle(w1);
      if Agreed(w) {
        AfterSuccess(w1.obj.value);
      }
    }
  }

  lemma UpdatedBusy(w: World, ch: Choice)
    requires Present(w) && SmOk(w) && ch.async
    ensures var i := w.obj.value.status.id.value;
      Busy(UpdatedTo(w, ch), i) && Settled(UpdatedTo(w, ch)) == SmFinish(UpdatedTo(w, ch), i, true)
  {
    var i := w.obj.value.status.id.value;
    var w1 := UpdatedTo(w, ch);
    assert Busy(w1, i);
    assert forall j :: Busy(w1, j) ==> j == i;
  }

  /** After sharing nothing is left. */
  lemma AfterSharing(o: Instance)
    requires !o.subscribed && !o.status.force && o.status.hash == Of(o.spec) && !Mismatch(o)
    requires o.status.succeeded.Some? ==> !o.status.succeeded.value.updating
    ensures IdleRank(o) == 0
  {
  }

  lemma ShareRank(w: World, ch: Choice)
    requires Resting(w) && Idle(w) && Cooperative(ch) && Present(w)
    requires !Final(w.obj.value) && !UpdateRequired(Filled(w.obj.value)) && ShareRequired(w.obj.value)
    ensures Lowers(w, Pass(w, ch))
  {
    PassShares(w, ch);
    assert Rank(w) == 1;
    hide Inv, Pass, Final;
    var w1 := SharedTo(w);
    assert forall j :: j in w1.insts ==> !Busy(w1, j);
    SettledIdle(w1);
    AfterSharing(w1.obj.value);
    hide WorkRank, IdleRank, UpdateRequired, ShareRequired;
  }

  lemma RestRank(w: World, ch: Choice)
    requires Resting(w) && Idle(w) && Cooperative(ch) && Present(w)
    requires !Final(w.obj.value) && !UpdateRequired(Filled(w.obj.value)) && !ShareRequired(w.obj.value)
    ensures Pass(w, ch) == w && Rank(w) == 0
  {
    PassRests(w, ch);
    hide Inv, Pass, Final, UpdateRequired, ShareRequired;
  }

  lemma UnnamedFacts(w: World)
    requires Resting(w) && w.obj.value.status.opUrl.None? && w.obj.value.status.id.None? && w.obj.value.status.hash != Legacy
    ensures Unnamed(w) && Rank(w) == 9
  {
    RestFacts(w);
    hide Inv;
  }

  lemma CreatedNow(w: World, ch: Choice)
    requires AtRest(w) && w.insts == map[] && w.obj.value.status.opUrl.None? && !ch.async
    ensures var w1 := CreatedTo(w, ch); AtRest(w1) && Known(w1) && Rank(Settled(w1)) <= 4
  {
    hide WorkRank, IdleRank;
    var w1 := CreatedTo(w, ch);
    assert w1.obj.value.status.opUrl.None? && w1.obj.value.status.id == Some(w.nextId);
    assert Idle(w1);
    SettledIdle(w1);
    RankBounds(w1.obj.value);
  }

  lemma CreatedLater(w: World, ch: Choice)
    requires AtRest(w) && w.insts == map[] && ch.async
    ensures var w1 := CreatedTo(w, ch); AtRest(w1) && Known(w1) && Rank(Settled(w1)) <= 5
  {
    hide WorkRank, IdleRank;
    var w1 := CreatedTo(w, ch);
    var i := w.nextId;
    assert Busy(w1, i) && forall j :: Busy(w1, j) ==> j == i;
    var w2 := SmFinish(w1, i, true);
    assert Settled(w1) == w2;
    RankBounds(w2.obj.value.(status := Polled(w2.obj.value)));
    assert SmStatus(w2, w2.obj.value.status.opUrl.value) == Some(Good);
  }

  lemma CreatedKept(w: World, ch: Choice)
    requires w.obj.Some? && !w.obj.value.deleting
    ensures CreatedTo(w, ch).obj.Some? && Kept(w, CreatedTo(w, ch)) && CreatedTo(w, ch).clock > w.clock
  {
  }

  lemma PreparedKept(w: World)
    requires Unnamed(w)
    ensures Prepared(w).obj.Some? && Kept(w, Prepared(w)) && Prepared(w).clock >= w.clock
  {
  }

  lemma CreateRank(w: World, ch: Choice)
    requires Resting(w) && Idle(w) && Cooperative(ch) && w.insts == map[]
    requires w.obj.value.status.opUrl.None? && w.obj.value.status.id.None? && w.obj.value.status.hash != Legacy
    ensures Lowers(w, Pass(w, ch))
  {
    UnnamedFacts(w);
    PassCreates(w, ch);
    PreparedSame(w);
    PreparedKept(w);
    var w0 := Prepared(w);
    hide Inv, Pass, Prepared, Rank, Known, CreatedTo, Agreed, Unnamed, Settled, Idle;
    CreatedKept(w0, ch);
    if ch.async {
      CreatedLater(w0, ch);
    } else {
      CreatedNow(w0, ch);
    }
  }

  lemma RecoveredStatus(w: World, i: Id)
    requires w.obj.Some? && SmOk(w) && i in w.insts && w.ops[w.insts[i].last].kind == Create && !w.insts[i].shared
    requires w.obj.value.status.id.None? && w.obj.value.status.opUrl.None?
    ensures var s := Recovered(w, w.obj.value, i);
      && s.id == Some(i) && s.sharing == w.obj.value.status.sharing
      && s.opUrl == if Busy(w, i) then Some(OpUrl(Create, i, w.insts[i].last)) else None
  {
  }

  lemma RecoverRank(w: World, ch: Choice, i: Id)
    requires Resting(w) && Idle(w) && Cooperative(ch) && i in w.insts
    requires w.obj.value.status.opUrl.None? && w.obj.value.status.id.None? && w.obj.value.status.hash != Legacy
    ensures Lowers(w, Pass(w, ch))
  {
    RestFacts(w);
    UnnamedFacts(w);
    PassRecovers(w, ch, i);
    PreparedSame(w);
    PreparedKept(w);
    hide Inv, Pass, Prepared, WorkRank, IdleRank, UpdateRequired, ShareRequired, Final;
    var w0 := Prepared(w);
    RecoveredStatus(w0, i);
    hide Recovered;
    var w1 := PutStatus(w0, UpdateStatus(Recovered(w0, w0.obj.value, i)));
    assert Idle(w1);
    SettledIdle(w1);
    RankBounds(w1.obj.value);
  }

  // ----- all phases

  /** A pass over an idle instance either has nothing to do or lowers the rank. */
  lemma IdleProgress(w: World, ch: Choice)
    requires Resting(w) && Idle(w) && Cooperative(ch)
    ensures if Rank(w) == 0 then Pass(w, ch) == w else Lowers(w, Pass(w, ch))
  {
    RestFacts(w);
    var s := w.obj.value.status;
    hide Inv, SmOk, Pass, Rank, Final, UpdateRequired, ShareRequired, Known, Agreed, Idle, Lowers;
    if s.opUrl.Some? {
      OperationProgress(w, ch);
    } else if s.hash == Legacy {
      MigrateRank(w, ch);
    } else if s.id.Some? {
      PresentFacts(w);
      if Final(w.obj.value) {
        FinalRank(w, ch);
      } else if UpdateRequired(Filled(w.obj.value)) {
        UpdateRank(w, ch);
      } else if ShareRequired(w.obj.value) {
        ShareRank(w, ch);
      } else {
        RestRank(w, ch);
      }
    } else if i :| i in w.insts {
      RecoverRank(w, ch, i);
    } else {
      CreateRank(w, ch);
    }
    RankPositive(w);
  }

  /** Only a resting instance that is named, with no operation, can have nothing left to do. */
  lemma RankPositive(w: World)
    requires w.obj.Some?
    ensures w.obj.value.status.opUrl.Some? || w.obj.value.status.id.None? || w.obj.value.status.hash == Legacy ==> Rank(w) > 0
  {
    hide WorkRank;
  }

  lemma OperationDone(w: World)
    requires Resting(w) && Idle(w) && w.obj.value.status.opUrl.Some?
    ensures SmStatus(w, w.obj.value.status.opUrl.value) == Some(Good) || SmStatus(w, w.obj.value.status.opUrl.value) == Some(Bad)
  {
    RestFacts(w);
    hide Inv;
  }

  lemma OperationProgress(w: World, ch: Choice)
    requires Resting(w) && Idle(w) && Cooperative(ch) && w.obj.value.status.opUrl.Some?
    ensures Lowers(w, Pass(w, ch))
  {
    OperationDone(w);
    var url := w.obj.value.status.opUrl.value;
    hide Inv, Pass, Rank, Known, Agreed, Idle, SmStatus, Lowers;
    if SmStatus(w, url) == Some(Good) {
      if url.kind == Delete { ForgetRank(w, ch); } else { SuccessRank(w, ch); }
    } else if url.kind == Update {
      FailureRank(w, ch);
    } else {
      CleanRank(w, ch);
    }
  }

  lemma RankTop(w: World)
    requires w.obj.Some?
    ensures Rank(w) <= 13
  {
    hide WorkRank, SmStatus, IdleRank;
    RankBounds(w.obj.value);
    RankBounds(w.obj.value.(status := Polled(w.obj.value)));
    RankBounds(w.obj.value.(status := Failed(w.obj.value)));
  }
}
