/**
 Convergence: passes of the reconcile interleaved in any way with an SM that finishes its operations.
 The hypotheses are exact.
 */
module InstanceConverges {
  import opened Options
  import opened Remote
  import opened InstanceWorld
  import opened InstanceReconciler
  import opened InstanceInvariant
  import opened InstanceSteps
  import opened InstanceSafety
  import opened InstanceConvergence
  import opened InstanceRank

  // ----- passes while SM is busy

  /** A pass from `w` to `w1` that leaves no more to do once SM is done. */
  ghost predicate NoWorse(w: World, w1: World)
    requires w.obj.Some?
  {
    && AtRest(w1) && Known(w1) && Kept(w, w1) && w1.clock >= w.clock
    && Settled(w).obj.Some? && Rank(Settled(w1)) <= Rank(Settled(w))
  }

  lemma BusyFacts(w: World, i: Id)
    requires Resting(w) && Busy(w, i)
    ensures SmOk(w) && i in w.insts && w.insts[i].last in w.ops && (forall j :: j in w.insts ==> j == i)
    ensures Settled(w) == SmFinish(w, i, true) && Settled(w).obj == w.obj
    ensures w.obj.value.status.id.Some? ==> w.obj.value.status.id == Some(i)
    ensures StatusShape(w.obj.value.status, false) && Recorded(w, w.obj.value.status) && Holds(w, w.obj.value.status, false)
    ensures w.obj.value.finalizer
  {
    RestFacts(w);
    SettledIs(w, i);
    hide Inv;
  }

  /** A write that leaves SM and the operation alone leaves what SM will have finished alone. */
  lemma SettledWrite(w: World, i: Id, status: Status)
    requires w.obj.Some? && SmOk(w) && Busy(w, i)
    ensures Settled(PutStatus(w, status)) == SmFinish(PutStatus(w, status), i, true)
    ensures Settled(PutStatus(w, status)).insts == SmFinish(w, i, true).insts
    ensures Settled(PutStatus(w, status)).ops == SmFinish(w, i, true).ops
    ensures Settled(PutStatus(w, status)).obj == PutStatus(w, status).obj
  {
    var w1 := PutStatus(w, status);
    assert SmOk(w1) && Busy(w1, i);
    SettledIs(w1, i);
  }

  lemma WaitNoWorse(w: World, ch: Choice, i: Id)
    requires Resting(w) && Busy(w, i) && Cooperative(ch)
    requires w.obj.value.status.opUrl.Some? && SmStatus(w, w.obj.value.status.opUrl.value) == Some(Running)
    ensures NoWorse(w, Pass(w, ch))
  {
    BusyFacts(w, i);
    PassWaits(w, ch);
    var o := w.obj.value;
    var status := UpdateStatus(o.status.InProgress(o.status.opUrl.value.kind, o.gen, o.status.LastObserved()));
    SettledWrite(w, i, status);
    hide Inv, Pass, Settled, SmOk, IdleRank;
    assert Known(Waited(w, ch));
    assert Polled(o.(status := status)) == Polled(o);
    WorkRankVersion(o.(status := Polled(o)), w.clock);
    WorkRankVersion(o.(status := Failed(o)), w.clock);
  }

  lemma CleanNoWorse(w: World, ch: Choice, i: Id)
    requires Resting(w) && Busy(w, i) && Cooperative(ch)
    requires w.obj.value.status.opUrl.Some? && w.obj.value.status.opUrl.value.kind != Update
    requires SmStatus(w, w.obj.value.status.opUrl.value) == Some(Bad)
    ensures NoWorse(w, Pass(w, ch))
  {
    BusyFacts(w, i);
    PassCleans(w, ch);
    var w1 := Cleaned(w, i, ch.async);
    hide Inv, Pass, IdleRank;
    CleanedRank(w, i, ch);
    BusyBadRank(w, i);
  }

  lemma CleanedRank(w: World, i: Id, ch: Choice)
    requires AtRest(w) && SmOk(w) && i in w.insts && w.obj.value.status.id == Some(i) && (forall j :: j in w.insts ==> j == i)
    ensures var w1 := Cleaned(w, i, ch.async);
      AtRest(w1) && Known(w1) && Kept(w, w1) && w1.clock > w.clock && Settled(w1).obj.Some? && Rank(Settled(w1)) <= 11
  {
    var w1 := Cleaned(w, i, ch.async);
    hide IdleRank;
    if ch.async {
      CleanedOnly(w, i);
      assert i !in SmFinish(w1, i, true).insts;
    } else {
      assert w1.insts == map[];
      SettledIdle(w1);
    }
  }

  /** A failed create or cleanup keeps its place in the rank whatever SM is busy with. */
  lemma BusyBadRank(w: World, i: Id)
    requires Resting(w) && Busy(w, i) && w.obj.value.status.opUrl.Some? && w.obj.value.status.opUrl.value.kind != Update
    requires SmStatus(w, w.obj.value.status.opUrl.value) == Some(Bad)
    ensures Settled(w).obj.Some? && Rank(Settled(w)) >= 11
  {
    BusyFacts(w, i);
    hide Inv, IdleRank;
  }

  lemma FailNoWorse(w: World, ch: Choice, i: Id)
    requires Resting(w) && Busy(w, i) && Cooperative(ch)
    requires w.obj.value.status.opUrl.Some? && w.obj.value.status.opUrl.value.kind == Update
    requires SmStatus(w, w.obj.value.status.opUrl.value) == Some(Bad)
    ensures NoWorse(w, Pass(w, ch))
  {
    BusyFacts(w, i);
    PassFails(w, ch);
    var o := w.obj.value;
    SettledWrite(w, i, Failed(o));
    hide Inv, Pass, Settled, SmOk, IdleRank;
    WorkRankVersion(o.(status := Failed(o)), w.clock);
    BusyUpdateStays(w, i);
  }

  /** SM carrying on with an instance that is not being deleted does not touch a failed operation. */
  lemma BusyUpdateStays(w: World, i: Id)
    requires Resting(w) && Busy(w, i) && w.obj.value.status.id == Some(i)
    requires w.obj.value.status.opUrl.None? || w.obj.value.status.opUrl.value.kind != Delete
    ensures w.ops[w.insts[i].last].kind != Delete && i in SmFinish(w, i, true).insts
    ensures w.obj.value.status.opUrl.Some? && SmStatus(w, w.obj.value.status.opUrl.value) == Some(Bad) ==>
              SmStatus(SmFinish(w, i, true), w.obj.value.status.opUrl.value) == Some(Bad)
  {
    BusyFacts(w, i);
    hide Inv;
  }

  lemma MigrateNoWorse(w: World, ch: Choice, i: Id)
    requires Resting(w) && Busy(w, i) && Cooperative(ch)
    requires w.obj.value.status.opUrl.None? && w.obj.value.status.hash == Legacy
    ensures NoWorse(w, Pass(w, ch))
  {
    BusyFacts(w, i);
    PassMigrates(w, ch);
    var o := w.obj.value;
    var status := UpdateStatus(o.status.(hash := Of(o.spec)));
    SettledWrite(w, i, status);
    hide Inv, Pass, Settled, SmOk, WorkRank;
    WorkRankVersion(o.(status := status), w.clock);
    assert Known(PutStatus(w, status));
  }

  /** The rank of an instance with no operation recorded does not depend on SM. */
  lemma QuietSlotRank(w: World, i: Id)
    requires Resting(w) && Busy(w, i) && w.obj.value.status.opUrl.None? && w.obj.value.status.id.Some?
    ensures Settled(w).obj.Some? && Rank(Settled(w)) == IdleRank(w.obj.value)
  {
    BusyFacts(w, i);
    hide Inv, IdleRank;
  }

  lemma RefusedNoWorse(w: World, ch: Choice, i: Id)
    requires Resting(w) && Busy(w, i) && Cooperative(ch) && Present(w)
    requires !Final(w.obj.value) && UpdateRequired(Filled(w.obj.value))
    ensures NoWorse(w, Pass(w, ch))
  {
    BusyFacts(w, i);
    PassRefused(w, ch);
    var w1 := RefusedTo(w, ch);
    assert IdleRank(w.obj.value) == 3;
    QuietSlotRank(w, i);
    hide Inv, Pass, Final, UpdateRequired;
    RefusedSettles(w, ch, i);
    RankBounds(w1.obj.value);
    hide WorkRank;
  }

  lemma RefusedSettles(w: World, ch: Choice, i: Id)
    requires SmOk(w) && Busy(w, i) && AtRest(w) && Known(w) && w.obj.value.finalizer
    requires w.obj.value.status.opUrl.None? && w.obj.value.status.id == Some(i)
    ensures var w1 := RefusedTo(w, ch);
      && AtRest(w1) && Known(w1) && Kept(w, w1) && w1.clock > w.clock && w1.obj.value.status.hash == Of(w.obj.value.spec)
      && Settled(w1).obj == w1.obj && w1.obj.value.status.opUrl.None? && w1.obj.value.status.id == Some(i)
  {
    var w1 := RefusedTo(w, ch);
    assert SmOk(w1) && Busy(w1, i);
    SettledIs(w1, i);
  }

  lemma FinalNoWorse(w: World, ch: Choice, i: Id)
    requires Resting(w) && Busy(w, i) && Cooperative(ch) && Present(w)
    requires Final(w.obj.value)
    ensures NoWorse(w, Pass(w, ch))
  {
    BusyFacts(w, i);
    PassFinal(w, ch);
    var o := w.obj.value;
    var status := UpdateStatus(o.status.(hash := Of(o.spec)));
    SettledWrite(w, i, status);
    hide Inv, Pass, Settled, SmOk;
    if o.status.hash == NoHash {
      assert Known(PutStatus(w, status));
    }
  }

  lemma ShareNoWorse(w: World, ch: Choice, i: Id)
    requires Resting(w) && Busy(w, i) && Cooperative(ch) && Present(w)
    requires !Final(w.obj.value) && !UpdateRequired(Filled(w.obj.value)) && ShareRequired(w.obj.value)
    ensures NoWorse(w, Pass(w, ch))
  {
    BusyFacts(w, i);
    PassShares(w, ch);
    var w1 := SharedTo(w);
    AfterSharing(w1.obj.value);
    QuietSlotRank(w, i);
    hide Inv, Pass, Final;
    assert SmOk(w1) && Busy(w1, i);
    SettledIs(w1, i);
    hide WorkRank, IdleRank, UpdateRequired, ShareRequired, SmOk;
  }

  lemma RecoverNoWorse(w: World, ch: Choice, i: Id)
    requires Resting(w) && Busy(w, i) && Cooperative(ch)
    requires w.obj.value.status.opUrl.None? && w.obj.value.status.id.None? && w.obj.value.status.hash != Legacy
    ensures NoWorse(w, Pass(w, ch))
  {
    BusyFacts(w, i);
    UnnamedFacts(w);
    PassRecovers(w, ch, i);
    PreparedSame(w);
    PreparedKept(w);
    hide Inv, Pass, Prepared, WorkRank, IdleRank, UpdateRequired, ShareRequired, Final;
    var w0 := Prepared(w);
    RecoveredStatus(w0, i);
    RecoveredSettles(w0, i);
  }

  lemma RecoveredSettles(w: World, i: Id)
    requires AtRest(w) && SmOk(w) && Busy(w, i) && i in w.insts && w.ops[w.insts[i].last].kind == Create && !w.insts[i].shared
    requires w.obj.value.status.id.None? && w.obj.value.status.opUrl.None?
    ensures var w1 := PutStatus(w, UpdateStatus(Recovered(w, w.obj.value, i)));
      AtRest(w1) && Known(w1) && Kept(w, w1) && w1.clock > w.clock && Settled(w1).obj.Some? && Rank(Settled(w1)) <= 5
  {
    RecoveredStatus(w, i);
    var status := UpdateStatus(Recovered(w, w.obj.value, i));
    hide Recovered, WorkRank, IdleRank;
    var w1 := PutStatus(w, status);
    SettledWrite(w, i, status);
    var w2 := SmFinish(w1, i, true);
    RankBounds(w2.obj.value.(status := Polled(w2.obj.value)));
    assert SmStatus(w2, w2.obj.value.status.opUrl.value) == Some(Good);
  }

  /** What a recorded operation can look like while SM is busy. */
  lemma BusyOperation(w: World, i: Id)
    requires Resting(w) && Busy(w, i) && w.obj.value.status.opUrl.Some?
    ensures SmStatus(w, w.obj.value.status.opUrl.value) == Some(Running) || SmStatus(w, w.obj.value.status.opUrl.value) == Some(Bad)
  {
    BusyFacts(w, i);
    hide Inv;
  }

  lemma BusyPass(w: World, ch: Choice, i: Id)
    requires Resting(w) && Busy(w, i) && Cooperative(ch)
    ensures NoWorse(w, Pass(w, ch))
  {
    BusyFacts(w, i);
    var s := w.obj.value.status;
    hide Inv, SmOk, Pass, Rank, Final, UpdateRequired, ShareRequired, Known, Busy, NoWorse, StatusShape, Recorded, Holds;
    if s.opUrl.Some? {
      BusyOperation(w, i);
      if SmStatus(w, s.opUrl.value) == Some(Running) {
        WaitNoWorse(w, ch, i);
      } else if s.opUrl.value.kind == Update {
        FailNoWorse(w, ch, i);
      } else {
        CleanNoWorse(w, ch, i);
      }
    } else if s.hash == Legacy {
      MigrateNoWorse(w, ch, i);
    } else if s.id.Some? {
      PresentFacts(w);
      if Final(w.obj.value) {
        FinalNoWorse(w, ch, i);
      } else if UpdateRequired(Filled(w.obj.value)) {
        RefusedNoWorse(w, ch, i);
      } else if ShareRequired(w.obj.value) {
        ShareNoWorse(w, ch, i);
      } else {
        PassRests(w, ch);
        RestNoWorse(w, i);
      }
    } else {
      RecoverNoWorse(w, ch, i);
    }
  }

  lemma RestNoWorse(w: World, i: Id)
    requires Resting(w) && Busy(w, i)
    ensures NoWorse(w, w)
  {
    BusyFacts(w, i);
  }

  // ----- moves

  /** SM finishes what it is busy with, or the resource is reconciled; in any order, as often as one likes. */
  datatype Move = Finish | Reconcile(ch: Choice)

  ghost function Moved(w: World, m: Move): World {
    match m case Finish => Settled(w) case Reconcile(ch) => Pass(w, ch)
  }

  ghost function MovedAll(w: World, moves: seq<Move>): World
    decreases |moves|
  {
    if moves == [] then w else MovedAll(Moved(w, moves[0]), moves[1..])
  }

  predicate Answered(moves: seq<Move>) {
    forall k :: 0 <= k < |moves| && moves[k].Reconcile? ==> Cooperative(moves[k].ch)
  }

  /** The number of passes that find SM done with its operations. */
  ghost function IdlePasses(w: World, moves: seq<Move>): nat
    decreases |moves|
  {
    if moves == [] then 0
    else (if moves[0].Reconcile? && Idle(w) then 1 else 0) + IdlePasses(Moved(w, moves[0]), moves[1..])
  }

  /** SM is done and nothing is left to do: no pass, whatever SM would answer, makes a call that changes either store. */
  ghost predicate Quiet(w: World) {
    Idle(w) && forall ch :: Cooperative(ch) ==> Pass(w, ch) == w
  }

  lemma IdleOrBusy(w: World)
    ensures Idle(w) || exists i :: Busy(w, i)
  {
  }

  /** The rank of what SM will have finished never rises, and falls with every pass that finds SM done. */
  lemma PassProgress(w: World, ch: Choice)
    requires Resting(w) && Agreed(w) && Cooperative(ch)
    ensures var w1 := Pass(w, ch);
      && Resting(w1) && Agreed(w1) && Settled(w).obj.Some? && Settled(w1).obj.Some?
      && Rank(Settled(w1)) <= Rank(Settled(w))
      && (Idle(w) ==> if Rank(w) == 0 then w1 == w else Rank(Settled(w1)) < Rank(w))
  {
    PassInv(w, ch);
    IdleOrBusy(w);
    hide Inv, Pass, Rank, Known, Idle, Busy, Settled;
    if Idle(w) {
      SettledIdle(w);
      IdleProgress(w, ch);
    } else {
      var i :| Busy(w, i);
      BusyPass(w, ch, i);
    }
    SettledObj(w);
    SettledObj(Pass(w, ch));
  }

  lemma SettledObj(w: World)
    ensures Settled(w).obj == w.obj
  {
  }

  lemma SettledAgain(w: World)
    requires Resting(w)
    ensures Settled(Settled(w)) == Settled(w)
  {
    hide Resting, Settled, Idle;
    SettledFacts(w);
    SettledIdle(Settled(w));
  }

  lemma AnsweredRest(moves: seq<Move>)
    requires Answered(moves) && moves != []
    ensures Answered(moves[1..]) && (moves[0].Reconcile? ==> Cooperative(moves[0].ch))
  {
  }

  lemma {:induction false} MovesConverge(w: World, moves: seq<Move>)
    requires Resting(w) && Agreed(w) && Answered(moves)
    requires Settled(w).obj.Some? && IdlePasses(w, moves) >= Rank(Settled(w))
    ensures var w1 := MovedAll(w, moves); Resting(w1) && Agreed(w1) && Settled(w1).obj.Some? && Rank(Settled(w1)) == 0
    decreases |moves|
  {
    hide Resting, Agreed, Rank, Pass, Settled, Idle, Cooperative, Answered;
    if moves != [] {
      AnsweredRest(moves);
      match moves[0] {
        case Finish =>
          SettledFacts(w);
          SettledAgain(w);
          assert Agreed(Settled(w)) by { AgreedSettled(w); }
        case Reconcile(ch) =>
          PassProgress(w, ch);
          if Idle(w) {
            SettledIdle(w);
          }
      }
      MovesConverge(Moved(w, moves[0]), moves[1..]);
    }
  }

  lemma AgreedSettled(w: World)
    requires w.obj.Some? && Agreed(w)
    ensures Settled(w).obj.Some? && Agreed(Settled(w))
  {
    SettledObj(w);
  }

  lemma RankedQuiet(w: World)
    requires Resting(w) && Idle(w) && Rank(w) == 0
    ensures Quiet(w)
  {
    hide Resting, Rank, Pass, Idle;
    forall ch | Cooperative(ch)
      ensures Pass(w, ch) == w
    {
      IdleProgress(w, ch);
    }
  }

  /** A quiet world stays as it is. */
  lemma {:induction false} QuietStays(w: World, moves: seq<Move>)
    requires Quiet(w) && Answered(moves)
    ensures MovedAll(w, moves) == w
    decreases |moves|
  {
    hide Pass, Settled, Idle, Answered;
    if moves != [] {
      SettledIdle(w);
      AnsweredRest(moves);
      QuietStays(w, moves[1..]);
    }
  }

  /**
   Convergence: from a reachable resting state of an instance that SM knows and that no subscription keeps
   from being shared, every run of passes in which thirteen find SM done ends, once SM is done, in a state
   that no later pass changes.
   */
  lemma Converges(w: World, moves: seq<Move>, more: seq<Move>)
    requires Reachable(w) && AtRest(w) && Known(w) && Agreed(w)
    requires Answered(moves) && IdlePasses(w, moves) >= 13 && Answered(more)
    ensures var w1 := Settled(MovedAll(w, moves)); Quiet(w1) && MovedAll(w1, more) == w1
  {
    hide Reachable, Known, Agreed, AtRest, Settled, MovedAll, Quiet, Answered, Inv, Idle, Rank;
    ReachableInv(w);
    assert Resting(w);
    hide Resting;
    SettledFacts(w);
    RankTop(Settled(w));
    MovesConverge(w, moves);
    SettledFacts(MovedAll(w, moves));
    RankedQuiet(Settled(MovedAll(w, moves)));
    QuietStays(Settled(MovedAll(w, moves)), more);
  }

  // ----- without the hypotheses

  /** The status names an instance SM does not hold, and no deletion explains it. */
  predicate Orphaned(w: World) {
    && AtRest(w)
    && var s := w.obj.value.status;
    && s.id.Some? && s.id.value !in w.insts
    && (s.opUrl.Some? ==> s.opUrl.value.kind != Delete && s.opUrl.value.resource == s.id.value)
  }

  lemma OrphanPolls(w: World, ch: Choice)
    requires Orphaned(w) && Cooperative(ch) && w.obj.value.status.opUrl.Some?
    ensures Orphaned(Pass(w, ch)) && Pass(w, ch).clock > w.clock
  {
    var o := w.obj.value;
    PassPolls(w, ch);
    DrainSave(w, o, o.status, o.status.Failure(o.gen, o.gen), ch, 6);
    hide Pass;
  }

  lemma OrphanMissing(w: World, ch: Choice)
    requires Orphaned(w) && Cooperative(ch) && w.obj.value.status.opUrl.None? && w.obj.value.status.hash != Legacy
    ensures Orphaned(Pass(w, ch)) && Pass(w, ch).clock > w.clock
  {
    var o := w.obj.value;
    PassBegins(w, ch);
    var w1 := Go(w, o, o.status, CheckExists);
    DrainStep(w1, ch, 7);
    DrainSave(w1, o, o.status, o.status.Missing(o.gen), ch, 6);
    hide Pass;
  }

  lemma OrphanPass(w: World, ch: Choice)
    requires Orphaned(w) && Cooperative(ch)
    ensures Orphaned(Pass(w, ch)) && Pass(w, ch).clock > w.clock
  {
    hide Pass;
    if w.obj.value.status.opUrl.Some? {
      OrphanPolls(w, ch);
    } else if w.obj.value.status.hash == Legacy {
      PassMigrates(w, ch);
    } else {
      OrphanMissing(w, ch);
    }
  }

  lemma OrphanSettled(w: World)
    requires Orphaned(w)
    ensures Orphaned(Settled(w)) && Settled(w).clock == w.clock
  {
  }

  /** An instance that SM lost behind its status is rewritten by every pass, and never recovered or created again. */
  lemma {:induction false} OrphansStay(w: World, moves: seq<Move>)
    requires Orphaned(w) && Answered(moves)
    ensures Orphaned(MovedAll(w, moves))
    decreases |moves|
  {
    hide Orphaned, Pass, Settled, Answered, Cooperative;
    if moves != [] {
      AnsweredRest(moves);
      match moves[0] {
        case Finish => OrphanSettled(w);
        case Reconcile(ch) => OrphanPass(w, ch);
      }
      OrphansStay(Moved(w, moves[0]), moves[1..]);
    }
  }

  lemma OrphanNotQuiet(w: World)
    requires Orphaned(w)
    ensures !Quiet(w)
  {
    hide Pass, Idle, Orphaned;
    OrphanPass(w, PLAIN);
    assert Cooperative(PLAIN);
  }

  /** A subscribed instance whose sharing differs from its specification. */
  ghost predicate Starved(w: World) {
    Resting(w) && w.obj.value.subscribed && Mismatch(w.obj.value)
  }

  lemma StarvedRank(w: World)
    requires Starved(w)
    ensures w.obj.Some? && Rank(w) > 0
  {
    hide Inv, Known;
    RankPositive(w);
    StarvedWork(w.obj.value);
  }

  /** Neither the final state nor idleness: the subscription asks for an update. */
  lemma StarvedWork(o: Instance)
    requires o.subscribed && Mismatch(o)
    ensures WorkRank(o) > 0
  {
  }

  lemma StarvedPass(w: World, ch: Choice)
    requires Starved(w) && Cooperative(ch)
    ensures Starved(Pass(w, ch)) && Pass(w, ch).obj.value.status.sharing == w.obj.value.status.sharing
    ensures Idle(w) ==> Pass(w, ch).clock > w.clock
  {
    PassInv(w, ch);
    IdleOrBusy(w);
    StarvedRank(w);
    hide Inv, Pass, Rank, Known, Idle, Busy, Settled, Agreed;
    if Idle(w) {
      IdleProgress(w, ch);
    } else {
      var i :| Busy(w, i);
      BusyPass(w, ch, i);
    }
  }

  lemma StarvedNotQuiet(w: World)
    requires Starved(w)
    ensures !Quiet(w)
  {
    hide Pass, Idle, Starved;
    StarvedPass(w, PLAIN);
    assert Cooperative(PLAIN);
  }

  /** No pass ever shares or unshares an instance whose subscription asks for an update first. */
  lemma {:induction false} NeverShared(w: World, moves: seq<Move>)
    requires Starved(w) && Answered(moves)
    ensures var w1 := MovedAll(w, moves);
      Starved(w1) && w1.obj.value.status.sharing == w.obj.value.status.sharing && !Quiet(w1)
    decreases |moves|
  {
    hide Pass, Settled, Answered, Cooperative, Inv, Known, Mismatch, Quiet;
    if moves == [] {
      StarvedNotQuiet(w);
    } else {
      AnsweredRest(moves);
      match moves[0] {
        case Finish => SettledFacts(w);
        case Reconcile(ch) => StarvedPass(w, ch);
      }
      NeverShared(Moved(w, moves[0]), moves[1..]);
    }
  }

  // ----- the exact condition

  /** SM finishes before each of `n` passes. */
  function Turns(n: nat): seq<Move> {
    if n == 0 then [] else [Finish, Reconcile(PLAIN)] + Turns(n - 1)
  }

  lemma {:induction false} TurnsAnswered(n: nat)
    ensures Answered(Turns(n))
  {
    if n > 0 {
      TurnsAnswered(n - 1);
    }
  }

  lemma {:induction false} TurnsIdle(w: World, n: nat)
    requires Inv(w)
    ensures IdlePasses(w, Turns(n)) == n
    decreases n
  {
    hide Inv, Pass, Idle, Settled;
    if n > 0 {
      var rest := [Reconcile(PLAIN)] + Turns(n - 1);
      assert Turns(n)[0] == Finish && Turns(n)[1..] == rest && rest[1..] == Turns(n - 1);
      SettledInv(w);
      var w1 := Settled(w);
      assert Inv(Pass(w1, PLAIN)) by { AnyPassInv(w1); }
      TurnsIdle(Pass(w1, PLAIN), n - 1);
    }
  }

  lemma SettledInv(w: World)
    requires Inv(w)
    ensures Inv(Settled(w)) && Idle(Settled(w))
  {
    hide Inv, At, SmOk, ObjOk, Busy, SmFinish, Idle;
    InvAt(w);
    if i :| Busy(w, i) {
      SettledIs(w, i);
      StepKeeps(w, Operate(i, true));
      OneFinishes(w, i);
    } else {
      IdleOrBusy(w);
    }
  }

  lemma OneFinishes(w: World, i: Id)
    requires SmOk(w) && Busy(w, i)
    ensures Idle(SmFinish(w, i, true))
  {
  }

  lemma AnyPassInv(w: World)
    requires Inv(w)
    ensures Inv(Pass(w, PLAIN))
  {
    hide Inv, Drain, Begin;
    if w.obj.Some? {
      assert Inv(Begin(w)) by { InvAt(w); BeginOk(w); }
      DrainInv(Begin(w), PLAIN, 8);
    }
  }

  /** An unknown instance ends as an orphan. */
  lemma UnknownOrphaned(w: World)
    requires Inv(w) && AtRest(w) && !Known(w)
    ensures Orphaned(Settled(w))
  {
    RestFacts(w);
    hide Inv;
    var i := w.obj.value.status.id.value;
    if i in w.insts {
      SettledIs(w, i);
    } else {
      OrphanSettled(w);
    }
  }

  lemma UnknownNeverQuiet(w: World)
    requires Inv(w) && AtRest(w) && !Known(w)
    ensures !Quiet(Settled(MovedAll(w, Turns(13))))
  {
    hide Inv, AtRest, Known, Settled, Orphaned, Quiet, Turns, Answered;
    UnknownOrphaned(w);
    TurnsAnswered(13);
    var moves := Turns(13);
    assert moves[0] == Finish by { TurnsFirst(13); }
    AnsweredRest(moves);
    OrphansStay(Settled(w), moves[1..]);
    var w1 := MovedAll(w, moves);
    assert w1 == MovedAll(Settled(w), moves[1..]);
    OrphanSettled(w1);
    OrphanNotQuiet(Settled(w1));
  }

  lemma TurnsFirst(n: nat)
    requires n > 0
    ensures Turns(n) != [] && Turns(n)[0] == Finish
  {
  }

  /** Every run of passes in which thirteen find SM done ends quietly. */
  ghost predicate AlwaysConverges(w: World) {
    forall moves :: Answered(moves) && IdlePasses(w, moves) >= 13 ==> Quiet(Settled(MovedAll(w, moves)))
  }

  /**
   Convergence is certain exactly when SM knows the instance, and no subscription keeps it from a sharing
   that is still to be done.
   */
  lemma ConvergenceExact(w: World)
    requires Reachable(w) && AtRest(w)
    ensures AlwaysConverges(w) <==> Known(w) && Agreed(w)
  {
    hide Reachable, Known, Settled, MovedAll, Quiet, Answered, Inv, Turns, AtRest, Mismatch;
    ReachableInv(w);
    assert w.obj.Some? by { RestingObj(w); }
    TurnsAnswered(13);
    TurnsIdle(w, 13);
    if !Known(w) {
      UnknownNeverQuiet(w);
    } else if !Agreed(w) {
      NeverShared(w, Turns(13));
      var w1 := MovedAll(w, Turns(13));
      SettledFacts(w1);
      assert Starved(Settled(w1));
      StarvedNotQuiet(Settled(w1));
    } else {
      forall moves | Answered(moves) && IdlePasses(w, moves) >= 13
        ensures Quiet(Settled(MovedAll(w, moves)))
      {
        Converges(w, moves, []) by { assert Answered([]) by { NoMoves(); } }
      }
    }
  }

  lemma RestingObj(w: World)
    requires AtRest(w)
    ensures w.obj.Some?
  {
  }

  lemma NoMoves()
    ensures Answered([])
  {
  }
}
