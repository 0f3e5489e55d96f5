/**
 Deletion of an instance: what each undisturbed pass leaves, and that the resource goes however often SM
 refuses, once it does what it is asked.
 */
module InstanceDeletes {
  import opened Options
  import opened Remote
  import opened InstanceWorld
  import opened InstanceReconciler
  import opened InstanceInvariant
  import opened InstanceSteps
  import opened InstanceSafety
  import opened InstanceConvergence
  import InstanceRank

  /** An instance marked for deletion, not being reconciled. */
  predicate Marked(w: World) {
    w.proc.None? && w.obj.Some? && w.obj.value.deleting && w.obj.value.finalizer
  }

  /** The status records a deletion under way in SM. */
  predicate Leaving(w: World) {
    Marked(w) && w.obj.value.status.opUrl.Some? && w.obj.value.status.opType == Some(Delete)
  }

  lemma MarkedBegins(w: World, ch: Choice)
    requires Marked(w) && Cooperative(ch)
    ensures Pass(w, ch) == Drain(AdvanceConnect(w, Proc(w.obj.value, w.obj.value.status, Connect), ch), ch, 7)
  {
    var o := w.obj.value;
    var w1 := Begin(w);
    DrainStep(w1, ch, 8);
    assert Advance(w1, ch) == AdvanceConnect(w1, Proc(o, o.status, Connect), ch);
    hide Prepare;
  }

  lemma LeavingPolls(w: World, ch: Choice)
    requires Leaving(w) && Cooperative(ch)
    ensures Pass(w, ch) == Drain(AdvancePollStatus(w, Proc(w.obj.value, w.obj.value.status, PollStatus), ch), ch, 6)
  {
    var o := w.obj.value;
    MarkedBegins(w, ch);
    var w1 := Go(w, o, o.status, PollStatus);
    DrainStep(w1, ch, 7);
    hide AdvanceConnect;
    PollApart(w, w1, Proc(o, o.status, PollStatus), ch);
  }

  /** A poll of the running deletion writes at most what SM describes. */
  lemma DeletionWaits(w: World, ch: Choice)
    requires Leaving(w) && Cooperative(ch) && SmStatus(w, w.obj.value.status.opUrl.value) == Some(Running)
    ensures Pass(w, ch) == Waited(w, ch)
  {
    var o := w.obj.value;
    LeavingPolls(w, ch);
    if ch.described {
      DrainSave(w, o, o.status, o.status.InProgress(o.status.opUrl.value.kind, o.gen, o.status.LastObserved()), ch, 6);
    } else {
      DrainEnd(Stop(w), ch, 6);
    }
  }

  /** The poll that finds the deletion done: the resource is gone. */
  lemma DeletionSeen(w: World, ch: Choice)
    requires Leaving(w) && Cooperative(ch) && w.obj.value.status.opUrl.value.kind == Delete
    requires SmStatus(w, w.obj.value.status.opUrl.value) == Some(Good)
    ensures Pass(w, ch) == w.(obj := None, clock := w.clock + 1)
  {
    var o := w.obj.value;
    LeavingPolls(w, ch);
    var w1 := Go(w, o, o.status, PollRemoveFinalizer);
    DrainStep(w1, ch, 6);
    var w2 := w.(obj := None, clock := w.clock + 1);
    var c := o.(finalizer := false, rv := w.clock);
    var w3 := Finish(w2, c, o.status, o.status.(id := None).NoOperation());
    assert Advance(w1, ch) == w3;
    DrainStep(w3, ch, 5);
    DrainEnd(w2, ch, 4);
  }

  /** The poll that finds the deletion failed: the operation is forgotten, the instance still named, and no success reported. */
  lemma DeletionRefused(w: World, ch: Choice)
    requires Leaving(w) && Cooperative(ch) && w.obj.value.status.opUrl.value.kind == Delete
    requires SmStatus(w, w.obj.value.status.opUrl.value) == Some(Bad)
    ensures var o := w.obj.value;
      var w1 := Pass(w, ch);
      && w1 == w.(obj := w1.obj, clock := w.clock + 1) && w1.obj.Some? && Marked(w1)
      && var s1 := w1.obj.value.status;
      && w1.obj.value == o.(rv := w.clock, status := s1)
      && s1.opUrl.None? && s1.opType.None? && s1.id == o.status.id
      && s1.succeeded == Some(Cond(false, o.status.LastObserved(), false)) && s1.readyCond == Some(Cond(o.status.ready, o.gen, false))
      && s1.ready == o.status.ready && s1.hash == o.status.hash && s1.sharing == o.status.sharing && s1.force == o.status.force
      && s1.observed == o.status.LastObserved()
  {
    var o := w.obj.value;
    LeavingPolls(w, ch);
    DrainSave(w, o, o.status, o.status.Failure(o.gen, o.status.LastObserved()).NoOperation(), ch, 6);
  }

  // ----- asking SM

  /** Nothing is being deleted in SM yet; another operation may be under way. */
  predicate Asking(w: World) {
    Marked(w) && !(w.obj.value.status.opUrl.Some? && w.obj.value.status.opType == Some(Delete))
  }

  lemma AskingCalls(w: World, ch: Choice)
    requires Asking(w) && Cooperative(ch)
    ensures var o := w.obj.value;
      Pass(w, ch) == Drain(Go(w, o, o.status, if o.status.id.None? then DeleteQuery else DeleteCall), ch, 7)
  {
    MarkedBegins(w, ch);
    hide Drain, Pass, Prepare;
  }

  /** SM deletes at once, or does not know the instance: the resource and the instance are gone. */
  lemma DeletionAtOnce(w: World, i: Id, ch: Choice)
    requires Asking(w) && Cooperative(ch) && w.obj.value.status.id == Some(i) && (ch.async ==> i !in w.insts)
    ensures Pass(w, ch) == w.(obj := None, insts := w.insts - {i}, clock := w.clock + 2)
  {
    var o := w.obj.value;
    AskingCalls(w, ch);
    var w1 := Go(w, o, o.status, DeleteCall);
    DrainStep(w1, ch, 7);
    var w2 := w.(insts := w.insts - {i});
    assert i !in w.insts ==> w.insts - {i} == w.insts;
    var c := o.(status := o.status.(id := None));
    assert Advance(w1, ch) == Go(w2, c, o.status, DeleteSave);
    DrainStep(Go(w2, c, o.status, DeleteSave), ch, 6);
    var w3 := PutStatus(w2, c.status);
    var c3 := c.(rv := w.clock);
    assert Advance(Go(w2, c, o.status, DeleteSave), ch) == Go(w3, c3, c.status, DeleteRemoveFinalizer);
    DrainStep(Go(w3, c3, c.status, DeleteRemoveFinalizer), ch, 5);
    DrainEnd(w3.(obj := None, clock := w3.clock + 1), ch, 4);
  }

  /** SM deletes later: the resource records the operation SM has just begun. */
  lemma DeletionStarts(w: World, i: Id, ch: Choice)
    requires Asking(w) && Cooperative(ch) && w.obj.value.status.id == Some(i) && ch.async && i in w.insts
    ensures var o := w.obj.value;
      var w1 := Pass(w, ch);
      && Leaving(w1) && w1.obj.value == o.(rv := w.clock, status := w1.obj.value.status)
      && w1.insts == w.insts[i := w.insts[i].(last := w.nextId)]
      && w1.ops == w.ops[w.nextId := Op(Delete, i, Running, w.insts[i].applied)]
      && w1.clock == w.clock + 1 && w1.nextId == w.nextId + 1
      && var s1 := w1.obj.value.status;
      && s1.id == Some(i) && s1.opUrl == Some(OpUrl(Delete, i, w.nextId)) && s1.opType == Some(Delete)
      && s1.succeeded == Some(Cond(false, o.gen, false)) && s1.readyCond == Some(Cond(o.status.ready, o.gen, false))
      && s1.ready == o.status.ready && s1.observed == o.gen
  {
    var o := w.obj.value;
    AskingCalls(w, ch);
    var w1 := Go(w, o, o.status, DeleteCall);
    DrainStep(w1, ch, 7);
    var w2 := SmDeprovision(w, i, true);
    var s := o.status.Operating(OpUrl(Delete, i, w.nextId)).InProgress(Delete, o.gen, o.gen);
    assert Advance(w1, ch) == Finish(w2, o, o.status, s);
    DrainSave(w2, o, o.status, s, ch, 6);
  }

  /** Without an id SM is asked for the instance; if it lists none, the resource is gone. */
  lemma DeletionUnlisted(w: World, ch: Choice)
    requires Asking(w) && Cooperative(ch) && w.obj.value.status.id.None? && w.insts == map[]
    ensures Pass(w, ch) == w.(obj := None, clock := w.clock + 1)
  {
    var o := w.obj.value;
    AskingCalls(w, ch);
    var w1 := Go(w, o, o.status, DeleteQuery);
    DrainStep(w1, ch, 7);
    assert Listed(w1).None?;
    assert Advance(w1, ch) == Go(w, o, o.status, DeleteRemoveFinalizer);
    DrainStep(Go(w, o, o.status, DeleteRemoveFinalizer), ch, 6);
    DrainEnd(w.(obj := None, clock := w.clock + 1), ch, 5);
  }

  /** If it lists one, the resource records its id, and the next pass deletes it. */
  lemma DeletionFinds(w: World, i: Id, ch: Choice)
    requires Asking(w) && Cooperative(ch) && w.obj.value.status.id.None? && w.insts.Keys == {i}
    ensures var o := w.obj.value;
      var w1 := Pass(w, ch);
      && Asking(w1) && w1 == w.(obj := w1.obj, clock := w.clock + 1)
      && w1.obj.value == o.(rv := w.clock, status := w1.obj.value.status)
      && var s1 := w1.obj.value.status;
      && s1.id == Some(i) && s1.opUrl == o.status.opUrl && s1.opType == o.status.opType
      && s1.succeeded == Some(Cond(false, o.gen, false)) && s1.readyCond == Some(Cond(o.status.ready, o.gen, false))
      && s1.ready == o.status.ready && s1.observed == o.gen
  {
    var o := w.obj.value;
    AskingCalls(w, ch);
    var w1 := Go(w, o, o.status, DeleteQuery);
    DrainStep(w1, ch, 7);
    assert i in w.insts.Keys;
    assert Listed(w1) == Some(i) by { assert Listed(w1).value in w.insts.Keys; }
    var s := o.status.(id := Some(i)).InProgress(Delete, o.gen, o.gen);
    assert Advance(w1, ch) == Finish(w, o, o.status, s);
    DrainSave(w, o, o.status, s, ch, 6);
  }

  // ----- however often SM refuses

  /** SM finishes what it is busy with, one way or the other, or the resource is reconciled. */
  datatype Move = Ends(good: bool) | Reconcile(ch: Choice)

  ghost function Moved(w: World, m: Move): World {
    match m
    case Ends(good) => if i :| Busy(w, i) then SmFinish(w, i, good) else w
    case Reconcile(ch) => Pass(w, ch)
  }

  ghost function MovedAll(w: World, moves: seq<Move>): World
    decreases |moves|
  {
    if moves == [] then w else MovedAll(Moved(w, moves[0]), moves[1..])
  }

  predicate Answered(moves: seq<Move>) {
    forall k :: 0 <= k < |moves| && moves[k].Reconcile? ==> Cooperative(moves[k].ch)
  }

  /** The number of passes that find SM done with its operations. */
  ghost function IdlePasses(w: World, moves: seq<Move>): nat
    decreases |moves|
  {
    if moves == [] then 0
    else (if moves[0].Reconcile? && Idle(w) then 1 else 0) + IdlePasses(Moved(w, moves[0]), moves[1..])
  }

  /** The operations that SM ends badly. */
  function Refusals(moves: seq<Move>): nat
    decreases |moves|
  {
    if moves == [] then 0 else (if moves[0] == Ends(false) then 1 else 0) + Refusals(moves[1..])
  }

  /** Between reconciles, with the resource marked for deletion or gone. */
  ghost predicate Going(w: World) {
    Inv(w) && w.proc.None? && (w.obj.Some? ==> w.obj.value.deleting)
  }

  /** The passes a deletion still needs when SM does what it is asked. */
  function Rank(w: World): nat {
    if w.obj.None? then 0
    else
      var s := w.obj.value.status;
      if s.opUrl.Some? && s.opType == Some(Delete) then (if SmStatus(w, s.opUrl.value) == Some(Bad) then 3 else 1)
      else if s.id.Some? then 2
      else if w.insts == map[] then 1
      else 3
  }

  /** What the invariant says of a resource marked for deletion. */
  lemma GoingMeans(w: World)
    requires Going(w) && w.obj.Some?
    ensures Marked(w) && (Leaving(w) || Asking(w))
    ensures Leaving(w) ==>
              && w.obj.value.status.opUrl.value.kind == Delete && SmStatus(w, w.obj.value.status.opUrl.value).Some?
              && (Idle(w) ==> SmStatus(w, w.obj.value.status.opUrl.value) != Some(Running))
    ensures Asking(w) && w.obj.value.status.id.None? && w.insts != map[] ==> exists i :: w.insts.Keys == {i}
  {
    if w.insts != map[] {
      var i :| i in w.insts;
      assert w.insts.Keys == {i};
    }
  }

  lemma PassInv(w: World, ch: Choice)
    requires Going(w)
    ensures Inv(Pass(w, ch))
  {
    hide Inv, Drain, Begin;
    if w.obj.Some? {
      assert Inv(Begin(w)) by { InvAt(w); BeginOk(w); }
      InstanceRank.DrainInv(Begin(w), ch, 8);
    }
  }

  lemma LeavingPass(w: World, ch: Choice)
    requires Going(w) && w.obj.Some? && Leaving(w) && Cooperative(ch)
    ensures var w1 := Pass(w, ch);
      && w1.proc.None? && (w1.obj.Some? ==> w1.obj.value.deleting)
      && Rank(w1) <= Rank(w) && (Idle(w) ==> Rank(w1) < Rank(w))
  {
    GoingMeans(w);
    hide Going, Idle, Pass;
    var url := w.obj.value.status.opUrl.value;
    if SmStatus(w, url) == Some(Running) {
      DeletionWaits(w, ch);
    } else if SmStatus(w, url) == Some(Bad) {
      DeletionRefused(w, ch);
    } else {
      DeletionSeen(w, ch);
    }
  }

  lemma AskingPass(w: World, ch: Choice)
    requires Going(w) && w.obj.Some? && Asking(w) && Cooperative(ch)
    ensures var w1 := Pass(w, ch);
      w1.proc.None? && (w1.obj.Some? ==> w1.obj.value.deleting) && Rank(w1) < Rank(w)
  {
    GoingMeans(w);
    hide Going, Idle, Pass;
    var s := w.obj.value.status;
    if s.id.Some? {
      if ch.async && s.id.value in w.insts {
        DeletionStarts(w, s.id.value, ch);
      } else {
        DeletionAtOnce(w, s.id.value, ch);
      }
    } else if w.insts == map[] {
      DeletionUnlisted(w, ch);
    } else {
      var i :| w.insts.Keys == {i};
      DeletionFinds(w, i, ch);
    }
  }

  /** No pass raises the rank, and one that finds SM done lowers it. */
  lemma PassProgress(w: World, ch: Choice)
    requires Going(w) && Cooperative(ch)
    ensures var w1 := Pass(w, ch);
      Going(w1) && Rank(w1) <= Rank(w) && (Idle(w) && Rank(w) > 0 ==> Rank(w1) < Rank(w))
  {
    PassInv(w, ch);
    if w.obj.Some? {
      GoingMeans(w);
      hide Inv, Idle, Pass, Rank;
      if Leaving(w) {
        LeavingPass(w, ch);
      } else {
        AskingPass(w, ch);
      }
    }
  }

  /** SM makes more work only by refusing. */
  lemma FinishProgress(w: World, good: bool)
    requires Going(w)
    ensures var w1 := Moved(w, Ends(good));
      Going(w1) && Rank(w1) <= Rank(w) + (if good then 0 else 2)
  {
    if i :| Busy(w, i) {
      var j :| Busy(w, j) && Moved(w, Ends(good)) == SmFinish(w, j, good);
      assert Inv(SmFinish(w, j, good)) by { hide Inv; StepKeeps(w, Operate(j, good)); }
      FinishRank(w, j, good);
      hide Inv, Rank;
    }
  }

  lemma FinishRank(w: World, i: Id, good: bool)
    requires Going(w) && Busy(w, i)
    ensures Rank(SmFinish(w, i, good)) <= Rank(w) + (if good then 0 else 2)
  {
  }

  /** Once the resource is gone, so is everything else, for good. */
  lemma {:induction false} GoneStays(w: World, moves: seq<Move>)
    requires Going(w) && w.obj.None?
    ensures MovedAll(w, moves) == w && w.insts == map[]
    decreases |moves|
  {
    if moves != [] {
      assert Moved(w, moves[0]) == w;
      hide Going, Moved;
      GoneStays(w, moves[1..]);
    }
  }

  lemma {:induction false} MovesDelete(w: World, moves: seq<Move>)
    requires Going(w) && Answered(moves) && IdlePasses(w, moves) >= Rank(w) + 2 * Refusals(moves)
    ensures var w1 := MovedAll(w, moves); Going(w1) && w1.obj.None? && w1.insts == map[]
    decreases |moves|
  {
    if w.obj.None? {
      GoneStays(w, moves);
    } else {
      assert moves != [];
      hide Going, Pass, Idle;
      match moves[0] {
        case Ends(good) => FinishProgress(w, good);
        case Reconcile(ch) => PassProgress(w, ch);
      }
      hide Moved;
      MovesDelete(Moved(w, moves[0]), moves[1..]);
    }
  }

  /**
   Deletion ends: from every reachable world, once an instance is marked for deletion, any mixture of answered
   passes and operations that SM finishes leaves neither the resource nor anything in SM, as soon as three
   passes have found SM done, and two more for each operation that it ended badly.
   */
  lemma DeletionEnds(w: World, moves: seq<Move>)
    requires Reachable(w) && w.proc.None? && w.obj.Some? && w.obj.value.deleting
    requires Answered(moves) && IdlePasses(w, moves) >= 3 + 2 * Refusals(moves)
    ensures var w1 := MovedAll(w, moves); w1.obj.None? && w1.insts == map[] && w1.proc.None?
  {
    hide Reachable, MovedAll, IdlePasses, Refusals;
    ReachableInv(w);
    MovesDelete(w, moves);
  }
}
