/**
 Deletion of a binding: what each undisturbed pass leaves, and that the resource goes however often SM
 refuses, once it does what it is asked.
 */
module BindingDeletes {
  import opened Options
  import opened Remote
  import opened BindingWorld
  import opened BindingReconciler
  import opened BindingInvariant
  import opened BindingProgress
  import opened BindingEnds
  import opened BindingLater
  import BindingRuns
  import BindingSafety
  import BindingTold

  lemma RefusedCall(w: World, m: Name, c: Binding, b: Id, ch: Choice)
    requires Calm(ch) && c.deleting && c.status.opUrl == Some(OpUrl(Delete, b)) && b in w.sm && w.sm[b].unbinding == Refused
    ensures Advance(Go(w, m, c, c.status, PollStatus), m, ch) ==
            Go(w, m, c.(status := c.status.Unsucceeded().NoOperation()), c.status, Save)
  {
    GoGo(w, m, c, c.status, PollStatus, c.(status := c.status.Unsucceeded().NoOperation()), c.status, Save);
  }

  /**
   The poll that finds the removal refused: the operation is forgotten and no success reported, while the id
   and the secret are kept, and SM is left alone.
   */
  lemma DeletionRefused(w: World, m: Name, b: Id, ch: Choice)
    requires Removing(w, m, b) && b in w.sm && w.sm[b].unbinding == Refused && Calm(ch)
    ensures m in Pass(w, m, ch).bindings
    ensures var o := w.bindings[m];
      var w1 := Pass(w, m, ch);
      var s1 := w1.bindings[m].status;
      && w1 == w.(bindings := w.bindings[m := o.(rv := w.clock, status := s1)], clock := w.clock + 1)
      && s1.id == Some(b) && s1.opUrl.None? && s1.opType.None? && s1.succeeded == Some(false) && s1.readyCond == Some(o.status.ready)
      && s1.ready == o.status.ready && s1.rotation == o.status.rotation && s1.pendingTermination == o.status.pendingTermination
      && Leaving(w1, m, b)
  {
    var o := w.bindings[m];
    var s := o.status.Unsucceeded().NoOperation();
    var w1 := PutStatus(w, m, s);
    assert Begin(w, m) == Go(w, m, o, o.status, FetchInstance);
    assert w1 == w.(bindings := w.bindings[m := o.(status := s, rv := w.clock)], clock := w.clock + 1);
    hide Drain, Advance, Go, PutStatus;
    PollCall(w, m, o, ch);
    Calls(w, m, o, o.status, FetchInstance, w, o, o.status, PollStatus, ch, 14);
    RefusedCall(w, m, o, b, ch);
    Calls(w, m, o, o.status, PollStatus, w, o.(status := s), o.status, Save, ch, 13);
    SaveCall(w, m, o.(status := s), o.status, ch, 12);
  }

  // ----- without an id

  /** A resource marked for deletion that records no binding. */
  predicate Unnamed(w: World, m: Name) {
    && m in w.bindings && m !in w.procs
    && var o := w.bindings[m];
    && o.deleting && o.finalizer && o.status.id.None? && !Unbinds(o.status) && o.status.HasConditions()
  }

  lemma FoundCall(w: World, m: Name, c: Binding, b: Id, ch: Choice)
    requires Calm(ch) && Finds(w, m, b) && c.externalName == w.bindings[m].externalName
    ensures Advance(Go(w, m, c, c.status, DeleteQuery), m, ch) ==
            Go(w, m, c.(status := c.status.WithId(b).Unsucceeded()), c.status, Save)
  {
    OneMatch(Go(w, m, c, c.status, DeleteQuery), c.externalName, m, b);
    GoGo(w, m, c, c.status, DeleteQuery, c.(status := c.status.WithId(b).Unsucceeded()), c.status, Save);
  }

  /** SM is asked for the binding; the one it shows is recorded, so that the next pass removes it. */
  lemma DeletionFinds(w: World, m: Name, b: Id, ch: Choice)
    requires Unnamed(w, m) && Finds(w, m, b) && Calm(ch)
    ensures m in Pass(w, m, ch).bindings
    ensures var o := w.bindings[m];
      var w1 := Pass(w, m, ch);
      var s1 := w1.bindings[m].status;
      && w1 == w.(bindings := w.bindings[m := o.(rv := w.clock, status := s1)], clock := w.clock + 1)
      && s1.id == Some(b) && s1.opUrl == o.status.opUrl && s1.opType == o.status.opType && s1.succeeded == Some(false)
      && s1.ready == o.status.ready && s1.readyCond == Some(o.status.ready)
      && Leaving(w1, m, b)
  {
    var o := w.bindings[m];
    var s := o.status.WithId(b).Unsucceeded();
    var w1 := PutStatus(w, m, s);
    assert Begin(w, m) == Go(w, m, o, o.status, FetchInstance);
    assert w1 == w.(bindings := w.bindings[m := o.(status := s, rv := w.clock)], clock := w.clock + 1);
    hide Drain, Advance, Go, PutStatus, Finds;
    LeaveCall(w, m, o, ch);
    Calls(w, m, o, o.status, FetchInstance, w, o, o.status, DeleteQuery, ch, 14);
    FoundCall(w, m, o, b, ch);
    Calls(w, m, o, o.status, DeleteQuery, w, o.(status := s), o.status, Save, ch, 13);
    SaveCall(w, m, o.(status := s), o.status, ch, 12);
  }

  lemma UnfoundCall(w: World, m: Name, c: Binding, ch: Choice)
    requires Calm(ch) && forall b :: !Named(w.sm, b, m)
    ensures Advance(Go(w, m, c, c.status, DeleteQuery), m, ch) == Go(w, m, c, c.status, DeleteDropSecret)
  {
    NoMatch(Go(w, m, c, c.status, DeleteQuery), c.externalName, m);
    GoGo(w, m, c, c.status, DeleteQuery, c, c.status, DeleteDropSecret);
  }

  /** If SM shows none, the resource and its secret are gone. */
  lemma DeletionUnfound(w: World, m: Name, ch: Choice)
    requires Unnamed(w, m) && Nameless(w.sm, m) && Calm(ch)
    ensures Pass(w, m, ch) == Gone(w, m)
  {
    var o := w.bindings[m];
    var w1 := DropSecret(w, m);
    assert Begin(w, m) == Go(w, m, o, o.status, FetchInstance);
    assert w1.bindings == w.bindings && w1.procs == w.procs && w1.clock == w.clock;
    assert w1.(bindings := w1.bindings - {m}, clock := w1.clock + 1) == Gone(w, m);
    hide Drain, Advance, Go, DropSecret, Named, Gone;
    LeaveCall(w, m, o, ch);
    Calls(w, m, o, o.status, FetchInstance, w, o, o.status, DeleteQuery, ch, 14);
    UnfoundCall(w, m, o, ch);
    Calls(w, m, o, o.status, DeleteQuery, w, o, o.status, DeleteDropSecret, ch, 13);
    DropSecretCall(w, m, o, ch);
    Calls(w, m, o, o.status, DeleteDropSecret, w1, o, o.status, DeleteRemoveFinalizer, ch, 12);
    ReleaseCall(w1, m, o, ch);
    Stops(w1, m, o, o.status, DeleteRemoveFinalizer, w1.(bindings := w1.bindings - {m}, clock := w1.clock + 1), ch, 11);
  }

  // ----- however often SM refuses

  /** SM finishes an operation of a binding, one way or the other, or the resource is reconciled. */
  datatype Move = Ends(b: Id, good: bool) | Reconcile(ch: Choice)

  ghost function Moved(w: World, m: Name, move: Move): World {
    match move
    case Ends(b, good) => SmFinish(w, b, good)
    case Reconcile(ch) => Reconciled(w, m, ch)
  }

  ghost function MovedAll(w: World, m: Name, moves: seq<Move>): World
    decreases |moves|
  {
    if moves == [] then w else MovedAll(Moved(w, m, moves[0]), m, moves[1..])
  }

  predicate Answered(moves: seq<Move>) {
    forall k :: 0 <= k < |moves| && moves[k].Reconcile? ==> Calm(moves[k].ch)
  }

  /** SM is not removing the binding whose removal the resource records. */
  predicate Idle(w: World, m: Name) {
    m in w.bindings && Unbinds(w.bindings[m].status) && w.bindings[m].status.id.Some? && w.bindings[m].status.id.value in w.sm ==>
      w.sm[w.bindings[m].status.id.value].unbinding != Asked
  }

  /** The reconciles that find SM idle. */
  ghost function IdlePasses(w: World, m: Name, moves: seq<Move>): nat
    decreases |moves|
  {
    if moves == [] then 0
    else (if moves[0].Reconcile? && Idle(w, m) then 1 else 0) + IdlePasses(Moved(w, m, moves[0]), m, moves[1..])
  }

  /** The operations that SM ends badly. */
  function Refusals(moves: seq<Move>): nat
    decreases |moves|
  {
    if moves == [] then 0 else (if moves[0].Ends? && !moves[0].good then 1 else 0) + Refusals(moves[1..])
  }

  /** Between its reconciles, a resource marked for deletion, with all that SM attributes to it within its reach. */
  ghost predicate Marked(w: World, m: Name) {
    && m in w.bindings
    && var o := w.bindings[m];
    && o.deleting && o.finalizer && o.status.HasConditions()
    && (Unbinds(o.status) ==>
          o.status.id.Some? && o.status.opUrl == Some(OpUrl(Delete, o.status.id.value))
          && (o.status.id.value in w.sm ==> w.sm[o.status.id.value].unbinding != NotAsked))
    && (forall b :: Named(w.sm, b, m) ==> w.sm[b].name == o.externalName && (o.status.id.Some? ==> o.status.id == Some(b)))
    && (forall b, b' :: Named(w.sm, b, m) && Named(w.sm, b', m) ==> b == b')
  }

  /** Marked, or gone with its secret and everything SM attributed to it. */
  ghost predicate Going(w: World, m: Name) {
    m !in w.procs && if m in w.bindings then Marked(w, m) else m !in w.secrets && Nameless(w.sm, m)
  }

  /** The passes a deletion still needs when SM does what it is asked. */
  ghost function Rank(w: World, m: Name): nat {
    if m !in w.bindings then 0
    else
      var s := w.bindings[m].status;
      if Unbinds(s) then (if s.id.Some? && s.id.value in w.sm && w.sm[s.id.value].unbinding == Refused then 3 else 1)
      else if s.id.Some? then 2
      else if Nameless(w.sm, m) then 1
      else 3
  }

  /** The resource answers for `b`, or SM does not hold it. */
  ghost predicate Charged(w: World, m: Name, b: Id) {
    b in w.sm ==> Keeps(w.bindings, w.sm, m, b)
  }

  /** A pass of the resource touches nothing but what is its own. */
  ghost predicate Spares(w: World, w1: World, m: Name) {
    && w1.bindings - {m} == w.bindings - {m} && w1.secrets - {m} == w.secrets - {m} && w1.procs == w.procs
    && w1.sm.Keys <= w.sm.Keys
    && forall b :: b in w.sm && !Keeps(w.bindings, w.sm, m, b) ==> b in w1.sm && w1.sm[b] == w.sm[b]
  }

  /** What one pass is worth. */
  ghost predicate Worth(w: World, w1: World, m: Name) {
    && Going(w1, m) && Spares(w, w1, m)
    && Rank(w1, m) <= Rank(w, m) && (Idle(w, m) && Rank(w, m) > 0 ==> Rank(w1, m) < Rank(w, m))
    && (forall b :: Charged(w, m, b) ==> Charged(w1, m, b))
    && (forall b :: b in w1.sm && Keeps(w1.bindings, w1.sm, m, b) ==> Keeps(w.bindings, w.sm, m, b))
  }

  lemma GoneWorth(w: World, m: Name)
    requires Going(w, m) && Marked(w, m)
    requires var s := w.bindings[m].status; if s.id.Some? then s.id.value !in w.sm else Nameless(w.sm, m)
    requires Unbinds(w.bindings[m].status) || w.bindings[m].status.id.None?
    ensures Worth(w, Gone(w, m), m)
  {
    assert Gone(w, m).bindings - {m} == w.bindings - {m};
  }

  lemma LeftWorth(w: World, m: Name, b: Id)
    requires Going(w, m) && Marked(w, m) && w.bindings[m].status.id == Some(b) && !Unbinds(w.bindings[m].status)
    ensures Worth(w, Left(w, m, b), m)
  {
    assert Left(w, m, b).bindings - {m} == w.bindings - {m};
    assert forall b' :: Named(w.sm, b', m) ==> b' == b;
  }

  lemma BeingLeftWorth(w: World, m: Name, b: Id)
    requires Going(w, m) && Marked(w, m) && w.bindings[m].status.id == Some(b) && !Unbinds(w.bindings[m].status) && b in w.sm
    ensures Worth(w, BeingLeft(w, m, b), m)
  {
    var w1 := BeingLeft(w, m, b);
    assert w1.bindings - {m} == w.bindings - {m};
    assert forall b', x :: Named(w1.sm, b', x) <==> Named(w.sm, b', x);
  }

  /** A write of a status that records no removal, and a binding the resource answers for. */
  lemma RecordedWorth(w: World, m: Name, b: Id, s: Status)
    requires Going(w, m) && Marked(w, m) && !Unbinds(s) && s.HasConditions() && s.id == Some(b)
    requires if w.bindings[m].status.id.Some? then w.bindings[m].status.id == Some(b) else Named(w.sm, b, m)
    requires Rank(w, m) == 3
    ensures Worth(w, PutStatus(w, m, s), m)
  {
    assert PutStatus(w, m, s).bindings - {m} == w.bindings - {m};
    assert w.bindings[m].status.id.None? ==> forall b' :: Named(w.sm, b', m) ==> b' == b;
  }

  lemma WaitWorth(w: World, m: Name)
    requires Going(w, m) && !Idle(w, m)
    ensures Worth(w, w, m)
  {
  }

  lemma PassWorth(w: World, m: Name, ch: Choice)
    requires Going(w, m) && m in w.bindings && Calm(ch)
    ensures Worth(w, Pass(w, m, ch), m)
  {
    var s := w.bindings[m].status;
    hide Pass, Worth, Spares, Gone, Left, BeingLeft, PutStatus, Charged;
    if Unbinds(s) {
      var b := s.id.value;
      assert Removing(w, m, b);
      if b !in w.sm {
        DeletionSeen(w, m, b, ch);
        GoneWorth(w, m);
      } else if w.sm[b].unbinding == Asked {
        DeletionWaits(w, m, b, ch);
        WaitWorth(w, m);
      } else {
        RefusedIs(w, m, b, ch);
        RecordedWorth(w, m, b, Pass(w, m, ch).bindings[m].status);
      }
    } else if s.id.Some? {
      var b := s.id.value;
      if ch.async && b in w.sm {
        DeletionStarts(w, m, b, ch);
        BeingLeftWorth(w, m, b);
      } else {
        DeletionCompletes(w, m, b, ch);
        LeftWorth(w, m, b);
      }
    } else if Nameless(w.sm, m) {
      DeletionUnfound(w, m, ch);
      GoneWorth(w, m);
    } else {
      var b :| Named(w.sm, b, m);
      assert Finds(w, m, b);
      FoundIs(w, m, b, ch);
      RecordedWorth(w, m, b, Pass(w, m, ch).bindings[m].status);
    }
  }

  lemma RefusedIs(w: World, m: Name, b: Id, ch: Choice)
    requires Removing(w, m, b) && b in w.sm && w.sm[b].unbinding == Refused && Calm(ch)
    ensures var w1 := Pass(w, m, ch);
      m in w1.bindings && var s := w1.bindings[m].status;
      w1 == PutStatus(w, m, s) && s.id == Some(b) && s.HasConditions() && !Unbinds(s)
  {
    hide Pass;
    DeletionRefused(w, m, b, ch);
  }

  lemma FoundIs(w: World, m: Name, b: Id, ch: Choice)
    requires Unnamed(w, m) && Finds(w, m, b) && Calm(ch)
    ensures var w1 := Pass(w, m, ch);
      m in w1.bindings && var s := w1.bindings[m].status;
      w1 == PutStatus(w, m, s) && s.id == Some(b) && s.HasConditions() && !Unbinds(s)
  {
    hide Pass, Finds;
    DeletionFinds(w, m, b, ch);
  }

  /** No pass raises the rank, and one that finds SM idle lowers it. */
  lemma PassProgress(w: World, m: Name, ch: Choice)
    requires Going(w, m) && Calm(ch)
    ensures Worth(w, Reconciled(w, m, ch), m)
  {
    hide Pass;
    if m in w.bindings {
      hide Worth;
      PassWorth(w, m, ch);
    }
  }

  /** What SM may do to a binding when it finishes an operation. */
  ghost predicate Settles(w: World, w1: World, b: Id, good: bool) {
    && w1 == w.(sm := w1.sm) && w1.sm.Keys <= w.sm.Keys
    && (forall b' :: b' in w.sm && b' != b ==> b' in w1.sm && w1.sm[b'] == w.sm[b'])
    && (b in w1.sm ==>
          && w1.sm[b].name == w.sm[b].name && w1.sm[b].k8sName == w.sm[b].k8sName
          && (w1.sm[b].unbinding == w.sm[b].unbinding || (!good && w.sm[b].unbinding == Asked && w1.sm[b].unbinding == Refused)))
  }

  lemma FinishSettles(w: World, b: Id, good: bool)
    ensures Settles(w, SmFinish(w, b, good), b, good)
  {
  }

  lemma SettlesNames(w: World, w1: World, b: Id, good: bool)
    requires Settles(w, w1, b, good)
    ensures forall b', x :: Named(w1.sm, b', x) ==> Named(w.sm, b', x) && w1.sm[b'].name == w.sm[b'].name
    ensures forall b', x :: Named(w.sm, b', x) && b' in w1.sm ==> Named(w1.sm, b', x)
  {
  }

  lemma SettlesGoing(w: World, w1: World, m: Name, b: Id, good: bool)
    requires Going(w, m) && Settles(w, w1, b, good)
    ensures Going(w1, m)
  {
    SettlesNames(w, w1, b, good);
    hide Named;
  }

  lemma SettlesRank(w: World, w1: World, m: Name, b: Id, good: bool)
    requires Settles(w, w1, b, good)
    ensures Rank(w1, m) <= Rank(w, m) + (if good then 0 else 2)
  {
    SettlesNames(w, w1, b, good);
    hide Named;
  }

  lemma SettlesCharged(w: World, w1: World, m: Name, b: Id, good: bool)
    requires Settles(w, w1, b, good)
    ensures forall b' :: Charged(w, m, b') ==> Charged(w1, m, b')
    ensures forall b' :: b' in w1.sm && Keeps(w1.bindings, w1.sm, m, b') ==> Keeps(w.bindings, w.sm, m, b')
  {
    SettlesNames(w, w1, b, good);
    hide Named;
  }

  // ----- all moves

  /** The moves do not finish an operation of `b`. */
  predicate LeftAlone(moves: seq<Move>, b: Id) {
    forall k :: 0 <= k < |moves| && moves[k].Ends? ==> moves[k].b != b
  }

  /** Nothing but what the resource answers for, and what SM finishes, has changed. */
  ghost predicate Confined(w: World, w1: World, m: Name, moves: seq<Move>) {
    && w1.bindings - {m} == w.bindings - {m} && w1.secrets - {m} == w.secrets - {m} && w1.procs == w.procs
    && w1.sm.Keys <= w.sm.Keys
    && forall b :: b in w.sm && !Keeps(w.bindings, w.sm, m, b) && LeftAlone(moves, b) ==> b in w1.sm && w1.sm[b] == w.sm[b]
  }

  ghost predicate Ended(w: World, w1: World, m: Name, moves: seq<Move>) {
    && Going(w1, m) && m !in w1.bindings && Confined(w, w1, m, moves)
    && forall b :: Charged(w, m, b) ==> b !in w1.sm
  }

  /** One move. */
  ghost predicate Proceeds(w: World, w1: World, m: Name, move: Move) {
    && Going(w1, m) && Confined(w, w1, m, [move])
    && (forall b :: Charged(w, m, b) ==> Charged(w1, m, b))
    && (forall b :: b in w1.sm && Keeps(w1.bindings, w1.sm, m, b) ==> Keeps(w.bindings, w.sm, m, b))
  }

  lemma MoveProgress(w: World, m: Name, move: Move)
    requires Going(w, m) && (move.Reconcile? ==> Calm(move.ch))
    ensures var w1 := Moved(w, m, move);
      && Proceeds(w, w1, m, move)
      && Rank(w1, m) <= Rank(w, m) + (if move.Ends? && !move.good then 2 else 0)
      && (move.Reconcile? && Idle(w, m) && Rank(w, m) > 0 ==> Rank(w1, m) < Rank(w, m))
  {
    hide Going, Rank, Idle, Charged, Reconciled, SmFinish, Keeps;
    match move {
      case Ends(b, good) =>
        var w1 := SmFinish(w, b, good);
        FinishSettles(w, b, good);
        SettlesGoing(w, w1, m, b, good);
        SettlesRank(w, w1, m, b, good);
        SettlesCharged(w, w1, m, b, good);
        assert forall b' :: LeftAlone([move], b') ==> b' != b by { OneMove(move); }
      case Reconcile(ch) => PassProgress(w, m, ch);
    }
  }

  lemma OneMove(move: Move)
    ensures forall b :: LeftAlone([move], b) && move.Ends? ==> move.b != b
  {
    assert [move][0] == move;
  }

  lemma ConfinedThen(w: World, w1: World, w2: World, m: Name, moves: seq<Move>)
    requires moves != [] && Proceeds(w, w1, m, moves[0]) && Ended(w1, w2, m, moves[1..])
    ensures Ended(w, w2, m, moves)
  {
    hide Going, Charged;
    forall b | b in w.sm && !Keeps(w.bindings, w.sm, m, b) && LeftAlone(moves, b)
      ensures b in w2.sm && w2.sm[b] == w.sm[b]
    {
      assert LeftAlone([moves[0]], b) && LeftAlone(moves[1..], b);
    }
  }

  lemma {:induction false} GoneStays(w: World, m: Name, moves: seq<Move>)
    requires Going(w, m) && m !in w.bindings && Answered(moves)
    ensures Ended(w, MovedAll(w, m, moves), m, moves)
    decreases |moves|
  {
    if moves == [] {
      hide Named;
    } else {
      var w1 := Moved(w, m, moves[0]);
      assert m !in w1.bindings by { hide Pass; }
      hide Going, Moved, Proceeds, Ended;
      MoveProgress(w, m, moves[0]);
      assert Going(w1, m) by { hide Confined, Charged; MoveGoing(w, w1, m, moves[0]); }
      GoneStays(w1, m, moves[1..]);
      ConfinedThen(w, w1, MovedAll(w1, m, moves[1..]), m, moves);
    }
  }

  lemma MoveGoing(w: World, w1: World, m: Name, move: Move)
    requires Proceeds(w, w1, m, move)
    ensures Going(w1, m)
  {
  }

  lemma {:induction false} MovesDelete(w: World, m: Name, moves: seq<Move>)
    requires Going(w, m) && Answered(moves) && IdlePasses(w, m, moves) >= Rank(w, m) + 2 * Refusals(moves)
    ensures Ended(w, MovedAll(w, m, moves), m, moves)
    decreases |moves|
  {
    if m !in w.bindings {
      GoneStays(w, m, moves);
    } else {
      assert moves != [] && Rank(w, m) > 0;
      var w1 := Moved(w, m, moves[0]);
      hide Going, Moved, Proceeds, Ended, Idle, Rank;
      MoveProgress(w, m, moves[0]);
      MoveGoing(w, w1, m, moves[0]);
      MovesDelete(w1, m, moves[1..]);
      ConfinedThen(w, w1, MovedAll(w1, m, moves[1..]), m, moves);
    }
  }

  /** A reachable resource that is marked for deletion is as `Marked` says. */
  lemma ReachedMarked(w: World, m: Name)
    requires BindingRuns.Reachable(w) && m in w.bindings && m !in w.procs && w.bindings[m].deleting
    ensures Going(w, m)
  {
    hide BindingRuns.Reachable, Inv, Global, Marked, BindingTold.StoredTold, ShapesOk, NamesOk, OneName;
    BindingTold.ReachableTold(w);
    BindingSafety.ReachableGlobal(w);
    assert BindingTold.StoredTold(w, w.bindings[m]);
    HeldAlone(w, m);
    hide BindingTold.AllTold, OneHolder, BackupsMatch, OneBackup, FinalizersOk, Tracked, SecretsOk;
    ToldMarked(w, m);
  }

  lemma ToldMarked(w: World, m: Name)
    requires m in w.bindings && w.bindings[m].deleting
    requires BindingTold.StoredTold(w, w.bindings[m]) && ShapesOk(w.bindings) && NamesOk(w.bindings, w.sm) && OneName(w.sm)
    requires forall b, b' :: Holds(w.bindings, m, b) && Named(w.sm, b', m) ==> b' == b
    ensures Marked(w, m)
  {
    assert StatusShape(w.bindings[m].status, true) && w.bindings[m].finalizer;
    assert forall b: Id :: w.bindings[m].status.id == Some(b) ==> Holds(w.bindings, m, b);
    hide ShapesOk;
  }

  lemma HeldAlone(w: World, m: Name)
    requires Global(w)
    ensures forall b, b' :: Holds(w.bindings, m, b) && Named(w.sm, b', m) ==> b' == b
  {
    hide Bounded, ShapesOk, OneName, NamesOk, OriginalsOk, OneHolder, OneBackup, ReadyOk, SecretsOk, FinalizersOk, LeftoversOk,
         Tracked, AskedOk, BackupsMatch, BackupsRetired;
  }

  /**
   Deletion ends: from every reachable world, once a binding is marked for deletion, any mixture of undisturbed
   reconciles of it and operations that SM finishes removes the resource, its secret, the SM binding it holds and
   those SM attributes to it, as soon as three reconciles have found SM idle, and two more for each operation that
   SM ended badly.  Nothing else changes but what SM finishes.
   */
  lemma DeletionEnds(w: World, m: Name, moves: seq<Move>)
    requires BindingRuns.Reachable(w) && m in w.bindings && m !in w.procs && w.bindings[m].deleting
    requires Answered(moves) && IdlePasses(w, m, moves) >= 3 + 2 * Refusals(moves)
    ensures var w1 := MovedAll(w, m, moves);
      && w1.bindings == w.bindings - {m} && w1.secrets == w.secrets - {m} && w1.procs == w.procs
      && w1.sm.Keys <= w.sm.Keys
      && (forall b: Id :: w.bindings[m].status.id == Some(b) || Named(w.sm, b, m) ==> b !in w1.sm)
      && (forall b :: b in w.sm && w.bindings[m].status.id != Some(b) && !Named(w.sm, b, m) && LeftAlone(moves, b) ==>
            b in w1.sm && w1.sm[b] == w.sm[b])
  {
    hide BindingRuns.Reachable, MovedAll, IdlePasses, Refusals, LeftAlone;
    ReachedMarked(w, m);
    MovesDelete(w, m, moves);
    var w1 := MovedAll(w, m, moves);
    assert w1.bindings - {m} == w1.bindings && w1.secrets - {m} == w1.secrets;
  }
}
