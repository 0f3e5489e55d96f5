/**
 A binding settles: unless it stands where no reconcile helps, any mixture of undisturbed reconciles and
 operations that SM finishes, well or badly, makes it ready and shows what it holds.
 */
module BindingSettles {
  import opened Options
  import opened Remote
  import opened BindingWorld
  import opened BindingReconciler
  import opened BindingInvariant
  import opened BindingProgress
  import opened BindingEnds
  import opened BindingLater
  import opened BindingPasses
  import opened BindingAnswers
  import BindingRuns
  import BindingSafety
  import BindingTold

  // ----- where it can stand

  /** What a status without a rotation says in every reachable world. */
  predicate Plausible(s: Status) {
    && StatusShape(s, false) && s.rotation == NotRotating && (s.HasConditions() ==> s.readyCond.Some?)
    && (s.id.Some? ==> s.HasConditions())
  }

  /** What SM holds of it agrees with what it says. */
  predicate Agrees(sm: Sm, s: Status, finalizer: bool) {
    s.id.Some? && s.id.value in sm ==>
      && finalizer && (s.ready ==> sm[s.id.value].provisioning == Done)
      && (s.opType == Some(Delete) ==> sm[s.id.value].unbinding != NotAsked)
  }

  /** SM attributes to it what it holds, or at most one binding that nobody has asked to be removed. */
  ghost predicate Attributed(w: World, n: Name)
    requires n in w.bindings
  {
    var o := w.bindings[n];
    && (forall b :: Named(w.sm, b, n) ==> w.sm[b].name == o.externalName && (o.status.id.Some? ==> o.status.id == Some(b)))
    && (forall b, b' :: Named(w.sm, b, n) && Named(w.sm, b', n) ==> b == b')
    && (o.status.id.None? ==> forall b :: Named(w.sm, b, n) ==> w.sm[b].unbinding == NotAsked)
  }

  /** An original between its reconciles, not marked for deletion, not rotating, and not due to rotate. */
  ghost predicate Sane(w: World, n: Name) {
    && Unmarked(w, n) && (forall b :: b in w.sm ==> b < w.nextId)
    && var o := w.bindings[n];
    && o.stale.None? && (o.forceRotate ==> o.policy != Some(true))
    && Plausible(o.status) && Agrees(w.sm, o.status, o.finalizer) && Attributed(w, n)
  }

  /** It is ready, reports success and shows the binding it holds, which SM has created. */
  predicate Shown(w: World, n: Name) {
    && n in w.bindings && n in w.secrets
    && var s := w.bindings[n].status;
    && s.id == Some(w.secrets[n]) && s.opUrl.None? && s.ready && s.readyCond == Some(true) && s.succeeded == Some(true)
    && w.secrets[n] in w.sm && w.sm[w.secrets[n]].provisioning == Done
  }

  /** It records the creation of a binding that SM is removing: the cleanup was asked for and not recorded. */
  predicate Racing(w: World, n: Name) {
    && n in w.bindings
    && var s := w.bindings[n].status;
    s.id.Some? && s.opType == Some(Create) && s.id.value in w.sm && w.sm[s.id.value].unbinding == Asked
  }

  /**
   It holds an id that SM does not know, and is not removing it; or a binding that is not ready, with nothing under
   way; or it would adopt one that SM failed to create.
   */
  ghost predicate Stuck(w: World, n: Name) {
    && n in w.bindings
    && var s := w.bindings[n].status;
    if s.id.Some? then
      if s.id.value !in w.sm then s.opType != Some(Delete)
      else s.opUrl.None? && !s.ready
    else exists b :: Named(w.sm, b, n) && w.sm[b].provisioning == Failed
  }

  ghost predicate Sure(w: World, n: Name) {
    !Stuck(w, n) && !Racing(w, n)
  }

  // ----- moves

  /** SM finishes the operation the resource records, one way or the other, or the resource is reconciled. */
  datatype Move = Ends(good: bool) | Reconcile(ch: Choice)

  ghost function Moved(w: World, n: Name, move: Move): World {
    match move
    case Ends(good) =>
      if n in w.bindings && w.bindings[n].status.opUrl.Some? then SmFinish(w, w.bindings[n].status.opUrl.value.resource, good) else w
    case Reconcile(ch) => Reconciled(w, n, ch)
  }

  ghost function MovedAll(w: World, n: Name, moves: seq<Move>): World
    decreases |moves|
  {
    if moves == [] then w else MovedAll(Moved(w, n, moves[0]), n, moves[1..])
  }

  predicate Answered(moves: seq<Move>) {
    forall k :: 0 <= k < |moves| && moves[k].Reconcile? ==> Calm(moves[k].ch)
  }

  /** SM is not busy with the recorded operation. */
  predicate Idle(w: World, n: Name) {
    n in w.bindings && w.bindings[n].status.opUrl.Some? && w.bindings[n].status.opUrl.value.resource in w.sm ==>
      SmStatus(w, w.bindings[n].status.opUrl.value) != InProgress
  }

  ghost function IdlePasses(w: World, n: Name, moves: seq<Move>): nat
    decreases |moves|
  {
    if moves == [] then 0
    else (if moves[0].Reconcile? && Idle(w, n) then 1 else 0) + IdlePasses(Moved(w, n, moves[0]), n, moves[1..])
  }

  function Refusals(moves: seq<Move>): nat
    decreases |moves|
  {
    if moves == [] then 0 else (if moves[0] == Ends(false) then 1 else 0) + Refusals(moves[1..])
  }

  /** The passes it still needs when SM does what it is asked. */
  function Rank(w: World, n: Name): nat
    requires n in w.bindings
  {
    var s := w.bindings[n].status;
    if s.id.None? then 2
    else if s.opUrl.None? then (if Shown(w, n) then 0 else 1)
    else if s.opType == Some(Create) then
      if s.id.value in w.sm && w.sm[s.id.value].provisioning == Failed then 4 else 1
    else if s.id.value in w.sm && w.sm[s.id.value].unbinding == Refused then 4
    else 3
  }

  /** What one pass is worth. */
  ghost predicate Worth(w: World, w1: World, n: Name) {
    && n in w.bindings && Sane(w1, n) && Sure(w1, n)
    && Rank(w1, n) <= Rank(w, n) && (Idle(w, n) && Rank(w, n) > 0 ==> Rank(w1, n) < Rank(w, n))
  }

  /** A new status of the same resource, and SM as far as the resource is concerned. */
  lemma RewrittenSane(w: World, w1: World, n: Name)
    requires Sane(w, n) && n in w1.bindings && Written(w, w1, n, w1.bindings[n].finalizer, w1.bindings[n].status)
    requires Plausible(w1.bindings[n].status) && Agrees(w1.sm, w1.bindings[n].status, w1.bindings[n].finalizer)
    requires Attributed(w1, n) && forall b :: b in w1.sm ==> b < w1.nextId
    ensures Sane(w1, n)
  {
    hide Named, Attributed, Agrees, Plausible;
  }

  lemma BoundAttributed(w: World, w1: World, n: Name)
    requires Sane(w, n) && Nameless(w.sm, n) && n in w1.bindings && w1.nextId == w.nextId + 1
    requires w1.bindings[n].externalName == w.bindings[n].externalName && w1.bindings[n].status.id == Some(w.nextId)
    requires exists v :: w1.sm == w.sm[w.nextId := SmBinding(w.bindings[n].externalName, Some(n), v, NotAsked, n)]
    ensures Attributed(w1, n) && forall b :: b in w1.sm ==> b < w1.nextId
  {
    assert forall b, x :: Named(w1.sm, b, x) <==> Named(w.sm, b, x) || (b == w.nextId && x == n);
  }

  lemma AskedWorth(w: World, w1: World, n: Name)
    requires Sane(w, n) && w.bindings[n].status.id.None? && Nameless(w.sm, n) && CreationRecorded(w, w1, n)
    ensures Worth(w, w1, n)
  {
    assert w1.sm == w.sm[w.nextId := SmBinding(w.bindings[n].externalName, Some(n), Pending, NotAsked, n)];
    BoundAttributed(w, w1, n);
    assert Plausible(w1.bindings[n].status) && Agrees(w1.sm, w1.bindings[n].status, true);
    hide Attributed, Named, Nameless;
    RewrittenSane(w, w1, n);
  }

  lemma CreatedWorth(w: World, w1: World, n: Name)
    requires Sane(w, n) && w.bindings[n].status.id.None? && Nameless(w.sm, n) && CreationShown(w, w1, n)
    ensures Worth(w, w1, n)
  {
    assert w1.sm == w.sm[w.nextId := SmBinding(w.bindings[n].externalName, Some(n), Done, NotAsked, n)];
    BoundAttributed(w, w1, n);
    assert Plausible(w1.bindings[n].status) && Agrees(w1.sm, w1.bindings[n].status, true);
    hide Attributed, Named, Nameless;
    RewrittenSane(w, w1, n);
  }

  lemma KeptAttributed(w: World, w1: World, n: Name)
    requires Sane(w, n) && n in w1.bindings && w1.sm == w.sm && w1.bindings[n].externalName == w.bindings[n].externalName
    requires w1.bindings[n].status.id == w.bindings[n].status.id
          || (w1.bindings[n].status.id.Some? && Named(w.sm, w1.bindings[n].status.id.value, n))
    ensures Attributed(w1, n)
  {
  }

  lemma AdoptedWorth(w: World, w1: World, n: Name, b: Id)
    requires Sane(w, n) && w.bindings[n].status.id.None? && Finds(w, n, b) && w.sm[b].provisioning != Failed && Recovered(w, w1, n, b)
    ensures Worth(w, w1, n)
  {
    ReadiedFacts(w, n);
    KeptAttributed(w, w1, n);
    assert w.sm[b].unbinding == NotAsked;
    hide Readied, Attributed, Named, Finds;
    assert Plausible(w1.bindings[n].status) && Agrees(w1.sm, w1.bindings[n].status, true);
    RewrittenSane(w, w1, n);
  }

  lemma SeenWorth(w: World, n: Name, b: Id)
    requires Sane(w, n) && Awaiting(w, n, b) && b in w.sm && w.sm[b].provisioning == Done
    ensures Worth(w, NewShown(w, n, b), n)
  {
    var w1 := NewShown(w, n, b);
    KeptAttributed(w, w1, n);
    hide Attributed, Named;
    RewrittenSane(w, w1, n);
  }

  lemma WaitWorth(w: World, n: Name)
    requires n in w.bindings && Sane(w, n) && Sure(w, n) && !Idle(w, n)
    ensures Worth(w, w, n)
  {
    hide Sane, Sure, Idle;
  }

  lemma CleanedWorth(w: World, w1: World, n: Name, b: Id, async: bool)
    requires Sane(w, n) && Failing(w, n, b) && CleanedUp(w, w1, n, b, async)
    ensures Worth(w, w1, n)
  {
    assert Attributed(w1, n) by {
      assert forall b', x :: Named(w1.sm, b', x) ==> Named(w.sm, b', x);
    }
    assert !async ==> Nameless(w1.sm, n);
    hide Attributed, Named;
    RewrittenSane(w, w1, n);
  }

  lemma EmptiedWorth(w: World, w1: World, n: Name, b: Id)
    requires Sane(w, n) && Rid(w, n, b) && Emptied(w, w1, n)
    ensures Worth(w, w1, n)
  {
    assert Nameless(w1.sm, n);
    assert Attributed(w1, n);
    hide Attributed, Named;
    RewrittenSane(w, w1, n);
  }

  lemma RestoredWorth(w: World, w1: World, n: Name, b: Id)
    requires Sane(w, n) && Fit(w, n, b) && Restored(w, w1, n, b)
    ensures Worth(w, w1, n)
  {
    KeptAttributed(w, w1, n);
    hide Attributed, Named;
    RewrittenSane(w, w1, n);
  }

  // ----- a pass

  lemma WantingPass(w: World, n: Name, ch: Choice)
    requires Sane(w, n) && Sure(w, n) && w.bindings[n].status.id.None? && Calm(ch)
    ensures Worth(w, Pass(w, n, ch), n)
  {
    hide Pass, Worth, CreationRecorded, CreationShown, Recovered;
    assert Wanting(w, n) by {
      hide Attributed, Named;
      var cond := w.bindings[n].status.readyCond;
      assert cond.Some? ==> cond == Some(cond.value);
      assert StatusShape(w.bindings[n].status, false);
      assert !w.bindings[n].status.ready && w.bindings[n].status.opUrl.None?;
      assert cond.Some? && cond.value ==> cond == Some(true);
    }
    if Nameless(w.sm, n) {
      if ch.async {
        CreationStarts(w, n, ch);
        AskedWorth(w, Pass(w, n, ch), n);
      } else {
        CreationCompletes(w, n, ch);
        CreatedWorth(w, Pass(w, n, ch), n);
      }
    } else {
      var b :| Named(w.sm, b, n);
      assert Finds(w, n, b);
      RecoveryAdopts(w, n, b, ch);
      AdoptedWorth(w, Pass(w, n, ch), n, b);
    }
  }

  lemma HoldingPass(w: World, n: Name, b: Id, ch: Choice)
    requires Sane(w, n) && Sure(w, n) && w.bindings[n].status.id == Some(b) && w.bindings[n].status.opUrl.None? && Calm(ch)
    ensures Worth(w, Pass(w, n, ch), n)
  {
    hide Pass, Worth, Restored, Attributed, Named;
    assert Fit(w, n, b) && Steady(w, n, b, ch);
    SecretRefreshed(w, n, b, ch);
    RestoredWorth(w, Pass(w, n, ch), n, b);
  }

  lemma PollingPass(w: World, n: Name, b: Id, ch: Choice)
    requires Sane(w, n) && Sure(w, n) && w.bindings[n].status.id == Some(b) && w.bindings[n].status.opUrl.Some? && Calm(ch)
    ensures Worth(w, Pass(w, n, ch), n)
  {
    hide Pass, Worth, CleanedUp, Emptied, NewShown, Attributed, Named;
    var s := w.bindings[n].status;
    if b in w.sm && SmStatus(w, s.opUrl.value) == InProgress {
      PollWaits(w, n, ch);
      WaitWorth(w, n);
    } else if b in w.sm && SmStatus(w, s.opUrl.value) == FailedOp {
      FailureCleans(w, n, b, ch);
      CleanedWorth(w, Pass(w, n, ch), n, b, ch.async);
    } else if s.opType == Some(Create) {
      CreationSeen(w, n, b, ch);
      SeenWorth(w, n, b);
    } else {
      CleanupSeen(w, n, b, ch);
      EmptiedWorth(w, Pass(w, n, ch), n, b);
    }
  }

  /** No pass raises the rank, and one that finds SM idle lowers it. */
  lemma PassProgress(w: World, n: Name, ch: Choice)
    requires Sane(w, n) && Sure(w, n) && Calm(ch)
    ensures Worth(w, Reconciled(w, n, ch), n)
  {
    ReconciledIs(w, n, ch);
    hide Pass, Worth, Sure, Attributed, Named, Reconciled;
    if w.bindings[n].status.id.None? {
      WantingPass(w, n, ch);
    } else if w.bindings[n].status.opUrl.None? {
      HoldingPass(w, n, w.bindings[n].status.id.value, ch);
    } else {
      PollingPass(w, n, w.bindings[n].status.id.value, ch);
    }
  }

  // ----- SM

  lemma FinishAttributed(w: World, n: Name, b: Id, good: bool)
    requires n in w.bindings && Attributed(w, n) && w.bindings[n].status.id.Some?
    ensures Attributed(SmFinish(w, b, good), n)
  {
    var w1 := SmFinish(w, b, good);
    assert forall b, x :: Named(w1.sm, b, x) ==> Named(w.sm, b, x) && w1.sm[b].name == w.sm[b].name;
  }

  lemma FinishWrites(w: World, n: Name, b: Id, good: bool)
    requires n in w.bindings
    ensures var w1 := SmFinish(w, b, good);
      && n in w1.bindings && w1.bindings[n] == w.bindings[n] && w1.nextId == w.nextId
      && Written(w, w1, n, w.bindings[n].finalizer, w.bindings[n].status)
  {
    assert w.bindings == w.bindings[n := w.bindings[n]];
  }

  lemma RecordedId(s: Status)
    requires Plausible(s) && s.opUrl.Some?
    ensures s.id.Some? && s.opUrl.value.resource == s.id.value
  {
  }

  lemma FinishSane(w: World, n: Name, good: bool)
    requires Sane(w, n)
    ensures Sane(Moved(w, n, Ends(good)), n)
  {
    hide Named, Attributed, Agrees, Plausible, SmFinish;
    var s := w.bindings[n].status;
    if s.opUrl.Some? {
      RecordedId(s);
      FinishAgrees(w, n, good);
      FinishAttributed(w, n, s.id.value, good);
      FinishWrites(w, n, s.id.value, good);
      RewrittenSane(w, SmFinish(w, s.id.value, good), n);
    }
  }

  lemma FinishSure(w: World, n: Name, good: bool)
    requires n in w.bindings && Plausible(w.bindings[n].status) && Sure(w, n)
    ensures var w1 := Moved(w, n, Ends(good)); Sure(w1, n) && n in w1.bindings
  {
    var s := w.bindings[n].status;
    var w1 := Moved(w, n, Ends(good));
    assert s.opUrl.None? ==> w1 == w;
    assert s.opUrl.Some? ==> s.id.Some? && w1 == SmFinish(w, s.id.value, good);
    if s.opUrl.Some? {
      var kind := s.opUrl.value.kind;
      assert s.opType == Some(kind) && (kind == Create || kind == Delete);
      assert s.id.value !in w1.sm ==> s.opType == Some(Delete);
    }
  }

  lemma FinishRank(w: World, n: Name, good: bool)
    requires n in w.bindings && Plausible(w.bindings[n].status)
    ensures var w1 := Moved(w, n, Ends(good));
      n in w1.bindings && Rank(w1, n) <= Rank(w, n) + (if good then 0 else 3)
  {
  }

  /** SM makes more work only by ending an operation badly. */
  lemma FinishProgress(w: World, n: Name, good: bool)
    requires Sane(w, n) && Sure(w, n)
    ensures var w1 := Moved(w, n, Ends(good));
      && n in w.bindings && Sane(w1, n) && Sure(w1, n) && Rank(w1, n) <= Rank(w, n) + (if good then 0 else 3)
  {
    hide Sure, Moved, Attributed, Agrees, Plausible, Rank;
    FinishSane(w, n, good);
    FinishSure(w, n, good);
    FinishRank(w, n, good);
  }

  lemma FinishAgrees(w: World, n: Name, good: bool)
    requires Sane(w, n)
    ensures var w1 := Moved(w, n, Ends(good));
      Agrees(w1.sm, w.bindings[n].status, w.bindings[n].finalizer) && forall b :: b in w1.sm ==> b < w.nextId
  {
    hide Named, Attributed;
  }

  lemma MoveProgress(w: World, n: Name, move: Move)
    requires Sane(w, n) && Sure(w, n) && (move.Reconcile? ==> Calm(move.ch))
    ensures var w1 := Moved(w, n, move);
      && n in w.bindings && Sane(w1, n) && Sure(w1, n) && n in w1.bindings
      && Rank(w1, n) <= Rank(w, n) + (if move == Ends(false) then 3 else 0)
      && (move.Reconcile? && Idle(w, n) && Rank(w, n) > 0 ==> Rank(w1, n) < Rank(w, n))
  {
    hide Sure, Rank, Idle, Reconciled, Attributed, Plausible, Agrees;
    match move {
      case Ends(good) => FinishProgress(w, n, good);
      case Reconcile(ch) => PassProgress(w, n, ch);
    }
  }

  lemma RankZero(w: World, n: Name)
    requires Sane(w, n) && Rank(w, n) == 0
    ensures Shown(w, n)
  {
  }

  /** Once it shows what it holds, it goes on doing so. */
  lemma {:induction false} ShownStays(w: World, n: Name, moves: seq<Move>)
    requires n in w.bindings && Sane(w, n) && Sure(w, n) && Answered(moves) && Rank(w, n) == 0
    ensures Shown(MovedAll(w, n, moves), n)
    decreases |moves|
  {
    RankZero(w, n);
    hide Sane, Sure, Idle, Rank;
    if moves != [] {
      MoveProgress(w, n, moves[0]);
      assert moves[0].Ends? ==> Moved(w, n, moves[0]) == w;
      hide Moved, Shown;
      ShownStays(Moved(w, n, moves[0]), n, moves[1..]);
    }
  }

  lemma {:induction false} MovesSettle(w: World, n: Name, moves: seq<Move>)
    requires n in w.bindings && Sane(w, n) && Sure(w, n) && Answered(moves)
    requires IdlePasses(w, n, moves) >= Rank(w, n) + 3 * Refusals(moves)
    ensures Shown(MovedAll(w, n, moves), n)
    decreases |moves|
  {
    hide Sane, Sure, Moved, Rank, Idle, Shown;
    if Rank(w, n) == 0 {
      ShownStays(w, n, moves);
    } else {
      MoveProgress(w, n, moves[0]);
      MovesSettle(Moved(w, n, moves[0]), n, moves[1..]);
    }
  }

  // ----- where no reconcile helps

  lemma StuckNameless(w: World, n: Name, ch: Choice)
    requires Sane(w, n) && Stuck(w, n) && w.bindings[n].status.id.None? && Calm(ch)
    ensures var w1 := Pass(w, n, ch); Sane(w1, n) && Stuck(w1, n)
  {
    var b :| Named(w.sm, b, n) && w.sm[b].provisioning == Failed;
    StuckWanting(w, n, b);
    hide Pass, Sane, Stuck, Recovered, Finds, Wanting;
    RecoveryAdopts(w, n, b, ch);
    StuckAdopted(w, Pass(w, n, ch), n, b);
  }

  lemma StuckHolding(w: World, n: Name, b: Id, ch: Choice)
    requires Sane(w, n) && Stuck(w, n) && w.bindings[n].status.id == Some(b) && Calm(ch)
    ensures var w1 := Pass(w, n, ch); Sane(w1, n) && Stuck(w1, n)
  {
    hide Pass, Attributed, Named;
    if b in w.sm {
      UnreadyStays(w, n, b, ch);
    } else if w.bindings[n].status.opUrl.None? {
      LossReported(w, n, b, ch);
      StuckLost(w, Pass(w, n, ch), n);
    } else {
      var kind := w.bindings[n].status.opUrl.value.kind;
      assert w.bindings[n].status.opType == Some(kind) && (kind == Create || kind == Delete);
      UnknownStays(w, n, b, ch);
      StuckLost(w, Pass(w, n, ch), n);
    }
  }

  /** A pass over a resource that is stuck leaves it stuck. */
  lemma StuckPass(w: World, n: Name, ch: Choice)
    requires Sane(w, n) && Stuck(w, n) && Calm(ch)
    ensures var w1 := Reconciled(w, n, ch); Sane(w1, n) && Stuck(w1, n)
  {
    ReconciledIs(w, n, ch);
    hide Pass, Reconciled, Stuck, Attributed, Named;
    if w.bindings[n].status.id.None? {
      StuckNameless(w, n, ch);
    } else {
      StuckHolding(w, n, w.bindings[n].status.id.value, ch);
    }
  }

  lemma StuckWanting(w: World, n: Name, b: Id)
    requires Sane(w, n) && Stuck(w, n) && w.bindings[n].status.id.None? && Named(w.sm, b, n)
    ensures Finds(w, n, b) && Wanting(w, n)
  {
    var cond := w.bindings[n].status.readyCond;
    assert cond.Some? ==> cond == Some(cond.value);
    assert StatusShape(w.bindings[n].status, false);
    assert !w.bindings[n].status.ready && w.bindings[n].status.opUrl.None?;
    assert cond.Some? && cond.value ==> cond == Some(true);
  }

  lemma StuckAdopted(w: World, w1: World, n: Name, b: Id)
    requires Sane(w, n) && w.bindings[n].status.id.None? && Finds(w, n, b) && w.sm[b].provisioning == Failed && Recovered(w, w1, n, b)
    ensures Sane(w1, n) && Stuck(w1, n)
  {
    ReadiedFacts(w, n);
    KeptAttributed(w, w1, n);
    assert w.sm[b].unbinding == NotAsked;
    assert StatusShape(w.bindings[n].status, false) && !w.bindings[n].status.ready;
    hide Readied, Attributed, Named, Finds;
    assert Plausible(w1.bindings[n].status) && Agrees(w1.sm, w1.bindings[n].status, true);
    RewrittenSane(w, w1, n);
  }

  lemma StuckLost(w: World, w1: World, n: Name)
    requires Sane(w, n) && Stuck(w, n) && w.bindings[n].status.id.Some? && w.bindings[n].status.id.value !in w.sm
    requires n in w1.bindings && OnlyWritten(w, w1, n, w.bindings[n].finalizer, w1.bindings[n].status)
    requires var s, s1 := w.bindings[n].status, w1.bindings[n].status;
      && s1.id == s.id && s1.opUrl == s.opUrl && s1.opType == s.opType && s1.rotation == NotRotating
      && ((s1.ready == s.ready && s1.readyCond == Some(s.ready)) || (!s1.ready && s1.readyCond == Some(false)))
    ensures Sane(w1, n) && Stuck(w1, n)
  {
    KeptAttributed(w, w1, n);
    hide Attributed, Named;
    RewrittenSane(w, w1, n);
  }

  lemma StuckMove(w: World, n: Name, move: Move)
    requires Sane(w, n) && Stuck(w, n) && (move.Reconcile? ==> Calm(move.ch))
    ensures n in w.bindings
    ensures var w1 := Moved(w, n, move); Sane(w1, n) && Stuck(w1, n)
  {
    match move {
      case Ends(good) => StuckEnds(w, n, good);
      case Reconcile(ch) => StuckPass(w, n, ch);
    }
  }

  lemma StuckEnds(w: World, n: Name, good: bool)
    requires Sane(w, n) && Stuck(w, n)
    ensures Moved(w, n, Ends(good)) == w
  {
    hide Named, Attributed;
  }

  lemma {:induction false} StuckStays(w: World, n: Name, moves: seq<Move>)
    requires Sane(w, n) && Stuck(w, n) && Answered(moves)
    ensures !Shown(MovedAll(w, n, moves), n)
    decreases |moves|
  {
    if moves == [] {
      hide Attributed, Named;
    } else {
      hide Sane, Stuck, Moved, Shown;
      StuckMove(w, n, moves[0]);
      StuckStays(Moved(w, n, moves[0]), n, moves[1..]);
    }
  }

  // ----- exactly

  /** However its reconciles and SM's operations are mixed, it ends up ready and shows what it holds. */
  ghost predicate Settles(w: World, n: Name) {
    forall moves :: Answered(moves) && IdlePasses(w, n, moves) >= 4 + 3 * Refusals(moves) ==> Shown(MovedAll(w, n, moves), n)
  }

  /** Four reconciles that find SM idle. */
  lemma FourPasses(w: World, n: Name)
    requires Sane(w, n) && Stuck(w, n)
    ensures var moves := seq(4, _ => Reconcile(Plain("")));
      Answered(moves) && Refusals(moves) == 0 && IdlePasses(w, n, moves) == 4
  {
    StuckPasses(w, n, seq(4, _ => Reconcile(Plain(""))));
  }

  lemma {:induction false} StuckPasses(w: World, n: Name, moves: seq<Move>)
    requires Sane(w, n) && Stuck(w, n) && forall k :: 0 <= k < |moves| ==> moves[k] == Reconcile(Plain(""))
    ensures Answered(moves) && Refusals(moves) == 0 && IdlePasses(w, n, moves) == |moves|
    decreases |moves|
  {
    if moves != [] {
      StuckIdle(w, n);
      hide Sane, Stuck, Moved, Idle;
      StuckMove(w, n, moves[0]);
      StuckPasses(Moved(w, n, moves[0]), n, moves[1..]);
    }
  }

  lemma StuckIdle(w: World, n: Name)
    requires Sane(w, n) && Stuck(w, n)
    ensures Idle(w, n)
  {
    hide Attributed, Named;
  }

  /** SM finishes the removal that is not recorded. */
  lemma RaceLost(w: World, n: Name)
    requires Sane(w, n) && Racing(w, n)
    ensures var w1 := Moved(w, n, Ends(true)); Sane(w1, n) && Stuck(w1, n)
  {
    FinishSane(w, n, true);
    hide Sane, Attributed, Named;
  }

  lemma StuckUnsettled(w: World, n: Name)
    requires Sane(w, n) && Stuck(w, n)
    ensures !Settles(w, n)
  {
    hide Sane, Stuck, Shown, Moved, Idle, MovedAll, IdlePasses, Refusals, Answered;
    FourPasses(w, n);
    StuckStays(w, n, seq(4, _ => Reconcile(Plain(""))));
  }

  lemma {:induction false} AfterEnds(w: World, n: Name, passes: seq<Move>)
    requires Answered(passes)
    ensures var moves := [Ends(true)] + passes;
      && Answered(moves) && Refusals(moves) == Refusals(passes)
      && MovedAll(w, n, moves) == MovedAll(Moved(w, n, Ends(true)), n, passes)
      && IdlePasses(w, n, moves) == IdlePasses(Moved(w, n, Ends(true)), n, passes)
  {
    var moves := [Ends(true)] + passes;
    assert moves[1..] == passes && moves[0] == Ends(true);
    hide Moved, Idle;
  }

  lemma RacingUnsettled(w: World, n: Name)
    requires Sane(w, n) && Racing(w, n)
    ensures !Settles(w, n)
  {
    RaceLost(w, n);
    hide Sane, Stuck, Shown, Moved, Idle, MovedAll, IdlePasses, Refusals, Answered;
    var passes := seq(4, _ => Reconcile(Plain("")));
    FourPasses(Moved(w, n, Ends(true)), n);
    StuckStays(Moved(w, n, Ends(true)), n, passes);
    AfterEnds(w, n, passes);
  }

  lemma Unsettled(w: World, n: Name)
    requires Sane(w, n) && !Sure(w, n)
    ensures !Settles(w, n)
  {
    hide Sane, Stuck, Racing, Settles;
    if Stuck(w, n) {
      StuckUnsettled(w, n);
    } else {
      RacingUnsettled(w, n);
    }
  }

  /** Of a reachable original that is neither marked nor rotating nor due to rotate. */
  predicate Calmly(w: World, n: Name) {
    && Unmarked(w, n)
    && var o := w.bindings[n];
    o.stale.None? && (o.forceRotate ==> o.policy != Some(true)) && o.status.rotation == NotRotating
  }

  lemma ReachedSane(w: World, n: Name)
    requires BindingRuns.Reachable(w) && Calmly(w, n)
    ensures Sane(w, n)
  {
    hide BindingRuns.Reachable, Inv, Global, Plausible, Agrees, Attributed, BindingTold.StoredTold, ShapesOk, NamesOk, OneName;
    BindingTold.ReachableTold(w);
    BindingSafety.ReachableGlobal(w);
    assert BindingTold.StoredTold(w, w.bindings[n]);
    GlobalParts(w, n);
    hide BindingTold.AllTold, OneHolder, BackupsMatch, OneBackup, Tracked, SecretsOk;
    ToldPlausible(w, n);
    HeldAgrees(w, n);
    NamedAttributed(w, n);
  }

  lemma GlobalParts(w: World, n: Name)
    requires Global(w)
    ensures forall b, b' :: Holds(w.bindings, n, b) && Named(w.sm, b', n) ==> b' == b
    ensures AskedOk(w.bindings, w.sm) && ReadyOk(w.bindings, w.sm, w.secrets) && FinalizersOk(w.bindings, w.sm, w.secrets)
    ensures forall b :: b in w.sm ==> b < w.nextId
  {
    hide ShapesOk, OneName, NamesOk, OriginalsOk, OneHolder, OneBackup, ReadyOk, SecretsOk, FinalizersOk, LeftoversOk,
         Tracked, AskedOk, BackupsMatch, BackupsRetired;
  }

  lemma ToldPlausible(w: World, n: Name)
    requires Calmly(w, n) && BindingTold.StoredTold(w, w.bindings[n]) && ShapesOk(w.bindings)
    ensures Plausible(w.bindings[n].status)
  {
    assert StatusShape(w.bindings[n].status, false);
    hide ShapesOk;
  }

  lemma HeldAgrees(w: World, n: Name)
    requires Calmly(w, n) && BindingTold.StoredTold(w, w.bindings[n])
    requires ReadyOk(w.bindings, w.sm, w.secrets) && FinalizersOk(w.bindings, w.sm, w.secrets)
    ensures Agrees(w.sm, w.bindings[n].status, w.bindings[n].finalizer)
  {
    assert forall b: Id :: w.bindings[n].status.id == Some(b) ==> Holds(w.bindings, n, b);
  }

  lemma NamedAttributed(w: World, n: Name)
    requires Calmly(w, n) && NamesOk(w.bindings, w.sm) && OneName(w.sm) && AskedOk(w.bindings, w.sm)
    requires forall b, b' :: Holds(w.bindings, n, b) && Named(w.sm, b', n) ==> b' == b
    ensures Attributed(w, n)
  {
    assert forall b: Id :: w.bindings[n].status.id == Some(b) ==> Holds(w.bindings, n, b);
    assert Original(w.bindings, n);
  }

  /**
   From every reachable world, an original that is neither marked for deletion nor rotating settles for certain if
   and only if it is not stuck and its cleanup is recorded: for every mixture of its undisturbed reconciles and of
   operations SM finishes, with four reconciles that find SM idle and three more for each operation that ended badly.
   */
  lemma SettlesExact(w: World, n: Name)
    requires BindingRuns.Reachable(w) && Calmly(w, n)
    ensures Settles(w, n) <==> !Stuck(w, n) && !Racing(w, n)
  {
    hide BindingRuns.Reachable, Calmly, Stuck, Racing;
    ReachedSane(w, n);
    if !Sure(w, n) {
      hide Sane, Settles;
      Unsettled(w, n);
    } else {
      SettlesSurely(w, n);
    }
  }

  lemma SettlesSurely(w: World, n: Name)
    requires Sane(w, n) && Sure(w, n)
    ensures Settles(w, n)
  {
    assert n in w.bindings && Rank(w, n) <= 4 by { hide Sure, Attributed, Plausible, Agrees; }
    hide Sane, Sure, Rank, Shown, MovedAll, IdlePasses, Refusals, Answered;
    forall moves | Answered(moves) && IdlePasses(w, n, moves) >= 4 + 3 * Refusals(moves)
      ensures Shown(MovedAll(w, n, moves), n)
    {
      MovesSettle(w, n, moves);
    }
  }
}
