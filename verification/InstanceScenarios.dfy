/** Runs from an empty cluster into each of the situations in which a property of instances fails. */
module InstanceScenarios {
  import opened Options
  import opened Remote
  import opened InstanceWorld
  import opened InstanceReconciler
  import opened InstanceInvariant
  import opened InstanceSafety
  import opened InstanceSpecs
  import opened InstanceTruth
  import opened InstanceConvergence
  import opened InstanceRank
  import opened InstanceConverges
  import opened InstanceLedger
  import opened InstanceLedgerRuns
  import opened InstanceExactness

  /** A new resource up to its first conditions. */
  lemma Unconditioned(wanted: Option<bool>, subscribed: bool) returns (w: World)
    ensures Arrived(w, EMPTY)
    ensures var o := Instance(0, 0, 1, 0, wanted, subscribed, false, false, FreshStatus);
      w == World(Some(o), map[], map[], Some(Proc(o, FreshStatus, InitConditions)), 1, 0)
  {
    hide Arrived;
    ArrivedInitially(NOWHERE);
    var a0 := UserCreate(0, wanted, subscribed);
    ArrivedStep(NOWHERE, EMPTY, a0);
    var w1 := Step(NOWHERE, a0);
    ArrivedStep(w1, EMPTY, Start);
    var w2 := Step(w1, Start);
    ArrivedStep(w2, EMPTY, Call(PLAIN));
    w := Step(w2, Call(PLAIN));
  }

  /** The same up to its first recovery query, which finds nothing. */
  lemma Conceived(wanted: Option<bool>, subscribed: bool) returns (w: World)
    ensures Arrived(w, EMPTY)
    ensures var o := Instance(0, 2, 1, 0, wanted, subscribed, true, false,
        FreshStatus.(succeeded := Some(Cond(false, 1, false)), readyCond := Some(Cond(false, 1, false)), observed := 1));
      w == World(Some(o), map[], map[], Some(Proc(o, o.status, Query)), 3, 0)
  {
    hide Arrived, AdvanceConnect, AdvancePollStatus, AdvancePollFetch, AdvancePollRemoveFinalizer, AdvanceCleanup, AdvanceDeleteQuery,
         AdvanceDeleteCall, AdvanceDeleteRemoveFinalizer, AdvanceCheckExists, AdvanceQuery, AdvanceBuild, AdvanceProvision,
         AdvanceUpdate, AdvanceShare;
    var w3 := Unconditioned(wanted, subscribed);
    ArrivedStep(w3, EMPTY, Call(PLAIN));
    var w4 := Step(w3, Call(PLAIN));
    assert w4.proc.value.pc == AddFinalizer;
    ArrivedStep(w4, EMPTY, Call(PLAIN));
    w := Step(w4, Call(PLAIN));
  }

  /** The same up to its creation. */
  lemma AboutToProvision(wanted: Option<bool>, subscribed: bool) returns (w: World)
    ensures Arrived(w, EMPTY)
    ensures var s := FreshStatus.(succeeded := Some(Cond(false, 1, false)), readyCond := Some(Cond(false, 1, false)), observed := 1);
      var o := Instance(0, 2, 1, 0, wanted, subscribed, true, false, s);
      w == World(Some(o), map[], map[], Some(Proc(o.(status := s.(hash := Of(0))), s, Provision)), 3, 0)
  {
    hide Arrived, AdvanceConnect, AdvancePollStatus, AdvancePollFetch, AdvancePollRemoveFinalizer, AdvanceCleanup,
         AdvanceDeleteQuery, AdvanceDeleteCall, AdvanceDeleteRemoveFinalizer, AdvanceCheckExists, AdvanceInit,
         AdvanceAddFinalizer, AdvanceProvision, AdvanceUpdate, AdvanceShare;
    var w1 := Conceived(wanted, subscribed);
    ArrivedStep(w1, EMPTY, Call(PLAIN));
    assert Listed(w1).None?;
    var w2 := Step(w1, Call(PLAIN));
    ArrivedStep(w2, EMPTY, Call(PLAIN));
    w := Step(w2, Call(PLAIN));
  }

  function CreatedStatus(async: bool): Status {
    if async then
      Status(Some(0), Some(OpUrl(Create, 0, 0)), Some(Create), Some(Cond(false, 1, false)), Some(Cond(false, 1, false)), false,
             Absent, Of(0), false, 1)
    else Status(Some(0), None, None, Some(Cond(true, 1, false)), Some(Cond(true, 1, false)), true, Absent, Of(0), false, 1)
  }

  function CreatedWorld(wanted: Option<bool>, subscribed: bool, async: bool): World {
    World(Some(Instance(0, 3, 1, 0, wanted, subscribed, true, false, CreatedStatus(async))),
          map[0 := Inst(0, 0, false)], map[0 := Op(Create, 0, if async then Running else Good, 0)], None, 4, 1)
  }

  /** A creation with specification 0, done at once or running. */
  lemma Created(wanted: Option<bool>, subscribed: bool, async: bool)
    ensures Arrived(CreatedWorld(wanted, subscribed, async), Ledger([0], 1, false))
  {
    hide Arrived, AdvanceConnect, AdvancePollStatus, AdvancePollFetch, AdvancePollRemoveFinalizer, AdvanceCleanup,
         AdvanceDeleteQuery, AdvanceDeleteCall, AdvanceDeleteRemoveFinalizer, AdvanceCheckExists, AdvanceInit,
         AdvanceAddFinalizer, AdvanceQuery, AdvanceBuild, AdvanceUpdate, AdvanceShare;
    var w1 := AboutToProvision(wanted, subscribed);
    var ch := PLAIN.(async := async);
    ArrivedStep(w1, EMPTY, Call(ch));
    var w2 := Step(w1, Call(ch));
    ArrivedStep(w2, Ledger([0], 0, true), Call(PLAIN));
    assert Step(w2, Call(PLAIN)) == CreatedWorld(wanted, subscribed, async);
  }

  // ----- sharing after a lost update

  /** An edited instance up to its update. */
  lemma AboutToUpdate(async: bool) returns (w: World)
    ensures Arrived(w, Ledger([0], 1, false))
    ensures var o := Instance(0, 4, 2, 1, None, false, true, false, CreatedStatus(false));
      w == World(Some(o), map[0 := Inst(0, 0, false)], map[0 := Op(Create, 0, Good, 0)], Some(Proc(o, o.status, UpdateCall)), 5, 1)
  {
    hide Arrived, AdvancePollStatus, AdvancePollFetch, AdvancePollRemoveFinalizer, AdvanceCleanup, AdvanceDeleteQuery,
         AdvanceDeleteCall, AdvanceDeleteRemoveFinalizer, AdvanceInit, AdvanceAddFinalizer, AdvanceQuery, AdvanceProvision,
         AdvanceUpdate, AdvanceShare;
    var h := Ledger([0], 1, false);
    Created(None, false, false);
    var w0 := CreatedWorld(None, false, false);
    var edit := UserEdit(1, None, false);
    ArrivedStep(w0, h, edit);
    var w1 := Step(w0, edit);
    ArrivedStep(w1, h, Start);
    var w2 := Step(w1, Start);
    ArrivedStep(w2, h, Call(PLAIN));
    var w3 := Step(w2, Call(PLAIN));
    assert w3.proc.value.pc == CheckExists;
    ArrivedStep(w3, h, Call(PLAIN));
    var w4 := Step(w3, Call(PLAIN));
    assert w4.proc.value.pc == Build;
    ArrivedStep(w4, h, Call(PLAIN));
    w := Step(w4, Call(PLAIN));
  }

  /** SM accepts an update to specification 1, and the reconcile ends before it stores that. */
  lemma LosingUpdate() returns (w: World)
    ensures Arrived(w, Ledger([0, 1], 1, false))
    ensures w == World(Some(Instance(0, 4, 2, 1, None, false, true, false, CreatedStatus(false))),
                       map[0 := Inst(1, 1, false)], map[0 := Op(Create, 0, Good, 0), 1 := Op(Update, 0, Good, 1)], None, 5, 2)
  {
    hide Arrived, AdvanceConnect, AdvancePollStatus, AdvancePollFetch, AdvancePollRemoveFinalizer, AdvanceCleanup,
         AdvanceDeleteQuery, AdvanceDeleteCall, AdvanceDeleteRemoveFinalizer, AdvanceCheckExists, AdvanceInit,
         AdvanceAddFinalizer, AdvanceQuery, AdvanceBuild, AdvanceProvision, AdvanceShare;
    var w1 := AboutToUpdate(false);
    ArrivedStep(w1, Ledger([0], 1, false), Call(PLAIN));
    var w2 := Step(w1, Call(PLAIN));
    assert [0] + [1] == [0, 1];
    ArrivedStep(w2, Ledger([0, 1], 1, true), Crash);
    w := Step(w2, Crash);
  }

  /** Back to specification 0, and shared. */
  lemma AboutToShare() returns (w: World)
    ensures Arrived(w, Ledger([0, 1], 1, false)) && Fresh(w, ShareCall) && w.proc.value.c.wanted == Some(true) && w.proc.value.c.spec == 0
    ensures w.proc.value.c.status == CreatedStatus(false) && w.obj.value.gen == 3
    ensures w.insts == map[0 := Inst(1, 1, false)] && w.ops == map[0 := Op(Create, 0, Good, 0), 1 := Op(Update, 0, Good, 1)]
  {
    hide Arrived, AdvancePollStatus, AdvancePollFetch, AdvancePollRemoveFinalizer, AdvanceCleanup, AdvanceDeleteQuery,
         AdvanceDeleteCall, AdvanceDeleteRemoveFinalizer, AdvanceInit, AdvanceAddFinalizer, AdvanceQuery, AdvanceBuild,
         AdvanceProvision, AdvanceUpdate, AdvanceShare;
    var h := Ledger([0, 1], 1, false);
    var w0 := LosingUpdate();
    var edit := UserEdit(0, Some(true), false);
    ArrivedStep(w0, h, edit);
    var w1 := Step(w0, edit);
    ArrivedStep(w1, h, Start);
    var w2 := Step(w1, Start);
    ArrivedStep(w2, h, Call(PLAIN));
    var w3 := Step(w2, Call(PLAIN));
    assert w3.proc.value.pc == CheckExists;
    ArrivedStep(w3, h, Call(PLAIN));
    w := Step(w3, Call(PLAIN));
  }

  /** The resource reports success for its present generation while SM applies another specification. */
  predicate Misreported(w: World) {
    w.obj.Some? &&
    var o := w.obj.value;
    && !o.deleting && o.status.id.Some? && o.status.id.value in w.insts && w.insts[o.status.id.value].applied != o.spec
    && GoodStatus(o.status) && o.status.observed == o.gen
  }

  /** A lost update and an edit back: sharing then reports the specification SM no longer applies. */
  lemma SharingMisreports() returns (w: World, h: Ledger)
    ensures Arrived(w, h) && Fresh(w, ShareCall) && Aligning(w.proc.value.c, PLAIN)
    ensures GoodStatus(w.proc.value.c.status) && w.proc.value.c.status.id == Some(0) && 0 in w.insts
    ensures !Agree(w.ops, Unrecorded(h), w.proc.value.c.spec) && Misreported(Saved(w, PLAIN))
  {
    w := AboutToShare();
    h := Ledger([0, 1], 1, false);
    hide Arrived, AdvanceConnect, AdvancePollStatus, AdvancePollFetch, AdvancePollRemoveFinalizer, AdvanceCleanup,
         AdvanceDeleteQuery, AdvanceDeleteCall, AdvanceDeleteRemoveFinalizer, AdvanceCheckExists, AdvanceInit,
         AdvanceAddFinalizer, AdvanceQuery, AdvanceBuild, AdvanceProvision, AdvanceUpdate;
    assert Unrecorded(h) == [1];
    assert Last([1]) == 1;
    var w1 := Step(w, Call(PLAIN));
    assert Misreported(Step(w1, Call(PLAIN)));
  }

  // ----- recovery after a lost creation

  /** The answer to a creation is lost, and the specification is edited before the instance is found. */
  lemma AboutToRecover() returns (w: World)
    ensures Arrived(w, Ledger([0], 0, false)) && Fresh(w, Query) && w.proc.value.c.spec == 1 && w.proc.value.c.status.sharing == Absent
    ensures w.insts == map[0 := Inst(0, 0, false)] && w.ops == map[0 := Op(Create, 0, Good, 0)]
  {
    hide Arrived, AdvancePollStatus, AdvancePollFetch, AdvancePollRemoveFinalizer, AdvanceCleanup, AdvanceDeleteQuery,
         AdvanceDeleteCall, AdvanceDeleteRemoveFinalizer, AdvanceCheckExists, AdvanceInit, AdvanceAddFinalizer, AdvanceQuery,
         AdvanceBuild, AdvanceUpdate, AdvanceShare;
    var w0 := AboutToProvision(None, false);
    var h := Ledger([0], 0, false);
    ArrivedStep(w0, EMPTY, Call(PLAIN.(call := Lost)));
    var w1 := Step(w0, Call(PLAIN.(call := Lost)));
    ArrivedStep(w1, h, Crash);
    var w2 := Step(w1, Crash);
    var edit := UserEdit(1, None, false);
    ArrivedStep(w2, h, edit);
    var w3 := Step(w2, edit);
    ArrivedStep(w3, h, Start);
    var w4 := Step(w3, Start);
    ArrivedStep(w4, h, Call(PLAIN));
    w := Step(w4, Call(PLAIN));
  }

  /** Recovery reports success for the edited specification. */
  lemma RecoveryMisreports() returns (w: World, h: Ledger)
    ensures Arrived(w, h) && Fresh(w, Query) && Listed(w) == Some(0) && h.log == [0]
    ensures OpOf(w.ops, 0).state == Good && OpOf(w.ops, 0).target != w.proc.value.c.spec
    ensures Misreported(Saved(w, PLAIN))
  {
    hide Arrived;
    w := AboutToRecover();
    h := Ledger([0], 0, false);
    ListedOnly(w, 0);
    hide Step, Listed;
    QueryStep(w, 0);
    WriteThen(w, w.proc.value.c, w.proc.value.base, Recovered(w, w.proc.value.c, 0));
  }

  // ----- an error of Status() during an update

  lemma AboutToPoll() returns (w: World)
    ensures Arrived(w, Ledger([0, 1], 2, false)) && Fresh(w, PollStatus)
    ensures w.obj == Some(w.proc.value.c) && w.obj.value == Instance(0, 6, 3, 2, None, false, true, false, w.obj.value.status)
    ensures w.obj.value.status == Status(Some(0), Some(OpUrl(Update, 0, 1)), Some(Update), Some(Cond(false, 2, true)),
                                         Some(Cond(true, 2, false)), true, Absent, Of(1), false, 2)
    ensures w.insts == map[0 := Inst(1, 0, false)] && w.ops == map[0 := Op(Create, 0, Good, 0), 1 := Op(Update, 0, Running, 1)]
  {
    hide Arrived, AdvancePollStatus, AdvancePollFetch, AdvancePollRemoveFinalizer, AdvanceCleanup, AdvanceDeleteQuery,
         AdvanceDeleteCall, AdvanceDeleteRemoveFinalizer, AdvanceCheckExists, AdvanceInit, AdvanceAddFinalizer, AdvanceQuery,
         AdvanceBuild, AdvanceProvision, AdvanceShare;
    var w0 := AboutToUpdate(true);
    var ch := PLAIN.(async := true);
    ArrivedStep(w0, Ledger([0], 1, false), Call(ch));
    var w1 := Step(w0, Call(ch));
    assert [0] + [1] == [0, 1];
    ArrivedStep(w1, Ledger([0, 1], 1, true), Call(PLAIN));
    var w2 := Step(w1, Call(PLAIN));
    var h := Ledger([0, 1], 2, false);
    var edit := UserEdit(2, None, false);
    ArrivedStep(w2, h, edit);
    var w3 := Step(w2, edit);
    ArrivedStep(w3, h, Start);
    var w4 := Step(w3, Start);
    ArrivedStep(w4, h, Call(PLAIN));
    w := Step(w4, Call(PLAIN));
  }

  /** An edit during an update, and then an error of Status(): the end of the update is taken for that of the edit. */
  lemma StatusErrorMisreports() returns (w: World, h: Ledger)
    ensures Arrived(w, h) && Fresh(w, PollStatus)
    ensures var s := w.proc.value.c.status; s.id == Some(0) && s.opUrl == Some(OpUrl(Update, 0, 1)) && s.hash == Of(1)
    ensures SmStatus(w, OpUrl(Update, 0, 1)) == Some(Running) && w.proc.value.c.spec == 2
    ensures Misreported(Reported(w, PLAIN.(call := Rejected), 0))
  {
    w := AboutToPoll();
    h := Ledger([0, 1], 2, false);
    hide Arrived;
    var ch := PLAIN.(call := Rejected);
    var w1 := Step(w, Call(ch));
    var w2 := Step(w1, Call(PLAIN));
    var w3 := Step(w2, Operate(0, true));
    assert AtRest(w3) && w3.obj.value.status.opUrl == Some(OpUrl(Update, 0, 1)) && w3.obj.value.status.LastObserved() == 3;
    PassSucceeds(w3, PLAIN);
    hide Pass;
    assert Misreported(Pass(w3, PLAIN));
  }

  // ----- a stored hash that is not that of the specification SM applies

  /** The old release has stored its hash, and specification and sharing are edited. */
  lemma Outdated()
    ensures Arrived(OUTDATED, Ledger([0], 1, false))
  {
    Created(None, false, false);
    var h := Ledger([0], 1, false);
    var w0 := CreatedWorld(None, false, false);
    hide Arrived, Advance;
    ArrivedStep(w0, h, OldRelease);
    var w1 := Step(w0, OldRelease);
    var edit := UserEdit(1, Some(true), false);
    ArrivedStep(w1, h, edit);
    assert Step(w1, edit) == OUTDATED;
  }

  const OUTDATED :=
    World(Some(Instance(0, 5, 2, 1, Some(true), false, true, false, CreatedStatus(false).(hash := Legacy))),
          map[0 := Inst(0, 0, false)], map[0 := Op(Create, 0, Good, 0)], None, 6, 1)

  /** The migration lets no update follow, and sharing reports success. */
  lemma MigrationMisreports() returns (w: World, h: Ledger)
    ensures Arrived(w, h) && Migrating(w) && !Agree(w.ops, h.log, w.obj.value.spec)
    ensures Misreported(Pass(Pass(w, PLAIN), PLAIN))
  {
    Outdated();
    w, h := OUTDATED, Ledger([0], 1, false);
    hide Arrived;
    assert Last([0]) == 0;
    MigrationPasses(w, PLAIN);
    hide Pass;
  }

  /** The status after an attempt to create that left nothing in SM. */
  function UncreatedStatus(hash: Hash): Status {
    FreshStatus.(succeeded := Some(Cond(false, 1, false)), readyCond := Some(Cond(false, 1, false)), hash := hash, observed := 1)
  }

  function Uncreated(rv: nat, hash: Hash): Instance {
    Instance(0, rv, 1, 0, None, true, true, false, UncreatedStatus(hash))
  }

  /** The first creation of a subscribed resource gives it its secret labels. */
  lemma Labelled() returns (w: World)
    ensures Arrived(w, EMPTY)
    ensures var o := Uncreated(3, NoHash); w == World(Some(o), map[], map[], Some(Proc(o, o.status, Provision)), 4, 0)
  {
    hide Arrived, AdvanceConnect, AdvancePollStatus, AdvancePollFetch, AdvancePollRemoveFinalizer, AdvanceCleanup,
         AdvanceDeleteQuery, AdvanceDeleteCall, AdvanceDeleteRemoveFinalizer, AdvanceCheckExists, AdvanceInit,
         AdvanceAddFinalizer, AdvanceProvision, AdvanceUpdate, AdvanceShare;
    var w0 := Conceived(None, true);
    assert Listed(w0).None?;
    ArrivedStep(w0, EMPTY, Call(PLAIN));
    var w1 := Step(w0, Call(PLAIN));
    var ch := PLAIN.(relabel := true);
    ArrivedStep(w1, EMPTY, Call(ch));
    w := Step(w1, Call(ch));
  }

  /** SM refuses it. */
  lemma Refused() returns (w: World)
    ensures Arrived(w, EMPTY) && w == World(Some(Uncreated(4, NoHash)), map[], map[], None, 5, 0)
  {
    hide Arrived, AdvanceConnect, AdvancePollStatus, AdvancePollFetch, AdvancePollRemoveFinalizer, AdvanceCleanup,
         AdvanceDeleteQuery, AdvanceDeleteCall, AdvanceDeleteRemoveFinalizer, AdvanceCheckExists, AdvanceInit,
         AdvanceAddFinalizer, AdvanceQuery, AdvanceBuild, AdvanceUpdate, AdvanceShare;
    var w2 := Labelled();
    ArrivedStep(w2, EMPTY, Call(PLAIN.(call := Rejected)));
    var w3 := Step(w2, Call(PLAIN.(call := Rejected)));
    assert w3.proc.value.pc == Save;
    ArrivedStep(w3, EMPTY, Call(PLAIN));
    w := Step(w3, Call(PLAIN));
  }

  /** The second attempt gets as far as the creation. */
  lemma Retrying() returns (w: World)
    ensures Arrived(w, EMPTY)
    ensures var o := Uncreated(4, NoHash);
      w == World(Some(o), map[], map[], Some(Proc(o.(status := UncreatedStatus(Of(0))), o.status, Provision)), 5, 0)
  {
    hide Arrived, AdvancePollStatus, AdvancePollFetch, AdvancePollRemoveFinalizer, AdvanceCleanup, AdvanceDeleteQuery,
         AdvanceDeleteCall, AdvanceDeleteRemoveFinalizer, AdvanceCheckExists, AdvanceInit, AdvanceAddFinalizer,
         AdvanceProvision, AdvanceUpdate, AdvanceShare;
    var w0 := Refused();
    ArrivedStep(w0, EMPTY, Start);
    var w1 := Step(w0, Start);
    ArrivedStep(w1, EMPTY, Call(PLAIN));
    var w2 := Step(w1, Call(PLAIN));
    assert w2.proc.value.pc == Query && Listed(w2).None?;
    ArrivedStep(w2, EMPTY, Call(PLAIN));
    var w3 := Step(w2, Call(PLAIN));
    assert w3.proc.value.pc == Build;
    ArrivedStep(w3, EMPTY, Call(PLAIN));
    w := Step(w3, Call(PLAIN));
  }

  /** SM accepts it, and it fails. */
  lemma Retried() returns (w: World)
    ensures Reachable(w)
    ensures w == World(Some(Uncreated(5, NoHash).(status := CreatedStatus(true))), map[0 := Inst(0, 0, false)],
                       map[0 := Op(Create, 0, Bad, 0)], None, 6, 1)
  {
    hide Arrived, Reachable, AdvanceConnect, AdvancePollStatus, AdvancePollFetch, AdvancePollRemoveFinalizer, AdvanceCleanup,
         AdvanceDeleteQuery, AdvanceDeleteCall, AdvanceDeleteRemoveFinalizer, AdvanceCheckExists, AdvanceInit,
         AdvanceAddFinalizer, AdvanceQuery, AdvanceBuild, AdvanceUpdate, AdvanceShare;
    var w0 := Retrying();
    ArrivedSound(w0, EMPTY);
    var ch := PLAIN.(async := true);
    ReachableStep(w0, Call(ch));
    var w1 := Step(w0, Call(ch));
    ReachableStep(w1, Call(PLAIN));
    var w2 := Step(w1, Call(PLAIN));
    ReachableStep(w2, Operate(0, false));
    w := Step(w2, Operate(0, false));
  }

  /** A creation has failed, and is about to be cleaned up. */
  lemma AboutToCleanUp() returns (w: World)
    ensures Reachable(w)
    ensures var o := Uncreated(5, NoHash).(status := CreatedStatus(true));
      w == World(Some(o), map[0 := Inst(0, 0, false)], map[0 := Op(Create, 0, Bad, 0)], Some(Proc(o, o.status, CleanupCall)), 6, 1)
  {
    hide Reachable, AdvancePollFetch, AdvancePollRemoveFinalizer, AdvanceCleanup, AdvanceDeleteQuery,
         AdvanceDeleteCall, AdvanceDeleteRemoveFinalizer, AdvanceCheckExists, AdvanceInit, AdvanceAddFinalizer, AdvanceQuery,
         AdvanceBuild, AdvanceProvision, AdvanceUpdate, AdvanceShare;
    var w1 := Retried();
    ReachableStep(w1, Start);
    var w2 := Step(w1, Start);
    ReachableStep(w2, Call(PLAIN));
    var w3 := Step(w2, Call(PLAIN));
    assert w3.proc.value.pc == PollStatus;
    ReachableStep(w3, Call(PLAIN));
    w := Step(w3, Call(PLAIN));
  }

  /** It is cleaned up; its hash stays behind. */
  lemma CleanedUp() returns (w: World)
    ensures Reachable(w) && w == World(Some(Uncreated(6, Of(0))), map[], map[0 := Op(Create, 0, Bad, 0)], None, 7, 1)
  {
    hide Reachable;
    var w4 := AboutToCleanUp();
    ReachableStep(w4, Call(PLAIN));
    var w5 := Step(w4, Call(PLAIN));
    ReachableStep(w5, Call(PLAIN));
    w := Step(w5, Call(PLAIN));
  }

  /** The subscription is given up, the specification edited, and the resource is about to be created again. */
  lemma AboutToRecreate() returns (w: World)
    ensures Reachable(w)
    ensures var o := Uncreated(7, Of(0)).(gen := 2, spec := 1, subscribed := false);
      w == World(Some(o), map[], map[0 := Op(Create, 0, Bad, 0)], Some(Proc(o.(status := UncreatedStatus(Of(1))), o.status, Build)), 8, 1)
  {
    hide Reachable, AdvancePollStatus, AdvancePollFetch, AdvancePollRemoveFinalizer, AdvanceCleanup, AdvanceDeleteQuery,
         AdvanceDeleteCall, AdvanceDeleteRemoveFinalizer, AdvanceCheckExists, AdvanceInit, AdvanceAddFinalizer, AdvanceBuild,
         AdvanceProvision, AdvanceUpdate, AdvanceShare;
    var w0 := CleanedUp();
    var edit := UserEdit(1, None, false);
    ReachableStep(w0, edit);
    var w1 := Step(w0, edit);
    ReachableStep(w1, Start);
    var w2 := Step(w1, Start);
    ReachableStep(w2, Call(PLAIN));
    var w3 := Step(w2, Call(PLAIN));
    assert w3.proc.value.pc == Query && Listed(w3).None?;
    ReachableStep(w3, Call(PLAIN));
    w := Step(w3, Call(PLAIN));
  }

  /**
   Dropping the secret labels in the creation for specification 1 brings the hash of specification 0 back; an
   edit back to that then sends no update, and sharing reports success.
   */
  lemma RelabellingMisreports() returns (w: World)
    ensures Reachable(w) && Fresh(w, Build) && w.proc.value.c.status.id.None? && !HashOf(w.proc.value.base, w.proc.value.c.spec)
    ensures Misreported(EditedThen(w, 0, Some(true), false, PLAIN))
  {
    hide Reachable;
    w := AboutToRecreate();
    RelabelledIs(w);
    hide Recreated, Advance;
    var w1 := Step(Recreated(w), UserEdit(0, Some(true), false));
    assert Filled(w1.obj.value) == w1.obj.value;
    PassShares(w1, PLAIN);
    hide Pass;
  }

  // ----- convergence

  /** The cleanup of a failed creation succeeds, but an edit keeps its status from being stored. */
  lemma OrphanReached() returns (w: World)
    ensures Reachable(w) && Orphaned(w)
  {
    hide Reachable;
    var w4 := AboutToCleanUp();
    ReachableStep(w4, Call(PLAIN));
    var w5 := Step(w4, Call(PLAIN));
    assert w5.proc.value.pc == DirectSave && 0 !in w5.insts;
    var edit := UserEdit(1, None, false);
    ReachableStep(w5, edit);
    var w6 := Step(w5, edit);
    ReachableStep(w6, Call(PLAIN));
    w := Step(w6, Call(PLAIN));
  }

  /** A subscribed instance that asked to be shared when it was created. */
  lemma StarvedReached() returns (w: World)
    ensures Reachable(w) && Idle(w) && Starved(w)
  {
    Created(Some(true), true, false);
    w := CreatedWorld(Some(true), true, false);
    ArrivedSound(w, Ledger([0], 1, false));
    assert Inv(w) && Known(w) && Mismatch(w.obj.value);
    hide Arrived, Reachable, Inv;
  }
}
