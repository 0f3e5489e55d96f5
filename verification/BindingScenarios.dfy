/** Allowed runs from empty stores into each of the situations in which a guarantee for bindings would end. */
module BindingScenarios {
  import opened Options
  import opened Remote
  import opened BindingWorld
  import opened BindingReconciler
  import opened BindingInvariant
  import opened BindingRuns
  import opened BindingLimits
  import opened BindingBackups
  import opened BindingContinuity
  import BindingSettles

  /** An answer without error or delay, before any deadline, with the random suffix of a rotation. */
  const SOON := PLAIN.(due := false, suffix := "b")

  const NOWHERE := World(map[], map[], map[], map[], 0, 0)

  /** The next call of a reconcile that is past every hypothesis. */
  lemma CallsOn(w: World, n: Name, ch: Choice) returns (w1: World)
    requires Reachable(w) && n in w.procs && ch.instance != Missing
    requires w.procs[n].pc != RotateList && w.procs[n].pc != FetchOriginal
    ensures w1 == Advance(w, n, ch) && Reachable(w1)
  {
    hide Reachable, Advance;
    ReachableStep(w, Call(n, ch));
    w1 := Step(w, Call(n, ch));
  }

  /** The only reconcile under way ends with its status write. */
  lemma Saves(w: World, n: Name) returns (w1: World)
    requires Reachable(w) && n in w.procs && w.procs == map[n := w.procs[n]] && w.procs[n].pc == Save
    requires Unchanged(w, n, w.procs[n].c)
    ensures Reachable(w1) && w1 == PutStatus(w, n, w.procs[n].c.status).(procs := map[])
  {
    hide Reachable;
    ReachableStep(w, Call(n, SOON));
    w1 := Step(w, Call(n, SOON));
    assert w.procs - {n} == map[];
    hide PutStatus;
  }

  /** The status between the first conditions and the creation. */
  const STARTED := FreshStatus.(succeeded := Some(false), readyCond := Some(false))

  /** What is stored of the resource `a` before it has an id. */
  const BEGUN := Binding(0, 2, true, false, false, None, None, "x", Some(true), STARTED)

  /** A new resource up to its finalizer. */
  lemma Begun() returns (w: World)
    ensures Reachable(w)
    ensures var o := BEGUN.(rv := 1, finalizer := false);
      w == World(map["a" := o], map[], map[], map["a" := Proc(o, STARTED, FetchInstance)], 2, 0)
  {
    hide Reachable, AdvanceFetchInstance, AdvancePollStatus, AdvancePollProbe, AdvancePollFetch, AdvanceStore,
         AdvanceDropSecret, AdvancePollRemoveFinalizer, AdvanceCleanup, AdvanceDeleteQuery, AdvanceDeleteUnbind,
         AdvanceDeleteRemoveFinalizer, AdvanceCheckExists, AdvanceAddFinalizer, AdvanceRotateAnnotation, AdvanceRotateList,
         AdvanceRenameFirst, AdvanceRenameSecond, AdvanceCreateBackup, AdvanceReadyCheck, AdvanceFetchOriginal,
         AdvanceDeleteSelf, AdvanceMaintain, AdvanceQuery, AdvanceBind;
    ReachableInitially(NOWHERE);
    var create := UserCreate("a", "x", Some(true));
    ReachableStep(NOWHERE, create);
    var w1 := Step(NOWHERE, create);
    ReachableStep(w1, Start("a"));
    var w2 := Step(w1, Start("a"));
    assert w2.procs["a"].pc == InitConditions;
    w := CallsOn(w2, "a", SOON);
  }

  /** It gets its finalizer, and the query for an earlier binding finds nothing. */
  lemma Conceived() returns (w: World)
    ensures Reachable(w)
    ensures w == World(map["a" := BEGUN], map[], map[], map["a" := Proc(BEGUN, STARTED, Bind)], 3, 0)
  {
    hide Reachable, AdvanceInit, AdvancePollStatus, AdvancePollProbe, AdvancePollFetch, AdvanceStore, AdvanceDropSecret,
         AdvancePollRemoveFinalizer, AdvanceCleanup, AdvanceDeleteQuery, AdvanceDeleteUnbind, AdvanceDeleteRemoveFinalizer,
         AdvanceCheckExists, AdvanceRotateAnnotation, AdvanceRotateList, AdvanceRenameFirst, AdvanceRenameSecond,
         AdvanceCreateBackup, AdvanceFetchOriginal, AdvanceDeleteSelf, AdvanceMaintain, AdvanceBind;
    var w3 := Begun();
    var w4 := CallsOn(w3, "a", SOON);
    assert w4.procs["a"].pc == AddFinalizer;
    var w5 := CallsOn(w4, "a", SOON);
    assert w5.procs["a"].pc == ReadyCheck;
    var w6 := CallsOn(w5, "a", SOON);
    assert w6.procs["a"].pc == Query;
    w := CallsOn(w6, "a", SOON);
    assert OnlyMatch(w6, "x", "a").None? by { assert Matches(w6, "x", "a") == {}; }
  }

  // ----- a deletion that skips SM

  /** The answer to the creation is lost, and the resource is deleted. */
  lemma DeletedUnrecorded() returns (w: World)
    ensures Reachable(w)
    ensures var o := BEGUN.(rv := 4, deleting := true);
      w == World(map["a" := o], map[0 := SmBinding("x", Some("a"), Done, NotAsked, "a")], map[],
                 map["a" := Proc(o, STARTED, FetchInstance)], 5, 1)
  {
    hide Reachable, AdvanceInit, AdvanceFetchInstance, AdvancePollStatus, AdvancePollProbe, AdvancePollFetch, AdvanceStore,
         AdvanceDropSecret, AdvancePollRemoveFinalizer, AdvanceCleanup, AdvanceDeleteQuery, AdvanceDeleteUnbind,
         AdvanceDeleteRemoveFinalizer, AdvanceCheckExists, AdvanceAddFinalizer, AdvanceRotateAnnotation, AdvanceRotateList,
         AdvanceRenameFirst, AdvanceRenameSecond, AdvanceCreateBackup, AdvanceReadyCheck, AdvanceFetchOriginal,
         AdvanceDeleteSelf, AdvanceMaintain, AdvanceQuery;
    var w1 := Conceived();
    var w2 := CallsOn(w1, "a", SOON.(call := Lost));
    assert w2.procs["a"].pc == Save;
    var w3 := CallsOn(w2, "a", SOON);
    assert w3.procs == map[];
    ReachableStep(w3, UserDelete("a"));
    var w4 := Step(w3, UserDelete("a"));
    ReachableStep(w4, Start("a"));
    w := Step(w4, Start("a"));
  }

  /** The deletion is about to skip SM, which holds a binding of the resource. */
  lemma BypassReached() returns (w: World)
    ensures Reachable(w) && Skipping(w, "a") && w.procs["a"].c.stale.None? && !Nameless(w.sm, "a")
  {
    w := DeletedUnrecorded();
    ReachableInv(w);
    hide Reachable, Inv;
    assert Named(w.sm, 0, "a");
  }

  // ----- rotation

  const BOUND := Status(Some(0), None, None, true, Some(true), Some(true), NotRotating, false)

  const CREATED := SmBinding("x", Some("a"), Done, NotAsked, "a")

  /** A resource with a binding and its secret. */
  lemma Bound() returns (w: World)
    ensures Reachable(w)
    ensures w == World(map["a" := BEGUN.(rv := 3, status := BOUND)], map[0 := CREATED], map["a" := 0], map[], 4, 1)
  {
    hide Reachable, AdvanceInit, AdvanceFetchInstance, AdvancePollStatus, AdvancePollProbe, AdvancePollFetch,
         AdvanceDropSecret, AdvancePollRemoveFinalizer, AdvanceCleanup, AdvanceDeleteQuery, AdvanceDeleteUnbind,
         AdvanceDeleteRemoveFinalizer, AdvanceCheckExists, AdvanceAddFinalizer, AdvanceRotateAnnotation, AdvanceRotateList,
         AdvanceRenameFirst, AdvanceRenameSecond, AdvanceCreateBackup, AdvanceReadyCheck, AdvanceFetchOriginal,
         AdvanceDeleteSelf, AdvanceMaintain, AdvanceQuery;
    var w1 := Conceived();
    var w2 := CallsOn(w1, "a", SOON);
    assert w2.procs["a"].pc == BindStore(0);
    var w3 := CallsOn(w2, "a", SOON);
    assert w3.procs["a"].pc == Save;
    w := Saves(w3, "a");
  }

  /** What is stored of the original once its rotation is asked for. */
  const ASKED := BEGUN.(rv := 4, forceRotate := true, status := BOUND)

  /** A rotation is asked for by annotation. */
  lemma Asked() returns (w: World)
    ensures Reachable(w)
    ensures w == World(map["a" := ASKED], map[0 := CREATED], map["a" := 0], map["a" := Proc(ASKED, BOUND, FetchInstance)], 5, 1)
  {
    hide Reachable, Advance;
    var w0 := Bound();
    var edit := UserEdit("a", Some(true), true);
    ReachableStep(w0, edit);
    var w1 := Step(w0, edit);
    ReachableStep(w1, Start("a"));
    w := Step(w1, Start("a"));
  }

  /** The annotation is taken up. */
  lemma Annotated() returns (w: World)
    ensures Reachable(w)
    ensures w == World(map["a" := BEGUN.(rv := 5, forceRotate := true, status := BOUND.(rotation := Preparing))], map[0 := CREATED],
                       map["a" := 0], map[], 6, 1)
  {
    hide Reachable, AdvanceInit, AdvancePollStatus, AdvancePollProbe, AdvancePollFetch, AdvanceStore, AdvanceDropSecret,
         AdvancePollRemoveFinalizer, AdvanceCleanup, AdvanceDeleteQuery, AdvanceDeleteUnbind, AdvanceDeleteRemoveFinalizer,
         AdvanceRotateAnnotation, AdvanceRotateList, AdvanceRenameFirst, AdvanceRenameSecond, AdvanceCreateBackup,
         AdvanceFetchOriginal, AdvanceDeleteSelf, AdvanceMaintain, AdvanceQuery, AdvanceBind;
    var w2 := Asked();
    var w3 := CallsOn(w2, "a", SOON);
    assert w3.procs["a"].pc == CheckExists;
    var w4 := CallsOn(w3, "a", SOON);
    assert w4.procs["a"].pc == AddFinalizer;
    var w5 := CallsOn(w4, "a", SOON);
    assert w5.procs["a"].pc == ReadyCheck;
    var w6 := CallsOn(w5, "a", SOON);
    assert w6.procs["a"].pc == Save;
    w := Saves(w6, "a");
  }

  /** What is stored of the original during its rotation. */
  const ROTATED := BEGUN.(rv := 6, status := BOUND.(rotation := Preparing))

  /** The rotation has found no backup, and is about to rename. */
  lemma Renaming() returns (w: World)
    ensures Reachable(w)
    ensures w == World(map["a" := ROTATED], map[0 := CREATED], map["a" := 0],
                       map["a" := Proc(ROTATED, ROTATED.status, RotateList)], 7, 1)
  {
    hide Reachable, AdvanceInit, AdvancePollStatus, AdvancePollProbe, AdvancePollFetch, AdvanceStore, AdvanceDropSecret,
         AdvancePollRemoveFinalizer, AdvanceCleanup, AdvanceDeleteQuery, AdvanceDeleteUnbind, AdvanceDeleteRemoveFinalizer,
         AdvanceRotateList, AdvanceRenameFirst, AdvanceRenameSecond, AdvanceCreateBackup, AdvanceReadyCheck,
         AdvanceFetchOriginal, AdvanceDeleteSelf, AdvanceMaintain, AdvanceQuery, AdvanceBind;
    var w1 := Annotated();
    ReachableStep(w1, Start("a"));
    var w2 := Step(w1, Start("a"));
    var w3 := CallsOn(w2, "a", SOON);
    assert w3.procs["a"].pc == CheckExists;
    var w4 := CallsOn(w3, "a", SOON);
    assert w4.procs["a"].pc == AddFinalizer;
    var w5 := CallsOn(w4, "a", SOON);
    assert w5.procs["a"].pc == RotateAnnotation;
    w := CallsOn(w5, "a", SOON);
  }

  const BACKUP := Binding(7, 7, false, false, false, Some(0), Some("a"), "xb", Some(false), FreshStatus)

  const RENAMED := SmBinding("xb", Some("ab"), Done, NotAsked, "a")

  /** The rotation has chosen the name of the backup. */
  lemma Planning() returns (w: World)
    ensures Reachable(w)
    ensures w == World(map["a" := ROTATED], map[0 := CREATED], map["a" := 0],
                       map["a" := Proc(ROTATED, ROTATED.status, RenameFirst("b"))], 7, 1)
  {
    hide Reachable, AdvanceInit, AdvanceFetchInstance, AdvancePollStatus, AdvancePollProbe, AdvancePollFetch, AdvanceStore,
         AdvanceDropSecret, AdvancePollRemoveFinalizer, AdvanceCleanup, AdvanceDeleteQuery, AdvanceDeleteUnbind,
         AdvanceDeleteRemoveFinalizer, AdvanceCheckExists, AdvanceAddFinalizer, AdvanceRotateAnnotation, AdvanceRenameFirst,
         AdvanceRenameSecond, AdvanceCreateBackup, AdvanceReadyCheck, AdvanceFetchOriginal, AdvanceDeleteSelf, AdvanceMaintain,
         AdvanceQuery, AdvanceBind;
    var w1 := Renaming();
    Names();
    assert Allowed(w1, Call("a", SOON));
    ReachableStep(w1, Call("a", SOON));
    w := Step(w1, Call("a", SOON));
    assert !HasBackup(w1.bindings, 0);
  }

  lemma Names()
    ensures "a" + "b" == "ab" && "x" + "b" == "xb" && "ab" != "a"
  {
    assert |"ab"| != |"a"|;
  }

  /** SM shows the old binding under its new names. */
  lemma Renamed() returns (w: World)
    ensures Reachable(w)
    ensures w == World(map["a" := ROTATED], map[0 := RENAMED], map["a" := 0],
                       map["a" := Proc(ROTATED, ROTATED.status, CreateBackup("b"))], 7, 1)
  {
    hide Reachable, AdvanceInit, AdvanceFetchInstance, AdvancePollStatus, AdvancePollProbe, AdvancePollFetch, AdvanceStore,
         AdvanceDropSecret, AdvancePollRemoveFinalizer, AdvanceCleanup, AdvanceDeleteQuery, AdvanceDeleteUnbind,
         AdvanceDeleteRemoveFinalizer, AdvanceCheckExists, AdvanceAddFinalizer, AdvanceRotateAnnotation, AdvanceRotateList,
         AdvanceCreateBackup, AdvanceReadyCheck, AdvanceFetchOriginal, AdvanceDeleteSelf, AdvanceMaintain, AdvanceQuery,
         AdvanceBind;
    var w2 := Planning();
    Names();
    var w3 := CallsOn(w2, "a", SOON);
    assert w3.procs["a"].pc == RenameSecond("b");
    w := CallsOn(w3, "a", SOON);
  }

  /** The backup is created, and the original about to give up its id. */
  lemma BackedUp() returns (w: World)
    ensures Reachable(w)
    ensures w == World(map["a" := ROTATED, "ab" := BACKUP], map[0 := RENAMED], map["a" := 0],
                       map["a" := Proc(ROTATED.(status := ROTATED.status.Rotated()), ROTATED.status, RotateSave)], 8, 1)
  {
    hide Reachable, AdvanceInit, AdvanceFetchInstance, AdvancePollStatus, AdvancePollProbe, AdvancePollFetch, AdvanceStore,
         AdvanceDropSecret, AdvancePollRemoveFinalizer, AdvanceCleanup, AdvanceDeleteQuery, AdvanceDeleteUnbind,
         AdvanceDeleteRemoveFinalizer, AdvanceCheckExists, AdvanceAddFinalizer, AdvanceRotateAnnotation, AdvanceRotateList,
         AdvanceRenameFirst, AdvanceRenameSecond, AdvanceReadyCheck, AdvanceFetchOriginal, AdvanceDeleteSelf, AdvanceMaintain,
         AdvanceQuery, AdvanceBind;
    var w4 := Renamed();
    Names();
    w := CallsOn(w4, "a", SOON);
  }

  // ----- a backup that outlives its time

  const ADOPTED := STARTED.(id := Some(0), ready := true, succeeded := Some(true), readyCond := Some(true))

  /** The rotation was cut off; the backup gets its first conditions. */
  lemma BackupBegun() returns (w: World)
    ensures Reachable(w)
    ensures var o := BACKUP.(rv := 8, status := STARTED);
      w == World(map["a" := ROTATED, "ab" := o], map[0 := RENAMED], map["a" := 0], map["ab" := Proc(o, STARTED, FetchInstance)], 9, 1)
  {
    hide Reachable, AdvanceFetchInstance, AdvancePollStatus, AdvancePollProbe, AdvancePollFetch, AdvanceStore,
         AdvanceDropSecret, AdvancePollRemoveFinalizer, AdvanceCleanup, AdvanceDeleteQuery, AdvanceDeleteUnbind,
         AdvanceDeleteRemoveFinalizer, AdvanceCheckExists, AdvanceAddFinalizer, AdvanceRotateAnnotation, AdvanceRotateList,
         AdvanceRenameFirst, AdvanceRenameSecond, AdvanceCreateBackup, AdvanceReadyCheck, AdvanceFetchOriginal,
         AdvanceDeleteSelf, AdvanceMaintain, AdvanceQuery, AdvanceBind;
    Names();
    var w0 := BackedUp();
    ReachableStep(w0, Crash("a"));
    var w1 := Step(w0, Crash("a"));
    assert w1.procs == map[];
    ReachableStep(w1, Start("ab"));
    var w2 := Step(w1, Start("ab"));
    assert w2.procs["ab"].pc == InitConditions;
    w := CallsOn(w2, "ab", SOON);
  }

  /** The backup gets its finalizer. */
  lemma BackupSettles() returns (w: World)
    ensures Reachable(w)
    ensures var o := BACKUP.(rv := 9, finalizer := true, status := STARTED);
      w == World(map["a" := ROTATED, "ab" := o], map[0 := RENAMED], map["a" := 0], map["ab" := Proc(o, STARTED, ReadyCheck)], 10, 1)
  {
    hide Reachable, AdvanceInit, AdvancePollStatus, AdvancePollProbe, AdvancePollFetch, AdvanceStore, AdvanceDropSecret,
         AdvancePollRemoveFinalizer, AdvanceCleanup, AdvanceDeleteQuery, AdvanceDeleteUnbind, AdvanceDeleteRemoveFinalizer,
         AdvanceCheckExists, AdvanceRotateAnnotation, AdvanceRotateList, AdvanceRenameFirst, AdvanceRenameSecond,
         AdvanceCreateBackup, AdvanceFetchOriginal, AdvanceDeleteSelf, AdvanceMaintain, AdvanceQuery, AdvanceBind;
    Names();
    var w3 := BackupBegun();
    var w4 := CallsOn(w3, "ab", SOON);
    assert w4.procs["ab"].pc == AddFinalizer;
    w := CallsOn(w4, "ab", SOON);
  }

  /** The backup looks for its binding. */
  lemma BackupQueries() returns (w: World)
    ensures Reachable(w)
    ensures var o := BACKUP.(rv := 9, finalizer := true, status := STARTED);
      w == World(map["a" := ROTATED, "ab" := o], map[0 := RENAMED], map["a" := 0], map["ab" := Proc(o, STARTED, Query)], 10, 1)
  {
    hide Reachable;
    var w5 := BackupSettles();
    w := CallsOn(w5, "ab", SOON);
  }

  /** The single match of a query. */
  lemma SingleMatch(w: World, name: string, n: Name, b: Id)
    requires b in w.sm && w.sm == map[b := w.sm[b]] && w.sm[b].name == name && w.sm[b].k8sName == Some(n)
    ensures OnlyMatch(w, name, n) == Some(b)
  {
    assert Matches(w, name, n) == {b};
  }

  /** It finds the old binding. */
  lemma BackupFinds() returns (w: World)
    ensures Reachable(w)
    ensures var o := BACKUP.(rv := 9, finalizer := true, status := STARTED);
      w == World(map["a" := ROTATED, "ab" := o], map[0 := RENAMED], map["a" := 0],
                 map["ab" := Proc(o, STARTED, RecoverStore(0, RENAMED))], 10, 1)
  {
    hide Reachable, AdvanceInit, AdvanceFetchInstance, AdvancePollStatus, AdvancePollProbe, AdvancePollFetch, AdvanceStore,
         AdvanceDropSecret, AdvancePollRemoveFinalizer, AdvanceCleanup, AdvanceDeleteQuery, AdvanceDeleteUnbind,
         AdvanceDeleteRemoveFinalizer, AdvanceCheckExists, AdvanceAddFinalizer, AdvanceRotateAnnotation, AdvanceRotateList,
         AdvanceRenameFirst, AdvanceRenameSecond, AdvanceCreateBackup, AdvanceReadyCheck, AdvanceFetchOriginal,
         AdvanceDeleteSelf, AdvanceMaintain, AdvanceBind;
    var w1 := BackupQueries();
    SingleMatch(w1, "xb", "ab", 0);
    w := CallsOn(w1, "ab", SOON);
    hide OnlyMatch;
  }

  /** It stores the credentials it found. */
  lemma BackupStores() returns (w: World)
    ensures Reachable(w)
    ensures var o := BACKUP.(rv := 9, finalizer := true, status := STARTED);
      w == World(map["a" := ROTATED, "ab" := o], map[0 := RENAMED], map["a" := 0, "ab" := 0],
                 map["ab" := Proc(o.(status := ADOPTED), STARTED, Save)], 10, 1)
  {
    hide Reachable, AdvanceInit, AdvanceFetchInstance, AdvancePollStatus, AdvancePollProbe, AdvancePollFetch,
         AdvanceDropSecret, AdvancePollRemoveFinalizer, AdvanceCleanup, AdvanceDeleteQuery, AdvanceDeleteUnbind,
         AdvanceDeleteRemoveFinalizer, AdvanceCheckExists, AdvanceAddFinalizer, AdvanceRotateAnnotation, AdvanceRotateList,
         AdvanceRenameFirst, AdvanceRenameSecond, AdvanceCreateBackup, AdvanceReadyCheck, AdvanceFetchOriginal,
         AdvanceDeleteSelf, AdvanceMaintain, AdvanceQuery, AdvanceBind;
    Names();
    var w1 := BackupFinds();
    w := CallsOn(w1, "ab", SOON);
  }

  /** It adopts the old binding. */
  lemma BackupAdopts() returns (w: World)
    ensures Reachable(w)
    ensures var o := BACKUP.(rv := 10, finalizer := true, status := ADOPTED);
      w == World(map["a" := ROTATED, "ab" := o], map[0 := RENAMED], map["a" := 0, "ab" := 0], map[], 11, 1)
  {
    hide Reachable;
    Names();
    var w1 := BackupStores();
    w := Saves(w1, "ab");
  }

  /** A backup at rest that holds the old binding, and so does its ready original. */
  lemma DiscardReached() returns (w: World)
    ensures Reachable(w) && Discarding(w, "ab", "a", 0) && w.bindings["a"].status.id == Some(0)
  {
    Names();
    w := BackupAdopts();
    hide Reachable;
    ReachableInv(w);
    hide Inv;
  }

  /** The backup is reconciled again. */
  lemma BackupChecks() returns (w: World)
    ensures Reachable(w)
    ensures var o := BACKUP.(rv := 10, finalizer := true, status := ADOPTED);
      w == World(map["a" := ROTATED, "ab" := o], map[0 := RENAMED], map["a" := 0, "ab" := 0], map["ab" := Proc(o, ADOPTED, CheckExists)], 11, 1)
  {
    hide Reachable, AdvanceInit, AdvancePollStatus, AdvancePollProbe, AdvancePollFetch, AdvanceStore, AdvanceDropSecret,
         AdvancePollRemoveFinalizer, AdvanceCleanup, AdvanceDeleteQuery, AdvanceDeleteUnbind, AdvanceDeleteRemoveFinalizer,
         AdvanceRotateAnnotation, AdvanceRotateList, AdvanceRenameFirst, AdvanceRenameSecond, AdvanceCreateBackup,
         AdvanceFetchOriginal, AdvanceDeleteSelf, AdvanceMaintain, AdvanceQuery, AdvanceBind;
    var w1 := BackupAdopts();
    ReachableStep(w1, Start("ab"));
    var w2 := Step(w1, Start("ab"));
    assert w2.procs["ab"].pc == FetchInstance;
    w := CallsOn(w2, "ab", SOON);
  }

  lemma BackupExpires() returns (w: World)
    ensures Reachable(w)
    ensures var o := BACKUP.(rv := 10, finalizer := true, status := ADOPTED);
      w == World(map["a" := ROTATED, "ab" := o], map[0 := RENAMED], map["a" := 0, "ab" := 0], map["ab" := Proc(o, ADOPTED, FetchOriginal)], 11, 1)
  {
    hide Reachable, AdvanceInit, AdvancePollStatus, AdvancePollProbe, AdvancePollFetch, AdvanceStore, AdvanceDropSecret,
         AdvancePollRemoveFinalizer, AdvanceCleanup, AdvanceDeleteQuery, AdvanceDeleteUnbind, AdvanceDeleteRemoveFinalizer,
         AdvanceRotateAnnotation, AdvanceRotateList, AdvanceRenameFirst, AdvanceRenameSecond, AdvanceCreateBackup,
         AdvanceFetchOriginal, AdvanceDeleteSelf, AdvanceMaintain, AdvanceQuery, AdvanceBind;
    var w3 := BackupChecks();
    var w4 := CallsOn(w3, "ab", SOON);
    assert w4.procs["ab"].pc == AddFinalizer;
    var w5 := CallsOn(w4, "ab", SOON);
    assert w5.procs["ab"].pc == ReadyCheck;
    w := CallsOn(w5, "ab", PLAIN);
  }

  /** Its time is up while the original still holds the old binding. */
  lemma RetirementReached() returns (w: World)
    ensures Reachable(w) && Retiring(w, "ab", "a", 0) && w.bindings["a"].status.id == Some(0)
  {
    Names();
    w := BackupExpires();
    hide Reachable;
    ReachableInv(w);
    hide Inv;
  }

  // ----- an original deleted while its backup holds the same binding

  /** The original is deleted before it gives up its id. */
  lemma OriginalMarked() returns (w: World)
    ensures Reachable(w)
    ensures var o := ROTATED.(rv := 11, deleting := true);
      var m := BACKUP.(rv := 10, finalizer := true, status := ADOPTED);
      w == World(map["a" := o, "ab" := m], map[0 := RENAMED], map["a" := 0, "ab" := 0],
                 map["a" := Proc(o, ROTATED.status, FetchInstance)], 12, 1)
  {
    hide Reachable, Advance;
    Names();
    var w1 := BackupAdopts();
    ReachableStep(w1, UserDelete("a"));
    var w2 := Step(w1, UserDelete("a"));
    ReachableStep(w2, Start("a"));
    w := Step(w2, Start("a"));
  }

  /** Its deletion is about to unbind what its backup shows. */
  lemma OriginalUnbinding() returns (w: World)
    ensures Reachable(w)
    ensures var o := ROTATED.(rv := 11, deleting := true);
      var m := BACKUP.(rv := 10, finalizer := true, status := ADOPTED);
      w == World(map["a" := o, "ab" := m], map[0 := RENAMED], map["a" := 0, "ab" := 0],
                 map["a" := Proc(o, ROTATED.status, DeleteUnbind)], 12, 1)
  {
    hide Reachable, AdvanceInit, AdvancePollStatus, AdvancePollProbe, AdvancePollFetch, AdvanceStore, AdvanceDropSecret,
         AdvancePollRemoveFinalizer, AdvanceCleanup, AdvanceDeleteQuery, AdvanceDeleteUnbind, AdvanceDeleteRemoveFinalizer,
         AdvanceCheckExists, AdvanceAddFinalizer, AdvanceRotateAnnotation, AdvanceRotateList, AdvanceRenameFirst,
         AdvanceRenameSecond, AdvanceCreateBackup, AdvanceReadyCheck, AdvanceFetchOriginal, AdvanceDeleteSelf, AdvanceMaintain,
         AdvanceQuery, AdvanceBind;
    Names();
    var w1 := OriginalMarked();
    w := CallsOn(w1, "a", SOON);
  }

  /** The unbind takes the credentials that the unmarked backup shows. */
  lemma BackupSecretReached() returns (w: World, w1: World)
    ensures Reachable(w) && UnbindsOriginal(w, "a", SOON, 0) && ShownLive(w.bindings, w.sm, w.secrets)
    ensures w1 == Step(w, Call("a", SOON)) && Reachable(w1)
    ensures Unmarked(w1.bindings, "ab", 0) && "ab" in w1.secrets && w1.secrets["ab"] == 0 && 0 !in w1.sm
  {
    Names();
    w := OriginalUnbinding();
    w1 := CallsOn(w, "a", SOON);
    hide Reachable;
  }

  // ----- a backup without its finalizer

  /** The original has given up its id; the backup has not been reconciled yet. */
  lemma Bare() returns (w: World)
    ensures Reachable(w)
    ensures var s := ROTATED.status.Rotated();
      var o := ROTATED.(rv := 8, status := s);
      w == World(map["a" := o, "ab" := BACKUP], map[0 := RENAMED], map["a" := 0], map["a" := Proc(o, s, ReadyCheck)], 9, 1)
  {
    hide Reachable, AdvanceInit, AdvanceFetchInstance, AdvancePollStatus, AdvancePollProbe, AdvancePollFetch, AdvanceStore,
         AdvanceDropSecret, AdvancePollRemoveFinalizer, AdvanceCleanup, AdvanceDeleteQuery, AdvanceDeleteUnbind,
         AdvanceDeleteRemoveFinalizer, AdvanceCheckExists, AdvanceAddFinalizer, AdvanceRotateAnnotation, AdvanceRotateList,
         AdvanceRenameFirst, AdvanceRenameSecond, AdvanceCreateBackup, AdvanceReadyCheck, AdvanceFetchOriginal,
         AdvanceDeleteSelf, AdvanceMaintain, AdvanceQuery, AdvanceBind;
    Names();
    var w1 := BackedUp();
    w := CallsOn(w1, "a", SOON);
  }

  /** Deleting it orphans the old binding. */
  lemma BackupDeletionReached() returns (w: World)
    ensures Reachable(w) && "ab" in w.bindings && w.bindings["ab"].stale.Some?
    ensures forall o :: Original(w.bindings, o) ==> !Holds(w.bindings, o, w.bindings["ab"].stale.value)
    ensures !w.bindings["ab"].finalizer && !Nameless(w.sm, "ab")
  {
    Names();
    w := Bare();
    hide Reachable;
    assert Named(w.sm, 0, "ab");
  }

  /** The deletion of the original asks SM, and finds nothing under its names any more. */
  lemma OriginalDeleting() returns (w: World)
    ensures Reachable(w)
    ensures var s := ROTATED.status.Rotated();
      var o := ROTATED.(rv := 9, deleting := true, status := s);
      w == World(map["a" := o, "ab" := BACKUP], map[0 := RENAMED], map["a" := 0], map["a" := Proc(o, s, DeleteQuery)], 10, 1)
  {
    hide Reachable, AdvanceInit, AdvancePollStatus, AdvancePollProbe, AdvancePollFetch, AdvanceStore, AdvanceDropSecret,
         AdvancePollRemoveFinalizer, AdvanceCleanup, AdvanceDeleteQuery, AdvanceDeleteUnbind, AdvanceDeleteRemoveFinalizer,
         AdvanceCheckExists, AdvanceAddFinalizer, AdvanceRotateAnnotation, AdvanceRotateList, AdvanceRenameFirst,
         AdvanceRenameSecond, AdvanceCreateBackup, AdvanceReadyCheck, AdvanceFetchOriginal, AdvanceDeleteSelf, AdvanceMaintain,
         AdvanceQuery, AdvanceBind;
    Names();
    var w1 := Bare();
    ReachableStep(w1, Crash("a"));
    var w2 := Step(w1, Crash("a"));
    assert w2.procs == map[];
    ReachableStep(w2, UserDelete("a"));
    var w3 := Step(w2, UserDelete("a"));
    ReachableStep(w3, Start("a"));
    var w4 := Step(w3, Start("a"));
    assert w4.procs["a"].pc == FetchInstance;
    w := CallsOn(w4, "a", SOON);
  }

  lemma OriginalUnfound() returns (w: World)
    ensures Reachable(w)
    ensures var s := ROTATED.status.Rotated();
      var o := ROTATED.(rv := 9, deleting := true, status := s);
      w == World(map["a" := o, "ab" := BACKUP], map[0 := RENAMED], map["a" := 0], map["a" := Proc(o, s, DeleteDropSecret)], 10, 1)
  {
    hide Reachable, AdvanceInit, AdvanceFetchInstance, AdvancePollStatus, AdvancePollProbe, AdvancePollFetch, AdvanceStore,
         AdvancePollRemoveFinalizer, AdvanceCleanup, AdvanceDeleteUnbind, AdvanceCheckExists, AdvanceAddFinalizer,
         AdvanceRotateAnnotation, AdvanceRotateList, AdvanceRenameFirst, AdvanceRenameSecond, AdvanceCreateBackup,
         AdvanceReadyCheck, AdvanceFetchOriginal, AdvanceDeleteSelf, AdvanceMaintain, AdvanceQuery, AdvanceBind;
    Names();
    var w1 := OriginalDeleting();
    assert OnlyMatch(w1, "x", "a").None? by { assert Matches(w1, "x", "a") == {}; }
    w := CallsOn(w1, "a", SOON);
  }

  /** The original is gone, and its backup left to garbage collection. */
  lemma CollectReached() returns (w: World)
    ensures Reachable(w) && "ab" in w.bindings && w.bindings["ab"].orig == Some("a") && "a" !in w.bindings
    ensures w.bindings["ab"].stale == Some(0) && !w.bindings["ab"].finalizer && !Nameless(w.sm, "ab")
    ensures forall o :: Original(w.bindings, o) ==> !Holds(w.bindings, o, 0)
  {
    hide Reachable, AdvanceInit, AdvanceFetchInstance, AdvancePollStatus, AdvancePollProbe, AdvancePollFetch, AdvanceStore,
         AdvancePollRemoveFinalizer, AdvanceCleanup, AdvanceDeleteUnbind, AdvanceCheckExists, AdvanceAddFinalizer,
         AdvanceRotateAnnotation, AdvanceRotateList, AdvanceRenameFirst, AdvanceRenameSecond, AdvanceCreateBackup,
         AdvanceReadyCheck, AdvanceFetchOriginal, AdvanceDeleteSelf, AdvanceMaintain, AdvanceQuery, AdvanceBind;
    Names();
    var w2 := OriginalUnfound();
    var w3 := CallsOn(w2, "a", SOON);
    assert w3.procs["a"].pc == DeleteRemoveFinalizer;
    w := CallsOn(w3, "a", SOON);
    assert w.bindings == map["ab" := BACKUP];
    assert Named(w.sm, 0, "ab");
  }

  // ----- a cleanup that is not recorded

  /** The status that records the creation under way. */
  const ASYNC := STARTED.(id := Some(0), opUrl := Some(OpUrl(Create, 0)), opType := Some(Create))

  /** SM creates later, and fails. */
  lemma Failed() returns (w: World)
    ensures Reachable(w)
    ensures w == World(map["a" := BEGUN.(rv := 3, status := ASYNC)], map[0 := CREATED.(provisioning := BindingWorld.Failed)],
                       map[], map[], 4, 1)
  {
    hide Reachable, AdvanceInit, AdvanceFetchInstance, AdvancePollStatus, AdvancePollProbe, AdvancePollFetch, AdvanceStore,
         AdvanceDropSecret, AdvancePollRemoveFinalizer, AdvanceCleanup, AdvanceDeleteQuery, AdvanceDeleteUnbind,
         AdvanceDeleteRemoveFinalizer, AdvanceCheckExists, AdvanceAddFinalizer, AdvanceRotateAnnotation, AdvanceRotateList,
         AdvanceRenameFirst, AdvanceRenameSecond, AdvanceCreateBackup, AdvanceReadyCheck, AdvanceFetchOriginal,
         AdvanceDeleteSelf, AdvanceMaintain, AdvanceQuery;
    var w1 := Conceived();
    var w2 := CallsOn(w1, "a", SOON.(async := true));
    assert w2.procs["a"].pc == Save;
    var w3 := Saves(w2, "a");
    assert Allowed(w3, Operate(0, false));
    ReachableStep(w3, Operate(0, false));
    w := Step(w3, Operate(0, false));
  }

  /** The failure is found. */
  lemma FailureFound() returns (w: World)
    ensures Reachable(w)
    ensures var o := BEGUN.(rv := 3, status := ASYNC);
      w == World(map["a" := o], map[0 := CREATED.(provisioning := BindingWorld.Failed)], map[],
                 map["a" := Proc(o, ASYNC, CleanupUnbind)], 4, 1)
  {
    hide Reachable, AdvanceInit, AdvancePollProbe, AdvancePollFetch, AdvanceStore, AdvanceDropSecret, AdvancePollRemoveFinalizer,
         AdvanceCleanup, AdvanceDeleteQuery, AdvanceDeleteUnbind, AdvanceDeleteRemoveFinalizer, AdvanceCheckExists,
         AdvanceAddFinalizer, AdvanceRotateAnnotation, AdvanceRotateList, AdvanceRenameFirst, AdvanceRenameSecond,
         AdvanceCreateBackup, AdvanceReadyCheck, AdvanceFetchOriginal, AdvanceDeleteSelf, AdvanceMaintain, AdvanceQuery, AdvanceBind;
    var w0 := Failed();
    ReachableStep(w0, Start("a"));
    var w1 := Step(w0, Start("a"));
    assert w1.procs["a"].pc == FetchInstance;
    var w2 := CallsOn(w1, "a", SOON);
    assert w2.procs["a"].pc == PollStatus;
    w := CallsOn(w2, "a", SOON);
  }

  /** SM is asked to remove the failed binding, and the reconcile is cut off before it records that: the resource may never be ready again. */
  lemma RacingReached() returns (w: World)
    ensures Reachable(w) && BindingSettles.Calmly(w, "a") && BindingSettles.Racing(w, "a") && !BindingSettles.Settles(w, "a")
  {
    var w1 := FailureFound();
    var w3 := CutOff(w1);
    hide Reachable, BindingSettles.Settles;
    w := w3;
    BindingSettles.SettlesExact(w, "a");
  }

  lemma CutOff(w1: World) returns (w: World)
    requires Reachable(w1)
    requires var o := BEGUN.(rv := 3, status := ASYNC);
      w1 == World(map["a" := o], map[0 := CREATED.(provisioning := BindingWorld.Failed)], map[],
                  map["a" := Proc(o, ASYNC, CleanupUnbind)], 4, 1)
    ensures Reachable(w) && BindingSettles.Calmly(w, "a") && BindingSettles.Racing(w, "a")
  {
    hide Reachable, AdvanceInit, AdvanceFetchInstance, AdvancePollStatus, AdvancePollProbe, AdvancePollFetch, AdvanceStore,
         AdvanceDropSecret, AdvancePollRemoveFinalizer, AdvanceDeleteQuery, AdvanceDeleteUnbind, AdvanceDeleteRemoveFinalizer,
         AdvanceCheckExists, AdvanceAddFinalizer, AdvanceRotateAnnotation, AdvanceRotateList, AdvanceRenameFirst,
         AdvanceRenameSecond, AdvanceCreateBackup, AdvanceReadyCheck, AdvanceFetchOriginal, AdvanceDeleteSelf, AdvanceMaintain,
         AdvanceQuery, AdvanceBind;
    var w2 := CallsOn(w1, "a", SOON.(async := true));
    assert w2.sm == map[0 := CREATED.(provisioning := BindingWorld.Failed, unbinding := BindingWorld.Asked)];
    ReachableStep(w2, Crash("a"));
    w := Step(w2, Crash("a"));
  }
}
