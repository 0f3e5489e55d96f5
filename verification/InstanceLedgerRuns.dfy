/** Lawful runs keep the ledger, and so the hypotheses under which a reported success is true. */
module InstanceLedgerRuns {
  import opened Options
  import opened Remote
  import opened InstanceWorld
  import opened InstanceReconciler
  import opened InstanceInvariant
  import opened InstanceSteps
  import opened InstanceSafety
  import opened InstanceSpecs
  import opened InstanceTruth
  import opened InstanceLedger
  import opened InstanceLedgerSteps
  import opened InstanceLedgerCalls

  // ----- SM finishes an operation

  lemma FinishedTells(w: World, log: seq<Id>, i: Id, good: bool)
    requires SmOk(w) && i in w.insts && Tells(w, log, i) && Busy(w, i)
    ensures i in SmFinish(w, i, good).insts ==> Tells(SmFinish(w, i, good), log, i)
  {
    var w1 := SmFinish(w, i, good);
    if w.insts[i].last == Last(log) {
      if |log| > 1 {
        assert forall k :: 0 <= k < |Before(log)| ==> OpOf(w1.ops, Before(log)[k]) == OpOf(w.ops, Before(log)[k]);
        AppliesApart(w.ops, w1.ops, Before(log));
      }
    } else {
      assert forall k :: 0 <= k < |log| ==> OpOf(w1.ops, log[k]) == OpOf(w.ops, log[k]);
      AppliesApart(w.ops, w1.ops, log);
    }
  }

  /** SM never changes what an operation asked for, nor the state of a finished one. */
  lemma FinishedRecords(w: World, i: Id, good: bool, log: seq<Id>, recorded: nat, o: Instance, s: Status)
    requires Records(w, log, recorded, o, s)
    ensures Records(SmFinish(w, i, good), log, recorded, o, s)
  {
    var w1 := SmFinish(w, i, good);
    if recorded <= |log| {
      forall spec | Agree(w.ops, log[..recorded], spec)
        ensures Agree(w1.ops, log[..recorded], spec)
      {
        AgreeLater(w.ops, w1.ops, log[..recorded], spec);
      }
    }
  }

  lemma OneInstance(w: World, i: Id)
    requires SmOk(w) && i in w.insts
    ensures forall j :: j in w.insts ==> j == i
  {
  }

  lemma FinishApart(w: World, i: Id, good: bool)
    ensures SmFinish(w, i, good).obj == w.obj && SmFinish(w, i, good).proc == w.proc && SmFinish(w, i, good).insts.Keys <= w.insts.Keys
    ensures !Busy(w, i) ==> SmFinish(w, i, good) == w
  {
  }

  lemma FinishedBooked(w: World, h: Ledger, i: Id, good: bool)
    requires SmOk(w) && Booked(w, h)
    ensures Booked(SmFinish(w, i, good), h)
  {
    FinishApart(w, i, good);
    if Busy(w, i) {
      OneInstance(w, i);
      if w.obj.Some? {
        FinishedRecords(w, i, good, h.log, h.recorded, w.obj.value, w.obj.value.status);
      }
      hide SmOk, Records, SmFinish;
      if w.obj.Some? && !w.obj.value.deleting {
        assert Tells(w, h.log, i);
        assert SmOk(w);
        FinishedTells(w, h.log, i, good);
      }
      hide Tells;
    }
  }

  lemma OperateBooked(w: World, h: Ledger, i: Id, good: bool)
    requires SmOk(w) && LedgerOk(w, h)
    ensures LedgerOk(SmFinish(w, i, good), h)
  {
    FinishedBooked(w, h, i, good);
    FinishApart(w, i, good);
    if w.proc.Some? && w.proc.value.pc.Save? && Unchanged(w, w.proc.value.c) {
      FinishedRecords(w, i, good, h.log, WouldRecord(h), w.proc.value.c, w.proc.value.c.status);
    }
    hide SmFinish, Booked, Records;
  }

  // ----- users, the secret controller, an earlier release

  predicate ByOthers(a: Action) {
    a.UserCreate? || a.UserEdit? || a.UserDelete? || a.Wake? || a.OldRelease?
  }

  lemma OthersRecords(w: World, h: Ledger, a: Action)
    requires ObjOk(w) && StoredRecords(w, h) && ByOthers(a)
    ensures StoredRecords(Step(w, a), h)
  {
    hide StatusShape, Advance;
  }

  lemma OthersTell(w: World, h: Ledger, a: Action)
    requires ObjOk(w) && LogTells(w, h) && ByOthers(a)
    ensures LogTells(Step(w, a), h)
  {
    hide StatusShape, Advance, Tells;
    UserApart(w, a);
    if w.obj.Some? {
      assert Step(w, a).obj.Some? && !Step(w, a).obj.value.deleting ==> !w.obj.value.deleting;
      hide Step;
      TellsApart(w, Step(w, a), h);
    }
  }

  lemma OthersBooked(w: World, h: Ledger, a: Action)
    requires Inv(w) && LedgerOk(w, h) && ByOthers(a)
    ensures LedgerOk(Step(w, a), h)
  {
    InvAt(w);
    UserApart(w, a);
    OthersRecords(w, h, a);
    OthersTell(w, h, a);
    hide StoredRecords, LogTells, Inv, Step;
    if w.proc.Some? {
      var p := w.proc.value;
      AtCore(w, p);
      UserCore(w, a, p.c, p.base);
      hide At;
      if p.pc.Save? && Unchanged(Step(w, a), p.c) {
        RecordsApart(w, Step(w, a), h.log, WouldRecord(h), p.c, p.c, p.c.status);
      }
      hide Records, CoreOk, ObjOk;
      assert PcRecords(Step(w, a), h, p);
    }
  }

  // ----- the calls

  lemma PollCallBooked(w: World, h: Ledger, p: Proc, ch: Choice)
    requires At(w, p) && w.proc == Some(p) && Quietly(w, h, p) && StoredTrue(w) && PcTrue(w, p) && LawfulCall(w, h, p, ch)
    requires p.pc.PollStatus? || p.pc.PollFetch? || p.pc.PollRemoveFinalizer? || p.pc.CleanupCall? || p.pc.DirectSave?
          || p.pc.DeleteQuery? || p.pc.DeleteCall? || p.pc.DeleteSave? || p.pc.DeleteRemoveFinalizer?
    ensures LedgerOk(Advance(w, ch), h)
  {
    hide LedgerOk, StoredTrue, PcTrue, At, Quietly, LawfulCall, AdvancePollStatus, AdvancePollFetch,
         AdvancePollRemoveFinalizer, AdvanceCleanup, WriteStatus, AdvanceDeleteQuery, AdvanceDeleteCall, AdvanceDeleteRemoveFinalizer;
    match p.pc
    case PollStatus => PollBooked(w, h, p, ch);
    case PollFetch => PollFetchBooked(w, h, p, ch);
    case PollRemoveFinalizer => PollRemoveBooked(w, h, p, ch);
    case CleanupCall => CleanupBooked(w, h, p, ch);
    case DeleteQuery => DeleteQueryBooked(w, h, p, ch);
    case DeleteCall => DeleteCallBooked(w, h, p, ch);
    case DeleteRemoveFinalizer => DeleteRemoveBooked(w, h, p, ch);
    case _ => DirectSaveBooked(w, h, p, ch);
  }

  lemma OtherLog(w: World, h: Ledger, p: Proc, ch: Choice)
    requires w.proc == Some(p) && !p.pc.Provision? && !p.pc.UpdateCall? && !p.pc.Query? && !p.pc.Save? && !p.pc.Connect?
    ensures Logged(w, h, Call(ch)) == h
  {
    hide Advance;
  }

  lemma ConnectLog(w: World, h: Ledger, p: Proc, ch: Choice)
    requires w.proc == Some(p) && p.pc.Connect?
    ensures Logged(w, h, Call(ch)) == h.(owed := Migrates(p, ch) && Agree(w.ops, h.log, p.c.spec))
  {
    hide Advance, Agree;
  }

  lemma WrittenLog(w: World, h: Ledger, p: Proc, ch: Choice)
    requires w.proc == Some(p) && p.pc.Save?
    ensures Logged(w, h, Call(ch)) == Written(w, h, p, ch)
  {
    hide Advance;
  }

  lemma QueryLog(w: World, h: Ledger, p: Proc, ch: Choice)
    requires w.proc == Some(p) && p.pc.Query?
    ensures Logged(w, h, Call(ch)) == h.(owed := ch.call == Ok && Listed(w).Some?)
  {
    hide Advance;
  }

  lemma ProvisionLog(w: World, h: Ledger, p: Proc, ch: Choice)
    requires w.proc == Some(p) && p.pc.Provision?
    ensures Logged(w, h, Call(ch)) == if ch.call == Rejected then h else Ledger([w.nextId], 0, ch.call == Ok)
  {
    hide SmProvision;
    ProvisionFrame(w, p.c.spec, ch.async);
  }

  lemma UpdateLog(w: World, h: Ledger, p: Proc, ch: Choice)
    requires w.proc == Some(p) && p.pc.UpdateCall?
    ensures Logged(w, h, Call(ch)) == if Accepts(w, p, ch) then Ledger(h.log + [w.nextId], h.recorded, ch.call == Ok) else h
  {
    hide SmUpdate, Busy;
    if p.c.status.id.Some? && p.c.status.id.value in w.insts {
      UpdateFrame(w, p.c.status.id.value, p.c.spec, ch.async);
    }
  }

  lemma CallBooked(w: World, h: Ledger, p: Proc, ch: Choice)
    requires At(w, p) && w.proc == Some(p) && Quietly(w, h, p) && StoredTrue(w) && PcTrue(w, p) && LawfulCall(w, h, p, ch)
    ensures LedgerOk(Advance(w, ch), Logged(w, h, Call(ch)))
  {
    hide LedgerOk, StoredTrue, PcTrue, At, Quietly, LawfulCall, FoundCurrent, Migrates, Agree, Logged, Written, Accepts, AdvanceCheckExists, AdvanceInit,
         AdvanceAddFinalizer, AdvanceQuery, AdvanceBuild, AdvanceProvision, AdvanceUpdate, AdvanceShare, WriteStatus, AdvanceConnect,
         AdvancePollStatus, AdvancePollFetch, AdvancePollRemoveFinalizer, AdvanceCleanup, AdvanceDeleteQuery, AdvanceDeleteCall,
         AdvanceDeleteRemoveFinalizer;
    match p.pc
    case Provision => ProvisionBooked(w, h, p, ch); ProvisionLog(w, h, p, ch);
    case UpdateCall => UpdateBooked(w, h, p, ch); UpdateLog(w, h, p, ch);
    case Query => LawfulQuery(w, h, p, ch); QueryBooked(w, h, p, ch); QueryLog(w, h, p, ch);
    case Save => SaveBooked(w, h, p, ch); WrittenLog(w, h, p, ch);
    case Connect => ConnectBooked(w, h, p, ch); ConnectLog(w, h, p, ch);
    case CheckExists => CheckExistsBooked(w, h, p, ch); OtherLog(w, h, p, ch);
    case InitConditions => InitBooked(w, h, p, ch); OtherLog(w, h, p, ch);
    case AddFinalizer => AddFinalizerBooked(w, h, p, ch); OtherLog(w, h, p, ch);
    case Build => BuildBooked(w, h, p, ch); OtherLog(w, h, p, ch);
    case ShareCall => ShareBooked(w, h, p, ch); OtherLog(w, h, p, ch);
    case _ => PollCallBooked(w, h, p, ch); OtherLog(w, h, p, ch);
  }

  lemma LawfulQuery(w: World, h: Ledger, p: Proc, ch: Choice)
    requires LawfulCall(w, h, p, ch) && p.pc == Query
    ensures Unchanged(w, p.c) ==> FoundCurrent(w, p.c)
  {
    hide FoundCurrent, Agree;
  }

  /** The ledger survives every lawful step. */
  lemma StepBooked(w: World, h: Ledger, a: Action)
    requires Inv(w) && Claims(w) && LedgerOk(w, h) && Lawful(w, h, a)
    ensures LedgerOk(Step(w, a), Logged(w, h, a))
  {
    InvAt(w);
    hide Inv, At, SmOk, ObjOk, Advance, SmFinish, StoredTrue, PcTrue, Booked, PcRecords, LawfulCall;
    match a
    case Start => if w.obj.Some? && w.proc.None? { GoPlain(w, h, w.obj.value, w.obj.value.status, Connect); }
    case Call(ch) => if w.proc.Some? { CallBooked(w, h, w.proc.value, ch); }
    case Crash => CrashBooked(w, h);
    case Operate(i, good) => OperateBooked(w, h, i, good);
    case _ => OthersBooked(w, h, a);
  }

  lemma CrashBooked(w: World, h: Ledger)
    requires LedgerOk(w, h)
    ensures LedgerOk(Stop(w), h.(owed := false))
  {
  }

  /** A lawful call is one the truth of Succeeded can rest on. */
  lemma LawfulTrusted(w: World, h: Ledger, p: Proc, ch: Choice)
    requires At(w, p) && LedgerOk(w, h) && w.proc == Some(p) && StoredTrue(w) && LawfulCall(w, h, p, ch)
    ensures Trusted(w, p, ch)
  {
    hide FoundCurrent, Faithful, Agree, OpCurrent, LedgerOk, StoredTrue;
    if Unchanged(w, p.c) {
      if (p.pc.Connect? || p.pc.PollStatus?) && ch.call != Ok {
        AskedCurrent(w, h, p);
      }
      if p.pc.ShareCall? && GoodStatus(p.c.status) && p.c.status.id.Some? {
        if p.c.status.id.value in w.insts {
          ShareFaithful(w, h, p);
        } else {
          assert Faithful(w, p.c.status.id.value, p.c.spec) by { GoneFaithful(w, p.c.status.id.value, p.c.spec); }
        }
      }
    }
  }

  lemma GoneFaithful(w: World, i: Id, spec: Spec)
    requires i !in w.insts
    ensures Faithful(w, i, spec)
  {
  }

  // ----- whole runs

  /** A world and its ledger after a lawful run. */
  ghost predicate LawfulRun(w: World, h: Ledger, actions: seq<Action>)
    decreases |actions|
  {
    actions == [] || (Lawful(w, h, actions[0]) && LawfulRun(Step(w, actions[0]), Logged(w, h, actions[0]), actions[1..]))
  }

  ghost function Book(w: World, h: Ledger, actions: seq<Action>): Ledger
    decreases |actions|
  {
    if actions == [] then h else Book(Step(w, actions[0]), Logged(w, h, actions[0]), actions[1..])
  }

  lemma StepSound(w: World, h: Ledger, a: Action)
    requires Inv(w) && Claims(w) && LedgerOk(w, h) && Lawful(w, h, a)
    ensures Inv(Step(w, a)) && Claims(Step(w, a)) && LedgerOk(Step(w, a), Logged(w, h, a))
  {
    StepKeeps(w, a);
    StepBooked(w, h, a);
    assert InstanceSpecs.Allowed(w, a) by {
      InvAt(w);
      if a.Call? && w.proc.Some? {
        hide Inv, At, LedgerOk, PcTrue, StoredTrue, Trusted, LawfulCall, Step;
        LawfulTrusted(w, h, w.proc.value, a.ch);
      }
    }
    StepTrue(w, a);
  }

  lemma {:induction false} RunSound(w: World, h: Ledger, actions: seq<Action>)
    requires Inv(w) && Claims(w) && LedgerOk(w, h) && LawfulRun(w, h, actions)
    ensures Inv(Run(w, actions)) && Claims(Run(w, actions)) && LedgerOk(Run(w, actions), Book(w, h, actions))
    decreases |actions|
  {
    hide Inv, Claims, LedgerOk, Lawful, Step, Logged;
    if actions != [] {
      StepSound(w, h, actions[0]);
      RunSound(Step(w, actions[0]), Logged(w, h, actions[0]), actions[1..]);
    }
  }

  lemma InitialSound(w: World)
    requires Initial(w)
    ensures Inv(w) && Claims(w) && LedgerOk(w, EMPTY)
  {
  }

  /**
   No silently missed specification: when Succeeded is true and observed the current generation, SM
   applies the current specification, even if it was edited while an operation was running.
   */
  lemma NoMissedSpec(w0: World, actions: seq<Action>)
    requires Initial(w0) && LawfulRun(w0, EMPTY, actions)
    ensures var w := Run(w0, actions);
      w.obj.Some? && !w.obj.value.deleting && w.obj.value.status.id.Some?
      && w.obj.value.status.succeeded.Some? && w.obj.value.status.succeeded.value.good
      && w.obj.value.status.observed == w.obj.value.gen && w.obj.value.status.id.value in w.insts ==>
        w.insts[w.obj.value.status.id.value].applied == w.obj.value.spec
  {
    InitialSound(w0);
    hide Run, LawfulRun, SmOk, Inv, LedgerOk, Book;
    RunSound(w0, EMPTY, actions);
    InvAt(Run(w0, actions));
  }

  // ----- reaching a world lawfully

  ghost predicate Arrived(w: World, h: Ledger) {
    exists w0, actions :: Initial(w0) && LawfulRun(w0, EMPTY, actions) && w == Run(w0, actions) && h == Book(w0, EMPTY, actions)
  }

  lemma {:induction false} LawfulThen(w: World, h: Ledger, actions: seq<Action>, a: Action)
    requires LawfulRun(w, h, actions) && Lawful(Run(w, actions), Book(w, h, actions), a)
    ensures LawfulRun(w, h, actions + [a])
    ensures Book(w, h, actions + [a]) == Logged(Run(w, actions), Book(w, h, actions), a)
    decreases |actions|
  {
    hide Step, Lawful, Logged;
    if actions == [] {
      assert [] + [a] == [a] && [a][1..] == [];
    } else {
      assert (actions + [a])[1..] == actions[1..] + [a];
      LawfulThen(Step(w, actions[0]), Logged(w, h, actions[0]), actions[1..], a);
    }
  }

  lemma ArrivedStep(w: World, h: Ledger, a: Action)
    requires Arrived(w, h) && Lawful(w, h, a)
    ensures Arrived(Step(w, a), Logged(w, h, a))
  {
    hide Step, Lawful, Logged, LawfulRun, Run, Book;
    var w0, actions :| Initial(w0) && LawfulRun(w0, EMPTY, actions) && w == Run(w0, actions) && h == Book(w0, EMPTY, actions);
    LawfulThen(w0, EMPTY, actions, a);
    RunThen(w0, actions, a);
  }

  lemma ArrivedSound(w: World, h: Ledger)
    requires Arrived(w, h)
    ensures Inv(w) && Claims(w) && LedgerOk(w, h) && Reachable(w)
  {
    hide Inv, Claims, LedgerOk, LawfulRun, Run, Book;
    var w0, actions :| Initial(w0) && LawfulRun(w0, EMPTY, actions) && w == Run(w0, actions) && h == Book(w0, EMPTY, actions);
    InitialSound(w0);
    RunSound(w0, EMPTY, actions);
  }

  lemma ArrivedInitially(w: World)
    requires Initial(w)
    ensures Arrived(w, EMPTY)
  {
    assert LawfulRun(w, EMPTY, []) && Run(w, []) == w && Book(w, EMPTY, []) == EMPTY;
  }
}
