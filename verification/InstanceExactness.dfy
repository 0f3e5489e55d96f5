/** Where a reported success can be false: for each hypothesis of a lawful run, the exact condition. */
module InstanceExactness {
  import opened Options
  import opened Remote
  import opened InstanceWorld
  import opened InstanceReconciler
  import opened InstanceInvariant
  import opened InstanceSteps
  import opened InstanceSafety
  import opened InstanceSpecs
  import opened InstanceConvergence
  import opened InstanceTruth
  import opened InstanceLedger
  import opened InstanceLedgerCalls
  import opened InstanceLedgerRuns

  /** A reconcile at `pc` whose copy is the stored object. */
  predicate Fresh(w: World, pc: Pc) {
    w.proc.Some? && w.proc.value.pc == pc && w.obj == Some(w.proc.value.c.(status := w.proc.value.base))
    && !w.proc.value.c.deleting
  }

  /** What is stored after a call and the status write that follows it. */
  ghost function Saved(w: World, ch: Choice): World {
    Step(Step(w, Call(ch)), Call(PLAIN))
  }

  lemma WriteThen(w: World, c: Instance, base: Status, status: Status)
    requires w.obj == Some(c.(status := base))
    ensures var w1 := Step(Finish(w, c, base, status), Call(PLAIN));
      && w1.obj == Some(c.(status := UpdateStatus(status), rv := w.clock)) && w1.insts == w.insts && w1.ops == w.ops
      && w1.proc == None && w1.nextId == w.nextId
  {
  }

  lemma HonestOf(w: World, c: Instance, o: Instance, s: Status)
    requires o.deleting == c.deleting && o.gen == c.gen && o.spec == c.spec
    ensures Honest(w, o, s) <==> Honest(w, c, s)
  {
  }

  // ----- sharing

  /** An answer after which sharing aligns the conditions with the present generation. */
  predicate Aligning(c: Instance, ch: Choice) {
    if ch.call == Ok then c.wanted.Some? else !ch.throttled
  }

  lemma SharedThen(w: World, p: Proc, ch: Choice)
    requires p.pc == ShareCall && Aligning(p.c, ch) && p.c.status.id.Some? && p.c.status.id.value in w.insts
    ensures exists w1: World, sharing: Sharing ::
      && AdvanceShare(w, p, ch) == Finish(w1, p.c, p.base, p.c.status.Aligned(sharing, p.c.gen))
      && (w1 == w || w1 == SmShare(w, p.c.status.id.value, p.c.wanted == Some(true)))
  {
    var share := p.c.wanted == Some(true);
    var w1 := if ch.call == Rejected then w else SmShare(w, p.c.status.id.value, share);
    var sharing := if ch.call == Ok then (if share then On else Off) else if !share then On else if ch.unsharable then Unsupported else Off;
    hide SmShare;
    assert AdvanceShare(w, p, ch) == Finish(w1, p.c, p.base, p.c.status.Aligned(sharing, p.c.gen));
  }

  lemma AlignedHonest(w: World, w1: World, w2: World, c: Instance, i: Id, sharing: Sharing, share: bool)
    requires w1.insts == w2.insts && w1.ops == w2.ops && (w2 == w || w2 == SmShare(w, i, share))
    requires !c.deleting && c.status.id == Some(i) && GoodStatus(c.status)
    ensures Honest(w1, c, UpdateStatus(c.status.Aligned(sharing, c.gen))) <==> Faithful(w, i, c.spec)
  {
  }

  lemma ShareStep(w: World, ch: Choice)
    requires w.proc.Some? && w.proc.value.pc == ShareCall
    ensures Step(w, Call(ch)) == AdvanceShare(w, w.proc.value, ch)
  {
    hide AdvanceShare;
  }

  /**
   Sharing aligns the success of an earlier generation with the present one.  After a run that was lawful so
   far that is true exactly when no unrecorded request was carried out, or is under way, for another
   specification.
   */
  lemma SharingExact(w: World, h: Ledger, ch: Choice)
    requires Arrived(w, h) && Fresh(w, ShareCall) && Aligning(w.proc.value.c, ch)
    requires var s := w.proc.value.c.status; GoodStatus(s) && s.id.Some? && s.id.value in w.insts
    ensures var w1 := Saved(w, ch);
      w1.obj.Some? && (Honest(w1, w1.obj.value, w1.obj.value.status) <==> Agree(w.ops, Unrecorded(h), w.proc.value.c.spec))
  {
    var p := w.proc.value;
    var i := p.c.status.id.value;
    ArrivedSound(w, h);
    InvAt(w);
    hide Inv, Claims, At, Arrived, AdvanceShare, Step, Faithful, Honest, SmShare, Finish, Agree, LedgerOk, SmOk, ObjOk, Reachable;
    assert Faithful(w, i, p.c.spec) <==> Agree(w.ops, Unrecorded(h), p.c.spec) by { ShareFaithful(w, h, p); }
    ShareStep(w, ch);
    SharedThen(w, p, ch);
    var w2: World, sharing: Sharing :| AdvanceShare(w, p, ch) == Finish(w2, p.c, p.base, p.c.status.Aligned(sharing, p.c.gen))
      && (w2 == w || w2 == SmShare(w, i, p.c.wanted == Some(true)));
    SharedKeys(w, i, p.c.wanted == Some(true));
    var status := p.c.status.Aligned(sharing, p.c.gen);
    WriteThen(w2, p.c, p.base, status);
    AlignedHonest(w, Saved(w, ch), w2, p.c, i, sharing, p.c.wanted == Some(true));
    HonestOf(Saved(w, ch), p.c, Saved(w, ch).obj.value, UpdateStatus(status));
  }

  // ----- recovery

  lemma QueryStep(w: World, i: Id)
    requires w.proc.Some? && w.proc.value.pc == Query && Listed(w) == Some(i) && i in w.insts
    ensures Step(w, Call(PLAIN)) == Finish(w, w.proc.value.c, w.proc.value.base, Recovered(w, w.proc.value.c, i))
  {
    hide Recovered, Finish, Listed;
  }

  /** An instance without a stored name is as it was created: its creation is all that was asked for. */
  lemma OnlyCreation(w: World, h: Ledger, i: Id)
    requires Inv(w) && LedgerOk(w, h) && Fresh(w, Query) && i in w.insts
    ensures |h.log| == 1 && w.insts[i].last == h.log[0] && h.log[0] in w.ops && w.ops[h.log[0]].resource == i
    ensures w.ops[h.log[0]].state == Good ==> w.insts[i].applied == w.ops[h.log[0]].target
    ensures w.ops[h.log[0]].kind == Create
  {
    InvAt(w);
    assert w.proc.value.c.status.id.None? && w.proc.value.base.id.None? by { hide Steady; }
    assert Tells(w, h.log, i) by { hide Tells, Inv; }
    hide Inv, At;
  }

  lemma RecoveredTruth(w: World, w1: World, c: Instance, i: Id)
    requires i in w.insts && w.insts[i].last in w.ops && w.ops[w.insts[i].last].resource == i && w.ops[w.insts[i].last].kind == Create
    requires w1.insts == w.insts && w1.ops == w.ops && !c.deleting
    requires w.ops[w.insts[i].last].state == Good ==> w.insts[i].applied == w.ops[w.insts[i].last].target
    ensures Truth(w1, c, UpdateStatus(Recovered(w, c, i))) <==>
              w.ops[w.insts[i].last].state == Bad || w.ops[w.insts[i].last].target == c.spec
  {
  }

  /**
   Recovering an instance whose creation was not recorded reports the truth, and keeps its operation on
   track, exactly when the creation failed or asked for the specification at hand.
   */
  lemma RecoveryExact(w: World, h: Ledger, i: Id)
    requires Arrived(w, h) && Fresh(w, Query) && Listed(w) == Some(i)
    ensures |h.log| == 1
    ensures var w1 := Saved(w, PLAIN);
      w1.obj.Some? && (Truth(w1, w1.obj.value, w1.obj.value.status) <==>
                         OpOf(w.ops, h.log[0]).state == Bad || OpOf(w.ops, h.log[0]).target == w.proc.value.c.spec)
  {
    ArrivedSound(w, h);
    var p := w.proc.value;
    hide Arrived, Inv, Claims, LedgerOk, Reachable, Step, Finish, Recovered, Truth;
    OnlyCreation(w, h, i);
    QueryStep(w, i);
    WriteThen(w, p.c, p.base, Recovered(w, p.c, i));
    var w1 := Saved(w, PLAIN);
    RecoveredTruth(w, w1, p.c, i);
    TruthOf(w1, p.c, w1.obj.value, UpdateStatus(Recovered(w, p.c, i)));
  }

  lemma TruthOf(w: World, c: Instance, o: Instance, s: Status)
    requires o.deleting == c.deleting && o.gen == c.gen && o.spec == c.spec
    ensures Truth(w, o, s) <==> Truth(w, c, s)
  {
  }

  // ----- errors while an operation is recorded

  /** An error of the SM client or of Status() is stored, then SM finishes the operation, and a poll finds it done. */
  ghost function Reported(w: World, ch: Choice, i: Id): World {
    Pass(Step(Saved(w, ch), Operate(i, true)), PLAIN)
  }

  /** Whatever the error, the present generation is written over the observed one. */
  lemma ErrorStep(w: World, ch: Choice)
    requires w.proc.Some? && ch.call != Ok && w.proc.value.c.status.opUrl.Some?
    requires w.proc.value.pc == Connect || w.proc.value.pc == PollStatus
    ensures exists s: Status :: Step(w, Call(ch)) == Finish(w, w.proc.value.c, w.proc.value.base, s) && Overwritten(w.proc.value.c, s)
  {
    var c := w.proc.value.c;
    var kind := c.status.opUrl.value.kind;
    var s := if w.proc.value.pc == Connect || !ch.throttled then c.status.Failure(c.gen, c.gen) else c.status.InProgress(kind, c.gen, c.gen);
    assert Step(w, Call(ch)) == Finish(w, c, w.proc.value.base, s);
  }

  predicate Overwritten(c: Instance, s: Status) {
    s == c.status.(succeeded := s.succeeded, readyCond := s.readyCond) && s.LastObserved() == c.gen
  }

  lemma RecordedLast(w: World, h: Ledger, p: Proc)
    requires At(w, p) && LedgerOk(w, h) && w.proc == Some(p) && Fresh(w, p.pc) && (p.pc == Connect || p.pc == PollStatus)
    requires p.c.status.opUrl.Some? && p.c.status.opUrl.value.kind != Delete && p.c.status.id.Some?
    requires SmStatus(w, p.c.status.opUrl.value) == Some(Running)
    ensures var url := p.c.status.opUrl.value;
      && w.obj == Some(p.c) && p.c.status.id == Some(url.resource) && Busy(w, url.resource) && w.insts[url.resource].last == url.op
      && h.log != [] && url.op == Last(h.log) && HashOf(p.c.status, w.ops[url.op].target) && w.ops[url.op].kind == url.kind
  {
    PollCopy(w, p);
    assert ObjOk(w);
    hide At, SmOk;
  }

  lemma FinishedHonest(w: World, i: Id, o: Instance, clock: nat)
    requires Busy(w, i) && w.ops[w.insts[i].last].kind != Delete && !o.deleting && o.status.id == Some(i) && o.status.LastObserved() == o.gen
    ensures var w1 := SmFinish(w, i, true);
      && i in w1.insts && w1.insts[i].applied == w.ops[w.insts[i].last].target
      && w1.ops == w.ops[w.insts[i].last := w.ops[w.insts[i].last].(state := Good)]
      && (Honest(w1, o, Polled(o)) <==> w.ops[w.insts[i].last].target == o.spec)
  {
  }

  /**
   An error while an operation is recorded makes its success be reported for the present generation.  That
   is true exactly when the operation asked for the specification at hand.  With a hash in the present format
   that is, when the stored hash is that of the specification.
   */
  lemma StatusErrorExact(w: World, h: Ledger, ch: Choice)
    requires Arrived(w, h) && (Fresh(w, Connect) || Fresh(w, PollStatus)) && ch.call != Ok
    requires var s := w.proc.value.c.status;
      s.id.Some? && s.opUrl.Some? && s.opUrl.value.kind != Delete && SmStatus(w, s.opUrl.value) == Some(Running)
    ensures h.log != []
    ensures var c := w.proc.value.c;
      var w1 := Reported(w, ch, c.status.id.value);
      && w1.obj.Some?
      && (Honest(w1, w1.obj.value, w1.obj.value.status) <==> OpOf(w.ops, Last(h.log)).target == c.spec)
      && (HashUsed(c.status) ==> (Honest(w1, w1.obj.value, w1.obj.value.status) <==> c.status.hash == Of(c.spec)))
  {
    var p := w.proc.value;
    var url := p.c.status.opUrl.value;
    var i := p.c.status.id.value;
    ArrivedSound(w, h);
    InvAt(w);
    hide Arrived, Inv, Claims, LedgerOk, Reachable, At, SmOk, ObjOk, Honest;
    RecordedLast(w, h, p);
    ErrorStep(w, ch);
    var s: Status :| Step(w, Call(ch)) == Finish(w, p.c, p.base, s) && Overwritten(p.c, s);
    assert w.obj == Some(p.c.(status := p.base));
    hide Step;
    WriteThen(w, p.c, p.base, s);
    ReportedIs(w, Saved(w, ch), p.c, i, url, UpdateStatus(s));
  }

  lemma ReportedIs(w: World, w1: World, c: Instance, i: Id, url: OpUrl, s: Status)
    requires Busy(w, i) && w.insts[i].last == url.op && w.ops[url.op].kind == url.kind && url.kind != Delete && url.resource == i
    requires !c.deleting && c.status.id == Some(i) && c.status.opUrl == Some(url) && Overwritten(c, s.(observed := c.status.observed))
    requires w1.obj == Some(c.(status := s, rv := w.clock)) && w1.insts == w.insts && w1.ops == w.ops && w1.proc == None
    ensures var w3 := Pass(Step(w1, Operate(i, true)), PLAIN);
      && w3.obj.Some?
      && (Honest(w3, w3.obj.value, w3.obj.value.status) <==> w.ops[url.op].target == c.spec)
  {
    var w2 := Step(w1, Operate(i, true));
    var o := w1.obj.value;
    FinishedHonest(w1, i, o, w1.clock);
    assert w2 == SmFinish(w1, i, true);
    assert w2.obj == w1.obj && w2.proc == None;
    hide Step, SmFinish;
    PassSucceeds(w2, PLAIN);
    var w3 := Pass(w2, PLAIN);
    hide Pass;
    HonestApart(w2, w3, o, w3.obj.value, Polled(o));
  }

  lemma HonestApart(w: World, w1: World, c: Instance, o: Instance, s: Status)
    requires w1.insts == w.insts && w1.ops == w.ops && o.deleting == c.deleting && o.gen == c.gen && o.spec == c.spec
    ensures Honest(w1, o, s) <==> Honest(w, c, s)
  {
  }

  // ----- migration of the hash

  predicate ReportsTruly(w: World) {
    w.obj.Some? ==> Honest(w, w.obj.value, w.obj.value.status)
  }

  /** At rest after a success, with a hash of the former kind, and a change of sharing that is all the next passes see. */
  predicate Migrating(w: World) {
    && AtRest(w) && w.obj.value.finalizer && w.obj.value.wanted.Some? && !w.obj.value.subscribed && ShareRequired(w.obj.value)
    && var s := w.obj.value.status;
    && s.hash == Legacy && s.opUrl.None? && s.id.Some? && s.id.value in w.insts && s.readyCond.Some? && !s.force
    && GoodStatus(s) && !s.succeeded.value.updating
  }

  lemma MigrationPasses(w: World, ch: Choice)
    requires Migrating(w) && Cooperative(ch)
    ensures var w1 := PutStatus(w, UpdateStatus(w.obj.value.status.(hash := Of(w.obj.value.spec))));
      Pass(Pass(w, ch), ch) == SharedTo(w1)
  {
    PassMigrates(w, ch);
    var w1 := PutStatus(w, UpdateStatus(w.obj.value.status.(hash := Of(w.obj.value.spec))));
    hide Pass;
    assert Filled(w1.obj.value) == w1.obj.value;
    PassShares(w1, ch);
  }

  lemma SharedToHonest(w: World)
    requires AtRest(w) && w.obj.value.status.id.Some? && Filled(w.obj.value) == w.obj.value && w.obj.value.wanted.Some?
    requires GoodStatus(w.obj.value.status)
    ensures ReportsTruly(SharedTo(w)) <==> Faithful(w, w.obj.value.status.id.value, w.obj.value.spec)
  {
    hide Filled;
  }

  /**
   Migrating the hash suppresses the update that an edit asks for.  When sharing comes next, the success it
   reports is true exactly when the last request carried out, and one under way, asked for the specification
   at hand.
   */
  lemma MigrationExact(w: World, h: Ledger, ch: Choice)
    requires Arrived(w, h) && Migrating(w) && Cooperative(ch)
    ensures ReportsTruly(Pass(Pass(w, ch), ch)) <==> Agree(w.ops, h.log, w.obj.value.spec)
  {
    ArrivedSound(w, h);
    var o := w.obj.value;
    var i := o.status.id.value;
    assert Tells(w, h.log, i) by { hide Arrived, Inv, Claims, Tells, StoredRecords, Migrating; LedgerTells(w, h, i); }
    FaithfulIff(w, h.log, i, o.spec);
    MigrationPasses(w, ch);
    var w1 := PutStatus(w, UpdateStatus(o.status.(hash := Of(o.spec))));
    assert Faithful(w1, i, o.spec) <==> Faithful(w, i, o.spec);
    hide Arrived, Inv, Claims, LedgerOk, Pass, Reachable, Agree, Tells, SharedTo, Faithful, ReportsTruly;
    assert Filled(w1.obj.value) == w1.obj.value;
    SharedToHonest(w1);
  }

  lemma LedgerTells(w: World, h: Ledger, i: Id)
    requires LedgerOk(w, h) && w.obj.Some? && !w.obj.value.deleting && i in w.insts
    ensures Tells(w, h.log, i)
  {
    hide Tells, Records;
  }

  // ----- a change of labels during a creation

  /** A creation whose labels change, done at once and recorded, then an edit, and a pass. */
  ghost function Recreated(w: World): World {
    Step(Step(Step(w, Call(PLAIN.(relabel := true))), Call(PLAIN)), Call(PLAIN))
  }

  ghost function EditedThen(w: World, spec: Spec, wanted: Option<bool>, subscribed: bool, ch: Choice): World {
    Pass(Step(Recreated(w), UserEdit(spec, wanted, subscribed)), ch)
  }

  /** A reconcile about to build the parameters of a creation. */
  predicate Creating(w: World) {
    && Fresh(w, Build) && w.proc.value.c.finalizer && w.proc.value.base.id.None? && w.proc.value.c.status.id.None?
    && w.proc.value.base.opUrl.None? && w.insts == map[]
  }

  /** The instance after the creation: the update of the labels has brought the stored hash back. */
  lemma RelabelledIs(w: World)
    requires Creating(w)
    ensures var w1 := Recreated(w);
      var c, base := w.proc.value.c, w.proc.value.base;
      && AtRest(w1) && w1.obj.value == c.(rv := w1.obj.value.rv, status := UpdateStatus(base.(id := Some(w.nextId)).Success(c.gen)))
      && w1.insts == map[w.nextId := Inst(w.nextId, c.spec, false)] && w.nextId in w1.ops
      && w1.ops[w.nextId] == Op(Create, w.nextId, Good, c.spec)
  {
    hide AdvanceConnect, AdvancePollStatus, AdvancePollFetch, AdvancePollRemoveFinalizer, AdvanceCleanup, AdvanceDeleteQuery,
         AdvanceDeleteCall, AdvanceDeleteRemoveFinalizer, AdvanceCheckExists, AdvanceInit, AdvanceAddFinalizer, AdvanceQuery,
         AdvanceUpdate, AdvanceShare;
    var c, base := w.proc.value.c, w.proc.value.base;
    var w2 := Step(w, Call(PLAIN.(relabel := true)));
    assert w2.proc.value == Proc(c.(rv := w.clock, status := base), base, Provision) && w2.obj == Some(c.(rv := w.clock, status := base));
    var w3 := Step(w2, Call(PLAIN));
    assert w3.proc.value.pc == Save;
  }

  /** The pass shares or unshares, and aligns the success with the present generation. */
  predicate Aligns(sharing: Sharing, wanted: Option<bool>) {
    match sharing
    case Absent | Off => wanted == Some(true)
    case On => wanted == Some(false)
    case Unsupported => false
  }

  /** After a success for specification `applied`, an edit not yet reconciled. */
  predicate JustEdited(w: World, i: Id, applied: Spec) {
    && AtRest(w) && w.obj.value.finalizer && w.insts == map[i := Inst(i, applied, false)]
    && i in w.ops && w.ops[i] == Op(Create, i, Good, applied)
    && var o := w.obj.value;
    && o.status.id == Some(i) && o.status.opUrl.None? && o.status.ready && o.status.readyCond.Some?
    && GoodStatus(o.status) && !o.status.succeeded.value.updating && o.status.succeeded.value.gen != o.gen
  }

  lemma UpdatedReports(w: World, i: Id, applied: Spec, ch: Choice)
    requires JustEdited(w, i, applied) && Cooperative(ch) && w.obj.value.status.hash != Legacy && UpdateRequired(w.obj.value)
    ensures ReportsTruly(Pass(w, ch))
  {
    assert Filled(w.obj.value) == w.obj.value;
    hide UpdateRequired;
    PassUpdates(w, ch);
    hide Pass;
    UpdatedTruly(w, i, applied, ch);
  }

  lemma UpdatedTruly(w: World, i: Id, applied: Spec, ch: Choice)
    requires JustEdited(w, i, applied)
    ensures ReportsTruly(UpdatedTo(w, ch))
  {
  }

  lemma AlignsWanted(o: Instance)
    requires ShareRequired(o)
    ensures Aligns(o.status.sharing, o.wanted) <==> o.wanted.Some?
  {
    if o.wanted.Some? {
      var shared: bool := o.wanted.value;
      assert o.wanted == Some(shared);
    }
  }

  lemma SharedReports(w: World, i: Id, applied: Spec)
    requires JustEdited(w, i, applied) && ShareRequired(w.obj.value) && !UpdateRequired(w.obj.value)
    ensures ReportsTruly(SharedTo(w)) <==> applied == w.obj.value.spec || w.obj.value.wanted.None?
    ensures Aligns(w.obj.value.status.sharing, w.obj.value.wanted) <==> w.obj.value.wanted.Some?
  {
    assert Filled(w.obj.value) == w.obj.value;
    AlignsWanted(w.obj.value);
    hide Aligns, ShareRequired, UpdateRequired;
    if w.obj.value.wanted.Some? {
      SharedToHonest(w);
    }
  }

  /** One edit: the report is false exactly when the hash hides it, and the pass shares. */
  lemma EditReports(w: World, i: Id, applied: Spec, ch: Choice)
    requires JustEdited(w, i, applied) && Cooperative(ch)
    ensures var o := w.obj.value;
      ReportsTruly(Pass(w, ch)) <==>
        !(o.status.hash == Of(o.spec) && applied != o.spec && !o.status.force && !o.subscribed && Aligns(o.status.sharing, o.wanted))
  {
    var o := w.obj.value;
    if o.status.hash == Legacy {
      PassMigrates(w, ch);
      hide Pass;
    } else if UpdateRequired(o) {
      UpdatedReports(w, i, applied, ch);
    } else {
      assert Filled(o) == o;
      if ShareRequired(o) {
        PassShares(w, ch);
        hide Pass;
        SharedReports(w, i, applied);
      } else {
        PassRests(w, ch);
      }
    }
  }

  lemma EditedReports(w: World, spec: Spec, wanted: Option<bool>, subscribed: bool, ch: Choice)
    requires Creating(w) && Cooperative(ch)
    ensures var c, base := w.proc.value.c, w.proc.value.base;
      ReportsTruly(EditedThen(w, spec, wanted, subscribed, ch)) <==>
        !(base.hash == Of(spec) && c.spec != spec && !base.force && !subscribed && Aligns(base.sharing, wanted))
  {
    RelabelledIs(w);
    hide Recreated, Advance, Pass, ReportsTruly, Aligns;
    var w1 := Step(Recreated(w), UserEdit(spec, wanted, subscribed));
    EditReports(w1, w.nextId, w.proc.value.c.spec, ch);
  }

  // ----- the same for a creation that runs as an operation

  /** The creation is accepted and recorded, and runs. */
  ghost function Started(w: World): World {
    Step(Step(Step(w, Call(PLAIN.(relabel := true))), Call(PLAIN.(async := true))), Call(PLAIN))
  }

  /** Polls of the running operation. */
  ghost function Polls(w: World, waits: seq<Choice>): World
    decreases |waits|
  {
    if waits == [] then w else Polls(Pass(w, waits[0]), waits[1..])
  }

  predicate Answered(waits: seq<Choice>) {
    forall ch :: ch in waits ==> Cooperative(ch)
  }

  /** SM finishes the operation, and a poll finds it done. */
  ghost function SeenThrough(w: World, i: Id, ch: Choice): World {
    Pass(Step(w, Operate(i, true)), ch)
  }

  /** The edit comes while the creation runs, or before a poll finds it done. */
  ghost function EditedDuring(
    w: World, before: seq<Choice>, spec: Spec, wanted: Option<bool>, subscribed: bool, after: seq<Choice>, ch: Choice): World
  {
    Pass(SeenThrough(Polls(Step(Polls(Started(w), before), UserEdit(spec, wanted, subscribed)), after), w.nextId, ch), ch)
  }

  /** The edit comes once the creation is done. */
  ghost function EditedAfter(
    w: World, waits: seq<Choice>, spec: Spec, wanted: Option<bool>, subscribed: bool, ch: Choice): World
  {
    Pass(Step(SeenThrough(Polls(Started(w), waits), w.nextId, ch), UserEdit(spec, wanted, subscribed)), ch)
  }

  /** The creation of `i` runs; its status has the hash, the sharing and the flag of `base`, and last observed `at`. */
  predicate Underway(w: World, i: Id, applied: Spec, base: Status, at: nat) {
    && AtRest(w) && w.obj.value.finalizer && w.insts == map[i := Inst(i, applied, false)]
    && i in w.ops && w.ops[i] == Op(Create, i, Running, applied)
    && var s := w.obj.value.status;
    && s.id == Some(i) && s.opUrl == Some(OpUrl(Create, i, i)) && s.succeeded.Some? && s.LastObserved() == at
    && s.hash == base.hash && s.sharing == base.sharing && s.force == base.force
  }

  lemma StartedIs(w: World)
    requires Creating(w)
    ensures var w1 := Started(w);
      var c := w.proc.value.c;
      Underway(w1, w.nextId, c.spec, w.proc.value.base, c.gen) && w1.obj.value.gen == c.gen
  {
    hide AdvanceConnect, AdvancePollStatus, AdvancePollFetch, AdvancePollRemoveFinalizer, AdvanceCleanup, AdvanceDeleteQuery,
         AdvanceDeleteCall, AdvanceDeleteRemoveFinalizer, AdvanceCheckExists, AdvanceInit, AdvanceAddFinalizer, AdvanceQuery,
         AdvanceUpdate, AdvanceShare;
    var c, base := w.proc.value.c, w.proc.value.base;
    var w2 := Step(w, Call(PLAIN.(relabel := true)));
    assert w2.proc.value == Proc(c.(rv := w.clock, status := base), base, Provision) && w2.obj == Some(c.(rv := w.clock, status := base));
    var w3 := Step(w2, Call(PLAIN.(async := true)));
    assert w3.proc.value.pc == Save;
  }

  /** A poll of a running creation changes nothing but conditions. */
  lemma PollKeeps(w: World, ch: Choice, i: Id, applied: Spec, base: Status, at: nat)
    requires Underway(w, i, applied, base, at) && Cooperative(ch)
    ensures Underway(Pass(w, ch), i, applied, base, at)
    ensures var o, o1 := w.obj.value, Pass(w, ch).obj.value; o1 == o.(rv := o1.rv, status := o1.status)
  {
    PassWaits(w, ch);
    hide Pass;
  }

  lemma {:induction false} PollsKeep(w: World, waits: seq<Choice>, i: Id, applied: Spec, base: Status, at: nat)
    requires Underway(w, i, applied, base, at) && Answered(waits)
    ensures Underway(Polls(w, waits), i, applied, base, at)
    ensures var o, o1 := w.obj.value, Polls(w, waits).obj.value; o1 == o.(rv := o1.rv, status := o1.status)
    decreases |waits|
  {
    hide Pass, Cooperative;
    if waits != [] {
      PollKeeps(w, waits[0], i, applied, base, at);
      PollsKeep(Pass(w, waits[0]), waits[1..], i, applied, base, at);
    }
  }

  /** Once it is done, the success stands for the generation that was last observed. */
  lemma SeenIs(w: World, ch: Choice, i: Id, applied: Spec, base: Status, at: nat)
    requires Underway(w, i, applied, base, at) && Cooperative(ch)
    ensures var w1 := SeenThrough(w, i, ch);
      && AtRest(w1) && w1.insts == map[i := Inst(i, applied, false)] && i in w1.ops && w1.ops[i] == Op(Create, i, Good, applied)
      && var o, o1 := w.obj.value, w1.obj.value;
      && o1 == o.(rv := o1.rv, status := Polled(o))
  {
    var w1 := Step(w, Operate(i, true));
    assert w1.insts == w.insts;
    hide Pass;
    PassSucceeds(w1, ch);
  }

  lemma DoneEdited(w: World, i: Id, applied: Spec, base: Status, at: nat, o: Instance, o1: Instance)
    requires Underway(w, i, applied, base, at) && o == w.obj.value
    requires o1.status == Polled(o)
    ensures var s := o1.status;
      && s.id == Some(i) && s.opUrl.None? && s.ready && s.readyCond.Some? && GoodStatus(s) && !s.succeeded.value.updating
      && s.succeeded.value.gen == at && s.hash == base.hash && s.sharing == base.sharing && s.force == base.force
  {
  }

  lemma DuringReports(
    w: World, before: seq<Choice>, spec: Spec, wanted: Option<bool>, subscribed: bool, after: seq<Choice>, ch: Choice)
    requires Creating(w) && Answered(before) && Answered(after) && Cooperative(ch)
    ensures var c, base := w.proc.value.c, w.proc.value.base;
      ReportsTruly(EditedDuring(w, before, spec, wanted, subscribed, after, ch)) <==>
        !(base.hash == Of(spec) && c.spec != spec && !base.force && !subscribed && Aligns(base.sharing, wanted))
  {
    var c, base, i := w.proc.value.c, w.proc.value.base, w.nextId;
    hide Started, Polls, SeenThrough, Polled, Advance, Pass, ReportsTruly, Aligns, Creating, Cooperative;
    StartedIs(w);
    PollsKeep(Started(w), before, i, c.spec, base, c.gen);
    var w2 := Step(Polls(Started(w), before), UserEdit(spec, wanted, subscribed));
    PollsKeep(w2, after, i, c.spec, base, c.gen);
    var w3 := Polls(w2, after);
    SeenIs(w3, ch, i, c.spec, base, c.gen);
    var w4 := SeenThrough(w3, i, ch);
    DoneEdited(w3, i, c.spec, base, c.gen, w3.obj.value, w4.obj.value);
    EditReports(w4, i, c.spec, ch);
  }

  lemma AfterReports(w: World, waits: seq<Choice>, spec: Spec, wanted: Option<bool>, subscribed: bool, ch: Choice)
    requires Creating(w) && Answered(waits) && Cooperative(ch)
    ensures var c, base := w.proc.value.c, w.proc.value.base;
      ReportsTruly(EditedAfter(w, waits, spec, wanted, subscribed, ch)) <==>
        !(base.hash == Of(spec) && c.spec != spec && !base.force && !subscribed && Aligns(base.sharing, wanted))
  {
    var c, base, i := w.proc.value.c, w.proc.value.base, w.nextId;
    hide Started, Polls, SeenThrough, Polled, Advance, Pass, ReportsTruly, Aligns, Creating, Cooperative;
    StartedIs(w);
    PollsKeep(Started(w), waits, i, c.spec, base, c.gen);
    var w3 := Polls(Started(w), waits);
    SeenIs(w3, ch, i, c.spec, base, c.gen);
    var w4 := SeenThrough(w3, i, ch);
    DoneEdited(w3, i, c.spec, base, c.gen, w3.obj.value, w4.obj.value);
    EditReports(Step(w4, UserEdit(spec, wanted, subscribed)), i, c.spec, ch);
  }

  /** Whatever the edit after a creation done at once, and whatever SM answers, the next report is true. */
  ghost predicate NoEditMisreports(w: World) {
    forall spec, wanted, subscribed, ch :: Cooperative(ch) ==> ReportsTruly(EditedThen(w, spec, wanted, subscribed, ch))
  }

  /** The same after a creation that ran as an operation, polled any number of times. */
  ghost predicate NoLaterEditMisreports(w: World) {
    forall waits, spec, wanted, subscribed, ch :: Answered(waits) && Cooperative(ch) ==>
      ReportsTruly(EditedAfter(w, waits, spec, wanted, subscribed, ch))
  }

  /** The same for an edit during it, between any polls. */
  ghost predicate NoEarlyEditMisreports(w: World) {
    forall before, spec, wanted, subscribed, after, ch :: Answered(before) && Answered(after) && Cooperative(ch) ==>
      ReportsTruly(EditedDuring(w, before, spec, wanted, subscribed, after, ch))
  }

  /**
   A change of labels during a creation brings the stored hash back.  No edit then makes the next pass report a
   success that is not one exactly when that hash, if it decides on anything, is that of the specification
   created.  It makes no difference whether the creation is done at once or runs as an operation.
   */
  lemma RelabellingExact(w: World)
    requires Reachable(w) && Fresh(w, Build) && w.proc.value.c.status.id.None?
    ensures var base := w.proc.value.base;
      && (NoEditMisreports(w) <==> HashOf(base, w.proc.value.c.spec))
      && (NoLaterEditMisreports(w) <==> HashOf(base, w.proc.value.c.spec))
      && (NoEarlyEditMisreports(w) <==> HashOf(base, w.proc.value.c.spec))
  {
    ReachableInv(w);
    InvAt(w);
    hide Reachable, Inv, NoEditMisreports, NoLaterEditMisreports, NoEarlyEditMisreports;
    assert Creating(w) by { hide SmOk, ObjOk, Steady; }
    hide At, SmOk, ObjOk, Creating;
    if HashOf(w.proc.value.base, w.proc.value.c.spec) {
      HashTells(w);
    } else {
      HashMisleads(w);
    }
  }

  lemma HashTells(w: World)
    requires Creating(w) && HashOf(w.proc.value.base, w.proc.value.c.spec)
    ensures NoEditMisreports(w) && NoLaterEditMisreports(w) && NoEarlyEditMisreports(w)
  {
    hide Creating, ReportsTruly, EditedThen, EditedAfter, EditedDuring, Cooperative, Answered;
    forall spec, wanted, subscribed, ch | Cooperative(ch)
      ensures ReportsTruly(EditedThen(w, spec, wanted, subscribed, ch))
    {
      EditedReports(w, spec, wanted, subscribed, ch);
    }
    forall waits, spec, wanted, subscribed, ch | Answered(waits) && Cooperative(ch)
      ensures ReportsTruly(EditedAfter(w, waits, spec, wanted, subscribed, ch))
    {
      AfterReports(w, waits, spec, wanted, subscribed, ch);
    }
    forall before, spec, wanted, subscribed, after, ch | Answered(before) && Answered(after) && Cooperative(ch)
      ensures ReportsTruly(EditedDuring(w, before, spec, wanted, subscribed, after, ch))
    {
      DuringReports(w, before, spec, wanted, subscribed, after, ch);
    }
  }

  /** The edit back to what the stored hash stands for, with a change of sharing, is the one that is missed. */
  lemma HashMisleads(w: World)
    requires Creating(w) && !HashOf(w.proc.value.base, w.proc.value.c.spec)
    ensures !NoEditMisreports(w) && !NoLaterEditMisreports(w) && !NoEarlyEditMisreports(w)
  {
    var base := w.proc.value.base;
    hide Creating, ReportsTruly, EditedThen, EditedAfter, EditedDuring, Cooperative;
    assert Cooperative(PLAIN) by { PlainCooperative(); }
    assert Answered([]);
    var wanted := Some(base.sharing != On);
    EditedReports(w, base.hash.spec, wanted, false, PLAIN);
    AfterReports(w, [], base.hash.spec, wanted, false, PLAIN);
    DuringReports(w, [], base.hash.spec, wanted, false, [], PLAIN);
  }

  lemma PlainCooperative()
    ensures Cooperative(PLAIN)
  {
  }
}
