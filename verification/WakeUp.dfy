/**
 How a change of a parameter secret reaches SM: the secret controller flags the instances that refer to
 the secret, and a flagged instance updates SM with the data it then reads.  The instance is the one of
 InstanceReconciler; any of its reconciles can race with the flag, whatever prompted it.
 */
module WakeUp {
  import opened Options
  import opened Remote
  import opened InstanceWorld
  import opened InstanceReconciler
  import opened InstanceInvariant
  import opened InstanceSteps
  import opened InstanceSafety

  /**
   The instance beside its secret: the version of the secret's data, the data the reconcile under way has
   read for its parameters, the data of the last request SM accepted, whether an event waits for the
   secret controller, and the version of the instance the controller has listed.  `promised` and `owner`
   are history: the data and the resource of the last flag write that found it not flagged.
   */
  datatype Cluster = Cluster(
    w: World, data: nat, read: Option<nat>, sent: nat, pending: bool, listed: Option<nat>, promised: nat, owner: Option<nat>)

  datatype Event =
    | ChangeData
    | List
    | Flag(call: Outcome)
    | ReadData
    | Acts(a: Action)
    | Restart

  /** The reconcile stands at the call that follows the building of the parameters. */
  predicate Building(w: World) {
    w.proc.Some? && w.proc.value.pc == Build
  }

  /** The call sends parameters to SM. */
  predicate Sends(w: World) {
    w.proc.Some? && (w.proc.value.pc == UpdateCall || w.proc.value.pc == Provision)
  }

  predicate Flagged(w: World) {
    w.obj.Some? && w.obj.value.status.force
  }

  /** The status write of the secret controller; one that changes nothing leaves the version. */
  ghost function Write(k: Cluster): Cluster
    requires k.w.obj.Some?
  {
    if Flagged(k.w) then k else k.(w := Step(k.w, Wake), promised := k.data, owner := Some(k.w.obj.value.uid))
  }

  /** An event that is not possible changes nothing. */
  ghost function Next(k: Cluster, e: Event): Cluster {
    match e
    case ChangeData => k.(data := k.data + 1, pending := true)
    case List =>
      if k.pending then k.(pending := false, listed := if k.w.obj.Some? then Some(k.w.obj.value.rv) else None) else k
    case Flag(call) =>
      if k.listed.None? then k
      // an error puts the event back
      else if call == Rejected || k.w.obj.None? || k.listed.value != k.w.obj.value.rv then k.(listed := None, pending := true)
      else Write(k).(listed := None, pending := k.pending || call == Lost)
    case ReadData => if Building(k.w) then k.(read := Some(k.data)) else k
    case Acts(a) =>
      if a.Wake? || a.Crash? || (a.Call? && Building(k.w) && k.read.None? && !a.ch.flag) then k
      else
        var w1 := Step(k.w, a);
        k.(w := w1,
           read := if Building(w1) && !Building(k.w) then None else k.read,
           sent := if a.Call? && Sends(k.w) && w1.nextId > k.w.nextId then k.read.GetOr(0) else k.sent)
    case Restart => k.(w := Stop(k.w), listed := None, pending := true) // every watched secret is listed again
  }

  ghost function NextAll(k: Cluster, events: seq<Event>): Cluster
    decreases |events|
  {
    if events == [] then k else NextAll(Next(k, events[0]), events[1..])
  }

  predicate Starting(k: Cluster) {
    Initial(k.w) && k.read.None? && k.listed.None? && k.owner.None? && k.promised <= k.data
  }

  /** The resource of the last effective flag write is still there. */
  predicate Owned(k: Cluster) {
    k.w.obj.Some? && k.owner == Some(k.w.obj.value.uid)
  }

  /** What the parameters of the reconcile were built from is no older than promised, unless its next status write must fail. */
  predicate ReadOk(k: Cluster, p: Proc) {
    && ((p.pc == UpdateCall || p.pc == Provision) ==> k.read.Some?)
    && ((p.pc == UpdateCall || p.pc == Provision || p.pc == Build) && k.read.Some? && Owned(k) ==>
          !Flagged(k.w) || Unchanged(k.w, p.c) ==> k.promised <= k.read.value)
  }

  /** A status write that clears the flag keeps the promise. */
  predicate SaveKeeps(k: Cluster, p: Proc) {
    p.pc == Save && Owned(k) && Unchanged(k.w, p.c) ==> p.c.status.force == p.base.force || k.promised <= k.sent
  }

  ghost predicate Kept(k: Cluster) {
    && Inv(k.w) && k.promised <= k.data && (k.owner.Some? ==> k.owner.value < k.w.clock)
    && (Owned(k) && !Flagged(k.w) ==> k.promised <= k.sent)
    && (k.w.proc.Some? ==> ReadOk(k, k.w.proc.value) && SaveKeeps(k, k.w.proc.value))
  }

  // ----- what one call of the reconcile does to the flag

  /** A call writes against the version it knows, and only the last write of a reconcile can touch the flag. */
  predicate FlagWritten(w: World, w1: World, p: Proc) {
    w1.clock >= w.clock &&
    (w1.obj == w.obj ||
     (Unchanged(w, p.c) && (w1.obj.Some? ==>
        w1.obj.value.uid == w.obj.value.uid &&
        w1.obj.value.status.force == if p.pc == Save then p.c.status.force else w.obj.value.status.force)))
  }

  /** The copy keeps the flag of its base until SM has accepted an update, and its version moves only with the object. */
  predicate FlagCopied(w: World, w1: World, p: Proc, built: bool) {
    w1.proc.Some? ==>
      var p1 := w1.proc.value;
      && (Unchanged(w1, p1.c) ==> Unchanged(w, p.c))
      && (p1.pc == Save ==> p1.c.status.force == p1.base.force || (p.pc == UpdateCall && w1.nextId > w.nextId))
      && (p1.pc == UpdateCall || p1.pc == Provision ==> p.pc == Build && built)
  }

  /** What the flag needs to know of a reconcile. */
  predicate Copied(w: World, p: Proc) {
    && p.c.rv < w.clock
    && (p.pc != Save ==> p.c.status.force == p.base.force)
    && (Unchanged(w, p.c) ==> w.obj == Some(p.c.(status := p.base)))
  }

  lemma CopiedOf(w: World, p: Proc)
    requires At(w, p)
    ensures Copied(w, p)
  {
    hide SmOk, ObjOk, StatusShape;
  }

  predicate FlagOk(w: World, w1: World, p: Proc, built: bool) {
    FlagWritten(w, w1, p) && FlagCopied(w, w1, p, built)
  }

  lemma StopFlag(w: World, v: World, p: Proc, built: bool)
    requires v.obj == w.obj && v.clock == w.clock
    ensures FlagOk(w, Stop(v), p, built)
  {
  }

  lemma GoFlag(w: World, v: World, p: Proc, c: Instance, base: Status, pc: Pc, built: bool)
    requires v.obj == w.obj && v.clock == w.clock && c.rv == p.c.rv && pc != Save && pc != UpdateCall && pc != Provision
    ensures FlagOk(w, Go(v, c, base, pc), p, built)
  {
  }

  lemma FinishFlag(w: World, v: World, p: Proc, c: Instance, base: Status, status: Status, built: bool)
    requires v.obj == w.obj && v.clock == w.clock && c.rv == p.c.rv && status.force == base.force
    ensures FlagOk(w, Finish(v, c, base, status), p, built)
  {
  }

  lemma RecoveredForce(w: World, c: Instance, i: Id)
    requires i in w.insts
    ensures Recovered(w, c, i).force == c.status.force
  {
  }

  /** With the conditions in place or not, the reconcile goes on, fills in a hash, or stops. */
  lemma PrepareFlag(w: World, p: Proc, built: bool)
    requires p.c.status.force == p.base.force
    ensures FlagOk(w, Prepare(w, p.c, p.base), p, built)
  {
    hide UpdateRequired, ShareRequired, Final, FlagOk, Go, Stop, Finish;
    var c := p.c;
    var filled := c.(status := c.status.(hash := Of(c.spec)));
    StopFlag(w, w, p, built);
    FinishFlag(w, w, p, c, p.base, filled.status, built);
    GoFlag(w, w, p, c, p.base, InitConditions, built);
    GoesOnFlag(w, p, c, built);
    GoesOnFlag(w, p, filled, built);
  }

  lemma GoesOnFlag(w: World, p: Proc, c: Instance, built: bool)
    requires c.rv == p.c.rv
    ensures FlagOk(w, Go(w, c, p.base, AddFinalizer), p, built) && FlagOk(w, Work(w, c, p.base), p, built)
  {
    hide UpdateRequired, ShareRequired, FlagOk, Go, Stop;
    StopFlag(w, w, p, built);
    GoFlag(w, w, p, c, p.base, AddFinalizer, built);
    GoFlag(w, w, p, c, p.base, Query, built);
    GoFlag(w, w, p, c, p.base, Build, built);
    GoFlag(w, w, p, c, p.base, ShareCall, built);
  }

  lemma ConnectFlag(w: World, p: Proc, ch: Choice)
    requires Copied(w, p) && p.pc == Connect
    ensures FlagOk(w, AdvanceConnect(w, p, ch), p, !ch.flag)
  {
    hide Prepare, FlagOk, Go, Stop, Finish;
    var c := p.c;
    PrepareFlag(w, p, !ch.flag);
    StopFlag(w, w, p, !ch.flag);
    FinishFlag(w, w, p, c, p.base, c.status.Failure(c.gen, c.gen), !ch.flag);
    FinishFlag(w, w, p, c, p.base, c.status.(hash := Of(c.spec)), !ch.flag);
    GoFlag(w, w, p, c, p.base, PollStatus, !ch.flag);
    GoFlag(w, w, p, c, p.base, CheckExists, !ch.flag);
    GoFlag(w, w, p, c, p.base, DeleteQuery, !ch.flag);
    GoFlag(w, w, p, c, p.base, DeleteCall, !ch.flag);
  }

  lemma PollStatusFlag(w: World, p: Proc, ch: Choice)
    requires Copied(w, p) && p.pc == PollStatus
    ensures FlagOk(w, AdvancePollStatus(w, p, ch), p, !ch.flag)
  {
    hide SmStatus, FlagOk, Finish, Go, Stop;
    var c := p.c;
    StopFlag(w, w, p, !ch.flag);
    GoFlag(w, w, p, c, p.base, PollFetch, !ch.flag);
    GoFlag(w, w, p, c, p.base, PollRemoveFinalizer, !ch.flag);
    if c.status.opUrl.Some? {
      var kind := c.status.opUrl.value.kind;
      var at := c.status.LastObserved();
      GoFlag(w, w, p, c.(status := c.status.Failure(c.gen, at)), p.base, CleanupCall, !ch.flag);
      FinishFlag(w, w, p, c, p.base, c.status.InProgress(kind, c.gen, c.gen), !ch.flag);
      FinishFlag(w, w, p, c, p.base, c.status.Failure(c.gen, c.gen), !ch.flag);
      FinishFlag(w, w, p, c, p.base, c.status.InProgress(kind, c.gen, at), !ch.flag);
      FinishFlag(w, w, p, c, p.base, c.status.Failure(c.gen, at).NoOperation(), !ch.flag);
      FinishFlag(w, w, p, c, p.base, c.status.Success(at).NoOperation(), !ch.flag);
    }
  }

  lemma PollFetchFlag(w: World, p: Proc, ch: Choice)
    requires Copied(w, p) && p.pc == PollFetch
    ensures FlagOk(w, AdvancePollFetch(w, p, ch), p, !ch.flag)
  {
  }

  lemma PollRemoveFlag(w: World, p: Proc, ch: Choice)
    requires Copied(w, p) && p.pc == PollRemoveFinalizer
    ensures FlagOk(w, AdvancePollRemoveFinalizer(w, p, ch), p, !ch.flag)
  {
  }

  lemma CleanupFlag(w: World, p: Proc, ch: Choice)
    requires Copied(w, p) && p.pc == CleanupCall
    ensures FlagOk(w, AdvanceCleanup(w, p, ch), p, !ch.flag)
  {
    hide FlagOk, Finish, Go, Stop, SmDeprovision;
    var c := p.c;
    StopFlag(w, w, p, !ch.flag);
    if c.status.id.Some? {
      var i := c.status.id.value;
      var w1 := if ch.call == Rejected then w else SmDeprovision(w, i, ch.async);
      assert w1.obj == w.obj && w1.clock == w.clock by { DeprovisionFrame(w, i, ch.async); }
      StopFlag(w, w1, p, !ch.flag);
      GoFlag(w, w1, p, c.(status := c.status.NoOperation().(id := None)), p.base, DirectSave, !ch.flag);
      FinishFlag(w, w1, p, c, p.base, c.status.InProgress(Delete, c.gen, c.gen), !ch.flag);
      FinishFlag(w, w1, p, c, p.base, c.status.Operating(OpUrl(Delete, i, w.nextId)), !ch.flag);
    }
  }

  lemma DeleteQueryFlag(w: World, p: Proc, ch: Choice, found: Option<Id>)
    requires Copied(w, p) && p.pc == DeleteQuery
    ensures FlagOk(w, AdvanceDeleteQuery(w, p, ch, found), p, !ch.flag)
  {
  }

  lemma DeleteCallFlag(w: World, p: Proc, ch: Choice)
    requires Copied(w, p) && p.pc == DeleteCall
    ensures FlagOk(w, AdvanceDeleteCall(w, p, ch), p, !ch.flag)
  {
    hide FlagOk, Finish, Go, Stop, SmDeprovision;
    var c := p.c;
    if c.status.id.None? {
      StopFlag(w, w, p, !ch.flag);
    } else {
      var i := c.status.id.value;
      var w1 := if ch.call == Rejected then w else SmDeprovision(w, i, ch.async);
      assert w1.obj == w.obj && w1.clock == w.clock by { DeprovisionFrame(w, i, ch.async); }
      if ch.call != Ok {
        FinishFlag(w, w1, p, c, p.base,
                   if ch.throttled then c.status.InProgress(Delete, c.gen, c.gen) else c.status.Failure(c.gen, c.gen), !ch.flag);
      } else if i in w.insts && ch.async {
        FinishFlag(w, w1, p, c, p.base, c.status.Operating(OpUrl(Delete, i, w.nextId)).InProgress(Delete, c.gen, c.gen), !ch.flag);
      } else if ch.flag {
        StopFlag(w, w1, p, !ch.flag);
      } else {
        GoFlag(w, w1, p, c.(status := c.status.(id := None)), p.base, DeleteSave, !ch.flag);
      }
    }
  }

  lemma DeleteRemoveFlag(w: World, p: Proc, ch: Choice)
    requires Copied(w, p) && p.pc == DeleteRemoveFinalizer
    ensures FlagOk(w, AdvanceDeleteRemoveFinalizer(w, p, ch), p, !ch.flag)
  {
  }

  lemma WriteFlag(w: World, p: Proc, ch: Choice)
    requires Copied(w, p)
    ensures p.pc == Save ==> FlagOk(w, WriteStatus(w, p, ch, UpdateStatus(p.c.status), None), p, !ch.flag)
    ensures p.pc == DirectSave ==> FlagOk(w, WriteStatus(w, p, ch, p.c.status, None), p, !ch.flag)
    ensures p.pc == DeleteSave ==> FlagOk(w, WriteStatus(w, p, ch, p.c.status, Some(DeleteRemoveFinalizer)), p, !ch.flag)
  {
  }

  lemma CheckExistsFlag(w: World, p: Proc, ch: Choice)
    requires Copied(w, p) && p.pc == CheckExists
    ensures FlagOk(w, AdvanceCheckExists(w, p, ch), p, !ch.flag)
  {
    hide Prepare, FlagOk, Stop, Finish;
    PrepareFlag(w, p, !ch.flag);
    StopFlag(w, w, p, !ch.flag);
    FinishFlag(w, w, p, p.c, p.base, p.c.status.Missing(p.c.gen), !ch.flag);
  }

  lemma InitFlag(w: World, p: Proc, ch: Choice)
    requires Copied(w, p) && p.pc == InitConditions
    ensures FlagOk(w, AdvanceInit(w, p, ch), p, !ch.flag)
  {
    hide UpdateRequired, ShareRequired, Final;
  }

  lemma AddFinalizerFlag(w: World, p: Proc, ch: Choice)
    requires Copied(w, p) && p.pc == AddFinalizer
    ensures FlagOk(w, AdvanceAddFinalizer(w, p, ch), p, !ch.flag)
  {
    hide UpdateRequired, ShareRequired, Final;
  }

  lemma QueryFlag(w: World, p: Proc, ch: Choice, found: Option<Id>)
    requires Copied(w, p) && p.pc == Query
    ensures FlagOk(w, AdvanceQuery(w, p, ch, found), p, !ch.flag)
  {
    hide FlagOk, Finish, Go, Stop, Recovered;
    var c := p.c;
    StopFlag(w, w, p, !ch.flag);
    GoFlag(w, w, p, c.(status := c.status.(hash := Of(c.spec))), p.base, Build, !ch.flag);
    FinishFlag(w, w, p, c, p.base, c.status.InProgress(Create, c.gen, c.gen), !ch.flag);
    FinishFlag(w, w, p, c, p.base, c.status.Failure(c.gen, c.gen), !ch.flag);
    if found.Some? && found.value in w.insts {
      RecoveredForce(w, c, found.value);
      FinishFlag(w, w, p, c, p.base, Recovered(w, c, found.value), !ch.flag);
    }
  }

  lemma BuildFlag(w: World, p: Proc, ch: Choice)
    requires Copied(w, p) && p.pc == Build
    ensures FlagOk(w, AdvanceBuild(w, p, ch), p, !ch.flag)
  {
  }

  lemma ProvisionFlag(w: World, p: Proc, ch: Choice)
    requires Copied(w, p) && p.pc == Provision
    ensures FlagOk(w, AdvanceProvision(w, p, ch), p, !ch.flag)
  {
    hide FlagOk, Finish, SmProvision;
    var c := p.c;
    var w1 := SmProvision(w, c.spec, ch.async);
    assert w1.obj == w.obj && w1.clock == w.clock by { ProvisionFrame(w, c.spec, ch.async); }
    var s := c.status.(id := Some(w.nextId));
    FinishFlag(w, w, p, c, p.base, c.status.InProgress(Create, c.gen, c.gen), !ch.flag);
    FinishFlag(w, w, p, c, p.base, c.status.Failure(c.gen, c.gen), !ch.flag);
    FinishFlag(w, w1, p, c, p.base, c.status.Failure(c.gen, c.gen), !ch.flag);
    FinishFlag(w, w1, p, c, p.base, s.Operating(OpUrl(Create, w.nextId, w.nextId)).InProgress(Create, c.gen, c.gen), !ch.flag);
    FinishFlag(w, w1, p, c, p.base, s.Success(c.gen), !ch.flag);
  }

  lemma FinishSent(w: World, v: World, p: Proc, c: Instance, base: Status, status: Status, built: bool)
    requires v.obj == w.obj && v.clock == w.clock && v.nextId > w.nextId && c.rv == p.c.rv && p.pc == UpdateCall
    ensures FlagOk(w, Finish(v, c, base, status), p, built)
  {
  }

  lemma UpdateFlag(w: World, p: Proc, ch: Choice)
    requires Copied(w, p) && p.pc == UpdateCall
    ensures FlagOk(w, AdvanceUpdate(w, p, ch), p, !ch.flag)
  {
    hide Busy, FlagOk, Finish, Stop, SmUpdate;
    StopFlag(w, w, p, !ch.flag);
    if p.c.status.id.Some? {
      var i := p.c.status.id.value;
      var c := p.c.(status := p.c.status.(hash := Of(p.c.spec)));
      FinishFlag(w, w, p, c, p.base, c.status.InProgress(Update, c.gen, c.gen), !ch.flag);
      FinishFlag(w, w, p, c, p.base, c.status.Failure(c.gen, c.gen), !ch.flag);
      if i in w.insts {
        UpdateFrame(w, i, c.spec, ch.async);
        var w1 := SmUpdate(w, i, c.spec, ch.async);
        FinishSent(w, w1, p, c, p.base, c.status.Failure(c.gen, c.gen), !ch.flag);
        FinishSent(w, w1, p, c, p.base,
                   c.status.Operating(OpUrl(Update, i, w.nextId)).InProgress(Update, c.gen, c.gen).(force := false), !ch.flag);
        FinishSent(w, w1, p, c, p.base, c.status.Success(c.gen).(force := false), !ch.flag);
      }
    }
  }

  lemma ShareFlag(w: World, p: Proc, ch: Choice)
    requires Copied(w, p) && p.pc == ShareCall
    ensures FlagOk(w, AdvanceShare(w, p, ch), p, !ch.flag)
  {
  }

  lemma CallFlag(w: World, p: Proc, ch: Choice)
    requires Copied(w, p) && w.proc == Some(p)
    ensures FlagOk(w, Advance(w, ch), p, !ch.flag)
  {
    hide FlagOk, Copied, AdvanceConnect, AdvancePollStatus, AdvancePollFetch, AdvancePollRemoveFinalizer, AdvanceCleanup, WriteStatus,
         AdvanceDeleteQuery, AdvanceDeleteCall, AdvanceDeleteRemoveFinalizer, AdvanceCheckExists, AdvanceInit, AdvanceAddFinalizer,
         AdvanceQuery, AdvanceBuild, AdvanceProvision, AdvanceUpdate, AdvanceShare;
    match p.pc
    case Connect => ConnectFlag(w, p, ch);
    case PollStatus => PollStatusFlag(w, p, ch);
    case PollFetch => PollFetchFlag(w, p, ch);
    case PollRemoveFinalizer => PollRemoveFlag(w, p, ch);
    case CleanupCall => CleanupFlag(w, p, ch);
    case DeleteQuery => DeleteQueryFlag(w, p, ch, Listed(w));
    case DeleteCall => DeleteCallFlag(w, p, ch);
    case DeleteRemoveFinalizer => DeleteRemoveFlag(w, p, ch);
    case CheckExists => CheckExistsFlag(w, p, ch);
    case InitConditions => InitFlag(w, p, ch);
    case AddFinalizer => AddFinalizerFlag(w, p, ch);
    case Query => QueryFlag(w, p, ch, Listed(w));
    case Build => BuildFlag(w, p, ch);
    case Provision => ProvisionFlag(w, p, ch);
    case UpdateCall => UpdateFlag(w, p, ch);
    case ShareCall => ShareFlag(w, p, ch);
    case _ => WriteFlag(w, p, ch);
  }

  // ----- every event keeps the promise

  lemma CallKeeps(k: Cluster, ch: Choice)
    requires Kept(k) && k.w.proc.Some? && !(Building(k.w) && k.read.None? && !ch.flag)
    ensures Kept(Next(k, Acts(Call(ch))))
  {
    var p := k.w.proc.value;
    InvAt(k.w);
    CopiedOf(k.w, p);
    CallFlag(k.w, p, ch);
    StepKeeps(k.w, Call(ch));
    hide Inv, At, Advance, SmOk, ObjOk;
  }

  lemma StartKeeps(k: Cluster)
    requires Kept(k)
    ensures Kept(Next(k, Acts(Start)))
  {
    StepKeeps(k.w, Start);
    hide Inv, Advance;
  }

  /** Writes of users and of an earlier release leave the flag, and make the copy of the reconcile out of date. */
  predicate ByUser(a: Action) {
    a.UserCreate? || a.UserEdit? || a.UserDelete? || a.OldRelease?
  }

  lemma UserFlag(w: World, a: Action)
    requires ByUser(a)
    ensures var w1 := Step(w, a);
      && w1.clock >= w.clock && w1.nextId == w.nextId && w1.proc == w.proc
      && (w1.obj.Some? ==> if w.obj.None? then w1.obj.value.uid == w.clock
                           else w1.obj.value.uid == w.obj.value.uid && w1.obj.value.status.force == w.obj.value.status.force)
  {
    hide Advance;
  }

  lemma UserKeeps(k: Cluster, a: Action)
    requires Kept(k) && ByUser(a)
    ensures Kept(Next(k, Acts(a)))
  {
    StepKeeps(k.w, a);
    InvAt(k.w);
    UserFlag(k.w, a);
    if k.w.proc.Some? {
      var p := k.w.proc.value;
      AtCore(k.w, p);
      UserCore(k.w, a, p.c, p.base);
    }
    hide Inv, At, SmOk, ObjOk, CoreOk, Step;
  }

  lemma OperateKeeps(k: Cluster, i: Id, good: bool)
    requires Kept(k)
    ensures Kept(Next(k, Acts(Operate(i, good))))
  {
    StepKeeps(k.w, Operate(i, good));
    var w1 := SmFinish(k.w, i, good);
    assert w1.obj == k.w.obj && w1.proc == k.w.proc && w1.clock == k.w.clock;
    hide Inv, SmFinish, Advance;
  }

  /** The flag write leaves the copy of the reconcile out of date. */
  lemma WakeWrites(w: World)
    requires Inv(w) && w.obj.Some?
    ensures var w1 := Step(w, Wake);
      && Inv(w1) && w1.obj.Some? && w1.obj.value.status.force && w1.obj.value.uid == w.obj.value.uid < w1.clock
      && w1.proc == w.proc && (w.proc.Some? ==> !Unchanged(w1, w.proc.value.c)) && w1.clock > w.clock
  {
    StepKeeps(w, Wake);
    InvAt(w);
    if w.proc.Some? {
      AtCore(w, w.proc.value);
    }
    hide Inv, At, SmOk, CopyOk, Advance, StatusShape;
  }

  lemma FlagKeeps(k: Cluster, call: Outcome)
    requires Kept(k)
    ensures Kept(Next(k, Flag(call)))
  {
    if k.w.obj.Some? {
      WakeWrites(k.w);
    }
    hide Inv, Step;
  }

  lemma RestartKeeps(k: Cluster)
    requires Kept(k)
    ensures Kept(Next(k, Restart))
  {
    StepKeeps(k.w, Crash);
    hide Inv, Advance;
  }

  lemma NextKeeps(k: Cluster, e: Event)
    requires Kept(k)
    ensures Kept(Next(k, e))
  {
    hide Kept, Step, Write;
    match e
    case Flag(call) => FlagKeeps(k, call);
    case Restart => RestartKeeps(k);
    case Acts(a) => OnKeeps(k, a);
    case _ => DataKeeps(k, e);
  }

  lemma DataKeeps(k: Cluster, e: Event)
    requires Kept(k) && (e.ChangeData? || e.List? || e.ReadData?)
    ensures Kept(Next(k, e))
  {
    hide Inv;
  }

  lemma OnKeeps(k: Cluster, a: Action)
    requires Kept(k)
    ensures Kept(Next(k, Acts(a)))
  {
    hide Kept;
    match a
    case Start => StartKeeps(k);
    case Call(ch) =>
      if k.w.proc.None? {
        IdleCall(k, ch);
      } else if !(Building(k.w) && k.read.None? && !ch.flag) {
        CallKeeps(k, ch);
      }
    case Operate(i, good) => OperateKeeps(k, i, good);
    case Crash =>
    case Wake =>
    case _ => UserKeeps(k, a);
  }

  lemma IdleCall(k: Cluster, ch: Choice)
    requires k.w.proc.None?
    ensures Next(k, Acts(Call(ch))) == k
  {
  }

  // ----- whole runs

  /** The object is the same resource, gone, or a new one; what is promised it only grows. */
  predicate Same(k: Cluster, k1: Cluster) {
    && k1.w.clock >= k.w.clock
    && (k1.w.obj.Some? ==> if k.w.obj.None? then k1.w.obj.value.uid >= k.w.clock else k1.w.obj.value.uid == k.w.obj.value.uid)
    && ((k1.owner == k.owner && k1.promised == k.promised)
        || (k.w.obj.Some? && k1.owner == Some(k.w.obj.value.uid) && k1.promised == k.data))
  }

  lemma NextSame(k: Cluster, e: Event)
    requires Kept(k)
    ensures Same(k, Next(k, e))
  {
    InvAt(k.w);
    if e.Acts? {
      if e.a.Call? && k.w.proc.Some? {
        CopiedOf(k.w, k.w.proc.value);
        CallFlag(k.w, k.w.proc.value, e.a.ch);
        hide Inv, At, Advance;
      } else if ByUser(e.a) {
        UserFlag(k.w, e.a);
        hide Inv, At, Step;
      } else {
        hide Inv, At, Advance;
      }
    } else {
      hide Inv, At, Advance;
    }
  }

  /** The resource `u` is gone for good. */
  predicate Gone(k: Cluster, u: nat) {
    u < k.w.clock && (k.w.obj.Some? ==> k.w.obj.value.uid != u)
  }

  lemma {:induction false} RunKept(k: Cluster, events: seq<Event>, u: nat, promised: nat)
    requires Kept(k) && (Gone(k, u) || (k.owner == Some(u) && Owned(k) && k.promised >= promised))
    ensures var k1 := NextAll(k, events);
      Kept(k1) && (Gone(k1, u) || (k1.owner == Some(u) && Owned(k1) && k1.promised >= promised))
    decreases |events|
  {
    if events != [] {
      NextKeeps(k, events[0]);
      NextSame(k, events[0]);
      assert k.promised <= k.data && (k.owner.Some? ==> k.owner.value < k.w.clock);
      hide Kept, Next;
      RunKept(Next(k, events[0]), events[1..], u, promised);
    }
  }

  lemma {:induction false} KeptThroughout(k: Cluster, events: seq<Event>)
    requires Kept(k)
    ensures Kept(NextAll(k, events))
    decreases |events|
  {
    hide Kept, Next;
    if events != [] {
      NextKeeps(k, events[0]);
      KeptThroughout(Next(k, events[0]), events[1..]);
    }
  }

  ghost predicate Reached(k: Cluster) {
    exists k0, events :: Starting(k0) && k == NextAll(k0, events)
  }

  lemma ReachedKept(k: Cluster)
    requires Reached(k)
    ensures Kept(k)
  {
    hide NextAll, Kept;
    var k0, events :| Starting(k0) && k == NextAll(k0, events);
    assert Kept(k0) by { StartingKept(k0); }
    KeptThroughout(k0, events);
  }

  lemma StartingKept(k: Cluster)
    requires Starting(k)
    ensures Kept(k)
  {
  }

  /** No event waits, nothing is listed, no reconcile is under way, and the instance is not flagged. */
  predicate Quiescent(k: Cluster) {
    !k.pending && k.listed.None? && k.w.proc.None? && !Flagged(k.w)
  }

  /** The next status write of the secret controller is accepted and finds the instance not flagged. */
  predicate Effective(k: Cluster) {
    k.w.obj.Some? && k.listed == Some(k.w.obj.value.rv) && !Flagged(k.w)
  }

  /**
   No lost wake-up: once a flag write finds the instance not flagged, whatever its reconcile is doing, in
   every later quiescent state in which the resource still exists SM has accepted a request with data at
   least as new as what the secret held at that write.
   */
  lemma NoLostWakeUp(k: Cluster, call: Outcome, after: seq<Event>)
    requires Reached(k) && Effective(k) && call != Rejected
    ensures var k1 := NextAll(Next(k, Flag(call)), after);
      Quiescent(k1) && k1.w.obj.Some? && k1.w.obj.value.uid == k.w.obj.value.uid ==> k1.sent >= k.data
  {
    ReachedKept(k);
    NextKeeps(k, Flag(call));
    var k2 := Next(k, Flag(call));
    var u := k.w.obj.value.uid;
    assert k2.owner == Some(u) && Owned(k2) && k2.promised == k.data by { hide Kept, Reached; }
    hide Reached, Next, Inv;
    RunKept(k2, after, u, k.data);
  }

  // ----- the limit

  /** A reconcile whose update SM has accepted is about to clear the flag, with nothing written since it read the instance. */
  predicate Clearing(k: Cluster) {
    && k.w.proc.Some? && k.w.proc.value.pc == Save && Unchanged(k.w, k.w.proc.value.c) && !k.w.proc.value.c.status.force
    && k.read == Some(k.sent) && k.listed == Some(k.w.obj.value.rv)
  }

  /** The flag write and then the write that clears the flag. */
  ghost function Raced(k: Cluster): Cluster {
    Next(Next(k, Flag(Ok)), Acts(Call(PLAIN)))
  }

  /**
   A flag write that races with a reconcile about to clear the flag carries the present data to SM
   exactly when it finds the instance not flagged, or when the reconcile had read that data already.
   */
  lemma FlagExact(k: Cluster)
    requires Reached(k) && Clearing(k)
    ensures var k1 := Raced(k);
      Flagged(k1.w) || k1.sent >= k1.data <==> !Flagged(k.w) || k.read.value >= k.data
  {
    ReachedKept(k);
    InvAt(k.w);
    assert k.w.obj.value.rv < k.w.clock by { hide At, SmOk; }
    hide Reached, Kept, Inv, At, SmOk, ObjOk;
    if !Flagged(k.w) {
      var k2 := Next(k, Flag(Ok));
      assert !Unchanged(k2.w, k.w.proc.value.c) && Flagged(k2.w) && k2.w.proc == k.w.proc;
    }
  }

  lemma {:induction false} AllThen(k: Cluster, events: seq<Event>, e: Event)
    ensures NextAll(k, events + [e]) == Next(NextAll(k, events), e)
    decreases |events|
  {
    hide Next;
    if events == [] {
      assert [] + [e] == [e] && [e][1..] == [];
    } else {
      assert (events + [e])[1..] == events[1..] + [e];
      AllThen(Next(k, events[0]), events[1..], e);
    }
  }

  lemma ReachedNext(k: Cluster, e: Event)
    requires Reached(k)
    ensures Reached(Next(k, e))
  {
    hide Next, NextAll;
    var k0, events :| Starting(k0) && k == NextAll(k0, events);
    AllThen(k0, events, e);
  }

  /** A new resource up to its recovery query. */
  lemma NewResource() returns (k: Cluster)
    ensures Reached(k)
    ensures var s := FreshStatus.(succeeded := Some(Cond(false, 1, false)), readyCond := Some(Cond(false, 1, false)), observed := 1);
      var o := Instance(0, 2, 1, 0, None, false, true, false, s);
      k == Cluster(World(Some(o), map[], map[], Some(Proc(o, s, Query)), 3, 0), 0, None, 0, false, None, 0, None)
  {
    hide Reached, AdvancePollStatus, AdvancePollFetch, AdvancePollRemoveFinalizer, AdvanceCleanup, AdvanceDeleteQuery,
         AdvanceDeleteCall, AdvanceDeleteRemoveFinalizer, AdvanceCheckExists, AdvanceQuery, AdvanceBuild, AdvanceProvision,
         AdvanceUpdate, AdvanceShare;
    var k0 := Cluster(NOWHERE, 0, None, 0, false, None, 0, None);
    StartingReached(k0);
    var create := Acts(UserCreate(0, None, false));
    ReachedNext(k0, create);
    var k1 := Next(k0, create);
    ReachedNext(k1, Acts(Start));
    var k2 := Next(k1, Acts(Start));
    ReachedNext(k2, CALL);
    var k3 := Next(k2, CALL);
    assert k3.w.proc.value.pc == InitConditions;
    ReachedNext(k3, CALL);
    var k4 := Next(k3, CALL);
    assert k4.w.proc.value.pc == AddFinalizer;
    ReachedNext(k4, CALL);
    k := Next(k4, CALL);
  }

  const CALL := Acts(Call(PLAIN))

  /** The resource once it is created. */
  lemma NewInstance() returns (k: Cluster)
    ensures Reached(k)
    ensures var s := Status(Some(0), None, None, Some(Cond(true, 1, false)), Some(Cond(true, 1, false)), true, Absent, Of(0), false, 1);
      k == Cluster(World(Some(Instance(0, 3, 1, 0, None, false, true, false, s)), map[0 := Inst(0, 0, false)],
                         map[0 := Op(Create, 0, Good, 0)], None, 4, 1), 0, Some(0), 0, false, None, 0, None)
  {
    hide Reached, AdvanceConnect, AdvancePollStatus, AdvancePollFetch, AdvancePollRemoveFinalizer, AdvanceCleanup,
         AdvanceDeleteQuery, AdvanceDeleteCall, AdvanceDeleteRemoveFinalizer, AdvanceCheckExists, AdvanceInit,
         AdvanceAddFinalizer, AdvanceUpdate, AdvanceShare;
    var k0 := NewResource();
    ReachedNext(k0, CALL);
    var k1 := Next(k0, CALL);
    assert Building(k1.w);
    ReachedNext(k1, ReadData);
    var k2 := Next(k1, ReadData);
    ReachedNext(k2, CALL);
    var k3 := Next(k2, CALL);
    assert k3.w.proc.value.pc == Provision;
    ReachedNext(k3, CALL);
    var k4 := Next(k3, CALL);
    ReachedNext(k4, CALL);
    k := Next(k4, CALL);
  }

  /** The data has changed, and the instance is flagged. */
  lemma NewFlag() returns (k: Cluster)
    ensures Reached(k)
    ensures var s := Status(Some(0), None, None, Some(Cond(true, 1, false)), Some(Cond(true, 1, false)), true, Absent, Of(0), true, 1);
      k == Cluster(World(Some(Instance(0, 4, 1, 0, None, false, true, false, s)), map[0 := Inst(0, 0, false)],
                         map[0 := Op(Create, 0, Good, 0)], None, 5, 1), 1, Some(0), 0, false, None, 1, Some(0))
  {
    hide Reached;
    var k0 := NewInstance();
    ReachedNext(k0, ChangeData);
    var k1 := Next(k0, ChangeData);
    ReachedNext(k1, List);
    var k2 := Next(k1, List);
    ReachedNext(k2, Flag(Ok));
    k := Next(k2, Flag(Ok));
  }

  /** The flagged instance has built its update. */
  lemma NewUpdate() returns (k: Cluster)
    ensures Reached(k)
    ensures var s := Status(Some(0), None, None, Some(Cond(true, 1, false)), Some(Cond(true, 1, false)), true, Absent, Of(0), true, 1);
      var o := Instance(0, 4, 1, 0, None, false, true, false, s);
      k == Cluster(World(Some(o), map[0 := Inst(0, 0, false)], map[0 := Op(Create, 0, Good, 0)], Some(Proc(o, s, UpdateCall)), 5, 1),
                   1, Some(1), 0, false, None, 1, Some(0))
  {
    hide Reached, AdvancePollStatus, AdvancePollFetch, AdvancePollRemoveFinalizer, AdvanceCleanup, AdvanceDeleteQuery,
         AdvanceDeleteCall, AdvanceDeleteRemoveFinalizer, AdvanceInit, AdvanceAddFinalizer, AdvanceQuery, AdvanceProvision,
         AdvanceUpdate, AdvanceShare;
    var k0 := NewFlag();
    ReachedNext(k0, Acts(Start));
    var k1 := Next(k0, Acts(Start));
    ReachedNext(k1, CALL);
    var k2 := Next(k1, CALL);
    assert k2.w.proc.value.pc == CheckExists;
    ReachedNext(k2, CALL);
    var k3 := Next(k2, CALL);
    assert Building(k3.w);
    ReachedNext(k3, ReadData);
    var k4 := Next(k3, ReadData);
    ReachedNext(k4, CALL);
    k := Next(k4, CALL);
  }

  /** The race happens: the data changes after an update was built from it, and the change is never sent. */
  lemma LostWakeUp() returns (k: Cluster)
    ensures Reached(k) && Clearing(k) && Flagged(k.w) && k.read.value < k.data
    ensures Quiescent(Raced(k)) && Raced(k).sent < Raced(k).data
  {
    hide Reached, AdvanceConnect, AdvancePollStatus, AdvancePollFetch, AdvancePollRemoveFinalizer, AdvanceCleanup,
         AdvanceDeleteQuery, AdvanceDeleteCall, AdvanceDeleteRemoveFinalizer, AdvanceCheckExists, AdvanceInit,
         AdvanceAddFinalizer, AdvanceQuery, AdvanceBuild, AdvanceProvision, AdvanceShare;
    var k0 := NewUpdate();
    ReachedNext(k0, ChangeData);
    var k1 := Next(k0, ChangeData);
    ReachedNext(k1, List);
    var k2 := Next(k1, List);
    ReachedNext(k2, CALL);
    k := Next(k2, CALL);
  }

  lemma StartingReached(k: Cluster)
    requires Starting(k)
    ensures Reached(k)
  {
    assert NextAll(k, []) == k;
  }
}
