/**
 The ServiceBinding reconciler, one remote call at a time.

 `Advance` performs the call a reconcile stands at and runs its code up to the next call.  A reconcile
 may be cut off between any two calls, and every remote call may fail, with or without effect.  The
 service instance, the clock and the contents of errors are not part of a World: what the code reads
 from them is part of the Choice made for each call.
 */
module BindingReconciler {
  import opened Options
  import opened Remote
  import opened BindingWorld

  /** What a reconcile sees of the service instance its binding refers to. */
  datatype InstanceView = Missing | Terminating | NotReady | InService

  /**
   The answers of the outside world to one call.  `throttled` and `serverError` classify an error as
   429 or 500; `due` says that the time limit the code looks at has passed; `flag` decides the one
   remaining yes-or-no question of a call; `suffix` is the random suffix of a rotation.
   */
  datatype Choice = Choice(
    call: Outcome, throttled: bool, serverError: bool, instance: InstanceView, async: bool, due: bool,
    flag: bool, suffix: string)

  function Go(w: World, n: Name, c: Binding, base: Status, pc: Pc): World {
    w.(procs := w.procs[n := Proc(c, base, pc)])
  }

  function Stop(w: World, n: Name): World {
    w.(procs := w.procs - {n})
  }

  /** Leave the reconcile through a last status write. */
  function Finish(w: World, n: Name, c: Binding, base: Status, status: Status): World {
    Go(w, n, c.(status := status), base, Save)
  }

  /** UpdateStatus, then the next call if there is one.  A conflict or an error ends the reconcile. */
  function WriteStatus(w: World, n: Name, p: Proc, ch: Choice, next: Option<Pc>): (r: World)
    ensures r.sm == w.sm
  {
    if ch.call == Rejected || !Unchanged(w, n, p.c) then Stop(w, n)
    else
      var w1 := PutStatus(w, n, p.c.status);
      if ch.call == Lost || next.None? then Stop(w1, n)
      else Go(w1, n, p.c.(rv := w.clock), p.c.status, next.value)
  }

  function Begin(w: World, n: Name): World
    requires n in w.bindings && n !in w.procs
  {
    var c := w.bindings[n];
    Go(w, n, c, c.status, if c.status.HasConditions() then FetchInstance else InitConditions)
  }

  /** InitConditions: not ready, in progress. */
  function AdvanceInit(w: World, n: Name, p: Proc, ch: Choice): (r: World)
    ensures r.sm == w.sm
  {
    WriteStatus(w, n, p.(c := p.c.(status := p.c.status.(ready := false).Unsucceeded())), ch, Some(FetchInstance))
  }

  /** Poll a running operation, delete, or go on to create and maintain. */
  function Dispatch(c: Binding): Option<Pc> {
    if c.status.opUrl.Some? && (c.status.opType == Some(Delete) || !c.deleting) then Some(PollStatus)
    else if c.deleting then
      if !c.finalizer then None
      else if c.status.id.None? then Some(DeleteQuery)
      else Some(DeleteUnbind)
    else if c.status.id.Some? then Some(CheckExists)
    else Some(AddFinalizer)
  }

  function AdvanceFetchInstance(w: World, n: Name, p: Proc, ch: Choice): (r: World)
    ensures r.bindings == w.bindings && r.sm == w.sm
  {
    var c := p.c;
    if ch.call != Ok then Stop(w, n)
    else if ch.instance == Missing && !c.deleting then Finish(w, n, c, p.base, c.status.Unsucceeded())
    else if ch.instance == Missing && c.status.id.None? then Go(w, n, c, p.base, DeleteDropSecret)
    else if ch.flag then Finish(w, n, c, p.base, c.status.Unsucceeded())
    else
      match Dispatch(c)
      case None => Stop(w, n)
      case Some(pc) => Go(w, n, c, p.base, pc)
  }

  function AdvancePollStatus(w: World, n: Name, p: Proc, ch: Choice): (r: World)
    ensures r.bindings == w.bindings && r.sm == w.sm
  {
    var c := p.c;
    if c.status.opUrl.None? then Stop(w, n)
    else
      var url := c.status.opUrl.value;
      if ch.call != Ok then
        if url.kind == Delete && ch.serverError then Go(w, n, c, p.base, PollProbe)
        else Finish(w, n, c, p.base, c.status.Unsucceeded())
      else
        match SmStatus(w, url)
        case NoSuchOp => Finish(w, n, c, p.base, c.status.Unsucceeded())
        case InProgress =>
          if ch.flag then Finish(w, n, c, p.base, c.status.Unsucceeded()) else Stop(w, n)
        case FailedOp =>
          var failed := c.status.Unsucceeded();
          if url.kind == Create || !c.deleting then Go(w, n, c.(status := failed), p.base, CleanupUnbind)
          else Finish(w, n, c, p.base, failed.NoOperation())
        case Succeeded =>
          Go(w, n, c, p.base, if url.kind == Create then PollFetch else PollDropSecret)
  }

  /** After a 500 on a delete operation: is the binding still there? */
  function AdvancePollProbe(w: World, n: Name, p: Proc, ch: Choice): (r: World)
    ensures r.bindings == w.bindings && r.sm == w.sm
  {
    if ch.call != Ok || p.c.status.id.None? then Stop(w, n)
    else if p.c.status.id.value !in w.sm then Go(w, n, p.c, p.base, PollDropSecret)
    else Finish(w, n, p.c, p.base, p.c.status.Unsucceeded())
  }

  function AdvancePollFetch(w: World, n: Name, p: Proc, ch: Choice): (r: World)
    ensures r.bindings == w.bindings && r.sm == w.sm
  {
    if ch.call != Ok || p.c.status.id.None? || p.c.status.id.value !in w.sm then Stop(w, n)
    else Go(w, n, p.c, p.base, PollStore)
  }

  /** Write the secret, then report success with `done`, or the failure of the write. */
  function AdvanceStore(w: World, n: Name, p: Proc, ch: Choice, b: Id, done: Status): (r: World)
    ensures r.bindings == w.bindings && r.sm == w.sm
  {
    var w1 := if ch.call == Rejected then w else StoreSecret(w, n, b);
    Finish(w1, n, p.c, p.base, if ch.call == Ok then done else p.c.status.Unsucceeded())
  }

  function AdvanceDropSecret(w: World, n: Name, p: Proc, ch: Choice, next: Pc): (r: World)
    ensures r.bindings == w.bindings && r.sm == w.sm
  {
    if ch.call == Rejected then Stop(w, n)
    else if ch.call == Lost then Stop(DropSecret(w, n), n)
    else Go(DropSecret(w, n), n, p.c, p.base, next)
  }

  /** RemoveFinalizer writes only if there is one, and its Update brings back the stored status. */
  function AdvancePollRemoveFinalizer(w: World, n: Name, p: Proc, ch: Choice): (r: World)
    ensures r.sm == w.sm
  {
    if !p.c.finalizer then Finish(w, n, p.c, p.base, p.c.status.WithoutId().NoOperation())
    else if ch.call == Rejected || !Unchanged(w, n, p.c) then Stop(w, n)
    else
      var w1 := PutMeta(w, n, false, p.c.forceRotate);
      if ch.call == Lost then Stop(w1, n)
      else Finish(w1, n, p.c.(finalizer := false, rv := w.clock), p.base, p.base.WithoutId().NoOperation())
  }

  /** handleFailedAsyncBinding: unbind what could not be created. */
  function AdvanceCleanup(w: World, n: Name, p: Proc, ch: Choice): (r: World)
    ensures r.bindings == w.bindings
  {
    if p.c.status.id.None? then Stop(w, n)
    else
      var b := p.c.status.id.value;
      var w1 := if ch.call == Rejected then w else SmUnbind(w, b, ch.async);
      if ch.call != Ok then
        if ch.throttled then Finish(w1, n, p.c, p.base, p.c.status.Unsucceeded()) else Stop(w1, n)
      else if b in w.sm && ch.async then Finish(w1, n, p.c, p.base, p.c.status.Running(Delete, b))
      else Finish(w1, n, p.c, p.base, p.c.status.NoOperation().WithoutId())
  }

  ghost function AdvanceDeleteQuery(w: World, n: Name, p: Proc, ch: Choice): (r: World)
    ensures r.bindings == w.bindings && r.sm == w.sm
  {
    if ch.call != Ok then Finish(w, n, p.c, p.base, p.c.status.Unsucceeded())
    else
      match OnlyMatch(w, p.c.externalName, n)
      case Some(b) => Finish(w, n, p.c, p.base, p.c.status.WithId(b).Unsucceeded())
      case None => Go(w, n, p.c, p.base, DeleteDropSecret)
  }

  function AdvanceDeleteUnbind(w: World, n: Name, p: Proc, ch: Choice): (r: World)
    ensures r.bindings == w.bindings
  {
    if p.c.status.id.None? then Stop(w, n)
    else
      var b := p.c.status.id.value;
      var w1 := if ch.call == Rejected then w else SmUnbind(w, b, ch.async);
      if ch.call != Ok then Finish(w1, n, p.c, p.base, p.c.status.Unsucceeded())
      else if b in w.sm && ch.async then Finish(w1, n, p.c, p.base, p.c.status.Running(Delete, b).Unsucceeded())
      else Go(w1, n, p.c.(status := p.c.status.WithoutId()), p.base, DeleteSave)
  }

  function AdvanceDeleteRemoveFinalizer(w: World, n: Name, p: Proc, ch: Choice): (r: World)
    ensures r.sm == w.sm
  {
    if !p.c.finalizer || ch.call == Rejected || !Unchanged(w, n, p.c) then Stop(w, n)
    else Stop(PutMeta(w, n, false, p.c.forceRotate), n)
  }

  function AdvanceCheckExists(w: World, n: Name, p: Proc, ch: Choice): (r: World)
    ensures r.bindings == w.bindings && r.sm == w.sm
  {
    if p.c.status.id.None? then Stop(w, n)
    else if ch.flag then Finish(w, n, p.c, p.base, p.c.status.Lost())
    else if ch.call != Ok then
      if ch.throttled then Finish(w, n, p.c, p.base, p.c.status.Unsucceeded()) else Stop(w, n)
    else if p.c.status.id.value !in w.sm then Finish(w, n, p.c, p.base, p.c.status.Lost())
    else Go(w, n, p.c, p.base, AddFinalizer)
  }

  /** An instance that is going away or not ready blocks the binding. */
  function Proceed(w: World, n: Name, c: Binding, base: Status, ch: Choice): (r: World)
    ensures r.bindings == w.bindings && r.sm == w.sm
  {
    if ch.instance == Terminating || ch.instance == NotReady then Finish(w, n, c, base, c.status.Unsucceeded())
    else Go(w, n, c, base, if c.status.rotation != NotRotating then RotateAnnotation else ReadyCheck)
  }

  function AdvanceAddFinalizer(w: World, n: Name, p: Proc, ch: Choice): (r: World)
    ensures r.sm == w.sm
  {
    if p.c.finalizer then Proceed(w, n, p.c, p.base, ch)
    else if ch.call == Rejected || !Unchanged(w, n, p.c) then Stop(w, n)
    else
      var w1 := PutMeta(w, n, true, p.c.forceRotate);
      if ch.call == Lost then Stop(w1, n)
      else Proceed(w1, n, p.c.(finalizer := true, rv := w.clock), p.base, ch)
  }

  /** rotateCredentials up to the search for an existing backup. */
  function Rotate(w: World, n: Name, c: Binding, base: Status): (r: World)
    ensures r.bindings == w.bindings && r.sm == w.sm
  {
    match c.status.rotation
    case NotRotating => Go(w, n, c, base, ReadyCheck)
    case Rotating =>
      if c.status.id.Some? && c.status.ready then
        Go(w, n, c.(status := c.status.(rotation := NotRotating)), base, RotateSave)
      else Go(w, n, c, base, ReadyCheck)
    case Preparing =>
      if c.status.id.None? then Go(w, n, c.(status := c.status.(rotation := NotRotating)), base, RotateSave)
      else Go(w, n, c, base, RotateList)
  }

  function AdvanceRotateAnnotation(w: World, n: Name, p: Proc, ch: Choice): (r: World)
    ensures r.sm == w.sm
  {
    if !p.c.forceRotate then Rotate(w, n, p.c, p.base)
    else if ch.call == Rejected || !Unchanged(w, n, p.c) then Stop(w, n)
    else
      var w1 := PutMeta(w, n, p.c.finalizer, false);
      if ch.call == Lost then Stop(w1, n)
      else Rotate(w1, n, p.c.(forceRotate := false, rv := w.clock), p.base)
  }

  predicate HasBackup(bs: map<Name, Binding>, b: Id) {
    exists m :: m in bs && bs[m].stale == Some(b)
  }

  ghost function AdvanceRotateList(w: World, n: Name, p: Proc, ch: Choice): (r: World)
    ensures r.bindings == w.bindings && r.sm == w.sm
  {
    if ch.call != Ok || p.c.status.id.None? then Stop(w, n)
    else if HasBackup(w.bindings, p.c.status.id.value) then
      Go(w, n, p.c.(status := p.c.status.Rotated()), p.base, RotateSave)
    else Go(w, n, p.c, p.base, RenameFirst(ch.suffix))
  }

  /** HandleCredRotationError. */
  function RotationError(w: World, n: Name, p: Proc, ch: Choice): World {
    Finish(w, n, p.c, p.base,
           if ch.throttled then p.c.status.Unsucceeded() else p.c.status.(rotation := Preparing))
  }

  function AdvanceRenameFirst(w: World, n: Name, p: Proc, ch: Choice, suffix: string): (r: World)
    ensures r.bindings == w.bindings
  {
    if ch.call == Rejected || p.c.status.id.None? || p.c.status.id.value !in w.sm then RotationError(w, n, p, ch)
    else
      var w1 := SmRenameFirst(w, p.c.status.id.value, p.c.externalName + suffix);
      if ch.call == Lost then RotationError(w1, n, p, ch) else Go(w1, n, p.c, p.base, RenameSecond(suffix))
  }

  function AdvanceRenameSecond(w: World, n: Name, p: Proc, ch: Choice, suffix: string): (r: World)
    ensures r.bindings == w.bindings
  {
    if ch.call == Rejected || p.c.status.id.None? || p.c.status.id.value !in w.sm then RotationError(w, n, p, ch)
    else
      var w1 := SmRenameSecond(w, p.c.status.id.value, n + suffix);
      if ch.call == Lost then RotationError(w1, n, p, ch) else Go(w1, n, p.c, p.base, CreateBackup(suffix))
  }

  /** createOldBinding; without a rotation policy its copy of the spec is dereferenced in vain. */
  function AdvanceCreateBackup(w: World, n: Name, p: Proc, ch: Choice, suffix: string): (r: World)
    ensures r.sm == w.sm
  {
    if p.c.policy.None? then Stop(w, n)
    else if ch.call == Rejected || n + suffix in w.bindings then RotationError(w, n, p, ch)
    else
      var backup := NewBinding(w, p.c.status.id, Some(n), p.c.externalName + suffix, Some(false));
      var w1 := CreateObject(w, n + suffix, backup);
      if ch.call == Lost then RotationError(w1, n, p, ch)
      else Go(w1, n, p.c.(status := p.c.status.Rotated()), p.base, RotateSave)
  }

  /** A ready binding is retired, rotated or maintained; one without an id is created. */
  function AdvanceReadyCheck(w: World, n: Name, p: Proc, ch: Choice): (r: World)
    ensures r.bindings == w.bindings && r.sm == w.sm
  {
    var c := p.c;
    if c.status.readyCond == Some(true) then
      if c.stale.Some? && c.policy.Some? && ch.due then
        Go(w, n, c, p.base, if c.orig.None? then DeleteSelf else FetchOriginal)
      else if c.status.succeeded != Some(false) && c.policy == Some(true) && (ch.flag || c.forceRotate) then
        Finish(w, n, c, p.base, c.status.(rotation := Preparing))
      else Go(w, n, c, p.base, Maintain)
    else if c.status.id.None? then
      if ch.flag then Finish(w, n, c, p.base, c.status.Unsucceeded()) else Go(w, n, c, p.base, Query)
    else Stop(w, n)
  }

  function AdvanceFetchOriginal(w: World, n: Name, p: Proc, ch: Choice): (r: World)
    ensures r.bindings == w.bindings && r.sm == w.sm
  {
    if ch.call != Ok || p.c.orig.None? then Stop(w, n)
    else if p.c.orig.value !in w.bindings || w.bindings[p.c.orig.value].status.readyCond == Some(true) then
      Go(w, n, p.c, p.base, DeleteSelf)
    else if !p.c.status.pendingTermination then
      Finish(w, n, p.c, p.base, p.c.status.(pendingTermination := true))
    else Stop(w, n)
  }

  function AdvanceDeleteSelf(w: World, n: Name, ch: Choice): (r: World)
    ensures r.sm == w.sm
  {
    if ch.call == Rejected || n !in w.bindings then Stop(w, n) else Stop(DeleteObject(w, n), n)
  }

  /** maintainSecret; SM shows credentials for the bindings it finished creating. */
  function AdvanceMaintain(w: World, n: Name, p: Proc, ch: Choice): (r: World)
    ensures r.bindings == w.bindings && r.sm == w.sm
  {
    if ch.flag && n in w.secrets then Stop(w, n)
    else if ch.call != Ok || p.c.status.id.None? || p.c.status.id.value !in w.sm then
      Finish(w, n, p.c, p.base, p.c.status.Unsucceeded())
    else if w.sm[p.c.status.id.value].provisioning == Done then Go(w, n, p.c, p.base, MaintainStore)
    else Finish(w, n, p.c, p.base, p.c.status)
  }

  /** resyncBindingStatus: adopt a binding found in SM in the state SM showed it. */
  function Resync(s: Status, b: Id, seen: SmBinding): Status {
    var s1 := s.WithId(b).NoOperation();
    match seen.unbinding
    case Asked => s1.Running(Delete, b).Unsucceeded()
    case Refused => s1.Unsucceeded()
    case NotAsked =>
      match seen.provisioning
      case Pending => s1.Running(Create, b).Unsucceeded()
      case Done => s1.Success()
      case Failed => s1.Unsucceeded()
  }

  ghost function AdvanceQuery(w: World, n: Name, p: Proc, ch: Choice): (r: World)
    ensures r.bindings == w.bindings && r.sm == w.sm
  {
    if ch.call != Ok then Finish(w, n, p.c, p.base, p.c.status.Unsucceeded())
    else
      match OnlyMatch(w, p.c.externalName, n)
      case None => Go(w, n, p.c, p.base, Bind)
      case Some(b) =>
        if b in w.sm && w.sm[b].provisioning == Done then Go(w, n, p.c, p.base, RecoverStore(b, w.sm[b]))
        else if b in w.sm then Finish(w, n, p.c, p.base, Resync(p.c.status, b, w.sm[b]))
        else Stop(w, n)
  }

  function AdvanceBind(w: World, n: Name, p: Proc, ch: Choice): (r: World)
    ensures r.bindings == w.bindings
  {
    if ch.flag || ch.call == Rejected then Finish(w, n, p.c, p.base, p.c.status.Unsucceeded())
    else
      var w1 := SmBind(w, n, p.c.externalName, ch.async);
      if ch.call == Lost then Finish(w1, n, p.c, p.base, p.c.status.Unsucceeded())
      else if ch.async then
        Finish(w1, n, p.c, p.base, p.c.status.WithId(w.nextId).Running(Create, w.nextId).Unsucceeded())
      else Go(w1, n, p.c, p.base, BindStore(w.nextId))
  }

  /** One call of the reconcile of `n`, and its code up to the next call. */
  ghost function Advance(w: World, n: Name, ch: Choice): World
    requires n in w.procs
  {
    var p := w.procs[n];
    match p.pc
    case InitConditions => AdvanceInit(w, n, p, ch)
    case FetchInstance => AdvanceFetchInstance(w, n, p, ch)
    case PollStatus => AdvancePollStatus(w, n, p, ch)
    case PollProbe => AdvancePollProbe(w, n, p, ch)
    case PollFetch => AdvancePollFetch(w, n, p, ch)
    case PollStore =>
      if p.c.status.id.None? then Stop(w, n)
      else AdvanceStore(w, n, p, ch, p.c.status.id.value, p.c.status.NoOperation().Success())
    case PollDropSecret => AdvanceDropSecret(w, n, p, ch, PollRemoveFinalizer)
    case PollRemoveFinalizer => AdvancePollRemoveFinalizer(w, n, p, ch)
    case CleanupUnbind => AdvanceCleanup(w, n, p, ch)
    case DeleteQuery => AdvanceDeleteQuery(w, n, p, ch)
    case DeleteUnbind => AdvanceDeleteUnbind(w, n, p, ch)
    case DeleteSave => WriteStatus(w, n, p, ch, Some(DeleteDropSecret))
    case DeleteDropSecret => AdvanceDropSecret(w, n, p, ch, DeleteRemoveFinalizer)
    case DeleteRemoveFinalizer => AdvanceDeleteRemoveFinalizer(w, n, p, ch)
    case CheckExists => AdvanceCheckExists(w, n, p, ch)
    case AddFinalizer => AdvanceAddFinalizer(w, n, p, ch)
    case RotateAnnotation => AdvanceRotateAnnotation(w, n, p, ch)
    case RotateList => AdvanceRotateList(w, n, p, ch)
    case RenameFirst(suffix) => AdvanceRenameFirst(w, n, p, ch, suffix)
    case RenameSecond(suffix) => AdvanceRenameSecond(w, n, p, ch, suffix)
    case CreateBackup(suffix) => AdvanceCreateBackup(w, n, p, ch, suffix)
    case RotateSave => WriteStatus(w, n, p, ch, Some(ReadyCheck))
    case ReadyCheck => AdvanceReadyCheck(w, n, p, ch)
    case FetchOriginal => AdvanceFetchOriginal(w, n, p, ch)
    case DeleteSelf => AdvanceDeleteSelf(w, n, ch)
    case Maintain => AdvanceMaintain(w, n, p, ch)
    case MaintainStore =>
      if p.c.status.id.None? then Stop(w, n)
      else AdvanceStore(w, n, p, ch, p.c.status.id.value, p.c.status.Success())
    case Query => AdvanceQuery(w, n, p, ch)
    case RecoverStore(b, seen) => AdvanceStore(w, n, p, ch, b, Resync(p.c.status, b, seen))
    case Bind => AdvanceBind(w, n, p, ch)
    case BindStore(b) => AdvanceStore(w, n, p, ch, b, p.c.status.WithId(b).Success())
    case Save => WriteStatus(w, n, p, ch, None)
  }

  /** Everything that can happen to a World. */
  datatype Action =
    | Start(n: Name)
    | Call(n: Name, ch: Choice)
    | Crash(n: Name)
    | UserCreate(n: Name, externalName: string, policy: Option<bool>)
    | UserEdit(n: Name, policy: Option<bool>, forceRotate: bool)
    | UserDelete(n: Name)
    | UserDropSecret(n: Name)
    | Collect(n: Name)
    | Operate(b: Id, good: bool)

  /** An action that is not possible changes nothing. */
  ghost function Step(w: World, a: Action): World {
    match a
    case Start(n) => if n in w.bindings && n !in w.procs then Begin(w, n) else w
    case Call(n, ch) => if n in w.procs then Advance(w, n, ch) else w
    case Crash(n) => Stop(w, n)
    case UserCreate(n, externalName, policy) =>
      if n in w.bindings then w else CreateObject(w, n, NewBinding(w, None, None, externalName, policy))
    case UserEdit(n, policy, forceRotate) =>
      if n !in w.bindings || (w.bindings[n].stale.Some? && policy == Some(true)) then w
      else w.(bindings := w.bindings[n := w.bindings[n].(policy := policy, forceRotate := forceRotate, rv := w.clock)],
              clock := w.clock + 1)
    case UserDelete(n) => if n in w.bindings then DeleteObject(w, n) else w
    case UserDropSecret(n) => DropSecret(w, n)
    case Collect(n) =>
      // garbage collection of a backup whose controlling resource is gone
      if n in w.bindings && w.bindings[n].orig.Some? && w.bindings[n].orig.value !in w.bindings then DeleteObject(w, n) else w
    case Operate(b, good) => SmFinish(w, b, good)
  }
}
