/**
 The ServiceInstance reconciler, one remote call at a time, beside the users, the secret controller and
 SM.  The retry gate, the SM client and the parameters are part of the Choice made for each call.
 */
module InstanceReconciler {
  import opened Options
  import opened Remote
  import opened InstanceWorld

  /**
   The answers of the outside world to one call.  `throttled` classifies an SM error as 429, `unsharable`
   as one that sharing treats as final; `described` says that a running operation has a description;
   `relabel` that the secret labels of the instance have changed; `flag` decides the one remaining
   yes-or-no question of a call.
   */
  datatype Choice = Choice(
    call: Outcome, throttled: bool, unsharable: bool, async: bool, described: bool, relabel: bool, flag: bool)

  /** The plain answer to a call. */
  const PLAIN := Choice(Ok, false, false, false, false, false, false)

  function Go(w: World, c: Instance, base: Status, pc: Pc): World {
    w.(proc := Some(Proc(c, base, pc)))
  }

  function Stop(w: World): World {
    w.(proc := None)
  }

  function Finish(w: World, c: Instance, base: Status, status: Status): World {
    Go(w, c.(status := status), base, Save)
  }

  /** HandleServiceManagerError with its status update. */
  function Fail(w: World, c: Instance, base: Status, kind: OpKind, throttled: bool): (r: World)
    ensures r.obj == w.obj && r.insts == w.insts && r.ops == w.ops
  {
    Finish(w, c, base, if throttled then c.status.InProgress(kind, c.gen, c.gen) else c.status.Failure(c.gen, c.gen))
  }

  function Begin(w: World): World
    requires w.obj.Some?
  {
    Go(w, w.obj.value, w.obj.value.status, Connect)
  }

  /** A status write and the call after it; UpdateStatus also copies the observed generation. */
  function WriteStatus(w: World, p: Proc, ch: Choice, status: Status, next: Option<Pc>): (r: World)
    ensures r.insts == w.insts && r.ops == w.ops
  {
    if ch.call == Rejected || !Unchanged(w, p.c) then Stop(w)
    else if ch.call == Lost || next.None? then Stop(PutStatus(w, status))
    else Go(PutStatus(w, status), p.c.(rv := w.clock, status := status), status, next.value)
  }

  function UpdateStatus(s: Status): Status {
    s.(observed := s.LastObserved())
  }

  predicate ShareRequired(c: Instance) {
    c.status.ready &&
    match c.status.sharing
    case Absent => c.wanted == Some(true)
    case Unsupported => false
    case Off => c.wanted == Some(true)
    case On => c.wanted != Some(true)
  }

  predicate UpdateRequired(c: Instance) {
    c.status.force || c.subscribed ||
    (c.status.ready && ((c.status.succeeded.Some? && c.status.succeeded.value.updating) || c.status.hash != Of(c.spec)))
  }

  /** isFinalState, without the hash it may fill in. */
  predicate Final(c: Instance) {
    c.status.ready && !c.status.force && c.gen == c.status.Seen() && !ShareRequired(c)
  }

  /** With the finalizer stored: create, update, share or do nothing. */
  function Work(w: World, c: Instance, base: Status): (r: World)
    ensures r.obj == w.obj && r.insts == w.insts && r.ops == w.ops
  {
    if c.status.id.None? then Go(w, c, base, Query)
    else if UpdateRequired(c) then Go(w, c, base, Build)
    else if ShareRequired(c) then Go(w, c, base, ShareCall)
    else Stop(w)
  }

  /** With conditions in place: maintain the final state, or work. */
  function Settle(w: World, c: Instance, base: Status): (r: World)
    ensures r.obj == w.obj && r.insts == w.insts && r.ops == w.ops
  {
    if Final(c) then
      if c.status.hash == NoHash then Finish(w, c, base, c.status.(hash := Of(c.spec))) else Stop(w)
    else
      var c1 := if c.status.ready && !c.status.force && c.gen == c.status.Seen() && c.status.hash == NoHash
        then c.(status := c.status.(hash := Of(c.spec))) else c;
      if c1.finalizer then Work(w, c1, base) else Go(w, c1, base, AddFinalizer)
  }

  function Prepare(w: World, c: Instance, base: Status): (r: World)
    ensures r.obj == w.obj && r.insts == w.insts && r.ops == w.ops
  {
    if c.status.succeeded.None? && c.status.readyCond.None? && c.status.sharing == Absent then Go(w, c, base, InitConditions)
    else Settle(w, c, base)
  }

  /** The SM client is there: poll, delete, migrate the hash, or look at the instance. */
  function AdvanceConnect(w: World, p: Proc, ch: Choice): (r: World)
    ensures r.obj == w.obj && r.insts == w.insts && r.ops == w.ops
  {
    var c := p.c;
    if ch.call != Ok then Finish(w, c, p.base, c.status.Failure(c.gen, c.gen))
    else if c.status.opUrl.Some? && (c.status.opType == Some(Delete) || !c.deleting) then Go(w, c, p.base, PollStatus)
    else if c.deleting then
      if !c.finalizer then Stop(w)
      else Go(w, c, p.base, if c.status.id.None? then DeleteQuery else DeleteCall)
    else if c.status.hash == Legacy then Finish(w, c, p.base, c.status.(hash := Of(c.spec)))
    else if c.status.id.Some? then Go(w, c, p.base, CheckExists)
    else Prepare(w, c, p.base)
  }

  function AdvancePollStatus(w: World, p: Proc, ch: Choice): (r: World)
    ensures r.obj == w.obj && r.insts == w.insts && r.ops == w.ops
  {
    var c := p.c;
    if c.status.opUrl.None? then Stop(w)
    else
      var url := c.status.opUrl.value;
      var at := c.status.LastObserved();
      if ch.call != Ok then Fail(w, c, p.base, url.kind, ch.throttled)
      else
        match SmStatus(w, url)
        case None => Fail(w, c, p.base, url.kind, false)
        case Some(Running) =>
          if ch.described then Finish(w, c, p.base, c.status.InProgress(url.kind, c.gen, at)) else Stop(w)
        case Some(Bad) =>
          var failed := c.status.Failure(c.gen, at);
          if url.kind == Create || (url.kind == Delete && !c.deleting) then Go(w, c.(status := failed), p.base, CleanupCall)
          else Finish(w, c, p.base, failed.NoOperation())
        case Some(Good) =>
          if url.kind == Create then Go(w, c, p.base, PollFetch)
          else if url.kind == Delete then Go(w, c, p.base, PollRemoveFinalizer)
          else Finish(w, c, p.base, c.status.Success(at).NoOperation())
  }

  function AdvancePollFetch(w: World, p: Proc, ch: Choice): (r: World)
    ensures r.obj == w.obj && r.insts == w.insts && r.ops == w.ops
  {
    if ch.call != Ok || p.c.status.id.None? || p.c.status.id.value !in w.insts then Stop(w)
    else Finish(w, p.c, p.base, p.c.status.Success(p.c.status.LastObserved()).NoOperation())
  }

  /** RemoveFinalizer writes only if there is one, and its Update brings back the stored status. */
  function AdvancePollRemoveFinalizer(w: World, p: Proc, ch: Choice): (r: World)
    ensures r.insts == w.insts && r.ops == w.ops
  {
    if !p.c.finalizer then Finish(w, p.c, p.base, p.c.status.(id := None).NoOperation())
    else if ch.call == Rejected || !Unchanged(w, p.c) then Stop(w)
    else
      var w1 := PutMeta(w, false);
      if ch.call == Lost then Stop(w1)
      else Finish(w1, p.c.(finalizer := false, rv := w.clock), p.base, p.base.(id := None).NoOperation())
  }

  /** handleFailedAsyncProvision: deprovision what could not be created. */
  function AdvanceCleanup(w: World, p: Proc, ch: Choice): (r: World)
    ensures r.obj == w.obj
  {
    if p.c.status.id.None? then Stop(w)
    else
      var i := p.c.status.id.value;
      var w1 := if ch.call == Rejected then w else SmDeprovision(w, i, ch.async);
      if ch.call != Ok then
        if ch.throttled then Fail(w1, p.c, p.base, Delete, true) else Stop(w1)
      else if i in w.insts && ch.async then Finish(w1, p.c, p.base, p.c.status.Operating(OpUrl(Delete, i, w.nextId)))
      else Go(w1, p.c.(status := p.c.status.NoOperation().(id := None)), p.base, DirectSave)
  }

  /** `found` is the first of the instances listed by the recovery query. */
  function AdvanceDeleteQuery(w: World, p: Proc, ch: Choice, found: Option<Id>): (r: World)
    ensures r.obj == w.obj && r.insts == w.insts && r.ops == w.ops
  {
    if ch.call != Ok then Fail(w, p.c, p.base, Delete, ch.throttled)
    else
      match found
      case Some(i) => Finish(w, p.c, p.base, p.c.status.(id := Some(i)).InProgress(Delete, p.c.gen, p.c.gen))
      case None => Go(w, p.c, p.base, DeleteRemoveFinalizer)
  }

  function AdvanceDeleteCall(w: World, p: Proc, ch: Choice): (r: World)
    ensures r.obj == w.obj
  {
    if p.c.status.id.None? then Stop(w)
    else
      var i := p.c.status.id.value;
      var w1 := if ch.call == Rejected then w else SmDeprovision(w, i, ch.async);
      if ch.call != Ok then Fail(w1, p.c, p.base, Delete, ch.throttled)
      else if i in w.insts && ch.async then
        Finish(w1, p.c, p.base, p.c.status.Operating(OpUrl(Delete, i, w.nextId)).InProgress(Delete, p.c.gen, p.c.gen))
      else if ch.flag then Stop(w1) // a watched secret could not be unwatched
      else Go(w1, p.c.(status := p.c.status.(id := None)), p.base, DeleteSave)
  }

  function AdvanceDeleteRemoveFinalizer(w: World, p: Proc, ch: Choice): (r: World)
    ensures r.insts == w.insts && r.ops == w.ops
  {
    if !p.c.finalizer || ch.call == Rejected || !Unchanged(w, p.c) then Stop(w)
    else Stop(PutMeta(w, false))
  }

  function AdvanceCheckExists(w: World, p: Proc, ch: Choice): (r: World)
    ensures r.obj == w.obj && r.insts == w.insts && r.ops == w.ops
  {
    if p.c.status.id.None? then Stop(w)
    else if ch.call != Ok then Stop(w)
    else if p.c.status.id.value !in w.insts then Finish(w, p.c, p.base, p.c.status.Missing(p.c.gen))
    else Prepare(w, p.c, p.base)
  }

  function AdvanceInit(w: World, p: Proc, ch: Choice): (r: World)
    ensures r.insts == w.insts && r.ops == w.ops
  {
    var status := UpdateStatus(p.c.status.(ready := false).InProgress(Create, p.c.gen, p.c.gen));
    if ch.call == Rejected || !Unchanged(w, p.c) then Stop(w)
    else if ch.call == Lost then Stop(PutStatus(w, status))
    else Settle(PutStatus(w, status), p.c.(rv := w.clock, status := status), status)
  }

  /** Its Update brings back the stored status. */
  function AdvanceAddFinalizer(w: World, p: Proc, ch: Choice): (r: World)
    ensures r.insts == w.insts && r.ops == w.ops
  {
    if ch.call == Rejected || !Unchanged(w, p.c) then Stop(w)
    else if ch.call == Lost then Stop(PutMeta(w, true))
    else Work(PutMeta(w, true), p.c.(finalizer := true, rv := w.clock, status := p.base), p.base)
  }

  /** recover: adopt an instance found in SM in the state SM showed it. */
  function Recovered(w: World, c: Instance, i: Id): Status
    requires i in w.insts
  {
    var inst := w.insts[i];
    var s := c.status.(hash := Of(c.spec), id := Some(i)).NoOperation();
    var s1 := if inst.last in w.ops && w.ops[inst.last].kind == Create && w.ops[inst.last].state != Good then s else s.(ready := true);
    var s2 := if inst.shared then s1.Aligned(On, c.gen) else s1;
    if inst.last !in w.ops then s2.Success(c.gen)
    else
      var op := w.ops[inst.last];
      match op.state
      case Running => s2.Operating(OpUrl(op.kind, i, inst.last)).InProgress(op.kind, c.gen, c.gen)
      case Good => s2.Success(c.gen)
      case Bad => s2.Failure(c.gen, c.gen)
  }

  function AdvanceQuery(w: World, p: Proc, ch: Choice, found: Option<Id>): (r: World)
    ensures r.obj == w.obj && r.insts == w.insts && r.ops == w.ops
  {
    if ch.call != Ok then Fail(w, p.c, p.base, Create, ch.throttled)
    else
      match found
      case Some(i) => if i in w.insts then Finish(w, p.c, p.base, Recovered(w, p.c, i)) else Stop(w)
      case None => Go(w, p.c.(status := p.c.status.(hash := Of(p.c.spec))), p.base, Build)
  }

  /** The call after the parameters are known. */
  function Built(c: Instance): Pc {
    if c.status.id.None? then Provision else UpdateCall
  }

  /** buildSMRequestParameters; a change of labels is an Update, which brings back the stored status. */
  function AdvanceBuild(w: World, p: Proc, ch: Choice): (r: World)
    ensures r.insts == w.insts && r.ops == w.ops
  {
    var c := p.c;
    if ch.flag then Finish(w, c, p.base, c.status.Failure(c.gen, c.gen))
    else if !ch.relabel then Go(w, c, p.base, Built(c))
    else if ch.call == Rejected || !Unchanged(w, c) then Finish(w, c, p.base, c.status.Failure(c.gen, c.gen))
    else
      var w1 := PutMeta(w, c.finalizer);
      if ch.call == Lost then Finish(w1, c, p.base, c.status.Failure(c.gen, c.gen))
      else Go(w1, c.(rv := w.clock, status := p.base), p.base, Built(c))
  }

  function AdvanceProvision(w: World, p: Proc, ch: Choice): (r: World)
    ensures r.obj == w.obj
  {
    if ch.call == Rejected then Fail(w, p.c, p.base, Create, ch.throttled)
    else
      var w1 := SmProvision(w, p.c.spec, ch.async);
      var s := p.c.status.(id := Some(w.nextId));
      if ch.call == Lost then Fail(w1, p.c, p.base, Create, false)
      else if ch.async then
        Finish(w1, p.c, p.base, s.Operating(OpUrl(Create, w.nextId, w.nextId)).InProgress(Create, p.c.gen, p.c.gen))
      else Finish(w1, p.c, p.base, s.Success(p.c.gen))
  }

  function AdvanceUpdate(w: World, p: Proc, ch: Choice): (r: World)
    ensures r.obj == w.obj
  {
    if p.c.status.id.None? then Stop(w)
    else
      var i := p.c.status.id.value;
      var c := p.c.(status := p.c.status.(hash := Of(p.c.spec)));
      if ch.call == Rejected || i !in w.insts || Busy(w, i) then Fail(w, c, p.base, Update, ch.throttled)
      else
        var w1 := SmUpdate(w, i, c.spec, ch.async);
        if ch.call == Lost then Fail(w1, c, p.base, Update, false)
        else if ch.async then
          Finish(w1, c, p.base,
                 c.status.Operating(OpUrl(Update, i, w.nextId)).InProgress(Update, c.gen, c.gen).(force := false))
        else Finish(w1, c, p.base, c.status.Success(c.gen).(force := false))
  }

  function AdvanceShare(w: World, p: Proc, ch: Choice): (r: World)
    ensures r.obj == w.obj
  {
    if p.c.status.id.None? then Stop(w)
    else
      var share := p.c.wanted == Some(true);
      var w1 := if ch.call == Rejected then w else SmShare(w, p.c.status.id.value, share);
      if ch.call != Ok || p.c.status.id.value !in w.insts then
        if ch.throttled then Finish(w1, p.c, p.base, p.c.status.InProgress(Create, p.c.gen, p.c.gen))
        else Finish(w1, p.c, p.base,
                    p.c.status.Aligned(if !share then On else if ch.unsharable then Unsupported else Off, p.c.gen))
      else if share then Finish(w1, p.c, p.base, p.c.status.Aligned(On, p.c.gen))
      else if p.c.wanted.Some? then Finish(w1, p.c, p.base, p.c.status.Aligned(Off, p.c.gen))
      else Finish(w1, p.c, p.base, p.c.status.(sharing := Absent))
  }

  /** The recovery query lists the instances of this name; recovery takes the first. */
  ghost function Listed(w: World): (r: Option<Id>)
    ensures r.Some? <==> w.insts != map[]
    ensures r.Some? ==> r.value in w.insts
  {
    if i :| i in w.insts then Some(i) else None
  }

  /** One call of the reconcile, and its code up to the next call. */
  ghost function Advance(w: World, ch: Choice): World
    requires w.proc.Some?
  {
    var p := w.proc.value;
    match p.pc
    case Connect => AdvanceConnect(w, p, ch)
    case PollStatus => AdvancePollStatus(w, p, ch)
    case PollFetch => AdvancePollFetch(w, p, ch)
    case PollRemoveFinalizer => AdvancePollRemoveFinalizer(w, p, ch)
    case CleanupCall => AdvanceCleanup(w, p, ch)
    case DirectSave => WriteStatus(w, p, ch, p.c.status, None)
    case DeleteQuery => AdvanceDeleteQuery(w, p, ch, Listed(w))
    case DeleteCall => AdvanceDeleteCall(w, p, ch)
    case DeleteSave => WriteStatus(w, p, ch, p.c.status, Some(DeleteRemoveFinalizer))
    case DeleteRemoveFinalizer => AdvanceDeleteRemoveFinalizer(w, p, ch)
    case CheckExists => AdvanceCheckExists(w, p, ch)
    case InitConditions => AdvanceInit(w, p, ch)
    case AddFinalizer => AdvanceAddFinalizer(w, p, ch)
    case Query => AdvanceQuery(w, p, ch, Listed(w))
    case Build => AdvanceBuild(w, p, ch)
    case Provision => AdvanceProvision(w, p, ch)
    case UpdateCall => AdvanceUpdate(w, p, ch)
    case ShareCall => AdvanceShare(w, p, ch)
    case Save => WriteStatus(w, p, ch, UpdateStatus(p.c.status), None)
  }

  /** Everything that can happen to a World. */
  datatype Action =
    | Start
    | Call(ch: Choice)
    | Crash
    | UserCreate(spec: Spec, wanted: Option<bool>, subscribed: bool)
    | UserEdit(spec: Spec, wanted: Option<bool>, subscribed: bool)
    | UserDelete
    | Wake
    | OldRelease
    | Operate(i: Id, good: bool)

  /** An action that is not possible changes nothing. */
  ghost function Step(w: World, a: Action): World {
    match a
    case Start => if w.obj.Some? && w.proc.None? then Begin(w) else w
    case Call(ch) => if w.proc.Some? then Advance(w, ch) else w
    case Crash => Stop(w)
    case UserCreate(spec, wanted, subscribed) =>
      if w.obj.Some? then w
      else w.(obj := Some(Instance(w.clock, w.clock, 1, spec, wanted, subscribed, false, false, FreshStatus)), clock := w.clock + 1)
    case UserEdit(spec, wanted, subscribed) =>
      if w.obj.None? then w
      else
        var o := w.obj.value;
        w.(obj := Some(o.(spec := spec, wanted := wanted, subscribed := subscribed, gen := o.gen + 1, rv := w.clock)), clock := w.clock + 1)
    case UserDelete =>
      if w.obj.None? then w
      else if w.obj.value.finalizer then
        w.(obj := Some(w.obj.value.(deleting := true, gen := w.obj.value.gen + 1, rv := w.clock)), clock := w.clock + 1)
      else w.(obj := None, clock := w.clock + 1)
    case Wake =>
      // the secret controller asks for an update
      if w.obj.None? then w else PutStatus(w, UpdateStatus(w.obj.value.status.(force := true)))
    case OldRelease =>
      // an earlier release of the operator stored the hash in its former format
      if w.obj.None? || w.obj.value.status.hash == NoHash then w else PutStatus(w, w.obj.value.status.(hash := Legacy))
    case Operate(i, good) => SmFinish(w, i, good)
  }
}
