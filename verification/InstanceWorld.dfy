/**
 One ServiceInstance resource, what Service Manager (SM) holds for its name, and the calls that change
 either.  Instances of other names share nothing with it, so a World holds just this one.
 */
module InstanceWorld {
  import opened Options

  type Id = nat

  /** The specification without its `shared` property; its hash is taken to be injective. */
  type Spec = nat

  datatype OpKind = Create | Update | Delete

  datatype OpState = Running | Good | Bad

  /** An operation SM knows; `target` is the specification a create or update asked for. */
  datatype Op = Op(kind: OpKind, resource: Id, state: OpState, target: Spec)

  /** An operation URL: which operation of which instance. */
  datatype OpUrl = OpUrl(kind: OpKind, resource: Id, op: Id)

  /** An instance in SM: its latest operation, the specification last applied, and whether it is shared. */
  datatype Inst = Inst(last: Id, applied: Spec, shared: bool)

  /** A condition: its status, its observed generation, and whether its reason is UpdateInProgress. */
  datatype Cond = Cond(good: bool, gen: nat, updating: bool)

  datatype Sharing = Absent | Off | On | Unsupported

  /** The stored hash: none, one of the former 32-character kind, or that of a specification. */
  datatype Hash = NoHash | Legacy | Of(spec: Spec)

  datatype Status = Status(
    id: Option<Id>, opUrl: Option<OpUrl>, opType: Option<OpKind>, succeeded: Option<Cond>, readyCond: Option<Cond>,
    ready: bool, sharing: Sharing, hash: Hash, force: bool, observed: nat)
  {
    /** The generation the Succeeded condition was written for, 0 without one. */
    function LastObserved(): nat {
      if succeeded.Some? then succeeded.value.gen else 0
    }

    /** What decides whether a generation was seen: the Succeeded condition, else the first one. */
    function Seen(): nat {
      if succeeded.Some? then succeeded.value.gen else if readyCond.Some? then readyCond.value.gen else 0
    }

    function InProgress(kind: OpKind, gen: nat, at: nat): Status {
      this.(succeeded := Some(Cond(false, at, kind == Update)), readyCond := Some(Cond(ready, gen, false)))
    }

    function Failure(gen: nat, at: nat): Status {
      this.(succeeded := Some(Cond(false, at, false)), readyCond := Some(Cond(ready, gen, false)))
    }

    function Success(at: nat): Status {
      this.(succeeded := Some(Cond(true, at, false)), readyCond := Some(Cond(true, at, false)), ready := true)
    }

    /** The Shared condition, with every other condition aligned to the generation. */
    function Aligned(sharing': Sharing, gen: nat): Status {
      this.(sharing := sharing',
            succeeded := if succeeded.Some? then Some(succeeded.value.(gen := gen)) else None,
            readyCond := if readyCond.Some? then Some(readyCond.value.(gen := gen)) else None)
    }

    /** The conditions after the instance was found missing in SM. */
    function Missing(gen: nat): Status {
      this.(ready := false, succeeded := None, readyCond := Some(Cond(false, gen, false)), sharing := Absent)
    }

    function NoOperation(): Status {
      this.(opUrl := None, opType := None)
    }

    function Operating(url: OpUrl): Status {
      this.(opUrl := Some(url), opType := Some(url.kind))
    }
  }

  const FreshStatus := Status(None, None, None, None, None, false, Absent, NoHash, false, 0)

  /** `wanted` is the `shared` property, None when it is not set; `subscribed` is watchParametersFromChanges. */
  datatype Instance = Instance(
    uid: nat, rv: nat, gen: nat, spec: Spec, wanted: Option<bool>, subscribed: bool,
    finalizer: bool, deleting: bool, status: Status)

  /** Where a reconcile stands: the call it makes next. */
  datatype Pc =
    | Connect | PollStatus | PollFetch | PollRemoveFinalizer | CleanupCall | DirectSave
    | DeleteQuery | DeleteCall | DeleteSave | DeleteRemoveFinalizer
    | CheckExists | InitConditions | AddFinalizer | Query | Build | Provision | UpdateCall | ShareCall
    | Save

  /** A reconcile under way: its in-memory copy, the status it last read or wrote, and its next call. */
  datatype Proc = Proc(c: Instance, base: Status, pc: Pc)

  datatype World = World(
    obj: Option<Instance>, insts: map<Id, Inst>, ops: map<Id, Op>, proc: Option<Proc>, clock: nat, nextId: Id)

  /** The API server accepts a write only against the version the caller read. */
  predicate Unchanged(w: World, c: Instance) {
    w.obj.Some? && w.obj.value.rv == c.rv
  }

  function PutStatus(w: World, status: Status): World
    requires w.obj.Some?
  {
    w.(obj := Some(w.obj.value.(status := status, rv := w.clock)), clock := w.clock + 1)
  }

  /** Update writes metadata and leaves the status; an object being deleted goes with its finalizer. */
  function PutMeta(w: World, finalizer: bool): World
    requires w.obj.Some?
  {
    if w.obj.value.deleting && !finalizer then w.(obj := None, clock := w.clock + 1)
    else w.(obj := Some(w.obj.value.(finalizer := finalizer, rv := w.clock)), clock := w.clock + 1)
  }

  /** The latest operation of an instance is still running. */
  predicate Busy(w: World, i: Id) {
    i in w.insts && w.insts[i].last in w.ops && w.ops[w.insts[i].last].state == Running
  }

  /** Provision registers a new instance: at once, or as a running operation. */
  function SmProvision(w: World, spec: Spec, async: bool): World {
    w.(insts := w.insts[w.nextId := Inst(w.nextId, spec, false)],
       ops := w.ops[w.nextId := Op(Create, w.nextId, if async then Running else Good, spec)],
       nextId := w.nextId + 1)
  }

  /** UpdateInstance; SM accepts it only on an instance it holds and that is not busy. */
  function SmUpdate(w: World, i: Id, spec: Spec, async: bool): World
    requires i in w.insts
  {
    w.(insts := w.insts[i := w.insts[i].(last := w.nextId, applied := if async then w.insts[i].applied else spec)],
       ops := w.ops[w.nextId := Op(Update, i, if async then Running else Good, spec)],
       nextId := w.nextId + 1)
  }

  /** Deprovision succeeds at once on an instance SM does not hold, and pre-empts a running operation. */
  function SmDeprovision(w: World, i: Id, async: bool): World {
    if i !in w.insts then w
    else if async then
      w.(insts := w.insts[i := w.insts[i].(last := w.nextId)],
         ops := w.ops[w.nextId := Op(Delete, i, Running, w.insts[i].applied)],
         nextId := w.nextId + 1)
    else w.(insts := w.insts - {i})
  }

  function SmShare(w: World, i: Id, shared: bool): World {
    if i !in w.insts then w else w.(insts := w.insts[i := w.insts[i].(shared := shared)])
  }

  /** SM finishes the running operation of an instance, one way or the other. */
  function SmFinish(w: World, i: Id, good: bool): World {
    if !Busy(w, i) then w
    else
      var op := w.ops[w.insts[i].last];
      var w1 := w.(ops := w.ops[w.insts[i].last := op.(state := if good then Good else Bad)]);
      if !good then w1
      else if op.kind == Delete then w1.(insts := w.insts - {i})
      else w1.(insts := w.insts[i := w.insts[i].(applied := op.target)])
  }

  /** Status reads an operation; SM forgets the operations of an instance that is gone, and a forgotten delete has succeeded. */
  function SmStatus(w: World, url: OpUrl): Option<OpState> {
    if url.resource in w.insts && url.op in w.ops then Some(w.ops[url.op].state)
    else if url.kind == Delete then Some(Good)
    else None
  }

  // ----- calls of SM leave the API server alone

  lemma ProvisionFrame(w: World, spec: Spec, async: bool)
    ensures var w1 := SmProvision(w, spec, async); w1.obj == w.obj && w1.clock == w.clock && w1.nextId == w.nextId + 1
  {
  }

  lemma UpdateFrame(w: World, i: Id, spec: Spec, async: bool)
    requires i in w.insts
    ensures var w1 := SmUpdate(w, i, spec, async); w1.obj == w.obj && w1.clock == w.clock && w1.nextId == w.nextId + 1
  {
  }

  lemma DeprovisionFrame(w: World, i: Id, async: bool)
    ensures var w1 := SmDeprovision(w, i, async); w1.obj == w.obj && w1.clock == w.clock
  {
  }
}
