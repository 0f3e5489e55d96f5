/** What every reachable World of an instance satisfies, between any two calls of its reconcile. */
module InstanceInvariant {
  import opened Options
  import opened InstanceWorld
  import opened InstanceReconciler

  predicate StatusShape(s: Status, deleting: bool) {
    && (s.opUrl.Some? <==> s.opType.Some?)
    && (s.opUrl.Some? ==> s.opType == Some(s.opUrl.value.kind))
    && (s.opUrl.Some? && s.id.Some? ==> s.opUrl.value.resource == s.id.value)
    && (s.opUrl.Some? && s.id.None? ==> deleting && s.opUrl.value.kind != Delete)
    && (s.readyCond.Some? ==> s.readyCond.value.good == s.ready)
    && (s.id.Some? || s.succeeded.Some? || s.ready ==> s.readyCond.Some?)
    && (s.ready && !deleting ==> s.id.Some? && (s.opUrl.None? || s.opUrl.value.kind == Update))
  }

  /** SM holds nothing for this name. */
  predicate Vacant(w: World) {
    w.insts == map[]
  }

  /** SM holds at most one instance, and its operations are accounted for. */
  ghost predicate SmOk(w: World) {
    && (forall i, j :: i in w.insts && j in w.insts ==> i == j)
    && (forall op :: op in w.ops ==> op < w.nextId && w.ops[op].resource < w.nextId)
    && (forall i :: i in w.insts ==>
          && i < w.nextId && w.insts[i].last in w.ops
          && w.ops[w.insts[i].last].resource == i
          && (w.ops[w.insts[i].last].state == Good ==> w.insts[i].applied == w.ops[w.insts[i].last].target))
    && (forall op :: op in w.ops && w.ops[op].kind == Delete && w.ops[op].state == Good ==> w.ops[op].resource !in w.insts)
  }

  /** An operation that `s` records, of an instance SM still holds, that has not failed. */
  predicate Unfailed(w: World, s: Status) {
    && s.opUrl.Some? && s.opUrl.value.resource in w.insts
    && s.opUrl.value.op in w.ops && w.ops[s.opUrl.value.op].state != Bad
  }

  /**
   What SM holds is the instance `s` names, if it names one, and nothing is left behind a finished
   deletion.  A recorded deletion that has not failed is the latest operation; until a deletion is asked for,
   so is any recorded operation, and an instance without a name in `s` is as it was created.
   */
  predicate Holds(w: World, s: Status, deleting: bool) {
    && (s.id.Some? ==> forall i :: i in w.insts ==> i == s.id.value)
    && (s.id.None? && s.opUrl.Some? ==> Vacant(w))
    && (s.id.None? && !deleting ==> forall i :: i in w.insts && w.insts[i].last in w.ops ==>
          w.ops[w.insts[i].last].kind == Create && !w.insts[i].shared)
    && (Unfailed(w, s) && (!deleting || s.opUrl.value.kind == Delete) ==> w.insts[s.opUrl.value.resource].last == s.opUrl.value.op)
  }

  /** SM knows the operation `s` records, and handed out its id. */
  predicate Recorded(w: World, s: Status) {
    && (s.id.Some? ==> s.id.value < w.nextId)
    && (s.opUrl.Some? ==>
          && s.opUrl.value.op in w.ops
          && w.ops[s.opUrl.value.op].kind == s.opUrl.value.kind && w.ops[s.opUrl.value.op].resource == s.opUrl.value.resource)
  }

  predicate ObjOk(w: World) {
    match w.obj
    case None => Vacant(w)
    case Some(o) =>
      && o.rv < w.clock && o.uid < w.clock
      && StatusShape(o.status, o.deleting) && Recorded(w, o.status) && Holds(w, o.status, o.deleting)
      && o.status.observed == o.status.LastObserved() <= o.gen
      && (o.deleting ==> o.finalizer)
      && (!o.finalizer ==> Vacant(w))
  }

  predicate Current(w: World, c: Instance) {
    w.obj.Some? && w.obj.value.uid == c.uid
  }

  /** Only the secret controller changes a status besides the reconcile, and only its force flag; old releases wrote old hashes. */
  predicate SameStatus(s: Status, base: Status) {
    s == base.(force := s.force, hash := s.hash)
  }

  /** The in-memory copy agrees with the stored object as long as that is the same one. */
  predicate CopyOk(w: World, c: Instance, base: Status) {
    && (Current(w, c) ==>
          && SameStatus(w.obj.value.status, base)
          && c.gen <= w.obj.value.gen
          && (c.gen == w.obj.value.gen ==> c.spec == w.obj.value.spec)
          && (c.deleting ==> w.obj.value.deleting))
    && (Unchanged(w, c) ==> w.obj.value == c.(status := base))
    && (c.finalizer ==> Current(w, c) && w.obj.value.finalizer)
    && (!c.finalizer ==> Vacant(w))
  }

  predicate CoreOk(w: World, c: Instance, base: Status) {
    && c.rv < w.clock && c.uid < w.clock
    && StatusShape(base, c.deleting) && Recorded(w, base) && Holds(w, base, c.deleting)
    && base.observed == base.LastObserved() <= c.gen
    && CopyOk(w, c, base)
  }

  /** `status` may replace `base` in the resource whose copy is `c`. */
  predicate Writable(w: World, c: Instance, status: Status) {
    StatusShape(status, c.deleting) && Recorded(w, status) && Holds(w, status, c.deleting) && status.LastObserved() <= c.gen
  }

  predicate Untouched(p: Proc) {
    p.c.status == p.base
  }

  /** Past the deletion and polling branches; at most a hash was filled in. */
  predicate Working(p: Proc) {
    !p.c.deleting && p.base.opUrl.None? && p.c.status == p.base.(hash := p.c.status.hash)
  }

  predicate PcOk(w: World, p: Proc) {
    var c := p.c;
    var id := p.c.status.id;
    match p.pc
    case Connect => Untouched(p) && (c.deleting ==> c.finalizer)
    case PollStatus => Untouched(p) && c.status.opUrl.Some? && id.Some? && (c.status.opType == Some(Delete) || !c.deleting)
    case PollFetch => Untouched(p) && !c.deleting && id.Some? && c.status.opType == Some(Create)
    case PollRemoveFinalizer => Untouched(p) && c.status.opType == Some(Delete) && id.Some? && Vacant(w)
    case CleanupCall =>
      && !c.deleting && c.status == p.base.Failure(c.gen, p.base.LastObserved()) && id.Some? && c.status.opUrl.Some?
      && c.status.opUrl.value.kind != Update
      && (id.value in w.insts && c.status.opUrl.value.op in w.ops ==> w.ops[c.status.opUrl.value.op].state == Bad)
    case DirectSave =>
      && !c.deleting && c.status == p.base.Failure(c.gen, p.base.LastObserved()).NoOperation().(id := None)
      && !c.status.ready && Vacant(w)
    case DeleteQuery => Untouched(p) && c.finalizer && c.deleting && id.None?
    case DeleteCall => Untouched(p) && c.finalizer && c.deleting && id.Some? && c.status.opType != Some(Delete)
    case DeleteSave =>
      c.status == p.base.(id := None) && c.finalizer && c.deleting && c.status.opType != Some(Delete) && Vacant(w)
    case DeleteRemoveFinalizer => Untouched(p) && c.finalizer && c.deleting && Vacant(w)
    case CheckExists => Untouched(p) && Working(p) && id.Some?
    case InitConditions => Untouched(p) && Working(p) && id.None?
    case AddFinalizer => Working(p)
    case Query => Working(p) && c.finalizer && id.None?
    case Build => Working(p) && c.finalizer && (id.None? ==> Vacant(w))
    case Provision => Working(p) && c.finalizer && id.None? && Vacant(w)
    case UpdateCall => Working(p) && c.finalizer && id.Some?
    case ShareCall => Working(p) && c.finalizer && id.Some? && c.status.ready
    case Save => Unchanged(w, c) ==> Writable(w, c, c.status)
  }

  predicate ProcOk(w: World) {
    w.proc.Some? ==> CoreOk(w, w.proc.value.c, w.proc.value.base) && PcOk(w, w.proc.value)
  }

  ghost predicate Inv(w: World) {
    SmOk(w) && ObjOk(w) && ProcOk(w)
  }
}
