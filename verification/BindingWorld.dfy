/**
 The two stores the binding controller keeps consistent, and the calls that change them.

 A World holds the ServiceBinding resources of one namespace in the API server, the secrets the
 operator wrote for them, the bindings held by Service Manager (SM) on behalf of this cluster and
 namespace, and the reconciles that are under way.  Every function below is one atomic call.
 */
module BindingWorld {
  import opened Options

  type Name = string
  type Id = nat

  /** The operation categories SM knows for bindings. */
  datatype OpKind = Create | Delete

  /** What an operation URL addresses: one operation of one SM resource. */
  datatype OpUrl = OpUrl(kind: OpKind, resource: Id)

  datatype Provisioning = Pending | Done | Failed

  /** NotAsked: nobody ever unbound it.  Asked: an asynchronous unbind is running.  Refused: it failed. */
  datatype Unbinding = NotAsked | Asked | Refused

  /** A binding in SM.  `creator` is history: the resource whose reconcile asked for it. */
  datatype SmBinding = SmBinding(
    name: string, k8sName: Option<Name>, provisioning: Provisioning, unbinding: Unbinding, creator: Name)

  datatype Rotation = NotRotating | Preparing | Rotating

  /**
   The status subresource.  `succeeded` and `readyCond` are the statuses of the Succeeded and Ready
   conditions, None when the condition is absent; `rotation` is the reason of a true
   CredRotationInProgress condition.
   */
  datatype Status = Status(
    id: Option<Id>, opUrl: Option<OpUrl>, opType: Option<OpKind>, ready: bool,
    succeeded: Option<bool>, readyCond: Option<bool>, rotation: Rotation, pendingTermination: bool)
  {
    predicate HasConditions() {
      succeeded.Some? || readyCond.Some? || rotation != NotRotating || pendingTermination
    }

    /** The in-progress, failure and blocked setters agree on these fields. */
    function Unsucceeded(): Status {
      this.(succeeded := Some(false), readyCond := Some(ready))
    }

    function Success(): Status {
      this.(succeeded := Some(true), readyCond := Some(true), ready := true)
    }

    /** The conditions after the binding was found missing in SM: a lone Ready condition. */
    function Lost(): Status {
      this.(ready := false, succeeded := None, readyCond := Some(false), rotation := NotRotating, pendingTermination := false)
    }

    function NoOperation(): Status {
      this.(opUrl := None, opType := None)
    }

    function Running(kind: OpKind, resource: Id): Status {
      this.(opUrl := Some(OpUrl(kind, resource)), opType := Some(kind))
    }

    function WithId(b: Id): Status {
      this.(id := Some(b))
    }

    function WithoutId(): Status {
      this.(id := None)
    }

    /** What rotation writes once the old credentials are safely in a backup. */
    function Rotated(): Status {
      this.(id := None, ready := false).Unsucceeded().(rotation := Rotating)
    }
  }

  const FreshStatus := Status(None, None, None, false, None, None, NotRotating, false)

  /**
   A ServiceBinding resource.  `stale` and `orig` are the two rotation labels of a backup; `policy` is
   the rotation policy, with its enabled flag when there is one.
   */
  datatype Binding = Binding(
    uid: nat, rv: nat, finalizer: bool, deleting: bool, forceRotate: bool,
    stale: Option<Id>, orig: Option<Name>, externalName: string, policy: Option<bool>, status: Status)

  /** Where a reconcile stands: the call it makes next. */
  datatype Pc =
    | InitConditions | FetchInstance
    | PollStatus | PollProbe | PollFetch | PollStore | PollDropSecret | PollRemoveFinalizer
    | CleanupUnbind
    | DeleteQuery | DeleteUnbind | DeleteSave | DeleteDropSecret | DeleteRemoveFinalizer
    | CheckExists | AddFinalizer
    | RotateAnnotation | RotateList | RenameFirst(suffix: string) | RenameSecond(suffix: string)
    | CreateBackup(suffix: string) | RotateSave | ReadyCheck
    | FetchOriginal | DeleteSelf
    | Maintain | MaintainStore
    | Query | RecoverStore(found: Id, seen: SmBinding) | Bind | BindStore(bound: Id)
    | Save

  /** A reconcile under way: its in-memory copy, the status it last read or wrote, and its next call. */
  datatype Proc = Proc(c: Binding, base: Status, pc: Pc)

  datatype World = World(
    bindings: map<Name, Binding>, sm: map<Id, SmBinding>, secrets: map<Name, Id>,
    procs: map<Name, Proc>, clock: nat, nextId: Id)

  /** The API server accepts a write only against the version the caller read. */
  predicate Unchanged(w: World, n: Name, c: Binding) {
    n in w.bindings && w.bindings[n].rv == c.rv
  }

  function PutStatus(w: World, n: Name, status: Status): World
    requires n in w.bindings
  {
    w.(bindings := w.bindings[n := w.bindings[n].(status := status, rv := w.clock)], clock := w.clock + 1)
  }

  /** Update writes metadata and spec and leaves the status; an object being deleted goes with its finalizer. */
  function PutMeta(w: World, n: Name, finalizer: bool, forceRotate: bool): World
    requires n in w.bindings
  {
    var o := w.bindings[n].(finalizer := finalizer, forceRotate := forceRotate, rv := w.clock);
    if o.deleting && !finalizer then w.(bindings := w.bindings - {n}, clock := w.clock + 1)
    else w.(bindings := w.bindings[n := o], clock := w.clock + 1)
  }

  /** Delete marks an object that has a finalizer and removes one that has none. */
  function DeleteObject(w: World, n: Name): World
    requires n in w.bindings
  {
    if w.bindings[n].finalizer then
      w.(bindings := w.bindings[n := w.bindings[n].(deleting := true, rv := w.clock)], clock := w.clock + 1)
    else w.(bindings := w.bindings - {n}, clock := w.clock + 1)
  }

  function NewBinding(w: World, stale: Option<Id>, orig: Option<Name>, externalName: string, policy: Option<bool>): Binding {
    Binding(w.clock, w.clock, false, false, false, stale, orig, externalName, policy, FreshStatus)
  }

  function CreateObject(w: World, n: Name, o: Binding): World {
    w.(bindings := w.bindings[n := o], clock := w.clock + 1)
  }

  function StoreSecret(w: World, n: Name, b: Id): World {
    w.(secrets := w.secrets[n := b])
  }

  function DropSecret(w: World, n: Name): World {
    w.(secrets := w.secrets - {n})
  }

  /** The answer to the recovery query: the SM bindings with this name and this _k8sname label. */
  function Matches(w: World, name: string, k8sName: Name): set<Id> {
    set b | b in w.sm && w.sm[b].name == name && w.sm[b].k8sName == Some(k8sName)
  }

  /** Recovery uses the answer only when it is a single binding. */
  ghost function OnlyMatch(w: World, name: string, k8sName: Name): (r: Option<Id>)
    ensures r.Some? <==> |Matches(w, name, k8sName)| == 1
    ensures r.Some? ==> Matches(w, name, k8sName) == {r.value}
  {
    var found := Matches(w, name, k8sName);
    if |found| == 1 then
      var b :| b in found;
      assert found == {b} + (found - {b});
      Some(b)
    else None
  }

  /** Bind registers a new binding: at once, or as a pending operation. */
  function SmBind(w: World, n: Name, name: string, async: bool): World {
    w.(sm := w.sm[w.nextId := SmBinding(name, Some(n), if async then Pending else Done, NotAsked, n)],
       nextId := w.nextId + 1)
  }

  /** Unbind succeeds at once on a binding SM does not hold. */
  function SmUnbind(w: World, b: Id, async: bool): World {
    if b !in w.sm then w
    else if async then w.(sm := w.sm[b := w.sm[b].(unbinding := Asked)])
    else w.(sm := w.sm - {b})
  }

  /** The first PATCH of a rename: a new name, and the _k8sname label removed. */
  function SmRenameFirst(w: World, b: Id, name: string): World
    requires b in w.sm
  {
    w.(sm := w.sm[b := w.sm[b].(name := name, k8sName := None)])
  }

  /** The second PATCH: the new _k8sname label. */
  function SmRenameSecond(w: World, b: Id, k8sName: Name): World
    requires b in w.sm
  {
    w.(sm := w.sm[b := w.sm[b].(k8sName := Some(k8sName))])
  }

  /** SM finishes a pending operation, one way or the other. */
  function SmFinish(w: World, b: Id, good: bool): World {
    if b !in w.sm then w
    else if w.sm[b].unbinding == Asked then
      if good then w.(sm := w.sm - {b}) else w.(sm := w.sm[b := w.sm[b].(unbinding := Refused)])
    else if w.sm[b].provisioning == Pending then
      w.(sm := w.sm[b := w.sm[b].(provisioning := if good then Done else Failed)])
    else w
  }

  datatype OpState = InProgress | Succeeded | FailedOp | NoSuchOp

  /** Status reads an operation; a delete operation that SM no longer knows counts as succeeded. */
  function SmStatus(w: World, url: OpUrl): OpState {
    match url.kind
    case Delete =>
      if url.resource !in w.sm then Succeeded
      else if w.sm[url.resource].unbinding == Refused then FailedOp else InProgress
    case Create =>
      if url.resource !in w.sm then NoSuchOp
      else match w.sm[url.resource].provisioning
           case Pending => InProgress
           case Done => Succeeded
           case Failed => FailedOp
  }
}
