/** What every reachable World satisfies, between any two calls of any reconciles. */
module BindingInvariant {
  import opened Options
  import opened Remote
  import opened BindingWorld
  import opened BindingReconciler

  type Bindings = map<Name, Binding>
  type Sm = map<Id, SmBinding>
  type Secrets = map<Name, Id>

  /** A resource that is not the backup of a rotated binding. */
  predicate Original(bs: Bindings, n: Name) {
    n in bs && bs[n].stale.None?
  }

  predicate Backs(bs: Bindings, m: Name, b: Id) {
    m in bs && bs[m].stale == Some(b)
  }

  predicate Holds(bs: Bindings, n: Name, b: Id) {
    n in bs && bs[n].status.id == Some(b)
  }

  /** SM attributes `b` to the resource named `n`. */
  predicate Named(sm: Sm, b: Id, n: Name) {
    b in sm && sm[b].k8sName == Some(n)
  }

  /** Created, and never unbound. */
  predicate Live(sm: Sm, b: Id) {
    b in sm && sm[b].provisioning == Done && sm[b].unbinding == NotAsked
  }

  /** The resource `n` knows `b`, or would find it by its recovery query. */
  predicate Keeps(bs: Bindings, sm: Sm, n: Name, b: Id) {
    Holds(bs, n, b) || (n in bs && bs[n].status.id.None? && Named(sm, b, n))
  }

  predicate StatusShape(s: Status, deleting: bool) {
    && (s.opUrl.Some? <==> s.opType.Some?)
    && (s.opUrl.Some? ==> s.opType == Some(s.opUrl.value.kind))
    && (s.opUrl.Some? && s.id.Some? ==> s.opUrl.value.resource == s.id.value)
    && (s.opUrl.Some? && s.id.None? ==> deleting && s.opUrl.value.kind == Create)
    && (s.ready <==> s.readyCond == Some(true))
    && (s.ready && (s.id.None? || s.opUrl.Some?) ==> deleting)
  }

  predicate BackupShape(n: Name, o: Binding) {
    o.stale.Some? ==>
      && o.orig.Some? && o.orig.value != n
      && o.status.rotation == NotRotating && o.policy != Some(true)
  }

  ghost predicate Bounded(w: World) {
    && (forall b :: b in w.sm ==> b < w.nextId)
    && (forall n :: n in w.secrets ==> n in w.bindings)
    && (forall n :: n in w.bindings ==>
          && w.bindings[n].rv < w.clock && w.bindings[n].uid < w.clock
          && (w.bindings[n].status.id.Some? ==> w.bindings[n].status.id.value < w.nextId)
          && (w.bindings[n].stale.Some? ==> w.bindings[n].stale.value < w.nextId))
  }

  ghost predicate ShapesOk(bs: Bindings) {
    forall n :: n in bs ==>
      && StatusShape(bs[n].status, bs[n].deleting)
      && BackupShape(n, bs[n])
      && (bs[n].deleting ==> bs[n].finalizer)
  }

  /** No two SM bindings carry the same _k8sname. */
  ghost predicate OneName(sm: Sm) {
    forall b1, b2, n :: Named(sm, b1, n) && Named(sm, b2, n) ==> b1 == b2
  }

  ghost predicate NamesOk(bs: Bindings, sm: Sm) {
    forall b, n :: Named(sm, b, n) && n in bs ==>
      && sm[b].name == bs[n].externalName
      && (sm[b].creator == n || Backs(bs, n, b))
  }

  /** An original holds its own creation, under its own name or on the way to a backup. */
  ghost predicate OriginalsOk(bs: Bindings, sm: Sm) {
    forall n, b :: Original(bs, n) && Holds(bs, n, b) && b in sm ==>
      && sm[b].creator == n
      && forall x :: Named(sm, b, x) && x in bs && x != n ==> Backs(bs, x, b)
  }

  ghost predicate OneHolder(bs: Bindings) {
    forall n, m, b :: Original(bs, n) && Original(bs, m) && Holds(bs, n, b) && Holds(bs, m, b) ==> n == m
  }

  ghost predicate OnlyHeld(bs: Bindings, sm: Sm) {
    forall n, b, b' :: Holds(bs, n, b) && Named(sm, b', n) ==> b' == b
  }

  /** A backup's label and its id are known to SM under the backup's names. */
  ghost predicate BackupsMatch(bs: Bindings, sm: Sm) {
    && (forall m, b :: Backs(bs, m, b) && b in sm ==> Named(sm, b, m) && bs[m].orig == Some(sm[b].creator))
    && (forall m, b :: Holds(bs, m, b) && !Original(bs, m) && b in sm ==> Named(sm, b, m))
  }

  /** The original `o` neither holds `b` nor shows its credentials. */
  predicate Retired(bs: Bindings, secrets: Secrets, o: Name, b: Id) {
    Original(bs, o) && !bs[o].deleting ==>
      !Holds(bs, o, b) && !(o in secrets && secrets[o] == b)
  }

  ghost predicate BackupsRetired(bs: Bindings, secrets: Secrets) {
    forall m, b :: Backs(bs, m, b) && bs[m].deleting ==> Retired(bs, secrets, bs[m].orig.GetOr(""), b)
  }

  ghost predicate OneBackup(bs: Bindings) {
    forall m, m', b :: Backs(bs, m, b) && Backs(bs, m', b) ==> m == m'
  }

  ghost predicate FinalizersOk(bs: Bindings, sm: Sm, secrets: Secrets) {
    forall n :: n in bs && !bs[n].finalizer ==>
      && n !in secrets
      && (forall b :: Holds(bs, n, b) ==> b !in sm)
      && (Original(bs, n) ==> forall b :: !Named(sm, b, n))
  }

  /** What a synchronous delete leaves behind in a status without an id names nothing SM holds. */
  ghost predicate LeftoversOk(bs: Bindings, sm: Sm) {
    forall n, b :: n in bs && bs[n].status.id.None? && (bs[n].status.opUrl.Some? || bs[n].status.ready) ==> !Named(sm, b, n)
  }

  ghost predicate Tracked(bs: Bindings, sm: Sm) {
    forall b :: b in sm ==> exists n :: Keeps(bs, sm, n, b)
  }

  ghost predicate ReadyOk(bs: Bindings, sm: Sm, secrets: Secrets) {
    forall n, b :: Original(bs, n) && bs[n].status.ready && Holds(bs, n, b) ==>
      (n in secrets ==> secrets[n] == b) && (b in sm ==> sm[b].provisioning == Done)
  }

  /** Only deletion, and the cleanup of a failed creation, unbind what an original answers for. */
  ghost predicate AskedOk(bs: Bindings, sm: Sm) {
    forall n, b :: Original(bs, n) && b in sm && sm[b].unbinding != NotAsked && (Holds(bs, n, b) || Named(sm, b, n)) ==>
      && Holds(bs, n, b)
      && (bs[n].deleting || sm[b].provisioning == Failed)
  }

  ghost predicate SecretsOk(bs: Bindings, sm: Sm, secrets: Secrets) {
    forall n :: Original(bs, n) && !bs[n].deleting && n in secrets ==>
      Live(sm, secrets[n]) && sm[secrets[n]].creator == n
  }

  ghost predicate Global(w: World) {
    && Bounded(w)
    && ShapesOk(w.bindings)
    && OneName(w.sm)
    && NamesOk(w.bindings, w.sm)
    && OriginalsOk(w.bindings, w.sm)
    && OneHolder(w.bindings)
    && OnlyHeld(w.bindings, w.sm)
    && BackupsMatch(w.bindings, w.sm)
    && BackupsRetired(w.bindings, w.secrets)
    && OneBackup(w.bindings)
    && FinalizersOk(w.bindings, w.sm, w.secrets)
    && LeftoversOk(w.bindings, w.sm)
    && Tracked(w.bindings, w.sm)
    && ReadyOk(w.bindings, w.sm, w.secrets)
    && AskedOk(w.bindings, w.sm)
    && SecretsOk(w.bindings, w.sm, w.secrets)
  }

  // ----- what a reconcile under way may rely on

  predicate Current(bs: Bindings, n: Name, c: Binding) {
    n in bs && bs[n].uid == c.uid
  }

  /** The credentials of `b` may be shown by `n`. */
  predicate Usable(bs: Bindings, sm: Sm, n: Name, b: Id) {
    Original(bs, n) && !bs[n].deleting ==> Live(sm, b) && sm[b].creator == n
  }

  ghost predicate Nameless(sm: Sm, n: Name) {
    forall b :: !Named(sm, b, n)
  }

  /** `n`, which has no id, may take `b` as its own. */
  ghost predicate Adoptable(bs: Bindings, sm: Sm, n: Name, b: Id) {
    && (forall b' :: Named(sm, b', n) ==> b' == b)
    && (b in sm ==> Named(sm, b, n))
    && (Original(bs, n) ==> b in sm && sm[b].unbinding == NotAsked)
  }

  predicate Created(sm: Sm, b: Id) {
    b in sm ==> sm[b].provisioning == Done
  }

  /** A change of id is an adoption, a deletion seen through, or a rotation with its backup in place. */
  ghost predicate IdWritable(bs: Bindings, sm: Sm, n: Name, c: Binding, base: Status, status: Status) {
    status.id != base.id ==>
      if base.id.None? then c.finalizer && Adoptable(bs, sm, n, status.id.value)
      else status.id.None? && (base.id.value !in sm || (c.stale.None? && !c.deleting && HasBackup(bs, base.id.value)))
  }

  /** `status` may replace `base` in the resource `n`, whose copy is `c`. */
  ghost predicate Writable(w: World, n: Name, c: Binding, base: Status, status: Status) {
    && StatusShape(status, c.deleting)
    && (c.stale.Some? ==> status.rotation == NotRotating)
    && (status.id.Some? ==> status.id.value < w.nextId)
    && (status.id.None? && (status.opUrl.Some? || status.ready) ==> Nameless(w.sm, n))
    && IdWritable(w.bindings, w.sm, n, c, base, status)
    && (status.ready && status.id.Some? && c.stale.None? ==>
          (n in w.secrets ==> w.secrets[n] == status.id.value) && Created(w.sm, status.id.value))
  }

  /** A rotation of `n` towards the backup name `x` has the field to itself. */
  ghost predicate Planned(bs: Bindings, sm: Sm, c: Binding, b: Id, x: Name) {
    c.stale.None? && !HasBackup(bs, b) && x !in bs && (forall b' :: Named(sm, b', x) ==> b' == b)
  }

  predicate Untouched(p: Proc) {
    p.c.status == p.base
  }

  /** Past the point where the finalizer is stored, with nothing running and no deletion seen. */
  predicate Settled(p: Proc) {
    p.c.finalizer && !p.c.deleting && p.base.opUrl.None?
  }

  ghost predicate PcOk(w: World, n: Name, p: Proc) {
    var c := p.c;
    var id := p.c.status.id;
    match p.pc
    case InitConditions => Untouched(p) && (c.deleting ==> c.finalizer)
    case FetchInstance => Untouched(p) && (c.deleting ==> c.finalizer)
    case PollStatus => Untouched(p) && c.status.opUrl.Some? && id.Some? && (c.status.opUrl.value.kind == Create ==> !c.deleting)
    case PollProbe => Untouched(p) && c.status.opType == Some(Delete) && id.Some?
    case PollFetch =>
      && Untouched(p) && c.finalizer && !c.deleting && id.Some? && c.status.opType == Some(Create) && Created(w.sm, id.value)
    case PollStore =>
      && Untouched(p) && c.finalizer && !c.deleting && id.Some? && c.status.opType == Some(Create) && Created(w.sm, id.value)
      && Usable(w.bindings, w.sm, n, id.value)
    case PollDropSecret => Untouched(p) && c.status.opType == Some(Delete) && id.Some? && id.value !in w.sm
    case PollRemoveFinalizer =>
      && Untouched(p) && c.status.opType == Some(Delete) && id.Some? && id.value !in w.sm
      && (c.finalizer ==> n !in w.secrets)
    case CleanupUnbind =>
      && c.status == p.base.Unsucceeded() && c.finalizer && id.Some? && c.status.opType.Some?
      && (id.value in w.sm ==> w.sm[id.value].provisioning == Failed || w.sm[id.value].unbinding != NotAsked)
    case DeleteQuery => Untouched(p) && c.finalizer && c.deleting && id.None?
    case DeleteUnbind => Untouched(p) && c.finalizer && c.deleting && id.Some? && c.status.opType != Some(Delete)
    case DeleteSave =>
      && c.status == p.base.WithoutId() && c.finalizer && c.deleting && c.status.opType != Some(Delete)
      && p.base.id.Some? && p.base.id.value !in w.sm
    case DeleteDropSecret => Untouched(p) && c.finalizer && c.deleting && id.None? && Nameless(w.sm, n)
    case DeleteRemoveFinalizer =>
      Untouched(p) && c.finalizer && c.deleting && id.None? && Nameless(w.sm, n) && n !in w.secrets
    case CheckExists => Untouched(p) && !c.deleting && c.status.opUrl.None? && id.Some?
    case AddFinalizer => Untouched(p) && !c.deleting && c.status.opUrl.None?
    case RotateAnnotation => Untouched(p) && Settled(p)
    case ReadyCheck => Untouched(p) && Settled(p)
    case RotateList => Untouched(p) && Settled(p) && id.Some? && c.stale.None?
    case RenameFirst(s) =>
      Untouched(p) && Settled(p) && id.Some? && Planned(w.bindings, w.sm, c, id.value, n + s) && Nameless(w.sm, n + s)
    case RenameSecond(s) =>
      && Untouched(p) && Settled(p) && id.Some? && Planned(w.bindings, w.sm, c, id.value, n + s)
      && (id.value in w.sm ==> w.sm[id.value].name == c.externalName + s && w.sm[id.value].k8sName.None?)
    case CreateBackup(s) =>
      && Untouched(p) && Settled(p) && id.Some? && Planned(w.bindings, w.sm, c, id.value, n + s)
      && (id.value in w.sm ==> w.sm[id.value].name == c.externalName + s && w.sm[id.value].k8sName == Some(n + s))
    case RotateSave => Settled(p) && c.status.opUrl.None? && (Unchanged(w, n, c) ==> Writable(w, n, c, p.base, c.status))
    case FetchOriginal => Untouched(p) && c.finalizer && c.stale.Some?
    case DeleteSelf => c.finalizer && c.stale.Some? && Retired(w.bindings, w.secrets, c.orig.GetOr(""), c.stale.value)
    case Maintain => Untouched(p) && Settled(p) && c.status.ready && id.Some?
    case MaintainStore =>
      && Untouched(p) && Settled(p) && c.status.ready && id.Some? && Created(w.sm, id.value)
      && Usable(w.bindings, w.sm, n, id.value)
    case Query => Untouched(p) && Settled(p) && id.None?
    case Bind => Untouched(p) && Settled(p) && id.None? && Nameless(w.sm, n)
    case RecoverStore(b, seen) =>
      && Untouched(p) && Settled(p) && id.None? && b < w.nextId && Adoptable(w.bindings, w.sm, n, b)
      && Usable(w.bindings, w.sm, n, b) && Created(w.sm, b)
    case BindStore(b) =>
      && Untouched(p) && Settled(p) && id.None? && b < w.nextId && Adoptable(w.bindings, w.sm, n, b)
      && Usable(w.bindings, w.sm, n, b) && Created(w.sm, b)
    case Save => Unchanged(w, n, c) ==> Writable(w, n, c, p.base, c.status)
  }

  /** The in-memory copy of a reconcile agrees with the stored object as long as that is the same one. */
  predicate CopyOk(bs: Bindings, n: Name, c: Binding, base: Status) {
    && (Current(bs, n, c) ==>
          && bs[n].status == base
          && bs[n].stale == c.stale && bs[n].orig == c.orig && bs[n].externalName == c.externalName
          && (c.deleting ==> bs[n].deleting))
    && (n in bs && bs[n].rv == c.rv ==> bs[n] == c.(status := base))
    && (c.finalizer ==> Current(bs, n, c) && bs[n].finalizer)
  }

  /** What a reconcile knows wherever it stands. */
  predicate CoreOk(w: World, n: Name, c: Binding, base: Status) {
    && c.rv < w.clock && c.uid < w.clock
    && (base.id.Some? ==> base.id.value < w.nextId)
    && StatusShape(base, c.deleting)
    && BackupShape(n, c.(status := base))
    && CopyOk(w.bindings, n, c, base)
    && (!c.finalizer && base.id.Some? ==> base.id.value !in w.sm)
  }

  ghost predicate ProcOk(w: World, n: Name, p: Proc) {
    CoreOk(w, n, p.c, p.base) && PcOk(w, n, p)
  }

  function PlanName(n: Name, pc: Pc): Option<Name> {
    match pc
    case RenameFirst(s) => Some(n + s)
    case RenameSecond(s) => Some(n + s)
    case CreateBackup(s) => Some(n + s)
    case _ => None
  }

  /** No two rotations plan the same backup name. */
  ghost predicate PlansOk(procs: map<Name, Proc>) {
    forall n, m :: n in procs && m in procs && n != m && PlanName(n, procs[n].pc).Some? ==>
      PlanName(n, procs[n].pc) != PlanName(m, procs[m].pc)
  }

  ghost predicate Others(w: World, n: Name) {
    forall m :: m in w.procs && m != n ==> ProcOk(w, m, w.procs[m])
  }

  ghost predicate Inv(w: World) {
    Global(w) && PlansOk(w.procs) && forall n :: n in w.procs ==> ProcOk(w, n, w.procs[n])
  }
}
