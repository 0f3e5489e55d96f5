/**
 The requests the reconcile has made of SM, and which of them a stored status records.  What SM applies is
 what the last request that it carried out asked for.
 */
module InstanceLedger {
  import opened Options
  import opened Remote
  import opened InstanceWorld
  import opened InstanceReconciler
  import opened InstanceInvariant
  import opened InstanceSteps
  import opened InstanceSafety
  import opened InstanceSpecs

  /**
   History: the creation of the present instance and the updates SM accepted since, how many of them a
   status write has recorded, and whether the status about to be written records them all.  A migrated hash
   that they all agree with records them too.
   */
  datatype Ledger = Ledger(log: seq<Id>, recorded: nat, owed: bool)

  const EMPTY := Ledger([], 0, false)

  /** The reconcile replaces a hash of the former kind by that of the specification at hand. */
  predicate Migrates(p: Proc, ch: Choice) {
    p.pc.Connect? && ch.call == Ok && p.c.status.hash == Legacy && p.c.status.opUrl.None? && !p.c.deleting
  }

  /** A call of SM that was accepted enters the log; the status write that tells of it records the log. */
  ghost function Logged(w: World, h: Ledger, a: Action): Ledger {
    if a.Call? && w.proc.Some? then
      var p := w.proc.value;
      var w1 := Advance(w, a.ch);
      match p.pc
      case Provision => if w1.nextId > w.nextId then Ledger([w.nextId], 0, a.ch.call == Ok) else h
      case UpdateCall => if w1.nextId > w.nextId then Ledger(h.log + [w.nextId], h.recorded, a.ch.call == Ok) else h
      case Query => h.(owed := a.ch.call == Ok && Listed(w).Some?)
      case Connect => h.(owed := Migrates(p, a.ch) && Agree(w.ops, h.log, p.c.spec))
      case Save => if h.owed && a.ch.call != Rejected && Unchanged(w, p.c) then Ledger(h.log, |h.log|, false) else h.(owed := false)
      case _ => h
    else if a.Crash? then h.(owed := false)
    else h
  }

  /** The accepted requests that a status has recorded. */
  function Recorded(h: Ledger): seq<Id> {
    if h.recorded <= |h.log| then h.log[..h.recorded] else h.log
  }

  /** The accepted requests no status has recorded. */
  function Unrecorded(h: Ledger): seq<Id> {
    if h.recorded <= |h.log| then h.log[h.recorded..] else []
  }

  function Last(log: seq<Id>): Id
    requires log != []
  {
    log[|log| - 1]
  }

  function Before(log: seq<Id>): seq<Id>
    requires log != []
  {
    log[..|log| - 1]
  }

  function OpOf(ops: map<Id, Op>, op: Id): Op {
    if op in ops then ops[op] else Op(Create, 0, Bad, 0)
  }

  /** The specification SM applies after these requests: that of the last one carried out, else of the creation. */
  function Applies(ops: map<Id, Op>, log: seq<Id>): Spec
    requires log != []
    decreases |log|
  {
    var op := OpOf(ops, Last(log));
    if |log| == 1 || op.state == Good then op.target else Applies(ops, Before(log))
  }

  /** No request that SM carried out, or is carrying out, would make it apply anything but `spec`. */
  predicate Agree(ops: map<Id, Op>, log: seq<Id>, spec: Spec)
    decreases |log|
  {
    log == [] ||
    var op := OpOf(ops, Last(log));
    if op.kind == Create || op.state == Good then op.target == spec
    else if op.state == Running then op.target == spec && Agree(ops, Before(log), spec)
    else Agree(ops, Before(log), spec)
  }

  /** One creation and then updates, each done before the next. */
  predicate LogOk(ops: map<Id, Op>, log: seq<Id>) {
    && log != []
    && (forall k :: 0 <= k < |log| ==> log[k] in ops && (ops[log[k]].kind == Create <==> k == 0) && ops[log[k]].kind != Delete)
    && (forall k :: 0 <= k < |log| - 1 ==> ops[log[k]].state != Running && log[k] != Last(log))
  }

  /** SM applies what the log says. */
  predicate Tells(w: World, log: seq<Id>, i: Id)
    requires i in w.insts
  {
    && LogOk(w.ops, log)
    && w.insts[i].applied == Applies(w.ops, log)
    && (w.insts[i].last == Last(log)
        || (w.insts[i].last in w.ops && w.ops[w.insts[i].last].kind == Delete && w.ops[Last(log)].state == Bad))
  }

  predicate LogTells(w: World, h: Ledger) {
    w.obj.Some? && !w.obj.value.deleting ==> forall i :: i in w.insts ==> Tells(w, h.log, i)
  }

  /** The hash decides on something: no update is forced anyway, and sharing is not out of the question. */
  predicate HashUsed(s: Status) {
    s.hash.Of? && !s.force && s.sharing != Unsupported
  }

  /** A hash in the present format that decides on something is that of `spec`. */
  predicate HashOf(s: Status, spec: Spec) {
    HashUsed(s) ==> s.hash.spec == spec
  }

  predicate GoodStatus(s: Status) {
    s.succeeded.Some? && s.succeeded.value.good
  }

  /**
   The first `recorded` requests are those `s` tells of: the last of them is the running one, or with a
   success they agree with the stored hash and with the specification observed.  A deletion of a resource
   that is not being deleted cleans up after a failed request.
   */
  predicate Records(w: World, log: seq<Id>, recorded: nat, o: Instance, s: Status) {
    !o.deleting && s.id.Some? && s.id.value in w.insts ==>
      && (s.opUrl.Some? && s.opUrl.value.kind != Delete ==>
            && log != [] && recorded == |log| && s.opUrl.value.op == Last(log) && HashOf(s, OpOf(w.ops, Last(log)).target))
      && (s.opUrl.Some? && s.opUrl.value.kind == Delete ==> log != [] && OpOf(w.ops, Last(log)).state == Bad)
      && (s.opUrl.None? && GoodStatus(s) ==>
            && 0 < recorded <= |log|
            && (HashUsed(s) ==> Agree(w.ops, log[..recorded], s.hash.spec))
            && (s.LastObserved() == o.gen ==> Agree(w.ops, log[..recorded], o.spec)))
  }

  predicate StoredRecords(w: World, h: Ledger) {
    w.obj.Some? ==> Records(w, h.log, h.recorded, w.obj.value, w.obj.value.status)
  }

  /** How much of the log a write of the present reconcile would record. */
  function WouldRecord(h: Ledger): nat {
    if h.owed then |h.log| else h.recorded
  }

  predicate PcRecords(w: World, h: Ledger, p: Proc) {
    && (p.pc != Save ==> !h.owed)
    && (p.pc.Save? && Unchanged(w, p.c) ==> Records(w, h.log, WouldRecord(h), p.c, p.c.status))
    && (p.pc.Build? && p.c.status.id.None? && Unchanged(w, p.c) ==> HashOf(p.c.status, p.c.spec))
    && (p.pc.Provision? && Unchanged(w, p.c) ==> HashOf(p.c.status, p.c.spec))
    && (p.pc.ShareCall? ==>
          && p.c.status.hash == Of(p.c.spec) && !p.base.force && p.base.sharing != Unsupported
          && (p.base.hash == p.c.status.hash || p.c.gen == p.c.status.Seen()))
  }

  predicate Booked(w: World, h: Ledger) {
    h.recorded <= |h.log| && LogTells(w, h) && StoredRecords(w, h)
  }

  predicate LedgerOk(w: World, h: Ledger) {
    Booked(w, h) && (if w.proc.Some? then PcRecords(w, h, w.proc.value) else !h.owed)
  }

  // ----- the hypotheses: all of them are read off the copy, the request log and the answers

  /** The latest request asked for `spec`. */
  predicate AskedFor(w: World, h: Ledger, spec: Spec) {
    h.log != [] && OpOf(w.ops, Last(h.log)).target == spec
  }

  predicate LawfulCall(w: World, h: Ledger, p: Proc, ch: Choice) {
    var c := p.c;
    Unchanged(w, c) ==>
      // no error of the SM client or of Status() during an operation for another specification
      && ((p.pc.Connect? || p.pc.PollStatus?) && ch.call != Ok && Pursues(w, c.status) && !c.deleting ==> AskedFor(w, h, c.spec))
      // no migration of the hash once neither the recorded requests nor all of them were for the specification at hand
      && (Migrates(p, ch) && GoodStatus(c.status) && c.status.id.Some? && c.status.id.value in w.insts ==>
            Agree(w.ops, Recorded(h), c.spec) || Agree(w.ops, h.log, c.spec))
      // no recovery of an instance asked for with another specification
      && (p.pc.Query? ==> FoundCurrent(w, c))
      // no change of labels before a creation while the hash of another specification is stored
      && (p.pc.Build? && ch.relabel && c.status.id.None? ==> HashOf(p.base, c.spec))
      // no sharing after an update for another specification whose record was lost
      && (p.pc.ShareCall? ==> Agree(w.ops, Unrecorded(h), c.spec))
  }

  predicate Lawful(w: World, h: Ledger, a: Action) {
    a.Call? && w.proc.Some? ==> LawfulCall(w, h, w.proc.value, a.ch)
  }

  // ----- what the log says

  lemma {:induction false} NothingRunning(ops: map<Id, Op>, log: seq<Id>, spec: Spec)
    requires log != [] && (forall k :: 0 <= k < |log| ==> log[k] in ops && (ops[log[k]].kind == Create <==> k == 0))
    requires forall k :: 0 <= k < |log| ==> ops[log[k]].state != Running
    ensures Agree(ops, log, spec) <==> Applies(ops, log) == spec
    decreases |log|
  {
    if |log| > 1 {
      NothingRunning(ops, Before(log), spec);
    }
  }

  /** SM applies `spec`, with nothing else under way, exactly when the log agrees with it. */
  lemma FaithfulIff(w: World, log: seq<Id>, i: Id, spec: Spec)
    requires i in w.insts && Tells(w, log, i)
    ensures Faithful(w, i, spec) <==> Agree(w.ops, log, spec)
  {
    if |log| > 1 {
      NothingRunning(w.ops, Before(log), spec);
    }
  }

  /** Once the first requests agree with `spec`, only the later ones matter. */
  lemma {:induction false} AgreeSplit(ops: map<Id, Op>, log: seq<Id>, recorded: nat, spec: Spec)
    requires 0 < recorded <= |log| && Agree(ops, log[..recorded], spec)
    requires forall k :: recorded <= k < |log| ==> OpOf(ops, log[k]).kind != Create
    ensures Agree(ops, log, spec) <==> Agree(ops, log[recorded..], spec)
    decreases |log|
  {
    if recorded < |log| {
      assert Last(log[recorded..]) == Last(log);
      assert Before(log[recorded..]) == Before(log)[recorded..];
      assert Before(log)[..recorded] == log[..recorded];
      AgreeSplit(ops, Before(log), recorded, spec);
    } else {
      assert log[recorded..] == [] && log[..recorded] == log;
    }
  }

  /** What the log agrees with does not change when an operation of it finishes. */
  lemma {:induction false} AgreeLater(ops: map<Id, Op>, ops1: map<Id, Op>, log: seq<Id>, spec: Spec)
    requires Agree(ops, log, spec)
    requires forall k :: 0 <= k < |log| ==>
               var op, op1 := OpOf(ops, log[k]), OpOf(ops1, log[k]);
               op1 == op || (op.state == Running && op1.kind == op.kind && op1.target == op.target)
    ensures Agree(ops1, log, spec)
    decreases |log|
  {
    if log != [] {
      if Agree(ops, Before(log), spec) {
        AgreeLater(ops, ops1, Before(log), spec);
      }
      assert OpOf(ops, Last(log)) == OpOf(ops, log[|log| - 1]);
    }
  }

  lemma {:induction false} AppliesApart(ops: map<Id, Op>, ops1: map<Id, Op>, log: seq<Id>)
    requires log != [] && forall k :: 0 <= k < |log| ==> OpOf(ops1, log[k]) == OpOf(ops, log[k])
    ensures Applies(ops1, log) == Applies(ops, log)
    decreases |log|
  {
    if |log| > 1 {
      AppliesApart(ops, ops1, Before(log));
    }
  }

  /** Sharing is sound exactly when no unrecorded update was for another specification. */
  lemma ShareFaithful(w: World, h: Ledger, p: Proc)
    requires At(w, p) && LedgerOk(w, h) && w.proc == Some(p) && p.pc == ShareCall && Unchanged(w, p.c)
    requires GoodStatus(p.c.status) && p.c.status.id.value in w.insts
    ensures Faithful(w, p.c.status.id.value, p.c.spec) <==> Agree(w.ops, Unrecorded(h), p.c.spec)
  {
    var c := p.c;
    var i := c.status.id.value;
    assert w.obj.value == c.(status := p.base) by { ShareCopy(w, p); }
    assert p.base.opUrl.None? && !c.deleting && c.status == p.base.(hash := c.status.hash) by { ShareCopy(w, p); }
    FaithfulIff(w, h.log, i, c.spec);
    AgreeSplit(w.ops, h.log, h.recorded, c.spec);
  }

  lemma ShareCopy(w: World, p: Proc)
    requires At(w, p) && p.pc == ShareCall && Unchanged(w, p.c)
    ensures w.obj == Some(p.c.(status := p.base)) && p.base.opUrl.None? && !p.c.deleting && p.c.status == p.base.(hash := p.c.status.hash)
    ensures p.c.status.id.Some?
  {
    hide SmOk, ObjOk, StatusShape;
  }

  /** A recorded create or update is the latest request. */
  lemma AskedCurrent(w: World, h: Ledger, p: Proc)
    requires At(w, p) && LedgerOk(w, h) && Unchanged(w, p.c) && (p.pc == Connect || p.pc == PollStatus)
    requires Pursues(w, p.c.status) && !p.c.deleting ==> AskedFor(w, h, p.c.spec)
    ensures OpCurrent(w, p.c, p.c.status)
  {
    PollCopy(w, p);
  }

  lemma PollCopy(w: World, p: Proc)
    requires At(w, p) && Unchanged(w, p.c) && (p.pc == Connect || p.pc == PollStatus)
    ensures w.obj == Some(p.c) && StatusShape(p.c.status, p.c.deleting)
  {
    hide SmOk, ObjOk;
  }
}
