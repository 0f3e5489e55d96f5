/** A poll reports its operation for the generation it was started for, whatever was edited meanwhile. */
module InstanceGenerations {
  import opened Options
  import opened Remote
  import opened InstanceWorld
  import opened InstanceReconciler
  import opened InstanceInvariant
  import opened InstanceSteps
  import opened InstanceSafety

  /** The next reconcile of this resource polls. */
  predicate Polls(o: Instance) {
    o.status.opUrl.Some? && (o.status.opType == Some(Delete) || !o.deleting)
  }

  /** A reconcile that polls, and writes nothing newer than the generation `g`. */
  predicate PollingAt(p: Proc, g: nat) {
    && p.c.status.LastObserved() <= g && p.base.LastObserved() <= g
    && match p.pc
       case Connect => Polls(p.c)
       case PollStatus | PollFetch | PollRemoveFinalizer | CleanupCall | DirectSave | Save => true
       case _ => false
  }

  /** Neither what is stored nor what a poll will write is newer than `g`. */
  predicate UpTo(w: World, g: nat) {
    && (w.obj.Some? ==> w.obj.value.status.LastObserved() <= g && w.obj.value.status.observed <= g)
    && (w.proc.Some? ==> PollingAt(w.proc.value, g))
  }

  /** The calls of the poll are answered; everybody else does as they please. */
  predicate AnsweredPoll(w: World, a: Action) {
    match a
    case Start => false
    case Call(ch) =>
      w.proc.Some? ==>
        ch.call == Ok &&
        (w.proc.value.pc == PollStatus && w.proc.value.c.status.opUrl.Some? ==> SmStatus(w, w.proc.value.c.status.opUrl.value).Some?)
    case _ => true
  }

  lemma GoUpTo(w: World, c: Instance, base: Status, pc: Pc, g: nat)
    requires UpTo(w, g) && PollingAt(Proc(c, base, pc), g)
    ensures UpTo(Go(w, c, base, pc), g)
  {
  }

  lemma StopUpTo(w: World, g: nat)
    requires UpTo(w, g)
    ensures UpTo(Stop(w), g)
  {
  }

  lemma ConnectUpTo(w: World, p: Proc, ch: Choice, g: nat)
    requires UpTo(w, g) && PollingAt(p, g) && p.pc == Connect && ch.call == Ok
    ensures UpTo(AdvanceConnect(w, p, ch), g)
  {
    hide UpTo;
    GoUpTo(w, p.c, p.base, PollStatus, g);
  }

  lemma PollStatusUpTo(w: World, p: Proc, ch: Choice, g: nat)
    requires UpTo(w, g) && PollingAt(p, g) && p.pc == PollStatus && ch.call == Ok
    requires p.c.status.opUrl.Some? ==> SmStatus(w, p.c.status.opUrl.value).Some?
    ensures UpTo(AdvancePollStatus(w, p, ch), g)
  {
    hide UpTo, SmStatus, Fail, Go, Stop, Polls;
    StopUpTo(w, g);
    if p.c.status.opUrl.Some? {
      var c := p.c;
      var at := c.status.LastObserved();
      var kind := c.status.opUrl.value.kind;
      GoUpTo(w, c.(status := c.status.InProgress(kind, c.gen, at)), p.base, Save, g);
      GoUpTo(w, c.(status := c.status.Failure(c.gen, at)), p.base, CleanupCall, g);
      GoUpTo(w, c.(status := c.status.Failure(c.gen, at).NoOperation()), p.base, Save, g);
      GoUpTo(w, c, p.base, PollFetch, g);
      GoUpTo(w, c, p.base, PollRemoveFinalizer, g);
      GoUpTo(w, c.(status := c.status.Success(at).NoOperation()), p.base, Save, g);
    }
  }

  lemma PollFetchUpTo(w: World, p: Proc, ch: Choice, g: nat)
    requires UpTo(w, g) && PollingAt(p, g) && p.pc == PollFetch
    ensures UpTo(AdvancePollFetch(w, p, ch), g)
  {
    hide UpTo, Go, Stop, Polls;
    StopUpTo(w, g);
    GoUpTo(w, p.c.(status := p.c.status.Success(p.c.status.LastObserved()).NoOperation()), p.base, Save, g);
  }

  lemma MetaUpTo(w: World, finalizer: bool, g: nat)
    requires UpTo(w, g) && w.obj.Some?
    ensures UpTo(PutMeta(w, finalizer), g)
  {
  }

  lemma PollRemoveUpTo(w: World, p: Proc, ch: Choice, g: nat)
    requires UpTo(w, g) && PollingAt(p, g) && p.pc == PollRemoveFinalizer
    ensures UpTo(AdvancePollRemoveFinalizer(w, p, ch), g)
  {
    hide UpTo, Go, Stop, Polls, PutMeta;
    StopUpTo(w, g);
    GoUpTo(w, p.c.(status := p.c.status.(id := None).NoOperation()), p.base, Save, g);
    if w.obj.Some? {
      var w1 := PutMeta(w, false);
      MetaUpTo(w, false, g);
      StopUpTo(w1, g);
      GoUpTo(w1, p.c.(finalizer := false, rv := w.clock, status := p.base.(id := None).NoOperation()), p.base, Save, g);
    }
  }

  lemma DeprovisionUpTo(w: World, i: Id, async: bool, g: nat)
    requires UpTo(w, g)
    ensures UpTo(SmDeprovision(w, i, async), g)
  {
  }

  lemma CleanupUpTo(w: World, p: Proc, ch: Choice, g: nat)
    requires UpTo(w, g) && PollingAt(p, g) && p.pc == CleanupCall && ch.call == Ok
    ensures UpTo(AdvanceCleanup(w, p, ch), g)
  {
    hide UpTo, Go, Stop, Polls, SmDeprovision;
    StopUpTo(w, g);
    if p.c.status.id.Some? {
      var i := p.c.status.id.value;
      DeprovisionUpTo(w, i, ch.async, g);
      var w1 := SmDeprovision(w, i, ch.async);
      GoUpTo(w1, p.c.(status := p.c.status.Operating(OpUrl(Delete, i, w.nextId))), p.base, Save, g);
      GoUpTo(w1, p.c.(status := p.c.status.NoOperation().(id := None)), p.base, DirectSave, g);
    }
  }

  lemma SaveUpTo(w: World, p: Proc, ch: Choice, g: nat)
    requires UpTo(w, g) && PollingAt(p, g)
    ensures p.pc == Save ==> UpTo(WriteStatus(w, p, ch, UpdateStatus(p.c.status), None), g)
    ensures p.pc == DirectSave && p.c.status.observed <= g ==> UpTo(WriteStatus(w, p, ch, p.c.status, None), g)
  {
    hide Polls;
  }

  /** The direct write of the cleanup stores an observed generation as well; it is the one that was read. */
  lemma DirectObserved(w: World, p: Proc)
    requires At(w, p) && p.pc == DirectSave
    ensures p.c.status.observed == p.base.LastObserved()
  {
    hide SmOk, ObjOk, CopyOk;
  }

  lemma CallUpTo(w: World, p: Proc, ch: Choice, g: nat)
    requires At(w, p) && w.proc == Some(p) && UpTo(w, g) && AnsweredPoll(w, Call(ch))
    ensures UpTo(Advance(w, ch), g)
  {
    assert PollingAt(p, g);
    hide UpTo, At, Polls, SmStatus, AdvanceConnect, AdvancePollStatus, AdvancePollFetch, AdvancePollRemoveFinalizer, AdvanceCleanup, WriteStatus;
    match p.pc
    case Connect => ConnectUpTo(w, p, ch, g);
    case PollStatus => PollStatusUpTo(w, p, ch, g);
    case PollFetch => PollFetchUpTo(w, p, ch, g);
    case PollRemoveFinalizer => PollRemoveUpTo(w, p, ch, g);
    case CleanupCall => CleanupUpTo(w, p, ch, g);
    case DirectSave => DirectObserved(w, p); SaveUpTo(w, p, ch, g);
    case Save => SaveUpTo(w, p, ch, g);
  }

  lemma OthersUpTo(w: World, a: Action, g: nat)
    requires Inv(w) && UpTo(w, g) && !a.Start? && !a.Call?
    ensures UpTo(Step(w, a), g)
  {
    InvAt(w);
    hide Inv, Advance, SmOk, StatusShape, Recorded, Holds, PollingAt;
  }

  lemma StepUpTo(w: World, a: Action, g: nat)
    requires Inv(w) && UpTo(w, g) && AnsweredPoll(w, a)
    ensures UpTo(Step(w, a), g)
  {
    InvAt(w);
    hide Inv, UpTo, At, SmOk, ObjOk, Advance;
    if a.Call? {
      if w.proc.Some? {
        CallUpTo(w, w.proc.value, a.ch, g);
      }
    } else {
      OthersUpTo(w, a, g);
    }
  }

  ghost predicate AnsweredPolls(w: World, actions: seq<Action>)
    decreases |actions|
  {
    actions == [] || (AnsweredPoll(w, actions[0]) && AnsweredPolls(Step(w, actions[0]), actions[1..]))
  }

  lemma {:induction false} RunUpTo(w: World, actions: seq<Action>, g: nat)
    requires Inv(w) && UpTo(w, g) && AnsweredPolls(w, actions)
    ensures UpTo(Run(w, actions), g)
    decreases |actions|
  {
    hide Inv, UpTo, AnsweredPoll, Step;
    if actions != [] {
      StepKeeps(w, actions[0]);
      StepUpTo(w, actions[0], g);
      RunUpTo(Step(w, actions[0]), actions[1..], g);
    }
  }

  /**
   A poll whose calls are answered, whatever they say and whatever users, SM and the secret controller do
   meanwhile, never makes the stored observed generation newer than it was.
   */
  lemma PollKeepsGeneration(w: World, actions: seq<Action>)
    requires Reachable(w) && w.proc.None? && w.obj.Some? && Polls(w.obj.value)
    requires AnsweredPolls(Step(w, Start), actions)
    ensures var w1 := Run(Step(w, Start), actions);
      w1.obj.Some? ==> w1.obj.value.status.observed <= w.obj.value.status.observed
  {
    ReachableInv(w);
    var g := w.obj.value.status.observed;
    assert UpTo(Step(w, Start), g) by { hide Inv, Reachable, SmOk; }
    StepKeeps(w, Start);
    hide Inv, Reachable, Step, SmOk, ObjOk;
    RunUpTo(Step(w, Start), actions, g);
  }
}
