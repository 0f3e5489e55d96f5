/** The retry store beside the instance reconciler: its gate keeps every reconcile away from SM until the backoff is over. */
module InstanceRetries {
  import opened Options
  import opened Remote
  import opened RetryStore
  import opened InstanceWorld
  import opened InstanceReconciler
  import opened InstanceSafety

  datatype Policy = Policy(base: nat, max: nat, wrapped: int)

  /** The entry of the resource in the store, and the times of its failures since the last success. */
  datatype Timed = Timed(w: World, now: int, retry: Option<RetryState>, times: seq<int>)

  /** Time passes; something happens; or the operator restarts with an empty store. */
  datatype Event = Tick(d: nat) | Acts(a: Action) | Restart

  /** A poll that finds a creation, or its cleanup, failed. */
  predicate Fails(w: World, ch: Choice) {
    w.proc.Some? && w.proc.value.pc == PollStatus && ch.call == Ok &&
    var c := w.proc.value.c;
    c.status.opUrl.Some? && SmStatus(w, c.status.opUrl.value) == Some(Bad)
    && (c.status.opUrl.value.kind == Create || (c.status.opUrl.value.kind == Delete && !c.deleting))
  }

  /** A creation done at once, or a poll that sees an operation through. */
  predicate Succeeds(w: World, ch: Choice) {
    w.proc.Some? &&
    var p := w.proc.value;
    match p.pc
    case Provision => ch.call == Ok && !ch.async
    case PollStatus =>
      ch.call == Ok && p.c.status.opUrl.Some? && p.c.status.opUrl.value.kind == Update
      && SmStatus(w, p.c.status.opUrl.value) == Some(Good)
    case PollFetch => ch.call == Ok && p.c.status.id.Some? && p.c.status.id.value in w.insts
    case PollRemoveFinalizer => !p.c.finalizer || (ch.call == Ok && Unchanged(w, p.c))
    case _ => false
  }

  /** A reconcile begins only when the gate is open. */
  ghost function Next(p: Policy, t: Timed, e: Event): Timed {
    match e
    case Tick(d) => t.(now := t.now + d)
    case Restart => t.(w := Stop(t.w), retry := None, times := [])
    case Acts(a) =>
      if a.Start? && !Open(t.retry, t.now) then t
      else
        var w1 := Step(t.w, a);
        if a.Call? && Fails(t.w, a.ch) then
          t.(w := w1, retry := Some(Registered(t.retry, p.base, p.max, p.wrapped, t.now, "")), times := t.times + [t.now])
        else if a.Call? && Succeeds(t.w, a.ch) then t.(w := w1, retry := None, times := [])
        else t.(w := w1)
  }

  ghost function NextAll(p: Policy, t: Timed, events: seq<Event>): Timed
    decreases |events|
  {
    if events == [] then t else NextAll(p, Next(p, t, events[0]), events[1..])
  }

  /** The reconcile has just registered a failure, cleans up after it, and ends; or it only has its status left to write. */
  predicate Ending(pc: Pc) {
    pc == CleanupCall || pc == DirectSave || pc == Save
  }

  predicate GateOk(p: Policy, t: Timed) {
    && t.retry == AfterFailures(p.base, p.max, p.wrapped, t.times)
    && Gated(p.base, p.max, p.wrapped, t.times)
    && (t.w.proc.Some? && !Ending(t.w.proc.value.pc) ==> Open(t.retry, t.now))
  }

  /** A reconcile that is ending stays so, and one that registers a failure is. */
  predicate EndsOnly(w: World, w1: World, fails: bool) {
    w1.proc.Some? && !Ending(w1.proc.value.pc) ==> w.proc.Some? && !Ending(w.proc.value.pc) && !fails
  }

  lemma PollEnds(w: World, p: Proc, ch: Choice)
    requires w.proc == Some(p) && p.pc == PollStatus
    ensures EndsOnly(w, AdvancePollStatus(w, p, ch), Fails(w, ch))
  {
    hide SmStatus;
  }

  lemma CleanupEnds(w: World, p: Proc, ch: Choice)
    requires w.proc == Some(p) && p.pc == CleanupCall
    ensures EndsOnly(w, AdvanceCleanup(w, p, ch), false)
  {
    hide SmDeprovision;
  }

  lemma CallEnds(w: World, ch: Choice)
    requires w.proc.Some?
    ensures EndsOnly(w, Advance(w, ch), Fails(w, ch))
  {
    var p := w.proc.value;
    hide AdvanceConnect, AdvancePollFetch, AdvancePollRemoveFinalizer, AdvanceDeleteQuery, AdvanceDeleteCall,
         AdvanceDeleteRemoveFinalizer, AdvanceCheckExists, AdvanceInit, AdvanceAddFinalizer, AdvanceQuery, AdvanceBuild,
         AdvanceProvision, AdvanceUpdate, AdvanceShare, AdvancePollStatus, AdvanceCleanup, SmStatus;
    match p.pc
    case PollStatus => PollEnds(w, p, ch);
    case CleanupCall => CleanupEnds(w, p, ch);
    case _ =>
  }

  lemma OthersEnd(w: World, a: Action)
    requires !a.Call? && !a.Start?
    ensures EndsOnly(w, Step(w, a), false)
  {
    hide Advance;
  }

  /** A failure is one more in a row. */
  lemma Registers(p: Policy, t: Timed)
    requires t.retry == AfterFailures(p.base, p.max, p.wrapped, t.times) && Gated(p.base, p.max, p.wrapped, t.times) && Open(t.retry, t.now)
    ensures var times := t.times + [t.now];
      && Some(Registered(t.retry, p.base, p.max, p.wrapped, t.now, "")) == AfterFailures(p.base, p.max, p.wrapped, times)
      && Gated(p.base, p.max, p.wrapped, times)
  {
    assert (t.times + [t.now])[..|t.times|] == t.times;
  }

  lemma CallGate(p: Policy, t: Timed, ch: Choice)
    requires GateOk(p, t) && t.w.proc.Some?
    ensures GateOk(p, Next(p, t, Acts(Call(ch))))
  {
    hide Advance, Fails, Succeeds, AfterFailures, Gated, Open, Registered;
    CallEnds(t.w, ch);
    if Fails(t.w, ch) {
      assert !Ending(t.w.proc.value.pc) by { FailsAtPoll(t.w, ch); }
      Registers(p, t);
    } else if Succeeds(t.w, ch) {
      NoFailures(p, t.now);
    }
  }

  lemma FailsAtPoll(w: World, ch: Choice)
    requires Fails(w, ch)
    ensures w.proc.Some? && w.proc.value.pc == PollStatus
  {
    hide SmStatus;
  }

  lemma NoFailures(p: Policy, now: int)
    ensures AfterFailures(p.base, p.max, p.wrapped, []) == None && Gated(p.base, p.max, p.wrapped, []) && Open(None, now)
  {
  }

  lemma GateNext(p: Policy, t: Timed, e: Event)
    requires GateOk(p, t)
    ensures GateOk(p, Next(p, t, e))
  {
    match e {
      case Tick(d) => hide AfterFailures, Gated;
      case Restart => NoFailures(p, t.now);
      case Acts(a) =>
        if a.Call? {
          if t.w.proc.Some? { CallGate(p, t, a.ch); }
          hide Next, Step, GateOk;
        } else if a.Start? {
          hide Advance, AfterFailures, Gated;
        } else {
          OthersEnd(t.w, a);
          hide Step, AfterFailures, Gated, Open;
        }
    }
  }

  lemma {:induction false} GateHolds(p: Policy, t: Timed, events: seq<Event>)
    requires GateOk(p, t)
    ensures GateOk(p, NextAll(p, t, events))
    decreases |events|
  {
    hide GateOk, Next;
    if events != [] {
      GateNext(p, t, events[0]);
      GateHolds(p, Next(p, t, events[0]), events[1..]);
    }
  }

  /**
   The gate works: whatever happens in between, a reconcile that comes to any call besides the cleanup
   after the last failure does so after the sum of the delays of all failures since the last success.
   */
  lemma BackoffRespected(p: Policy, t: Timed, events: seq<Event>)
    requires t.w.proc.None? && t.retry.None? && t.times == []
    ensures var t1 := NextAll(p, t, events);
      t1.w.proc.Some? && !Ending(t1.w.proc.value.pc) && t1.times != [] && Exact(p.base, p.max, p.wrapped, |t1.times|) ==>
        t1.now - t1.times[0] >= TotalDelay(p.base, p.max, |t1.times|)
  {
    hide NextAll, Exact, TotalDelay;
    GateHolds(p, t, events);
    var t1 := NextAll(p, t, events);
    if t1.w.proc.Some? && !Ending(t1.w.proc.value.pc) && t1.times != [] && Exact(p.base, p.max, p.wrapped, |t1.times|) {
      NextAttemptWaits(p.base, p.max, p.wrapped, t1.times, t1.now);
    }
  }

  /**
   A cleanup that SM does at once leaves the failures counted; one that runs as an operation has them
   forgotten when a poll sees it through, so that the delay starts over.
   */
  lemma CleanupsForget(p: Policy, t: Timed, ch: Choice)
    requires t.w.proc.Some? && ch.call == Ok
    ensures t.w.proc.value.pc == CleanupCall || t.w.proc.value.pc == DirectSave ==>
              Next(p, t, Acts(Call(ch))).times == t.times && Next(p, t, Acts(Call(ch))).retry == t.retry
    ensures t.w.proc.value.pc == PollRemoveFinalizer && Unchanged(t.w, t.w.proc.value.c) ==>
              Next(p, t, Acts(Call(ch))).times == [] && Next(p, t, Acts(Call(ch))).retry == None
  {
    hide Advance;
  }

  // ----- what counts

  /** The next call of the reconcile cleans up. */
  predicate Cleaning(w1: World) {
    w1.proc.Some? && w1.proc.value.pc == CleanupCall
  }

  /** A creation, or a polled operation, is over and good: the reconcile is about to store that. */
  predicate Over(pc: Pc, w1: World) {
    && w1.proc.Some? && w1.proc.value.pc == Save
    && var s := w1.proc.value.c.status;
    (pc == PollRemoveFinalizer
     || ((pc == Provision || pc == PollStatus || pc == PollFetch) && s.succeeded.Some? && s.succeeded.value.good))
  }

  lemma PollFails(w: World, q: Proc, ch: Choice)
    requires w.proc == Some(q) && q.pc == PollStatus
    ensures Fails(w, ch) <==> Cleaning(AdvancePollStatus(w, q, ch))
  {
    hide SmStatus, Status.Failure, Status.Success, Status.InProgress, Status.NoOperation;
  }

  lemma Verdicts(s: Status, kind: OpKind, gen: nat, at: nat)
    ensures s.InProgress(kind, gen, at).succeeded == Some(Cond(false, at, kind == Update))
    ensures s.Failure(gen, at).succeeded == s.Failure(gen, at).NoOperation().succeeded == Some(Cond(false, at, false))
    ensures s.Success(at).NoOperation().succeeded == Some(Cond(true, at, false))
  {
  }

  /** An answered poll whose operation is known. */
  lemma AnsweredSucceeds(w: World, q: Proc, ch: Choice, url: OpUrl, state: OpState)
    requires w.proc == Some(q) && q.pc == PollStatus && ch.call == Ok && q.c.status.opUrl == Some(url) && SmStatus(w, url) == Some(state)
    ensures Succeeds(w, ch) <==> Over(PollStatus, AdvancePollStatus(w, q, ch))
  {
    hide SmStatus, Status.Failure, Status.Success, Status.InProgress, Status.NoOperation, Status.LastObserved;
    Verdicts(q.c.status, url.kind, q.c.gen, q.c.status.LastObserved());
    match state
    case Running =>
    case Bad =>
    case Good =>
  }

  lemma PollSucceeds(w: World, q: Proc, ch: Choice)
    requires w.proc == Some(q) && q.pc == PollStatus
    ensures Succeeds(w, ch) <==> Over(PollStatus, AdvancePollStatus(w, q, ch))
  {
    hide SmStatus;
    if q.c.status.opUrl.Some? && ch.call == Ok && SmStatus(w, q.c.status.opUrl.value).Some? {
      hide Succeeds, Over, AdvancePollStatus;
      AnsweredSucceeds(w, q, ch, q.c.status.opUrl.value, SmStatus(w, q.c.status.opUrl.value).value);
    }
  }

  lemma FetchCounts(w: World, q: Proc, ch: Choice)
    requires w.proc == Some(q) && q.pc == PollFetch
    ensures (Succeeds(w, ch) <==> Over(PollFetch, AdvancePollFetch(w, q, ch))) && !Cleaning(AdvancePollFetch(w, q, ch))
  {
  }

  lemma CreationCounts(w: World, q: Proc, ch: Choice)
    requires w.proc == Some(q) && (q.pc == Provision || q.pc == PollRemoveFinalizer)
    ensures q.pc == Provision ==>
              (Succeeds(w, ch) <==> Over(q.pc, AdvanceProvision(w, q, ch))) && !Cleaning(AdvanceProvision(w, q, ch))
    ensures q.pc == PollRemoveFinalizer ==>
              (Succeeds(w, ch) <==> Over(q.pc, AdvancePollRemoveFinalizer(w, q, ch))) && !Cleaning(AdvancePollRemoveFinalizer(w, q, ch))
  {
    hide SmProvision, PutMeta;
  }

  lemma OthersUncounted(w: World, q: Proc, ch: Choice)
    requires w.proc == Some(q) && q.pc != PollStatus && q.pc != PollFetch && q.pc != Provision && q.pc != PollRemoveFinalizer
    ensures !Cleaning(Advance(w, ch)) && !Fails(w, ch) && !Succeeds(w, ch) && !Over(q.pc, Advance(w, ch))
  {
    hide SmDeprovision, SmUpdate, SmShare, PutMeta, PutStatus, Recovered, UpdateRequired, ShareRequired, Final, Busy;
  }

  /**
   A call is counted as a failure exactly when the reconcile goes on to clean up, and the failures are forgotten
   exactly when a creation done at once, or a polled operation, has ended well; no other call touches the entry.
   */
  lemma RetriesExact(p: Policy, t: Timed, ch: Choice)
    requires t.w.proc.Some?
    ensures var w1, t1 := Advance(t.w, ch), Next(p, t, Acts(Call(ch)));
      var attempts := if t.retry.Some? then t.retry.value.attempts else 0;
      if Cleaning(w1) then
        && t1.times == t.times + [t.now] && t1.retry.Some? && t1.retry.value.attempts == attempts + 1
        && t1.retry.value.nextRetry == t.now + Backoff(p.base, p.max, p.wrapped, attempts + 1)
      else if Over(t.w.proc.value.pc, w1) then t1.times == [] && t1.retry.None?
      else t1.times == t.times && t1.retry == t.retry
  {
    var q := t.w.proc.value;
    hide Cleaning, Over, Fails, Succeeds, AdvanceConnect, AdvancePollStatus, AdvancePollFetch, AdvancePollRemoveFinalizer, AdvanceCleanup,
         AdvanceDeleteQuery, AdvanceDeleteCall, AdvanceDeleteRemoveFinalizer, AdvanceCheckExists, AdvanceInit, AdvanceAddFinalizer,
         AdvanceQuery, AdvanceBuild, AdvanceProvision, AdvanceUpdate, AdvanceShare, WriteStatus, Backoff;
    match q.pc {
      case PollStatus => PollFails(t.w, q, ch); PollSucceeds(t.w, q, ch);
      case PollFetch => FetchCounts(t.w, q, ch); Unsuccessful(t.w, ch);
      case Provision => CreationCounts(t.w, q, ch); Unsuccessful(t.w, ch);
      case PollRemoveFinalizer => CreationCounts(t.w, q, ch); Unsuccessful(t.w, ch);
      case _ => OthersUncounted(t.w, q, ch);
    }
  }

  lemma Unsuccessful(w: World, ch: Choice)
    ensures w.proc.Some? && w.proc.value.pc != PollStatus ==> !Fails(w, ch)
  {
    hide SmStatus;
  }
}
