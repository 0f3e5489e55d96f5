/**
 Credential continuity for every binding.  Over every allowed run, the credentials a backup was made for stay
 live, and are what its secret shows, until it is marked for deletion, exactly as long as no original that
 holds them is unbound.
 */
module BindingContinuity {
  import opened Options
  import opened Remote
  import opened BindingWorld
  import opened BindingReconciler
  import opened BindingInvariant
  import opened BindingRuns
  import opened BindingBackups
  import opened BindingBackupSteps
  import BindingSafety

  // ----- the step at which it ends

  /** Every unmarked backup shows live credentials. */
  ghost predicate ShownLive(bs: Bindings, sm: Sm, secrets: Secrets) {
    forall m, b :: Unmarked(bs, m, b) && m in secrets ==> Live(sm, secrets[m])
  }

  /** The deletion of the original `n` is about to unbind `b`, at once or later. */
  predicate UnbindsOriginal(w: World, n: Name, ch: Choice, b: Id) {
    && n in w.procs && w.procs[n].pc == DeleteUnbind && w.procs[n].c.stale.None? && w.procs[n].c.status.id == Some(b)
    && ch.call != Rejected
  }

  lemma UnbindingDone(w: World, n: Name, ch: Choice, b: Id)
    requires UnbindsOriginal(w, n, ch, b)
    ensures var w1 := Step(w, Call(n, ch));
      AllBut(w, w1, b) && !Live(w1.sm, b)
  {
    hide Finish, Go;
    assert Step(w, Call(n, ch)) == AdvanceDeleteUnbind(w, n, w.procs[n], ch);
    DeletionBut(w, n, w.procs[n], ch);
    DeletionKills(w, n, w.procs[n], ch);
  }

  lemma DeletionKills(w: World, n: Name, p: Proc, ch: Choice)
    requires p.c.status.id.Some? && ch.call != Rejected
    ensures !Live(AdvanceDeleteUnbind(w, n, p, ch).sm, p.c.status.id.value)
  {
  }

  /** Whatever the backups show stays live if and only if none of them shows what the original gives up. */
  lemma UnbindExact(w: World, n: Name, ch: Choice, b: Id)
    requires ShownLive(w.bindings, w.sm, w.secrets) && UnbindsOriginal(w, n, ch, b)
    ensures var w1 := Step(w, Call(n, ch));
      ShownLive(w1.bindings, w1.sm, w1.secrets) <==>
      forall m, b' :: Unmarked(w.bindings, m, b') && m in w.secrets ==> w.secrets[m] != b
  {
    hide UnbindsOriginal, Step, Unmarked;
    UnbindingDone(w, n, ch, b);
  }

  /** The guard, to be asked before the call: the credentials survive it exactly when no unmarked backup carries them. */
  lemma UnbindGuard(w: World, n: Name, ch: Choice, b: Id)
    requires StoresBacked(w, b) && UnbindsOriginal(w, n, ch, b)
    ensures var w1 := Step(w, Call(n, ch)); LabelsLive(w1.bindings, w1.sm, b) <==> Spared(w.bindings, b)
    ensures !HasBackup(w.bindings, b) ==> Spared(w.bindings, b)
  {
    hide UnbindsOriginal, Step, Live;
    UnbindingDone(w, n, ch, b);
  }

  // ----- runs

  ghost predicate SparingRun(w: World, actions: seq<Action>, cred: Id)
    decreases |actions|
  {
    actions == [] || (Spares(w, actions[0], cred) && SparingRun(Step(w, actions[0]), actions[1..], cred))
  }

  /** Between any two actions, the credentials of every unmarked backup of `cred` are live. */
  ghost predicate LiveThroughout(w: World, actions: seq<Action>, cred: Id)
    decreases |actions|
  {
    LabelsLive(w.bindings, w.sm, cred) && (actions == [] || LiveThroughout(Step(w, actions[0]), actions[1..], cred))
  }

  lemma UnsparedKills(w: World, a: Action, cred: Id)
    requires Backed(w, cred) && !Spares(w, a, cred)
    ensures var w1 := Step(w, a); !LabelsLive(w1.bindings, w1.sm, cred)
  {
    hide Step, Spared, StoresBacked, LabelsLive;
    UnbindGuard(w, a.n, a.ch, cred);
  }

  lemma {:induction false} RunBacked(w: World, actions: seq<Action>, cred: Id)
    requires Inv(w) && Backed(w, cred) && AllowedRun(w, actions)
    ensures LiveThroughout(w, actions, cred) <==> SparingRun(w, actions, cred)
    ensures SparingRun(w, actions, cred) ==> Backed(Run(w, actions), cred)
    decreases |actions|
  {
    hide Inv, Step, Allowed, Spares;
    if actions != [] {
      if Spares(w, actions[0], cred) {
        StepKeeps(w, actions[0]);
        StepBacked(w, actions[0], cred);
        RunBacked(Step(w, actions[0]), actions[1..], cred);
      } else {
        UnsparedKills(w, actions[0], cred);
      }
    }
  }

  lemma InitialBacked(w: World, cred: Id)
    requires Initial(w)
    ensures Backed(w, cred)
  {
  }

  /**
   From empty stores, the credentials of every unmarked backup are live throughout an allowed run if and only if
   the run never unbinds an original while an unmarked backup carries its id.
   */
  lemma ContinuityExact(w: World, actions: seq<Action>, cred: Id)
    requires Initial(w) && AllowedRun(w, actions)
    ensures LiveThroughout(w, actions, cred) <==> SparingRun(w, actions, cred)
  {
    hide Inv, AllowedRun, Run, Backed;
    InitialInv(w);
    InitialBacked(w, cred);
    RunBacked(w, actions, cred);
  }

  /** `w` is the end of an allowed run from empty stores that spares the backups of `cred`. */
  ghost predicate ReachableSparing(w: World, cred: Id) {
    exists w0, actions :: Initial(w0) && AllowedRun(w0, actions) && SparingRun(w0, actions, cred) && w == Run(w0, actions)
  }

  lemma ReachableBacked(w: World, cred: Id)
    requires ReachableSparing(w, cred)
    ensures Reachable(w) && Backed(w, cred)
  {
    hide Inv, AllowedRun, Run, SparingRun, Backed;
    var w0, actions :| Initial(w0) && AllowedRun(w0, actions) && SparingRun(w0, actions, cred) && w == Run(w0, actions);
    InitialInv(w0);
    InitialBacked(w0, cred);
    RunBacked(w0, actions, cred);
  }

  /** After such a run, SM holds the backup's credentials under its names, live, and its secret shows nothing else. */
  lemma BackupContinuity(w: World, m: Name, cred: Id)
    requires ReachableSparing(w, cred) && Unmarked(w.bindings, m, cred)
    ensures Live(w.sm, cred) && w.sm[cred].name == w.bindings[m].externalName && w.sm[cred].k8sName == Some(m)
    ensures w.bindings[m].orig == Some(w.sm[cred].creator)
    ensures m in w.secrets ==> w.secrets[m] == cred
  {
    hide ReachableSparing, Reachable;
    ReachableBacked(w, cred);
    BindingSafety.BackupAgrees(w, m, cred);
  }

  /**
   Credential continuity: whatever secret a binding shows that is not marked for deletion, original or backup,
   SM holds the binding it belongs to, created for the original and never asked to be removed.
   */
  lemma SecretContinuity(w: World, n: Name)
    requires Reachable(w) && n in w.bindings && !w.bindings[n].deleting && n in w.secrets
    requires w.bindings[n].stale.Some? ==> ReachableSparing(w, w.bindings[n].stale.value)
    ensures Live(w.sm, w.secrets[n])
    ensures Some(w.sm[w.secrets[n]].creator) == (if w.bindings[n].stale.None? then Some(n) else w.bindings[n].orig)
    ensures w.bindings[n].stale.Some? ==> w.secrets[n] == w.bindings[n].stale.value
  {
    hide ReachableSparing, Reachable, Live;
    if w.bindings[n].stale.None? {
      BindingSafety.CredentialContinuity(w, n);
    } else {
      BackupContinuity(w, n, w.bindings[n].stale.value);
    }
  }
}
