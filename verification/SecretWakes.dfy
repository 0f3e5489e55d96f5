/** What the secret controller writes is the wake-up that the promise of WakeUp rests on. */
module SecretWakes {
  import opened Options
  import opened SecretWatch
  import opened SecretController
  import opened WakeUp
  import I = InstanceWorld
  import InstanceInvariant
  import InstanceReconciler
  import InstanceSafety

  /** What the secret controller sees of an instance. */
  function Seen(o: I.Instance, labels: Strings): Instance {
    Instance(o.rv, labels, o.status.force, o.status.observed, o.status.LastObserved())
  }

  /**
   An instance that was listed and that Reconcile flagged: its stored fields are those it has in the cluster
   after the flag write of WakeUp, and nothing but its flag and its version has changed there.
   */
  lemma FlaggedIsWoken(k: Cluster, labels: Strings, i1: Instance)
    requires k.w.obj.Some? && InstanceInvariant.Inv(k.w)
    requires var i := Seen(k.w.obj.value, labels);
      && i1.force && i1.observed == i.succeeded && i1.labels == i.labels && i1.succeeded == i.succeeded
      && i1.rv == (if i1.(rv := i.rv) == i then i.rv else k.w.clock)
    ensures var o := k.w.obj.value;
      var w1 := Write(k).w;
      && w1.obj.Some? && Seen(w1.obj.value, labels) == i1
      && w1.obj.value == o.(rv := i1.rv, status := o.status.(force := true))
      && w1 == k.w.(obj := w1.obj, clock := w1.clock)
  {
  }
}
