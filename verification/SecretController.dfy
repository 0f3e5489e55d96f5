/** The secret controller: wake every instance that refers to a changed secret, then let the secret go. */
module SecretController {
  import opened Options
  import opened SecretWatch
  import opened InstanceWatches

  /** What the controller reads and writes of an instance; `succeeded` is the generation its Succeeded condition observed. */
  datatype Instance = Instance(rv: nat, labels: Strings, force: bool, observed: nat, succeeded: nat)

  function Woken(i: Instance): Instance {
    i.(force := true, observed := i.succeeded)
  }

  predicate Refers(i: Instance, secret: string) {
    RefKey(secret) in i.labels && i.labels[RefKey(secret)] == secret
  }

  /** A secret that is there, one that was found missing, or an error of reading it. */
  datatype SecretView = Present(name: string, deleting: bool) | Missing | Unreadable

  class ApiServer {
    var instances: map<string, Instance>
    var finalized: set<string>
    var clock: nat

    constructor (instances: map<string, Instance>, finalized: set<string>, clock: nat)
      ensures this.instances == instances && this.finalized == finalized && this.clock == clock
    {
      this.instances, this.finalized, this.clock := instances, finalized, clock;
    }

    /** The write of `copy` goes through: it is against the stored version, and not refused for another reason. */
    predicate Writes(name: string, copy: Instance, refused: set<string>)
      reads this
    {
      name !in refused && name in instances && instances[name].rv == copy.rv
    }

    /** A status write against the version that was listed; one that changes nothing leaves the version. */
    method UpdateStatus(name: string, copy: Instance, refused: set<string>) returns (ok: bool)
      modifies this
      ensures finalized == old(finalized)
      ensures ok <==> old(Writes(name, copy, refused))
      ensures ok ==> instances == old(instances)[name := if copy == old(instances)[name] then copy else copy.(rv := old(clock))]
      ensures clock >= old(clock)
      ensures !ok ==> instances == old(instances)
    {
      ok := name !in refused && name in instances && instances[name].rv == copy.rv;
      if ok && copy != instances[name] {
        instances := instances[name := copy.(rv := clock)];
        clock := clock + 1;
      }
    }

    /** RemoveFinalizer writes only if there is one. */
    method Release(name: string, accepted: bool) returns (ok: bool)
      modifies this
      ensures instances == old(instances)
      ensures ok <==> accepted || name !in old(finalized)
      ensures finalized == if accepted then old(finalized) - {name} else old(finalized)
    {
      ok := true;
      if name in finalized {
        if accepted {
          finalized := finalized - {name};
        } else {
          ok := false;
        }
      }
    }

    /** The instances that refer to the secret, in the answer to the list call. */
    function Mine(name: string, listed: map<string, Instance>): set<string> {
      set n | n in listed && Refers(listed[n], name)
    }

    /**
     Reconcile, for the instances `listed` a moment ago, if that succeeds; others may have written some of
     them since, and the writes of those in `refused` fail.  On success every listed instance whose label
     refers to the secret is flagged, and shows the generation its Succeeded condition observed; nothing else
     of it differs from what was listed.  The secret is let go only then; an instance that was not flagged
     keeps what was stored.
     */
    method Reconcile(secret: SecretView, listed: Option<map<string, Instance>>, refused: set<string>, accepted: bool) returns (ok: bool)
      modifies this
      ensures !secret.Present? || listed.None? ==> instances == old(instances) && finalized == old(finalized)
      ensures !secret.Present? ==> (ok <==> secret.Missing?)
      ensures secret.Present? && listed.None? ==> !ok
      ensures secret.Present? && listed.Some? ==>
                var key := RefKey(secret.name);
                var mine := set n | n in listed.value && key in listed.value[n].labels && listed.value[n].labels[key] == secret.name;
                var all := forall n :: n in mine ==> old(Writes(n, listed.value[n], refused));
                && (ok <==> all && (secret.deleting ==> accepted || secret.name !in old(finalized)))
                && instances.Keys == old(instances).Keys
                && (forall n :: n in instances && n !in mine ==> instances[n] == old(instances)[n])
                && (forall n :: n in mine && n in instances ==>
                      (instances[n].force && instances[n].observed == listed.value[n].succeeded
                       && instances[n].labels == listed.value[n].labels && instances[n].succeeded == listed.value[n].succeeded
                       && (instances[n] == old(instances)[n] || instances[n].rv >= old(clock)))
                      || (!all && instances[n] == old(instances)[n]))
                && finalized == if all && secret.deleting && accepted then old(finalized) - {secret.name} else old(finalized)
    {
      match secret
      case Missing => return true;
      case Unreadable => return false;
      case Present(name, deleting) =>
        if listed.None? {
          return false;
        }
        ok := WakeAll(Mine(name, listed.value), listed.value, refused);
        if ok && deleting {
          ok := Release(name, accepted);
        }
    }

    /** Flag one instance after the other, up to the first failure. */
    method WakeAll(mine: set<string>, listed: map<string, Instance>, refused: set<string>) returns (ok: bool)
      requires mine <= listed.Keys
      modifies this
      ensures finalized == old(finalized) && clock >= old(clock)
      ensures ok <==> forall n :: n in mine ==> old(Writes(n, listed[n], refused))
      ensures instances.Keys == old(instances).Keys
      ensures forall n :: n in instances && n !in mine ==> instances[n] == old(instances)[n]
      ensures forall n :: n in mine && n in instances ==>
                (instances[n] == Woken(listed[n]).(rv := instances[n].rv) && (instances[n] == old(instances)[n] || instances[n].rv >= old(clock)))
                || (!ok && instances[n] == old(instances)[n])
    {
      ok := true;
      var rest := mine;
      while rest != {}
        invariant ok && rest <= mine && finalized == old(finalized) && clock >= old(clock)
        invariant instances.Keys == old(instances).Keys
        invariant forall n :: n in instances && n !in mine - rest ==> instances[n] == old(instances)[n]
        invariant forall n :: n in mine - rest ==>
                    && n in instances && instances[n] == Woken(listed[n]).(rv := instances[n].rv)
                    && (instances[n] == old(instances)[n] || instances[n].rv >= old(clock))
                    && old(Writes(n, listed[n], refused))
        decreases |rest|
      {
        var n :| n in rest;
        ok := UpdateStatus(n, Woken(listed[n]), refused);
        if !ok {
          return;
        }
        rest := rest - {n};
      }
    }
  }
}
