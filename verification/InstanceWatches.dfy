/** How an instance keeps its secret labels and the watches on its parameter secrets in step. */
module InstanceWatches {
  import opened SecretWatch

  function RefKey(name: string): string {
    SECRET_REF_LABEL + name
  }

  predicate IsRef(key: string) {
    SECRET_REF_LABEL <= key
  }

  function RefName(key: string): string
    requires IsRef(key)
  {
    key[|SECRET_REF_LABEL|..]
  }

  lemma RefKeys(name: string)
    ensures IsRef(RefKey(name)) && RefName(RefKey(name)) == name
  {
  }

  lemma KeysOfRefs(key: string)
    requires IsRef(key)
    ensures RefKey(RefName(key)) == key
  {
  }

  /** A reference label carries the name it is made of. */
  predicate WellLabelled(labels: Strings) {
    forall key :: key in labels && IsRef(key) ==> labels[key] == RefName(key)
  }

  /** The references to `names`. */
  function Refs(names: set<string>): set<string> {
    set n | n in names :: RefKey(n)
  }

  /** The labels that make those references. */
  function RefLabels(names: set<string>): Strings {
    map key | key in Refs(names) :: RefName'(key)
  }

  /** The labels among `keys` that are no references. */
  function Plain(labels: Strings, keys: set<string>): Strings {
    map key | key in labels && key in keys && !IsRef(key) :: labels[key]
  }

  /** The references among `keys` that are not in `first`. */
  function Dropped(keys: set<string>, first: Strings): set<string> {
    set key | key in keys && IsRef(key) && key !in first
  }

  /** The labels that refer to exactly `names`. */
  function Desired(labels: Strings, names: set<string>): Strings {
    RefLabels(names) + Plain(labels, labels.Keys)
  }

  /** The secret a reference label stands for, if it is one. */
  function RefName'(key: string): string {
    if IsRef(key) then RefName(key) else key
  }

  /** What a secret becomes when the instance `uid`, labelled with `labels`, now refers to `names`. */
  function Synced(m: Marks, name: string, labels: Strings, names: set<string>, uid: string): Marks {
    if name in names then Added(m, uid)
    else if RefKey(name) in labels then Removed(m, uid)
    else m
  }

  /** The secrets that the references among `keys`, other than those in `first`, are labelled with. */
  function Unwanted(labels: Strings, keys: set<string>, first: set<string>): set<string> {
    set key | key in labels && key in keys && IsRef(key) && key !in first :: labels[key]
  }

  /** The secrets to watch are asked to, and then those that dropped references are labelled with are asked to stop. */
  function SyncedAll(secrets: map<string, Marks>, labels: Strings, names: set<string>, uid: string): map<string, Marks> {
    UnwatchedBy(WatchedBy(secrets, names, uid), Unwanted(labels, labels.Keys, Refs(names)), uid)
  }

  /** The references of the labels are not those to `names`. */
  predicate Outdated(labels: Strings, names: set<string>) {
    !(Refs(names) <= labels.Keys) || Dropped(labels.Keys, RefLabels(names)) != {}
  }

  /** The labels after a synchronisation: they are written only if a reference is missing or too many. */
  function Relabelled(labels: Strings, names: set<string>): Strings {
    if Outdated(labels, names) then Desired(labels, names) else labels
  }

  lemma DesiredKeys(labels: Strings, names: set<string>)
    ensures forall key :: key in Desired(labels, names) <==>
              if IsRef(key) then RefName(key) in names else key in labels
    ensures forall key :: key in labels && !IsRef(key) ==> Desired(labels, names)[key] == labels[key]
    ensures forall n :: n in names ==> RefKey(n) in Desired(labels, names) && Desired(labels, names)[RefKey(n)] == n
    ensures WellLabelled(Desired(labels, names))
  {
    hide IsRef, RefName, RefKey;
    forall key
      ensures key in Desired(labels, names) <==> if IsRef(key) then RefName(key) in names else key in labels
      ensures key in labels && !IsRef(key) ==> Desired(labels, names)[key] == labels[key]
    {
      if key in Refs(names) {
        var n :| n in names && RefKey(n) == key;
        RefKeys(n);
      }
      if IsRef(key) && RefName(key) in names {
        KeysOfRefs(key);
        assert RefKey(RefName(key)) in Refs(names);
      }
    }
    forall n | n in names
      ensures RefKey(n) in Desired(labels, names) && Desired(labels, names)[RefKey(n)] == n
    {
      RefKeys(n);
      assert RefKey(n) in Refs(names);
    }
  }

  /**
   When the reference keys already are those of `names`, the labels are the desired ones exactly when
   every reference carries the name it is made of: only then is skipping the update sound.
   */
  lemma SkipExact(labels: Strings, names: set<string>)
    requires forall n :: n in names ==> RefKey(n) in labels
    requires forall key :: key in labels && IsRef(key) ==> RefName(key) in names
    ensures Desired(labels, names) == labels <==> WellLabelled(labels)
  {
    hide IsRef, RefName, RefKey, Desired;
    DesiredKeys(labels, names);
    if WellLabelled(labels) {
      forall key
        ensures key in Desired(labels, names) <==> key in labels
        ensures key in labels ==> Desired(labels, names)[key] == labels[key]
      {
        if IsRef(key) {
          KeysOfRefs(key);
        }
      }
    }
  }

  /** The instance is watched by a secret exactly when its labels refer to it. */
  predicate TwoSided(secrets: map<string, Marks>, labels: Strings, uid: string) {
    forall name :: name in secrets ==> (uid in Watchers(secrets[name]) <==> RefKey(name) in labels)
  }

  lemma SyncedWatchers(m: Marks, name: string, labels: Strings, names: set<string>, uid: string)
    ensures var m1 := Synced(m, name, labels, names, uid);
      && (name in names || RefKey(name) in labels ==> (uid in Watchers(m1) <==> name in names))
      && Watchers(m1) - {uid} == Watchers(m) - {uid}
      && (WellMarked(m) ==> WellMarked(m1) && SameOthers(m, m1))
  {
    hide Added, Removed, Watchers, RefKey, WellMarked, SameOthers;
    AddedWatchers(m, uid);
    RemovedWatchers(m, uid);
    SameOthersItself(m);
    if WellMarked(m) {
      AddedOk(m, uid);
      RemovedOk(m, uid);
    }
  }

  /** With well-made labels, the synchronisation treats every secret by its own name. */
  lemma SyncedEach(secrets: map<string, Marks>, labels: Strings, names: set<string>, uid: string, name: string)
    requires WellLabelled(labels) && name in secrets
    ensures SyncedAll(secrets, labels, names, uid)[name] == Synced(secrets[name], name, labels, names, uid)
  {
    hide IsRef, RefName, RefKey, Added, Removed, Refs;
    RefKeys(name);
    RefsApart(names, RefKey(name));
    var gone := Unwanted(labels, labels.Keys, Refs(names));
    if name in gone {
      var key :| key in labels && IsRef(key) && key !in Refs(names) && labels[key] == name;
      KeysOfRefs(key);
    }
  }

  /**
   Whatever the labels say, a secret is asked to watch when the instance now refers to it, and after that to stop
   when a reference the instance no longer makes is labelled with its name.
   */
  lemma SyncedAt(secrets: map<string, Marks>, labels: Strings, names: set<string>, uid: string, name: string)
    requires name in secrets
    ensures name in SyncedAll(secrets, labels, names, uid)
    ensures var m := if name in names then Added(secrets[name], uid) else secrets[name];
      SyncedAll(secrets, labels, names, uid)[name] ==
        if exists key :: key in labels && IsRef(key) && RefName(key) !in names && labels[key] == name then Removed(m, uid) else m
  {
    hide IsRef, RefName, RefKey, Added, Removed, Refs;
    var gone := Unwanted(labels, labels.Keys, Refs(names));
    if key :| key in labels && IsRef(key) && RefName(key) !in names && labels[key] == name {
      RefsApart(names, key);
      assert name in gone;
    }
    if name in gone {
      var key :| key in labels && IsRef(key) && key !in Refs(names) && labels[key] == name;
      RefsApart(names, key);
    }
  }

  lemma RefsThere(labels: Strings, names: set<string>)
    ensures Refs(names) <= labels.Keys <==> forall n :: n in names ==> RefKey(n) in labels
  {
    hide RefKey;
    if Refs(names) <= labels.Keys {
      forall n | n in names
        ensures RefKey(n) in labels
      {
        assert RefKey(n) in Refs(names);
      }
    }
  }

  lemma NoneDropped(labels: Strings, names: set<string>)
    ensures Dropped(labels.Keys, RefLabels(names)) == {} <==> forall key :: key in labels && IsRef(key) ==> RefName(key) in names
  {
    hide IsRef, RefName, RefKey, Refs, RefLabels;
    RefLabelsKeys(names);
    forall key
      ensures key in Dropped(labels.Keys, RefLabels(names)) <==> key in labels && IsRef(key) && RefName(key) !in names
    {
      RefsApart(names, key);
    }
  }

  /** The labels are written exactly when a reference is missing, or one is there that should not be. */
  lemma RelabelledIs(labels: Strings, names: set<string>)
    ensures Relabelled(labels, names) ==
              if (forall n :: n in names ==> RefKey(n) in labels) && (forall key :: key in labels && IsRef(key) ==> RefName(key) in names)
              then labels else Desired(labels, names)
  {
    hide IsRef, RefName, RefKey, Desired, Refs, RefLabels, Dropped;
    RefsThere(labels, names);
    NoneDropped(labels, names);
  }

  /** With well-made labels, what is not written was right already. */
  lemma RelabelledDesired(labels: Strings, names: set<string>)
    requires WellLabelled(labels)
    ensures Relabelled(labels, names) == Desired(labels, names)
  {
    hide IsRef, RefName, RefKey, Desired;
    if !Outdated(labels, names) {
      forall n | n in names
        ensures RefKey(n) in labels
      {
        assert RefKey(n) in Refs(names);
      }
      forall key | key in labels && IsRef(key)
        ensures RefName(key) in names
      {
        assert key !in Dropped(labels.Keys, RefLabels(names));
        RefsApart(names, key);
      }
      SkipExact(labels, names);
    }
  }

  lemma SyncedKeys(secrets: map<string, Marks>, labels: Strings, names: set<string>, uid: string)
    ensures SyncedAll(secrets, labels, names, uid).Keys == secrets.Keys
  {
    hide Added, Unwanted;
    var watched := WatchedBy(secrets, names, uid);
    UnwatchedKeys(watched, Unwanted(labels, labels.Keys, Refs(names)), uid);
    assert watched.Keys == secrets.Keys;
  }

  /** Two-sided agreement survives every synchronisation, the labels stay well made, and nobody else's watches change. */
  lemma AgreementKept(secrets: map<string, Marks>, labels: Strings, names: set<string>, uid: string)
    requires WellLabelled(labels) && TwoSided(secrets, labels, uid) && forall name :: name in secrets ==> WellMarked(secrets[name])
    ensures var secrets1, labels1 := SyncedAll(secrets, labels, names, uid), Relabelled(labels, names);
      && TwoSided(secrets1, labels1, uid) && WellLabelled(labels1) && secrets1.Keys == secrets.Keys
      && (forall name :: name in secrets1 ==> WellMarked(secrets1[name]))
      && (forall name :: name in secrets ==> Watchers(secrets1[name]) - {uid} == Watchers(secrets[name]) - {uid})
  {
    var secrets1 := SyncedAll(secrets, labels, names, uid);
    SyncedKeys(secrets, labels, names, uid);
    hide Synced, SyncedAll, Watchers, RefKey, IsRef, RefName, WellMarked, SameOthers, Desired, Relabelled;
    DesiredKeys(labels, names);
    RelabelledDesired(labels, names);
    forall name | name in secrets
      ensures WellMarked(secrets1[name]) && Watchers(secrets1[name]) - {uid} == Watchers(secrets[name]) - {uid}
      ensures uid in Watchers(secrets1[name]) <==> RefKey(name) in Desired(labels, names)
    {
      SyncedEach(secrets, labels, names, uid, name);
      SyncedWatchers(secrets[name], name, labels, names, uid);
      RefKeys(name);
      SyncedSame(secrets[name], name, labels, names, uid);
    }
  }

  lemma SyncedSame(m: Marks, name: string, labels: Strings, names: set<string>, uid: string)
    ensures name !in names && RefKey(name) !in labels ==> Synced(m, name, labels, names, uid) == m
  {
  }

  /** After the secrets in `names` were asked to watch. */
  function WatchedBy(secrets: map<string, Marks>, names: set<string>, uid: string): map<string, Marks> {
    map n | n in secrets :: if n in names then Added(secrets[n], uid) else secrets[n]
  }

  /** After the secrets in `gone` were asked to stop watching. */
  function UnwatchedBy(secrets: map<string, Marks>, gone: set<string>, uid: string): map<string, Marks> {
    map n | n in secrets :: if n in gone then Removed(secrets[n], uid) else secrets[n]
  }

  lemma WatchedNext(secrets: map<string, Marks>, names: set<string>, name: string, uid: string)
    requires name in secrets && name !in names
    ensures WatchedBy(secrets, names + {name}, uid) == WatchedBy(secrets, names, uid)[name := Added(secrets[name], uid)]
    ensures name in WatchedBy(secrets, names, uid) && WatchedBy(secrets, names, uid)[name] == secrets[name]
  {
    hide Added;
  }

  /** Unwatching twice is unwatching once. */
  lemma RemovedTwice(m: Marks, uid: string)
    ensures Removed(Removed(m, uid), uid) == Removed(m, uid)
  {
    hide IsWatch, WatchKey;
    var m1 := Removed(m, uid);
    assert m1.annotations - {WatchKey(uid)} == m1.annotations;
  }

  lemma UnwatchedNext(secrets: map<string, Marks>, gone: set<string>, name: string, uid: string)
    ensures UnwatchedBy(secrets, gone + {name}, uid) ==
              if name in secrets then UnwatchedBy(secrets, gone, uid)[name := Removed(UnwatchedBy(secrets, gone, uid)[name], uid)]
              else UnwatchedBy(secrets, gone, uid)
  {
    hide Removed;
    if name in secrets {
      RemovedTwice(secrets[name], uid);
    }
  }

  lemma UnwantedNext(labels: Strings, done: set<string>, key: string, first: set<string>)
    requires key in labels && key !in done
    ensures Unwanted(labels, done + {key}, first) ==
              if IsRef(key) && key !in first then Unwanted(labels, done, first) + {labels[key]} else Unwanted(labels, done, first)
  {
    hide IsRef;
  }

  /** The old labels in `done` have been looked at. */
  predicate Progress(secrets: map<string, Marks>, before: map<string, Marks>, labels: Strings, done: set<string>,
                     first: Strings, names: set<string>, newLabels: Strings, lost: bool, uid: string)
  {
    && secrets == UnwatchedBy(before, Unwanted(labels, done, first.Keys), uid)
    && newLabels == first + Plain(labels, done)
    && (lost <==> Dropped(done, first) != {})
  }

  /** The part of a service instance that the watch protocol reads and writes. */
  class WatchingInstance {
    const uid: string
    var labels: Strings
    var subscribed: bool
    var updates: nat

    constructor (uid: string, labels: Strings, subscribed: bool)
      ensures this.uid == uid && this.labels == labels && this.subscribed == subscribed && updates == 0
    {
      this.uid := uid;
      this.labels := labels;
      this.subscribed := subscribed;
      updates := 0;
    }

    /** Have every secret in `params` watch, and name it in the new labels. */
    method WatchParams(store: SecretStore, params: set<string>, refused: set<string>)
      returns (ok: bool, newLabels: Strings, changed: bool)
      requires params <= store.secrets.Keys
      modifies store
      ensures refused == {} ==> ok
      ensures ok ==>
        && store.secrets == WatchedBy(old(store.secrets), params, uid)
        && newLabels == RefLabels(params)
        && (changed <==> !(Refs(params) <= labels.Keys))
    {
      hide RefKey, Added, Refs, RefLabels, WatchedBy;
      NoRefs(old(store.secrets), uid);
      changed := false;
      newLabels := map[];
      var rest := params;
      assert params - rest == {};
      while rest != {}
        invariant rest <= params
        invariant store.secrets == WatchedBy(old(store.secrets), params - rest, uid)
        invariant newLabels == RefLabels(params - rest)
        invariant changed <==> !(Refs(params - rest) <= labels.Keys)
        decreases |rest|
      {
        var name :| name in rest;
        ghost var done := params - rest;
        FreshRef(done, name);
        WatchedNext(old(store.secrets), done, name, uid);
        newLabels := newLabels[RefKey(name) := name];
        if RefKey(name) !in labels {
          changed := true;
        }
        ok := store.AddWatch(name, uid, name !in refused);
        if !ok {
          return;
        }
        rest := rest - {name};
        assert params - rest == done + {name};
      }
      assert params - rest == params;
      ok := true;
    }

    /** One label of the instance: an old reference is unwatched unless it is a new one too; any other label is kept. */
    method SyncLabel(store: SecretStore, key: string, refused: set<string>, labels1: Strings, lost1: bool,
                     ghost before: map<string, Marks>, ghost done: set<string>, ghost first: Strings, ghost names: set<string>)
      returns (ok: bool, newLabels: Strings, lost: bool)
      requires key in labels && key !in done && first.Keys == Refs(names)
      requires Progress(store.secrets, before, labels, done, first, names, labels1, lost1, uid)
      modifies store
      ensures refused == {} ==> ok
      ensures ok ==> Progress(store.secrets, before, labels, done + {key}, first, names, newLabels, lost, uid)
    {
      hide IsRef, RefKey, Removed, UnwatchedBy, Plain, Dropped, Refs, Unwanted;
      LabelStep(labels, done, key, first, names, labels1);
      UnwantedNext(labels, done, key, first.Keys);
      KeyApart(first, names, key);
      ok, newLabels, lost := true, labels1, lost1;
      if IsRef(key) {
        if key !in newLabels {
          lost := true;
          UnwatchedNext(before, Unwanted(labels, done, first.Keys), labels[key], uid);
          UnwatchedKeys(before, Unwanted(labels, done, first.Keys), uid);
          ok := store.RemoveWatch(labels[key], uid, labels[key] !in refused);
        }
      } else {
        newLabels := newLabels[key := labels[key]];
      }
    }

    /** Unwatch the secrets whose references are not in `first`, and keep all other labels. */
    method UnwatchDropped(store: SecretStore, first: Strings, refused: set<string>, ghost names: set<string>)
      returns (ok: bool, newLabels: Strings, lost: bool)
      requires first.Keys == Refs(names)
      modifies store
      ensures refused == {} ==> ok
      ensures ok ==> Progress(store.secrets, old(store.secrets), labels, labels.Keys, first, names, newLabels, lost, uid)
    {
      hide Progress, Refs;
      newLabels, lost := first, false;
      ok := true;
      var keys := labels.Keys;
      ghost var before, done: set<string> := store.secrets, {};
      NoProgress(before, labels, first, names, uid);
      while keys != {}
        invariant done == labels.Keys - keys && keys <= labels.Keys
        invariant ok && Progress(store.secrets, before, labels, done, first, names, newLabels, lost, uid)
        decreases |keys|
      {
        var key :| key in keys;
        ok, newLabels, lost := SyncLabel(store, key, refused, newLabels, lost, before, done, first, names);
        if !ok {
          return;
        }
        keys := keys - {key};
        done := done + {key};
      }
      assert done == labels.Keys;
    }

    /**
     The watch half of buildSMRequestParameters, for the parameter secrets `params` that were just read.
     Secrets named in `refused` and, unless `accepted`, the instance itself refuse their update.
     */
    method SyncWatches(store: SecretStore, params: set<string>, refused: set<string>, accepted: bool) returns (ok: bool)
      requires params <= store.secrets.Keys
      modifies this, store
      ensures subscribed == old(subscribed)
      ensures refused == {} && accepted ==> ok
      ensures ok ==> var names := if subscribed then params else {};
        && labels == Relabelled(old(labels), names)
        && store.secrets == SyncedAll(old(store.secrets), old(labels), names, uid)
        && (updates == old(updates) <==> labels == old(labels))
      ensures !ok ==> labels == old(labels)
    {
      hide IsRef, RefName, RefKey, Added, Removed, WatchedBy, UnwatchedBy, Refs, RefLabels, Plain, Dropped, Unwanted;
      ghost var names := if subscribed then params else {};
      var first: Strings, changed := map[], false;
      NoRefs(store.secrets, uid);
      if subscribed {
        ok, first, changed := WatchParams(store, params, refused);
        if !ok {
          return;
        }
      }
      RefLabelsKeys(names);
      var newLabels, lost;
      ok, newLabels, lost := UnwatchDropped(store, first, refused, names);
      if !ok {
        return;
      }
      if changed || lost {
        if !accepted {
          return false;
        }
        Changed(labels, names, changed, lost);
        labels := newLabels;
        updates := updates + 1;
      }
    }
  }

  lemma NoRefs(secrets: map<string, Marks>, uid: string)
    ensures WatchedBy(secrets, {}, uid) == secrets && Refs({}) == {} && RefLabels({}) == map[]
  {
  }

  lemma NoProgress(secrets: map<string, Marks>, labels: Strings, first: Strings, names: set<string>, uid: string)
    ensures Progress(secrets, secrets, labels, {}, first, names, first, false, uid)
  {
  }

  lemma PlainNext(labels: Strings, keys: set<string>, key: string, first: Strings)
    requires key in labels && key !in keys
    ensures Plain(labels, keys + {key}) == if IsRef(key) then Plain(labels, keys) else Plain(labels, keys)[key := labels[key]]
    ensures Dropped(keys + {key}, first) == if IsRef(key) && key !in first then Dropped(keys, first) + {key} else Dropped(keys, first)
    ensures IsRef(key) ==> key !in Plain(labels, keys)
    ensures first + Plain(labels, keys)[key := labels[key]] == (first + Plain(labels, keys))[key := labels[key]]
  {
    hide IsRef;
  }

  /** What one label contributes to the new labels and to the dropped references. */
  lemma LabelStep(labels: Strings, done: set<string>, key: string, first: Strings, names: set<string>, newLabels: Strings)
    requires key in labels && key !in done && first.Keys == Refs(names) && newLabels == first + Plain(labels, done)
    ensures !IsRef(key) ==>
      && newLabels[key := labels[key]] == first + Plain(labels, done + {key}) && Dropped(done + {key}, first) == Dropped(done, first)
    ensures IsRef(key) ==> newLabels == first + Plain(labels, done + {key}) && (key in newLabels <==> RefName(key) in names)
    ensures IsRef(key) && key in newLabels ==> Dropped(done + {key}, first) == Dropped(done, first)
    ensures IsRef(key) && key !in newLabels ==> Dropped(done + {key}, first) == Dropped(done, first) + {key}
  {
    hide IsRef, RefName, Plain, Dropped, Refs;
    RefsApart(names, key);
    PlainNext(labels, done, key, first);
  }

  lemma UnwatchedKeys(secrets: map<string, Marks>, gone: set<string>, uid: string)
    ensures UnwatchedBy(secrets, gone, uid).Keys == secrets.Keys
  {
  }

  /** A reference is among the first new labels exactly when it refers to one of `names`. */
  lemma KeyApart(first: Strings, names: set<string>, key: string)
    requires first.Keys == Refs(names)
    ensures IsRef(key) ==> (key in first <==> RefName(key) in names)
  {
    hide IsRef, RefName, Refs;
    RefsApart(names, key);
  }

  lemma RefLabelsKeys(names: set<string>)
    ensures RefLabels(names).Keys == Refs(names)
  {
  }

  lemma FreshRef(done: set<string>, name: string)
    ensures Refs(done + {name}) == Refs(done) + {RefKey(name)}
    ensures RefLabels(done + {name}) == RefLabels(done)[RefKey(name) := name]
  {
    hide IsRef, RefName, RefKey;
    RefKeys(name);
  }

  /** A key is among the references to `names` exactly when it is the reference to one of them. */
  lemma RefsApart(names: set<string>, key: string)
    ensures key in Refs(names) <==> IsRef(key) && RefName(key) in names
  {
    hide IsRef, RefName, RefKey;
    if key in Refs(names) {
      var n :| n in names && RefKey(n) == key;
      RefKeys(n);
    }
    if IsRef(key) && RefName(key) in names {
      KeysOfRefs(key);
    }
  }

  /** The two flags report a difference of the labels. */
  lemma Changed(before: Strings, names: set<string>, changed: bool, lost: bool)
    requires changed ==> !(Refs(names) <= before.Keys)
    requires lost ==> Dropped(before.Keys, RefLabels(names)) != {}
    requires changed || lost
    ensures Desired(before, names) != before
  {
    hide IsRef, RefName, RefKey, Desired;
    DesiredKeys(before, names);
    if changed {
      var n :| n in names && RefKey(n) !in before;
      assert RefKey(n) in Desired(before, names);
    } else {
      var key :| key in Dropped(before.Keys, RefLabels(names));
      RefsApart(names, key);
      assert key !in Desired(before, names);
    }
  }
}
