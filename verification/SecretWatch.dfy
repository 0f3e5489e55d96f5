/**
 Which instances watch which parameter secrets.  A secret carries one annotation per watching instance,
 a label while there is any, and a finalizer; an instance carries one label per secret it refers to.
 */
module SecretWatch {
  const WATCH_ANNOTATION := "services.cloud.sap.com/watch-secret-"
  const WATCH_LABEL := "services.cloud.sap.com/watch-secret"
  const SECRET_REF_LABEL := "services.cloud.sap.com/secret-ref_"
  const FINALIZER := "services.cloud.sap.com/sap-btp-finalizer"

  type Strings = map<string, string>

  /** The metadata of a secret that the watch protocol touches. */
  datatype Marks = Marks(annotations: Strings, labels: Strings, finalizers: set<string>)

  /** Reading a missing key yields the empty string. */
  function Value(m: Strings, key: string): string {
    if key in m then m[key] else ""
  }

  function WatchKey(uid: string): string {
    WATCH_ANNOTATION + uid
  }

  predicate IsWatch(key: string) {
    WATCH_ANNOTATION <= key
  }

  function Watcher(key: string): string
    requires IsWatch(key)
  {
    key[|WATCH_ANNOTATION|..]
  }

  lemma WatchKeys(uid: string)
    ensures IsWatch(WatchKey(uid)) && Watcher(WatchKey(uid)) == uid
  {
  }

  lemma KeysOfWatchers(key: string)
    requires IsWatch(key)
    ensures WatchKey(Watcher(key)) == key
  {
  }

  /** The instances that watch a secret. */
  function Watchers(m: Marks): set<string> {
    set key | key in m.annotations && IsWatch(key) :: Watcher(key)
  }

  /** The label counts the watchers, and a labelled secret has the finalizer. */
  predicate WellMarked(m: Marks) {
    && (forall key :: key in m.annotations && IsWatch(key) ==> m.annotations[key] != "")
    && (WATCH_LABEL in m.labels <==> Watchers(m) != {})
    && (WATCH_LABEL in m.labels ==> m.labels[WATCH_LABEL] == "true" && FINALIZER in m.finalizers)
  }

  /** Everything the protocol does not own. */
  ghost predicate SameOthers(m: Marks, m1: Marks) {
    && (forall key :: !IsWatch(key) ==> (key in m1.annotations <==> key in m.annotations))
    && (forall key :: !IsWatch(key) && key in m.annotations ==> m1.annotations[key] == m.annotations[key])
    && m1.labels - {WATCH_LABEL} == m.labels - {WATCH_LABEL}
    && m1.finalizers - {FINALIZER} == m.finalizers - {FINALIZER}
  }

  /** The metadata after AddWatchForSecretIfNeeded. */
  function Added(m: Marks, uid: string): Marks {
    var unlabelled := Value(m.labels, WATCH_LABEL) != "true";
    Marks(
      if Value(m.annotations, WatchKey(uid)) == "" then m.annotations[WatchKey(uid) := "true"] else m.annotations,
      if unlabelled then m.labels[WATCH_LABEL := "true"] else m.labels,
      if unlabelled then m.finalizers + {FINALIZER} else m.finalizers)
  }

  /** The metadata after RemoveWatchForSecret. */
  function Removed(m: Marks, uid: string): Marks {
    var annotations := m.annotations - {WatchKey(uid)};
    if exists key :: key in annotations && IsWatch(key) then m.(annotations := annotations)
    else Marks(annotations, m.labels - {WATCH_LABEL}, m.finalizers - {FINALIZER})
  }

  lemma WatcherIff(m: Marks, uid: string)
    ensures uid in Watchers(m) <==> WatchKey(uid) in m.annotations
  {
    hide IsWatch, Watcher, WatchKey;
    WatchKeys(uid);
    if uid in Watchers(m) {
      var key :| key in m.annotations && IsWatch(key) && Watcher(key) == uid;
      KeysOfWatchers(key);
    }
  }

  lemma AddedWatchers(m: Marks, uid: string)
    ensures Watchers(Added(m, uid)) == Watchers(m) + {uid}
  {
    var m1 := Added(m, uid);
    hide IsWatch, Watcher, WatchKey, Watchers;
    forall u
      ensures u in Watchers(m1) <==> u in Watchers(m) + {uid}
    {
      WatcherIff(m, u);
      WatcherIff(m1, u);
      SameKey(u, uid);
    }
  }

  lemma SameKey(u: string, uid: string)
    ensures WatchKey(u) == WatchKey(uid) <==> u == uid
  {
    hide WatchKey, Watcher, IsWatch;
    WatchKeys(u);
    WatchKeys(uid);
  }

  lemma RemovedWatchers(m: Marks, uid: string)
    ensures Watchers(Removed(m, uid)) == Watchers(m) - {uid}
  {
    var m1 := Removed(m, uid);
    assert m1.annotations == m.annotations - {WatchKey(uid)};
    hide IsWatch, Watcher, WatchKey, Watchers, Removed;
    forall u
      ensures u in Watchers(m1) <==> u in Watchers(m) - {uid}
    {
      WatcherIff(m, u);
      WatcherIff(m1, u);
      SameKey(u, uid);
    }
  }

  lemma AddedOk(m: Marks, uid: string)
    requires WellMarked(m)
    ensures WellMarked(Added(m, uid)) && SameOthers(m, Added(m, uid))
  {
    WatchKeys(uid);
    AddedWatchers(m, uid);
    hide IsWatch, Watcher, WatchKey, Watchers;
  }

  lemma RemovedOk(m: Marks, uid: string)
    requires WellMarked(m)
    ensures WellMarked(Removed(m, uid)) && SameOthers(m, Removed(m, uid))
  {
    var m1 := Removed(m, uid);
    WatchKeys(uid);
    RemovedWatchers(m, uid);
    NoWatchers(m1);
    hide IsWatch, Watcher, WatchKey, Watchers;
  }

  lemma NoWatchers(m: Marks)
    ensures Watchers(m) == {} <==> !exists key :: key in m.annotations && IsWatch(key)
  {
    hide IsWatch, Watcher;
    if key :| key in m.annotations && IsWatch(key) {
      assert Watcher(key) in Watchers(m);
    }
  }

  // ----- reference counting

  datatype WatchOp = Add(uid: string) | Remove(uid: string)

  function Applied(m: Marks, ops: seq<WatchOp>): Marks
    decreases |ops|
  {
    if ops == [] then m
    else Applied(match ops[0] case Add(uid) => Added(m, uid) case Remove(uid) => Removed(m, uid), ops[1..])
  }

  /** What a plain set of instance UIDs becomes. */
  function Counted(watchers: set<string>, ops: seq<WatchOp>): set<string>
    decreases |ops|
  {
    if ops == [] then watchers
    else Counted(match ops[0] case Add(uid) => watchers + {uid} case Remove(uid) => watchers - {uid}, ops[1..])
  }

  lemma SameOthersTransitive(m: Marks, m1: Marks, m2: Marks)
    requires SameOthers(m, m1) && SameOthers(m1, m2)
    ensures SameOthers(m, m2)
  {
    hide IsWatch;
  }

  /** Any sequence of watches and unwatches, for any instances, refines operations on a set of UIDs. */
  lemma {:induction false} ReferenceCounting(m: Marks, ops: seq<WatchOp>)
    requires WellMarked(m)
    ensures var m1 := Applied(m, ops);
      WellMarked(m1) && Watchers(m1) == Counted(Watchers(m), ops) && SameOthers(m, m1)
    decreases |ops|
  {
    hide WellMarked, Added, Removed, Watchers, SameOthers;
    if ops == [] {
      assert SameOthers(m, m) by { SameOthersItself(m); }
    } else {
      var m1 := match ops[0] case Add(uid) => Added(m, uid) case Remove(uid) => Removed(m, uid);
      match ops[0] {
        case Add(uid) => AddedOk(m, uid); AddedWatchers(m, uid);
        case Remove(uid) => RemovedOk(m, uid); RemovedWatchers(m, uid);
      }
      ReferenceCounting(m1, ops[1..]);
      SameOthersTransitive(m, m1, Applied(m, ops));
    }
  }

  lemma SameOthersItself(m: Marks)
    ensures SameOthers(m, m)
  {
  }

  // ----- the API server's secrets

  class SecretStore {
    var secrets: map<string, Marks>
    var version: nat

    constructor (existing: map<string, Marks>)
      ensures secrets == existing && version == 0
    {
      secrets := existing;
      version := 0;
    }

    method Put(name: string, marks: Marks, accepted: bool) returns (ok: bool)
      modifies this
      ensures ok == accepted
      ensures secrets == if accepted then old(secrets)[name := marks] else old(secrets)
      ensures version == if accepted then old(version) + 1 else old(version)
    {
      ok := accepted;
      if accepted {
        secrets := secrets[name := marks];
        version := version + 1;
      }
    }

    /** AddWatchForSecretIfNeeded: writes only if something is missing. */
    method AddWatch(name: string, uid: string, accepted: bool) returns (ok: bool)
      requires name in secrets
      modifies this
      ensures ok ==> secrets == old(secrets)[name := Added(old(secrets)[name], uid)]
      ensures ok ==>
        var m, m1 := old(secrets)[name], secrets[name];
        && m1.annotations == (if Value(m.annotations, WATCH_ANNOTATION + uid) != "" then m.annotations
                              else m.annotations[WATCH_ANNOTATION + uid := "true"])
        && m1.labels == m.labels[WATCH_LABEL := "true"]
        && m1.finalizers == (if Value(m.labels, WATCH_LABEL) == "true" then m.finalizers else m.finalizers + {FINALIZER})
      ensures !ok ==> secrets == old(secrets) && !accepted
      ensures version == old(version) <==> secrets == old(secrets)
    {
      var marks := secrets[name];
      var updateRequired := false;
      var annotations, labels, finalizers := marks.annotations, marks.labels, marks.finalizers;
      if |Value(annotations, WatchKey(uid))| == 0 {
        annotations := annotations[WatchKey(uid) := "true"];
        updateRequired := true;
      }
      if Value(labels, WATCH_LABEL) != "true" {
        labels := labels[WATCH_LABEL := "true"];
        finalizers := finalizers + {FINALIZER};
        updateRequired := true;
      }
      assert Marks(annotations, labels, finalizers) == Added(marks, uid) by { hide WatchKey, IsWatch; }
      ok := true;
      if updateRequired {
        assert Value(annotations, WatchKey(uid)) != Value(marks.annotations, WatchKey(uid)) || Value(labels, WATCH_LABEL) != Value(marks.labels, WATCH_LABEL);
        ok := Put(name, Marks(annotations, labels, finalizers), accepted);
      } else {
        assert secrets[name := marks] == secrets;
      }
    }

    /** RemoveWatchForSecret: a secret that is gone needs no unwatching. */
    method RemoveWatch(name: string, uid: string, accepted: bool) returns (ok: bool)
      modifies this
      ensures name !in old(secrets) ==> ok && secrets == old(secrets)
      ensures name in old(secrets) && ok ==> secrets == old(secrets)[name := Removed(old(secrets)[name], uid)]
      ensures name in old(secrets) && ok ==>
        var m, m1 := old(secrets)[name], secrets[name];
        && m1.annotations == m.annotations - {WATCH_ANNOTATION + uid}
        && (if exists key :: key in m1.annotations && WATCH_ANNOTATION <= key then m1.labels == m.labels && m1.finalizers == m.finalizers
            else m1.labels == m.labels - {WATCH_LABEL} && m1.finalizers == m.finalizers - {FINALIZER})
      ensures !ok ==> secrets == old(secrets) && !accepted
    {
      if name !in secrets {
        return true;
      }
      var marks := secrets[name];
      var annotations, labels, finalizers := marks.annotations - {WatchKey(uid)}, marks.labels, marks.finalizers;
      var existInstanceAnnotation := false;
      var keys := annotations.Keys;
      while keys != {}
        invariant keys <= annotations.Keys
        invariant forall key :: key in annotations && key !in keys ==> !IsWatch(key)
        decreases |keys|
      {
        var key :| key in keys;
        if WATCH_ANNOTATION <= key {
          existInstanceAnnotation := true;
          break;
        }
        keys := keys - {key};
      }
      assert existInstanceAnnotation <==> exists key :: key in annotations && IsWatch(key);
      if !existInstanceAnnotation {
        labels := labels - {WATCH_LABEL};
        finalizers := finalizers - {FINALIZER};
      }
      assert Marks(annotations, labels, finalizers) == Removed(marks, uid);
      ok := Put(name, Marks(annotations, labels, finalizers), accepted);
    }
  }
}
