/** Operation URLs: built from ids, and taken apart by a greedy pattern. */
module OperationUrl {
  import opened Options

  const SERVICE_INSTANCES := "/v1/service_instances"
  const SERVICE_BINDINGS := "/v1/service_bindings"
  const OPERATIONS := "/operations/"

  function BuildOperationURL(operationId: string, resourceId: string, resourceUrl: string): string {
    resourceUrl + "/" + resourceId + OPERATIONS + operationId
  }

  /** `part` stands in `s` at `k`. */
  predicate OccursAt(s: string, part: string, k: nat) {
    k + |part| <= |s| && s[k..k + |part|] == part
  }

  ghost predicate Occurs(s: string, part: string) {
    exists k: nat :: OccursAt(s, part, k)
  }

  /** The last place of `part` in `s` that is at most `k`. */
  function LastAtMost(s: string, part: string, k: nat): (r: Option<nat>)
    ensures r.Some? ==> r.value <= k && OccursAt(s, part, r.value)
    ensures forall j: nat :: j <= k && OccursAt(s, part, j) ==> r.Some? && j <= r.value
  {
    if OccursAt(s, part, k) then Some(k) else if k == 0 then None else LastAtMost(s, part, k - 1)
  }

  /**
   The id matched by `^<resourceUrl>/(.*)/operations/.*$`: greedy, so up to the last `/operations/`; a dot
   matches no newline; and the empty string when there is no match.
   */
  function Extract(resourceUrl: string, url: string): string {
    var prefix := resourceUrl + "/";
    if !(prefix <= url) || '\n' in url then ""
    else
      var rest := url[|prefix|..];
      match LastAtMost(rest, OPERATIONS, |rest|)
      case Some(k) => rest[..k]
      case None => ""
  }

  function ExtractInstanceID(url: string): string {
    Extract(SERVICE_INSTANCES, url)
  }

  function ExtractBindingID(url: string): string {
    Extract(SERVICE_BINDINGS, url)
  }

  lemma NoInnerSlash(k: nat)
    requires 0 < k < |OPERATIONS| - 1
    ensures OPERATIONS[k] != '/'
  {
  }

  /** `/operations/` can overlap itself only by its last slash. */
  lemma OverlapsAtSlash(s: string, k: nat)
    requires OccursAt(OPERATIONS + s, OPERATIONS, k) && k > 0
    ensures k >= |OPERATIONS| - 1 && OccursAt("/" + s, OPERATIONS, k - (|OPERATIONS| - 1))
  {
    var t := OPERATIONS + s;
    assert t[k] == t[k..k + |OPERATIONS|][0] == '/';
    if k < |OPERATIONS| - 1 {
      NoInnerSlash(k);
    }
    var d := k - (|OPERATIONS| - 1);
    assert t[|OPERATIONS| - 1..] == "/" + s;
    assert ("/" + s)[d..d + |OPERATIONS|] == t[k..k + |OPERATIONS|];
  }

  lemma OverlapsBack(s: string, d: nat)
    requires OccursAt("/" + s, OPERATIONS, d)
    ensures OccursAt(OPERATIONS + s, OPERATIONS, d + |OPERATIONS| - 1)
  {
    var t := OPERATIONS + s;
    assert t[|OPERATIONS| - 1..] == "/" + s;
    assert ("/" + s)[d..d + |OPERATIONS|] == t[d + |OPERATIONS| - 1..d + 2 * |OPERATIONS| - 1];
  }

  lemma Shift(front: string, s: string, part: string, k: nat)
    ensures OccursAt(front + s, part, |front| + k) <==> OccursAt(s, part, k)
  {
    if k + |part| <= |s| {
      assert (front + s)[|front| + k..|front| + k + |part|] == s[k..k + |part|];
    }
  }

  /** The last `/operations/` of a built path is the one put there exactly when the operation id brings no other. */
  lemma LastIsOwn(id: string, op: string)
    ensures var rest := id + OPERATIONS + op;
      var last := LastAtMost(rest, OPERATIONS, |rest|);
      last.Some? && (last == Some(|id|) <==> !Occurs("/" + op, OPERATIONS))
  {
    var rest := id + OPERATIONS + op;
    assert rest == id + (OPERATIONS + op);
    hide OccursAt, LastAtMost, Occurs;
    OwnOccurs(id, op);
    var last := LastAtMost(rest, OPERATIONS, |rest|).value;
    if last != |id| {
      LaterOccurs(id, op, last);
    }
    if Occurs("/" + op, OPERATIONS) {
      var k := Later(id, op);
      assert last >= k;
    }
  }

  /** A further `/operations/` in the operation id comes later. */
  lemma Later(id: string, op: string) returns (k: nat)
    requires Occurs("/" + op, OPERATIONS)
    ensures |id| < k <= |id + OPERATIONS + op| && OccursAt(id + OPERATIONS + op, OPERATIONS, k)
  {
    var d: nat :| OccursAt("/" + op, OPERATIONS, d);
    OverlapsBack(op, d);
    k := |id| + d + |OPERATIONS| - 1;
    hide OccursAt;
    Shift(id, OPERATIONS + op, OPERATIONS, d + |OPERATIONS| - 1);
    assert id + OPERATIONS + op == id + (OPERATIONS + op);
    Within(id + OPERATIONS + op, OPERATIONS, k);
  }

  lemma Within(s: string, part: string, k: nat)
    requires OccursAt(s, part, k)
    ensures k <= |s|
  {
  }

  lemma OwnOccurs(id: string, op: string)
    ensures OccursAt(id + OPERATIONS + op, OPERATIONS, |id|)
  {
    Shift(id, OPERATIONS + op, OPERATIONS, 0);
    assert id + OPERATIONS + op == id + (OPERATIONS + op);
  }

  lemma LaterOccurs(id: string, op: string, k: nat)
    requires k > |id| && OccursAt(id + OPERATIONS + op, OPERATIONS, k)
    ensures Occurs("/" + op, OPERATIONS)
  {
    assert id + OPERATIONS + op == id + (OPERATIONS + op);
    Shift(id, OPERATIONS + op, OPERATIONS, k - |id|);
    OverlapsAtSlash(op, k - |id|);
  }

  /**
   Taking a built URL apart gives the resource id back exactly when the operation id brings no further
   `/operations/`; a newline anywhere gives the empty string instead.
   */
  lemma RoundTrip(id: string, op: string, resourceUrl: string)
    requires '\n' !in resourceUrl
    ensures var back := Extract(resourceUrl, BuildOperationURL(op, id, resourceUrl));
      if '\n' in id || '\n' in op then back == "" else back == id <==> !Occurs("/" + op, OPERATIONS)
  {
    var prefix := resourceUrl + "/";
    var rest := id + OPERATIONS + op;
    var url := BuildOperationURL(op, id, resourceUrl);
    assert url == prefix + rest;
    assert url[|prefix|..] == rest;
    assert '\n' in url <==> '\n' in id || '\n' in op by { NewlineIn(prefix, id, op); }
    LastIsOwn(id, op);
    var last := LastAtMost(rest, OPERATIONS, |rest|).value;
    assert last == |id| ==> rest[..last] == id;
  }

  /** The two URLs the client builds: what is asked for is the id of the instance or binding. */
  lemma ExtractorsRoundTrip(id: string, op: string)
    ensures var instance, binding :=
        ExtractInstanceID(BuildOperationURL(op, id, SERVICE_INSTANCES)), ExtractBindingID(BuildOperationURL(op, id, SERVICE_BINDINGS));
      if '\n' in id || '\n' in op then instance == binding == ""
      else (instance == id <==> !Occurs("/" + op, OPERATIONS)) && (binding == id <==> !Occurs("/" + op, OPERATIONS))
  {
    assert '\n' !in SERVICE_INSTANCES && '\n' !in SERVICE_BINDINGS;
    hide Extract, BuildOperationURL, Occurs;
    RoundTrip(id, op, SERVICE_INSTANCES);
    RoundTrip(id, op, SERVICE_BINDINGS);
  }

  /** The URL of an instance names no binding, nor the other way round. */
  lemma ExtractorsApart(id: string, op: string)
    ensures ExtractBindingID(BuildOperationURL(op, id, SERVICE_INSTANCES)) == ""
    ensures ExtractInstanceID(BuildOperationURL(op, id, SERVICE_BINDINGS)) == ""
  {
    assert SERVICE_INSTANCES[12] != SERVICE_BINDINGS[12];
    var instance, binding := BuildOperationURL(op, id, SERVICE_INSTANCES), BuildOperationURL(op, id, SERVICE_BINDINGS);
    assert instance[12] == SERVICE_INSTANCES[12] && binding[12] == SERVICE_BINDINGS[12];
    assert (SERVICE_BINDINGS + "/")[12] == SERVICE_BINDINGS[12] && (SERVICE_INSTANCES + "/")[12] == SERVICE_INSTANCES[12];
  }

  lemma NewlineIn(prefix: string, id: string, op: string)
    requires '\n' !in prefix
    ensures '\n' in prefix + (id + OPERATIONS + op) <==> '\n' in id || '\n' in op
  {
    assert '\n' !in OPERATIONS;
  }
}
