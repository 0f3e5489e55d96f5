/** How the parameters of an instance are merged from its secrets and its specification. */
module Parameters {
  import opened Options

  type Params<V> = map<string, V>

  const SHARED := "shared"

  /** A source in a secret: its parameters, unless it cannot be read or parsed; or a source that names no secret. */
  datatype Source<V> = Readable(secret: string, params: Params<V>) | Unreadable | NoSecret

  /** `None` stands for parameters that are left out of the request. */
  datatype Result<V> = Ok(params: Option<Params<V>>, secrets: set<string>) | Failed

  /** What a source contributes: sharing has its own request. */
  function Contribution<V>(s: Source<V>): Params<V> {
    match s case Readable(_, params) => params - {SHARED} case _ => map[]
  }

  /** The contributions of all sources, the specification last. */
  function Contributions<V>(sources: seq<Source<V>>, inline: Option<Params<V>>): seq<Params<V>> {
    seq(|sources|, k requires 0 <= k < |sources| => Contribution(sources[k])) + [inline.GetOr(map[])]
  }

  /** No key comes from two sources. */
  predicate Disjoint<V>(maps: seq<Params<V>>) {
    forall j, k :: 0 <= j < k < |maps| ==> maps[j].Keys !! maps[k].Keys
  }

  predicate Somewhere<V>(maps: seq<Params<V>>, key: string) {
    exists k :: 0 <= k < |maps| && key in maps[k]
  }

  /** Every key of every source with its value. */
  ghost predicate IsUnion<V>(maps: seq<Params<V>>, union: Params<V>) {
    && (forall key :: key in union <==> Somewhere(maps, key))
    && (forall k, key :: 0 <= k < |maps| && key in maps[k] ==> key in union && union[key] == maps[k][key])
  }

  /** The contributions merged so far. */
  ghost predicate Merged<V>(maps: seq<Params<V>>, n: nat, union: Params<V>)
    requires n <= |maps|
  {
    Disjoint(maps[..n]) && IsUnion(maps[..n], union)
  }

  lemma NothingMerged<V>(maps: seq<Params<V>>)
    ensures Merged(maps, 0, map[])
  {
  }

  lemma MergeNext<V>(maps: seq<Params<V>>, n: nat, union: Params<V>)
    requires n < |maps| && Merged(maps, n, union)
    ensures maps[n].Keys !! union.Keys ==> Merged(maps, n + 1, union + maps[n])
    ensures !(maps[n].Keys !! union.Keys) ==> !Disjoint(maps)
  {
    var m := maps[..n];
    var m1 := maps[..n + 1];
    assert forall k :: 0 <= k < n ==> m1[k] == m[k];
    assert m1[n] == maps[n];
    if maps[n].Keys !! union.Keys {
      forall key
        ensures key in union + maps[n] <==> Somewhere(m1, key)
      {
        if key in maps[n] {
          assert key in m1[n];
        } else if key in union {
          var k :| 0 <= k < |m| && key in m[k];
          assert key in m1[k];
        }
      }
    } else {
      var key :| key in maps[n].Keys && key in union.Keys;
      var k :| 0 <= k < |m| && key in m[k];
      assert key in maps[k].Keys && key in maps[n].Keys;
    }
  }

  /** One source into the accumulated parameters; its keys come in any order. */
  method MergeOne<V>(params: Params<V>, fps: Params<V>, dropShared: bool) returns (ok: bool, merged: Params<V>)
    ensures ok ==> merged == params + Kept(fps, dropShared)
    ensures ok <==> Kept(fps, dropShared).Keys !! params.Keys
  {
    hide Kept, Merging;
    merged, ok := params, true;
    var keys := fps.Keys;
    ghost var done: set<string> := {};
    MergingStarts(params, fps, dropShared);
    while keys != {}
      invariant keys <= fps.Keys && done == fps.Keys - keys && ok
      invariant Merging(params, fps, dropShared, done, merged)
      decreases |keys|
    {
      var key :| key in keys;
      MergingGoesOn(params, fps, dropShared, done, merged, key);
      if !(dropShared && key == SHARED) {
        if key in merged {
          return false, merged;
        }
        merged := merged[key := fps[key]];
      }
      keys := keys - {key};
      done := done + {key};
    }
    assert done == fps.Keys;
    MergingEnds(params, fps, dropShared, merged);
  }

  /** The parameters without the one that has its own request. */
  function Kept<V>(fps: Params<V>, dropShared: bool): Params<V> {
    if dropShared then fps - {SHARED} else fps
  }

  /** What a merge of one source takes over, and when it is refused. */
  lemma KeptKeys<V>(params: Params<V>, fps: Params<V>, dropShared: bool)
    ensures var kept := Kept(fps, dropShared);
      && (forall key :: key in kept <==> key in fps && !(dropShared && key == SHARED))
      && (forall key :: key in kept ==> kept[key] == fps[key])
      && (kept.Keys !! params.Keys <==> forall key :: key in fps && !(dropShared && key == SHARED) ==> key !in params)
  {
    var kept := Kept(fps, dropShared);
    assert forall key :: key in kept <==> key in fps && !(dropShared && key == SHARED);
    if kept.Keys !! params.Keys {
      forall key | key in fps && !(dropShared && key == SHARED)
        ensures key !in params
      {
        assert key in kept.Keys;
      }
    }
  }

  /** The entries of a map under some keys. */
  function Part<V>(m: Params<V>, keys: set<string>): Params<V> {
    map k | k in m && k in keys :: m[k]
  }

  /** The keys in `done` are merged, and none of them was there before. */
  predicate Merging<V(==)>(params: Params<V>, fps: Params<V>, dropShared: bool, done: set<string>, merged: Params<V>) {
    var part := Part(Kept(fps, dropShared), done);
    merged == params + part && part.Keys !! params.Keys
  }

  lemma MergingStarts<V>(params: Params<V>, fps: Params<V>, dropShared: bool)
    ensures Merging(params, fps, dropShared, {}, params)
  {
    assert Part(Kept(fps, dropShared), {}) == map[];
  }

  lemma MergingEnds<V>(params: Params<V>, fps: Params<V>, dropShared: bool, merged: Params<V>)
    requires Merging(params, fps, dropShared, fps.Keys, merged)
    ensures Kept(fps, dropShared).Keys !! params.Keys && merged == params + Kept(fps, dropShared)
  {
    assert Part(Kept(fps, dropShared), fps.Keys) == Kept(fps, dropShared);
  }

  /** What one more key adds. */
  lemma MergingGoesOn<V>(params: Params<V>, fps: Params<V>, dropShared: bool, done: set<string>, merged: Params<V>, key: string)
    requires Merging(params, fps, dropShared, done, merged) && key in fps && key !in done
    ensures dropShared && key == SHARED ==> Merging(params, fps, dropShared, done + {key}, merged)
    ensures !(dropShared && key == SHARED) ==>
      if key in merged then !(Kept(fps, dropShared).Keys !! params.Keys)
      else Merging(params, fps, dropShared, done + {key}, merged[key := fps[key]])
  {
    var m := Kept(fps, dropShared);
    if dropShared && key == SHARED {
      assert Part(m, done + {key}) == Part(m, done);
    } else {
      assert Part(m, done + {key}) == Part(m, done)[key := m[key]];
      assert key in m.Keys;
    }
  }

  // ----- the whole request

  /** A secret brings this key; sharing has its own request, and is left out. */
  predicate Brings<V>(s: Source<V>, key: string) {
    s.Readable? && key in s.params && key != "shared"
  }

  /** No two secrets bring the same key, and none brings one of the specification. */
  ghost predicate NoKeyTwice<V>(sources: seq<Source<V>>, inline: Option<Params<V>>) {
    && (forall j, k, key :: 0 <= j < k < |sources| && Brings(sources[j], key) ==> !Brings(sources[k], key))
    && (inline.Some? ==> forall k, key :: 0 <= k < |sources| && Brings(sources[k], key) ==> key !in inline.value)
  }

  predicate SomeBrings<V>(sources: seq<Source<V>>, key: string) {
    exists k :: 0 <= k < |sources| && Brings(sources[k], key)
  }

  /** Every key a secret brings and every key of the specification, with its value, and nothing else. */
  ghost predicate Requested<V>(sources: seq<Source<V>>, inline: Option<Params<V>>, params: Params<V>) {
    && (forall key :: key in params <==> SomeBrings(sources, key) || (inline.Some? && key in inline.value))
    && (forall k, key :: 0 <= k < |sources| && Brings(sources[k], key) ==> key in params && params[key] == sources[k].params[key])
    && (inline.Some? ==> forall key :: key in inline.value ==> key in params && params[key] == inline.value[key])
  }

  lemma ContributionIs<V>(s: Source<V>)
    ensures forall key :: key in Contribution(s) <==> Brings(s, key)
    ensures forall key :: Brings(s, key) ==> Contribution(s)[key] == s.params[key]
  {
  }

  lemma ContributionsAt<V>(sources: seq<Source<V>>, inline: Option<Params<V>>)
    ensures var maps := Contributions(sources, inline);
      && |maps| == |sources| + 1 && maps[|sources|] == inline.GetOr(map[])
      && (forall k :: 0 <= k < |sources| ==> maps[k] == Contribution(sources[k]))
      && (forall k, key :: 0 <= k < |sources| ==> (key in maps[k] <==> Brings(sources[k], key)))
  {
    forall k | 0 <= k < |sources|
      ensures forall key :: key in Contribution(sources[k]) <==> Brings(sources[k], key)
    {
      ContributionIs(sources[k]);
    }
  }

  lemma DisjointIs<V>(sources: seq<Source<V>>, inline: Option<Params<V>>)
    ensures Disjoint(Contributions(sources, inline)) <==> NoKeyTwice(sources, inline)
  {
    var maps := Contributions(sources, inline);
    var n := |sources|;
    ContributionsAt(sources, inline);
    hide Contributions, Contribution, Brings;
    if Disjoint(maps) {
      forall j, k, key | 0 <= j < k < n && Brings(sources[j], key)
        ensures !Brings(sources[k], key)
      {
        assert key in maps[j].Keys;
        assert maps[j].Keys !! maps[k].Keys;
      }
      if inline.Some? {
        forall k, key | 0 <= k < n && Brings(sources[k], key)
          ensures key !in inline.value
        {
          assert key in maps[k].Keys;
          assert maps[k].Keys !! maps[n].Keys;
        }
      }
    }
    if NoKeyTwice(sources, inline) {
      forall j, k | 0 <= j < k < |maps|
        ensures maps[j].Keys !! maps[k].Keys
      {
        forall key | key in maps[j].Keys
          ensures key !in maps[k].Keys
        {
          assert Brings(sources[j], key);
        }
      }
    }
  }

  lemma UnionIs<V>(sources: seq<Source<V>>, inline: Option<Params<V>>, params: Params<V>)
    requires IsUnion(Contributions(sources, inline), params)
    ensures Requested(sources, inline, params)
  {
    var maps := Contributions(sources, inline);
    var n := |sources|;
    ContributionsAt(sources, inline);
    forall k | 0 <= k < n
      ensures forall key :: Brings(sources[k], key) ==> maps[k][key] == sources[k].params[key]
    {
      ContributionIs(sources[k]);
    }
    hide Contributions, Contribution, Brings;
    forall key
      ensures Somewhere(maps, key) <==> SomeBrings(sources, key) || (inline.Some? && key in inline.value)
    {
      if k :| 0 <= k < n && Brings(sources[k], key) {
        assert key in maps[k];
      }
      if inline.Some? && key in inline.value {
        assert key in maps[n];
      }
    }
  }

  /** BuildSMRequestParameters, up to the encoding of the result. */
  method Build<V>(sources: seq<Source<V>>, inline: Option<Params<V>>, wellFormed: bool) returns (r: Result<V>)
    ensures r.Ok? <==>
              && (forall k :: 0 <= k < |sources| ==> sources[k] != Unreadable)
              && (inline.Some? ==> wellFormed)
              && NoKeyTwice(sources, inline)
    ensures r.Ok? ==> forall name :: name in r.secrets <==> exists k :: 0 <= k < |sources| && sources[k].Readable? && sources[k].secret == name
    ensures r.Ok? ==> Requested(sources, inline, r.params.GetOr(map[])) && (r.params.Some? ==> r.params.value != map[])
  {
    hide NoKeyTwice, Requested, Brings, IsUnion;
    DisjointIs(sources, inline);
    ghost var maps := Contributions(sources, inline);
    var params: Params<V> := map[];
    var secrets: set<string> := {};
    NothingMerged(maps);
    for k := 0 to |sources|
      invariant Merged(maps, k, params)
      invariant forall j :: 0 <= j < k ==> sources[j] != Unreadable
      invariant secrets == set j | 0 <= j < k && sources[j].Readable? :: sources[j].secret
    {
      if sources[k].Unreadable? {
        return Failed;
      }
      MergeNext(maps, k, params);
      assert maps[k] == Contribution(sources[k]);
      if sources[k].Readable? {
        secrets := secrets + {sources[k].secret};
        var ok, merged := MergeOne(params, sources[k].params, true);
        if !ok {
          return Failed;
        }
        params := merged;
      } else {
        assert params + map[] == params;
      }
    }
    var n := |sources|;
    MergeNext(maps, n, params);
    assert maps[n] == inline.GetOr(map[]);
    if inline.Some? {
      if !wellFormed {
        return Failed;
      }
      var ok, merged := MergeOne(params, inline.value, false);
      if !ok {
        return Failed;
      }
      params := merged;
    } else {
      assert params + map[] == params;
    }
    assert maps[..n + 1] == maps;
    UnionIs(sources, inline, params);
    r := Ok(if params == map[] then None else Some(params), secrets);
  }

  /** The union is one value, whatever the order of sources and keys. */
  lemma UnionUnique<V>(maps: seq<Params<V>>, union1: Params<V>, union2: Params<V>)
    requires IsUnion(maps, union1) && IsUnion(maps, union2)
    ensures union1 == union2
  {
    forall key
      ensures key in union1 <==> key in union2
      ensures key in union1 ==> union1[key] == union2[key]
    {
      if key in union1 {
        var k :| 0 <= k < |maps| && key in maps[k];
      }
    }
  }

  /** `order` lists every index below `n` once. */
  predicate IsOrder(order: seq<nat>, n: nat) {
    && |order| == n
    && (forall k :: 0 <= k < n ==> order[k] < n)
    && (forall j, k :: 0 <= j < k < n ==> order[j] != order[k])
    && (forall i: nat :: i < n ==> i in order)
  }

  ghost function PlaceOf(order: seq<nat>, n: nat, i: nat): (k: nat)
    requires IsOrder(order, n) && i < n
    ensures k < n && order[k] == i
  {
    assert i in order;
    var k: nat :| k < |order| && order[k] == i;
    k
  }

  function Reordered<V>(maps: seq<Params<V>>, order: seq<nat>): seq<Params<V>>
    requires IsOrder(order, |maps|)
  {
    seq(|maps|, k requires 0 <= k < |maps| => maps[order[k]])
  }

  lemma DisjointReordered<V>(maps: seq<Params<V>>, order: seq<nat>)
    requires IsOrder(order, |maps|)
    ensures Disjoint(Reordered(maps, order)) <==> Disjoint(maps)
  {
    var maps1 := Reordered(maps, order);
    if Disjoint(maps) {
      forall j, k | 0 <= j < k < |maps1|
        ensures maps1[j].Keys !! maps1[k].Keys
      {
        if order[j] < order[k] {
          assert maps[order[j]].Keys !! maps[order[k]].Keys;
        } else {
          assert maps[order[k]].Keys !! maps[order[j]].Keys;
        }
      }
    }
    if Disjoint(maps1) {
      forall j, k | 0 <= j < k < |maps|
        ensures maps[j].Keys !! maps[k].Keys
      {
        var j1, k1 := PlaceOf(order, |maps|, j), PlaceOf(order, |maps|, k);
        assert maps1[j1] == maps[j] && maps1[k1] == maps[k];
        if j1 < k1 {
          assert maps1[j1].Keys !! maps1[k1].Keys;
        } else {
          assert maps1[k1].Keys !! maps1[j1].Keys;
        }
      }
    }
  }

  lemma UnionReordered<V>(maps: seq<Params<V>>, order: seq<nat>, union: Params<V>)
    requires IsOrder(order, |maps|)
    ensures IsUnion(Reordered(maps, order), union) <==> IsUnion(maps, union)
  {
    var maps1 := Reordered(maps, order);
    forall key
      ensures Somewhere(maps, key) <==> Somewhere(maps1, key)
    {
      if k :| 0 <= k < |maps| && key in maps[k] {
        var k1 := PlaceOf(order, |maps|, k);
        assert key in maps1[k1];
      }
      if k :| 0 <= k < |maps1| && key in maps1[k] {
        assert key in maps[order[k]];
      }
    }
    if IsUnion(maps1, union) {
      forall k, key | 0 <= k < |maps| && key in maps[k]
        ensures key in union && union[key] == maps[k][key]
      {
        var k1 := PlaceOf(order, |maps|, k);
        assert key in maps1[k1];
      }
    }
  }

  /** The sources in another order fail or succeed alike, with the same union. */
  lemma OrderIndependent<V>(maps: seq<Params<V>>, order: seq<nat>, union: Params<V>)
    requires IsOrder(order, |maps|)
    ensures Disjoint(Reordered(maps, order)) <==> Disjoint(maps)
    ensures IsUnion(Reordered(maps, order), union) <==> IsUnion(maps, union)
  {
    DisjointReordered(maps, order);
    UnionReordered(maps, order, union);
  }
}
