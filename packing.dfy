/** Concatenation of per-item chunks into one buffer and the position of each chunk inside it:
    the shape shared by every pipeline that flattens its items into one vertex or index buffer. */
module Packing {
  /** `items.iter().flat_map(f).collect()`, written from the back so that a loop appending one
      item at a time follows it. */
  function ConcatMap<A, T>(items: seq<A>, f: A -> seq<T>): seq<T>
    decreases |items|
  {
    if items == [] then [] else ConcatMap(items[..|items| - 1], f) + f(items[|items| - 1])
  }

  /** Where the chunk of item `k` starts: the total length of the chunks before it. */
  function Start<A, T>(items: seq<A>, f: A -> seq<T>, k: nat): nat
    requires k <= |items|
  {
    |ConcatMap(items[..k], f)|
  }

  lemma {:induction false} ConcatMapPrefix<A, T>(items: seq<A>, f: A -> seq<T>, j: nat)
    requires j <= |items|
    ensures ConcatMap(items[..j], f) <= ConcatMap(items, f)
    decreases |items|
  {
    if j < |items| {
      var init := items[..|items| - 1];
      assert init[..j] == items[..j];
      ConcatMapPrefix(init, f, j);
    } else {
      assert items[..j] == items;
    }
  }

  /** Appending one item appends its chunk. */
  lemma ConcatMapSnoc<A, T>(items: seq<A>, f: A -> seq<T>, k: nat)
    requires k < |items|
    ensures ConcatMap(items[..k + 1], f) == ConcatMap(items[..k], f) + f(items[k])
  {
    assert items[..k + 1][..k] == items[..k];
  }

  lemma Associative<T>(a: seq<T>, b: seq<T>, c: seq<T>)
    ensures (a + b) + c == a + (b + c)
  {
  }

  /** Concatenating item lists concatenates their buffers. */
  lemma {:induction false} ConcatMapAppend<A, T>(a: seq<A>, b: seq<A>, f: A -> seq<T>)
    ensures ConcatMap(a + b, f) == ConcatMap(a, f) + ConcatMap(b, f)
    decreases |b|
  {
    if b == [] {
      assert a + b == a;
    } else {
      var b' := b[..|b| - 1];
      assert (a + b)[..|a + b| - 1] == a + b';
      ConcatMapAppend(a, b', f);
    }
  }

  /** The chunk of item `k` sits at `Start(k)`, exactly `|f(items[k])|` long, and the next chunk
      starts right after it. */
  lemma {:induction false} ChunkAt<A, T>(items: seq<A>, f: A -> seq<T>, k: nat)
    requires k < |items|
    ensures Start(items, f, k + 1) == Start(items, f, k) + |f(items[k])|
    ensures Start(items, f, k + 1) <= |ConcatMap(items, f)|
    ensures ConcatMap(items, f)[Start(items, f, k)..Start(items, f, k + 1)] == f(items[k])
  {
    ConcatMapSnoc(items, f, k);
    ConcatMapPrefix(items, f, k + 1);
    var whole := ConcatMap(items, f);
    var upTo := ConcatMap(items[..k + 1], f);
    assert whole[..|upTo|] == upTo;
    assert whole[Start(items, f, k)..Start(items, f, k + 1)] == upTo[Start(items, f, k)..];
  }

  /** The chunk starts only grow along the items. */
  lemma {:induction false} StartMonotone<A, T>(items: seq<A>, f: A -> seq<T>, j: nat, k: nat)
    requires j <= k <= |items|
    ensures Start(items, f, j) <= Start(items, f, k)
  {
    ConcatMapPrefix(items[..k], f, j);
    assert items[..k][..j] == items[..j];
  }

  /** The buffer of a prefix is computed from the prefix alone. */
  lemma StartOfPrefix<A, T>(items: seq<A>, f: A -> seq<T>, n: nat, k: nat)
    requires k <= n <= |items|
    ensures Start(items[..n], f, k) == Start(items, f, k)
  {
    assert items[..n][..k] == items[..k];
  }

  /** `indices.iter().flat_map(|i| i.into_iter())` over `[u32; 3]` triangles. */
  function FlattenTriples(ts: seq<(nat, nat, nat)>): (r: seq<nat>)
    ensures |r| == 3 * |ts|
    decreases |ts|
  {
    if ts == [] then [] else var t := ts[|ts| - 1]; FlattenTriples(ts[..|ts| - 1]) + [t.0, t.1, t.2]
  }

  /** Triangle j's corners are entries 3j, 3j+1 and 3j+2 of the flattened indices. */
  lemma {:induction false} FlattenTriplesAt(ts: seq<(nat, nat, nat)>, j: nat)
    requires j < |ts|
    ensures FlattenTriples(ts)[3 * j] == ts[j].0
    ensures FlattenTriples(ts)[3 * j + 1] == ts[j].1
    ensures FlattenTriples(ts)[3 * j + 2] == ts[j].2
    decreases |ts|
  {
    if j < |ts| - 1 {
      FlattenTriplesAt(ts[..|ts| - 1], j);
    }
  }
}
