/**
 Greedy chunking of a batch of messages by their encoded size. Nothing is lost or reordered, each chunk
 fits the target unless it is one message, and no partition with those properties has fewer chunks.
 */
module ProtoBatch {
  function Total<T>(ms: seq<T>, size: T -> nat): nat {
    if ms == [] then 0 else Total(ms[..|ms| - 1], size) + size(ms[|ms| - 1])
  }

  function Concat<T>(chunks: seq<seq<T>>): seq<T> {
    if chunks == [] then [] else chunks[0] + Concat(chunks[1..])
  }

  predicate Fits<T>(chunk: seq<T>, size: T -> nat, target: int) {
    |chunk| == 1 || (|chunk| > 1 && Total(chunk, size) <= target)
  }

  ghost predicate Chunked<T>(chunks: seq<seq<T>>, size: T -> nat, target: int) {
    forall c :: c in chunks ==> Fits(c, size, target)
  }

  /** A chunk has no room for the first message of the next one. */
  predicate NoRoom<T>(chunk: seq<T>, next: seq<T>, size: T -> nat, target: int) {
    |next| > 0 && Total(chunk, size) + size(next[0]) > target
  }

  ghost predicate Full<T>(chunks: seq<seq<T>>, size: T -> nat, target: int) {
    forall i, j :: 0 <= i < j < |chunks| && j == i + 1 ==> NoRoom(chunks[i], chunks[j], size, target)
  }

  lemma {:induction false} ConcatAppend<T>(chunks: seq<seq<T>>, c: seq<T>)
    ensures Concat(chunks + [c]) == Concat(chunks) + c
  {
    if chunks == [] {
      assert [c][1..] == [];
    } else {
      ConcatAppend(chunks[1..], c);
      assert (chunks + [c])[1..] == chunks[1..] + [c];
    }
  }

  lemma TotalAppend<T>(ms: seq<T>, m: T, size: T -> nat)
    ensures Total(ms + [m], size) == Total(ms, size) + size(m)
  {
    assert (ms + [m])[..|ms|] == ms;
  }

  lemma {:induction false} TotalOfPart<T>(ms: seq<T>, lo: nat, hi: nat, size: T -> nat)
    requires lo <= hi <= |ms|
    ensures Total(ms[lo..hi], size) <= Total(ms, size)
    decreases |ms|
  {
    if hi < |ms| {
      TotalOfPart(ms[..|ms| - 1], lo, hi, size);
      assert ms[..|ms| - 1][lo..hi] == ms[lo..hi];
    } else if lo < hi {
      TotalOfPart(ms[..|ms| - 1], lo, hi - 1, size);
      var part := ms[lo..hi];
      assert part[..|part| - 1] == ms[lo..hi - 1] == ms[..|ms| - 1][lo..hi - 1];
    }
  }

  /** The loop's invariant: what is before `start` is chunked, and the message at `start` had no room there. */
  ghost predicate Done<T>(chunks: seq<seq<T>>, batch: seq<T>, start: nat, size: T -> nat, target: int)
    requires start <= |batch|
  {
    && Concat(chunks) == batch[..start] && Chunked(chunks, size, target) && Full(chunks, size, target)
    && (chunks != [] && start < |batch| ==> Total(chunks[|chunks| - 1], size) + size(batch[start]) > target)
  }

  lemma FullAppend<T>(chunks: seq<seq<T>>, c: seq<T>, size: T -> nat, target: int)
    requires Full(chunks, size, target) && |c| > 0
    requires chunks != [] ==> Total(chunks[|chunks| - 1], size) + size(c[0]) > target
    ensures Full(chunks + [c], size, target)
  {
  }

  /** The chunk from `start` is closed before `i` because the message there does not fit, or there is none. */
  lemma ChunkCloses<T>(chunks: seq<seq<T>>, batch: seq<T>, start: nat, i: nat, size: T -> nat, target: int)
    requires start < i <= |batch| && Done(chunks, batch, start, size, target)
    requires Fits(batch[start..i], size, target)
    requires i < |batch| ==> Total(batch[start..i], size) + size(batch[i]) > target
    ensures Done(chunks + [batch[start..i]], batch, i, size, target)
  {
    var c := batch[start..i];
    ConcatAppend(chunks, c);
    FullAppend(chunks, c, size, target);
    assert batch[..i] == batch[..start] + c;
  }

  method ChunkProtoBatch<T>(batch: seq<T>, size: T -> nat, target: int) returns (chunks: seq<seq<T>>)
    ensures Concat(chunks) == batch
    ensures Chunked(chunks, size, target) && Full(chunks, size, target)
  {
    chunks := [];
    var start, total := 0, 0;
    for i := 0 to |batch|
      invariant start <= i && (i > 0 ==> start < i)
      invariant Done(chunks, batch, start, size, target)
      invariant total == Total(batch[start..i], size)
      invariant start < i ==> Fits(batch[start..i], size, target)
    {
      var s := size(batch[i]);
      assert batch[start..i + 1] == batch[start..i] + [batch[i]];
      TotalAppend(batch[start..i], batch[i], size);
      if total + s > target {
        if start < i {
          ChunkCloses(chunks, batch, start, i, size, target);
          chunks := chunks + [batch[start..i]];
        }
        start := i;
        total := 0;
        assert batch[i..i + 1] == [batch[i]];
      }
      total := total + s;
    }
    if start < |batch| {
      assert batch[start..] == batch[start..|batch|];
      ChunkCloses(chunks, batch, start, |batch|, size, target);
      chunks := chunks + [batch[start..]];
    }
    assert batch[..|batch|] == batch;
  }

  // ---------------------------------------------------------------------------------------
  // No partition has fewer chunks
  // ---------------------------------------------------------------------------------------

  /** Dropping messages from the front of a partition leaves a partition with no more chunks. */
  lemma {:induction false} DropFront<T>(p: seq<seq<T>>, k: nat, size: T -> nat, target: int) returns (q: seq<seq<T>>)
    requires Chunked(p, size, target) && k <= |Concat(p)|
    ensures Chunked(q, size, target) && Concat(q) == Concat(p)[k..] && |q| <= |p|
  {
    if k == 0 {
      q := p;
    } else if k >= |p[0]| {
      assert Concat(p)[k..] == Concat(p[1..])[k - |p[0]|..];
      q := DropFront(p[1..], k - |p[0]|, size, target);
    } else {
      var c := p[0][k..];
      assert Fits(p[0], size, target);
      TotalOfPart(p[0], k, |p[0]|, size);
      assert p[0][k..|p[0]|] == c;
      q := [c] + p[1..];
      assert q[1..] == p[1..];
      assert c + Concat(p[1..]) == Concat(p)[k..];
    }
  }

  lemma HeadOfConcat<T>(g: seq<seq<T>>)
    requires |g| > 1 && |g[1]| > 0
    ensures |Concat(g)| > |g[0]| && Concat(g)[..|g[0]| + 1] == g[0] + [g[1][0]]
  {
    assert Concat(g) == g[0] + Concat(g[1..]);
    assert Concat(g[1..]) == g[1] + Concat(g[1..][1..]);
  }

  /** The first chunk of a full partition is the longest any partition can begin with. */
  lemma FirstIsLongest<T>(g: seq<seq<T>>, p: seq<seq<T>>, size: T -> nat, target: int)
    requires |g| > 1 && p != [] && Concat(g) == Concat(p)
    requires |g[0]| > 0 && NoRoom(g[0], g[1], size, target) && Fits(p[0], size, target)
    ensures |p[0]| <= |g[0]|
  {
    var n := |g[0]|;
    HeadOfConcat(g);
    if |p[0]| > n {
      assert p[0][0..n + 1] == Concat(p)[..n + 1];
      TotalAppend(g[0], g[1][0], size);
      TotalOfPart(p[0], 0, n + 1, size);
      assert false;
    }
  }

  /** A full partition is one with the fewest chunks. */
  lemma {:induction false} FewestChunks<T>(g: seq<seq<T>>, p: seq<seq<T>>, size: T -> nat, target: int)
    requires Chunked(g, size, target) && Full(g, size, target)
    requires Chunked(p, size, target) && Concat(p) == Concat(g)
    ensures |g| <= |p|
  {
    if g != [] {
      assert g[0] in g && Fits(g[0], size, target);
      if |g| > 1 {
        FirstIsLongest(g, p, size, target);
        var n := |g[0]|;
        assert Concat(p)[n..] == Concat(g[1..]);
        assert Concat(p)[n..] == Concat(p[1..])[n - |p[0]|..];
        var q := DropFront(p[1..], n - |p[0]|, size, target);
        FullTail(g, size, target);
        FewestChunks(g[1..], q, size, target);
      }
    }
  }

  lemma FullTail<T>(g: seq<seq<T>>, size: T -> nat, target: int)
    requires |g| > 0 && Full(g, size, target)
    ensures Full(g[1..], size, target)
  {
    forall i, j | 0 <= i < j < |g[1..]| && j == i + 1
      ensures NoRoom(g[1..][i], g[1..][j], size, target)
    {
      assert g[1..][i] == g[i + 1] && g[1..][j] == g[j + 1];
    }
  }

  /** There is one full partition only: the chunks are determined by what is said of them. */
  lemma {:induction false} FullIsUnique<T>(g: seq<seq<T>>, h: seq<seq<T>>, size: T -> nat, target: int)
    requires Chunked(g, size, target) && Full(g, size, target)
    requires Chunked(h, size, target) && Full(h, size, target) && Concat(h) == Concat(g)
    ensures g == h
  {
    FewestChunks(g, h, size, target);
    FewestChunks(h, g, size, target);
    if g != [] {
      assert g == [g[0]] + g[1..] && h == [h[0]] + h[1..];
      if |g| > 1 {
        assert Fits(g[0], size, target) && Fits(h[0], size, target);
        FirstIsLongest(g, h, size, target);
        FirstIsLongest(h, g, size, target);
        FullTail(g, size, target);
        FullTail(h, size, target);
        SameFirst(g, h);
        FullIsUnique(g[1..], h[1..], size, target);
      } else {
        assert g[1..] == [] && h[1..] == [];
        assert g[0] == Concat(g) && h[0] == Concat(h);
      }
    }
  }

  lemma SameFirst<T>(g: seq<seq<T>>, h: seq<seq<T>>)
    requires g != [] && h != [] && Concat(g) == Concat(h) && |g[0]| == |h[0]|
    ensures g[0] == h[0] && Concat(g[1..]) == Concat(h[1..])
  {
    assert g[0] == Concat(g)[..|g[0]|] && h[0] == Concat(h)[..|h[0]|];
    assert Concat(g[1..]) == Concat(g)[|g[0]|..] && Concat(h[1..]) == Concat(h)[|h[0]|..];
  }
}
