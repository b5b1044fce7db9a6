/**
 * Nested sequences standing for numpy arrays, and the two array operations the
 * style-transfer script relies on: `reshape` of a flat vector into a
 * row-major (C order) array, and `flatten` back into a vector.
 */
module Tensors {

  /** A flat numpy vector (what the optimizer works on). */
  type Vector = seq<real>
  /** A height x width x channels image. */
  type Image = seq<seq<seq<real>>>
  /** A 4-D array: a batch of images. */
  type Batch = seq<Image>

  /** Every element of `ss` has length `k`. */
  predicate Uniform<T>(ss: seq<seq<T>>, k: nat)
  {
    forall i :: 0 <= i < |ss| ==> |ss[i]| == k
  }

  /** Joins the elements of `ss` end to end (one level of `flatten`). */
  function Concat<T>(ss: seq<seq<T>>): seq<T>
  {
    if ss == [] then [] else ss[0] + Concat(ss[1..])
  }

  /**
   * Splits `s` into `n` consecutive pieces of length `k`: numpy's
   * `s.reshape((n, k))`. Joining the pieces gives `s` back.
   */
  function Chunk<T>(s: seq<T>, n: nat, k: nat): (r: seq<seq<T>>)
    requires |s| == n * k
    ensures |r| == n && Uniform(r, k)
    ensures Concat(r) == s
    decreases n
  {
    if n == 0 then []
    else
      assert |s| == (n - 1) * k + k;
      [s[..k]] + Chunk(s[k..], n - 1, k)
  }

  lemma {:induction false} ConcatLength<T>(ss: seq<seq<T>>, n: nat, k: nat)
    requires |ss| == n && Uniform(ss, k)
    ensures |Concat(ss)| == n * k
    decreases n
  {
    if n > 0 {
      ConcatLength(ss[1..], n - 1, k);
      assert n * k == (n - 1) * k + k;
    }
  }

  /** Cutting a join of `n` pieces of length `k` back into such pieces gives the pieces. */
  lemma {:induction false} ChunkConcat<T>(ss: seq<seq<T>>, n: nat, k: nat)
    requires |ss| == n && Uniform(ss, k)
    ensures |Concat(ss)| == n * k && Chunk(Concat(ss), n, k) == ss
    decreases n
  {
    ConcatLength(ss, n, k);
    if n > 0 {
      ChunkConcat(ss[1..], n - 1, k);
      var s := Concat(ss);
      assert s == ss[0] + Concat(ss[1..]);
      assert s[..k] == ss[0];
      assert s[k..] == Concat(ss[1..]);
      assert Chunk(s, n, k) == [ss[0]] + ss[1..];
    }
  }

  /** Joining pieces whose own elements all have length `c` keeps that property. */
  lemma {:induction false} ConcatUniform<T>(ss: seq<seq<seq<T>>>, c: nat)
    requires forall i :: 0 <= i < |ss| ==> Uniform(ss[i], c)
    ensures Uniform(Concat(ss), c)
  {
    if ss != [] {
      ConcatUniform(ss[1..], c);
      assert Concat(ss) == ss[0] + Concat(ss[1..]);
    }
  }

  /** Cutting a sequence whose elements all have length `c` gives pieces with the same property. */
  lemma {:induction false} ChunkUniform<T>(s: seq<seq<T>>, n: nat, k: nat, c: nat)
    requires |s| == n * k && Uniform(s, c)
    ensures forall i :: 0 <= i < n ==> Uniform(Chunk(s, n, k)[i], c)
    decreases n
  {
    if n > 0 {
      assert |s| == (n - 1) * k + k;
      ChunkUniform(s[k..], n - 1, k, c);
    }
  }

  /** `t` has numpy shape `(h, w, c)`. */
  predicate HasShape3<T>(t: seq<seq<seq<T>>>, h: nat, w: nat, c: nat)
  {
    |t| == h && Uniform(t, w) && forall i :: 0 <= i < h ==> Uniform(t[i], c)
  }

  /** `b` has numpy shape `(n, h, w, c)`. */
  predicate HasShape4<T>(b: seq<seq<seq<seq<T>>>>, n: nat, h: nat, w: nat, c: nat)
  {
    |b| == n && forall i :: 0 <= i < n ==> HasShape3(b[i], h, w, c)
  }

  /** `t.flatten()` for a 3-D array, in row-major order. */
  function Flatten3<T>(t: seq<seq<seq<T>>>): (r: seq<T>)
    ensures forall h: nat, w: nat, c: nat :: HasShape3(t, h, w, c) ==> |r| == h * w * c
  {
    var pixels := Concat(t);
    forall h: nat, w: nat, c: nat | HasShape3(t, h, w, c) ensures |Concat(pixels)| == h * w * c {
      ConcatLength(t, h, w);
      ConcatUniform(t, c);
      ConcatLength(pixels, h * w, c);
    }
    Concat(pixels)
  }

  /** `x.reshape((h, w, c))` of a vector of exactly `h * w * c` elements. */
  function Reshape3<T>(x: seq<T>, h: nat, w: nat, c: nat): (t: seq<seq<seq<T>>>)
    requires |x| == h * w * c
    ensures HasShape3(t, h, w, c)
    ensures Flatten3(t) == x
  {
    var pixels := Chunk(x, h * w, c);
    ChunkUniform(pixels, h, w, c);
    Chunk(pixels, h, w)
  }

  /** Reshaping the flattening of an `(h, w, c)` array gives the array back. */
  lemma Reshape3Flatten3<T>(t: seq<seq<seq<T>>>, h: nat, w: nat, c: nat)
    requires HasShape3(t, h, w, c)
    ensures |Flatten3(t)| == h * w * c && Reshape3(Flatten3(t), h, w, c) == t
  {
    var pixels := Concat(t);
    ConcatLength(t, h, w);
    ConcatUniform(t, c);
    ChunkConcat(pixels, h * w, c);
    ChunkConcat(t, h, w);
  }

  /** `b.flatten()` for a 4-D array, in row-major order. */
  function Flatten4<T>(b: seq<seq<seq<seq<T>>>>): (r: seq<T>)
    ensures forall n: nat, h: nat, w: nat, c: nat :: HasShape4(b, n, h, w, c) ==> |r| == n * (h * w * c)
  {
    var images := seq(|b|, i requires 0 <= i < |b| => Flatten3(b[i]));
    forall n: nat, h: nat, w: nat, c: nat | HasShape4(b, n, h, w, c) ensures |Concat(images)| == n * (h * w * c) {
      ConcatLength(images, n, h * w * c);
    }
    Concat(images)
  }

  /** `x.reshape((1, h, w, c))` of a vector of exactly `h * w * c` elements. */
  function Reshape4<T>(x: seq<T>, h: nat, w: nat, c: nat): (b: seq<seq<seq<seq<T>>>>)
    requires |x| == h * w * c
    ensures HasShape4(b, 1, h, w, c)
    ensures Flatten4(b) == x
  {
    var b := [Reshape3(x, h, w, c)];
    assert Concat([x]) == x + Concat([x][1..]);
    assert seq(|b|, i requires 0 <= i < |b| => Flatten3(b[i])) == [x];
    b
  }
}
