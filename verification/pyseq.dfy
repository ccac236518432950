/** Python sequence slicing, written out for Dafny's sequences.

    `Tail(s, start)` is Python's `s[start:]` for any integer `start`;
    `Slices(xs, size)` is the list `[xs[i:i+size] for i in range(0, len(xs), size)]`
    that both the chunk generator and the batch splitter compute.
 */
module PySeq {

  function Min(a: int, b: int): int { if a <= b then a else b }

  /** Python `s[start:]`: a negative start counts from the end, and both ends clamp. */
  function Tail<T>(s: seq<T>, start: int): (r: seq<T>)
    ensures |r| <= |s| && r == s[|s| - |r|..]
    ensures 0 <= start ==> |r| == |s| - Min(start, |s|)
    ensures start < 0 ==> |r| == Min(-start, |s|)
  {
    if 0 <= start then s[Min(start, |s|)..]
    else s[|s| - Min(-start, |s|)..]
  }

  /** Concatenation of a sequence of sequences (Python `"".join` / `list.extend` in a loop). */
  function Flatten<T>(ss: seq<seq<T>>): seq<T>
  {
    if |ss| == 0 then [] else ss[0] + Flatten(ss[1..])
  }

  lemma {:induction false} FlattenAppend<T>(a: seq<seq<T>>, b: seq<seq<T>>)
    ensures Flatten(a + b) == Flatten(a) + Flatten(b)
    decreases |a|
  {
    if |a| == 0 {
      assert a + b == b;
    } else {
      assert (a + b)[1..] == a[1..] + b;
      FlattenAppend(a[1..], b);
    }
  }

  lemma FlattenOne<T>(x: seq<T>)
    ensures Flatten([x]) == x
  {
    assert Flatten([x]) == x + Flatten([x][1..]);
  }

  /** The `b`-th piece sits in the concatenation right after the pieces before it. */
  lemma FlattenAt<T>(rs: seq<seq<T>>, b: nat)
    requires b < |rs|
    ensures |Flatten(rs[..b])| + |rs[b]| <= |Flatten(rs)|
    ensures Flatten(rs)[|Flatten(rs[..b])|..|Flatten(rs[..b])| + |rs[b]|] == rs[b]
  {
    assert rs == rs[..b] + ([rs[b]] + rs[b + 1..]);
    FlattenAppend(rs[..b], [rs[b]] + rs[b + 1..]);
    FlattenAppend([rs[b]], rs[b + 1..]);
    FlattenOne(rs[b]);
  }

  /** Pieces of the same lengths concatenate to the same length. */
  lemma {:induction false} FlattenLength<S, T>(rs: seq<seq<S>>, xs: seq<seq<T>>)
    requires |rs| == |xs|
    requires forall i :: 0 <= i < |rs| ==> |rs[i]| == |xs[i]|
    ensures |Flatten(rs)| == |Flatten(xs)|
    decreases |rs|
  {
    if |rs| > 0 {
      FlattenLength(rs[1..], xs[1..]);
    }
  }

  /** Consecutive pieces of `size` elements, the last possibly shorter, none empty. */
  function Slices<T>(xs: seq<T>, size: nat): (r: seq<seq<T>>)
    requires size > 0
    ensures forall k :: 0 <= k < |r| ==> 0 < |r[k]| <= size
    ensures forall k :: 0 <= k < |r| - 1 ==> |r[k]| == size
    ensures |xs| == 0 <==> |r| == 0
    decreases |xs|
  {
    if |xs| == 0 then []
    else if |xs| <= size then [xs]
    else [xs[..size]] + Slices(xs[size..], size)
  }

  /** The slices, concatenated in order, give back `xs`: nothing lost, nothing repeated. */
  lemma {:induction false} SlicesFlatten<T>(xs: seq<T>, size: nat)
    requires size > 0
    ensures Flatten(Slices(xs, size)) == xs
    decreases |xs|
  {
    if |xs| == 0 {
    } else if |xs| <= size {
      assert Flatten([xs]) == xs + Flatten([xs][1..]);
    } else {
      var rest := Slices(xs[size..], size);
      SlicesFlatten(xs[size..], size);
      assert ([xs[..size]] + rest)[1..] == rest;
      assert xs[..size] + xs[size..] == xs;
    }
  }

  /** There are `ceil(|xs| / size)` slices: the least count whose total capacity covers `xs`. */
  lemma {:induction false} SlicesCount<T>(xs: seq<T>, size: nat)
    requires size > 0
    ensures |xs| <= |Slices(xs, size)| * size < |xs| + size
    decreases |xs|
  {
    if |xs| == 0 {
    } else if |xs| <= size {
    } else {
      var n := |Slices(xs[size..], size)|;
      SlicesCount(xs[size..], size);
      assert |Slices(xs, size)| == n + 1;
      assert (n + 1) * size == n * size + size;
    }
  }

  /** The `k`-th slice is `xs[k*size : k*size + size]`, with Python's clamped end:
      the recursive definition agrees with the index arithmetic of the source loop. */
  lemma SliceAt<T>(xs: seq<T>, size: nat, k: nat)
    requires size > 0
    requires k < |Slices(xs, size)|
    ensures k * size < |xs|
    ensures Slices(xs, size)[k] == xs[k * size .. Min(k * size + size, |xs|)]
  {
    MulIsRepeatedAdd(k, size);
    SliceAtOffset(xs, size, k, k * size);
  }

  /** `k * size`, as the source loop's index `i` reaches it: by repeated addition. */
  function Offset(k: nat, size: nat): nat
  {
    if k == 0 then 0 else Offset(k - 1, size) + size
  }

  lemma {:induction false} MulIsRepeatedAdd(k: nat, size: nat)
    ensures Offset(k, size) == k * size
  {
    if k > 0 {
      MulIsRepeatedAdd(k - 1, size);
      assert (k - 1) * size + size == k * size;
    }
  }

  lemma {:induction false} SliceAtOffset<T>(xs: seq<T>, size: nat, k: nat, lo: nat)
    requires size > 0
    requires k < |Slices(xs, size)|
    requires lo == Offset(k, size)
    ensures lo < |xs|
    ensures Slices(xs, size)[k] == xs[lo .. Min(lo + size, |xs|)]
    decreases k
  {
    if k > 0 {
      var tail := xs[size..];
      assert Slices(xs, size)[k] == Slices(tail, size)[k - 1];
      SliceAtOffset(tail, size, k - 1, lo - size);
      SubSlice(xs, size, lo - size, Min(lo, |tail|));
    }
  }

  lemma SubSlice<T>(xs: seq<T>, d: nat, a: nat, b: nat)
    requires d <= |xs| && a <= b <= |xs| - d
    ensures xs[d..][a..b] == xs[d + a .. d + b]
  {
  }

  /** Where the `b`-th slice starts inside the flattened sequence. */
  lemma {:induction false} SlicesOffset<T>(xs: seq<T>, size: nat, b: nat)
    requires size > 0
    requires b <= |Slices(xs, size)|
    ensures |Flatten(Slices(xs, size)[..b])| == Min(b * size, |xs|)
    decreases b
  {
    var r := Slices(xs, size);
    if b == 0 {
      assert r[..0] == [];
    } else {
      var m := (b - 1) * size;
      assert b * size == m + size;
      assert m < |xs| && |r[b - 1]| == Min(m + size, |xs|) - m by {
        SliceAt(xs, size, b - 1);
      }
      assert |Flatten(r[..b])| == |Flatten(r[..b - 1])| + |r[b - 1]| by {
        assert r[..b] == r[..b - 1] + [r[b - 1]];
        FlattenAppend(r[..b - 1], [r[b - 1]]);
        assert Flatten([r[b - 1]]) == r[b - 1] + Flatten([r[b - 1]][1..]);
      }
      SlicesOffset(xs, size, b - 1);
    }
  }

  /** `u` is what remains of `t` after its first `n` elements. */
  predicate Shifted<T(==)>(t: seq<T>, u: seq<T>, n: nat)
  {
    n <= |t| && t[n..] == u
  }

  /** Member `a + 1` of the family `tr` is member `a` without its first `n` elements. */
  predicate ShiftedAt<T(==)>(tr: nat -> seq<T>, a: nat, n: nat)
  {
    Shifted(tr(a), tr(a + 1), n)
  }

  /** In a family of sequences each of which drops `n` elements to reach the
      next, position `x` of member `k` lies `(k - i) * n` further in member `i`. */
  lemma {:induction false} ShiftIndex<T>(tr: nat -> seq<T>, n: nat, i: nat, k: nat, x: nat)
    requires i <= k
    requires forall a :: i <= a < k ==> ShiftedAt(tr, a, n)
    requires x < |tr(k)|
    ensures Offset(k - i, n) + x < |tr(i)|
    ensures tr(i)[Offset(k - i, n) + x] == tr(k)[x]
    decreases k - i
  {
    if i < k {
      var q := Offset(k - (i + 1), n) + x;
      ShiftIndex(tr, n, i + 1, k, x);
      assert ShiftedAt(tr, i, n);
      assert tr(i)[n + q] == tr(i)[n..][q];
      assert Offset(k - i, n) + x == n + q;
    }
  }
}
