/** The array helpers the components lean on (`Array.prototype.filter`,
    lodash `uniq` and `chunk`, `slice(0, n)`), defined once with their
    properties proved. */
module Seqs {

  predicate NoDup<T(==)>(s: seq<T>) {
    forall i, j :: 0 <= i < j < |s| ==> s[i] != s[j]
  }

  /** `s.filter(p)`: the elements satisfying `p`, in their original order. */
  function Filter<T(!new)>(s: seq<T>, p: T -> bool): (r: seq<T>)
    ensures |r| <= |s|
    ensures forall x {:trigger x in r} :: x in r <==> x in s && p(x)
  {
    if |s| == 0 then [] else (if p(s[0]) then [s[0]] else []) + Filter(s[1..], p)
  }

  /** Filtering a sequence with a first element. */
  lemma {:induction false} FilterCons<T(!new)>(h: T, r: seq<T>, p: T -> bool)
    ensures Filter([h] + r, p) == (if p(h) then [h] else []) + Filter(r, p)
  {
    assert ([h] + r)[0] == h && ([h] + r)[1..] == r;
  }

  /** Filtering commutes with concatenation, so the filter keeps the input order. */
  lemma {:induction false} FilterAppend<T(!new)>(a: seq<T>, b: seq<T>, p: T -> bool)
    ensures Filter(a + b, p) == Filter(a, p) + Filter(b, p)
  {
    if |a| == 0 {
      assert a + b == b;
    } else {
      assert a == [a[0]] + a[1..];
      assert a + b == [a[0]] + (a[1..] + b);
      FilterCons(a[0], a[1..] + b, p);
      FilterCons(a[0], a[1..], p);
      FilterAppend(a[1..], b, p);
    }
  }

  /** A one-element sequence is kept exactly when its element passes. */
  lemma {:induction false} FilterOne<T(!new)>(x: T, p: T -> bool)
    ensures Filter([x], p) == if p(x) then [x] else []
  {
    FilterCons(x, [], p);
    assert [x] + [] == [x];
  }

  /** Prefixing the same element to two sequences with equal filters keeps
      their filters equal. */
  lemma {:induction false} FilterConsBoth<T(!new)>(h: T, r: seq<T>, s: seq<T>, p: T -> bool)
    requires Filter(r, p) == Filter(s, p)
    ensures Filter([h] + r, p) == Filter([h] + s, p)
  {
    FilterCons(h, r, p);
    FilterCons(h, s, p);
  }


  /** Filtering keeps nothing when no element passes. */
  lemma {:induction false} FilterNone<T(!new)>(s: seq<T>, p: T -> bool)
    requires forall x :: x in s ==> !p(x)
    ensures Filter(s, p) == []
  {
    if |s| > 0 {
      assert s[0] in s;
      assert forall x :: x in s[1..] ==> x in s;
      assert s == [s[0]] + s[1..];
      FilterCons(s[0], s[1..], p);
      FilterNone(s[1..], p);
    }
  }

  /** lodash `uniq`: the first occurrence of every element, in order. */
  function Uniq<T(==,!new)>(s: seq<T>): (r: seq<T>)
    ensures forall x :: x in r <==> x in s
    ensures NoDup(r)
    ensures |r| <= |s|
  {
    if |s| == 0 then []
    else
      var u := Uniq(s[..|s| - 1]);
      assert forall x :: x in s <==> x in s[..|s| - 1] || x == s[|s| - 1] by {
        assert s == s[..|s| - 1] + [s[|s| - 1]];
      }
      if s[|s| - 1] in u then u else u + [s[|s| - 1]]
  }

  /** The position of the first `x` in `s`, or -1 (`indexOf`). */
  function IndexOf<T(==)>(s: seq<T>, x: T): (i: int)
    ensures -1 <= i < |s|
    ensures i == -1 <==> x !in s
    ensures 0 <= i ==> s[i] == x && x !in s[..i]
  {
    if |s| == 0 then -1
    else if s[0] == x then 0
    else
      var j := IndexOf(s[1..], x);
      assert 0 <= j ==> s[1..][..j] == s[1..j + 1] && s[..j + 1] == [s[0]] + s[1..j + 1];
      if j == -1 then -1 else j + 1
  }

  /** Extending a sequence at the back does not move the first position of
      an element it already holds. */
  lemma {:induction false} IndexOfAppend<T>(a: seq<T>, b: seq<T>, x: T)
    requires x in a
    ensures IndexOf(a + b, x) == IndexOf(a, x)
  {
    var i := IndexOf(a, x);
    var j := IndexOf(a + b, x);
    assert (a + b)[i] == x;
  }

  /** `uniq` lists the elements in the order of their first appearance. */
  lemma {:induction false} UniqOrder<T(!new)>(s: seq<T>)
    ensures forall i, j :: 0 <= i < j < |Uniq(s)| ==> 0 <= IndexOf(s, Uniq(s)[i]) < IndexOf(s, Uniq(s)[j])
  {
    if |s| > 0 {
      var init, last := s[..|s| - 1], s[|s| - 1];
      assert s == init + [last];
      var u := Uniq(init);
      UniqOrder(init);
      forall k | 0 <= k < |u|
        ensures IndexOf(s, u[k]) == IndexOf(init, u[k])
      {
        IndexOfAppend(init, [last], u[k]);
      }
      forall k | 0 <= k < |u|
        ensures 0 <= IndexOf(s, u[k]) < |init|
      {
        assert u[k] in init;
      }
      if last in u {
        assert Uniq(s) == u;
        forall i, j | 0 <= i < j < |u|
          ensures 0 <= IndexOf(s, u[i]) < IndexOf(s, u[j])
        {
          assert IndexOf(init, u[i]) < IndexOf(init, u[j]);
        }
      } else {
        assert IndexOf(s, last) == |s| - 1 by {
          assert last !in s[..|s| - 1];
        }
        var r := u + [last];
        assert Uniq(s) == r;
        forall i, j | 0 <= i < j < |r|
          ensures 0 <= IndexOf(s, r[i]) < IndexOf(s, r[j])
        {
          if j < |u| {
            assert r[i] == u[i] && r[j] == u[j];
          } else {
            assert r[i] == u[i] && r[j] == last;
          }
        }
      }
    } else {
      assert Uniq(s) == [];
    }
  }

  /** A sequence without duplicates is left as it is by `uniq`. */
  lemma {:induction false} UniqOfDistinct<T(!new)>(s: seq<T>)
    requires NoDup(s)
    ensures Uniq(s) == s
  {
    if |s| > 0 {
      var init := s[..|s| - 1];
      assert NoDup(init);
      UniqOfDistinct(init);
      assert s[|s| - 1] !in init;
      assert init + [s[|s| - 1]] == s;
    }
  }

  /** `uniq` keeps the first element first. */
  lemma {:induction false} UniqHead<T(!new)>(s: seq<T>)
    requires |s| > 0
    ensures |Uniq(s)| > 0 && Uniq(s)[0] == s[0]
  {
    if |s| > 1 {
      var init := s[..|s| - 1];
      UniqHead(init);
      assert init[0] == s[0];
    }
  }

  function Flatten<T>(ss: seq<seq<T>>): seq<T> {
    if |ss| == 0 then [] else ss[0] + Flatten(ss[1..])
  }

  /** lodash `chunk(s, size)`: consecutive groups of `size` elements; the last
      group may be shorter; a size below one gives no groups at all. */
  function Chunk<T>(s: seq<T>, size: int): (r: seq<seq<T>>)
    ensures size < 1 ==> r == []
    ensures size >= 1 ==> Flatten(r) == s
    ensures forall k :: 0 <= k < |r| ==> 0 < |r[k]| <= size
    ensures forall k :: 0 <= k < |r| - 1 ==> |r[k]| == size
    decreases |s|
  {
    if size < 1 || |s| == 0 then []
    else if |s| <= size then [s]
    else
      var rest := Chunk(s[size..], size);
      assert ([s[..size]] + rest)[1..] == rest;
      [s[..size]] + rest
  }

  /** A chunking has `ceil(|s| / size)` groups: enough to hold `s`, and one
      fewer would not. */
  lemma {:induction false} ChunkCount<T>(s: seq<T>, size: int)
    requires size >= 1
    ensures |Chunk(s, size)| == 0 <==> |s| == 0
    ensures (|Chunk(s, size)| - 1) * size < |s| <= |Chunk(s, size)| * size
    decreases |s|
  {
    if |s| > size {
      var rest := s[size..];
      assert Chunk(s, size) == [s[..size]] + Chunk(rest, size);
      ChunkCount(rest, size);
      var n := |Chunk(rest, size)|;
      assert |Chunk(s, size)| == n + 1;
      OneMoreGroup(n, size, |s|);
    }
  }

  /** One more group of `size` holds `size` more elements. */
  lemma {:induction false} OneMoreGroup(n: int, size: int, len: int)
    requires (n - 1) * size < len - size <= n * size
    ensures n * size < len <= (n + 1) * size
  {
    assert (n + 1) * size == n * size + size;
    assert n * size == (n - 1) * size + size;
  }

  function Min(a: int, b: int): int {
    if a <= b then a else b
  }

  /** Group `k` of a chunking is exactly the slice `[k*size, (k+1)*size)` of the
      input, cut at its end. */
  lemma {:induction false} ChunkAt<T>(s: seq<T>, size: int, k: nat)
    requires size >= 1
    requires k < |Chunk(s, size)|
    ensures k * size < |s|
    ensures Chunk(s, size)[k] == s[k * size .. Min((k + 1) * size, |s|)]
    decreases |s|
  {
    if |s| <= size {
      assert s[0..|s|] == s;
    } else if k == 0 {
      assert Chunk(s, size)[0] == s[..size];
    } else {
      var rest, j := s[size..], k - 1;
      assert Chunk(s, size) == [s[..size]] + Chunk(rest, size);
      ChunkAt(rest, size, j);
      assert Chunk(s, size)[k] == Chunk(rest, size)[j];
      ShiftedSlice(s, rest, size, j, k);
    }
  }

  lemma {:induction false} ShiftedSlice<T>(s: seq<T>, rest: seq<T>, size: int, j: nat, k: nat)
    requires 1 <= size < |s| && rest == s[size..] && k == j + 1
    requires j * size < |rest|
    ensures k * size < |s|
    ensures rest[j * size .. Min((j + 1) * size, |rest|)] == s[k * size .. Min((k + 1) * size, |s|)]
  {
    var lo, hi := j * size, Min((j + 1) * size, |rest|);
    assert k * size == lo + size by {
      assert k * size == (j + 1) * size == j * size + size;
    }
    assert (k + 1) * size == (j + 1) * size + size;
    assert Min((k + 1) * size, |s|) == hi + size;
    forall t | 0 <= t < hi - lo
      ensures rest[lo..hi][t] == s[lo + size .. hi + size][t]
    {
      assert rest[lo + t] == s[size + lo + t];
    }
    assert rest[lo..hi] == s[lo + size .. hi + size];
  }

  /** Position `i` of group `k` of a chunking is element `k * size + i`. */
  lemma {:induction false} ChunkElement<T>(s: seq<T>, size: int, k: nat, i: nat)
    requires size >= 1
    requires k < |Chunk(s, size)| && i < |Chunk(s, size)[k]|
    ensures k * size + i < |s| && Chunk(s, size)[k][i] == s[k * size + i]
  {
    ChunkAt(s, size, k);
    assert k * size <= k * size + size == (k + 1) * size;
    SliceAt(s, k * size, Min((k + 1) * size, |s|), i);
  }

  lemma {:induction false} SliceAt<T>(s: seq<T>, lo: int, hi: int, i: int)
    requires 0 <= lo <= hi <= |s| && 0 <= i < hi - lo
    ensures lo + i < |s| && s[lo..hi][i] == s[lo + i]
  {
  }

  /** `s.slice(0, n)`: a negative end counts back from the end of `s`. */
  function SliceTo<T>(s: seq<T>, n: int): (r: seq<T>)
    ensures |r| <= |s|
    ensures r == s[..|r|]
    ensures 0 <= n ==> |r| == if n <= |s| then n else |s|
  {
    if 0 <= n then (if n <= |s| then s[..n] else s)
    else if |s| + n >= 0 then s[..|s| + n] else []
  }
}
