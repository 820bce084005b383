/**
 The array operations the dashboard components use, over immutable sequences:
 `Array.prototype.filter`, `Array.prototype.reduce` summing a numeric field,
 and the pair of `Array.prototype.splice` calls that moves one element.
 */
module Seqs {

  /** `s.filter(keep)`: the elements that satisfy `keep`, in their original order. */
  function Filter<T>(s: seq<T>, keep: T -> bool): (r: seq<T>)
    ensures |r| <= |s|
    ensures forall i :: 0 <= i < |r| ==> r[i] in s && keep(r[i])
    ensures forall i :: 0 <= i < |s| && keep(s[i]) ==> s[i] in r
    ensures multiset(r) <= multiset(s)
  {
    if |s| == 0 then []
    else
      assert s == [s[0]] + s[1..];
      (if keep(s[0]) then [s[0]] else []) + Filter(s[1..], keep)
  }

  /** Filtering a concatenation filters each part and keeps them in order. */
  lemma {:induction false} FilterConcat<T>(a: seq<T>, b: seq<T>, keep: T -> bool)
    ensures Filter(a + b, keep) == Filter(a, keep) + Filter(b, keep)
  {
    if |a| == 0 {
      assert a + b == b;
    } else {
      assert (a + b)[1..] == a[1..] + b;
      FilterConcat(a[1..], b, keep);
    }
  }

  /** A filter that keeps every element returns the sequence unchanged. */
  lemma {:induction false} FilterKeepsAll<T>(s: seq<T>, keep: T -> bool)
    requires forall i :: 0 <= i < |s| ==> keep(s[i])
    ensures Filter(s, keep) == s
  {
    if |s| > 0 {
      FilterKeepsAll(s[1..], keep);
    }
  }

  /** A filter that keeps no element returns the empty sequence. */
  lemma {:induction false} FilterKeepsNone<T>(s: seq<T>, keep: T -> bool)
    requires forall i :: 0 <= i < |s| ==> !keep(s[i])
    ensures Filter(s, keep) == []
  {
    if |s| > 0 {
      FilterKeepsNone(s[1..], keep);
    }
  }

  /** The filter keeps every copy of an element it accepts and no copy of one
      it rejects. */
  lemma {:induction false} FilterCounts<T>(s: seq<T>, keep: T -> bool, x: T)
    ensures multiset(Filter(s, keep))[x] == if keep(x) then multiset(s)[x] else 0
  {
    if |s| > 0 {
      assert s == [s[0]] + s[1..];
      FilterCounts(s[1..], keep, x);
    }
  }

  /** `s.reduce((sum, x) => sum + f(x), 0)`: a left fold from 0. The empty
      sum is 0, and terms that are all non-negative have a non-negative sum. */
  function Sum<T>(s: seq<T>, f: T -> real): (r: real)
    ensures |s| == 0 ==> r == 0.0
    ensures (forall i :: 0 <= i < |s| ==> f(s[i]) >= 0.0) ==> r >= 0.0
  {
    if |s| == 0 then 0.0 else Sum(s[..|s| - 1], f) + f(s[|s| - 1])
  }

  /** The sum of a concatenation is the sum of the parts. */
  lemma {:induction false} SumConcat<T>(a: seq<T>, b: seq<T>, f: T -> real)
    ensures Sum(a + b, f) == Sum(a, f) + Sum(b, f)
  {
    if |b| == 0 {
      assert a + b == a;
    } else {
      assert (a + b)[..|a + b| - 1] == a + b[..|b| - 1];
      assert (a + b)[|a + b| - 1] == b[|b| - 1];
      SumConcat(a, b[..|b| - 1], f);
    }
  }

  /** `s.splice(i, 1)`: the sequence without its element at `i`. */
  function RemoveAt<T>(s: seq<T>, i: nat): (r: seq<T>)
    requires i < |s|
    ensures |r| == |s| - 1
    ensures forall k :: 0 <= k < i ==> r[k] == s[k]
    ensures forall k :: i <= k < |r| ==> r[k] == s[k + 1]
  {
    s[..i] + s[i + 1..]
  }

  /** `s.splice(i, 0, x)`: `x` inserted before index `i`; an index past the
      end appends, as `splice` clamps it to the length. */
  function InsertAt<T>(s: seq<T>, i: nat, x: T): (r: seq<T>)
    ensures |r| == |s| + 1
    ensures i <= |s| ==> r[i] == x
    ensures i > |s| ==> r[|s|] == x
    ensures var j := if i <= |s| then i else |s|; r[..j] == s[..j] && r[j + 1..] == s[j..]
  {
    var j := if i <= |s| then i else |s|;
    s[..j] + [x] + s[j..]
  }

  /** Removing the element just inserted gives the sequence back. */
  lemma RemoveInserted<T>(s: seq<T>, i: nat, x: T)
    ensures RemoveAt(InsertAt(s, i, x), if i <= |s| then i else |s|) == s
  {
    var j := if i <= |s| then i else |s|;
    var r := InsertAt(s, i, x);
    assert r == s[..j] + [x] + s[j..];
    assert r[..j] == s[..j];
    assert r[j + 1..] == s[j..];
  }

  /** Moving the element at `src` to `dst`: the two splices of a drag-and-drop reorder. */
  function Move<T>(s: seq<T>, src: nat, dst: nat): (r: seq<T>)
    requires src < |s|
    ensures |r| == |s|
    ensures multiset(r) == multiset(s)
    ensures dst < |s| ==> r[dst] == s[src]
    ensures dst >= |s| ==> r[|s| - 1] == s[src]
  {
    var rest := RemoveAt(s, src);
    assert s == s[..src] + [s[src]] + s[src + 1..];
    assert multiset(s) == multiset(rest) + multiset{s[src]};
    var j := if dst <= |rest| then dst else |rest|;
    assert InsertAt(rest, dst, s[src]) == rest[..j] + [s[src]] + rest[j..];
    assert rest == rest[..j] + rest[j..];
    InsertAt(rest, dst, s[src])
  }

  /** Every element other than the moved one keeps its relative order: taking
      the moved element out of the result leaves what taking it out of the
      input left. */
  lemma MovePreservesOthers<T>(s: seq<T>, src: nat, dst: nat)
    requires src < |s|
    ensures RemoveAt(Move(s, src, dst), if dst < |s| then dst else |s| - 1) == RemoveAt(s, src)
  {
    RemoveInserted(RemoveAt(s, src), dst, s[src]);
  }

  lemma SumSingleton<T>(x: T, f: T -> real)
    ensures Sum([x], f) == f(x)
  {
    assert [x][..0] == [];
  }

  /** Appending one element adds its term to the sum. */
  lemma SumAppendOne<T>(a: seq<T>, x: T, f: T -> real)
    ensures Sum(a + [x], f) == Sum(a, f) + f(x)
  {
    assert (a + [x])[..|a|] == a;
  }

  /** A sequence is its prefix followed by its suffix. */
  lemma SplitJoin<T>(s: seq<T>, j: nat)
    requires j <= |s|
    ensures s[..j] + s[j..] == s
  {
  }

  /** Putting `x` between two parts adds `f(x)` to the sum of the parts. */
  lemma SumSplice<T>(a: seq<T>, b: seq<T>, x: T, f: T -> real)
    ensures Sum(a + [x] + b, f) == Sum(a + b, f) + f(x)
  {
    SumAppendOne(a, x, f);
    SumConcat(a + [x], b, f);
    SumConcat(a, b, f);
  }

  /** Splicing `x` in before index `j` adds `f(x)` to the sum. */
  lemma SumInsert<T>(s: seq<T>, j: nat, x: T, f: T -> real)
    requires j <= |s|
    ensures Sum(s[..j] + [x] + s[j..], f) == Sum(s, f) + f(x)
  {
    SplitJoin(s, j);
    SumSplice(s[..j], s[j..], x, f);
  }

  /** Putting the removed element back where it was restores the sequence. */
  lemma ReinsertRemoved<T>(s: seq<T>, i: nat)
    requires i < |s|
    ensures RemoveAt(s, i)[..i] + [s[i]] + RemoveAt(s, i)[i..] == s
  {
    var rest := RemoveAt(s, i);
    assert rest[..i] == s[..i];
    assert rest[i..] == s[i + 1..];
    assert s == s[..i] + [s[i]] + s[i + 1..];
  }

  /** Moving an element does not change a sum over the sequence. */
  lemma MovePreservesSum<T>(s: seq<T>, src: nat, dst: nat, f: T -> real)
    requires src < |s|
    ensures Sum(Move(s, src, dst), f) == Sum(s, f)
  {
    var x, rest := s[src], RemoveAt(s, src);
    ReinsertRemoved(s, src);
    SumInsert(rest, src, x, f);
    var j := if dst <= |rest| then dst else |rest|;
    SumInsert(rest, j, x, f);
  }
}
