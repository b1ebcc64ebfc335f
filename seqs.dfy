/** Sequence building blocks shared by every list pipeline of the storefront:
    `Array.prototype.filter`, `slice(0, k)`, and a stable comparison sort
    standing in for `Array.prototype.sort` with a comparator. */
module Seqs {

  datatype Option<T> = None | Some(value: T)

  /** `s` occurs inside `t` in the same relative order (not necessarily contiguous). */
  predicate IsSubseq<T(==)>(s: seq<T>, t: seq<T>)
    decreases |t|
  {
    if s == [] then true
    else if t == [] then false
    else if s[0] == t[0] then IsSubseq(s[1..], t[1..])
    else IsSubseq(s, t[1..])
  }

  lemma {:induction false} SubseqMembers<T>(s: seq<T>, t: seq<T>)
    requires IsSubseq(s, t)
    ensures forall x :: x in s ==> x in t
    ensures |s| <= |t|
    decreases |t|
  {
    if s != [] && t != [] {
      if s[0] == t[0] {
        SubseqMembers(s[1..], t[1..]);
        assert s == [s[0]] + s[1..] && t == [t[0]] + t[1..];
      } else {
        SubseqMembers(s, t[1..]);
      }
    }
  }

  lemma {:induction false} SubseqRefl<T>(s: seq<T>)
    ensures IsSubseq(s, s)
  {
    if s != [] {
      SubseqRefl(s[1..]);
    }
  }

  /** `Array.prototype.filter`: keeps the elements `keep` accepts, in order. */
  function Filter<T(==)>(s: seq<T>, keep: T -> bool): (r: seq<T>)
    ensures forall i :: 0 <= i < |r| ==> r[i] in s && keep(r[i])
    ensures forall i :: 0 <= i < |s| && keep(s[i]) ==> s[i] in r
    ensures IsSubseq(r, s)
    ensures |r| <= |s|
  {
    if s == [] then []
    else if keep(s[0]) then [s[0]] + Filter(s[1..], keep)
    else Filter(s[1..], keep)
  }

  /** Filtering keeps exactly the whole list when every element is accepted. */
  lemma {:induction false} FilterAll<T>(s: seq<T>, keep: T -> bool)
    requires forall i :: 0 <= i < |s| ==> keep(s[i])
    ensures Filter(s, keep) == s
  {
    if s != [] {
      FilterAll(s[1..], keep);
    }
  }

  /** Filtering keeps every element only if it accepts every element. */
  lemma {:induction false} FilterFull<T>(s: seq<T>, keep: T -> bool)
    requires |Filter(s, keep)| == |s|
    ensures forall i :: 0 <= i < |s| ==> keep(s[i])
  {
    if s != [] {
      assert keep(s[0]);
      FilterFull(s[1..], keep);
      forall i | 1 <= i < |s| ensures keep(s[i]) {
        assert s[i] == s[1..][i - 1];
      }
    }
  }

  /** Two predicates that agree everywhere filter alike. */
  lemma {:induction false} FilterExt<T>(s: seq<T>, a: T -> bool, b: T -> bool)
    requires forall x :: a(x) == b(x)
    ensures Filter(s, a) == Filter(s, b)
  {
    if s != [] {
      FilterExt(s[1..], a, b);
    }
  }

  /** A rejected last element leaves the filtered list as it was. */
  lemma {:induction false} FilterAppendLast<T>(s: seq<T>, x: T, keep: T -> bool)
    requires !keep(x)
    ensures Filter(s + [x], keep) == Filter(s, keep)
  {
    if s == [] {
      assert [x][1..] == [];
    } else {
      assert (s + [x])[1..] == s[1..] + [x];
      FilterAppendLast(s[1..], x, keep);
    }
  }

  /** Filtering keeps every copy of an accepted element and no copy of a
      rejected one. */
  lemma {:induction false} FilterMultiset<T>(s: seq<T>, keep: T -> bool, x: T)
    ensures multiset(Filter(s, keep))[x] == if keep(x) then multiset(s)[x] else 0
  {
    if s != [] {
      FilterMultiset(s[1..], keep, x);
      assert s == [s[0]] + s[1..];
    }
  }

  /** Filtering twice is filtering once by the conjunction. */
  lemma {:induction false} FilterFilter<T>(s: seq<T>, a: T -> bool, b: T -> bool, c: T -> bool)
    requires forall x :: c(x) == (a(x) && b(x))
    ensures Filter(Filter(s, a), b) == Filter(s, c)
  {
    if s != [] {
      FilterFilter(s[1..], a, b, c);
      if a(s[0]) {
        assert Filter(s, a) == [s[0]] + Filter(s[1..], a);
        assert Filter(s, a)[1..] == Filter(s[1..], a);
      }
    }
  }

  /** `Array.prototype.findIndex` as an option: the first index `pred` accepts. */
  function FindIndex<T>(s: seq<T>, pred: T -> bool): (r: Option<nat>)
    ensures r.None? <==> forall i :: 0 <= i < |s| ==> !pred(s[i])
    ensures r.Some? ==> r.value < |s| && pred(s[r.value])
    ensures r.Some? ==> forall j :: 0 <= j < r.value ==> !pred(s[j])
  {
    if s == [] then None
    else if pred(s[0]) then Some(0)
    else match FindIndex(s[1..], pred)
      case None => None
      case Some(k) => Some(k + 1)
  }

  /** `s.slice(0, k)` for `k >= 0`. */
  function Take<T>(s: seq<T>, k: nat): (r: seq<T>)
    ensures |r| == if k < |s| then k else |s|
    ensures r == s[..|r|]
  {
    if k < |s| then s[..k] else s
  }

  /** `s.slice(start, end)` for `0 <= start`, `0 <= end`, clamped to the length. */
  function Slice<T>(s: seq<T>, start: nat, end: nat): (r: seq<T>)
    ensures start <= end && start <= |s| ==> |r| == (if end < |s| then end else |s|) - start
    ensures start > end || start >= |s| ==> r == []
    ensures forall i :: 0 <= i < |r| ==> start + i < |s| && r[i] == s[start + i]
  {
    var e := if end < |s| then end else |s|;
    if start < e then s[start..e] else []
  }

  /** All elements are pairwise in `le` order. */
  ghost predicate Sorted<T>(s: seq<T>, le: (T, T) -> bool)
  {
    forall i, j :: 0 <= i < j < |s| ==> le(s[i], s[j])
  }

  ghost predicate Total<T(!new)>(le: (T, T) -> bool)
  {
    forall a, b :: le(a, b) || le(b, a)
  }

  ghost predicate Transitive<T(!new)>(le: (T, T) -> bool)
  {
    forall a, b, c :: le(a, b) && le(b, c) ==> le(a, c)
  }

  /** Insert `x` before the first element it may precede; as `x` came first
      in the input, placing it before equal elements keeps the sort stable. */
  function Insert<T>(x: T, s: seq<T>, le: (T, T) -> bool): (r: seq<T>)
    ensures multiset(r) == multiset(s) + multiset{x}
    ensures |r| == |s| + 1
  {
    if s == [] || le(x, s[0]) then [x] + s
    else
      assert s == [s[0]] + s[1..];
      [s[0]] + Insert(x, s[1..], le)
  }

  /** A stable insertion sort: the comparator `le(a, b)` says that `a` may stay
      before `b` (a JS comparator `c` maps to `le(a, b) == (c(a, b) <= 0)`). */
  function SortBy<T>(s: seq<T>, le: (T, T) -> bool): (r: seq<T>)
    ensures multiset(r) == multiset(s)
    ensures |r| == |s|
  {
    if s == [] then []
    else
      assert s == [s[0]] + s[1..];
      Insert(s[0], SortBy(s[1..], le), le)
  }

  lemma {:induction false} InsertSorted<T(!new)>(x: T, s: seq<T>, le: (T, T) -> bool)
    requires Total(le) && Transitive(le)
    requires Sorted(s, le)
    ensures Sorted(Insert(x, s, le), le)
  {
    if s == [] || le(x, s[0]) {
    } else {
      var t := Insert(x, s[1..], le);
      InsertSorted(x, s[1..], le);
      var r := [s[0]] + t;
      assert le(s[0], x);
      forall j | 0 <= j < |t| ensures le(s[0], t[j]) {
        assert t[j] in multiset(t);
        assert t[j] == x || t[j] in multiset(s[1..]);
        if t[j] != x {
          var k :| 0 <= k < |s[1..]| && s[1..][k] == t[j];
          assert s[1 + k] == t[j];
        }
      }
      forall i, j | 0 <= i < j < |r| ensures le(r[i], r[j]) {
        if i == 0 {
          assert r[j] == t[j - 1];
        } else {
          assert r[i] == t[i - 1] && r[j] == t[j - 1];
        }
      }
    }
  }

  /** Sorting by a total preorder yields a sorted permutation. */
  lemma {:induction false} SortBySorted<T(!new)>(s: seq<T>, le: (T, T) -> bool)
    requires Total(le) && Transitive(le)
    ensures Sorted(SortBy(s, le), le)
  {
    if s != [] {
      SortBySorted(s[1..], le);
      InsertSorted(s[0], SortBy(s[1..], le), le);
    }
  }

  /** A comparator that never asks to reorder (`() => 0`) keeps the input order. */
  lemma {:induction false} SortByKeepsOrder<T>(s: seq<T>, le: (T, T) -> bool)
    requires forall a, b :: le(a, b)
    ensures SortBy(s, le) == s
  {
    if s != [] {
      SortByKeepsOrder(s[1..], le);
    }
  }

  /** `Array.from(new Set(s))`: first occurrences, in order. */
  function Distinct<T(==)>(s: seq<T>): (r: seq<T>)
    ensures forall i :: 0 <= i < |r| ==> r[i] in s
    ensures forall i :: 0 <= i < |s| ==> s[i] in r
    ensures forall i, j :: 0 <= i < j < |r| ==> r[i] != r[j]
  {
    if s == [] then []
    else
      var rest := Distinct(s[..|s| - 1]);
      assert forall i :: 0 <= i < |s| - 1 ==> s[i] == s[..|s| - 1][i];
      if s[|s| - 1] in rest then rest else rest + [s[|s| - 1]]
  }

  /** A permutation of a duplicate-free list is duplicate-free. */
  lemma {:induction false} PermutationDistinct<T>(s: seq<T>, t: seq<T>)
    requires multiset(s) == multiset(t)
    requires forall i, j :: 0 <= i < j < |s| ==> s[i] != s[j]
    ensures forall i, j :: 0 <= i < j < |t| ==> t[i] != t[j]
  {
    forall i, j | 0 <= i < j < |t| ensures t[i] != t[j] {
      if t[i] == t[j] {
        var x := t[i];
        assert multiset(t)[x] >= 2 by {
          assert t == t[..i] + [t[i]] + t[i + 1..j] + [t[j]] + t[j + 1..];
          assert multiset(t) == multiset(t[..i]) + multiset{x} + multiset(t[i + 1..j]) + multiset{x} + multiset(t[j + 1..]);
        }
        DistinctCount(s, x);
        assert false;
      }
    }
  }

  lemma {:induction false} DistinctCount<T>(s: seq<T>, x: T)
    requires forall i, j :: 0 <= i < j < |s| ==> s[i] != s[j]
    ensures multiset(s)[x] <= 1
  {
    if s != [] {
      assert s == [s[0]] + s[1..];
      DistinctCount(s[1..], x);
      if s[0] == x {
        forall k | 0 <= k < |s| - 1 ensures s[1..][k] != x {
          assert s[0] != s[k + 1];
        }
      }
    }
  }
}
