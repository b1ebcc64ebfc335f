/** The JavaScript string operations the storefront relies on: `toLowerCase`,
    `includes`, `join`, `trim` (as a blankness test), and the code-point order
    (the same as JavaScript's UTF-16 code-unit order on text within the Basic
    Multilingual Plane) standing in for `Array.prototype.sort()` and, in this
    model, for `localeCompare`. */
module Strings {
  import opened Seqs

  /** `toLowerCase` on one character (ASCII letters only). */
  function LowerChar(c: char): char
  {
    if 'A' <= c <= 'Z' then (c as int - 'A' as int + 'a' as int) as char else c
  }

  function Lower(s: string): (r: string)
    ensures |r| == |s|
    ensures forall i :: 0 <= i < |s| ==> r[i] == LowerChar(s[i])
  {
    if s == [] then [] else [LowerChar(s[0])] + Lower(s[1..])
  }

  /** Lowercasing distributes over concatenation, so lowercasing a joined
      text is joining the lowercased parts. */
  lemma LowerAppend(a: string, b: string)
    ensures Lower(a + b) == Lower(a) + Lower(b)
  {
  }

  /** `p` occurs in `s` starting at index `i`. */
  predicate OccursAt(s: string, p: string, i: int)
  {
    0 <= i <= |s| - |p| && s[i..i + |p|] == p
  }

  /** `s.includes(p)`: `p` occurs contiguously in `s`. */
  predicate Contains(s: string, p: string)
  {
    exists i | 0 <= i <= |s| - |p| :: OccursAt(s, p, i)
  }

  /** Every string includes the empty string. */
  lemma ContainsEmpty(s: string)
    ensures Contains(s, "")
  {
    assert OccursAt(s, "", 0);
  }

  /** A text that includes `p` still does after anything is appended. */
  lemma ContainsPrefix(s: string, t: string, p: string)
    requires Contains(s, p)
    ensures Contains(s + t, p)
  {
    var i :| 0 <= i <= |s| - |p| && OccursAt(s, p, i);
    assert (s + t)[i..i + |p|] == s[i..i + |p|];
    assert OccursAt(s + t, p, i);
  }

  /** `parts.join(sep)`. */
  function Join(parts: seq<string>, sep: string): string
  {
    if parts == [] then ""
    else if |parts| == 1 then parts[0]
    else parts[0] + sep + Join(parts[1..], sep)
  }

  /** Lexicographic order by code point; `a` may come before `b`. */
  predicate StrLe(a: string, b: string)
  {
    if a == [] then true
    else if b == [] then false
    else a[0] < b[0] || (a[0] == b[0] && StrLe(a[1..], b[1..]))
  }

  lemma {:induction false} StrLeTotalAt(a: string, b: string)
    ensures StrLe(a, b) || StrLe(b, a)
  {
    if a != [] && b != [] && a[0] == b[0] {
      StrLeTotalAt(a[1..], b[1..]);
    }
  }

  lemma {:induction false} StrLeTransitiveAt(a: string, b: string, c: string)
    requires StrLe(a, b) && StrLe(b, c)
    ensures StrLe(a, c)
  {
    if a != [] && b != [] && c != [] && a[0] == b[0] && b[0] == c[0] {
      StrLeTransitiveAt(a[1..], b[1..], c[1..]);
    }
  }

  /** The string order is a total preorder, so sorting by it yields a sorted list. */
  lemma StrLeTotalPreorder()
    ensures Total(StrLe) && Transitive(StrLe)
  {
    forall a, b ensures StrLe(a, b) || StrLe(b, a) {
      StrLeTotalAt(a, b);
    }
    forall a, b, c | StrLe(a, b) && StrLe(b, c) ensures StrLe(a, c) {
      StrLeTransitiveAt(a, b, c);
    }
  }

  /** `Array.from(new Set(xs)).sort()`: the distinct strings of `xs` in code-point order. */
  function DistinctSorted(xs: seq<string>): (r: seq<string>)
    ensures forall x :: x in r <==> x in xs
    ensures forall i, j :: 0 <= i < j < |r| ==> r[i] != r[j]
    ensures Sorted(r, StrLe)
  {
    var d := Distinct(xs);
    var r := SortBy(d, StrLe);
    StrLeTotalPreorder();
    SortBySorted(d, StrLe);
    PermutationDistinct(d, r);
    assert forall x :: x in r <==> x in multiset(d);
    r
  }

  /** The characters `String.prototype.trim` strips: ECMAScript WhiteSpace and
      LineTerminator code points. */
  predicate IsTrimmable(c: char)
  {
    var n := c as int;
    (0x9 <= n <= 0xD) || n == 0x20 || n == 0xA0 || n == 0x1680
    || (0x2000 <= n <= 0x200A) || n == 0x2028 || n == 0x2029 || n == 0x202F
    || n == 0x205F || n == 0x3000 || n == 0xFEFF
  }

  /** `!s.trim()`: the string is empty once trimmed. */
  predicate IsBlank(s: string)
  {
    forall i :: 0 <= i < |s| ==> IsTrimmable(s[i])
  }
}
