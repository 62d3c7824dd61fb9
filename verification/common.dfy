/** Shared building blocks of the model: optional request fields with JavaScript
    truthiness, the string operations the pages use (`toLowerCase`, `includes`,
    `startsWith`, `slice`, `trim`), and the list operations the stores and pages
    are built from (`filter`, `findIndex`, `splice`, `map` over matching ids). */
module Common {

  datatype Option<T> = None | Some(value: T)

  /** JavaScript truthiness of an optional string field: absent and "" are falsy. */
  predicate Truthy(o: Option<string>)
  {
    o.Some? && o.value != ""
  }

  /** The JavaScript idiom `o || d` on an optional string. */
  function OrDefault(o: Option<string>, d: string): string
  {
    if Truthy(o) then o.value else d
  }

  // ---------------------------------------------------------------------------
  // Strings

  /** `toLowerCase` on one character, restricted to ASCII. */
  function LowerChar(c: char): char
  {
    if 'A' <= c <= 'Z' then (c as int + 32) as char else c
  }

  /** `toLowerCase` on a string, restricted to ASCII. */
  function Lower(s: string): (r: string)
    ensures |r| == |s|
    ensures forall i :: 0 <= i < |s| ==> r[i] == LowerChar(s[i])
  {
    seq(|s|, i requires 0 <= i < |s| => LowerChar(s[i]))
  }

  /** `s.includes(sub)`: `sub` occurs in `s` at some position. */
  predicate Contains(s: string, sub: string)
    decreases |s|
  {
    sub <= s || (|s| > 0 && Contains(s[1..], sub))
  }

  /** `includes` after lower-casing both sides, as every search box of the dashboard does. */
  predicate ContainsIgnoreCase(s: string, sub: string)
  {
    Contains(Lower(s), Lower(sub))
  }

  /** Some string of the list contains `sub`, ignoring case (`items.some(...)`). */
  predicate AnyContainsIgnoreCase(items: seq<string>, sub: string)
  {
    exists i :: 0 <= i < |items| && ContainsIgnoreCase(items[i], sub)
  }

  /** The empty search text is found in every string. */
  lemma ContainsEmpty(s: string)
    ensures ContainsIgnoreCase(s, "")
  {
  }

  /** `sub` sits in `s` starting at index `i`. */
  predicate OccursAt(s: string, sub: string, i: int)
  {
    0 <= i <= |s| - |sub| && s[i..i + |sub|] == sub
  }

  /** `Contains` means: there is a position where `sub` sits in `s`. */
  lemma {:induction false} ContainsAt(s: string, sub: string)
    ensures Contains(s, sub) <==> exists i :: OccursAt(s, sub, i)
    decreases |s|
  {
    if sub <= s {
      assert OccursAt(s, sub, 0);
    } else if |s| > 0 {
      ContainsAt(s[1..], sub);
      if Contains(s[1..], sub) {
        var i :| OccursAt(s[1..], sub, i);
        assert s[i + 1..i + 1 + |sub|] == s[1..][i..i + |sub|];
        assert OccursAt(s, sub, i + 1);
      }
      if exists i :: OccursAt(s, sub, i) {
        var i :| OccursAt(s, sub, i);
        if i > 0 {
          assert s[1..][i - 1..i - 1 + |sub|] == s[i..i + |sub|];
          assert OccursAt(s[1..], sub, i - 1);
        }
      }
    } else {
      assert forall i :: OccursAt(s, sub, i) ==> i == 0 && |sub| == 0;
    }
  }

  /** `s.startsWith(prefix)`. */
  predicate StartsWith(s: string, prefix: string)
  {
    prefix <= s
  }

  /** `s.slice(0, n)`: the first `n` characters, or all of `s` when it is shorter. */
  function Take<T>(s: seq<T>, n: nat): (r: seq<T>)
    ensures |r| <= n && |r| <= |s|
    ensures r <= s
    ensures |s| <= n ==> r == s
    ensures n <= |s| ==> |r| == n
  {
    if |s| <= n then s else s[..n]
  }

  /** The characters JavaScript's `trim` removes, restricted to ASCII. */
  predicate IsSpace(c: char)
  {
    c == ' ' || c == '\t' || c == '\n' || c == '\r' || c == '\U{0B}' || c == '\U{0C}'
  }

  /** `s.trim()`: `s` without leading and trailing white space. */
  function Trim(s: string): (r: string)
    ensures |r| <= |s|
    ensures r != [] ==> !IsSpace(r[0]) && !IsSpace(r[|r| - 1])
    decreases |s|
  {
    if s == [] then []
    else if IsSpace(s[0]) then Trim(s[1..])
    else if IsSpace(s[|s| - 1]) then Trim(s[..|s| - 1])
    else s
  }

  /** `r` is `s[i..j]`, and everything before `i` and from `j` on is white space. */
  predicate CutAt(s: string, r: string, i: nat, j: nat)
  {
    && i <= j <= |s| && r == s[i..j]
    && (forall k :: 0 <= k < i ==> IsSpace(s[k]))
    && (forall k :: j <= k < |s| ==> IsSpace(s[k]))
  }

  /** `s.trim()` is a slice of `s`: only white space is cut, from the two ends. */
  lemma {:induction false} TrimIsSlice(s: string)
    ensures exists i: nat, j: nat :: CutAt(s, Trim(s), i, j)
    decreases |s|
  {
    if s == [] {
      assert CutAt(s, Trim(s), 0, 0);
    } else if IsSpace(s[0]) {
      var t := s[1..];
      assert Trim(s) == Trim(t);
      TrimIsSlice(t);
      var i: nat, j: nat :| CutAt(t, Trim(t), i, j);
      CutDropFront(s, Trim(t), i, j);
    } else if IsSpace(s[|s| - 1]) {
      var t := s[..|s| - 1];
      assert Trim(s) == Trim(t);
      TrimIsSlice(t);
      var i: nat, j: nat :| CutAt(t, Trim(t), i, j);
      CutDropBack(s, Trim(t), i, j);
    } else {
      assert CutAt(s, Trim(s), 0, |s|);
    }
  }

  /** Putting back a leading blank keeps a cut. */
  lemma CutDropFront(s: string, r: string, i: nat, j: nat)
    requires s != [] && IsSpace(s[0]) && CutAt(s[1..], r, i, j)
    ensures CutAt(s, r, i + 1, j + 1)
  {
    assert r == s[i + 1..j + 1];
    forall k | 0 <= k < i + 1 ensures IsSpace(s[k]) {
      if k > 0 { assert s[k] == s[1..][k - 1]; }
    }
    forall k | j + 1 <= k < |s| ensures IsSpace(s[k]) {
      assert s[k] == s[1..][k - 1];
    }
  }

  /** Putting back a trailing blank keeps a cut. */
  lemma CutDropBack(s: string, r: string, i: nat, j: nat)
    requires s != [] && IsSpace(s[|s| - 1]) && CutAt(s[..|s| - 1], r, i, j)
    ensures CutAt(s, r, i, j)
  {
    assert r == s[i..j];
    forall k | 0 <= k < i ensures IsSpace(s[k]) {
      assert s[k] == s[..|s| - 1][k];
    }
    forall k | j <= k < |s| ensures IsSpace(s[k]) {
      if k < |s| - 1 { assert s[k] == s[..|s| - 1][k]; }
    }
  }

  /** `!s.trim()` holds exactly when every character of `s` is white space. */
  lemma {:induction false} TrimEmptyIffBlank(s: string)
    ensures Trim(s) == [] <==> forall i :: 0 <= i < |s| ==> IsSpace(s[i])
    decreases |s|
  {
    if s == [] {
    } else if IsSpace(s[0]) {
      TrimEmptyIffBlank(s[1..]);
      assert forall i :: 1 <= i < |s| ==> s[i] == s[1..][i - 1];
    } else if IsSpace(s[|s| - 1]) {
      TrimEmptyIffBlank(s[..|s| - 1]);
    } else {
    }
  }

  // ---------------------------------------------------------------------------
  // Lists

  /** `s.filter(p)`. */
  function Filter<T(==)>(s: seq<T>, p: T -> bool): (r: seq<T>)
    ensures |r| <= |s|
    ensures forall k :: 0 <= k < |r| ==> p(r[k]) && r[k] in s
    ensures forall k :: 0 <= k < |s| && p(s[k]) ==> s[k] in r
    decreases |s|
  {
    if s == [] then []
    else if p(s[0]) then [s[0]] + Filter(s[1..], p)
    else Filter(s[1..], p)
  }

  /** `r` holds exactly the elements of `s` that pass `p`, each one as many
      times as it occurs in `s` (and nothing that is not in `s`). */
  predicate KeepsCounts<T(==)>(r: seq<T>, s: seq<T>, p: T -> bool)
  {
    (forall k :: 0 <= k < |s| ==> multiset(r)[s[k]] == (if p(s[k]) then multiset(s)[s[k]] else 0))
    && (forall k :: 0 <= k < |r| ==> r[k] in s)
  }

  /** `a` is `b` with some elements left out, the rest in the same order. */
  predicate Subsequence<T(==)>(a: seq<T>, b: seq<T>)
    decreases |b|
  {
    a == [] || (b != [] && ((a[0] == b[0] && Subsequence(a[1..], b[1..])) || Subsequence(a, b[1..])))
  }

  /** `filter` keeps every passing element as many times as it occurs, and no
      failing one: the result is the part of the input's multiset cut out by
      the predicate. */
  lemma {:induction false} FilterCounts<T>(s: seq<T>, p: T -> bool)
    ensures KeepsCounts(Filter(s, p), s, p)
    decreases |s|
  {
    if s != [] {
      var rest := Filter(s[1..], p);
      FilterCounts(s[1..], p);
      assert s == [s[0]] + s[1..];
      assert multiset(s) == multiset{s[0]} + multiset(s[1..]);
      assert multiset(rest)[s[0]] == (if p(s[0]) then multiset(s[1..])[s[0]] else 0) by {
        if s[0] !in s[1..] {
          assert s[0] !in rest;
        }
      }
      if p(s[0]) {
        assert Filter(s, p) == [s[0]] + rest;
        assert multiset(Filter(s, p)) == multiset{s[0]} + multiset(rest);
      } else {
        assert Filter(s, p) == rest;
      }
      forall k | 0 <= k < |s|
        ensures multiset(Filter(s, p))[s[k]] == (if p(s[k]) then multiset(s)[s[k]] else 0)
      {
        if k > 0 {
          assert s[k] == s[1..][k - 1];
        }
      }
    }
  }

  /** `filter` keeps the relative order of what it keeps. */
  lemma {:induction false} FilterIsSubsequence<T>(s: seq<T>, p: T -> bool)
    ensures Subsequence(Filter(s, p), s)
    decreases |s|
  {
    if s != [] {
      FilterIsSubsequence(s[1..], p);
      if p(s[0]) {
        assert Filter(s, p)[1..] == Filter(s[1..], p);
      }
    }
  }

  /** A filter whose predicate holds everywhere returns its input. */
  lemma {:induction false} FilterKeepsAll<T>(s: seq<T>, p: T -> bool)
    requires forall k :: 0 <= k < |s| ==> p(s[k])
    ensures Filter(s, p) == s
    decreases |s|
  {
    if s != [] {
      FilterKeepsAll(s[1..], p);
      assert s == [s[0]] + s[1..];
    }
  }

  /** A filter that passes everything leaves the list as it is. */
  lemma FilterPassAll<T>(s: seq<T>, p: T -> bool)
    requires forall x :: p(x)
    ensures Filter(s, p) == s
  {
    FilterKeepsAll(s, p);
  }

  /** Two filters in a row are one filter on the conjunction, so the order in
      which independent filters run does not matter. */
  lemma {:induction false} FilterFuse<T>(s: seq<T>, p: T -> bool, q: T -> bool, both: T -> bool)
    requires forall x :: both(x) == (p(x) && q(x))
    ensures Filter(Filter(s, p), q) == Filter(s, both)
    decreases |s|
  {
    if s != [] {
      FilterFuse(s[1..], p, q, both);
    }
  }

  /** Filtering by a predicate and by its negation splits a list: the two parts
      together have exactly as many elements as the list. */
  lemma {:induction false} FilterSplitCount<T>(s: seq<T>, p: T -> bool, q: T -> bool)
    requires forall x :: q(x) == !p(x)
    ensures |Filter(s, p)| + |Filter(s, q)| == |s|
    decreases |s|
  {
    if s != [] {
      FilterSplitCount(s[1..], p, q);
    }
  }

  /** Filtering a concatenation filters each part. */
  lemma {:induction false} FilterAppend<T>(a: seq<T>, b: seq<T>, p: T -> bool)
    ensures Filter(a + b, p) == Filter(a, p) + Filter(b, p)
    decreases |a|
  {
    if a == [] {
      assert a + b == b;
    } else {
      var ab := a + b;
      assert ab[0] == a[0] && ab[1..] == a[1..] + b;
      FilterAppend(a[1..], b, p);
      if p(a[0]) {
        assert Filter(ab, p) == [a[0]] + Filter(a[1..] + b, p);
        assert Filter(a, p) == [a[0]] + Filter(a[1..], p);
      } else {
        assert Filter(ab, p) == Filter(a[1..] + b, p);
        assert Filter(a, p) == Filter(a[1..], p);
      }
    }
  }

  /** No element occurs twice. */
  predicate Distinct<T(==)>(s: seq<T>)
  {
    forall i, j :: 0 <= i < j < |s| ==> s[i] != s[j]
  }

  /** A filter of a list without repetitions has none either. */
  lemma {:induction false} FilterDistinct<T>(s: seq<T>, p: T -> bool)
    requires Distinct(s)
    ensures Distinct(Filter(s, p))
    decreases |s|
  {
    if s != [] {
      assert Distinct(s[1..]);
      FilterDistinct(s[1..], p);
      var rest := Filter(s[1..], p);
      forall k | 0 <= k < |rest| ensures rest[k] != s[0] {
        var j :| 0 <= j < |s[1..]| && s[1..][j] == rest[k];
        assert s[j + 1] == rest[k];
      }
    }
  }

  /** `s.map(x => p(x) ? f(x) : x)`: every element satisfying `p` is replaced by
      its image under `f`, the others stay, and the length is unchanged. */
  function MapWhere<T>(s: seq<T>, p: T -> bool, f: T -> T): (r: seq<T>)
    ensures |r| == |s|
    ensures forall k :: 0 <= k < |s| ==> r[k] == if p(s[k]) then f(s[k]) else s[k]
  {
    seq(|s|, k requires 0 <= k < |s| => if p(s[k]) then f(s[k]) else s[k])
  }

  // ---------------------------------------------------------------------------
  // Sets

  /** A copied `Set` with `x` deleted when it has it and added when it does not. */
  function Toggle<T(!new)>(s: set<T>, x: T): (r: set<T>)
    ensures x in r <==> x !in s
    ensures forall y :: y != x ==> (y in r <==> y in s)
  {
    if x in s then s - {x} else s + {x}
  }

  /** Toggling the same element twice gives back the set. */
  lemma ToggleTwice<T(!new)>(s: set<T>, x: T)
    ensures Toggle(Toggle(s, x), x) == s
  {
  }

  /** `new Set(s.filter(p).map(id))`: the ids of the elements satisfying `p`. */
  function IdsWhere<T>(s: seq<T>, p: T -> bool, id: T -> string): (r: set<string>)
    ensures forall k :: 0 <= k < |s| && p(s[k]) ==> id(s[k]) in r
    ensures forall x :: x in r ==> exists k :: 0 <= k < |s| && p(s[k]) && id(s[k]) == x
    decreases |s|
  {
    if s == [] then {}
    else
      var rest := IdsWhere(s[1..], p, id);
      assert forall x :: x in rest ==> exists k :: 0 <= k < |s| && p(s[k]) && id(s[k]) == x by {
        forall x | x in rest ensures exists k :: 0 <= k < |s| && p(s[k]) && id(s[k]) == x {
          var k :| 0 <= k < |s[1..]| && p(s[1..][k]) && id(s[1..][k]) == x;
          assert s[k + 1] == s[1..][k];
        }
      }
      assert forall k :: 1 <= k < |s| && p(s[k]) ==> id(s[k]) in rest by {
        forall k | 1 <= k < |s| && p(s[k]) ensures id(s[k]) in rest {
          assert s[1..][k - 1] == s[k];
        }
      }
      if p(s[0]) then {id(s[0])} + rest else rest
  }

  /** `s.findIndex(p)`: the index of the first element satisfying `p`, or -1. */
  function FirstIndex<T>(s: seq<T>, p: T -> bool): (i: int)
    ensures -1 <= i < |s|
    ensures i == -1 <==> forall k :: 0 <= k < |s| ==> !p(s[k])
    ensures 0 <= i ==> p(s[i]) && forall k :: 0 <= k < i ==> !p(s[k])
    decreases |s|
  {
    if s == [] then -1
    else if p(s[0]) then 0
    else
      var j := FirstIndex(s[1..], p);
      if j == -1 then -1 else j + 1
  }

  /** `s.splice(i, 1)`: the list without the element at index `i`. */
  function RemoveAt<T>(s: seq<T>, i: nat): (r: seq<T>)
    requires i < |s|
    ensures |r| == |s| - 1
    ensures forall k :: 0 <= k < i ==> r[k] == s[k]
    ensures forall k :: i <= k < |r| ==> r[k] == s[k + 1]
    ensures multiset(r) == multiset(s) - multiset{s[i]}
  {
    assert s == s[..i] + [s[i]] + s[i + 1..];
    s[..i] + s[i + 1..]
  }

  /** Removing one element keeps the others in their relative order. */
  lemma RemoveAtIsSubsequence<T>(s: seq<T>, i: nat)
    requires i < |s|
    ensures Subsequence(RemoveAt(s, i), s)
  {
    SkipOneIsSubsequence(s, i);
  }

  /** The slice form of the lemma above, by induction on the index. */
  lemma {:induction false} SkipOneIsSubsequence<T>(s: seq<T>, i: nat)
    requires i < |s|
    ensures Subsequence(s[..i] + s[i + 1..], s)
    decreases i
  {
    if i == 0 {
      assert s[..0] + s[1..] == s[1..];
      SubsequenceOfSelf(s[1..]);
    } else {
      var t := s[1..];
      SkipOneIsSubsequence(t, i - 1);
      var r := s[..i] + s[i + 1..];
      assert r[0] == s[0];
      assert r[1..] == t[..i - 1] + t[i..];
    }
  }

  lemma {:induction false} SubsequenceOfSelf<T>(s: seq<T>)
    ensures Subsequence(s, s)
    decreases |s|
  {
    if s != [] {
      SubsequenceOfSelf(s[1..]);
    }
  }
}

/** `Array.prototype.sort` with a comparator `(a, b) => key(b) - key(a)`, which the
    jobs and courses pages call on their module-level arrays: the array is
    reordered in place so that keys never increase. */
module Sorting {

  /** Keys never increase from left to right. */
  predicate NonIncreasing<T>(s: seq<T>, key: T -> int)
  {
    forall p, q :: 0 <= p < q < |s| ==> key(s[p]) >= key(s[q])
  }

  /** Exchanges two elements of the array and touches nothing else. */
  method Swap<T>(a: array<T>, i: nat, j: nat)
    requires i < a.Length && j < a.Length
    modifies a
    ensures a[..] == old(a[..])[i := old(a[j])][j := old(a[i])]
    ensures multiset(a[..]) == multiset(old(a[..]))
  {
    a[i], a[j] := a[j], a[i];
  }

  /** One pass of insertion sort: moves `a[i]` left into the ordered prefix
      `a[..i]`, so that `a[..i + 1]` is ordered. */
  method InsertLeft<T>(a: array<T>, i: nat, key: T -> int)
    requires i < a.Length
    requires NonIncreasing(a[..i], key)
    modifies a
    ensures NonIncreasing(a[..i + 1], key)
    ensures a[i + 1..] == old(a[i + 1..])
    ensures multiset(a[..]) == multiset(old(a[..]))
  {
    var j := i;
    while j > 0 && key(a[j - 1]) < key(a[j])
      invariant 0 <= j <= i
      invariant forall p, q :: 0 <= p < q <= i && p != j && q != j ==> key(a[p]) >= key(a[q])
      invariant forall q :: j < q <= i ==> key(a[j]) > key(a[q])
      invariant a[i + 1..] == old(a[i + 1..])
      invariant multiset(a[..]) == multiset(old(a[..]))
    {
      Swap(a, j - 1, j);
      j := j - 1;
    }
  }

  /** In a list ordered by descending key, the head's key is at least that of
      every element of any rearrangement of the list. */
  lemma HeadIsMaximal<T>(s: seq<T>, t: seq<T>, key: T -> int)
    requires NonIncreasing(s, key) && |s| > 0
    requires multiset(s) == multiset(t)
    ensures forall k :: 0 <= k < |t| ==> key(s[0]) >= key(t[k])
  {
    forall k | 0 <= k < |t| ensures key(s[0]) >= key(t[k]) {
      assert t[k] in multiset(t);
      assert t[k] in multiset(s);
      var j :| 0 <= j < |s| && s[j] == t[k];
    }
  }

  /** Insertion sort by descending key: the result is ordered and holds exactly the
      elements that were there before. */
  method SortDescending<T>(a: array<T>, key: T -> int)
    modifies a
    ensures NonIncreasing(a[..], key)
    ensures multiset(a[..]) == multiset(old(a[..]))
  {
    var i := 0;
    while i < a.Length
      invariant i <= a.Length
      invariant NonIncreasing(a[..i], key)
      invariant multiset(a[..]) == multiset(old(a[..]))
    {
      InsertLeft(a, i, key);
      i := i + 1;
    }
    assert a[..] == a[..a.Length];
  }
}
