/**
 * String and sequence helpers shared by the model: JavaScript's
 * `toLowerCase`, `includes`, `join`, number rendering, order-preserving
 * subsequences and a stable sort by an integer key (the behaviour of
 * `Array.prototype.sort` with a comparator `(a, b) => key(a) - key(b)`).
 */
module Text {

  // ---------------------------------------------------------------------
  // Lower-casing
  // ---------------------------------------------------------------------

  /** The upper-case letters the model lower-cases: ASCII A-Z and Latin-1 À-Þ except ×. */
  predicate IsUpper(c: char) {
    ('A' <= c <= 'Z') || ('\U{C0}' <= c <= '\U{DE}' && c != '\U{D7}')
  }

  function LowerChar(c: char): (r: char)
    ensures !IsUpper(r)
    ensures !IsUpper(c) ==> r == c
    ensures 'A' <= c <= 'Z' ==> r as int == c as int + 32
  {
    if IsUpper(c) then (c as int + 32) as char else c
  }

  /** `s.toLowerCase()`: the same length, every letter lower-cased. */
  function Lower(s: string): string {
    seq(|s|, i requires 0 <= i < |s| => LowerChar(s[i]))
  }

  predicate NoUpper(s: string) {
    forall i :: 0 <= i < |s| ==> !IsUpper(s[i])
  }

  lemma LowerIsLower(s: string)
    ensures |Lower(s)| == |s| && NoUpper(Lower(s))
    ensures NoUpper(s) ==> Lower(s) == s
    ensures Lower(Lower(s)) == Lower(s)
  {
  }

  lemma NoUpperAppend(a: string, b: string)
    requires NoUpper(a) && NoUpper(b)
    ensures NoUpper(a + b)
  {
    forall i | 0 <= i < |a + b|
      ensures !IsUpper((a + b)[i])
    {
      if i < |a| {
        assert (a + b)[i] == a[i];
      } else {
        assert (a + b)[i] == b[i - |a|];
      }
    }
  }

  /** Lower-casing works character by character, so it distributes over concatenation. */
  lemma LowerAppend(a: string, b: string)
    ensures Lower(a + b) == Lower(a) + Lower(b)
  {
  }

  // ---------------------------------------------------------------------
  // Substring search
  // ---------------------------------------------------------------------

  /** `s.includes(sub)`: `sub` is a prefix of some suffix of `s`. */
  predicate Contains(s: string, sub: string)
    decreases |s|
  {
    sub <= s || (|s| > 0 && Contains(s[1..], sub))
  }

  /** `sub` occurs in `s` starting at index `i`. */
  predicate OccursAt(s: string, sub: string, i: int) {
    0 <= i && i + |sub| <= |s| && s[i..i + |sub|] == sub
  }

  lemma {:induction false} ContainsIff(s: string, sub: string)
    ensures Contains(s, sub) <==> exists i :: OccursAt(s, sub, i)
    decreases |s|
  {
    if sub <= s {
      assert OccursAt(s, sub, 0);
    } else if |s| == 0 {
      assert forall i :: !OccursAt(s, sub, i);
    } else {
      ContainsIff(s[1..], sub);
      if Contains(s[1..], sub) {
        var i :| OccursAt(s[1..], sub, i);
        assert s[1..][i..i + |sub|] == s[i + 1..i + 1 + |sub|];
        assert OccursAt(s, sub, i + 1);
      } else {
        forall i | 0 < i && i + |sub| <= |s|
          ensures !OccursAt(s, sub, i)
        {
          assert !OccursAt(s[1..], sub, i - 1);
          assert s[1..][i - 1..i - 1 + |sub|] == s[i..i + |sub|];
        }
      }
    }
  }

  lemma ContainsWitness(s: string, sub: string, i: int)
    requires OccursAt(s, sub, i)
    ensures Contains(s, sub)
  {
    ContainsIff(s, sub);
  }

  /** Text built around a pattern contains it. */
  lemma ContainsInfix(s: string, a: string, sub: string, b: string)
    requires s == a + sub + b
    ensures Contains(s, sub)
  {
    assert (a + sub + b)[|a|..|a| + |sub|] == sub;
    ContainsWitness(a + sub + b, sub, |a|);
  }

  /** A pattern holding a character the text lacks never occurs in it. */
  lemma MissingCharNotContained(s: string, sub: string, c: char)
    requires c in sub && c !in s
    ensures !Contains(s, sub)
  {
    ContainsIff(s, sub);
    var j :| 0 <= j < |sub| && sub[j] == c;
    forall i | 0 <= i && i + |sub| <= |s|
      ensures !OccursAt(s, sub, i)
    {
      assert s[i..i + |sub|][j] == s[i + j];
    }
  }

  /** Text that contains a pattern contains every piece of it. */
  lemma InfixContained(s: string, a: string, b: string, c: string)
    ensures Contains(s, a + b + c) ==> Contains(s, b)
  {
    ContainsIff(s, a + b + c);
    if Contains(s, a + b + c) {
      var i :| OccursAt(s, a + b + c, i);
      forall j | 0 <= j < |b|
        ensures s[i + |a| + j] == b[j]
      {
        assert s[i..i + |a + b + c|][|a| + j] == (a + b + c)[|a| + j];
      }
      assert s[i + |a|..i + |a| + |b|] == b;
      ContainsWitness(s, b, i + |a|);
    }
  }

  /** A pattern longer than the text never occurs in it. */
  lemma LongerNotContained(s: string, sub: string)
    requires |sub| > |s|
    ensures !Contains(s, sub)
  {
    ContainsIff(s, sub);
  }

  /**
   * A pattern without the character `c` occurs in `a + [c] + b` only inside
   * `a` or inside `b`.
   */
  lemma SplitNotContained(a: string, c: char, b: string, sub: string)
    requires c !in sub && !Contains(a, sub) && !Contains(b, sub)
    ensures !Contains(a + [c] + b, sub)
  {
    var s := a + [c] + b;
    ContainsIff(a, sub);
    ContainsIff(b, sub);
    ContainsIff(s, sub);
    forall i | 0 <= i && i + |sub| <= |s|
      ensures !OccursAt(s, sub, i)
    {
      SplitOccurrence(a, c, b, sub, i);
    }
  }

  /** An occurrence in `a + [c] + b` of a pattern without `c` is an occurrence in `a` or in `b`. */
  lemma SplitOccurrence(a: string, c: char, b: string, sub: string, i: int)
    requires c !in sub && 0 <= i && i + |sub| <= |a| + 1 + |b|
    ensures OccursAt(a + [c] + b, sub, i) ==> OccursAt(a, sub, i) || OccursAt(b, sub, i - |a| - 1)
  {
    var s := a + [c] + b;
    if i + |sub| <= |a| {
      assert s[i..i + |sub|] == a[i..i + |sub|];
    } else if i > |a| {
      assert s[i..i + |sub|] == b[i - |a| - 1..i - |a| - 1 + |sub|];
    } else {
      assert s[i..i + |sub|][|a| - i] == c;
    }
  }

  /** A pattern without the character at index `k` occurs in `s` only before or after it. */
  lemma SplitAtNotContained(s: string, k: int, sub: string)
    requires 0 <= k < |s| && s[k] !in sub && !Contains(s[..k], sub) && !Contains(s[k + 1..], sub)
    ensures !Contains(s, sub)
  {
    SplitNotContained(s[..k], s[k], s[k + 1..], sub);
    assert s == s[..k] + [s[k]] + s[k + 1..];
  }

  /** A pattern without the separator occurs in joined parts only if it occurs in one of them. */
  /** Three parts joined: the separator between each pair. */
  lemma JoinThree(a: string, b: string, c: string, sep: string)
    ensures Join([a, b, c], sep) == a + sep + b + sep + c
  {
    assert [a, b, c][1..] == [b, c] && [b, c][1..] == [c];
  }

  /** Two parts joined: the separator between them. */
  lemma JoinTwo(a: string, b: string, sep: string)
    ensures Join([a, b], sep) == a + sep + b
  {
    assert [a, b][1..] == [b];
  }

  lemma {:induction false} JoinedNotContained(parts: seq<string>, c: char, sub: string)
    requires parts != [] && c !in sub && forall p :: p in parts ==> !Contains(p, sub)
    ensures !Contains(Join(parts, [c]), sub)
    decreases |parts|
  {
    if |parts| > 1 {
      assert parts[0] in parts;
      assert forall p :: p in parts[1..] ==> p in parts;
      JoinedNotContained(parts[1..], c, sub);
      SplitNotContained(parts[0], c, Join(parts[1..], [c]), sub);
    } else {
      assert parts[0] in parts;
    }
  }

  /** Text that contains a pattern still contains it with more text in front. */
  lemma ContainsExtend(a: string, b: string, sub: string)
    ensures Contains(b, sub) ==> Contains(a + b, sub)
  {
    ContainsIff(b, sub);
    if Contains(b, sub) {
      var i :| OccursAt(b, sub, i);
      assert (a + b)[|a| + i..|a| + i + |sub|] == b[i..i + |sub|];
      ContainsWitness(a + b, sub, |a| + i);
    }
  }

  /** Joined parts contain each part. */
  lemma {:induction false} JoinContainsPart(parts: seq<string>, sep: string, i: int)
    requires 0 <= i < |parts|
    ensures Contains(Join(parts, sep), parts[i])
    decreases |parts|
  {
    if |parts| == 1 {
      assert parts[0] <= Join(parts, sep);
    } else if i == 0 {
      var head := parts[0] + sep;
      assert Join(parts, sep) == head + Join(parts[1..], sep);
      assert parts[0] <= head;
      assert head <= Join(parts, sep);
    } else {
      JoinContainsPart(parts[1..], sep, i - 1);
      ContainsExtend(parts[0] + sep, Join(parts[1..], sep), parts[i]);
    }
  }

  /** A character in neither the parts nor the separator is not in the joined text. */
  lemma {:induction false} JoinLacksChar(parts: seq<string>, sep: string, c: char)
    requires c !in sep && forall p :: p in parts ==> c !in p
    ensures c !in Join(parts, sep)
    decreases |parts|
  {
    if |parts| > 1 {
      assert parts[0] in parts;
      assert forall p :: p in parts[1..] ==> p in parts;
      JoinLacksChar(parts[1..], sep, c);
    } else if |parts| == 1 {
      assert parts[0] in parts;
    }
  }

  /** Joining parts without upper-case letters gives text without them. */
  lemma {:induction false} JoinNoUpper(parts: seq<string>, sep: string)
    requires NoUpper(sep) && forall p :: p in parts ==> NoUpper(p)
    ensures NoUpper(Join(parts, sep))
    decreases |parts|
  {
    if |parts| > 1 {
      assert parts[0] in parts;
      assert forall p :: p in parts[1..] ==> p in parts;
      JoinNoUpper(parts[1..], sep);
      NoUpperAppend(parts[0], sep);
      NoUpperAppend(parts[0] + sep, Join(parts[1..], sep));
    } else if |parts| == 1 {
      assert parts[0] in parts;
    }
  }

  /** A pattern holding an upper-case letter never occurs in lower-cased text. */
  lemma UpperPatternNeverMatchesLowered(s: string, sub: string, j: int)
    requires 0 <= j < |sub| && IsUpper(sub[j])
    ensures !Contains(Lower(s), sub)
  {
    ContainsIff(Lower(s), sub);
    forall i | 0 <= i && i + |sub| <= |s|
      ensures !OccursAt(Lower(s), sub, i)
    {
      assert Lower(s)[i..i + |sub|][j] == LowerChar(s[i + j]);
    }
  }

  // ---------------------------------------------------------------------
  // Rendering
  // ---------------------------------------------------------------------

  function DigitChar(d: nat): char
    requires d < 10
  {
    "0123456789"[d]
  }

  /** `${n}` for a non-negative integer: its decimal digits, no leading zero. */
  function NatToString(n: nat): (r: string)
    ensures |r| > 0
    ensures forall i :: 0 <= i < |r| ==> '0' <= r[i] <= '9'
    ensures n >= 10 ==> r[0] != '0'
  {
    if n < 10 then [DigitChar(n)] else NatToString(n / 10) + [DigitChar(n % 10)]
  }

  /**
   * JavaScript's `Math.round`: the nearest integer, halves rounded up
   * (towards positive infinity, also for negative values).
   */
  function Round(x: real): (r: int)
    ensures x - 0.5 < r as real <= x + 0.5
  {
    (x + 0.5).Floor
  }

  /** `${n}` for any integer. */
  function IntToString(n: int): (r: string)
    ensures |r| > 0
    ensures n < 0 <==> r[0] == '-'
  {
    if n < 0 then "-" + NatToString(-n) else NatToString(n)
  }

  /** `parts.join(sep)`. */
  function Join(parts: seq<string>, sep: string): (r: string)
    ensures parts == [] ==> r == ""
    ensures |parts| == 1 ==> r == parts[0]
  {
    if parts == [] then ""
    else if |parts| == 1 then parts[0]
    else parts[0] + sep + Join(parts[1..], sep)
  }

  /** `s.indexOf(x)`: the first index holding `x`, or -1. */
  function IndexOf<T(==)>(s: seq<T>, x: T): (r: int)
    ensures -1 <= r < |s|
    ensures r >= 0 ==> s[r] == x && x !in s[..r]
    ensures r == -1 <==> x !in s
  {
    if s == [] then -1
    else if s[0] == x then 0
    else
      var r := IndexOf(s[1..], x);
      assert s == [s[0]] + s[1..];
      if r == -1 then -1
      else
        assert s[1..][..r] == s[1..r + 1];
        r + 1
  }

  // ---------------------------------------------------------------------
  // Order-preserving subsequences
  // ---------------------------------------------------------------------

  /** `a` is obtained from `b` by deleting elements, keeping the order of the rest. */
  predicate IsSubseq<T(==)>(a: seq<T>, b: seq<T>)
    decreases |b|
  {
    |a| <= |b| &&
    (a == [] ||
     (a[|a| - 1] == b[|b| - 1] && IsSubseq(a[..|a| - 1], b[..|b| - 1])) ||
     IsSubseq(a, b[..|b| - 1]))
  }

  lemma {:induction false} SubseqRefl<T>(s: seq<T>)
    ensures IsSubseq(s, s)
    decreases |s|
  {
    if s != [] {
      SubseqRefl(s[..|s| - 1]);
    }
  }

  lemma SubseqSnoc<T>(a: seq<T>, b: seq<T>, x: T)
    requires IsSubseq(a, b)
    ensures IsSubseq(a + [x], b + [x]) && IsSubseq(a, b + [x])
  {
    assert (a + [x])[..|a|] == a;
    assert (b + [x])[..|b|] == b;
  }

  lemma {:induction false} SubseqTrans<T>(a: seq<T>, b: seq<T>, c: seq<T>)
    requires IsSubseq(a, b) && IsSubseq(b, c)
    ensures IsSubseq(a, c)
    decreases |c|
  {
    if a == [] || c == [] {
    } else if b[|b| - 1] == c[|c| - 1] && IsSubseq(b[..|b| - 1], c[..|c| - 1]) {
      if a[|a| - 1] == b[|b| - 1] && IsSubseq(a[..|a| - 1], b[..|b| - 1]) {
        SubseqTrans(a[..|a| - 1], b[..|b| - 1], c[..|c| - 1]);
      } else {
        SubseqTrans(a, b[..|b| - 1], c[..|c| - 1]);
      }
    } else {
      SubseqTrans(a, b, c[..|c| - 1]);
    }
  }

  lemma {:induction false} SubseqMultiset<T>(a: seq<T>, b: seq<T>)
    requires IsSubseq(a, b)
    ensures multiset(a) <= multiset(b)
    decreases |b|
  {
    if a == [] {
    } else if a[|a| - 1] == b[|b| - 1] && IsSubseq(a[..|a| - 1], b[..|b| - 1]) {
      SubseqMultiset(a[..|a| - 1], b[..|b| - 1]);
      assert a == a[..|a| - 1] + [a[|a| - 1]];
      assert b == b[..|b| - 1] + [b[|b| - 1]];
    } else {
      SubseqMultiset(a, b[..|b| - 1]);
      assert b == b[..|b| - 1] + [b[|b| - 1]];
    }
  }

  /** Deleting the element at index `i` leaves a subsequence. */
  lemma {:induction false} DeleteIsSubseq<T>(s: seq<T>, i: int)
    requires 0 <= i < |s|
    ensures IsSubseq(s[..i] + s[i + 1..], s)
    decreases |s|
  {
    var d := s[..i] + s[i + 1..];
    if i == |s| - 1 {
      assert d == s[..|s| - 1];
      SubseqRefl(d);
    } else {
      var s' := s[..|s| - 1];
      DeleteIsSubseq(s', i);
      assert s'[..i] + s'[i + 1..] == d[..|d| - 1];
      assert d[|d| - 1] == s[|s| - 1];
    }
  }

  /** `s.filter(p)`: the elements satisfying `p`, in their order. */
  function Filter<T(!new)>(s: seq<T>, p: T -> bool): (r: seq<T>)
    ensures IsSubseq(r, s)
    ensures forall x :: x in r <==> x in s && p(x)
    decreases |s|
  {
    if s == [] then []
    else
      var init, last := s[..|s| - 1], s[|s| - 1];
      var r := Filter(init, p);
      assert s == init + [last];
      SubseqSnoc(r, init, last);
      if p(last) then r + [last] else r
  }

  /** Filtering keeps every copy of a passing element and none of a failing one. */
  lemma {:induction false} FilterCount<T(!new)>(s: seq<T>, p: T -> bool, x: T)
    ensures multiset(Filter(s, p))[x] == if p(x) then multiset(s)[x] else 0
    decreases |s|
  {
    if s != [] {
      var init, last := s[..|s| - 1], s[|s| - 1];
      assert s == init + [last];
      FilterCount(init, p, x);
      assert multiset(s) == multiset(init) + multiset{last};
    }
  }

  /** Filtering twice is filtering once by the conjunction. */
  lemma {:induction false} FilterFuse<T(!new)>(s: seq<T>, p: T -> bool, q: T -> bool, pq: T -> bool)
    requires forall x :: pq(x) == (p(x) && q(x))
    ensures Filter(Filter(s, p), q) == Filter(s, pq)
    decreases |s|
  {
    if s != [] {
      var init, last := s[..|s| - 1], s[|s| - 1];
      FilterFuse(init, p, q, pq);
      var f := Filter(init, p);
      if p(last) {
        assert (f + [last])[..|f|] == f;
      }
    }
  }

  /** A filter that every element passes keeps the whole sequence. */
  lemma {:induction false} FilterAllPass<T(!new)>(s: seq<T>, p: T -> bool)
    requires forall x :: x in s ==> p(x)
    ensures Filter(s, p) == s
    decreases |s|
  {
    if s != [] {
      var init, last := s[..|s| - 1], s[|s| - 1];
      assert s == init + [last];
      forall x | x in init
        ensures p(x)
      {
        assert x in s;
      }
      FilterAllPass(init, p);
      assert p(last);
    }
  }

  /** A filter that no element passes keeps nothing. */
  lemma {:induction false} FilterNonePass<T(!new)>(s: seq<T>, p: T -> bool)
    requires forall x :: x in s ==> !p(x)
    ensures Filter(s, p) == []
    decreases |s|
  {
    if s != [] {
      var init := s[..|s| - 1];
      assert forall x :: x in init ==> x in s;
      FilterNonePass(init, p);
      assert s[|s| - 1] in s;
    }
  }

  // ---------------------------------------------------------------------
  // Stable sort by an integer key
  // ---------------------------------------------------------------------

  predicate SortedByKey<T>(s: seq<T>, key: T -> int) {
    forall i, j :: 0 <= i < j < |s| ==> key(s[i]) <= key(s[j])
  }

  /** Inserts `x` before the first element whose key is not smaller. */
  function InsertByKey<T>(x: T, s: seq<T>, key: T -> int): (r: seq<T>)
    ensures multiset(r) == multiset(s) + multiset{x}
    ensures forall y :: y in r ==> y == x || y in s
  {
    if s == [] then [x]
    else if key(x) <= key(s[0]) then [x] + s
    else
      assert s == [s[0]] + s[1..];
      [s[0]] + InsertByKey(x, s[1..], key)
  }

  lemma {:induction false} InsertKeepsSorted<T>(x: T, s: seq<T>, key: T -> int)
    requires SortedByKey(s, key)
    ensures SortedByKey(InsertByKey(x, s, key), key)
  {
    if s != [] && key(x) > key(s[0]) {
      var rest := InsertByKey(x, s[1..], key);
      InsertKeepsSorted(x, s[1..], key);
      InsertStaysAboveHead(x, s, key);
      var r := [s[0]] + rest;
      forall a, b | 0 <= a < b < |r|
        ensures key(r[a]) <= key(r[b])
      {
        if a > 0 {
          assert r[a] == rest[a - 1] && r[b] == rest[b - 1];
        } else {
          assert r[b] == rest[b - 1];
        }
      }
    }
  }

  /** Inserting a key above the head of a sorted sequence keeps every entry after the head at or above it. */
  lemma InsertStaysAboveHead<T>(x: T, s: seq<T>, key: T -> int)
    requires SortedByKey(s, key) && s != [] && key(x) > key(s[0])
    ensures forall k :: 0 <= k < |InsertByKey(x, s[1..], key)| ==> key(s[0]) <= key(InsertByKey(x, s[1..], key)[k])
  {
    var rest := InsertByKey(x, s[1..], key);
    forall k | 0 <= k < |rest|
      ensures key(s[0]) <= key(rest[k])
    {
      assert rest[k] in rest;
      if rest[k] != x {
        var m :| 0 <= m < |s[1..]| && s[1..][m] == rest[k];
        assert s[m + 1] == rest[k];
      }
    }
  }

  /** A stable sort: the result is a permutation of `s` ordered by `key`. */
  function SortByKey<T>(s: seq<T>, key: T -> int): (r: seq<T>)
    ensures multiset(r) == multiset(s)
    ensures SortedByKey(r, key)
  {
    if s == [] then []
    else
      assert s == [s[0]] + s[1..];
      var rest := SortByKey(s[1..], key);
      InsertKeepsSorted(s[0], rest, key);
      InsertByKey(s[0], rest, key)
  }

  /** Sequences with the same multiset have the same members. */
  lemma SameMembers<T>(a: seq<T>, b: seq<T>)
    requires multiset(a) == multiset(b)
    ensures forall x :: x in a <==> x in b
  {
    assert forall x :: x in a <==> x in multiset(a);
    assert forall x :: x in b <==> x in multiset(b);
  }

  lemma SortPreservesLength<T>(s: seq<T>, key: T -> int)
    ensures |SortByKey(s, key)| == |s|
  {
    assert |multiset(SortByKey(s, key))| == |multiset(s)|;
  }

  // ---------------------------------------------------------------------
  // Lexicographic order and descending sort of strings
  // ---------------------------------------------------------------------

  /** `a` sorts before or equal to `b`, comparing character codes left to right. */
  predicate LexLeq(a: string, b: string)
    decreases |a|
  {
    a == [] || (b != [] && (a[0] < b[0] || (a[0] == b[0] && LexLeq(a[1..], b[1..]))))
  }

  lemma {:induction false} LexLeqTotal(a: string, b: string)
    ensures LexLeq(a, b) || LexLeq(b, a)
    decreases |a|
  {
    if a != [] && b != [] && a[0] == b[0] {
      LexLeqTotal(a[1..], b[1..]);
    }
  }

  lemma {:induction false} LexLeqTrans(a: string, b: string, c: string)
    requires LexLeq(a, b) && LexLeq(b, c)
    ensures LexLeq(a, c)
    decreases |a|
  {
    if a != [] && a[0] == b[0] && b[0] == c[0] {
      LexLeqTrans(a[1..], b[1..], c[1..]);
    }
  }

  lemma {:induction false} LexLeqAntisymmetric(a: string, b: string)
    requires LexLeq(a, b) && LexLeq(b, a)
    ensures a == b
    decreases |a|
  {
    if a != [] {
      LexLeqAntisymmetric(a[1..], b[1..]);
      assert a == [a[0]] + a[1..] && b == [b[0]] + b[1..];
    }
  }

  predicate SortedDesc(s: seq<string>) {
    forall i, j :: 0 <= i < j < |s| ==> LexLeq(s[j], s[i])
  }

  /** Inserts `x` before the first element that does not sort after it. */
  function InsertDesc(x: string, s: seq<string>): (r: seq<string>)
    ensures multiset(r) == multiset(s) + multiset{x}
    ensures forall y :: y in r ==> y == x || y in s
  {
    if s == [] then [x]
    else if LexLeq(s[0], x) then [x] + s
    else
      assert s == [s[0]] + s[1..];
      [s[0]] + InsertDesc(x, s[1..])
  }

  lemma {:induction false} InsertDescSorted(x: string, s: seq<string>)
    requires SortedDesc(s)
    ensures SortedDesc(InsertDesc(x, s))
  {
    if s == [] {
    } else if LexLeq(s[0], x) {
      var r := [x] + s;
      forall i, j | 0 <= i < j < |r|
        ensures LexLeq(r[j], r[i])
      {
        if i == 0 {
          if j > 1 {
            LexLeqTrans(s[j - 1], s[0], x);
          }
        } else {
          assert r[i] == s[i - 1] && r[j] == s[j - 1];
        }
      }
    } else {
      LexLeqTotal(s[0], x);
      var rest := InsertDesc(x, s[1..]);
      InsertDescSorted(x, s[1..]);
      forall k | 0 <= k < |rest|
        ensures LexLeq(rest[k], s[0])
      {
        assert rest[k] in rest;
        if rest[k] != x {
          var m :| 0 <= m < |s[1..]| && s[1..][m] == rest[k];
          assert s[m + 1] == rest[k];
        }
      }
      var r := [s[0]] + rest;
      forall i, j | 0 <= i < j < |r|
        ensures LexLeq(r[j], r[i])
      {
        if i > 0 {
          assert r[i] == rest[i - 1] && r[j] == rest[j - 1];
        } else {
          assert r[j] == rest[j - 1];
        }
      }
    }
  }

  /** `strings.sort((a, b) => b.localeCompare(a))` under code-unit order: newest name first. */
  function SortDesc(s: seq<string>): (r: seq<string>)
    ensures multiset(r) == multiset(s)
    ensures SortedDesc(r)
  {
    if s == [] then []
    else
      assert s == [s[0]] + s[1..];
      var rest := SortDesc(s[1..]);
      InsertDescSorted(s[0], rest);
      InsertDesc(s[0], rest)
  }

  /** `s.slice(0, end)` for an integer `end`: a negative end counts from the back. */
  function SliceTo<T>(s: seq<T>, end: int): (r: seq<T>)
    ensures r <= s
    ensures |r| == if end < 0 then (if |s| + end > 0 then |s| + end else 0)
                   else (if end < |s| then end else |s|)
  {
    var e := if end < 0 then (if |s| + end > 0 then |s| + end else 0) else (if end < |s| then end else |s|);
    s[..e]
  }

  predicate EndsWith(s: string, suffix: string) {
    |suffix| <= |s| && s[|s| - |suffix|..] == suffix
  }
}
