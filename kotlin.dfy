/** The parts of the Kotlin standard library that the view models rely on:
    nullable values, blank tests, trimming, upper-casing, `lastIndexOf`,
    `filter`, `sortedByDescending` and the decimal rendering of an `Int`. */
module Kotlin {

  /** A nullable value `T?`. */
  datatype Option<+T> = None | Some(value: T)

  /** `Char.isWhitespace()` on the JVM: the ASCII controls TAB..CR and
      FS..US, and the Unicode space, line and paragraph separators. */
  predicate IsWhitespace(c: char) {
    c == ' ' || '\t' <= c <= '\r' || '\U{1C}' <= c <= '\U{1F}'
    || c == '\U{A0}' || c == '\U{1680}' || '\U{2000}' <= c <= '\U{200A}'
    || c == '\U{2028}' || c == '\U{2029}' || c == '\U{202F}' || c == '\U{205F}'
    || c == '\U{3000}'
  }

  /** `CharSequence.isBlank()`: empty, or whitespace only. */
  predicate IsBlank(s: string) {
    forall i :: 0 <= i < |s| ==> IsWhitespace(s[i])
  }

  /** `String.trim()`: drops the leading and the trailing whitespace. */
  function Trim(s: string): (r: string)
    ensures r == [] <==> IsBlank(s)
    ensures r != [] ==> !IsWhitespace(r[0]) && !IsWhitespace(r[|r| - 1])
  {
    if s == [] then s
    else if IsWhitespace(s[0]) then Trim(s[1..])
    else if IsWhitespace(s[|s| - 1]) then Trim(s[..|s| - 1])
    else s
  }

  /** The trimmed string is the slice left after removing a whitespace
      prefix and a whitespace suffix. */
  lemma {:induction false} TrimIsSlice(s: string)
    ensures exists i, j :: 0 <= i <= j <= |s| && Trim(s) == s[i..j] && IsBlank(s[..i]) && IsBlank(s[j..])
  {
    if s == [] {
      assert Trim(s) == s[0..0];
    } else if IsWhitespace(s[0]) {
      var t := s[1..];
      TrimIsSlice(t);
      var i, j :| 0 <= i <= j <= |t| && Trim(t) == t[i..j] && IsBlank(t[..i]) && IsBlank(t[j..]);
      SliceOfTail(s, i, j);
      assert Trim(s) == s[i + 1..j + 1];
    } else if IsWhitespace(s[|s| - 1]) {
      var t := s[..|s| - 1];
      TrimIsSlice(t);
      var i, j :| 0 <= i <= j <= |t| && Trim(t) == t[i..j] && IsBlank(t[..i]) && IsBlank(t[j..]);
      SliceOfFront(s, i, j);
      assert Trim(s) == s[i..j];
    } else {
      assert Trim(s) == s[0..|s|];
    }
  }

  lemma SliceOfTail(s: string, i: nat, j: nat)
    requires s != [] && IsWhitespace(s[0]) && i <= j <= |s| - 1
    requires IsBlank(s[1..][..i]) && IsBlank(s[1..][j..])
    ensures s[1..][i..j] == s[i + 1..j + 1] && IsBlank(s[..i + 1]) && IsBlank(s[j + 1..])
  {
    assert s[1..][j..] == s[j + 1..];
    var front := s[..i + 1];
    forall k | 0 <= k < |front| ensures IsWhitespace(front[k]) {
      if k > 0 {
        assert front[k] == s[1..][..i][k - 1];
      }
    }
  }

  lemma SliceOfFront(s: string, i: nat, j: nat)
    requires s != [] && IsWhitespace(s[|s| - 1]) && i <= j <= |s| - 1
    requires IsBlank(s[..|s| - 1][..i]) && IsBlank(s[..|s| - 1][j..])
    ensures s[..|s| - 1][i..j] == s[i..j] && IsBlank(s[..i]) && IsBlank(s[j..])
  {
    assert s[..|s| - 1][..i] == s[..i];
    assert forall k :: 0 <= k < |s| - 1 - j ==> s[j..][k] == s[..|s| - 1][j..][k];
  }

  /** Trimming a trimmed string changes nothing. */
  lemma TrimIdempotent(s: string)
    ensures Trim(Trim(s)) == Trim(s)
  {
    var r := Trim(s);
    if r != [] {
      assert !IsWhitespace(r[0]) && !IsWhitespace(r[|r| - 1]);
    }
  }

  /** Upper-casing of a single character, restricted to ASCII letters. */
  function UppercaseChar(c: char): char {
    if 'a' <= c <= 'z' then (c as int - 32) as char else c
  }

  /** `String.uppercase()` restricted to ASCII letters. */
  function Uppercase(s: string): (r: string)
    ensures |r| == |s|
    ensures forall i :: 0 <= i < |s| ==> r[i] == UppercaseChar(s[i])
  {
    if s == [] then [] else [UppercaseChar(s[0])] + Uppercase(s[1..])
  }

  /** `CharSequence.startsWith(prefix)`. */
  predicate StartsWith(s: string, prefix: string) {
    |prefix| <= |s| && s[..|prefix|] == prefix
  }

  /** `String.lastIndexOf(c)`: the index of the last occurrence of `c`,
      or -1 when there is none. */
  function LastIndexOf(s: string, c: char): (r: int)
    ensures -1 <= r < |s|
    ensures r == -1 <==> c !in s
    ensures 0 <= r ==> s[r] == c && c !in s[r + 1..]
  {
    if s == [] then -1
    else if s[|s| - 1] == c then |s| - 1
    else
      var r := LastIndexOf(s[..|s| - 1], c);
      assert s == s[..|s| - 1] + [s[|s| - 1]];
      r
  }

  function DigitChar(d: nat): char
    requires d < 10
  {
    ('0' as int + d) as char
  }

  /** `Int.toString()` for a non-negative value: its decimal digits. */
  function NatToString(n: nat): (r: string)
    ensures |r| >= 1
    ensures forall i :: 0 <= i < |r| ==> '0' <= r[i] <= '9'
  {
    if n < 10 then [DigitChar(n)] else NatToString(n / 10) + [DigitChar(n % 10)]
  }

  /** The number a string of decimal digits denotes. */
  function DigitsValue(s: string): int {
    if s == [] then 0 else 10 * DigitsValue(s[..|s| - 1]) + (s[|s| - 1] as int - '0' as int)
  }

  /** The decimal rendering denotes the number it renders. */
  lemma {:induction false} NatToStringValue(n: nat)
    ensures DigitsValue(NatToString(n)) == n
  {
    if n >= 10 {
      NatToStringValue(n / 10);
      var r := NatToString(n);
      assert r[..|r| - 1] == NatToString(n / 10);
    }
  }

  /** `Iterable.filter(p)`: the elements satisfying `p`, in their order. */
  function Filter<T(!new)>(s: seq<T>, p: T -> bool): (r: seq<T>)
    ensures |r| <= |s|
    ensures forall i :: 0 <= i < |r| ==> p(r[i])
  {
    if s == [] then []
    else (if p(s[0]) then [s[0]] else []) + Filter(s[1..], p)
  }

  /** Filtering keeps each element satisfying `p` as often as it occurs, and
      no other. */
  lemma {:induction false} FilterCounts<T(!new)>(s: seq<T>, p: T -> bool)
    ensures forall x :: multiset(Filter(s, p))[x] == if p(x) then multiset(s)[x] else 0
  {
    if s != [] {
      FilterCounts(s[1..], p);
      var head := if p(s[0]) then [s[0]] else [];
      assert s == [s[0]] + s[1..];
      assert multiset(Filter(s, p)) == multiset(head) + multiset(Filter(s[1..], p));
    }
  }

  /** An element survives filtering exactly when it satisfies `p`. */
  lemma FilterMembers<T(!new)>(s: seq<T>, p: T -> bool)
    ensures forall x :: x in Filter(s, p) <==> x in s && p(x)
  {
    FilterCounts(s, p);
    forall x ensures x in Filter(s, p) <==> x in s && p(x) {
      assert x in Filter(s, p) <==> x in multiset(Filter(s, p));
      assert x in s <==> x in multiset(s);
    }
  }

  /** Filtering keeps the relative order: it distributes over concatenation. */
  lemma {:induction false} FilterAppend<T(!new)>(a: seq<T>, b: seq<T>, p: T -> bool)
    ensures Filter(a + b, p) == Filter(a, p) + Filter(b, p)
  {
    if a == [] {
      assert a + b == b;
    } else {
      var ab := a + b;
      assert ab[0] == a[0] && ab[1..] == a[1..] + b;
      FilterAppend(a[1..], b, p);
    }
  }

  /** Every later element has a key no larger than every earlier one. */
  predicate DescendingBy<T>(s: seq<T>, key: T -> int) {
    forall i, j :: 0 <= i < j < |s| ==> key(s[j]) <= key(s[i])
  }

  /** Inserts `x` into a descending sequence after every element with a
      strictly larger key and before every element with a key no larger. */
  function InsertDescending<T>(x: T, s: seq<T>, key: T -> int): (r: seq<T>)
    requires DescendingBy(s, key)
    ensures multiset(r) == multiset(s) + multiset{x}
    ensures DescendingBy(r, key)
  {
    if s == [] || key(s[0]) <= key(x) then [x] + s
    else
      var tail := InsertDescending(x, s[1..], key);
      assert s == [s[0]] + s[1..];
      TailBounded(s, x, tail, key);
      ConsDescending(s[0], tail, key);
      [s[0]] + tail
  }

  /** Every element of a permutation of `s[1..]` plus a smaller `x` has a
      key no larger than the head's. */
  lemma TailBounded<T>(s: seq<T>, x: T, tail: seq<T>, key: T -> int)
    requires s != [] && DescendingBy(s, key) && key(x) < key(s[0])
    requires multiset(tail) == multiset(s[1..]) + multiset{x}
    ensures forall j :: 0 <= j < |tail| ==> key(tail[j]) <= key(s[0])
  {
    forall j | 0 <= j < |tail| ensures key(tail[j]) <= key(s[0]) {
      assert tail[j] in multiset(tail);
      if tail[j] != x {
        assert tail[j] in multiset(s[1..]);
        var k :| 0 <= k < |s[1..]| && s[1..][k] == tail[j];
        assert s[k + 1] == tail[j];
      }
    }
  }

  /** A head with a key no smaller than any of a descending tail's keeps
      the sequence descending. */
  lemma ConsDescending<T>(h: T, tail: seq<T>, key: T -> int)
    requires DescendingBy(tail, key) && forall j :: 0 <= j < |tail| ==> key(tail[j]) <= key(h)
    ensures DescendingBy([h] + tail, key)
  {
    var r := [h] + tail;
    forall i, j | 0 <= i < j < |r| ensures key(r[j]) <= key(r[i]) {
      assert r[j] == tail[j - 1];
      if i > 0 {
        assert r[i] == tail[i - 1];
      }
    }
  }

  /** `Iterable.sortedByDescending(key)`: a stable sort, largest key first. */
  function SortedByDescending<T>(s: seq<T>, key: T -> int): (r: seq<T>)
    ensures multiset(r) == multiset(s) && |r| == |s|
    ensures DescendingBy(r, key)
  {
    if s == [] then []
    else
      assert s == [s[0]] + s[1..];
      InsertDescending(s[0], SortedByDescending(s[1..], key), key)
  }

  /** A permutation holds exactly the elements of what it permutes. */
  lemma SameElements<T>(a: seq<T>, b: seq<T>)
    requires multiset(a) == multiset(b)
    ensures forall x :: x in a <==> x in b
  {
    forall x ensures x in a <==> x in b {
      assert x in a <==> x in multiset(a);
      assert x in b <==> x in multiset(b);
    }
  }
}
