/*
 * String operations the console relies on, written out over `seq<char>`:
 * `join`/`split`, `includes`, `toLowerCase`, `trim`, `padStart`, and the
 * ordering that `sort()` and `localeCompare` provide.
 */
module Strings {
  import opened Seqs

  /** `xs.join(sep)`. */
  function Join(xs: seq<string>, sep: string): (r: string)
    ensures xs == [] ==> r == ""
    ensures |xs| == 1 ==> r == xs[0]
    decreases |xs|
  {
    if xs == [] then ""
    else if |xs| == 1 then xs[0]
    else xs[0] + sep + Join(xs[1..], sep)
  }

  /** `s.split(c)` for a one-character separator: the pieces between the
      occurrences of `c`; the empty string splits into `[""]`. */
  function Split(s: string, c: char): (r: seq<string>)
    ensures |r| >= 1
    ensures forall i :: 0 <= i < |r| ==> c !in r[i]
    decreases |s|
  {
    if s == [] then [""]
    else if s[0] == c then [""] + Split(s[1..], c)
    else
      var rest := Split(s[1..], c);
      [[s[0]] + rest[0]] + rest[1..]
  }

  /** Splitting a joined list at a separator that none of the pieces
      contains gives back the pieces. */
  lemma {:induction false} SplitJoin(xs: seq<string>, c: char)
    requires xs != []
    requires forall i :: 0 <= i < |xs| ==> c !in xs[i]
    ensures Split(Join(xs, [c]), c) == xs
    decreases |xs|
  {
    if |xs| == 1 {
      SplitNoSeparator(xs[0], c);
    } else {
      SplitJoin(xs[1..], c);
      SplitPrefix(xs[0], Join(xs[1..], [c]), c);
    }
  }

  lemma {:induction false} SplitNoSeparator(s: string, c: char)
    requires c !in s
    ensures Split(s, c) == [s]
    decreases |s|
  {
    if s != [] {
      SplitNoSeparator(s[1..], c);
      assert [s[0]] + s[1..] == s;
    }
  }

  /** Splitting `a + [c] + b` where `a` has no separator puts `a` first. */
  lemma {:induction false} SplitPrefix(a: string, b: string, c: char)
    requires c !in a
    ensures Split(a + [c] + b, c) == [a] + Split(b, c)
    decreases |a|
  {
    if a == [] {
      assert a + [c] + b == [c] + b;
      assert ([c] + b)[1..] == b;
    } else {
      assert (a + [c] + b)[1..] == a[1..] + [c] + b;
      SplitPrefix(a[1..], b, c);
      assert [a[0]] + a[1..] == a;
    }
  }

  /** `t` occurs in `s` starting at index `i`. */
  predicate OccursAt(s: string, t: string, i: nat) {
    i + |t| <= |s| && s[i..i + |t|] == t
  }

  /** `s.includes(t)`. */
  function Includes(s: string, t: string): (r: bool)
    ensures r <==> exists i :: 0 <= i <= |s| && OccursAt(s, t, i)
    decreases |s|
  {
    if |t| <= |s| && s[..|t|] == t then
      assert OccursAt(s, t, 0);
      true
    else if |t| > |s| || s == [] then
      assert forall i :: 0 <= i <= |s| ==> !OccursAt(s, t, i);
      false
    else
      var r := Includes(s[1..], t);
      assert forall i :: 1 <= i <= |s| ==> (OccursAt(s, t, i) <==> OccursAt(s[1..], t, i - 1));
      assert !OccursAt(s, t, 0);
      if r then
        var i :| 0 <= i <= |s[1..]| && OccursAt(s[1..], t, i);
        assert OccursAt(s, t, i + 1);
        r
      else r
  }

  /** Whether a character is JavaScript white space: what `\s` in a regular
      expression and `String.prototype.trim` both treat as white space. */
  predicate IsJsSpace(c: char) {
    var n := c as int;
    (9 <= n <= 13) || n == 0x20 || n == 0xA0 || n == 0x1680
    || (0x2000 <= n <= 0x200A) || n == 0x2028 || n == 0x2029
    || n == 0x202F || n == 0x205F || n == 0x3000 || n == 0xFEFF
  }

  /** `s.trim()`: `s` without its leading and trailing white space. */
  function Trim(s: string): (r: string)
    ensures r == [] || (!IsJsSpace(r[0]) && !IsJsSpace(r[|r| - 1]))
    ensures exists i, j ::
              && 0 <= i <= j <= |s| && r == s[i..j]
              && (forall k :: 0 <= k < i ==> IsJsSpace(s[k]))
              && (forall k :: j <= k < |s| ==> IsJsSpace(s[k]))
  {
    var i := LeadingSpace(s, 0);
    var j := TrailingSpace(s, i, |s|);
    s[i..j]
  }

  /** The index of the first non-space character at or after `from`. */
  function LeadingSpace(s: string, from: nat): (i: nat)
    requires from <= |s|
    requires forall k :: 0 <= k < from ==> IsJsSpace(s[k])
    ensures from <= i <= |s|
    ensures forall k :: 0 <= k < i ==> IsJsSpace(s[k])
    ensures i == |s| || !IsJsSpace(s[i])
    decreases |s| - from
  {
    if from < |s| && IsJsSpace(s[from]) then LeadingSpace(s, from + 1) else from
  }

  /** The end of `s` once trailing space down to `lo` is dropped. */
  function TrailingSpace(s: string, lo: nat, hi: nat): (j: nat)
    requires lo <= hi <= |s|
    requires forall k :: hi <= k < |s| ==> IsJsSpace(s[k])
    ensures lo <= j <= hi
    ensures forall k :: j <= k < |s| ==> IsJsSpace(s[k])
    ensures j == lo || !IsJsSpace(s[j - 1])
    decreases hi
  {
    if lo < hi && IsJsSpace(s[hi - 1]) then TrailingSpace(s, lo, hi - 1) else hi
  }

  /** `c.toLowerCase()` for the letters of Basic Latin and Latin-1. */
  function LowerChar(c: char): (r: char)
    ensures 'A' <= c <= 'Z' ==> r as int == c as int + 32
    ensures !('A' <= c <= 'Z') && !('À' <= c <= 'Þ') ==> r == c
  {
    if 'A' <= c <= 'Z' || ('À' <= c <= 'Þ' && c != '×') then
      (c as int + 32) as char
    else c
  }

  /** `s.toLowerCase()`, character by character. */
  function ToLower(s: string): (r: string)
    ensures |r| == |s|
    ensures forall i :: 0 <= i < |s| ==> r[i] == LowerChar(s[i])
  {
    seq(|s|, i requires 0 <= i < |s| => LowerChar(s[i]))
  }

  /** `s.padStart(n, c)` for a one-character pad. */
  function PadStart(s: string, n: nat, c: char): (r: string)
    ensures |s| >= n ==> r == s
    ensures |s| < n ==> |r| == n
    ensures |r| >= |s| && r == seq(|r| - |s|, _ => c) + s
  {
    if |s| >= n then
      assert s == seq(0, _ => c) + s;
      s
    else
      seq(n - |s|, _ => c) + s
  }

  // ---------------------------------------------------------------------
  // Ordering of strings: the code-point order used for `sort()` and, in
  // this model, for `localeCompare`.

  /** Lexicographic `a <= b`. */
  predicate StrLe(a: string, b: string)
    decreases |a|
  {
    a == [] || (b != [] && (a[0] < b[0] || (a[0] == b[0] && StrLe(a[1..], b[1..]))))
  }

  lemma {:induction false} StrLeTotal(a: string, b: string)
    ensures StrLe(a, b) || StrLe(b, a)
    decreases |a|
  {
    if a != [] && b != [] && a[0] == b[0] {
      StrLeTotal(a[1..], b[1..]);
    }
  }

  lemma {:induction false} StrLeTransitive(a: string, b: string, c: string)
    requires StrLe(a, b) && StrLe(b, c)
    ensures StrLe(a, c)
    decreases |a|
  {
    if a != [] && b != [] && c != [] && a[0] == b[0] && b[0] == c[0] {
      StrLeTransitive(a[1..], b[1..], c[1..]);
    }
  }

  lemma {:induction false} StrLeAntisymmetric(a: string, b: string)
    requires StrLe(a, b) && StrLe(b, a)
    ensures a == b
    decreases |a|
  {
    if a != [] && b != [] {
      StrLeAntisymmetric(a[1..], b[1..]);
      assert a == [a[0]] + a[1..] && b == [b[0]] + b[1..];
    }
  }

  /** The order a comparator establishes: ascending, or descending when
      the comparator is `(a, b) => b.localeCompare(a)`. */
  predicate InOrder(a: string, b: string, desc: bool) {
    if desc then StrLe(b, a) else StrLe(a, b)
  }

  predicate SortedBy<T>(s: seq<T>, key: T -> string, desc: bool) {
    forall i, j :: 0 <= i < j < |s| ==> InOrder(key(s[i]), key(s[j]), desc)
  }

  /** Stable insertion of `x` in front of every element it does not follow. */
  function Insert<T>(x: T, s: seq<T>, key: T -> string, desc: bool): (r: seq<T>)
    requires SortedBy(s, key, desc)
    ensures SortedBy(r, key, desc)
    ensures multiset(r) == multiset(s) + multiset{x}
    decreases |s|
  {
    if s == [] || InOrder(key(x), key(s[0]), desc) then
      InOrderAfter(x, s, key, desc);
      [x] + s
    else
      var rest := Insert(x, s[1..], key, desc);
      HeadBeforeInserted(x, s, rest, key, desc);
      ConsSorted(s[0], rest, key, desc);
      assert s == [s[0]] + s[1..];
      [s[0]] + rest
  }

  lemma ConsSorted<T>(y: T, rest: seq<T>, key: T -> string, desc: bool)
    requires SortedBy(rest, key, desc)
    requires forall k :: 0 <= k < |rest| ==> InOrder(key(y), key(rest[k]), desc)
    ensures SortedBy([y] + rest, key, desc)
  {
    forall i, j | 0 <= i < j < |rest| + 1
      ensures InOrder(key(([y] + rest)[i]), key(([y] + rest)[j]), desc)
    {
      if i > 0 {
        assert ([y] + rest)[i] == rest[i - 1];
      }
    }
  }

  lemma HeadBeforeInserted<T>(x: T, s: seq<T>, rest: seq<T>, key: T -> string, desc: bool)
    requires SortedBy(s, key, desc)
    requires s != [] && !InOrder(key(x), key(s[0]), desc)
    requires multiset(rest) == multiset(s[1..]) + multiset{x}
    ensures forall k :: 0 <= k < |rest| ==> InOrder(key(s[0]), key(rest[k]), desc)
  {
    InOrderTotal(key(x), key(s[0]), desc);
    forall k | 0 <= k < |rest| ensures InOrder(key(s[0]), key(rest[k]), desc) {
      assert rest[k] in multiset(rest);
      if rest[k] != x {
        assert rest[k] in multiset(s[1..]);
        var m :| 0 <= m < |s[1..]| && s[1..][m] == rest[k];
        assert s[m + 1] == rest[k];
      }
    }
  }

  lemma InOrderTotal(a: string, b: string, desc: bool)
    ensures InOrder(a, b, desc) || InOrder(b, a, desc)
  {
    StrLeTotal(a, b);
  }

  lemma InOrderTransitive(a: string, b: string, c: string, desc: bool)
    requires InOrder(a, b, desc) && InOrder(b, c, desc)
    ensures InOrder(a, c, desc)
  {
    if desc { StrLeTransitive(c, b, a); } else { StrLeTransitive(a, b, c); }
  }

  lemma InOrderAfter<T>(x: T, s: seq<T>, key: T -> string, desc: bool)
    requires SortedBy(s, key, desc)
    requires s == [] || InOrder(key(x), key(s[0]), desc)
    ensures SortedBy([x] + s, key, desc)
  {
    forall k | 0 <= k < |s| ensures InOrder(key(x), key(s[k]), desc) {
      if k > 0 {
        InOrderTransitive(key(x), key(s[0]), key(s[k]), desc);
      }
    }
    ConsSorted(x, s, key, desc);
  }

  /** `[...s].sort(cmp)` with a comparator that orders by `key`: a stable
      sort, ascending or (when `desc`) descending. */
  function SortBy<T>(s: seq<T>, key: T -> string, desc: bool): (r: seq<T>)
    ensures SortedBy(r, key, desc)
    ensures multiset(r) == multiset(s)
    ensures |r| == |s|
    decreases |s|
  {
    if s == [] then []
    else
      assert s == [s[0]] + s[1..];
      var r := Insert(s[0], SortBy(s[1..], key, desc), key, desc);
      assert |r| == |multiset(r)|;
      r
  }
}
