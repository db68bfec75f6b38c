/** Values, strings and sequences shared by every part of the restaurant finder model. */
module Basics {

  datatype Option<+T> = None | Some(value: T)

  datatype Result<+T, +E> = Ok(value: T) | Err(error: E)

  /** The two near-identical fetch scripts: food-finder.js (Node) and food-finder.py (Python). */
  datatype Dialect = Js | Py

  /** A string argument that JavaScript or Python treats as true in a condition. */
  predicate Truthy(s: Option<string>) {
    s.Some? && s.value != ""
  }

  predicate StartsWith(s: string, prefix: string) {
    |prefix| <= |s| && s[..|prefix|] == prefix
  }

  predicate IsDigit(c: char) {
    '0' <= c <= '9'
  }

  predicate AllDigits(s: string) {
    forall i :: 0 <= i < |s| ==> IsDigit(s[i])
  }

  /** The white space removed by String.prototype.trim and str.strip (ASCII part only). */
  predicate IsSpace(c: char) {
    c == ' ' || c == '\t' || c == '\n' || c == '\r' || c == '\U{B}' || c == '\U{C}'
  }

  function TrimStart(s: string): (r: string)
    ensures |r| <= |s| && r == s[|s| - |r|..]
    ensures r != [] ==> !IsSpace(r[0])
    ensures (s == [] || !IsSpace(s[0])) ==> r == s
    ensures (forall i :: 0 <= i < |s| ==> IsSpace(s[i])) <==> r == []
  {
    if s != [] && IsSpace(s[0]) then TrimStart(s[1..]) else s
  }

  function TrimEnd(s: string): (r: string)
    ensures |r| <= |s| && r == s[..|r|]
    ensures r != [] ==> !IsSpace(r[|r| - 1])
    ensures (s == [] || !IsSpace(s[|s| - 1])) ==> r == s
    ensures (forall i :: 0 <= i < |s| ==> IsSpace(s[i])) <==> r == []
  {
    if s != [] && IsSpace(s[|s| - 1]) then TrimEnd(s[..|s| - 1]) else s
  }

  /** String.prototype.trim / str.strip. */
  function Trim(s: string): (r: string)
    ensures (forall i :: 0 <= i < |s| ==> IsSpace(s[i])) <==> r == []
    ensures (s == [] || (!IsSpace(s[0]) && !IsSpace(s[|s| - 1]))) ==> r == s
  {
    TrimEnd(TrimStart(s))
  }

  /** Every character is a currency symbol. */
  predicate AllDollars(s: string) {
    forall i :: 0 <= i < |s| ==> s[i] == '$'
  }

  /** '$'.repeat(n) in JavaScript, "$" * n in Python. */
  function Dollars(n: nat): (r: string)
    ensures |r| == n && AllDollars(r)
  {
    seq(n, _ => '$')
  }

  /** The characters of s before the first c (all of s when c does not occur). */
  function UpTo(s: string, c: char): (r: string)
    ensures c !in r && StartsWith(s, r)
    ensures |r| < |s| ==> s[|r|] == c
  {
    if s == [] || s[0] == c then [] else [s[0]] + UpTo(s[1..], c)
  }

  lemma {:induction false} UpToSplit(x: string, y: string, c: char)
    requires c !in x && y != [] && y[0] == c
    ensures UpTo(x + y, c) == x
    decreases |x|
  {
    if x != [] {
      assert (x + y)[1..] == x[1..] + y;
      UpToSplit(x[1..], y, c);
    } else {
      assert x + y == y;
    }
  }

  lemma {:induction false} UpToAbsent(x: string, c: char)
    requires c !in x
    ensures UpTo(x, c) == x
    decreases |x|
  {
    if x != [] {
      UpToAbsent(x[1..], c);
    }
  }

  /** The characters of s after its first c. */
  function After(s: string, c: char): (r: string)
    requires c in s
    ensures |r| < |s|
    ensures s == UpTo(s, c) + [c] + r
  {
    if s[0] == c then s[1..] else After(s[1..], c)
  }

  lemma AfterSplit(x: string, y: string, c: char)
    requires c !in x
    ensures After(x + [c] + y, c) == y
  {
    var t := x + [c] + y;
    assert t == x + ([c] + y);
    UpToSplit(x, [c] + y, c);
    assert t == UpTo(t, c) + [c] + After(t, c);
    assert t[|x| + 1..] == y;
    assert t[|x| + 1..] == After(t, c);
  }

  /** a is obtained from b by deleting elements. */
  predicate IsSubsequence<T(==)>(a: seq<T>, b: seq<T>)
    decreases |b|
  {
    a == [] || (b != [] && if a[0] == b[0] then IsSubsequence(a[1..], b[1..]) else IsSubsequence(a, b[1..]))
  }

  /** Array.prototype.filter: the elements of s that satisfy p, in order. */
  function Filter<T(==)>(s: seq<T>, p: T -> bool): (r: seq<T>)
    ensures forall x :: x in r ==> x in s && p(x)
    ensures forall x :: x in s && p(x) ==> x in r
    ensures IsSubsequence(r, s)
  {
    if s == [] then []
    else if p(s[0]) then [s[0]] + Filter(s[1..], p)
    else Filter(s[1..], p)
  }

  /** Filtering a sequence with one more element at the end. */
  lemma {:induction false} FilterSnoc<T>(s: seq<T>, x: T, p: T -> bool)
    ensures Filter(s + [x], p) == Filter(s, p) + (if p(x) then [x] else [])
    decreases |s|
  {
    if s == [] {
      assert [] + [x] == [x];
      assert [x][1..] == [];
    } else {
      assert (s + [x])[0] == s[0];
      assert (s + [x])[1..] == s[1..] + [x];
      FilterSnoc(s[1..], x, p);
    }
  }
}
