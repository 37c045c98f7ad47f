/** Shared vocabulary: optional values, typed failures, characters and strings. */
module Basics {

  datatype Option<+T> = None | Some(value: T)

  datatype Result<+T, +E> = Ok(value: T) | Err(error: E)

  // Characters, as Python's `re` classes see ASCII text.

  predicate IsDigit(c: char) { '0' <= c <= '9' }

  predicate IsUpper(c: char) { 'A' <= c <= 'Z' }

  predicate IsLower(c: char) { 'a' <= c <= 'z' }

  /** `\w` */
  predicate IsWord(c: char) { IsDigit(c) || IsUpper(c) || IsLower(c) || c == '_' }

  /** `\s` */
  predicate IsSpace(c: char) {
    c == ' ' || '\t' <= c <= '\r' || '\U{1c}' <= c <= '\U{1f}'
  }

  function LowerChar(c: char): char {
    if IsUpper(c) then c - 'A' + 'a' else c
  }

  // Strings

  predicate StartsWith<T(==)>(s: seq<T>, prefix: seq<T>) { prefix <= s }

  predicate EndsWith<T(==)>(s: seq<T>, suffix: seq<T>) {
    |suffix| <= |s| && s[|s| - |suffix|..] == suffix
  }

  lemma {:induction false} Assoc<T>(a: seq<T>, b: seq<T>, c: seq<T>)
    ensures a + (b + c) == (a + b) + c
  {
  }

  /** Python's `u in v` */
  predicate Substring(u: string, v: string) {
    exists i | 0 <= i <= |v| - |u| :: OccursAt(u, v, i)
  }

  predicate OccursAt(u: string, v: string, i: nat) {
    i + |u| <= |v| && v[i..i + |u|] == u
  }

  lemma {:induction false} SubstringIntro(a: string, u: string, b: string)
    ensures Substring(u, a + u + b)
  {
    assert (a + u + b)[|a|..|a| + |u|] == u;
    assert OccursAt(u, a + u + b, |a|);
  }

  lemma {:induction false} SubstringSplit(u: string, v: string) returns (a: string, b: string)
    requires Substring(u, v)
    ensures v == a + u + b
  {
    var i :| 0 <= i <= |v| - |u| && OccursAt(u, v, i);
    a, b := v[..i], v[i + |u|..];
  }

  lemma {:induction false} SubstringWiden(u: string, a: string, v: string, b: string)
    requires Substring(u, v)
    ensures Substring(u, a + v + b)
  {
    var p, q := SubstringSplit(u, v);
    assert a + v + b == (a + p) + u + (q + b);
    SubstringIntro(a + p, u, q + b);
  }

  function Lower(s: string): (r: string)
    ensures |r| == |s|
    ensures forall i | 0 <= i < |s| :: r[i] == LowerChar(s[i])
  {
    seq(|s|, i requires 0 <= i < |s| => LowerChar(s[i]))
  }

  function LStrip(s: string): string {
    if s != "" && IsSpace(s[0]) then LStrip(s[1..]) else s
  }

  function RStrip(s: string): string {
    if s != "" && IsSpace(s[|s| - 1]) then RStrip(s[..|s| - 1]) else s
  }

  /** Python's `s.strip()` */
  function Strip(s: string): string { RStrip(LStrip(s)) }

  /** Python's `s[:n]` for a non-negative n */
  function Cut(s: string, n: nat): (r: string)
    ensures r <= s && |r| == if |s| <= n then |s| else n
  {
    if |s| <= n then s else s[..n]
  }

  // Identifiers

  predicate IsUuidText(s: string) {
    |s| == 36 && forall c | c in s :: IsDigit(c) || 'a' <= c <= 'f' || c == '-'
  }

  /** An identifier drawn by `uuid4`, as the text `str(id)`. */
  type Uuid = s: string | IsUuidText(s) witness "00000000-0000-4000-8000-000000000000"

  // Rows in some order

  /** `order` lists exactly the elements of `elements`, each once. */
  predicate Enumerates<T(==)>(order: seq<T>, elements: set<T>) {
    && (forall i, j | 0 <= i < j < |order| :: order[i] != order[j])
    && (set x | x in order) == elements
  }

  function Filter<T>(keep: T -> bool, s: seq<T>): seq<T> {
    if s == [] then [] else (if keep(s[0]) then [s[0]] else []) + Filter(keep, s[1..])
  }

  lemma {:induction false} FilterMembers<T>(keep: T -> bool, s: seq<T>)
    ensures forall x :: x in Filter(keep, s) <==> x in s && keep(x)
  {
    if s != [] {
      FilterMembers(keep, s[1..]);
      assert s == [s[0]] + s[1..];
    }
  }

  lemma {:induction false} FilterAppend<T>(keep: T -> bool, a: seq<T>, b: seq<T>)
    ensures Filter(keep, a + b) == Filter(keep, a) + Filter(keep, b)
  {
    if a == [] {
      assert a + b == b;
    } else {
      FilterAppend(keep, a[1..], b);
      assert (a + b)[1..] == a[1..] + b;
      Assoc(if keep(a[0]) then [a[0]] else [], Filter(keep, a[1..]), Filter(keep, b));
    }
  }

  lemma {:induction false} FilterAll<T>(keep: T -> bool, s: seq<T>)
    requires forall x | x in s :: keep(x)
    ensures Filter(keep, s) == s
  {
    if s != [] { FilterAll(keep, s[1..]); }
  }

  lemma {:induction false} FilterNone<T>(keep: T -> bool, s: seq<T>)
    requires forall x | x in s :: !keep(x)
    ensures Filter(keep, s) == []
  {
    if s != [] { FilterNone(keep, s[1..]); }
  }

  /** Removing rows one filter would drop anyway does not change what it keeps. */
  lemma {:induction false} FilterFilter<T>(keep: T -> bool, other: T -> bool, s: seq<T>)
    requires forall x | x in s && keep(x) :: other(x)
    ensures Filter(keep, Filter(other, s)) == Filter(keep, s)
  {
    if s != [] {
      FilterFilter(keep, other, s[1..]);
      FilterAppend(keep, if other(s[0]) then [s[0]] else [], Filter(other, s[1..]));
    }
  }
}
