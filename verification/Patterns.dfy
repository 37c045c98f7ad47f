/** The four patterns of redaction.py: a backtracking matcher for them, the shapes
    they describe, and the proof that the matcher finds leftmost, longest matches. */
module Patterns {
  import opened Basics

  datatype Class = Digit | Upper | UpperOrDigit | Hyphen | Space | Separator

  predicate InClass(c: char, k: Class) {
    match k
    case Digit => IsDigit(c)
    case Upper => IsUpper(c)
    case UpperOrDigit => IsUpper(c) || IsDigit(c)
    case Hyphen => c == '-'
    case Space => IsSpace(c)
    case Separator => c == ' ' || c == '-'
  }

  /** One character of a class, or a greedy optional group. */
  datatype Item = One(k: Class) | Optional(body: seq<Item>)

  function Ones(ks: seq<Class>): seq<Item> {
    if ks == [] then [] else [One(ks[0])] + Ones(ks[1..])
  }

  function Copies(n: nat, body: seq<Item>): seq<Item> {
    if n == 0 then [] else body + Copies(n - 1, body)
  }

  /** Up to n further copies, as many as possible first. */
  function Extra(n: nat, body: seq<Item>): seq<Item> {
    if n == 0 then [] else [Optional(body + Extra(n - 1, body))]
  }

  const DIGIT_GROUP: seq<Item> := [One(Digit), Optional([One(Separator)])]

  datatype Pattern = SsnHyphen | SsnSpace | Account | Iban

  const PATTERNS: seq<Pattern> := [SsnHyphen, SsnSpace, Account, Iban]

  function SsnClasses(sep: Class): seq<Class> {
    [Digit, Digit, Digit, sep, Digit, Digit, sep, Digit, Digit, Digit, Digit]
  }

  /** The fixed characters a pattern opens with. */
  function Lead(p: Pattern): seq<Class> {
    match p
    case SsnHyphen => SsnClasses(Hyphen)
    case SsnSpace => SsnClasses(Space)
    case Account => []
    case Iban => [Upper, Upper, Digit, Digit]
  }

  /** The group a pattern repeats after them. */
  function Body(p: Pattern): seq<Item> {
    match p
    case SsnHyphen => []
    case SsnSpace => []
    case Account => DIGIT_GROUP
    case Iban => [One(UpperOrDigit)]
  }

  /** How often at least, and how often more at most. */
  function Repeats(p: Pattern): (nat, nat) {
    match p
    case SsnHyphen => (0, 0)
    case SsnSpace => (0, 0)
    case Account => (13, 6)
    case Iban => (11, 19)
  }

  /** The pattern between its two word boundaries. */
  function Items(p: Pattern): seq<Item> {
    Ones(Lead(p)) + (Copies(Repeats(p).0, Body(p)) + Extra(Repeats(p).1, Body(p)))
  }

  function Replacement(p: Pattern): string {
    match p
    case SsnHyphen => "[SSN_REDACTED]"
    case SsnSpace => "[SSN_REDACTED]"
    case Account => "[ACCOUNT_NUMBER_REDACTED]"
    case Iban => "[IBAN_REDACTED]"
  }

  /** `\b` between s[i - 1] and s[i] */
  predicate Boundary(s: string, i: nat)
    requires i <= |s|
  {
    (i > 0 && IsWord(s[i - 1])) != (i < |s| && IsWord(s[i]))
  }

  function ItemSize(item: Item): (n: nat)
    ensures n > 0
  {
    match item
    case One(_) => 1
    case Optional(body) => 1 + Size(body)
  }

  function Size(items: seq<Item>): nat {
    if items == [] then 0 else ItemSize(items[0]) + Size(items[1..])
  }

  lemma {:induction false} SizeAppend(a: seq<Item>, b: seq<Item>)
    ensures Size(a + b) == Size(a) + Size(b)
  {
    if a == [] {
      assert a + b == b;
    } else {
      assert (a + b)[1..] == a[1..] + b;
      SizeAppend(a[1..], b);
    }
  }

  lemma {:induction false} SizeOptional(items: seq<Item>)
    requires items != [] && items[0].Optional?
    ensures Size(items[0].body + items[1..]) < Size(items)
    ensures Size(items[1..]) < Size(items)
  {
    SizeAppend(items[0].body, items[1..]);
    assert ItemSize(items[0]) == 1 + Size(items[0].body);
  }

  /** Backtracking match of `items` and a closing `\b` from position i: the end of the
      first success, trying an optional group before skipping it. */
  function Try(items: seq<Item>, s: string, i: nat): Option<nat>
    requires i <= |s|
    decreases Size(items)
  {
    if items == [] then
      if Boundary(s, i) then Some(i) else None
    else match items[0]
      case One(k) => if i < |s| && InClass(s[i], k) then Try(items[1..], s, i + 1) else None
      case Optional(body) =>
        SizeOptional(items);
        var taken := Try(body + items[1..], s, i);
        if taken.Some? then taken else Try(items[1..], s, i)
  }

  function MatchFrom(p: Pattern, s: string, i: nat): Option<nat>
    requires i <= |s|
  {
    if Boundary(s, i) then Try(Items(p), s, i) else None
  }

  // ----- The language of a pattern, without any search order -----

  ghost predicate Lang(items: seq<Item>, w: string)
    decreases Size(items)
  {
    if items == [] then w == ""
    else match items[0]
      case One(k) => w != "" && InClass(w[0], k) && Lang(items[1..], w[1..])
      case Optional(body) =>
        SizeOptional(items);
        Lang(body + items[1..], w) || Lang(items[1..], w)
  }

  /** s[i..j] is a match: the right word between two word boundaries. */
  ghost predicate MatchAt(p: Pattern, s: string, i: nat, j: nat) {
    i <= j <= |s| && Boundary(s, i) && Boundary(s, j) && Shape(p, s[i..j])
  }

  ghost predicate Free(p: Pattern, s: string) {
    forall i: nat, j: nat :: !MatchAt(p, s, i, j)
  }

  lemma {:induction false} Unfold(k: Class, body: seq<Item>, rest: seq<Item>, w: string)
    ensures Lang([One(k)] + rest, w) <==> w != "" && InClass(w[0], k) && Lang(rest, w[1..])
    ensures Lang([Optional(body)] + rest, w) <==> Lang(body + rest, w) || Lang(rest, w)
  {
    assert ([One(k)] + rest)[1..] == rest && ([Optional(body)] + rest)[1..] == rest;
  }

  lemma {:induction false} UnfoldTry(k: Class, body: seq<Item>, rest: seq<Item>, s: string, i: nat)
    requires i <= |s|
    ensures Try([One(k)] + rest, s, i)
         == if i < |s| && InClass(s[i], k) then Try(rest, s, i + 1) else None
    ensures Try([Optional(body)] + rest, s, i)
         == if Try(body + rest, s, i).Some? then Try(body + rest, s, i) else Try(rest, s, i)
  {
    assert ([One(k)] + rest)[1..] == rest && ([Optional(body)] + rest)[1..] == rest;
  }

  lemma {:induction false} TrySound(items: seq<Item>, s: string, i: nat)
    requires i <= |s| && Try(items, s, i).Some?
    ensures var j := Try(items, s, i).value; i <= j <= |s| && Boundary(s, j) && Lang(items, s[i..j])
    decreases Size(items)
  {
    if items != [] {
      match items[0]
      case One(k) =>
        TrySound(items[1..], s, i + 1);
        var j := Try(items, s, i).value;
        assert s[i..j][1..] == s[i + 1..j];
      case Optional(body) =>
        SizeOptional(items);
        if Try(body + items[1..], s, i).Some? {
          TrySound(body + items[1..], s, i);
        } else {
          TrySound(items[1..], s, i);
        }
    }
  }

  lemma {:induction false} TryComplete(items: seq<Item>, s: string, i: nat, j: nat)
    requires i <= j <= |s| && Boundary(s, j) && Lang(items, s[i..j])
    ensures Try(items, s, i).Some?
    decreases Size(items)
  {
    if items != [] {
      match items[0]
      case One(k) =>
        assert s[i..j][1..] == s[i + 1..j];
        TryComplete(items[1..], s, i + 1, j);
      case Optional(body) =>
        SizeOptional(items);
        if Lang(body + items[1..], s[i..j]) {
          TryComplete(body + items[1..], s, i, j);
        } else {
          TryComplete(items[1..], s, i, j);
        }
    }
  }

  // ----- The shapes, read off the patterns -----

  predicate AllIn(w: string, k: Class) { forall c | c in w :: InClass(c, k) }

  predicate Matches(w: string, ks: seq<Class>) {
    |w| == |ks| && forall t | 0 <= t < |ks| :: InClass(w[t], ks[t])
  }

  function DigitCount(w: string): nat {
    if w == "" then 0 else (if IsDigit(w[0]) then 1 else 0) + DigitCount(w[1..])
  }

  /** No two separators in a row at t. */
  predicate DigitNear(w: string, t: nat) {
    t + 1 < |w| ==> IsDigit(w[t]) || IsDigit(w[t + 1])
  }

  /** Digits with at most one separator after each. */
  ghost predicate Grouped(w: string) {
    && (w != "" ==> IsDigit(w[0]))
    && (forall c | c in w :: IsDigit(c) || InClass(c, Separator))
    && (forall t: nat :: DigitNear(w, t))
  }

  ghost predicate Shape(p: Pattern, w: string) {
    match p
    case SsnHyphen => Matches(w, SsnClasses(Hyphen))
    case SsnSpace => Matches(w, SsnClasses(Space))
    case Account => Grouped(w) && 13 <= DigitCount(w) <= 19
    case Iban => 15 <= |w| <= 34 && Matches(w[..4], [Upper, Upper, Digit, Digit]) && AllIn(w[4..], UpperOrDigit)
  }

  lemma {:induction false} LangOnes(ks: seq<Class>, rest: seq<Item>, w: string)
    ensures Lang(Ones(ks) + rest, w) <==> |w| >= |ks| && Matches(w[..|ks|], ks) && Lang(rest, w[|ks|..])
  {
    if ks == [] {
      assert Ones(ks) + rest == rest && w[0..] == w;
    } else {
      assert (Ones(ks) + rest)[1..] == Ones(ks[1..]) + rest;
      if w != "" {
        LangOnes(ks[1..], rest, w[1..]);
        if |w| >= |ks| {
          assert w[1..][|ks| - 1..] == w[|ks|..];
          assert Matches(w[..|ks|], ks) <==> InClass(w[0], ks[0]) && Matches(w[1..][..|ks| - 1], ks[1..]) by {
            assert forall t | 0 < t < |ks| :: w[..|ks|][t] == w[1..][..|ks| - 1][t - 1] && ks[t] == ks[1..][t - 1];
            assert forall t | 0 <= t < |ks| - 1 :: w[..|ks|][t + 1] == w[1..][..|ks| - 1][t] && ks[t + 1] == ks[1..][t];
          }
        }
      }
    }
  }

  lemma {:induction false} LangLast(body: seq<Item>, w: string)
    ensures Lang([Optional(body)], w) <==> w == "" || Lang(body, w)
  {
    assert [Optional(body)] + [] == [Optional(body)] && body + [] == body;
    Unfold(Digit, body, [], w);
  }

  lemma {:induction false} AllInStep(w: string, k: Class)
    requires w != ""
    ensures AllIn(w, k) <==> InClass(w[0], k) && AllIn(w[1..], k)
  {
    assert w == [w[0]] + w[1..];
  }

  lemma {:induction false} LangRun(k: Class, lo: nat, more: nat, w: string)
    ensures Lang(Copies(lo, [One(k)]) + Extra(more, [One(k)]), w) <==> lo <= |w| <= lo + more && AllIn(w, k)
    decreases lo + more
  {
    var body := [One(k)];
    if lo > 0 {
      var rest := Copies(lo - 1, body) + Extra(more, body);
      assert Copies(lo, body) + Extra(more, body) == [One(k)] + rest;
      Unfold(k, [], rest, w);
      if w != "" {
        LangRun(k, lo - 1, more, w[1..]);
        AllInStep(w, k);
      }
    } else if more > 0 {
      var rest := Extra(more - 1, body);
      assert Copies(0, body) + Extra(more, body) == [Optional(body + rest)];
      assert Copies(0, body) + rest == rest;
      LangLast(body + rest, w);
      Unfold(k, [], rest, w);
      if w != "" {
        LangRun(k, 0, more - 1, w[1..]);
        AllInStep(w, k);
      }
    }
  }

  lemma {:induction false} LangGroup(rest: seq<Item>, w: string)
    ensures Lang(DIGIT_GROUP + rest, w)
       <==> w != "" && IsDigit(w[0])
            && (Lang(rest, w[1..]) || (|w| > 1 && InClass(w[1], Separator) && Lang(rest, w[2..])))
  {
    var tail := [Optional([One(Separator)])] + rest;
    assert DIGIT_GROUP + rest == [One(Digit)] + tail;
    Unfold(Digit, [], tail, w);
    if w != "" {
      Unfold(Separator, [One(Separator)], rest, w[1..]);
      if |w| > 1 { assert w[1..][1..] == w[2..]; }
    }
  }

  lemma {:induction false} GroupedStep(w: string)
    requires w != ""
    ensures Grouped(w)
       <==> IsDigit(w[0]) && (Grouped(w[1..]) || (|w| > 1 && InClass(w[1], Separator) && Grouped(w[2..])))
    ensures IsDigit(w[0]) ==> DigitCount(w) == 1 + DigitCount(w[1..])
    ensures |w| > 1 && IsDigit(w[0]) && InClass(w[1], Separator) ==> DigitCount(w) == 1 + DigitCount(w[2..])
  {
    assert w == [w[0]] + w[1..];
    if |w| > 1 { assert w[1..] == [w[1]] + w[2..]; }
    if Grouped(w) && |w| > 1 {
      assert w[1] in w;
      if IsDigit(w[1]) {
        forall t: nat ensures DigitNear(w[1..], t) { assert DigitNear(w, t + 1); }
      } else {
        assert |w| > 2 ==> DigitNear(w, 1);
        forall t: nat ensures DigitNear(w[2..], t) { assert DigitNear(w, t + 2); }
      }
    }
    if IsDigit(w[0]) && Grouped(w[1..]) {
      forall t: nat ensures DigitNear(w, t) { if t > 0 { assert DigitNear(w[1..], t - 1); } }
    }
    if |w| > 1 && IsDigit(w[0]) && InClass(w[1], Separator) && Grouped(w[2..]) {
      forall t: nat ensures DigitNear(w, t) { if t > 1 { assert DigitNear(w[2..], t - 2); } }
    }
  }

  lemma {:induction false} LangGroups(lo: nat, more: nat, w: string)
    ensures Lang(Copies(lo, DIGIT_GROUP) + Extra(more, DIGIT_GROUP), w)
       <==> Grouped(w) && lo <= DigitCount(w) <= lo + more
    decreases lo + more
  {
    var g := DIGIT_GROUP;
    if lo > 0 {
      var rest := Copies(lo - 1, g) + Extra(more, g);
      assert Copies(lo, g) + Extra(more, g) == g + rest;
      LangGroup(rest, w);
      if w != "" {
        GroupedStep(w);
        LangGroups(lo - 1, more, w[1..]);
        if |w| > 1 { LangGroups(lo - 1, more, w[2..]); }
      }
    } else if more > 0 {
      var rest := Extra(more - 1, g);
      assert Copies(0, g) + rest == rest;
      var inner := g + rest;
      assert Copies(0, g) + Extra(more, g) == [Optional(inner)];
      assert inner + [Optional(inner)][1..] == inner;
      LangGroup(rest, w);
      if w != "" {
        GroupedStep(w);
        LangGroups(0, more - 1, w[1..]);
        if |w| > 1 { LangGroups(0, more - 1, w[2..]); }
        NoDigitNoGroup(w);
      }
    } else {
      assert Copies(0, g) + Extra(0, g) == [];
      NoDigitNoGroup(w);
    }
  }

  lemma {:induction false} NoDigitNoGroup(w: string)
    ensures w != "" && Grouped(w) ==> DigitCount(w) > 0
  {
  }

  lemma {:induction false} LangIsShape(p: Pattern, w: string)
    ensures Lang(Items(p), w) <==> Shape(p, w)
  {
    hide Lang, Ones, Copies, Extra, Grouped, DigitCount, InClass;
    var lead, body, lo, more := Lead(p), Body(p), Repeats(p).0, Repeats(p).1;
    LangOnes(lead, Copies(lo, body) + Extra(more, body), w);
    if |w| >= |lead| {
      match p
      case SsnHyphen => LangNothing(w[|lead|..]);
      case SsnSpace => LangNothing(w[|lead|..]);
      case Account => LangGroups(lo, more, w[0..]);
      case Iban => LangRun(UpperOrDigit, lo, more, w[4..]);
      assert w[0..] == w;
      if |w| == |lead| { assert w[..|lead|] == w; }
    }
  }

  lemma {:induction false} LangNothing(w: string)
    ensures Lang(Copies(0, []) + Extra(0, []), w) <==> w == ""
  {
    assert Copies(0, []) + Extra(0, []) == [];
  }

  // ----- The matcher's choice is the longest match -----

  ghost predicate Longest(items: seq<Item>, s: string, i: nat)
    requires i <= |s|
  {
    forall j | i <= j <= |s| && Boundary(s, j) && Lang(items, s[i..j]) ::
      Try(items, s, i).Some? && j <= Try(items, s, i).value
  }

  lemma {:induction false} LongestOnes(ks: seq<Class>, rest: seq<Item>, s: string, i: nat)
    requires i <= |s| && (i + |ks| <= |s| ==> Longest(rest, s, i + |ks|))
    ensures Longest(Ones(ks) + rest, s, i)
  {
    if ks == [] {
      assert Ones(ks) + rest == rest;
    } else {
      var items, tail := Ones(ks) + rest, Ones(ks[1..]) + rest;
      assert items == [One(ks[0])] + tail;
      hide Try, Lang;
      forall j | i <= j <= |s| && Boundary(s, j) && Lang(items, s[i..j])
        ensures Try(items, s, i).Some? && j <= Try(items, s, i).value
      {
        Unfold(ks[0], [], tail, s[i..j]);
        UnfoldTry(ks[0], [], tail, s, i);
        LongestOnes(ks[1..], rest, s, i + 1);
        assert s[i..j][1..] == s[i + 1..j];
      }
    }
  }

  lemma {:induction false} LongestExtraRun(k: Class, more: nat, s: string, i: nat)
    requires i <= |s|
    ensures Longest(Extra(more, [One(k)]), s, i)
  {
    var body := [One(k)];
    var items := Extra(more, body);
    if more > 0 {
      var inner := body + Extra(more - 1, body);
      assert inner + items[1..] == inner;
      assert Ones([k]) == body;
      if i < |s| { LongestExtraRun(k, more - 1, s, i + 1); }
      LongestOnes([k], Extra(more - 1, body), s, i);
      LongestOptional(inner, s, i);
    }
  }

  /** An optional group at the end: the group is tried first, then nothing. */
  lemma {:induction false} TryLast(body: seq<Item>, s: string, i: nat)
    requires i <= |s|
    ensures Try([Optional(body)], s, i)
         == if Try(body, s, i).Some? then Try(body, s, i) else if Boundary(s, i) then Some(i) else None
  {
    assert [Optional(body)] + [] == [Optional(body)] && body + [] == body;
    UnfoldTry(Digit, body, [], s, i);
  }

  /** The empty match is never longer. */
  lemma {:induction false} LongestOptional(body: seq<Item>, s: string, i: nat)
    requires i <= |s| && Longest(body, s, i)
    ensures Longest([Optional(body)], s, i)
  {
    hide Try, Lang;
    TryLast(body, s, i);
    forall j | i <= j <= |s| && Boundary(s, j) && Lang([Optional(body)], s[i..j])
      ensures Try([Optional(body)], s, i).Some? && j <= Try([Optional(body)], s, i).value
    {
      LangLast(body, s[i..j]);
      if Try(body, s, i).Some? { TrySound(body, s, i); }
    }
  }

  /** What follows a digit group either is empty or opens with a digit. */
  ghost predicate DigitFirst(rest: seq<Item>) {
    forall w | Lang(rest, w) :: w == "" || IsDigit(w[0])
  }

  lemma {:induction false} NothingAtSeparator(rest: seq<Item>, s: string, i: nat, j: nat)
    requires i <= j <= |s| && i < |s| && InClass(s[i], Separator)
    requires DigitFirst(rest) && Lang(rest, s[i..j])
    ensures i == j
  {
  }

  lemma {:induction false} TryGroup(rest: seq<Item>, s: string, i: nat)
    requires i <= |s|
    ensures Try(DIGIT_GROUP + rest, s, i)
         == if i < |s| && IsDigit(s[i]) then
              if i + 1 < |s| && InClass(s[i + 1], Separator) && Try(rest, s, i + 2).Some? then Try(rest, s, i + 2)
              else Try(rest, s, i + 1)
            else None
  {
    var tail := [Optional([One(Separator)])] + rest;
    assert DIGIT_GROUP + rest == [One(Digit)] + tail;
    UnfoldTry(Digit, [], tail, s, i);
    if i < |s| { UnfoldTry(Separator, [One(Separator)], rest, s, i + 1); }
  }

  lemma {:induction false} LongestGroup(rest: seq<Item>, s: string, i: nat)
    requires i <= |s| && DigitFirst(rest)
    requires forall k | i <= k <= |s| :: Longest(rest, s, k)
    ensures Longest(DIGIT_GROUP + rest, s, i)
  {
    var items := DIGIT_GROUP + rest;
    TryGroup(rest, s, i);
    forall j | i <= j <= |s| && Boundary(s, j) && Lang(items, s[i..j])
      ensures Try(items, s, i).Some? && j <= Try(items, s, i).value
    {
      LangGroup(rest, s[i..j]);
      TryComplete(items, s, i, j);
      assert s[i..j][1..] == s[i + 1..j];
      if i + 1 < |s| && InClass(s[i + 1], Separator) && Try(rest, s, i + 2).Some? {
        TrySound(rest, s, i + 2);
        assert Longest(rest, s, i + 2);
        if Lang(rest, s[i + 1..j]) {
          NothingAtSeparator(rest, s, i + 1, j);
        } else {
          assert s[i..j][2..] == s[i + 2..j];
        }
      } else {
        assert Longest(rest, s, i + 1);
        if !Lang(rest, s[i + 1..j]) {
          assert s[i..j][2..] == s[i + 2..j];
          TryComplete(rest, s, i + 2, j);
        }
      }
    }
  }

  lemma {:induction false} LongestGroups(lo: nat, more: nat, s: string, i: nat)
    requires i <= |s|
    ensures Longest(Copies(lo, DIGIT_GROUP) + Extra(more, DIGIT_GROUP), s, i)
    decreases lo + more
  {
    var g := DIGIT_GROUP;
    var items := Copies(lo, g) + Extra(more, g);
    if lo > 0 || more > 0 {
      var lo', more' := if lo > 0 then lo - 1 else 0, if lo > 0 then more else more - 1;
      var rest := Copies(lo', g) + Extra(more', g);
      forall w | Lang(rest, w) ensures w == "" || IsDigit(w[0]) { LangGroups(lo', more', w); }
      forall k | i <= k <= |s| ensures Longest(rest, s, k) { LongestGroups(lo', more', s, k); }
      LongestGroup(rest, s, i);
      if lo > 0 {
        assert items == g + rest;
      } else {
        assert rest == Extra(more - 1, g);
        assert items == [Optional(g + rest)];
        LongestOptional(g + rest, s, i);
      }
    } else {
      assert items == [];
    }
  }

  lemma {:induction false} LongestRun(k: Class, lo: nat, more: nat, s: string, i: nat)
    requires i <= |s|
    ensures Longest(Copies(lo, [One(k)]) + Extra(more, [One(k)]), s, i)
    decreases lo
  {
    var body := [One(k)];
    if lo == 0 {
      assert Copies(0, body) + Extra(more, body) == Extra(more, body);
      LongestExtraRun(k, more, s, i);
    } else {
      var rest := Copies(lo - 1, body) + Extra(more, body);
      assert Copies(lo, body) + Extra(more, body) == Ones([k]) + rest;
      if i < |s| { LongestRun(k, lo - 1, more, s, i + 1); }
      LongestOnes([k], rest, s, i);
    }
  }

  lemma {:induction false} LongestItems(p: Pattern, s: string, i: nat)
    requires i <= |s|
    ensures Longest(Items(p), s, i)
  {
    hide Longest, Ones, Copies, Extra;
    var lead, body, lo, more := Lead(p), Body(p), Repeats(p).0, Repeats(p).1;
    var k := i + |lead|;
    if k <= |s| {
      match p
      case SsnHyphen => LongestNothing(s, k);
      case SsnSpace => LongestNothing(s, k);
      case Account => LongestGroups(lo, more, s, k);
      case Iban => LongestRun(UpperOrDigit, lo, more, s, k);
    }
    LongestOnes(lead, Copies(lo, body) + Extra(more, body), s, i);
  }

  lemma {:induction false} LongestNothing(s: string, i: nat)
    requires i <= |s|
    ensures Longest(Copies(0, []) + Extra(0, []), s, i)
  {
    assert Copies(0, []) + Extra(0, []) == [];
  }

  /** The matcher succeeds exactly where a match starts, and returns the longest one. */
  lemma {:induction false} MatchFromIsLongest(p: Pattern, s: string, i: nat)
    requires i <= |s|
    ensures MatchFrom(p, s, i).Some? <==> exists j: nat :: MatchAt(p, s, i, j)
    ensures MatchFrom(p, s, i).Some? ==>
              var j := MatchFrom(p, s, i).value;
              i < j && MatchAt(p, s, i, j) && forall k: nat :: MatchAt(p, s, i, k) ==> k <= j
  {
    if MatchFrom(p, s, i).Some? {
      TrySound(Items(p), s, i);
      var j := MatchFrom(p, s, i).value;
      LangIsShape(p, s[i..j]);
      ShapeContent(p, s[i..j]);
      assert MatchAt(p, s, i, j);
    }
    forall k: nat | MatchAt(p, s, i, k)
      ensures MatchFrom(p, s, i).Some? && k <= MatchFrom(p, s, i).value
    {
      LangIsShape(p, s[i..k]);
      LongestItems(p, s, i);
    }
  }

  /** Every match holds a digit and no bracket. */
  lemma {:induction false} ShapeContent(p: Pattern, w: string)
    requires Shape(p, w)
    ensures exists t | 0 <= t < |w| :: IsDigit(w[t])
    ensures forall c | c in w :: c != '[' && c != ']'
  {
    match p
    case SsnHyphen => assert IsDigit(w[0]);
    case SsnSpace => assert IsDigit(w[0]);
    case Account => assert IsDigit(w[0]);
    case Iban =>
      var head := w[..4];
      assert InClass(head[2], Digit) && IsDigit(w[2]);
      assert w == head + w[4..];
      forall c | c in w ensures c != '[' && c != ']' {
        if c in head {
          var t :| 0 <= t < 4 && head[t] == c;
          assert InClass(head[t], [Upper, Upper, Digit, Digit][t]);
        }
      }
  }
}
