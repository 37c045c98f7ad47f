/** The verbatim-quote test of extract_trace.py: fold case, collapse runs of
    non-word characters to one space, look for a substring. */
module Words {
  import opened Basics

  /** What one character adds: itself, or a space when it opens a run of non-word characters. */
  function Mark(c: char, inRun: bool): string {
    if IsWord(c) then [c] else if inRun then "" else " "
  }

  /** `[\s\W]+` replaced by one space; `inRun` says a run is already open. */
  function Collapse(s: string, inRun: bool): string {
    if s == "" then "" else Mark(s[0], inRun) + Collapse(s[1..], !IsWord(s[0]))
  }

  function Norm(s: string): string { Collapse(Lower(s), false) }

  predicate Contains(haystack: string, needle: string) {
    needle != "" && Substring(Norm(needle), Norm(haystack))
  }

  // ----- A verbatim quote is always accepted -----

  function InRunAfter(s: string, inRun: bool): bool {
    if s == "" then inRun else !IsWord(s[|s| - 1])
  }

  lemma {:induction false} CollapseAppend(x: string, y: string, inRun: bool)
    ensures Collapse(x + y, inRun) == Collapse(x, inRun) + Collapse(y, InRunAfter(x, inRun))
  {
    hide Mark, IsWord;
    if x == "" {
      assert x + y == y;
    } else {
      var next := !IsWord(x[0]);
      CollapseAppend(x[1..], y, next);
      assert (x + y)[1..] == x[1..] + y && (x + y)[0] == x[0];
      assert InRunAfter(x[1..], next) == InRunAfter(x, inRun);
      hide InRunAfter;
      Assoc(Mark(x[0], inRun), Collapse(x[1..], next), Collapse(y, InRunAfter(x, inRun)));
    }
  }

  lemma {:induction false} CollapseEndsInSpace(s: string, inRun: bool)
    requires s != "" && !IsWord(s[|s| - 1])
    ensures inRun || (Collapse(s, inRun) != "" && Collapse(s, inRun)[|Collapse(s, inRun)| - 1] == ' ')
  {
    CollapseAppend(s[..|s| - 1], [s[|s| - 1]], inRun);
    assert s == s[..|s| - 1] + [s[|s| - 1]];
    if !inRun && InRunAfter(s[..|s| - 1], inRun) {
      CollapseEndsInSpace(s[..|s| - 1], inRun);
    }
  }

  lemma {:induction false} LowerAppend(x: string, y: string)
    ensures Lower(x + y) == Lower(x) + Lower(y)
  {
  }

  /** Every non-empty exact piece of the haystack is accepted, wherever it starts or ends. */
  lemma {:induction false} VerbatimQuoteAccepted(before: string, quote: string, after: string)
    requires quote != ""
    ensures Contains(before + quote + after, quote)
  {
    LowerAppend(before + quote, after);
    LowerAppend(before, quote);
    CollapsedPiece(Lower(before), Lower(quote), Lower(after));
  }

  lemma {:induction false} CollapsedPiece(a: string, n: string, b: string)
    requires n != ""
    ensures Substring(Collapse(n, false), Collapse(a + n + b, false))
  {
    CollapseAppend(a + n, b, false);
    CollapseAppend(a, n, false);
    var pre, tail := Collapse(a, false), Collapse(b, InRunAfter(a + n, false));
    assert Collapse(a + n + b, false) == pre + Collapse(n, InRunAfter(a, false)) + tail;
    if InRunAfter(a, false) && !IsWord(n[0]) {
      // The quote opens inside a run: its leading space is the haystack's own.
      CollapseEndsInSpace(a, false);
      LeadingSpace(n, pre, tail);
    } else {
      assert Collapse(n, InRunAfter(a, false)) == Collapse(n, false);
      SubstringIntro(pre, Collapse(n, false), tail);
    }
  }

  lemma {:induction false} LeadingSpace(n: string, pre: string, tail: string)
    requires n != "" && !IsWord(n[0]) && pre != "" && pre[|pre| - 1] == ' '
    ensures Substring(Collapse(n, false), pre + Collapse(n, true) + tail)
  {
    var rest := Collapse(n[1..], true);
    assert Collapse(n, true) == "" + rest && Collapse(n, false) == " " + rest;
    var front := pre[..|pre| - 1];
    hide Collapse;
    assert pre == front + " ";
    assert pre + ("" + rest) + tail == front + (" " + rest) + tail;
    SubstringIntro(front, " " + rest, tail);
  }

  // ----- What acceptance means, word by word -----

  predicate StartsInWord(s: string) { s != "" && IsWord(s[0]) }

  predicate EndsInWord(s: string) { s != "" && IsWord(s[|s| - 1]) }

  /** Puts one character before a text with words `ws`, extending its first word when `open`. */
  function PutFront(c: char, open: bool, ws: seq<string>): seq<string>
    requires open ==> ws != []
  {
    if !IsWord(c) then ws
    else if open then [[c] + ws[0]] + ws[1..]
    else [[c]] + ws
  }

  /** The maximal runs of word characters, in order. */
  function WordsOf(s: string): (ws: seq<string>)
    ensures StartsInWord(s) || EndsInWord(s) ==> ws != []
  {
    if s == "" then [] else PutFront(s[0], StartsInWord(s[1..]), WordsOf(s[1..]))
  }

  predicate Fused(x: string, y: string) {
    x != "" && y != "" && IsWord(x[|x| - 1]) && IsWord(y[0])
  }

  function Glue(xs: seq<string>, ys: seq<string>, fused: bool): seq<string>
    requires fused ==> xs != [] && ys != []
  {
    if fused then xs[..|xs| - 1] + [xs[|xs| - 1] + ys[0]] + ys[1..] else xs + ys
  }

  /** Concatenation fuses at most the two words that touch. */
  lemma {:induction false} WordsAppend(x: string, y: string)
    ensures WordsOf(x + y) == Glue(WordsOf(x), WordsOf(y), Fused(x, y))
  {
    if x == "" {
      assert x + y == y;
    } else {
      WordsAppend(x[1..], y);
      assert (x + y)[1..] == x[1..] + y && (x + y)[0] == x[0];
      if |x| == 1 {
        assert x[1..] + y == y;
        assert WordsOf(x) == PutFront(x[0], false, []);
        PutFrontBeforeOther(x[0], WordsOf(y), StartsInWord(y));
      } else {
        assert Fused(x[1..], y) == Fused(x, y);
        PutFrontGlue(x[0], StartsInWord(x[1..]), WordsOf(x[1..]), WordsOf(y), Fused(x, y));
      }
    }
  }

  lemma {:induction false} PutFrontGlue(c: char, open: bool, xs: seq<string>, ys: seq<string>, fused: bool)
    requires (open || fused ==> xs != []) && (fused ==> ys != [])
    ensures PutFront(c, open, Glue(xs, ys, fused)) == Glue(PutFront(c, open, xs), ys, fused)
  {
    if !IsWord(c) {
    } else if !open {
      hide IsWord;
      Assoc([[c]], xs, ys);
      if fused {
        assert ([[c]] + xs)[..|xs|] == [[c]] + xs[..|xs| - 1];
        Assoc([[c]], xs[..|xs| - 1], [xs[|xs| - 1] + ys[0]] + ys[1..]);
        Assoc([[c]], xs[..|xs| - 1], [xs[|xs| - 1] + ys[0]]);
        Assoc(xs[..|xs| - 1], [xs[|xs| - 1] + ys[0]], ys[1..]);
        Assoc([[c]] + xs[..|xs| - 1], [xs[|xs| - 1] + ys[0]], ys[1..]);
      }
    } else if |xs| == 1 {
      if fused { Assoc([c], xs[0], ys[0]); }
    } else {
      PutFrontGlueLong(c, xs, ys, fused);
    }
  }

  lemma {:induction false} PutFrontGlueLong(c: char, xs: seq<string>, ys: seq<string>, fused: bool)
    requires |xs| > 1 && IsWord(c) && (fused ==> ys != [])
    ensures PutFront(c, true, Glue(xs, ys, fused)) == Glue(PutFront(c, true, xs), ys, fused)
  {
    var left, right := PutFront(c, true, Glue(xs, ys, fused)), Glue(PutFront(c, true, xs), ys, fused);
    assert |left| == |right|;
    forall t | 0 <= t < |left| ensures left[t] == right[t] {}
  }

  lemma {:induction false} PutFrontBeforeOther(c: char, ys: seq<string>, open: bool)
    requires open ==> ys != []
    ensures PutFront(c, open, ys) == Glue(PutFront(c, false, []), ys, open && IsWord(c))
  {
  }

  lemma {:induction false} WordsOfCollapse(s: string, inRun: bool)
    ensures WordsOf(Collapse(s, inRun)) == WordsOf(s)
    ensures StartsInWord(Collapse(s, inRun)) <==> StartsInWord(s) || (inRun && StartsInWord(Collapse(s, true)))
    ensures !inRun ==> (StartsInWord(Collapse(s, inRun)) <==> StartsInWord(s))
  {
    if s != "" {
      var t := Collapse(s[1..], !IsWord(s[0]));
      WordsOfCollapse(s[1..], !IsWord(s[0]));
      if IsWord(s[0]) {
        assert [s[0]] + t != "" && ([s[0]] + t)[1..] == t;
      } else if !inRun {
        assert " " + t != "" && (" " + t)[1..] == t;
      } else {
        assert "" + t == t;
      }
    }
  }

  /** The needle's words occur in a row from word i: the first one may be the end of
      a longer word, the last one the beginning of one, the others are whole words. */
  predicate Aligned(hs: seq<string>, ws: seq<string>, i: nat) {
    && |ws| >= 1
    && i + |ws| <= |hs|
    && if |ws| == 1 then Substring(ws[0], hs[i])
       else
         && EndsWith(hs[i], ws[0])
         && StartsWith(hs[i + |ws| - 1], ws[|ws| - 1])
         && forall t | 0 < t < |ws| - 1 :: hs[i + t] == ws[t]
  }

  function NeedleWords(s: string): seq<string> { WordsOf(Lower(s)) }

  /** Soundness: an accepted quote's words are in the haystack, in a row. */
  lemma {:induction false} AcceptedQuoteAligns(haystack: string, needle: string)
    requires Contains(haystack, needle) && NeedleWords(needle) != []
    ensures exists i: nat :: Aligned(NeedleWords(haystack), NeedleWords(needle), i)
  {
    var u, v := Norm(needle), Norm(haystack);
    WordsOfCollapse(Lower(needle), false);
    WordsOfCollapse(Lower(haystack), false);
    var a, b := SubstringSplit(u, v);
    assert WordsOf(u) == NeedleWords(needle) && WordsOf(a + u + b) == NeedleWords(haystack);
    AlignInside(a, u, b);
  }

  lemma {:induction false} AlignInside(a: string, u: string, b: string)
    requires WordsOf(u) != []
    ensures exists i: nat :: Aligned(WordsOf(a + u + b), WordsOf(u), i)
  {
    WordsAppend(a + u, b);
    WordsAppend(a, u);
    assert Fused(a + u, b) == Fused(u, b) by {
      assert u != "";
      assert (a + u)[|a + u| - 1] == u[|u| - 1];
    }
    GluedWordsAlign(WordsOf(a), WordsOf(u), WordsOf(b), Fused(a, u), Fused(u, b));
  }

  lemma {:induction false} GlueLeft(xs: seq<string>, us: seq<string>, left: bool, t: nat)
    requires (left ==> xs != []) && t < |us|
    ensures var i, glued := if left then |xs| - 1 else |xs|, Glue(xs, us, left);
            |glued| == i + |us| && glued[i + t] == (if left && t == 0 then xs[|xs| - 1] else "") + us[t]
  {
    assert "" + us[t] == us[t];
  }

  lemma {:induction false} GlueRight(xs: seq<string>, ys: seq<string>, right: bool, k: nat)
    requires (right ==> ys != []) && k < |xs|
    ensures var glued := Glue(xs, ys, right);
            |glued| >= |xs| && glued[k] == xs[k] + (if right && k == |xs| - 1 then ys[0] else "")
  {
    assert xs[k] + "" == xs[k];
  }

  lemma {:induction false} GluedWordsAlign(xs: seq<string>, us: seq<string>, ys: seq<string>, left: bool, right: bool)
    requires us != [] && (left ==> xs != []) && (right ==> ys != [])
    ensures exists i: nat :: Aligned(Glue(Glue(xs, us, left), ys, right), us, i)
  {
    hide Glue;
    var mid := Glue(xs, us, left);
    GlueLeft(xs, us, left, |us| - 1);
    var hs := Glue(mid, ys, right);
    GlueRight(mid, ys, right, |mid| - 1);
    var before := if left then xs[|xs| - 1] else "";
    var after := if right then ys[0] else "";
    var i := if left then |xs| - 1 else |xs|;
    forall t | 0 <= t < |us|
      ensures |hs| >= i + |us| && hs[i + t] == ((if t == 0 then before else "") + us[t]) + (if t == |us| - 1 then after else "")
    {
      GlueLeft(xs, us, left, t);
      GlueRight(mid, ys, right, i + t);
    }
    FramedAlign(hs, us, i, before, after);
  }

  lemma {:induction false} FramedAlign(hs: seq<string>, us: seq<string>, i: nat, before: string, after: string)
    requires us != [] && i + |us| <= |hs|
    requires forall t | 0 <= t < |us| :: hs[i + t] == ((if t == 0 then before else "") + us[t]) + (if t == |us| - 1 then after else "")
    ensures Aligned(hs, us, i)
  {
    if |us| == 1 {
      assert hs[i + 0] == before + us[0] + after;
      SubstringIntro(before, us[0], after);
    } else {
      assert hs[i + 0] == before + us[0];
      assert hs[i + (|us| - 1)] == us[|us| - 1] + after;
    }
  }

  // ----- Exactness for a quote that starts and ends in a word -----

  function Join(ws: seq<string>): string {
    if ws == [] then "" else if |ws| == 1 then ws[0] else ws[0] + " " + Join(ws[1..])
  }

  lemma {:induction false} JoinAppend(x: seq<string>, y: seq<string>)
    requires x != [] && y != []
    ensures Join(x + y) == Join(x) + " " + Join(y)
  {
    assert (x + y)[1..] == x[1..] + y && (x + y)[0] == x[0];
    if |x| == 1 {
      assert x[1..] + y == y;
    } else {
      JoinAppend(x[1..], y);
      JoinAssoc(x[0], Join(x[1..]), Join(y));
    }
  }

  lemma {:induction false} JoinAssoc(a: string, b: string, c: string)
    ensures a + " " + (b + " " + c) == a + " " + b + " " + c
  {
  }

  function Gap(open: bool): string { if open then "" else " " }

  /** A normalised text is its words joined by single spaces, with a space at an
      end exactly where the text does not start or end in a word. */
  lemma {:induction false} CollapseIsJoin(s: string, inRun: bool)
    requires WordsOf(s) != []
    ensures Collapse(s, inRun) == Gap(StartsInWord(s) || inRun) + Join(WordsOf(s)) + Gap(EndsInWord(s))
  {
    var rest, next := s[1..], !IsWord(s[0]);
    if WordsOf(rest) == [] {
      CollapseWordless(rest, next);
      assert !StartsInWord(rest) && !EndsInWord(rest);
      assert WordsOf(s) == [[s[0]]];
    } else {
      CollapseIsJoin(rest, next);
      assert EndsInWord(s) == EndsInWord(rest);
      var joined, gap, end := Join(WordsOf(rest)), Gap(StartsInWord(rest) || next), Gap(EndsInWord(s));
      assert Collapse(s, inRun) == Mark(s[0], inRun) + (gap + joined + end);
      FrontAssoc(Mark(s[0], inRun), gap, joined, end);
      if IsWord(s[0]) {
        JoinPutFront(s[0], StartsInWord(rest), WordsOf(rest));
      }
    }
  }

  lemma {:induction false} FrontAssoc(front: string, gap: string, joined: string, end: string)
    ensures front + (gap + joined + end) == (front + gap + joined) + end
    ensures front + gap + joined == "" + (front + gap + joined)
    ensures gap == "" ==> front + gap + joined == front + joined
  {
  }

  lemma {:induction false} JoinPutFront(c: char, open: bool, ws: seq<string>)
    requires ws != []
    ensures IsWord(c) ==> Join(PutFront(c, open, ws)) == [c] + Gap(open) + Join(ws)
  {
    if open {
      assert PutFront(c, open, ws)[1..] == ws[1..];
    } else {
      assert ([[c]] + ws)[1..] == ws;
    }
  }

  lemma {:induction false} CollapseWordless(s: string, inRun: bool)
    requires WordsOf(s) == []
    ensures Collapse(s, inRun) == Gap(s == "" || inRun)
  {
    if s != "" { CollapseWordless(s[1..], true); }
  }

  lemma {:induction false} JoinOpenEnds(left: string, first: string, inner: seq<string>, last: string, right: string)
    ensures Join([left + first] + inner + [last + right]) == left + Join([first] + inner + [last]) + right
  {
    JoinAppend([left + first] + inner, [last + right]);
    JoinAppend([first] + inner, [last]);
    if inner != [] {
      JoinAppend([left + first], inner);
      JoinAppend([first], inner);
    } else {
      assert [left + first] + inner == [left + first] && [first] + inner == [first];
    }
  }

  lemma {:induction false} AlignedWindow(mid: seq<string>, ws: seq<string>)
    requires |mid| == |ws| && Aligned(mid, ws, 0)
    ensures Substring(Join(ws), Join(mid))
  {
    var k := |ws|;
    if k == 1 {
      assert mid == [mid[0]];
    } else {
      var left, right := mid[0][..|mid[0]| - |ws[0]|], mid[k - 1][|ws[k - 1]|..];
      var inner := ws[1..k - 1];
      assert mid[0] == left + ws[0] && mid[k - 1] == ws[k - 1] + right;
      forall t | 0 <= t < k - 2 ensures mid[1 + t] == inner[t] { assert mid[0 + (t + 1)] == ws[t + 1]; }
      hide Join, Aligned;
      assert mid == [left + ws[0]] + inner + [ws[k - 1] + right];
      assert ws == [ws[0]] + inner + [ws[k - 1]];
      JoinOpenEnds(left, ws[0], inner, ws[k - 1], right);
      SubstringIntro(left, Join(ws), right);
    }
  }

  lemma {:induction false} JoinWindow(before: seq<string>, mid: seq<string>, after: seq<string>)
    requires mid != []
    ensures Substring(Join(mid), Join(before + mid + after))
  {
    hide Join;
    var pre := if before == [] then "" else Join(before) + " ";
    var post := if after == [] then "" else " " + Join(after);
    if before == [] { assert before + mid == mid; } else { JoinAppend(before, mid); }
    if after == [] { assert before + mid + after == before + mid; } else { JoinAppend(before + mid, after); }
    assert Join(before + mid + after) == pre + Join(mid) + post;
    SubstringIntro(pre, Join(mid), post);
  }

  lemma {:induction false} AlignedJoinIsSubstring(hs: seq<string>, ws: seq<string>, i: nat)
    requires Aligned(hs, ws, i)
    ensures Substring(Join(ws), Join(hs))
  {
    var before, mid, after := hs[..i], hs[i..i + |ws|], hs[i + |ws|..];
    assert hs == before + mid + after;
    assert Aligned(mid, ws, 0) by {
      forall t | 0 < t < |ws| - 1 ensures mid[0 + t] == ws[t] { assert hs[i + t] == ws[t]; }
    }
    AlignedWindow(mid, ws);
    JoinWindow(before, mid, after);
    var a, b := SubstringSplit(Join(mid), Join(hs));
    SubstringWiden(Join(ws), a, Join(mid), b);
  }

  lemma {:induction false} NonEmptyAligned(hs: seq<string>, ws: seq<string>, i: nat)
    requires Aligned(hs, ws, i)
    ensures hs != [] && ws != []
  {
  }

  lemma {:induction false} AlignedTextAccepted(n: string, h: string, i: nat)
    requires StartsInWord(n) && EndsInWord(n) && Aligned(WordsOf(h), WordsOf(n), i)
    ensures Substring(Collapse(n, false), Collapse(h, false))
  {
    NonEmptyAligned(WordsOf(h), WordsOf(n), i);
    AlignedJoinIsSubstring(WordsOf(h), WordsOf(n), i);
    CollapseIsJoin(n, false);
    CollapseIsJoin(h, false);
    assert Gap(StartsInWord(n) || false) == "" && Gap(EndsInWord(n)) == "";
    hide *;
    assert "" + Join(WordsOf(n)) + "" == Join(WordsOf(n));
    SubstringWiden(Join(WordsOf(n)), Gap(StartsInWord(h) || false), Join(WordsOf(h)), Gap(EndsInWord(h)));
  }

  /** For a quote that starts and ends in a word, acceptance is exactly alignment. */
  lemma {:induction false} ContainsExactly(haystack: string, needle: string)
    requires StartsInWord(needle) && EndsInWord(needle)
    ensures Contains(haystack, needle)
       <==> exists i: nat :: Aligned(NeedleWords(haystack), NeedleWords(needle), i)
  {
    assert StartsInWord(Lower(needle)) && EndsInWord(Lower(needle));
    hide IsWord, Collapse, Aligned, Lower;
    if Contains(haystack, needle) {
      AcceptedQuoteAligns(haystack, needle);
    }
    if i: nat :| Aligned(NeedleWords(haystack), NeedleWords(needle), i) {
      AlignedTextAccepted(Lower(needle), Lower(haystack), i);
    }
  }

  // ----- A quote without any word -----

  predicate HasNonWord(s: string) { exists c | c in s :: !IsWord(c) }

  lemma {:induction false} SpaceMeansNonWord(s: string, inRun: bool)
    ensures ' ' in Collapse(s, inRun) ==> HasNonWord(s)
    ensures !inRun && HasNonWord(s) ==> ' ' in Collapse(s, inRun)
  {
    if s != "" {
      SpaceMeansNonWord(s[1..], !IsWord(s[0]));
      assert s == [s[0]] + s[1..];
      assert !IsWord(' ') && s[0] in s;
      if HasNonWord(s[1..]) {
        var c :| c in s[1..] && !IsWord(c);
        assert c in s;
      }
    }
  }

  /** A quote of punctuation and spaces alone is accepted by every text with a non-word character. */
  lemma {:induction false} WordlessQuote(haystack: string, needle: string)
    requires needle != "" && NeedleWords(needle) == []
    ensures Contains(haystack, needle) <==> HasNonWord(Lower(haystack))
  {
    hide HasNonWord, WordsOf, IsWord;
    CollapseWordless(Lower(needle), false);
    SpaceMeansNonWord(Lower(haystack), false);
    assert Norm(needle) == " ";
    OneCharSubstring(' ', Norm(haystack));
  }

  lemma {:induction false} OneCharSubstring(c: char, s: string)
    ensures Substring([c], s) <==> c in s
  {
    if Substring([c], s) {
      var i :| 0 <= i <= |s| - |[c]| && OccursAt([c], s, i);
      assert s[i] == s[i..i + 1][0] == c;
    }
    if c in s {
      var i :| 0 <= i < |s| && s[i] == c;
      assert s[i..i + 1] == [c];
      assert OccursAt([c], s, i);
    }
  }

  // ----- Exactness for every quote -----

  /** The pieces between single spaces. */
  function Pieces(s: string): (ps: seq<string>)
    ensures ps != []
  {
    if s == "" then [""]
    else
      var rest := Pieces(s[1..]);
      if s[0] == ' ' then [""] + rest else [[s[0]] + rest[0]] + rest[1..]
  }

  lemma {:induction false} PiecesAppend(x: string, y: string)
    ensures Pieces(x + y) == Glue(Pieces(x), Pieces(y), true)
  {
    if x == "" {
      assert x + y == y;
      assert Glue([""], Pieces(y), true) == Pieces(y) by { assert "" + Pieces(y)[0] == Pieces(y)[0]; }
    } else {
      PiecesAppend(x[1..], y);
      assert (x + y)[1..] == x[1..] + y && (x + y)[0] == x[0];
      hide Pieces;
      if x[0] == ' ' {
        PieceInFront(Pieces(x[1..]), Pieces(y));
      } else {
        CharInFront(x[0], Pieces(x[1..]), Pieces(y));
      }
    }
  }

  lemma {:induction false} PieceInFront(xs: seq<string>, ys: seq<string>)
    requires xs != [] && ys != []
    ensures [""] + Glue(xs, ys, true) == Glue([""] + xs, ys, true)
  {
    assert ([""] + xs)[..|[""] + xs| - 1] == [""] + xs[..|xs| - 1];
  }

  lemma {:induction false} CharInFront(c: char, xs: seq<string>, ys: seq<string>)
    requires xs != [] && ys != []
    ensures var g, front := Glue(xs, ys, true), [[c] + xs[0]] + xs[1..];
            [[c] + g[0]] + g[1..] == Glue(front, ys, true)
  {
    if |xs| == 1 {
      Assoc([c], xs[0], ys[0]);
    } else {
      var g, front := Glue(xs, ys, true), [[c] + xs[0]] + xs[1..];
      assert front[..|front| - 1] == [[c] + xs[0]] + xs[1..|xs| - 1];
      assert g[1..] == xs[1..|xs| - 1] + ([xs[|xs| - 1] + ys[0]] + ys[1..]);
      Assoc([[c] + xs[0]], xs[1..|xs| - 1], [xs[|xs| - 1] + ys[0]] + ys[1..]);
    }
  }

  lemma {:induction false} JoinPieces(s: string)
    ensures Join(Pieces(s)) == s
  {
    if s != "" {
      JoinPieces(s[1..]);
      var rest := Pieces(s[1..]);
      assert s == [s[0]] + s[1..];
      if s[0] == ' ' {
        assert ([""] + rest)[1..] == rest;
        assert "" + " " + Join(rest) == [s[0]] + Join(rest);
      } else if |rest| > 1 {
        var first := [s[0]] + rest[0];
        assert ([first] + rest[1..])[1..] == rest[1..];
        assert first + " " + Join(rest[1..]) == [s[0]] + (rest[0] + " " + Join(rest[1..]));
      }
    }
  }

  lemma {:induction false} SubstringIsAligned(u: string, v: string)
    ensures Substring(u, v) <==> exists i: nat :: Aligned(Pieces(v), Pieces(u), i)
  {
    hide Pieces, Glue, Aligned;
    if Substring(u, v) {
      var a, b := SubstringSplit(u, v);
      PiecesAppend(a + u, b);
      PiecesAppend(a, u);
      GluedWordsAlign(Pieces(a), Pieces(u), Pieces(b), true, true);
    }
    if i: nat :| Aligned(Pieces(v), Pieces(u), i) {
      AlignedJoinIsSubstring(Pieces(v), Pieces(u), i);
      JoinPieces(u);
      JoinPieces(v);
    }
  }

  /** The words of a text, with an empty one at each end where the text does not start or end in a word. */
  function Padded(s: string): seq<string> {
    if WordsOf(s) == [] then if s == "" then [""] else ["", ""]
    else (if StartsInWord(s) then [] else [""]) + WordsOf(s) + (if EndsInWord(s) then [] else [""])
  }

  predicate Spaceless(ws: seq<string>) { forall w | w in ws :: ' ' !in w }

  lemma {:induction false} WordsSpaceless(s: string)
    ensures Spaceless(WordsOf(s))
  {
    if s != "" {
      WordsSpaceless(s[1..]);
      var ws := WordsOf(s[1..]);
      if IsWord(s[0]) && StartsInWord(s[1..]) {
        assert WordsOf(s) == [[s[0]] + ws[0]] + ws[1..];
        assert ws[0] in ws && forall w | w in ws[1..] :: w in ws;
      }
    }
  }

  lemma {:induction false} PieceOfWord(w: string)
    requires ' ' !in w
    ensures Pieces(w) == [w]
  {
    if w != "" {
      assert w == [w[0]] + w[1..];
      PieceOfWord(w[1..]);
    }
  }

  lemma {:induction false} PiecesOfJoin(ws: seq<string>)
    requires ws != [] && Spaceless(ws)
    ensures Pieces(Join(ws)) == ws
  {
    hide Pieces;
    assert ws[0] in ws;
    PieceOfWord(ws[0]);
    if |ws| > 1 {
      assert forall w | w in ws[1..] :: w in ws;
      PiecesOfJoin(ws[1..]);
      var joined := Join(ws[1..]);
      SpaceFirst(joined);
      assert Join(ws) == ws[0] + " " + joined;
      hide Join;
      Assoc(ws[0], " ", joined);
      PiecesAppend(ws[0], " " + joined);
      GlueSpace(ws[0], ws[1..]);
    }
  }

  lemma {:induction false} SpaceFirst(t: string)
    ensures Pieces(" " + t) == [""] + Pieces(t)
  {
    assert (" " + t)[1..] == t;
  }

  lemma {:induction false} GlueSpace(w: string, ps: seq<string>)
    requires ps != []
    ensures Glue([w], [""] + ps, true) == [w] + ps
  {
    assert w + "" == w;
    assert ([""] + ps)[1..] == ps;
  }

  lemma {:induction false} GlueLast(ps: seq<string>)
    requires ps != []
    ensures Glue(ps, ["", ""], true) == ps + [""]
  {
    assert ps[|ps| - 1] + "" == ps[|ps| - 1];
  }

  lemma {:induction false} PiecesOfNorm(s: string)
    ensures Pieces(Collapse(s, false)) == Padded(s)
  {
    if WordsOf(s) == [] {
      CollapseWordless(s, false);
      assert " "[1..] == "";
    } else {
      CollapseIsJoin(s, false);
      WordsSpaceless(s);
      PiecesOfJoin(WordsOf(s));
      FramedPieces(Join(WordsOf(s)), StartsInWord(s), EndsInWord(s));
    }
  }

  lemma {:induction false} FramedPieces(joined: string, starts: bool, ends: bool)
    ensures Pieces(Gap(starts) + joined + Gap(ends)) == (if starts then [] else [""]) + Pieces(joined) + (if ends then [] else [""])
  {
    hide Pieces;
    var front := Gap(starts) + joined;
    if starts { assert front == joined; } else { SpaceFirst(joined); }
    var ps := Pieces(front);
    if ends {
      assert front + Gap(ends) == front;
    } else {
      assert " " + "" == " ";
      SpaceFirst("");
      PieceOfWord("");
      PiecesAppend(front, " ");
      GlueLast(ps);
    }
  }

  /** For every quote, acceptance is exactly alignment of the padded words: where the quote
      opens or closes with a run of non-word characters, the word next to it is whole on
      that side and bordered by such a run. */
  lemma {:induction false} AcceptedExactly(haystack: string, needle: string)
    requires needle != ""
    ensures Contains(haystack, needle) <==> exists i: nat :: Aligned(Padded(Lower(haystack)), Padded(Lower(needle)), i)
  {
    hide Collapse, Pieces, Padded, Aligned;
    SubstringIsAligned(Norm(needle), Norm(haystack));
    PiecesOfNorm(Lower(haystack));
    PiecesOfNorm(Lower(needle));
  }
}
