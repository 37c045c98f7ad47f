/** What the quote test ignores and what it does not: letter case and the make-up of runs
    between words do not matter, every other character does. */
module Casing {
  import opened Basics
  import opened Words

  /** A capital letter and its small one. */
  predicate IsPair(capital: char, small: char) { 'A' <= capital <= 'Z' && small as int == capital as int + 32 }

  predicate SameLetter(c: char, d: char) { c == d || IsPair(c, d) || IsPair(d, c) }

  predicate UpToCase(s: string, t: string) { |s| == |t| && forall i | 0 <= i < |s| :: SameLetter(s[i], t[i]) }

  // ----- Case -----

  /** Folding identifies exactly the two cases of a letter. */
  lemma {:induction false} FoldsExactly(c: char, d: char)
    ensures LowerChar(c) == LowerChar(d) <==> SameLetter(c, d)
  {
  }

  lemma {:induction false} LowerExactly(s: string, t: string)
    ensures Lower(s) == Lower(t) <==> UpToCase(s, t)
  {
    if Lower(s) == Lower(t) {
      forall i | 0 <= i < |s| ensures SameLetter(s[i], t[i]) {
        assert Lower(s)[i] == Lower(t)[i];
        FoldsExactly(s[i], t[i]);
      }
    }
    if UpToCase(s, t) {
      forall i | 0 <= i < |s| ensures Lower(s)[i] == Lower(t)[i] { FoldsExactly(s[i], t[i]); }
    }
  }

  /** Case never decides whether a quote is accepted. */
  lemma {:induction false} CaseIgnored(haystack: string, haystack': string, needle: string, needle': string)
    requires UpToCase(haystack, haystack') && UpToCase(needle, needle')
    ensures Contains(haystack, needle) == Contains(haystack', needle')
  {
    LowerExactly(haystack, haystack');
    LowerExactly(needle, needle');
  }

  /** Every piece of the haystack is accepted in any case. */
  lemma {:induction false} QuoteInAnyCase(before: string, piece: string, after: string, quote: string)
    requires quote != "" && UpToCase(piece, quote)
    ensures Contains(before + piece + after, quote)
  {
    hide Contains, SameLetter;
    VerbatimQuoteAccepted(before, piece, after);
    SameAsItself(before + piece + after);
    CaseIgnored(before + piece + after, before + piece + after, piece, quote);
  }

  lemma {:induction false} SameAsItself(s: string)
    ensures UpToCase(s, s)
  {
  }

  // ----- A quote of word characters -----

  /** Letters, digits and underscores. */
  predicate InWord(c: char) { 'a' <= c <= 'z' || 'A' <= c <= 'Z' || '0' <= c <= '9' || c == '_' }

  lemma {:induction false} InWordIsWord(c: char)
    ensures IsWord(c) <==> InWord(c)
    ensures IsWord(LowerChar(c)) <==> InWord(c)
  {
  }

  /** What the collapsed text begins with, word characters only, the text begins with. */
  lemma {:induction false} WordPrefix(u: string, s: string)
    requires (forall c | c in u :: IsWord(c)) && u <= Collapse(s, false)
    ensures u <= s
  {
    if u != "" && s != "" {
      assert u[0] in u && Collapse(s, false)[0] == u[0];
      assert !IsWord(' ');
      assert u[1..] <= Collapse(s, false)[1..];
      forall c | c in u[1..] ensures c in u {}
      WordPrefix(u[1..], s[1..]);
      assert u == [u[0]] + u[1..] && s == [s[0]] + s[1..];
    }
  }

  lemma {:induction false} StartKept(u: string, s: string, inRun: bool)
    requires u != "" && s != "" && (forall c | c in u :: IsWord(c)) && u <= Collapse(s, inRun) && Mark(s[0], inRun) != ""
    ensures Substring(u, s)
  {
    assert Collapse(s, inRun)[0] == Mark(s[0], inRun)[0] == u[0] && u[0] in u;
    assert !IsWord(' ');
    assert Collapse(s, false) == Collapse(s, inRun);
    WordPrefix(u, s);
    hide Collapse, Mark, IsWord;
    assert OccursAt(u, s, 0);
  }

  lemma {:induction false} WordPieceKept(u: string, s: string, inRun: bool)
    requires u != "" && (forall c | c in u :: IsWord(c)) && Substring(u, Collapse(s, inRun))
    ensures Substring(u, s)
  {
    if s != "" {
      var mark, rest := Mark(s[0], inRun), Collapse(s[1..], !IsWord(s[0]));
      var i :| 0 <= i <= |mark + rest| - |u| && OccursAt(u, mark + rest, i);
      if i >= |mark| {
        assert rest[i - |mark|..i - |mark| + |u|] == u;
        assert OccursAt(u, rest, i - |mark|);
        WordPieceKept(u, s[1..], !IsWord(s[0]));
        SubstringWiden(u, [s[0]], s[1..], "");
        assert [s[0]] + s[1..] + "" == s;
      } else {
        StartKept(u, s, inRun);
      }
    }
  }

  lemma {:induction false} WordsStay(s: string, inRun: bool)
    requires forall c | c in s :: IsWord(c)
    ensures Collapse(s, inRun) == s
  {
    if s != "" {
      assert s[0] in s && forall c | c in s[1..] :: c in s;
      WordsStay(s[1..], false);
      assert s == [s[0]] + s[1..];
    }
  }

  lemma {:induction false} LowerWords(s: string)
    requires forall c | c in s :: InWord(c)
    ensures forall c | c in Lower(s) :: IsWord(c)
  {
    forall c | c in Lower(s) ensures IsWord(c) {
      var i :| 0 <= i < |s| && Lower(s)[i] == c;
      assert s[i] in s;
      InWordIsWord(s[i]);
    }
  }

  /** The text reads as the quote from position i on, up to case. */
  predicate ReadsAt(text: string, quote: string, i: nat) { i + |quote| <= |text| && UpToCase(text[i..i + |quote|], quote) }

  lemma {:induction false} FoldedOccurrence(text: string, quote: string, i: nat)
    ensures OccursAt(Lower(quote), Lower(text), i) <==> ReadsAt(text, quote, i)
  {
    if i + |quote| <= |text| {
      LowerExactly(text[i..i + |quote|], quote);
      hide UpToCase;
      assert Lower(text[i..i + |quote|]) == Lower(text)[i..i + |quote|];
    }
  }

  lemma {:induction false} WordQuoteFound(haystack: string, quote: string)
    requires (forall c | c in quote :: InWord(c)) && Contains(haystack, quote)
    ensures exists i: nat :: ReadsAt(haystack, quote, i)
  {
    LowerWords(quote);
    WordsStay(Lower(quote), false);
    hide InWord, IsWord, ReadsAt;
    WordPieceKept(Lower(quote), Lower(haystack), false);
    hide Collapse;
    var i :| 0 <= i <= |Lower(haystack)| - |Lower(quote)| && OccursAt(Lower(quote), Lower(haystack), i);
    FoldedOccurrence(haystack, quote, i);
  }

  /** A quote of letters, digits and underscores is accepted exactly when some stretch of
      the haystack is that quote up to case. */
  lemma {:induction false} WordQuoteExactly(haystack: string, quote: string)
    requires quote != "" && forall c | c in quote :: InWord(c)
    ensures Contains(haystack, quote) <==> exists i: nat :: ReadsAt(haystack, quote, i)
  {
    hide InWord, Contains, UpToCase;
    if Contains(haystack, quote) { WordQuoteFound(haystack, quote); }
    if i: nat :| ReadsAt(haystack, quote, i) {
      QuoteInAnyCase(haystack[..i], haystack[i..i + |quote|], haystack[i + |quote|..], quote);
      assert haystack[..i] + haystack[i..i + |quote|] + haystack[i + |quote|..] == haystack;
    }
  }

  // ----- Runs between words -----

  lemma {:induction false} RunCollapses(run: string, inRun: bool)
    requires run != "" && forall c | c in run :: !IsWord(c)
    ensures Collapse(run, inRun) == (if inRun then "" else " ") && InRunAfter(run, inRun)
  {
    assert run[0] in run && run[|run| - 1] in run;
    if |run| > 1 {
      forall c | c in run[1..] ensures c in run {}
      RunCollapses(run[1..], true);
    } else {
      assert run[1..] == "";
    }
  }

  lemma {:induction false} SameRun(a: string, run: string, run': string, b: string)
    requires run != "" && run' != "" && forall c | c in run || c in run' :: !IsWord(c)
    ensures Collapse(a + run + b, false) == Collapse(a + run' + b, false)
  {
    CollapseAppend(a + run, b, false);
    CollapseAppend(a, run, false);
    CollapseAppend(a + run', b, false);
    CollapseAppend(a, run', false);
    RunCollapses(run, InRunAfter(a, false));
    RunCollapses(run', InRunAfter(a, false));
    assert run[|run| - 1] in run && run'[|run'| - 1] in run';
    assert (a + run)[|a + run| - 1] == run[|run| - 1] && (a + run')[|a + run'| - 1] == run'[|run'| - 1];
  }

  lemma {:induction false} LowerRun(run: string)
    requires forall c | c in run :: !InWord(c)
    ensures forall c | c in Lower(run) :: !IsWord(c)
  {
    forall c | c in Lower(run) ensures !IsWord(c) {
      var i :| 0 <= i < |run| && Lower(run)[i] == c;
      assert run[i] in run;
      InWordIsWord(run[i]);
    }
  }

  /** Whatever stands between two words, if it is neither letter, digit nor underscore,
      is worth the same: in the haystack and in the quote. */
  lemma {:induction false} RunsAlike(a: string, run: string, run': string, b: string, other: string)
    requires run != "" && run' != "" && forall c | c in run || c in run' :: !InWord(c)
    ensures Contains(a + run + b, other) == Contains(a + run' + b, other)
    ensures Contains(other, a + run + b) == Contains(other, a + run' + b)
  {
    LowerRun(run);
    LowerRun(run');
    LowerAppend(a + run, b);
    LowerAppend(a, run);
    LowerAppend(a + run', b);
    LowerAppend(a, run');
    hide Collapse, InWord, Lower;
    SameRun(Lower(a), Lower(run), Lower(run'), Lower(b));
  }
}
