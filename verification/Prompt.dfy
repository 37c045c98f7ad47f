/** The user prompt of llm_client.py: one CDATA-wrapped block per source, and a
    reader for such prompts after section 2.7 of XML 1.0. */
module Prompt {
  import opened Basics

  /** `documentId` is None for chat messages. */
  datatype SourceText = SourceText(sourceLabel: string, documentId: Option<string>, text: string)

  const OPEN := "<![CDATA["
  const CLOSE := "]]>"
  const SPLIT := "]]]]><![CDATA[>"
  const SOURCE_CUT := 20000
  const PROMPT_CUT := 80000

  const PREAMBLE := "Extract all " + "supported " + "financial " + "facts from the " + "following " + "sources.\n\n"
  const CLOSING := "\n\nReturn JSON " + "matching the " + "ExtractionResult " + "schema."

  /** `text.replace("]]>", "]]]]><![CDATA[>")` */
  function Escape(s: string): string {
    if s == "" then ""
    else if StartsWith(s, CLOSE) then SPLIT + Escape(s[3..])
    else [s[0]] + Escape(s[1..])
  }

  function OriginOf(source: SourceText): string {
    if source.documentId.Some? && source.documentId.value != ""
    then "DOCUMENT_ID=" + source.documentId.value
    else "ORIGIN=chat_transcript"
  }

  function Header(source: SourceText): string {
    "<SOURCE " + OriginOf(source) + " label=\"" + source.sourceLabel + "\">\n"
  }

  function CutText(source: SourceText): string { Cut(source.text, SOURCE_CUT) }

  function Block(source: SourceText): string {
    Header(source) + OPEN + "\n" + Escape(CutText(source)) + "\n" + CLOSE + "\n</SOURCE>"
  }

  /** `"\n\n".join(blocks)` */
  function Joined(blocks: seq<string>): string {
    if blocks == [] then ""
    else if |blocks| == 1 then blocks[0]
    else blocks[0] + "\n\n" + Joined(blocks[1..])
  }

  function Blocks(sources: seq<SourceText>): seq<string> {
    seq(|sources|, i requires 0 <= i < |sources| => Block(sources[i]))
  }

  function FullPrompt(sources: seq<SourceText>): string { PREAMBLE + Joined(Blocks(sources)) + CLOSING }

  function UserPrompt(sources: seq<SourceText>): string { Cut(FullPrompt(sources), PROMPT_CUT) }

  method BuildUserPrompt(sources: seq<SourceText>) returns (prompt: string)
    ensures prompt == UserPrompt(sources)
  {
    var blocks: seq<string> := [];
    for i := 0 to |sources|
      invariant blocks == Blocks(sources)[..i]
    {
      var source := sources[i];
      var origin := OriginOf(source);
      var safeText := if |source.text| > SOURCE_CUT then source.text[..SOURCE_CUT] else source.text;
      safeText := Escape(safeText);
      blocks := blocks + ["<SOURCE " + origin + " label=\"" + source.sourceLabel + "\">\n" + OPEN + "\n" + safeText + "\n" + CLOSE + "\n</SOURCE>"];
    }
    assert blocks == Blocks(sources);
    var full := PREAMBLE + Joined(blocks) + CLOSING;
    prompt := if |full| > PROMPT_CUT then full[..PROMPT_CUT] else full;
  }

  // ----- A reader of CDATA sections -----

  datatype Section = Section(text: string, rest: string)

  /** Inside a section: it ends at the first `]]>`; a section that follows at once is
      joined to it. None when the text ends first. */
  function ReadSection(s: string): Option<Section>
    decreases |s|
  {
    if s == "" then None
    else if StartsWith(s, CLOSE) then
      if StartsWith(s[3..], OPEN) then ReadSection(s[12..]) else Some(Section("", s[3..]))
    else match ReadSection(s[1..])
      case None => None
      case Some(r) => Some(Section([s[0]] + r.text, r.rest))
  }

  datatype Reading = Reading(sections: seq<Sourced>, trailing: string)

  /** A run of joined CDATA sections and the markup before it. */
  datatype Sourced = Sourced(markup: string, text: string)

  function AfterMarkup(m: string, r: Reading): Reading {
    if r.sections == [] then Reading([], m + r.trailing)
    else Reading([Sourced(m + r.sections[0].markup, r.sections[0].text)] + r.sections[1..], r.trailing)
  }

  /** Everything a reader finds in a prompt; None when a section is not ended. */
  function Read(s: string): Option<Reading>
    decreases |s|
  {
    if s == "" then Some(Reading([], ""))
    else if StartsWith(s, OPEN) then
      ReadSectionShrinks(s[9..]);
      match ReadSection(s[9..])
      case None => None
      case Some(section) =>
        (match Read(section.rest)
         case None => None
         case Some(r) => Some(Reading([Sourced("", section.text)] + r.sections, r.trailing)))
    else match Read(s[1..])
      case None => None
      case Some(r) => Some(AfterMarkup([s[0]], r))
  }

  lemma {:induction false} ReadSectionShrinks(s: string)
    ensures ReadSection(s).Some? ==> |ReadSection(s).value.rest| < |s|
    decreases |s|
  {
    if s != "" && !StartsWith(s, CLOSE) { ReadSectionShrinks(s[1..]); }
    else if s != "" && StartsWith(s[3..], OPEN) { ReadSectionShrinks(s[12..]); }
  }

  // ----- The reader undoes the escaping -----

  function Prepend(front: string, r: Option<Section>): Option<Section> {
    match r
    case None => None
    case Some(section) => Some(Section(front + section.text, section.rest))
  }

  lemma {:induction false} ReadChar(c: char, more: string)
    requires !StartsWith([c] + more, CLOSE)
    ensures ReadSection([c] + more) == Prepend([c], ReadSection(more))
  {
    assert ([c] + more)[1..] == more;
  }

  lemma {:induction false} ReadReopen(more: string)
    ensures ReadSection(CLOSE + OPEN + more) == ReadSection(more)
  {
    var s := CLOSE + OPEN + more;
    assert s[..3] == CLOSE && s[3..][..9] == OPEN && s[12..] == more;
  }

  lemma {:induction false} SplitFraming(more: string, text: string)
    ensures SPLIT + more == "]" + ("]" + (CLOSE + OPEN + (">" + more)))
    ensures !StartsWith("]" + ("]" + (CLOSE + OPEN + (">" + more))), CLOSE)
    ensures !StartsWith("]" + (CLOSE + OPEN + (">" + more)), CLOSE)
    ensures !StartsWith(">" + more, CLOSE)
    ensures "]" + ("]" + (">" + text)) == CLOSE + text
  {
    var s2 := CLOSE + OPEN + (">" + more);
    assert ("]" + ("]" + s2))[2] == ']' && ("]" + s2)[2] == ']' && (">" + more)[0] == '>';
  }

  /** The replacement reads as the terminator it stands for. */
  lemma {:induction false} ReadSplit(more: string)
    ensures ReadSection(SPLIT + more) == Prepend(CLOSE, ReadSection(more))
  {
    SplitFraming(more, if ReadSection(more).Some? then ReadSection(more).value.text else "");
    hide ReadSection;
    var s2 := CLOSE + OPEN + (">" + more);
    ReadChar(']', "]" + s2);
    ReadChar(']', s2);
    ReadReopen(">" + more);
    ReadChar('>', more);
  }

  lemma {:induction false} EscapedFirst(s: string)
    requires s != ""
    ensures Escape(s) != "" && Escape(s)[0] == s[0]
  {
  }

  /** An escaped text continues with `]>` only where the text itself does. */
  lemma {:induction false} EscapedStart(s: string, rest: string)
    ensures var e := Escape(s) + (CLOSE + rest);
            |e| >= 2 && (e[0] == ']' && e[1] == '>' ==> |s| >= 2 && s[0] == ']' && s[1] == '>')
  {
    var e := Escape(s) + (CLOSE + rest);
    if s == "" {
      assert e[1] == ']';
    } else if StartsWith(s, CLOSE) {
      assert e[1] == ']';
    } else if |s| == 1 {
      assert Escape(s[1..]) == "" && e[1] == ']';
    } else {
      EscapedFirst(s[1..]);
      assert e[0] == s[0] && e[1] == s[1];
    }
  }

  /** Reading an escaped text up to its closing `]]>` gives the text back, whatever it holds. */
  lemma {:induction false} ReadEscaped(s: string, rest: string)
    requires !StartsWith(rest, OPEN)
    ensures ReadSection(Escape(s) + (CLOSE + rest)) == Some(Section(s, rest))
    decreases |s|
  {
    var tail := CLOSE + rest;
    if s == "" {
      assert Escape(s) + tail == tail && tail[..3] == CLOSE && tail[3..] == rest;
    } else if StartsWith(s, CLOSE) {
      ReadEscaped(s[3..], rest);
      ReadSplit(Escape(s[3..]) + tail);
      Assoc(SPLIT, Escape(s[3..]), tail);
      assert s == CLOSE + s[3..];
    } else {
      ReadEscaped(s[1..], rest);
      var more := Escape(s[1..]) + tail;
      Assoc([s[0]], Escape(s[1..]), tail);
      assert s == [s[0]] + s[1..];
      NotClosedEarly(s, rest);
      ReadChar(s[0], more);
    }
  }

  lemma {:induction false} NotClosedEarly(s: string, rest: string)
    requires s != "" && !StartsWith(s, CLOSE)
    ensures !StartsWith([s[0]] + (Escape(s[1..]) + (CLOSE + rest)), CLOSE)
  {
    var more := Escape(s[1..]) + (CLOSE + rest);
    EscapedStart(s[1..], rest);
    assert ([s[0]] + more)[1] == more[0] && ([s[0]] + more)[2] == more[1];
    if |s| >= 3 { assert s[..3] == [s[0], s[1], s[2]]; }
  }

  // ----- The whole prompt reads back -----

  const FOOT := "\n</SOURCE>"
  const BETWEEN := "\n</SOURCE>\n\n"

  /** No section opens inside this markup or across its end. */
  predicate Plain(m: string) {
    forall i | 0 <= i < |m| :: m[i] == '<' ==> PlainTag(m, i)
  }

  predicate PlainTag(m: string, i: nat) {
    i + 1 < |m| && m[i + 1] != '!'
  }

  lemma {:induction false} ReadMarkup(m: string, s: string)
    requires Plain(m) && Read(s).Some?
    ensures Read(m + s) == Some(AfterMarkup(m, Read(s).value))
    decreases |m|
  {
    if m == "" {
      assert m + s == s;
      var r := Read(s).value;
      assert "" + r.trailing == r.trailing;
      if r.sections != [] {
        assert "" + r.sections[0].markup == r.sections[0].markup;
        assert [Sourced("" + r.sections[0].markup, r.sections[0].text)] + r.sections[1..] == r.sections;
      }
    } else {
      forall i | 0 <= i < |m[1..]| && m[1..][i] == '<' ensures PlainTag(m[1..], i) { assert PlainTag(m, i + 1); }
      ReadMarkup(m[1..], s);
      assert (m + s)[1..] == m[1..] + s && (m + s)[0] == m[0];
      if |m| > 1 { assert (m + s)[1] == m[1]; }
      assert m[0] == '<' ==> PlainTag(m, 0);
      OpensNothing(m + s);
      assert m == [m[0]] + m[1..];
      AfterMarkupTwice([m[0]], m[1..], Read(s).value);
    }
  }

  lemma {:induction false} AfterMarkupTwice(a: string, b: string, r: Reading)
    ensures AfterMarkup(a, AfterMarkup(b, r)) == AfterMarkup(a + b, r)
  {
    if r.sections == [] { Assoc(a, b, r.trailing); } else { Assoc(a, b, r.sections[0].markup); }
  }

  lemma {:induction false} OpensNothing(s: string)
    requires s == "" || s[0] != '<' || (|s| > 1 && s[1] != '!')
    ensures !StartsWith(s, OPEN)
  {
    assert OPEN[0] == '<' && OPEN[1] == '!';
  }

  /** Labels and identifiers without `<`; both are rendered from UUIDs. */
  predicate PlainSource(source: SourceText) {
    && (forall c | c in source.sourceLabel :: c != '<')
    && (source.documentId.Some? ==> forall c | c in source.documentId.value :: c != '<')
  }

  lemma {:induction false} HeaderPlain(lead: string, source: SourceText)
    requires PlainSource(source) && forall i | 0 <= i < |lead| :: lead[i] == '<' ==> PlainTag(lead, i)
    ensures Plain(lead + Header(source))
  {
    var name, origin := "DOCUMENT_ID=", OriginOf(source);
    assert forall c | c in name :: c != '<';
    assert forall c | c in origin :: c != '<';
    HeaderTags(origin, source.sourceLabel);
    var h := Header(source);
    var m := lead + h;
    forall i | 0 <= i < |m| && m[i] == '<' ensures PlainTag(m, i) {
      if i < |lead| { assert PlainTag(lead, i); } else { assert h[i - |lead|] == '<'; }
    }
  }

  lemma {:induction false} HeaderTags(origin: string, name: string)
    requires forall c | c in origin + name :: c != '<'
    ensures var h := "<SOURCE " + origin + " label=\"" + name + "\">\n";
            |h| > 1 && h[1] == 'S' && forall i | 1 <= i < |h| :: h[i] != '<'
  {
    var rest := "SOURCE " + origin + " label=\"" + name + "\">\n";
    assert "<SOURCE " + origin + " label=\"" + name + "\">\n" == "<" + rest;
    assert forall c | c in rest :: c in "SOURCE " || c in origin + name || c in " label=\"" || c in "\">\n";
    assert forall i | 0 <= i < |rest| :: rest[i] in rest;
  }

  lemma {:induction false} EscapeLine(s: string)
    ensures Escape(s + "\n") == Escape(s) + "\n"
  {
    if s == "" {
      assert s + "\n" == "\n" && "\n"[1..] == "";
    } else if StartsWith(s, CLOSE) {
      EscapeLine(s[3..]);
      assert (s + "\n")[3..] == s[3..] + "\n";
      Assoc(SPLIT, Escape(s[3..]), "\n");
    } else {
      EscapeLine(s[1..]);
      assert (s + "\n")[1..] == s[1..] + "\n" && (s + "\n")[0] == s[0];
      assert !StartsWith(s + "\n", CLOSE) by {
        if |s| >= 3 { assert (s + "\n")[..3] == s[..3]; } else { assert (s + "\n")[|s|] == '\n'; }
      }
      Assoc([s[0]], Escape(s[1..]), "\n");
    }
  }

  function SourceBody(source: SourceText): string { "\n" + CutText(source) + "\n" }

  lemma {:induction false} BlockIsEscapedBody(source: SourceText)
    ensures Block(source) == Header(source) + (OPEN + (Escape(SourceBody(source)) + (CLOSE + FOOT)))
  {
    var x := CutText(source);
    EscapeLine(x);
    var body := "\n" + x;
    EscapeLine(body);
    assert !StartsWith(body, CLOSE) by { assert body[0] == '\n'; }
    assert body[1..] == x;
    assert Escape(body) == "\n" + Escape(x);
    BlockFraming(Header(source), Escape(x));
  }

  lemma {:induction false} BlockFraming(h: string, e: string)
    ensures h + OPEN + "\n" + e + "\n" + CLOSE + "\n</SOURCE>"
         == h + (OPEN + ((("\n" + e) + "\n") + (CLOSE + "\n</SOURCE>")))
  {
  }

  /** What the reader is to find, `lead` being the markup still open. */
  function Expected(lead: string, sources: seq<SourceText>): Reading
    decreases |sources|
  {
    if sources == [] then Reading([], lead + CLOSING)
    else
      var more := Expected(if |sources| == 1 then FOOT else BETWEEN, sources[1..]);
      Reading([Sourced(lead + Header(sources[0]), SourceBody(sources[0]))] + more.sections, more.trailing)
  }

  ghost predicate PlainLead(lead: string) {
    forall i | 0 <= i < |lead| :: lead[i] == '<' ==> PlainTag(lead, i)
  }

  function GapAfter(sources: seq<SourceText>): string { if |sources| <= 1 then "" else "\n\n" }

  lemma {:induction false} JoinedStep(sources: seq<SourceText>)
    requires sources != []
    ensures Joined(Blocks(sources)) + CLOSING
         == Block(sources[0]) + (GapAfter(sources) + (Joined(Blocks(sources[1..])) + CLOSING))
  {
    assert Blocks(sources)[1..] == Blocks(sources[1..]) && Blocks(sources)[0] == Block(sources[0]);
    var b, rest := Block(sources[0]), Joined(Blocks(sources[1..]));
    hide Block, Blocks;
    if |sources| == 1 {
      JoinFraming(b, "", "", CLOSING);
    } else {
      JoinFraming(b, "\n\n", rest, CLOSING);
    }
  }

  lemma {:induction false} JoinFraming(b: string, gap: string, rest: string, end: string)
    ensures (b + gap + rest) + end == b + (gap + (rest + end))
    ensures b + "" + "" == b
  {
  }

  lemma {:induction false} PromptFraming(lead: string, h: string, open: string, e: string, close: string, foot: string, more: string)
    ensures lead + ((h + (open + (e + (close + foot)))) + more)
         == (lead + h) + (open + (e + (close + (foot + more))))
  {
  }

  lemma {:induction false} ReadFrom(lead: string, sources: seq<SourceText>)
    requires PlainLead(lead) && forall source | source in sources :: PlainSource(source)
    ensures Read(lead + (Joined(Blocks(sources)) + CLOSING)) == Some(Expected(lead, sources))
    decreases |sources|
  {
    if sources == [] {
      assert Joined(Blocks(sources)) + CLOSING == CLOSING;
      ClosingHasNoTag();
      NoTagPlain(CLOSING);
      PlainAppend(lead, CLOSING);
      ReadMarkup(lead + CLOSING, "");
      assert (lead + CLOSING) + "" == lead + CLOSING;
    } else {
      var source, rest := sources[0], sources[1..];
      var tail := GapAfter(sources) + (Joined(Blocks(rest)) + CLOSING);
      var next := if |sources| == 1 then FOOT else BETWEEN;
      assert next == FOOT + GapAfter(sources) && PlainLead(next) by { NextPlain(); }
      ReadFrom(next, rest);
      Assoc(FOOT, GapAfter(sources), Joined(Blocks(rest)) + CLOSING);
      ReadBlock(lead, source, tail, Expected(next, rest));
      JoinedStep(sources);
    }
  }

  lemma {:induction false} NextPlain()
    ensures FOOT == FOOT + "" && BETWEEN == FOOT + "\n\n" && PlainLead(FOOT) && PlainLead(BETWEEN)
  {
    assert forall i | 0 <= i < |FOOT| :: FOOT[i] == '<' ==> i == 1;
    assert forall i | 0 <= i < |BETWEEN| :: BETWEEN[i] == '<' ==> i == 1;
    assert PlainTag(FOOT, 1) && PlainTag(BETWEEN, 1);
  }

  lemma {:induction false} PlainAppend(lead: string, s: string)
    requires PlainLead(lead) && forall i | 0 <= i < |s| :: s[i] != '<'
    ensures Plain(lead + s)
  {
    forall i | 0 <= i < |lead + s| && (lead + s)[i] == '<' ensures PlainTag(lead + s, i) {
      assert PlainTag(lead, i);
    }
  }

  lemma {:induction false} ReadBlock(lead: string, source: SourceText, tail: string, r: Reading)
    requires PlainLead(lead) && PlainSource(source) && Read(FOOT + tail) == Some(r)
    ensures Read(lead + (Block(source) + tail))
         == Some(Reading([Sourced(lead + Header(source), SourceBody(source))] + r.sections, r.trailing))
  {
    var body := SourceBody(source);
    var section := Escape(body) + (CLOSE + (FOOT + tail));
    BlockIsEscapedBody(source);
    PromptFraming(lead, Header(source), OPEN, Escape(body), CLOSE, FOOT, tail);
    HeaderPlain(lead, source);
    assert (FOOT + tail)[0] == FOOT[0];
    assert FOOT[0] == '\n';
    ReadEscaped(body, FOOT + tail);
    assert StartsWith(OPEN + section, OPEN) && (OPEN + section)[9..] == section;
    var here := Reading([Sourced("", body)] + r.sections, r.trailing);
    assert Read(OPEN + section) == Some(here);
    ReadMarkup(lead + Header(source), OPEN + section);
    assert (lead + Header(source)) + "" == lead + Header(source);
    assert here.sections[1..] == r.sections;
  }

  lemma {:induction false} PreambleHasNoTag()
    ensures '<' !in PREAMBLE
  {
    assert '<' !in "Extract all " && '<' !in "supported " && '<' !in "financial ";
    assert '<' !in "facts from the " && '<' !in "following " && '<' !in "sources.\n\n";
  }

  lemma {:induction false} ClosingHasNoTag()
    ensures '<' !in CLOSING
  {
    assert '<' !in "\n\nReturn JSON " && '<' !in "matching the " && '<' !in "ExtractionResult " && '<' !in "schema.";
  }

  lemma {:induction false} NoTagPlain(s: string)
    requires '<' !in s
    ensures PlainLead(s) && forall i | 0 <= i < |s| :: s[i] != '<'
  {
  }

  lemma {:induction false} PromptUncut(sources: seq<SourceText>)
    requires |FullPrompt(sources)| <= PROMPT_CUT
    ensures UserPrompt(sources) == PREAMBLE + Joined(Blocks(sources)) + CLOSING
  {
  }

  /** Reading the whole prompt finds, for every source, its own header and exactly its
      cut text between two line breaks. */
  lemma {:induction false} PromptReadsBack(sources: seq<SourceText>)
    requires forall source | source in sources :: PlainSource(source)
    requires |FullPrompt(sources)| <= PROMPT_CUT
    ensures Read(UserPrompt(sources)) == Some(Expected(PREAMBLE, sources))
  {
    PreambleHasNoTag();
    NoTagPlain(PREAMBLE);
    ReadFrom(PREAMBLE, sources);
    hide *;
    PromptUncut(sources);
    Assoc(PREAMBLE, Joined(Blocks(sources)), CLOSING);
  }

  lemma {:induction false} ExpectedInjective(lead: string, a: seq<SourceText>, b: seq<SourceText>)
    requires Expected(lead, a) == Expected(lead, b)
    ensures |a| == |b|
    ensures forall i | 0 <= i < |a| :: CutText(a[i]) == CutText(b[i]) && Header(a[i]) == Header(b[i])
    decreases |a|
  {
    ExpectedLength(lead, a);
    ExpectedLength(lead, b);
    if a != [] {
      var next := if |a| == 1 then FOOT else BETWEEN;
      var ra, rb := Expected(next, a[1..]), Expected(next, b[1..]);
      assert Expected(lead, a).sections[1..] == ra.sections && Expected(lead, b).sections[1..] == rb.sections;
      ExpectedInjective(next, a[1..], b[1..]);
      var sa, sb := Expected(lead, a).sections[0], Expected(lead, b).sections[0];
      assert (lead + Header(a[0]))[|lead|..] == Header(a[0]) && (lead + Header(b[0]))[|lead|..] == Header(b[0]);
      BodyInjective(a[0], b[0]);
      forall i | 0 <= i < |a| ensures CutText(a[i]) == CutText(b[i]) && Header(a[i]) == Header(b[i]) {
        if i > 0 { assert a[i] == a[1..][i - 1] && b[i] == b[1..][i - 1]; }
      }
    }
  }

  lemma {:induction false} ExpectedLength(lead: string, sources: seq<SourceText>)
    ensures |Expected(lead, sources).sections| == |sources|
    decreases |sources|
  {
    if sources != [] { ExpectedLength(if |sources| == 1 then FOOT else BETWEEN, sources[1..]); }
  }

  lemma {:induction false} BodyInjective(a: SourceText, b: SourceText)
    requires SourceBody(a) == SourceBody(b)
    ensures CutText(a) == CutText(b)
  {
    var x, y := SourceBody(a), SourceBody(b);
    assert x[1..|x| - 1] == CutText(a) && y[1..|y| - 1] == CutText(b);
  }

  /** The source names this document, or none. */
  predicate Names(source: SourceText, document: Option<string>) {
    if document.Some? then source.documentId == document && document.value != ""
    else source.documentId == None || source.documentId == Some("")
  }

  predicate OneWord(source: SourceText) { source.documentId.Some? ==> ' ' !in source.documentId.value }

  lemma {:induction false} OriginStart(source: SourceText)
    ensures OriginOf(source) != "" && (OriginOf(source)[0] == 'D' <==> !Names(source, None))
    ensures !Names(source, None) ==> |OriginOf(source)| >= 12 && Names(source, Some(OriginOf(source)[12..]))
  {
    assert |"DOCUMENT_ID="| == 12 && "DOCUMENT_ID="[0] == 'D' && "ORIGIN=chat_transcript"[0] == 'O';
  }

  lemma {:induction false} OriginTold(a: SourceText, b: SourceText, document: Option<string>)
    requires OriginOf(a) == OriginOf(b) && Names(a, document)
    ensures Names(b, document)
  {
    OriginStart(a);
    OriginStart(b);
    hide OriginOf;
  }

  lemma {:induction false} OriginOneWord(source: SourceText)
    requires OneWord(source)
    ensures ' ' !in OriginOf(source)
  {
    assert ' ' !in "DOCUMENT_ID=" && ' ' !in "ORIGIN=chat_transcript";
  }

  lemma {:induction false} WordEnds(x: string, u: string)
    requires ' ' !in x
    ensures var s := x + " " + u; |s| > |x| && s[|x|] == ' ' && s[..|x|] == x && s[|x| + 1..] == u && forall i | 0 <= i < |x| :: s[i] != ' '
  {
  }

  lemma {:induction false} FirstWord(x: string, u: string, y: string, v: string)
    requires ' ' !in x && ' ' !in y && x + " " + u == y + " " + v
    ensures x == y && u == v
  {
    WordEnds(x, u);
    WordEnds(y, v);
  }

  /** A header tells the label and the document, or that there is none. */
  lemma {:induction false} HeaderTold(a: SourceText, b: SourceText, document: Option<string>)
    requires Header(a) == Header(b) && OneWord(a) && OneWord(b) && Names(a, document)
    ensures a.sourceLabel == b.sourceLabel && Names(b, document)
  {
    OriginOneWord(a);
    OriginOneWord(b);
    var open, middle, end := "<SOURCE ", "label=\"", "\">\n";
    assert " label=\"" == " " + middle;
    var x, y := middle + a.sourceLabel + end, middle + b.sourceLabel + end;
    HeaderParts(open, OriginOf(a), middle, a.sourceLabel, end);
    HeaderParts(open, OriginOf(b), middle, b.sourceLabel, end);
    FirstWord(OriginOf(a), x, OriginOf(b), y);
    assert x[|middle|..|x| - |end|] == a.sourceLabel && y[|middle|..|y| - |end|] == b.sourceLabel;
    hide OriginOf, Header;
    OriginTold(a, b, document);
  }

  lemma {:induction false} HeaderParts(open: string, origin: string, middle: string, name: string, end: string)
    ensures (open + origin + (" " + middle) + name + end)[|open|..] == origin + " " + (middle + name + end)
  {
    assert open + origin + (" " + middle) + name + end == open + (origin + " " + (middle + name + end));
  }

  /** Two source lists with the same uncut prompt agree source by source: in text, and,
      where document identifiers are one word, in label and document. */
  lemma {:induction false} SamePromptSameSources(a: seq<SourceText>, b: seq<SourceText>)
    requires forall source | source in a + b :: PlainSource(source)
    requires |FullPrompt(a)| <= PROMPT_CUT && |FullPrompt(b)| <= PROMPT_CUT
    requires UserPrompt(a) == UserPrompt(b)
    ensures |a| == |b|
    ensures forall i | 0 <= i < |a| :: CutText(a[i]) == CutText(b[i]) && Header(a[i]) == Header(b[i])
    ensures forall i, document | 0 <= i < |a| && OneWord(a[i]) && OneWord(b[i]) && Names(a[i], document) ::
              a[i].sourceLabel == b[i].sourceLabel && Names(b[i], document)
  {
    PromptReadsBack(a);
    PromptReadsBack(b);
    ExpectedInjective(PREAMBLE, a, b);
    hide Header, CutText, UserPrompt, FullPrompt;
    forall i, document | 0 <= i < |a| && OneWord(a[i]) && OneWord(b[i]) && Names(a[i], document)
      ensures a[i].sourceLabel == b[i].sourceLabel && Names(b[i], document)
    {
      HeaderTold(a[i], b[i], document);
    }
  }

  // ----- How long a prompt gets -----

  function Terminators(s: string): nat {
    if s == "" then 0
    else if StartsWith(s, CLOSE) then 1 + Terminators(s[3..])
    else Terminators(s[1..])
  }

  /** Each terminator costs twelve characters, so an escaped text is at most five times as long. */
  lemma {:induction false} EscapedLength(s: string)
    ensures |Escape(s)| == |s| + 12 * Terminators(s)
    ensures 3 * Terminators(s) <= |s|
    decreases |s|
  {
    if s != "" { EscapedLength(if StartsWith(s, CLOSE) then s[3..] else s[1..]); }
  }

  function Occurrences(s: string): nat {
    if s == "" then 0 else (if StartsWith(s, CLOSE) then 1 else 0) + Occurrences(s[1..])
  }

  /** Terminators never overlap, so replacing from the left misses none. */
  lemma {:induction false} NoTerminatorMissed(s: string)
    ensures Terminators(s) == Occurrences(s)
    decreases |s|
  {
    if StartsWith(s, CLOSE) {
      NoTerminatorMissed(s[3..]);
      assert s[1] == CLOSE[1] && s[2] == CLOSE[2];
      assert s[1..][1] == s[2] && s[2..][0] == s[2];
      assert s[1..][1..] == s[2..] && s[2..][1..] == s[3..];
      ClosesNothing(s[1..]);
      ClosesNothing(s[2..]);
      assert Occurrences(s[1..]) == Occurrences(s[2..]) == Occurrences(s[3..]);
    } else if s != "" {
      NoTerminatorMissed(s[1..]);
    }
  }

  lemma {:induction false} ClosesNothing(s: string)
    requires s != "" && (s[0] != ']' || (|s| > 1 && s[1] != ']'))
    ensures !StartsWith(s, CLOSE)
  {
    assert CLOSE[0] == ']' && CLOSE[1] == ']';
  }

  /** The length of the blocks of these sources, joined. */
  function JoinedLength(sources: seq<SourceText>): nat {
    if sources == [] then 0
    else |Block(sources[0])| + |GapAfter(sources)| + JoinedLength(sources[1..])
  }

  lemma {:induction false} JoinedLengthIs(sources: seq<SourceText>)
    ensures |Joined(Blocks(sources))| == JoinedLength(sources)
  {
    if sources != [] {
      JoinedStep(sources);
      JoinedLengthIs(sources[1..]);
    }
  }

  /** Labels and document identifiers as extract_trace builds them. */
  predicate FromUuids(source: SourceText) {
    if source.documentId.Some?
    then IsUuidText(source.documentId.value) && source.sourceLabel == source.documentId.value
    else |source.sourceLabel| == 41 && StartsWith(source.sourceLabel, "chat:") && IsUuidText(source.sourceLabel[5..])
  }

  lemma {:induction false} BlockLength(source: SourceText)
    requires FromUuids(source)
    ensures PlainSource(source)
    ensures |Block(source)| == |Escape(CutText(source))| + if source.documentId.Some? then 127 else 106
  {
    if source.documentId.None? {
      var name := source.sourceLabel;
      assert name == name[..5] + name[5..] && name[..5] == "chat:";
    }
    HeaderLength(source);
    var h, e := Header(source), Escape(CutText(source));
    assert |h + OPEN + "\n" + e + "\n" + CLOSE + "\n</SOURCE>"| == |h| + 9 + 1 + |e| + 1 + 3 + 10;
  }

  lemma {:induction false} HeaderLength(source: SourceText)
    ensures |Header(source)| == 19 + |OriginOf(source)| + |source.sourceLabel|
  {
    assert |"<SOURCE "| == 8 && |" label=\""| == 8 && |"\">\n"| == 3;
  }

  /** Three sources of any length without a terminator are never cut; a fourth full one always is. */
  lemma {:induction false} PromptFits(sources: seq<SourceText>)
    requires forall source | source in sources :: FromUuids(source) && Terminators(CutText(source)) == 0
    ensures |sources| <= 3 ==> UserPrompt(sources) == FullPrompt(sources)
    ensures (forall source | source in sources :: |source.text| >= SOURCE_CUT) ==>
              (UserPrompt(sources) == FullPrompt(sources) <==> |sources| <= 3)
  {
    JoinedLengthIs(sources);
    JoinedBounds(sources);
    assert |PREAMBLE| + |CLOSING| == 118;
  }

  lemma {:induction false} JoinedBounds(sources: seq<SourceText>)
    requires forall source | source in sources :: FromUuids(source) && Terminators(CutText(source)) == 0
    ensures JoinedLength(sources) <= 20129 * |sources|
    ensures (forall source | source in sources :: |source.text| >= SOURCE_CUT) ==> JoinedLength(sources) >= 20000 * |sources|
  {
    if sources != [] {
      EscapedLength(CutText(sources[0]));
      BlockLength(sources[0]);
      JoinedBounds(sources[1..]);
      assert forall source | source in sources[1..] :: source in sources;
    }
  }
}
