/** How a stored file is named: the document's identifier and, of the name it was sent
    with, an extension from a short list; and what writing it leaves alone. */
module FileNames {
  import opened Basics
  import opened ObjectStore
  import opened Intake
  import opened Casing

  /** The extensions that are kept, in any case. */
  predicate KeptExtension(extension: string) {
    || UpToCase(extension, "pdf") || UpToCase(extension, "txt") || UpToCase(extension, "jpg")
    || UpToCase(extension, "jpeg") || UpToCase(extension, "png") || UpToCase(extension, "bin")
  }

  // ----- The last name of a path -----

  lemma {:induction false} LastSegment(dir: string, name: string)
    requires '/' !in name && (dir == "" || dir[|dir| - 1] == '/')
    ensures var segments := Split(dir + name); segments[|segments| - 1] == name
  {
    if dir == "" {
      assert dir + name == name;
      SplitSingle(name);
    } else {
      assert (dir + name)[1..] == dir[1..] + name && (dir + name)[0] == dir[0];
      if |dir| > 1 { assert dir[1..][|dir[1..]| - 1] == '/'; }
      LastSegment(dir[1..], name);
      if dir[0] != '/' { SplitsTwice(dir[1..], name); }
    }
  }

  lemma {:induction false} SplitsTwice(dir: string, name: string)
    requires dir != "" && dir[|dir| - 1] == '/'
    ensures |Split(dir + name)| > 1
  {
    assert (dir + name)[1..] == dir[1..] + name && (dir + name)[0] == dir[0];
    if |dir| > 1 {
      assert dir[1..][|dir[1..]| - 1] == '/';
      SplitsTwice(dir[1..], name);
    }
  }

  lemma {:induction false} KeepDotsLast(segments: seq<string>)
    requires segments != [] && segments[|segments| - 1] != ".."
    ensures |KeepDots(segments)| == |segments| && KeepDots(segments)[|segments| - 1] == segments[|segments| - 1]
  {
    if |segments| > 1 { KeepDotsLast(segments[1..]); }
  }

  lemma {:induction false} WalkEnds(at: Location, segments: seq<string>)
    requires segments != [] && IsName(segments[|segments| - 1])
    ensures var end := Walk(at, segments); end != [] && end[|end| - 1] == segments[|segments| - 1]
    decreases |segments|
  {
    if |segments| == 1 {
      assert segments[1..] == [];
      assert Walk(at + [segments[0]], []) == at + [segments[0]];
    } else if segments[0] == "" || segments[0] == "." {
      WalkEnds(at, segments[1..]);
    } else if segments[0] == ".." {
      WalkEnds(if at == [] then [] else at[..|at| - 1], segments[1..]);
    } else {
      WalkEnds(at + [segments[0]], segments[1..]);
    }
  }

  lemma {:induction false} DotFound(stem: string, extension: string)
    requires '.' !in extension
    ensures LastDot(stem + "." + extension) == |stem|
  {
    var s := stem + "." + extension;
    if extension == "" {
      assert s[|s| - 1] == '.';
    } else {
      var n := |extension| - 1;
      assert s[|s| - 1] == extension[n] && extension[n] in extension;
      assert s[..|s| - 1] == stem + "." + extension[..n];
      DotFound(stem, extension[..n]);
    }
  }

  /** The name `Path(filename).suffix` looks at. */
  function NameIn(filename: string): string {
    var parts := Walk([], KeepDots(Split(filename)));
    if parts == [] then "" else parts[|parts| - 1]
  }

  lemma {:induction false} NameFound(dir: string, name: string)
    requires name != "" && name != "." && '/' !in name && (dir == "" || dir[|dir| - 1] == '/')
    ensures NameIn(dir + name) == if name == ".." then "..." else name
  {
    LastSegment(dir, name);
    var segments := Split(dir + name);
    hide Split, KeepDots, Walk;
    if name == ".." {
      DotsOnly(segments);
    } else {
      KeepDotsLast(segments);
      WalkEnds([], KeepDots(segments));
    }
  }

  lemma {:induction false} SuffixOf(filename: string)
    ensures LastDot(NameIn(filename)) < |NameIn(filename)|
    ensures PathSuffix(filename)
         == var name := NameIn(filename); if 0 < LastDot(name) < |name| - 1 then name[LastDot(name)..] else ""
  {
    LastDotRange(NameIn(filename));
    hide Walk, KeepDots, Split, LastDot;
  }

  lemma {:induction false} SuffixIs(dir: string, stem: string, extension: string)
    requires stem != "" && '/' !in stem && '/' !in extension && '.' !in extension && (dir == "" || dir[|dir| - 1] == '/')
    ensures PathSuffix(dir + (stem + "." + extension)) == if extension == "" then "" else "." + extension
  {
    var name := stem + "." + extension;
    assert '/' !in name && |name| > 1;
    NameFound(dir, name);
    SuffixOf(dir + name);
    DotFound(stem, extension);
    ThreeDots();
    assert name[|stem|..] == "." + extension;
    assert name == ".." ==> extension == "" by { assert name[|stem|] == '.'; if name == ".." { assert |stem| == 1; } }
    hide NameIn, LastDot, PathSuffix;
  }

  lemma {:induction false} ThreeDots()
    ensures LastDot("...") == 2
  {
  }

  lemma {:induction false} DotsOnly(segments: seq<string>)
    requires segments != [] && segments[|segments| - 1] == ".."
    ensures var parts := Walk([], KeepDots(segments)); parts != [] && parts[|parts| - 1] == "..." && LastDot("...") == 2
  {
    KeepDotsEnd(segments);
    WalkEnds([], KeepDots(segments));
    hide Walk, KeepDots;
  }

  lemma {:induction false} KeepDotsEnd(segments: seq<string>)
    requires segments != [] && segments[|segments| - 1] == ".."
    ensures |KeepDots(segments)| == |segments| && KeepDots(segments)[|segments| - 1] == "..."
  {
    if |segments| > 1 { KeepDotsEnd(segments[1..]); }
  }

  lemma {:induction false} ListedExactly(extension: string)
    ensures Lower("." + extension) in {".pdf", ".txt", ".jpg", ".jpeg", ".png", ".bin"} <==> KeptExtension(extension)
  {
    DottedIs(extension, "pdf");
    DottedIs(extension, "txt");
    DottedIs(extension, "jpg");
    DottedIs(extension, "jpeg");
    DottedIs(extension, "png");
    DottedIs(extension, "bin");
    hide Lower, UpToCase;
    assert "." + "pdf" == ".pdf" && "." + "txt" == ".txt" && "." + "jpg" == ".jpg";
    assert "." + "jpeg" == ".jpeg" && "." + "png" == ".png" && "." + "bin" == ".bin";
  }

  lemma {:induction false} DottedIs(extension: string, listed: string)
    requires Lower(listed) == listed
    ensures Lower("." + extension) == "." + listed <==> UpToCase(extension, listed)
  {
    LowerExactly(extension, listed);
    hide UpToCase;
    assert Lower("." + extension) == "." + Lower(extension);
    assert ("." + listed)[1..] == listed && ("." + Lower(extension))[1..] == Lower(extension);
  }

  /** Of the name sent, wherever it says it lies, only a listed extension is kept, as it was
      written; every other file is a `.bin`. */
  lemma {:induction false} NamedExactly(document: Uuid, dir: string, stem: string, extension: string)
    requires stem != "" && '/' !in stem && '/' !in extension && '.' !in extension && (dir == "" || dir[|dir| - 1] == '/')
    ensures FileName(document, dir + (stem + "." + extension))
         == document + if KeptExtension(extension) then "." + extension else ".bin"
  {
    SuffixIs(dir, stem, extension);
    ListedExactly(extension);
    NothingListed();
    hide PathSuffix, KeptExtension, Lower;
  }

  /** The path an upload is stored under. */
  lemma {:induction false} StoredUnder(application: Uuid, document: Uuid, dir: string, stem: string, extension: string)
    requires stem != "" && '/' !in stem && '/' !in extension && '.' !in extension && (dir == "" || dir[|dir| - 1] == '/')
    ensures StoragePath(application, document, dir + (stem + "." + extension))
         == "s3://loan-agent-documents/" + application + "/" + (document + if KeptExtension(extension) then "." + extension else ".bin")
  {
    NamedExactly(document, dir, stem, extension);
    hide FileName, KeptExtension;
  }

  lemma {:induction false} NothingListed()
    ensures Lower("") !in {".pdf", ".txt", ".jpg", ".jpeg", ".png", ".bin"} && !KeptExtension("")
  {
    assert |Lower("")| == 0;
  }

  lemma {:induction false} NoDot(s: string)
    requires '.' !in s
    ensures LastDot(s) == -1
  {
    if s != "" { NoDot(s[..|s| - 1]); }
  }

  lemma {:induction false} NoDotSegments(s: string)
    requires '.' !in s
    ensures forall segment | segment in Split(s) :: '.' !in segment
  {
    if s != "" { NoDotSegments(s[1..]); }
  }

  lemma {:induction false} NoDotWalk(at: Location, segments: seq<string>)
    requires (forall name | name in at :: '.' !in name) && forall segment | segment in segments :: '.' !in segment
    ensures forall name | name in Walk(at, KeepDots(segments)) :: '.' !in name
    decreases |segments|
  {
    if segments != [] {
      var first := segments[0];
      assert first in segments && first != ".." && first != ".";
      forall segment | segment in segments[1..] ensures segment in segments {}
      assert KeepDots(segments)[1..] == KeepDots(segments[1..]) && KeepDots(segments)[0] == first;
      NoDotWalk(if first == "" then at else at + [first], segments[1..]);
    }
  }

  lemma {:induction false} NoDotName(filename: string)
    requires '.' !in filename
    ensures '.' !in NameIn(filename)
  {
    NoDotSegments(filename);
    NoDotWalk([], Split(filename));
    hide Walk, KeepDots, Split;
  }

  lemma {:induction false} NoDotSuffix(filename: string)
    requires '.' !in filename
    ensures PathSuffix(filename) == ""
  {
    NoDotName(filename);
    NoDot(NameIn(filename));
    SuffixOf(filename);
    hide NameIn, PathSuffix, LastDot;
  }

  lemma {:induction false} BinKept()
    ensures KeptExtension("bin")
  {
    hide LowerChar;
    assert UpToCase("bin", "bin");
  }

  lemma {:induction false} UploadIsBin(document: Uuid)
    ensures FileName(document, "upload.bin") == document + ".bin"
  {
    BinKept();
    hide FileName, KeptExtension;
    NamedExactly(document, "", "upload", "bin");
    assert "" + ("upload" + "." + "bin") == "upload.bin";
    assert "." + "bin" == ".bin";
  }

  /** A name without a dot gives a `.bin`, and so does an upload without a name. */
  lemma {:induction false} UnnamedIsBin(document: Uuid, filename: string, attachment: Attachment)
    requires '.' !in filename && (attachment.filename == None || attachment.filename == Some(""))
    ensures FileName(document, filename) == document + ".bin" && FileName(document, UploadName(attachment)) == document + ".bin"
  {
    NoDotSuffix(filename);
    NothingListed();
    UploadIsBin(document);
    hide PathSuffix, Lower, KeptExtension;
  }

  // ----- What writing a document leaves alone -----

  lemma {:induction false} SuffixLength(filename: string)
    ensures 4 <= |SafeSuffix(filename)| <= 5
  {
    var suffix := PathSuffix(filename);
    hide PathSuffix;
    assert |Lower(suffix)| == |suffix|;
  }

  /** The temporary file of one document is no document's file. */
  lemma {:induction false} TemporaryIsNobodys(root: Location, a: Uuid, d: Uuid, f: string, a': Uuid, d': Uuid, f': string)
    ensures TemporaryFor(Target(root, a, d, f)) != Target(root, a', d', f')
    ensures TemporaryFor(Target(root, a, d, f)) == root + [a, FileName(d, f) + ".tmp"]
  {
    SuffixLength(f);
    SuffixLength(f');
    hide SafeSuffix;
    var x, y := TemporaryFor(Target(root, a, d, f)), Target(root, a', d', f');
    assert x[|root| + 1] == FileName(d, f) + ".tmp" && y[|root| + 1] == FileName(d', f');
    assert x == root + [a, FileName(d, f) + ".tmp"];
  }

  /** Writing a document changes no other document's file. */
  lemma {:induction false} OthersUntouched(files: map<Location, Bytes>, root: Location, a: Uuid, d: Uuid, f: string, payload: Bytes,
                                           a': Uuid, d': Uuid, f': string)
    requires (a != a' || d != d') && Target(root, a', d', f') in files
    ensures var files' := (files - {TemporaryFor(Target(root, a, d, f))})[Target(root, a, d, f) := payload];
            Target(root, a', d', f') in files' && files'[Target(root, a', d', f')] == files[Target(root, a', d', f')]
  {
    TargetsDistinct(root, a, d, f, a', d', f');
    TemporaryIsNobodys(root, a, d, f, a', d', f');
    hide Target, TemporaryFor;
  }
}
