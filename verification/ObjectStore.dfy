/** object_store.py: where a document is written, and where a stored path leads back.
    A location is the list of segments of an absolute path; there are no links. */
module ObjectStore {
  import opened Basics

  type Location = seq<string>
  type Bytes = seq<bv8>

  const S3_PREFIX := "s3://loan-agent-documents/"

  function Split(s: string): (segments: seq<string>)
    ensures segments != []
  {
    if s == "" then [""]
    else
      var rest := Split(s[1..]);
      if s[0] == '/' then [""] + rest else [[s[0]] + rest[0]] + rest[1..]
  }

  /** `resolve()` of the segments below `at`. */
  function Walk(at: Location, segments: seq<string>): Location
    decreases |segments|
  {
    if segments == [] then at
    else if segments[0] == "" || segments[0] == "." then Walk(at, segments[1..])
    else if segments[0] == ".." then Walk(if at == [] then [] else at[..|at| - 1], segments[1..])
    else Walk(at + [segments[0]], segments[1..])
  }

  /** The local file a storage path stands for, if it may be read for this application. */
  function LocalDocumentPath(root: Location, application: Uuid, s3Path: Option<string>): Option<Location> {
    if s3Path.None? || !StartsWith(s3Path.value, S3_PREFIX) then None
    else
      var relative := s3Path.value[|S3_PREFIX|..];
      if !StartsWith(relative, application + "/") then None
      else
        var candidate := Walk(root, Split(relative));
        if root <= candidate then Some(candidate) else None
  }

  /** `str(path)` */
  function PathText(location: Location): string { if location == [] then "/" else Slashed(location) }

  function Slashed(location: Location): string {
    if location == [] then "" else Slashed(location[..|location| - 1]) + "/" + location[|location| - 1]
  }

  function LastDot(s: string): int {
    if s == "" then -1 else if s[|s| - 1] == '.' then |s| - 1 else LastDot(s[..|s| - 1])
  }

  lemma {:induction false} LastDotRange(s: string)
    ensures -1 <= LastDot(s) < |s|
  {
    if s != "" && s[|s| - 1] != '.' { LastDotRange(s[..|s| - 1]); }
  }

  /** `Path(filename).suffix` */
  function PathSuffix(filename: string): string {
    var parts := Walk([], KeepDots(Split(filename)));
    var name := if parts == [] then "" else parts[|parts| - 1];
    LastDotRange(name);
    if 0 < LastDot(name) < |name| - 1 then name[LastDot(name)..] else ""
  }

  /** `..` segments are names like any other when only the last name is asked for. */
  function KeepDots(segments: seq<string>): seq<string> {
    if segments == [] then [] else [if segments[0] == ".." then "..." else segments[0]] + KeepDots(segments[1..])
  }

  function SafeSuffix(filename: string): string {
    var suffix := PathSuffix(filename);
    if Lower(suffix) in {".pdf", ".txt", ".jpg", ".jpeg", ".png", ".bin"} then suffix else ".bin"
  }

  function FileName(document: Uuid, filename: string): string { document + SafeSuffix(filename) }

  function Target(root: Location, application: Uuid, document: Uuid, filename: string): Location {
    root + [application, FileName(document, filename)]
  }

  function StoragePath(application: Uuid, document: Uuid, filename: string): string {
    S3_PREFIX + application + "/" + FileName(document, filename)
  }

  /** The files below the data directory. */
  class FileStore {
    const root: Location
    var files: map<Location, Bytes>

    constructor (root: Location)
      ensures this.root == root && files == map[]
    {
      this.root := root;
      files := map[];
    }

    /** Writes beside the target and renames: the target changes in one step, the
        temporary file is gone, no other file changes. */
    method AtomicWriteBytes(target: Location, payload: Bytes)
      requires target != []
      modifies this
      ensures files == (old(files) - {TemporaryFor(target)})[target := payload]
    {
      var tmp := TemporaryFor(target);
      files := files[tmp := payload];
      TemporaryIsOther(target);
      files := (files - {tmp})[target := files[tmp]];
    }

    method PersistDocument(application: Uuid, document: Uuid, filename: string, payload: Bytes) returns (path: string)
      modifies this
      ensures path == StoragePath(application, document, filename)
      ensures LocalDocumentPath(root, application, Some(path)) == Some(Target(root, application, document, filename))
      ensures files == (old(files) - {TemporaryFor(Target(root, application, document, filename))})
                       [Target(root, application, document, filename) := payload]
    {
      var target := root + [application, FileName(document, filename)];
      AtomicWriteBytes(target, payload);
      path := StoragePath(application, document, filename);
      StoragePathReadsBack(root, application, document, filename);
    }
  }

  function TemporaryFor(target: Location): Location
    requires target != []
  {
    target[..|target| - 1] + [target[|target| - 1] + ".tmp"]
  }

  lemma {:induction false} TemporaryIsOther(target: Location)
    requires target != []
    ensures TemporaryFor(target) != target
  {
    assert TemporaryFor(target)[|target| - 1] != target[|target| - 1];
  }

  // ----- A written document is found again -----

  lemma {:induction false} SplitAt(a: string, b: string)
    requires '/' !in a
    ensures Split(a + "/" + b) == [a] + Split(b)
  {
    var s := a + "/" + b;
    if a == "" {
      assert s == "/" + b && s[1..] == b;
    } else {
      SplitAt(a[1..], b);
      assert s[1..] == a[1..] + "/" + b && s[0] == a[0];
      assert a == [a[0]] + a[1..];
    }
  }

  lemma {:induction false} SplitSingle(a: string)
    requires '/' !in a
    ensures Split(a) == [a]
  {
    if a != "" {
      SplitSingle(a[1..]);
      assert a == [a[0]] + a[1..];
    }
  }

  predicate IsName(segment: string) {
    segment != "" && segment != "." && segment != ".." && '/' !in segment
  }

  lemma {:induction false} SafeSuffixNoSlash(filename: string)
    ensures '/' !in SafeSuffix(filename)
  {
    var suffix := SafeSuffix(filename);
    hide PathSuffix;
    assert '/' !in ".pdf" && '/' !in ".txt" && '/' !in ".jpg" && '/' !in ".jpeg" && '/' !in ".png" && '/' !in ".bin";
    assert Lower(".bin") == ".bin";
    assert '/' !in Lower(suffix);
    forall i | 0 <= i < |suffix| ensures suffix[i] != '/' { assert Lower(suffix)[i] in Lower(suffix); }
  }

  lemma {:induction false} FileNameIsName(document: Uuid, filename: string)
    ensures IsName(FileName(document, filename)) && IsName(document)
    ensures FileName(document, filename)[..36] == document
  {
    SafeSuffixNoSlash(filename);
  }

  lemma {:induction false} WalkName(at: Location, name: string, rest: seq<string>)
    requires IsName(name)
    ensures Walk(at, [name] + rest) == Walk(at + [name], rest)
  {
    assert ([name] + rest)[1..] == rest;
  }

  lemma {:induction false} OwnPath(root: Location, application: Uuid, rest: string)
    ensures LocalDocumentPath(root, application, Some(S3_PREFIX + application + "/" + rest))
         == if root <= Walk(root + [application], Split(rest)) then Some(Walk(root + [application], Split(rest))) else None
  {
    var path, relative := S3_PREFIX + application + "/" + rest, application + "/" + rest;
    assert path == S3_PREFIX + relative && path[|S3_PREFIX|..] == relative;
    assert IsName(application) by { FileNameIsName(application, ""); }
    SplitAt(application, rest);
    WalkName(root, application, Split(rest));
  }

  /** The storage path of a written document leads to exactly the file written. */
  lemma {:induction false} StoragePathReadsBack(root: Location, application: Uuid, document: Uuid, filename: string)
    ensures LocalDocumentPath(root, application, Some(StoragePath(application, document, filename)))
         == Some(Target(root, application, document, filename))
  {
    var name := FileName(document, filename);
    FileNameIsName(document, filename);
    OwnPath(root, application, name);
    hide FileName, LocalDocumentPath;
    SplitSingle(name);
    WalkName(root + [application], name, []);
    assert [name] + [] == [name];
    assert root + [application] + [name] == Target(root, application, document, filename);
  }

  /** Different documents are different files. */
  lemma {:induction false} TargetsDistinct(root: Location, a1: Uuid, d1: Uuid, f1: string, a2: Uuid, d2: Uuid, f2: string)
    requires a1 != a2 || d1 != d2
    ensures Target(root, a1, d1, f1) != Target(root, a2, d2, f2)
  {
    FileNameIsName(d1, f1);
    FileNameIsName(d2, f2);
    hide FileName;
    var x, y := Target(root, a1, d1, f1), Target(root, a2, d2, f2);
    assert x[|root|] == a1 && y[|root|] == a2;
    assert x[|root| + 1] == FileName(d1, f1) && y[|root| + 1] == FileName(d2, f2);
  }

  // ----- Where a caller's own path can lead -----

  lemma {:induction false} SegmentsAreSubstrings(s: string)
    ensures forall segment | segment in Split(s) :: Substring(segment, s)
    ensures StartsWith(s, Split(s)[0])
  {
    if s == "" {
      SubstringIntro("", "", "");
    } else {
      var rest := Split(s[1..]);
      SegmentsAreSubstrings(s[1..]);
      assert s == [s[0]] + s[1..];
      forall segment | segment in Split(s) ensures Substring(segment, s) {
        if segment in rest {
          SubstringWiden(segment, [s[0]], s[1..], "");
          assert [s[0]] + s[1..] + "" == s;
        } else if segment == "" {
          assert OccursAt("", s, 0);
        } else {
          assert segment == [s[0]] + rest[0];
          assert OccursAt(segment, s, 0);
        }
      }
    }
  }

  lemma {:induction false} WalkAppend(at: Location, a: seq<string>, b: seq<string>)
    ensures Walk(at, a + b) == Walk(Walk(at, a), b)
    decreases |a|
  {
    if a == [] {
      assert a + b == b;
    } else {
      assert (a + b)[1..] == a[1..] + b && (a + b)[0] == a[0];
      var next := if a[0] == "" || a[0] == "." then at
                  else if a[0] == ".." then (if at == [] then [] else at[..|at| - 1])
                  else at + [a[0]];
      WalkAppend(next, a[1..], b);
    }
  }

  lemma {:induction false} WalkOne(at: Location, segment: string)
    ensures Walk(at, [segment]) == if segment == "" || segment == "." then at
                                   else if segment == ".." then (if at == [] then [] else at[..|at| - 1])
                                   else at + [segment]
  {
    assert [segment][1..] == [];
  }

  /** Empty and one-dot segments lead nowhere, and two dots undo a name. */
  lemma {:induction false} WalkPast(at: Location, a: seq<string>, name: string, b: seq<string>)
    requires IsName(name)
    ensures Walk(at, a + [""] + b) == Walk(at, a + b) && Walk(at, a + ["."] + b) == Walk(at, a + b)
    ensures Walk(at, a + [name] + [".."] + b) == Walk(at, a + b)
  {
    var here := Walk(at, a);
    WalkAppend(at, a, b);
    WalkAppend(at, a + [""], b);
    WalkAppend(at, a, [""]);
    WalkAppend(at, a + ["."], b);
    WalkAppend(at, a, ["."]);
    WalkAppend(at, a + [name] + [".."], b);
    WalkAppend(at, a + [name], [".."]);
    WalkAppend(at, a, [name]);
    WalkOne(here, "");
    WalkOne(here, ".");
    WalkOne(here, name);
    WalkOne(here + [name], "..");
    hide Walk;
    assert (here + [name])[..|here|] == here;
  }

  lemma {:induction false} WalkDown(at: Location, segments: seq<string>)
    requires ".." !in segments
    ensures at <= Walk(at, segments)
    decreases |segments|
  {
    if segments != [] {
      if segments[0] == "" || segments[0] == "." {
        WalkDown(at, segments[1..]);
      } else {
        WalkDown(at + [segments[0]], segments[1..]);
      }
    }
  }

  /** A path without `..` leads nowhere or into the application's own directory. */
  lemma {:induction false} PathStaysWithApplication(root: Location, application: Uuid, path: string)
    requires !Substring("..", path)
    ensures var local := LocalDocumentPath(root, application, Some(path));
            local.Some? ==> root + [application] <= local.value
  {
    if StartsWith(path, S3_PREFIX) && StartsWith(path[|S3_PREFIX|..], application + "/") {
      var rest := path[|S3_PREFIX| + 37..];
      var front := S3_PREFIX + application + "/";
      assert path == front + rest;
      OwnPath(root, application, rest);
      SegmentsAreSubstrings(rest);
      forall segment | segment in Split(rest) ensures segment != ".." {
        SubstringWiden(segment, front, rest, "");
        assert front + rest + "" == path;
      }
      WalkDown(root + [application], Split(rest));
    }
  }

  /** The segments lead above where they started, from d names below it. */
  predicate Climbs(segments: seq<string>, d: nat)
    decreases |segments|
  {
    segments != []
    && if segments[0] == "" || segments[0] == "." then Climbs(segments[1..], d)
       else if segments[0] == ".." then d == 0 || Climbs(segments[1..], d - 1)
       else Climbs(segments[1..], d + 1)
  }

  lemma {:induction false} StaysBelow(start: Location, at: Location, segments: seq<string>)
    requires start <= at && !Climbs(segments, |at| - |start|)
    ensures start <= Walk(at, segments)
    decreases |segments|
  {
    if segments != [] {
      if segments[0] == "" || segments[0] == "." {
        StaysBelow(start, at, segments[1..]);
      } else if segments[0] == ".." {
        StaysBelow(start, at[..|at| - 1], segments[1..]);
      } else {
        StaysBelow(start, at + [segments[0]], segments[1..]);
      }
    }
  }

  /** Not below start, and not to come there without naming its last segment. */
  predicate Outside(start: Location, at: Location)
    requires start != []
  {
    |at| < |start| || at[|start| - 1] != start[|start| - 1]
  }

  lemma {:induction false} StaysOutside(start: Location, at: Location, segments: seq<string>)
    requires start != [] && Outside(start, at) && start[|start| - 1] !in segments
    ensures !(start <= Walk(at, segments))
    decreases |segments|
  {
    if segments != [] {
      if segments[0] == "" || segments[0] == "." {
        StaysOutside(start, at, segments[1..]);
      } else if segments[0] == ".." {
        StaysOutside(start, if at == [] then [] else at[..|at| - 1], segments[1..]);
      } else {
        StaysOutside(start, at + [segments[0]], segments[1..]);
      }
    }
  }

  lemma {:induction false} ClimbsOut(start: Location, at: Location, segments: seq<string>)
    requires start != [] && start <= at && Climbs(segments, |at| - |start|) && start[|start| - 1] !in segments
    ensures !(start <= Walk(at, segments))
    decreases |segments|
  {
    if segments[0] == "" || segments[0] == "." {
      ClimbsOut(start, at, segments[1..]);
    } else if segments[0] != ".." {
      ClimbsOut(start, at + [segments[0]], segments[1..]);
    } else if at == start {
      StaysOutside(start, at[..|at| - 1], segments[1..]);
    } else {
      ClimbsOut(start, at[..|at| - 1], segments[1..]);
    }
  }

  /** A path that never climbs above its application's directory is read from there; one
      that climbs, without naming the application again, is not. */
  lemma {:induction false} LeavesExactly(root: Location, application: Uuid, rest: string)
    ensures var local := LocalDocumentPath(root, application, Some(S3_PREFIX + application + "/" + rest));
            && (!Climbs(Split(rest), 0) ==> local.Some? && root + [application] <= local.value)
            && (Climbs(Split(rest), 0) && application !in Split(rest) && local.Some? ==> !(root + [application] <= local.value))
  {
    OwnPath(root, application, rest);
    hide LocalDocumentPath, Climbs, Walk, Split;
    var start, segments := root + [application], Split(rest);
    if !Climbs(segments, 0) {
      StaysBelow(start, start, segments);
      assert root <= start;
    } else if application !in segments {
      ClimbsOut(start, start, segments);
    }
  }

  /** The resolver alone promises only the common root: with a parent segment a path
      of one application leads into the directory of another. */
  lemma {:induction false} ParentSegmentLeavesApplication(root: Location, application: Uuid, other: Uuid)
    requires application != other
    ensures var path := S3_PREFIX + application + "/../" + other + "/a.txt";
            LocalDocumentPath(root, application, Some(path)) == Some(root + [other, "a.txt"])
  {
    var name := "a.txt";
    assert '/' !in ".." && '/' !in name;
    FileNameIsName(other, "");
    SplitAt("..", other + "/" + name);
    SplitAt(other, name);
    SplitSingle(name);
    var rest := ".." + "/" + (other + "/" + name);
    assert S3_PREFIX + application + "/../" + other + "/a.txt" == S3_PREFIX + application + "/" + rest by {
      ParentPathFraming(S3_PREFIX + application, other);
    }
    OwnPath(root, application, rest);
    assert IsName(name);
    hide LocalDocumentPath, Split, IsName;
    var at := root + [application];
    assert Split(rest) == [".."] + ([other] + [name]);
    assert ([".."] + ([other] + [name]))[1..] == [other] + [name] && at[..|at| - 1] == root;
    assert Walk(at, [".."] + ([other] + [name])) == Walk(root, [other] + [name]);
    WalkName(root, other, [name]);
    WalkName(root + [other], name, []);
    assert [name] + [] == [name] && root + [other] + [name] == root + [other, name];
  }

  lemma {:induction false} ParentPathFraming(front: string, other: string)
    ensures front + "/../" + other + "/a.txt" == front + "/" + (".." + "/" + (other + "/" + "a.txt"))
  {
    assert "/../" == "/" + ".." + "/" && "/a.txt" == "/" + "a.txt";
  }
}
