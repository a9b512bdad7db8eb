/** The texts of the names that a restore accepts. */
module RestoreNames {
  import opened Wrappers
  import opened Restore

  const GENERATED := "build" + "/" + "generated-release"
  const RELEASE := "build" + "/" + "release"
  const DIST := "build" + "/" + "dist"
  const EVIDENCE := "tests" + "/" + "evidence"

  const FILES: seq<string> := [
    GENERATED + "/" + "guest.json", GENERATED + "/" + "regeneration.json", GENERATED + "/" + "mariamem.wasm",
    GENERATED + "/" + "link.txt", GENERATED + "/" + "flags.make", GENERATED + "/" + "CMakeCache.txt",
    RELEASE + "/" + "generated-source.json", EVIDENCE + "/" + "alpha-wheel.json",
    RELEASE + "/" + "runtime-validation.json"
  ]

  const FOLDERS: seq<string> := ["build", GENERATED, RELEASE, DIST, "tests", EVIDENCE]

  /** `text` is the prefix, something, and the suffix, and what follows the last slash of the prefix has no slash. */
  ghost predicate Matches(text: string, folder: string, start: string, end: string) {
    exists last: string :: text == folder + "/" + last && '/' !in last && start <= last && EndsWith(last, end)
  }

  /** The file names that may be restored. */
  ghost predicate AcceptedText(text: string) {
    || text in FILES
    || Matches(text, RELEASE, "mariamem-", "-corresponding-source.tar.gz")
    || Matches(text, DIST, "mariamem-", ".whl")
  }

  lemma JoinedTwo(a: string, b: string)
    ensures Joined([a, b]) == a + "/" + b
  {
    assert [a, b][1..] == [b];
  }

  lemma JoinedThree(a: string, b: string, c: string)
    ensures Joined([a, b, c]) == a + "/" + b + "/" + c
  {
    assert [a, b, c][1..] == [b, c];
    JoinedTwo(b, c);
  }

  /** The parts of the exact names, and of the directories, in the same order. */
  function FileParts(i: nat): Path
    requires i < 9
  {
    if i == 0 then ["build", "generated-release", "guest.json"]
    else if i == 1 then ["build", "generated-release", "regeneration.json"]
    else if i == 2 then ["build", "generated-release", "mariamem.wasm"]
    else if i == 3 then ["build", "generated-release", "link.txt"]
    else if i == 4 then ["build", "generated-release", "flags.make"]
    else if i == 5 then ["build", "generated-release", "CMakeCache.txt"]
    else if i == 6 then ["build", "release", "generated-source.json"]
    else if i == 7 then ["tests", "evidence", "alpha-wheel.json"]
    else ["build", "release", "runtime-validation.json"]
  }

  function FolderParts(i: nat): Path
    requires i < 6
  {
    if i == 0 then ["build"] else if i == 1 then ["build", "generated-release"]
    else if i == 2 then ["build", "release"] else if i == 3 then ["build", "dist"]
    else if i == 4 then ["tests"] else ["tests", "evidence"]
  }

  lemma FileText(i: nat)
    requires i < 9
    ensures FileParts(i) in EXACT && |FileParts(i)| == 3 && Joined(FileParts(i)) == FILES[i]
  {
    var p := FileParts(i);
    JoinedThree(p[0], p[1], p[2]);
  }

  lemma FolderTextAt(i: nat)
    requires i < 6
    ensures FolderParts(i) in DIRECTORIES && Joined(FolderParts(i)) == FOLDERS[i]
  {
    var p := FolderParts(i);
    if |p| == 2 { JoinedTwo(p[0], p[1]); }
  }

  lemma ExactAt(parts: Path) returns (i: nat)
    requires parts in EXACT
    ensures i < 9 && parts == FileParts(i)
  {
    i := if parts == FileParts(0) then 0 else if parts == FileParts(1) then 1 else if parts == FileParts(2) then 2
         else if parts == FileParts(3) then 3 else if parts == FileParts(4) then 4 else if parts == FileParts(5) then 5
         else if parts == FileParts(6) then 6 else if parts == FileParts(7) then 7 else 8;
  }

  lemma DirectoryAt(parts: Path) returns (i: nat)
    requires parts in DIRECTORIES
    ensures i < 6 && parts == FolderParts(i)
  {
    i := if parts == FolderParts(0) then 0 else if parts == FolderParts(1) then 1 else if parts == FolderParts(2) then 2
         else if parts == FolderParts(3) then 3 else if parts == FolderParts(4) then 4 else 5;
  }

  /** Two clean paths with the same text are the same. */
  lemma JoinedIsInjective(a: Path, b: Path)
    requires CleanParts(a) && CleanParts(b) && Joined(a) == Joined(b)
    ensures a == b
  {
    JoinedIsRead(a);
    JoinedIsRead(b);
  }

  lemma ExactIsClean(parts: Path)
    requires parts in EXACT || parts in DIRECTORIES
    ensures CleanParts(parts)
  {
  }

  lemma ExactTexts(parts: Path)
    requires CleanParts(parts)
    ensures parts in EXACT <==> Joined(parts) in FILES
  {
    if parts in EXACT {
      var i := ExactAt(parts);
      FileText(i);
    }
    if Joined(parts) in FILES {
      var i: nat :| i < |FILES| && FILES[i] == Joined(parts);
      FileText(i);
      ExactIsClean(FileParts(i));
      JoinedIsInjective(parts, FileParts(i));
    }
  }

  lemma TextFromFolder(a: string, b: string, parts: Path, start: string, end: string)
    requires CleanParts(parts) && |parts| == 3 && parts[0] == a && parts[1] == b
    requires start <= parts[2] && EndsWith(parts[2], end)
    ensures Matches(Joined(parts), a + "/" + b, start, end)
  {
    assert parts == [a, b, parts[2]];
    JoinedThree(a, b, parts[2]);
    assert CleanPart(parts[2]);
  }

  lemma NamedIsClean(start: string, last: string)
    requires |start| > 1 && start <= last && '/' !in last
    ensures CleanPart(last)
  {
  }

  lemma FolderOfText(a: string, b: string, last: string, parts: Path)
    requires CleanParts(parts) && CleanPart(a) && CleanPart(b) && CleanPart(last)
    requires Joined(parts) == a + "/" + b + "/" + last
    ensures parts == [a, b, last]
  {
    JoinedThree(a, b, last);
    JoinedIsInjective(parts, [a, b, last]);
  }

  lemma FolderFromText(a: string, b: string, parts: Path, start: string, end: string)
    requires CleanParts(parts) && CleanPart(a) && CleanPart(b) && |start| > 1
    requires Matches(Joined(parts), a + "/" + b, start, end)
    ensures |parts| == 3 && parts[0] == a && parts[1] == b && start <= parts[2] && EndsWith(parts[2], end)
  {
    var last: string :| Joined(parts) == a + "/" + b + "/" + last && '/' !in last && start <= last && EndsWith(last, end);
    NamedIsClean(start, last);
    FolderOfText(a, b, last, parts);
  }

  lemma FolderText(a: string, b: string, parts: Path, start: string, end: string)
    requires CleanParts(parts) && CleanPart(a) && CleanPart(b) && |start| > 1
    ensures Matches(Joined(parts), a + "/" + b, start, end)
       <==> |parts| == 3 && parts[0] == a && parts[1] == b && start <= parts[2] && EndsWith(parts[2], end)
  {
    if |parts| == 3 && parts[0] == a && parts[1] == b && start <= parts[2] && EndsWith(parts[2], end) {
      TextFromFolder(a, b, parts, start, end);
    }
    if Matches(Joined(parts), a + "/" + b, start, end) { FolderFromText(a, b, parts, start, end); }
  }

  /** A restore accepts a regular file iff the text of its normalised name is one of the nine exact names, a source
      archive directly in build/release, or a wheel directly in build/dist. */
  lemma AllowedIff(parts: Path)
    requires CleanParts(parts)
    ensures Allowed(parts, false) <==> AcceptedText(Joined(parts))
  {
    ExactTexts(parts);
    FolderText("build", "release", parts, "mariamem-", "-corresponding-source.tar.gz");
    FolderText("build", "dist", parts, "mariamem-", ".whl");
  }

  /** And a directory iff the text is one of six. */
  lemma AllowedDirectoryIff(parts: Path)
    requires CleanParts(parts)
    ensures Allowed(parts, true) <==> Joined(parts) in FOLDERS
  {
    if parts in DIRECTORIES {
      var i := DirectoryAt(parts);
      FolderTextAt(i);
    }
    if Joined(parts) in FOLDERS {
      var i: nat :| i < |FOLDERS| && FOLDERS[i] == Joined(parts);
      FolderTextAt(i);
      ExactIsClean(FolderParts(i));
      JoinedIsInjective(parts, FolderParts(i));
    }
  }
}
