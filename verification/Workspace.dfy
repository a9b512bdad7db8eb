/** Preserve before delete, scripts/experiment_workspace.py: a scratch tree is removed only after every file that
    nothing else represents has an identical copy under the evidence directory. */
module Workspace {
  import opened Wrappers
  import opened Hex

  type Path = seq<string>
  type Bytes = seq<int>

  /** A directory tree as os.walk meets it. Links are never followed. */
  datatype Node = File(content: Bytes) | Link | Dir(entries: seq<Entry>)
  datatype Entry = Entry(name: string, node: Node)

  datatype Result<T> = Ok(value: T) | Raised

  /** `leaf` stands at `path` below `node`; the way there leads through real directories only. */
  ghost predicate At(node: Node, path: Path, leaf: Node)
    decreases |path|
  {
    if path == [] then node == leaf
    else node.Dir? && exists i :: 0 <= i < |node.entries| && node.entries[i].name == path[0]
                                  && At(node.entries[i].node, path[1..], leaf)
  }

  // ---------- names ----------

  function LastDot(name: string): int {
    if name == [] then -1 else if name[|name| - 1] == '.' then |name| - 1 else LastDot(name[..|name| - 1])
  }

  /** Path.suffix */
  function Suffix(name: string): string {
    var i := LastDot(name);
    if 0 < i < |name| - 1 then name[i..] else []
  }

  function Lower(s: string): string {
    if s == [] then []
    else [if 'A' <= s[0] <= 'Z' then s[0] + ' ' else s[0]] + Lower(s[1..])
  }

  predicate Contains(s: string, part: string) {
    exists i :: 0 <= i <= |s| && part <= s[i..]
  }

  const EVIDENCE_EXTENSIONS: seq<string> := [
    "md", "json", "jsonl", "csv", "tsv", "log", "txt", "pprof", "heap", "prof", "profile", "sha256", "sha512", "gz"
  ]
  const SOURCE_EXTENSIONS: seq<string> := ["go", "py", "sh", "c", "cpp", "h", "inc", "patch", "s"]
  const OUTPUT_EXTENSIONS: seq<string> := ["o", "a", "so", "dylib", "wasm", "pyc"]

  function Dotted(extensions: seq<string>): set<string> { set ext | ext in extensions :: "." + ext }

  const EVIDENCE := Dotted(EVIDENCE_EXTENSIONS)
  const SOURCE := Dotted(SOURCE_EXTENSIONS)
  const OUTPUT := Dotted(OUTPUT_EXTENSIONS)
  const CACHES: set<string> := {
    "cache", "gocache", "gomodcache", "mod-cache", "downloads", "tools", "toolchain", "node_modules", ".venv", "venv"
  }
  const SKIPPED: set<string> := {".git", "__pycache__", ".pytest_cache"}
  const SIZE_LIMIT: nat := 8 * 1024 * 1024

  predicate IsEvidence(name: string) {
    Suffix(name) in EVIDENCE || Contains(Lower(name), "sha256") || Contains(Lower(name), "checksum")
  }

  /** [0-9a-f]{64}-[ad] */
  predicate IsCacheKey(name: string) {
    |name| == 66 && (forall i | 0 <= i < 64 :: IsHex(name[i])) && name[64] == '-' && (name[65] == 'a' || name[65] == 'd')
  }

  /** The magic numbers of archives, Go objects, ELF and Mach-O files. */
  predicate HasOutputHeader(content: Bytes) {
    || [33, 60, 97, 114, 99, 104, 62, 10] <= content
    || [103, 111, 32, 111, 98, 106, 101, 99, 116, 32] <= content
    || [127, 69, 76, 70] <= content
    || [207, 250, 237, 254] <= content
  }

  // ---------- what makes a file expendable ----------

  /** What Git, and the policy file, answer. Paths of `tracked` and `inspected` are relative to the tree's root,
      those of `reproducible` and `keep` to the workspace. */
  datatype World = World(
    tracked: set<Path>,
    committed: set<Bytes>,        // blobs reachable from any ref
    reproducible: set<Path>,
    inspected: set<Path>)         // directories whose nested checkout passed inspection

  predicate Reproduced(w: World, area: string, path: Path) {
    exists r :: r in w.reproducible && r <= [area] + path
  }

  predicate KnownOutput(path: Path, content: Bytes)
    requires path != []
  {
    var name := path[|path| - 1];
    || Suffix(name) in OUTPUT
    || (IsCacheKey(name) && exists i :: 0 <= i < |path| - 1 && path[i] in CACHES)
    || HasOutputHeader(content)
  }

  /** Represented by something other than the evidence directory. */
  predicate Expendable(w: World, area: string, path: Path, content: Bytes)
    requires path != []
  {
    var name := path[|path| - 1];
    || name == ".git"
    || path in w.tracked
    || Reproduced(w, area, path)
    || ((Suffix(name) in SOURCE || IsEvidence(name)) && content in w.committed)
    || (KnownOutput(path, content) && !IsEvidence(name))
  }

  /** No directory on the way is one the walk prunes. */
  predicate Walked(path: Path) { forall i | 0 <= i < |path| - 1 :: path[i] !in SKIPPED }

  /** A regular file that only the tree holds. */
  ghost predicate Unique(w: World, area: string, tree: Node, path: Path, content: Bytes) {
    path != [] && At(tree, path, File(content)) && Walked(path) && !Expendable(w, area, path, content)
  }

  // ---------- the scan ----------

  /** The checks made on one file of a directory whose own path is `parent`: skip it, list it, or raise. */
  method ScanFile(w: World, area: string, path: Path, content: Bytes) returns (r: Result<bool>)
    requires path != []
    ensures Expendable(w, area, path, content) ==> r == Ok(false)
    ensures !Expendable(w, area, path, content) ==> r == if |content| > SIZE_LIMIT then Raised else Ok(true)
  {
    var name := path[|path| - 1];
    if name == ".git" { return Ok(false); }
    if path in w.tracked { return Ok(false); }
    if Reproduced(w, area, path) { return Ok(false); }
    if (Suffix(name) in SOURCE || IsEvidence(name)) && content in w.committed { return Ok(false); }
    if KnownOutput(path, content) && !IsEvidence(name) { return Ok(false); }
    if |content| > SIZE_LIMIT { return Raised; }
    r := Ok(true);
  }

  predicate HasGit(node: Node) { node.Dir? && exists i :: 0 <= i < |node.entries| && node.entries[i].name == ".git" }

  /** The walk may go on at this directory. */
  predicate GitOk(w: World, parent: Path, node: Node) {
    parent == [] || !HasGit(node) || parent in w.inspected
  }

  /** `path` continues `parent`, and the rest of it is walked from there. */
  ghost predicate UniqueBelow(w: World, area: string, parent: Path, node: Node, rest: Path, content: Bytes) {
    rest != [] && At(node, rest, File(content)) && Walked(rest) && !Expendable(w, area, parent + rest, content)
  }

  ghost predicate ListsUnique(w: World, area: string, parent: Path, node: Node, found: seq<(Path, Bytes)>) {
    && (forall rest, content | UniqueBelow(w, area, parent, node, rest, content) :: (parent + rest, content) in found)
    && (forall f | f in found :: |f.1| <= SIZE_LIMIT && parent <= f.0
          && UniqueBelow(w, area, parent, node, f.0[|parent|..], f.1))
  }

  /** One of the first k entries of the directory leads to the file. */
  ghost predicate UniqueThrough(w: World, area: string, parent: Path, e: Entry, rest: Path, content: Bytes) {
    && rest != [] && rest[0] == e.name
    && At(e.node, rest[1..], File(content)) && Walked(rest) && !Expendable(w, area, parent + rest, content)
  }

  ghost predicate ListsThrough(w: World, area: string, parent: Path, es: seq<Entry>, found: seq<(Path, Bytes)>) {
    && (forall i, rest, content | 0 <= i < |es| && UniqueThrough(w, area, parent, es[i], rest, content) ::
          (parent + rest, content) in found)
    && (forall f | f in found :: |f.1| <= SIZE_LIMIT && parent <= f.0
          && exists i :: 0 <= i < |es| && UniqueThrough(w, area, parent, es[i], f.0[|parent|..], f.1))
  }

  /** A walked directory that holds a checkout which did not pass inspection. */
  ghost predicate BadCheckout(w: World, parent: Path, node: Node, rest: Path, dir: Node) {
    && At(node, rest, dir) && HasGit(dir)
    && parent + rest != [] && parent + rest !in w.inspected
    && forall i | 0 <= i < |rest| :: rest[i] !in SKIPPED
  }

  /** Every checkout the walk meets passed inspection. */
  ghost predicate CheckoutsPass(w: World, parent: Path, node: Node) {
    forall rest, dir :: !BadCheckout(w, parent, node, rest, dir)
  }

  /** A reason to stop the scan: a bad checkout, or a unique file too large to copy. */
  ghost predicate Obstacle(w: World, area: string, parent: Path, node: Node) {
    || (exists rest, dir :: BadCheckout(w, parent, node, rest, dir))
    || (exists rest, content :: UniqueBelow(w, area, parent, node, rest, content) && |content| > SIZE_LIMIT)
  }

  lemma AtThrough(node: Node, k: nat, rest: Path, leaf: Node)
    requires node.Dir? && k < |node.entries| && At(node.entries[k].node, rest, leaf)
    ensures At(node, [node.entries[k].name] + rest, leaf)
  {
    assert ([node.entries[k].name] + rest)[1..] == rest;
  }

  lemma CheckoutBelow(w: World, parent: Path, node: Node, k: nat, rest: Path, dir: Node)
    requires node.Dir? && k < |node.entries| && node.entries[k].name !in SKIPPED
    requires BadCheckout(w, parent + [node.entries[k].name], node.entries[k].node, rest, dir)
    ensures BadCheckout(w, parent, node, [node.entries[k].name] + rest, dir)
  {
    AtThrough(node, k, rest, dir);
    assert parent + ([node.entries[k].name] + rest) == (parent + [node.entries[k].name]) + rest;
  }

  lemma UniqueIsBelow(w: World, area: string, parent: Path, node: Node, k: nat, rest: Path, content: Bytes)
    requires node.Dir? && k < |node.entries| && node.entries[k].name !in SKIPPED
    requires UniqueBelow(w, area, parent + [node.entries[k].name], node.entries[k].node, rest, content)
    ensures UniqueBelow(w, area, parent, node, [node.entries[k].name] + rest, content)
  {
    AtThrough(node, k, rest, File(content));
    assert parent + ([node.entries[k].name] + rest) == (parent + [node.entries[k].name]) + rest;
  }

  lemma ObstacleBelow(w: World, area: string, parent: Path, node: Node, k: nat)
    requires node.Dir? && k < |node.entries| && node.entries[k].name !in SKIPPED
    requires Obstacle(w, area, parent + [node.entries[k].name], node.entries[k].node)
    ensures Obstacle(w, area, parent, node)
  {
    var e := node.entries[k];
    if rest, dir :| BadCheckout(w, parent + [e.name], e.node, rest, dir) {
      CheckoutBelow(w, parent, node, k, rest, dir);
    } else {
      var rest, content :| UniqueBelow(w, area, parent + [e.name], e.node, rest, content) && |content| > SIZE_LIMIT;
      UniqueIsBelow(w, area, parent, node, k, rest, content);
    }
  }

  lemma OversizedHere(w: World, area: string, parent: Path, node: Node, k: nat)
    requires node.Dir? && k < |node.entries| && node.entries[k].node.File?
    requires !Expendable(w, area, parent + [node.entries[k].name], node.entries[k].node.content)
    requires |node.entries[k].node.content| > SIZE_LIMIT
    ensures Obstacle(w, area, parent, node)
  {
    var e := node.entries[k];
    assert [e.name][1..] == [];
    assert At(node, [e.name], e.node);
    assert UniqueBelow(w, area, parent, node, [e.name], e.node.content);
  }

  lemma CheckoutHere(w: World, area: string, parent: Path, node: Node)
    requires !GitOk(w, parent, node)
    ensures Obstacle(w, area, parent, node)
  {
    assert parent + [] == parent;
    assert BadCheckout(w, parent, node, [], node);
  }

  /** No bad checkout behind the first entries. */
  ghost predicate CheckoutsOk(w: World, parent: Path, es: seq<Entry>) {
    forall i, rest, dir | 0 <= i < |es| && rest != [] && rest[0] == es[i].name && At(es[i].node, rest[1..], dir) ::
      !(HasGit(dir) && parent + rest !in w.inspected && forall j | 0 <= j < |rest| :: rest[j] !in SKIPPED)
  }

  lemma CheckoutsExtend(w: World, parent: Path, es: seq<Entry>, e: Entry)
    requires CheckoutsOk(w, parent, es)
    requires e.node.Dir? && e.name !in SKIPPED ==> CheckoutsPass(w, parent + [e.name], e.node)
    ensures CheckoutsOk(w, parent, es + [e])
  {
    var longer := es + [e];
    forall i, rest, dir | 0 <= i < |longer| && rest != [] && rest[0] == longer[i].name
                          && At(longer[i].node, rest[1..], dir)
      ensures !(HasGit(dir) && parent + rest !in w.inspected && forall j | 0 <= j < |rest| :: rest[j] !in SKIPPED)
    {
      if i < |es| {
        assert longer[i] == es[i];
      } else {
        assert longer[i] == e;
        assert parent + rest == (parent + [e.name]) + rest[1..];
        assert forall j | 0 <= j < |rest[1..]| :: rest[1..][j] == rest[j + 1];
        if e.node.Dir? && e.name !in SKIPPED {
          assert !BadCheckout(w, parent + [e.name], e.node, rest[1..], dir);
        }
      }
    }
  }

  lemma CheckoutsWhole(w: World, parent: Path, node: Node)
    requires node.Dir? && GitOk(w, parent, node) && CheckoutsOk(w, parent, node.entries)
    ensures CheckoutsPass(w, parent, node)
  {
    forall rest, dir
      ensures !BadCheckout(w, parent, node, rest, dir)
    {
      if rest == [] {
        assert parent + rest == parent;
      } else if At(node, rest, dir) {
        var i :| 0 <= i < |node.entries| && node.entries[i].name == rest[0] && At(node.entries[i].node, rest[1..], dir);
      }
    }
  }

  /** scratch_evidence for one directory and everything below it. A file the walk reaches that is unique and small
      is listed; a unique file that is too large, or a checkout that fails inspection, raises. */
  method ScanDirectory(w: World, area: string, parent: Path, node: Node) returns (r: Result<seq<(Path, Bytes)>>)
    requires node.Dir?
    ensures r.Ok? ==> ListsUnique(w, area, parent, node, r.value)
    ensures r.Ok? ==> CheckoutsPass(w, parent, node)
    ensures r.Raised? ==> Obstacle(w, area, parent, node)
    decreases node, 1
  {
    if !GitOk(w, parent, node) {
      CheckoutHere(w, area, parent, node);
      return Raised;
    }
    var found: seq<(Path, Bytes)> := [];
    var es := node.entries;
    for k := 0 to |es|
      invariant ListsThrough(w, area, parent, es[..k], found)
      invariant CheckoutsOk(w, parent, es[..k])
    {
      assert es[..k + 1] == es[..k] + [es[k]];
      var more := ScanEntry(w, area, parent, node, k);
      if more.Raised? { return Raised; }
      CheckoutsExtend(w, parent, es[..k], es[k]);
      AppendEntry(w, area, parent, es[..k], es[k], found, more.value);
      found := found + more.value;
    }
    assert es[..|es|] == es;
    WholeDirectory(w, area, parent, node, found);
    CheckoutsWhole(w, parent, node);
    r := Ok(found);
  }

  /** One entry of the walked directory: a file is judged, a directory is walked unless it is pruned or a link. */
  method ScanEntry(w: World, area: string, parent: Path, node: Node, k: nat) returns (r: Result<seq<(Path, Bytes)>>)
    requires node.Dir? && k < |node.entries|
    ensures r.Ok? ==> ListsEntry(w, area, parent, node.entries[k], r.value)
    ensures r.Ok? && node.entries[k].node.Dir? && node.entries[k].name !in SKIPPED ==>
              CheckoutsPass(w, parent + [node.entries[k].name], node.entries[k].node)
    ensures r.Raised? ==> Obstacle(w, area, parent, node)
    decreases node, 0
  {
    var e := node.entries[k];
    match e.node
    case Link =>
      LinkHidesNothing(w, area, parent, e);
      r := Ok([]);
    case File(content) =>
      var verdict := ScanFile(w, area, parent + [e.name], content);
      if verdict.Raised? {
        OversizedHere(w, area, parent, node, k);
        return Raised;
      }
      var more: seq<(Path, Bytes)> := if verdict.value then [(parent + [e.name], content)] else [];
      FileListed(w, area, parent, e, more);
      r := Ok(more);
    case Dir(_) =>
      if e.name in SKIPPED {
        PrunedHidesNothing(w, area, parent, e);
        return Ok([]);
      }
      r := ScanDirectory(w, area, parent + [e.name], e.node);
      if r.Raised? {
        ObstacleBelow(w, area, parent, node, k);
      } else {
        DirectoryListed(w, area, parent, e, r.value);
      }
  }

  /** What one entry contributes. */
  ghost predicate ListsEntry(w: World, area: string, parent: Path, e: Entry, more: seq<(Path, Bytes)>) {
    && (forall rest, content | UniqueThrough(w, area, parent, e, rest, content) :: (parent + rest, content) in more)
    && (forall f | f in more :: |f.1| <= SIZE_LIMIT && parent <= f.0
          && UniqueThrough(w, area, parent, e, f.0[|parent|..], f.1))
  }

  lemma LinkHidesNothing(w: World, area: string, parent: Path, e: Entry)
    requires e.node == Link
    ensures ListsEntry(w, area, parent, e, [])
  {
  }

  lemma FileListed(w: World, area: string, parent: Path, e: Entry, more: seq<(Path, Bytes)>)
    requires e.node.File?
    requires more == if Expendable(w, area, parent + [e.name], e.node.content) then []
                     else [(parent + [e.name], e.node.content)]
    requires more != [] ==> |e.node.content| <= SIZE_LIMIT
    ensures ListsEntry(w, area, parent, e, more)
  {
    forall rest, content | UniqueThrough(w, area, parent, e, rest, content)
      ensures (parent + rest, content) in more
    {
      assert rest[1..] == [];
      assert rest == [e.name];
    }
    forall f | f in more
      ensures |f.1| <= SIZE_LIMIT && parent <= f.0 && UniqueThrough(w, area, parent, e, f.0[|parent|..], f.1)
    {
      assert f.0[|parent|..] == [e.name];
      assert [e.name][1..] == [];
    }
  }

  lemma PrunedHidesNothing(w: World, area: string, parent: Path, e: Entry)
    requires e.node.Dir? && e.name in SKIPPED
    ensures ListsEntry(w, area, parent, e, [])
  {
    forall rest, content
      ensures !UniqueThrough(w, area, parent, e, rest, content)
    {
      if rest != [] && rest[0] == e.name {
        if |rest| == 1 { assert rest[1..] == []; }
      }
    }
  }

  lemma FoundThrough(w: World, area: string, parent: Path, e: Entry, rest: Path, content: Bytes)
    requires e.node.Dir? && e.name !in SKIPPED && UniqueThrough(w, area, parent, e, rest, content)
    ensures parent + rest == (parent + [e.name]) + rest[1..]
    ensures UniqueBelow(w, area, parent + [e.name], e.node, rest[1..], content)
  {
    assert parent + rest == (parent + [e.name]) + rest[1..];
    assert rest[1..] != [];
    assert forall i | 0 <= i < |rest[1..]| - 1 :: rest[1..][i] == rest[i + 1];
  }

  lemma ListedThrough(w: World, area: string, parent: Path, e: Entry, f: (Path, Bytes))
    requires e.node.Dir? && e.name !in SKIPPED && parent + [e.name] <= f.0
    requires UniqueBelow(w, area, parent + [e.name], e.node, f.0[|parent + [e.name]|..], f.1)
    ensures parent <= f.0 && UniqueThrough(w, area, parent, e, f.0[|parent|..], f.1)
  {
    var rest := f.0[|parent|..];
    assert f.0 == (parent + [e.name]) + f.0[|parent| + 1..];
    assert rest[0] == e.name && rest[1..] == f.0[|parent| + 1..];
    assert parent + rest == f.0;
    assert forall i | 0 < i < |rest| - 1 :: rest[i] == rest[1..][i - 1];
  }

  lemma DirectoryListed(w: World, area: string, parent: Path, e: Entry, more: seq<(Path, Bytes)>)
    requires e.node.Dir? && e.name !in SKIPPED
    requires ListsUnique(w, area, parent + [e.name], e.node, more)
    ensures ListsEntry(w, area, parent, e, more)
  {
    forall rest, content | UniqueThrough(w, area, parent, e, rest, content)
      ensures (parent + rest, content) in more
    {
      FoundThrough(w, area, parent, e, rest, content);
    }
    forall f | f in more
      ensures |f.1| <= SIZE_LIMIT && parent <= f.0 && UniqueThrough(w, area, parent, e, f.0[|parent|..], f.1)
    {
      ListedThrough(w, area, parent, e, f);
    }
  }

  lemma AppendEntry(w: World, area: string, parent: Path, es: seq<Entry>, e: Entry, found: seq<(Path, Bytes)>,
                    more: seq<(Path, Bytes)>)
    requires ListsThrough(w, area, parent, es, found) && ListsEntry(w, area, parent, e, more)
    ensures ListsThrough(w, area, parent, es + [e], found + more)
  {
    var longer := es + [e];
    forall i, rest, content | 0 <= i < |longer| && UniqueThrough(w, area, parent, longer[i], rest, content)
      ensures (parent + rest, content) in found + more
    {
      if i < |es| { assert longer[i] == es[i]; } else { assert longer[i] == e; }
    }
    forall f | f in found + more
      ensures |f.1| <= SIZE_LIMIT && parent <= f.0
      ensures exists i :: 0 <= i < |longer| && UniqueThrough(w, area, parent, longer[i], f.0[|parent|..], f.1)
    {
      if f in found {
        var i :| 0 <= i < |es| && UniqueThrough(w, area, parent, es[i], f.0[|parent|..], f.1);
        assert longer[i] == es[i];
      } else {
        assert longer[|es|] == e;
      }
    }
  }

  lemma WholeDirectory(w: World, area: string, parent: Path, node: Node, found: seq<(Path, Bytes)>)
    requires node.Dir? && ListsThrough(w, area, parent, node.entries, found)
    ensures ListsUnique(w, area, parent, node, found)
  {
    forall rest, content | UniqueBelow(w, area, parent, node, rest, content)
      ensures (parent + rest, content) in found
    {
      var i :| 0 <= i < |node.entries| && node.entries[i].name == rest[0]
            && At(node.entries[i].node, rest[1..], File(content));
      assert UniqueThrough(w, area, parent, node.entries[i], rest, content);
    }
    forall f | f in found
      ensures UniqueBelow(w, area, parent, node, f.0[|parent|..], f.1)
    {
      var rest := f.0[|parent|..];
      assert f.0 == parent + rest;
      var i :| 0 <= i < |node.entries| && UniqueThrough(w, area, parent, node.entries[i], rest, f.1);
    }
  }

  lemma NoObstacle(w: World, area: string, tree: Node, found: seq<(Path, Bytes)>)
    requires ListsUnique(w, area, [], tree, found) && CheckoutsPass(w, [], tree)
    ensures !Obstacle(w, area, [], tree)
  {
    forall rest, content | UniqueBelow(w, area, [], tree, rest, content)
      ensures |content| <= SIZE_LIMIT
    {
      assert ([] + rest, content) in found;
    }
  }

  /** scratch_evidence: the whole tree, or nothing when there is none. */
  method ScratchEvidence(w: World, area: string, tree: Option<Node>) returns (r: Result<seq<(Path, Bytes)>>)
    requires tree.Some? ==> tree.value.Dir?
    ensures r.Ok? && tree.Some? ==> forall path, content ::
              (path, content) in r.value <==> Unique(w, area, tree.value, path, content)
    ensures tree.None? ==> r == Ok([])
    ensures tree.Some? ==> (r.Raised? <==> Obstacle(w, area, [], tree.value))
  {
    if tree.None? { return Ok([]); }
    r := ScanDirectory(w, area, [], tree.value);
    if r.Ok? {
      NoObstacle(w, area, tree.value, r.value);
      forall path, content
        ensures (path, content) in r.value <==> Unique(w, area, tree.value, path, content)
      {
        assert [] + path == path;
        assert path[0..] == path;
        if Unique(w, area, tree.value, path, content) {
          assert UniqueBelow(w, area, [], tree.value, path, content);
        }
      }
    }
  }
}
