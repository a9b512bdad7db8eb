/** Export and deletion, scripts/experiment_workspace.py: export_files, discard_temp and cleanup on the state of one
    experiment's directory. Workspace.dfy defines which files only a tree holds. */
module Cleanup {
  import opened Workspace
  import opened Wrappers

  type Archive = map<Path, Bytes>   // evidence/<category>, by path relative to the tree's root

  datatype Record = Record(path: Path, bytes: nat, content: Bytes)   // the digest is injective: the content itself

  datatype Status = Prepared | Running | Completed | FailedRun | Cleaned

  /** Evidence is only ever added to. */
  ghost predicate Extends(before: Archive, after: Archive) {
    forall p | p in before :: p in after && after[p] == before[p]
  }

  /** Every file that only the tree holds has an identical copy in the archive. */
  ghost predicate Preserved(w: World, area: string, tree: Node, archive: Archive) {
    forall path, content | Unique(w, area, tree, path, content) :: path in archive && archive[path] == content
  }

  /** What a deletion is allowed to do to a tree: leave it alone, or remove it with everything unique preserved. */
  ghost predicate Safe(w: World, area: string, before: Option<Node>, after: Option<Node>, archive: Archive) {
    after == before || (after == None && (before.Some? ==> Preserved(w, area, before.value, archive)))
  }

  predicate Related(p: Path, q: Path) { p <= q || q <= p }

  /** holds_disposable: some declared KEEP lies in, or above, a tree that cleanup deletes. */
  predicate HoldsDisposable(keep: set<Path>) {
    exists k :: k in keep && (Related(k, ["temp"]) || Related(k, ["worktree"]))
  }

  /** A target that a file or directory of the archive stands in the way of. */
  predicate Clashes(archive: Archive, target: Path) {
    exists p :: p in archive && p != target && Related(p, target)
  }

  /** Two files that one directory tree cannot hold together. */
  predicate Incompatible(p: Path, a: Bytes, q: Path, b: Bytes) { if p == q then a != b else Related(p, q) }

  function Listed(sources: seq<(Path, Bytes)>): set<(Path, Bytes)> { set s | s in sources }

  /** Each source has a safe target that neither earlier evidence nor another source contradicts. */
  ghost predicate Exportable(archive: Archive, sources: set<(Path, Bytes)>, unsafe: set<Path>) {
    forall s | s in sources ::
      && s.0 !in unsafe
      && (forall p | p in archive :: !Incompatible(p, archive[p], s.0, s.1))
      && (forall t | t in sources :: !Incompatible(t.0, t.1, s.0, s.1))
  }

  /** What a tree has to export when its scan comes through. */
  ghost predicate IsUnique(w: World, area: string, tree: Option<Node>, files: set<(Path, Bytes)>) {
    forall path, content :: (path, content) in files <==> tree.Some? && Unique(w, area, tree.value, path, content)
  }

  /** The checksum file lists every unique file; and if the export has changed it, nothing else. */
  ghost predicate Recorded(w: World, area: string, tree: Option<Node>, before: Option<seq<Record>>,
                           after: Option<seq<Record>>)
  {
    && after.Some?
    && (tree.Some? ==> forall path, content | Unique(w, area, tree.value, path, content) ::
          Record(path, |content|, content) in after.value)
    && (after != before ==> forall r | r in after.value ::
          tree.Some? && Unique(w, area, tree.value, r.path, r.content) && r.bytes == |r.content|)
  }

  /** The scan finds no obstacle and the export none either. */
  ghost predicate Preservable(w: World, area: string, tree: Option<Node>, archive: Archive, unsafe: set<Path>) {
    && (tree.Some? ==> !Obstacle(w, area, [], tree.value))
    && exists files :: IsUnique(w, area, tree, files) && Exportable(archive, files, unsafe)
  }

  /** What Git and the operating system answer during one cleanup. */
  datatype Answers = Answers(
    worktreeClean: bool, branch: string, branchAgain: string, registeredInTemp: bool, removeOk: bool,
    unsafeTargets: set<Path>)

  ghost predicate TempIsValid(w: World, a: Answers, temp: Option<Node>) {
    && !a.registeredInTemp
    && (temp.Some? ==> (HasGit(temp.value) ==> [] in w.inspected) && !Obstacle(w, "temp", [], temp.value))
  }

  class Experiment {
    var temp: Option<Node>
    var worktree: Option<Node>
    var tempArchive: Archive
    var treeArchive: Archive
    var tempManifest: Option<seq<Record>>
    var treeManifest: Option<seq<Record>>
    var status: Status
    var shutdownUnconfirmed: bool
    const keep: set<Path>

    ghost predicate Valid()
      reads this
    {
      (temp.Some? ==> temp.value.Dir?) && (worktree.Some? ==> worktree.value.Dir?)
    }

    constructor (temp: Option<Node>, worktree: Option<Node>, status: Status, unconfirmed: bool, keep: set<Path>)
      requires (temp.Some? ==> temp.value.Dir?) && (worktree.Some? ==> worktree.value.Dir?)
      ensures Valid() && this.temp == temp && this.worktree == worktree && this.status == status
      ensures this.keep == keep && shutdownUnconfirmed == unconfirmed && tempArchive == map[] && treeArchive == map[]
    {
      this.temp, this.worktree, this.status, this.keep := temp, worktree, status, keep;
      shutdownUnconfirmed := unconfirmed;
      tempArchive, treeArchive, tempManifest, treeManifest := map[], map[], None, None;
    }

    /** validate_temp: no registered worktree inside, no uninspected checkout, and a scan that comes through. */
    method ValidateTemp(w: World, a: Answers) returns (ok: bool)
      requires Valid()
      ensures ok <==> TempIsValid(w, a, temp)
    {
      if a.registeredInTemp { return false; }
      if temp.Some? && HasGit(temp.value) && [] !in w.inspected { return false; }
      var sources := ScratchEvidence(w, "temp", temp);
      ok := sources.Ok?;
    }

    /** discard_temp: the tree goes only after the export; on any exception before that it is intact. */
    method DiscardTemp(w: World, a: Answers) returns (ok: bool)
      requires Valid()
      modifies this`temp, this`tempArchive, this`tempManifest
      ensures Valid() && Extends(old(tempArchive), tempArchive)
      ensures ok <==> TempIsValid(w, a, old(temp))
                      && Preservable(w, "temp", old(temp), old(tempArchive), a.unsafeTargets)
      ensures ok ==> temp == None && (old(temp).Some? ==> Preserved(w, "temp", old(temp).value, tempArchive))
      ensures ok ==> Recorded(w, "temp", old(temp), old(tempManifest), tempManifest)
      ensures !ok ==> temp == old(temp) && tempManifest == old(tempManifest)
    {
      ok := ValidateTemp(w, a);
      if !ok { return; }
      ok, tempArchive, tempManifest := Export(w, "temp", temp, tempArchive, tempManifest, a.unsafeTargets);
      if ok { temp := None; }
    }

    /** archive_worktree */
    method ArchiveWorktree(w: World, a: Answers) returns (ok: bool)
      requires Valid()
      modifies this`treeArchive, this`treeManifest
      ensures Extends(old(treeArchive), treeArchive)
      ensures ok <==> Preservable(w, "worktree", worktree, old(treeArchive), a.unsafeTargets)
      ensures ok && worktree.Some? ==> Preserved(w, "worktree", worktree.value, treeArchive)
      ensures ok ==> Recorded(w, "worktree", worktree, old(treeManifest), treeManifest)
      ensures !ok ==> treeManifest == old(treeManifest)
    {
      ok, treeArchive, treeManifest := Export(w, "worktree", worktree, treeArchive, treeManifest, a.unsafeTargets);
    }

    /** May cleanup start at all? */
    ghost predicate Cleanable()
      reads this
    {
      !shutdownUnconfirmed && status != Prepared && status != Running
      && !HoldsDisposable(keep)
    }

    /** cleanup: whatever the answers, and wherever it stops, each tree is either as it was or gone with every
        unique file preserved, and no earlier evidence has changed. It ends well only for a finished experiment
        without a KEEP in or above its trees, and then both trees are gone. */
    method CleanUp(forTemp: World, forTree: World, a: Answers) returns (ok: bool)
      requires Valid()
      modifies this
      ensures Valid()
      ensures Extends(old(tempArchive), tempArchive) && Extends(old(treeArchive), treeArchive)
      ensures Safe(forTemp, "temp", old(temp), temp, tempArchive)
      ensures Safe(forTree, "worktree", old(worktree), worktree, treeArchive)
      ensures ok <==> old(Cleanable()) && TempIsValid(forTemp, a, old(temp))
                      && Preservable(forTemp, "temp", old(temp), old(tempArchive), a.unsafeTargets)
                      && Preservable(forTree, "worktree", old(worktree), old(treeArchive), a.unsafeTargets)
                      && (old(worktree).Some? ==> a.worktreeClean && a.branchAgain == a.branch && a.removeOk)
      ensures ok ==> temp == None && worktree == None && status == Cleaned
      ensures ok ==> Recorded(forTemp, "temp", old(temp), old(tempManifest), tempManifest)
      ensures ok ==> Recorded(forTree, "worktree", old(worktree), old(treeManifest), treeManifest)
      ensures !ok ==> status == old(status) && temp == old(temp)
      ensures !old(Cleanable()) ==> !ok && unchanged(this)
    {
      if shutdownUnconfirmed { return false; }
      if status != Completed && status != FailedRun && status != Cleaned { return false; }
      if HoldsDisposable(keep) { return false; }
      if worktree.Some? && !a.worktreeClean { return false; }
      ok := ValidateTemp(forTemp, a);
      if !ok { return; }
      ok := ArchiveWorktree(forTree, a);
      if !ok { return; }
      if worktree.Some? {
        // The identity is checked again after the export, and git refuses to remove a dirty worktree.
        if a.branchAgain != a.branch || !a.removeOk { return false; }
        worktree := None;
      }
      ok := DiscardTemp(forTemp, a);
      if !ok { return; }
      status := Cleaned;
    }
  }

  /** The checksum file: one record per source. */
  ghost function Manifest(sources: seq<(Path, Bytes)>): seq<Record> {
    seq(|sources|, i requires 0 <= i < |sources| => Record(sources[i].0, |sources[i].1|, sources[i].1))
  }

  /** What an export of some sources makes of an archive: their copies are added, and nothing else happens. */
  ghost predicate Copied(archive: Archive, sources: seq<(Path, Bytes)>, after: Archive) {
    && Extends(archive, after)
    && (forall p | p in after && p !in archive :: (p, after[p]) in sources)
    && (forall s | s in sources :: s.0 in after && after[s.0] == s.1)
  }

  predicate Refused(after: Archive, s: (Path, Bytes), unsafe: set<Path>) {
    s.0 in unsafe || Clashes(after, s.0) || (s.0 in after && after[s.0] != s.1)
  }

  /** export_files: copy each source unless an identical copy is there; raise rather than replace a distinct one. */
  method ExportFiles(archive: Archive, manifest: Option<seq<Record>>, sources: seq<(Path, Bytes)>, unsafe: set<Path>)
    returns (ok: bool, after: Archive, written: Option<seq<Record>>)
    ensures ok <==> Exportable(archive, Listed(sources), unsafe)
    ensures ok ==> Copied(archive, sources, after)
    ensures !ok ==> Extends(archive, after) && forall p | p in after && p !in archive :: (p, after[p]) in sources
    ensures written == if !ok || (sources == [] && manifest.Some?) then manifest else Some(Manifest(sources))
  {
    after := archive;
    written := manifest;
    var records: seq<Record> := [];
    for k := 0 to |sources|
      invariant Copied(archive, sources[..k], after)
      invariant Exportable(archive, Listed(sources[..k]), unsafe)
      invariant records == Manifest(sources[..k])
    {
      var s := sources[k];
      assert sources[..k + 1] == sources[..k] + [s];
      if s.0 in unsafe || Clashes(after, s.0) || (s.0 in after && after[s.0] != s.1) {
        RefusedIsInTheWay(archive, after, sources, k, unsafe);
        return false, after, manifest;
      }
      OneMoreExportable(archive, after, sources[..k], s, unsafe);
      if s.0 !in after { after := after[s.0 := s.1]; }
      records := records + [Record(s.0, |s.1|, s.1)];
      assert records == Manifest(sources[..k + 1]);
    }
    assert sources[..|sources|] == sources;
    ok := true;
    if records != [] || manifest == None { written := Some(records); }
  }

  /** A refused target is unsafe, or contradicts the old archive or an earlier source. */
  lemma RefusedIsInTheWay(archive: Archive, after: Archive, sources: seq<(Path, Bytes)>, k: nat, unsafe: set<Path>)
    requires k < |sources| && Copied(archive, sources[..k], after) && Refused(after, sources[k], unsafe)
    ensures !Exportable(archive, Listed(sources), unsafe)
  {
    var s, all := sources[k], Listed(sources);
    assert s in all;
    if s.0 !in unsafe {
      var p :| p in after && Incompatible(p, after[p], s.0, s.1);
      if p !in archive {
        var t := (p, after[p]);
        assert t in all && Incompatible(t.0, t.1, s.0, s.1);
      }
    }
  }

  /** An accepted one contradicts neither. */
  lemma FitsArchive(archive: Archive, after: Archive, earlier: seq<(Path, Bytes)>, s: (Path, Bytes), unsafe: set<Path>)
    requires Copied(archive, earlier, after) && !Refused(after, s, unsafe)
    ensures s.0 !in unsafe && forall p | p in archive :: !Incompatible(p, archive[p], s.0, s.1)
  {
    assert forall p | p in after :: !Incompatible(p, after[p], s.0, s.1);
  }

  lemma FitsSource(archive: Archive, after: Archive, earlier: seq<(Path, Bytes)>, s: (Path, Bytes), unsafe: set<Path>,
                   t: (Path, Bytes))
    requires Copied(archive, earlier, after) && !Refused(after, s, unsafe) && t in earlier
    ensures !Incompatible(t.0, t.1, s.0, s.1) && !Incompatible(s.0, s.1, t.0, t.1)
  {
    assert t.0 in after && after[t.0] == t.1;
  }

  lemma OneMoreCopied(archive: Archive, after: Archive, earlier: seq<(Path, Bytes)>, s: (Path, Bytes))
    requires Copied(archive, earlier, after) && (s.0 in after ==> after[s.0] == s.1)
    ensures Copied(archive, earlier + [s], after[s.0 := s.1])
  {
  }

  lemma OneMoreExportable(archive: Archive, after: Archive, earlier: seq<(Path, Bytes)>, s: (Path, Bytes),
                          unsafe: set<Path>)
    requires Copied(archive, earlier, after) && !Refused(after, s, unsafe)
    requires Exportable(archive, Listed(earlier), unsafe)
    ensures Exportable(archive, Listed(earlier + [s]), unsafe)
    ensures Copied(archive, earlier + [s], after[s.0 := s.1])
  {
    OneMoreCopied(archive, after, earlier, s);
    FitsArchive(archive, after, earlier, s, unsafe);
    forall t | t in earlier
      ensures !Incompatible(t.0, t.1, s.0, s.1) && !Incompatible(s.0, s.1, t.0, t.1)
    {
      FitsSource(archive, after, earlier, s, unsafe, t);
    }
    assert forall t | t in Listed(earlier + [s]) :: t in Listed(earlier) || t == s;
  }

  /** The scan of one tree and the export of what it lists. */
  method Export(w: World, area: string, tree: Option<Node>, archive: Archive, manifest: Option<seq<Record>>,
                unsafe: set<Path>)
    returns (ok: bool, after: Archive, written: Option<seq<Record>>)
    requires tree.Some? ==> tree.value.Dir?
    ensures Extends(archive, after)
    ensures ok <==> Preservable(w, area, tree, archive, unsafe)
    ensures ok && tree.Some? ==> Preserved(w, area, tree.value, after)
    ensures ok ==> Recorded(w, area, tree, manifest, written)
    ensures !ok ==> written == manifest
  {
    var sources := ScratchEvidence(w, area, tree);
    if sources.Raised? { return false, archive, manifest; }
    ok, after, written := ExportFiles(archive, manifest, sources.value, unsafe);
    ghost var files := Listed(sources.value);
    assert IsUnique(w, area, tree, files);
    forall other | IsUnique(w, area, tree, other)
      ensures other == files
    {
      SameFiles(w, area, tree, other, files);
    }
    if ok { ManifestRecords(w, area, tree, sources.value, manifest, written); }
    if ok && tree.Some? {
      forall path, content | Unique(w, area, tree.value, path, content)
        ensures path in after && after[path] == content
      {
        assert (path, content) in sources.value;
      }
    }
  }

  lemma ManifestRecords(w: World, area: string, tree: Option<Node>, sources: seq<(Path, Bytes)>,
                        manifest: Option<seq<Record>>, written: Option<seq<Record>>)
    requires IsUnique(w, area, tree, Listed(sources))
    requires written == if sources == [] && manifest.Some? then manifest else Some(Manifest(sources))
    ensures Recorded(w, area, tree, manifest, written)
  {
    forall path, content | tree.Some? && Unique(w, area, tree.value, path, content)
      ensures Record(path, |content|, content) in written.value
    {
      assert (path, content) in Listed(sources);
      var i :| 0 <= i < |sources| && sources[i] == (path, content);
      assert Manifest(sources)[i] == Record(path, |content|, content);
    }
    if written != manifest {
      forall r | r in written.value
        ensures tree.Some? && Unique(w, area, tree.value, r.path, r.content) && r.bytes == |r.content|
      {
        var i :| 0 <= i < |sources| && Manifest(sources)[i] == r;
        assert sources[i] in Listed(sources);
      }
    }
  }

  lemma SameFiles(w: World, area: string, tree: Option<Node>, a: set<(Path, Bytes)>, b: set<(Path, Bytes)>)
    requires IsUnique(w, area, tree, a) && IsUnique(w, area, tree, b)
    ensures a == b
  {
    forall s
      ensures s in a <==> s in b
    {
      assert s == (s.0, s.1);
    }
  }

  /** A second cleanup adds nothing and loses nothing: what one export preserved stays preserved under every later
      one. */
  lemma PreservedStays(w: World, area: string, tree: Node, before: Archive, after: Archive)
    requires Preserved(w, area, tree, before) && Extends(before, after)
    ensures Preserved(w, area, tree, after)
  {
  }

  /** Remark: no kept path is ever deleted: cleanup starts only when no KEEP lies in, or above, either tree. */
  lemma KeptPathsAreOutside(keep: set<Path>, area: string, k: Path, rest: Path)
    requires !HoldsDisposable(keep) && k in keep && (area == "temp" || area == "worktree")
    ensures k != [area] + rest && !(k <= [area] + rest)
  {
    PrefixOfChild(k, area, rest);
  }

  lemma PrefixOfChild(k: Path, area: string, rest: Path)
    ensures k <= [area] + rest ==> Related(k, [area])
  {
    if k != [] && k <= [area] + rest {
      assert k[0] == ([area] + rest)[0];
    }
  }

  predicate InDeletedTree(p: Path) { ["temp"] <= p || ["worktree"] <= p }

  predicate KeptAt(keep: set<Path>, p: Path) { exists k :: k in keep && k <= p }

  /** Exactly when a declared KEEP blocks cleanup: some place of a deleted tree lies at or below it. */
  lemma HoldsIff(keep: set<Path>)
    ensures HoldsDisposable(keep) <==> exists p :: KeptAt(keep, p) && InDeletedTree(p)
  {
    if HoldsDisposable(keep) {
      var k :| k in keep && (Related(k, ["temp"]) || Related(k, ["worktree"]));
      var area := if Related(k, ["temp"]) then ["temp"] else ["worktree"];
      var p := if k <= area then area else k;
      assert k <= p;
      assert KeptAt(keep, p) && InDeletedTree(p);
    }
    if p :| KeptAt(keep, p) && InDeletedTree(p) {
      var k :| k in keep && k <= p;
      PrefixesRelated(k, if ["temp"] <= p then ["temp"] else ["worktree"], p);
    }
  }

  lemma PrefixesRelated(a: Path, b: Path, p: Path)
    requires a <= p && b <= p
    ensures Related(a, b)
  {
    if |a| <= |b| { assert a == b[..|a|]; } else { assert b == a[..|b|]; }
  }
}
