/** The two-pass archive restore of scripts/release_generated_ci.py: every member is validated before anything is
    written. */
module Restore {
  import opened Wrappers

  type Path = seq<string>   // the parts of a normalised relative path

  datatype Node = File(content: seq<int>, mode: nat) | Dir | Link

  /** The tree under the root; the root itself is the empty path and not listed. */
  type Tree = map<Path, Node>

  datatype Kind = Regular | Directory | Special

  datatype Member = Member(name: string, kind: Kind, content: seq<int>, mode: nat)

  // ---------- names ----------

  /** The parts of a slash-separated name; `part` is what has been read of the current one. Empty and "." parts
      disappear, as they do in PurePosixPath. */
  function PartsFrom(part: string, s: string): Path
    decreases |s|
  {
    var kept: Path := if part == [] || part == "." then [] else [part];
    if s == [] then kept
    else if s[0] == '/' then kept + PartsFrom([], s[1..])
    else PartsFrom(part + [s[0]], s[1..])
  }

  /** safe_name: relative, without ".." or a backslash, and not empty. */
  function SafeName(name: string): (r: Option<Path>) {
    var parts := PartsFrom([], name);
    if (name != [] && name[0] == '/') || ".." in parts || '\\' in name || parts == [] then None else Some(parts)
  }

  const EXACT: set<Path> := {
    ["build", "generated-release", "guest.json"], ["build", "generated-release", "regeneration.json"],
    ["build", "generated-release", "mariamem.wasm"], ["build", "generated-release", "link.txt"],
    ["build", "generated-release", "flags.make"], ["build", "generated-release", "CMakeCache.txt"],
    ["build", "release", "generated-source.json"], ["tests", "evidence", "alpha-wheel.json"],
    ["build", "release", "runtime-validation.json"]
  }

  const DIRECTORIES: set<Path> := {
    ["build"], ["build", "generated-release"], ["build", "release"], ["build", "dist"],
    ["tests"], ["tests", "evidence"]
  }

  predicate StartsWith(s: string, prefix: string) { prefix <= s }

  predicate EndsWith(s: string, suffix: string) { |suffix| <= |s| && s[|s| - |suffix|..] == suffix }

  /** allowed, on the parts of the name. */
  predicate Allowed(parts: Path, directory: bool) {
    if directory then parts in DIRECTORIES
    else
      || parts in EXACT
      || (|parts| == 3 && parts[0] == "build" && parts[1] == "release"
            && StartsWith(parts[2], "mariamem-") && EndsWith(parts[2], "-corresponding-source.tar.gz"))
      || (|parts| == 3 && parts[0] == "build" && parts[1] == "dist"
            && StartsWith(parts[2], "mariamem-") && EndsWith(parts[2], ".whl"))
  }

  /** Accepted files have depth three, accepted directories at most two, so neither can stand in the other's way. */
  lemma Depths(parts: Path)
    ensures Allowed(parts, false) ==> |parts| == 3
    ensures Allowed(parts, true) ==> 1 <= |parts| <= 2
  {
  }

  // ---------- the first pass ----------

  /** The path and all its parents below the root. */
  predicate IsPrefix(p: Path, path: Path) { 0 < |p| <= |path| && p == path[..|p|] }

  ghost predicate HasLink(tree: Tree, path: Path) {
    exists k :: 0 < k <= |path| && path[..k] in tree && tree[path[..k]] == Link
  }

  /** One member passes the first pass, its name's uniqueness aside. */
  ghost predicate MemberOk(tree: Tree, m: Member) {
    var name := SafeName(m.name);
    && name.Some?
    && Allowed(name.value, m.kind == Directory)
    && m.kind != Special
    && !HasLink(tree, name.value)
    && (m.kind == Regular ==> name.value !in tree)
  }

  ghost predicate Accepted(tree: Tree, members: seq<Member>) {
    && (forall i | 0 <= i < |members| :: MemberOk(tree, members[i]))
    && (forall i, j | 0 <= i < j < |members| :: SafeName(members[i].name) != SafeName(members[j].name))
  }

  method LinkOnPath(tree: Tree, path: Path) returns (found: bool)
    ensures found == HasLink(tree, path)
  {
    for k := 1 to |path| + 1
      invariant forall j | 0 < j < k :: !(path[..j] in tree && tree[path[..j]] == Link)
    {
      if path[..k] in tree && tree[path[..k]] == Link { return true; }
    }
    found := false;
  }

  method Validate(tree: Tree, members: seq<Member>) returns (ok: bool)
    ensures ok == Accepted(tree, members)
  {
    var seen: set<Path> := {};
    for k := 0 to |members|
      invariant Accepted(tree, members[..k])
      invariant forall p :: p in seen <==> exists i :: 0 <= i < k && SafeName(members[i].name) == Some(p)
    {
      var m := members[k];
      var name := SafeName(m.name);
      assert MemberOk(tree, m) || !Accepted(tree, members);
      if name.None? || !Allowed(name.value, m.kind == Directory) { return false; }
      if name.value in seen {
        var i :| 0 <= i < k && SafeName(members[i].name) == name;
        return false;
      }
      seen := seen + {name.value};
      if m.kind == Special { return false; }
      var linked := LinkOnPath(tree, name.value);
      if linked { return false; }
      if m.kind == Regular && name.value in tree { return false; }
      assert members[..k + 1] == members[..k] + [m];
    }
    assert members[..|members|] == members;
    ok := true;
  }

  // ---------- the second pass ----------

  /** mkdir(parents=True, exist_ok=True) meets something that is no directory. */
  predicate Obstructed(tree: Tree, path: Path) {
    exists k :: 0 < k <= |path| && path[..k] in tree && tree[path[..k]] != Dir
  }

  ghost predicate MadeAt(tree: Tree, made: Tree, path: Path) {
    && (forall p :: p in made <==> p in tree || IsPrefix(p, path))
    && (forall p | p in tree :: made[p] == tree[p])
    && (forall p | p in made && p !in tree :: made[p] == Dir)
  }

  /** Only some of the directories. */
  ghost predicate MadeWithin(tree: Tree, made: Tree, path: Path) {
    && (forall p | p in tree :: p in made && made[p] == tree[p])
    && (forall p | p in made && p !in tree :: made[p] == Dir && IsPrefix(p, path))
  }

  method MakeDirectories(tree: Tree, path: Path) returns (ok: bool, made: Tree)
    ensures ok == !Obstructed(tree, path)
    ensures ok ==> MadeAt(tree, made, path)
    ensures !ok ==> MadeWithin(tree, made, path)
  {
    made := tree;
    for k := 1 to |path| + 1
      invariant forall j | 0 < j < k :: !(path[..j] in tree && tree[path[..j]] != Dir)
      invariant forall p :: p in made <==> p in tree || (IsPrefix(p, path) && |p| < k)
      invariant forall p | p in tree :: made[p] == tree[p]
      invariant forall p | p in made && p !in tree :: made[p] == Dir
    {
      if path[..k] in made && made[path[..k]] != Dir {
        assert path[..k] in tree;
        return false, made;
      }
      made := made[path[..k] := Dir];
    }
    ok := true;
  }

  /** The directories a member needs: its own path, or its file's parents. */
  function DirectoryOf(m: Member): Path {
    var parts := SafeName(m.name).GetOr([]);
    if m.kind == Directory || parts == [] then parts else parts[..|parts| - 1]
  }

  /** Some member asks for a directory where the old tree has something else. */
  ghost predicate Blocked(tree: Tree, members: seq<Member>) {
    exists i :: 0 <= i < |members| && Obstructed(tree, DirectoryOf(members[i]))
  }

  ghost predicate NeedsDirectory(members: seq<Member>, p: Path) {
    exists i :: 0 <= i < |members| && IsPrefix(p, DirectoryOf(members[i]))
  }

  ghost predicate BringsFile(members: seq<Member>, p: Path, f: Node) {
    exists i :: 0 <= i < |members| && members[i].kind == Regular && SafeName(members[i].name) == Some(p)
             && f == File(members[i].content, members[i].mode % 512)
  }

  /** The old tree plus exactly the members: nothing that existed has changed. */
  ghost predicate IsRestored(tree: Tree, members: seq<Member>, now: Tree) {
    && (forall p | p in tree :: p in now && now[p] == tree[p])
    && (forall p | NeedsDirectory(members, p) :: p in now)
    && (forall p, f | BringsFile(members, p, f) :: p in now && now[p] == f)
    && (forall p | p in now && p !in tree ::
          (now[p] == Dir && NeedsDirectory(members, p)) || BringsFile(members, p, now[p]))
  }

  /** The old tree plus what `earlier` members need and bring, and beyond that only what `all` of them do. */
  ghost predicate IsRestoredUpTo(tree: Tree, earlier: seq<Member>, all: seq<Member>, now: Tree) {
    && (forall p | p in tree :: p in now && now[p] == tree[p])
    && (forall p | NeedsDirectory(earlier, p) :: p in now)
    && (forall p, f | BringsFile(earlier, p, f) :: p in now && now[p] == f)
    && (forall p | p in now && p !in tree ::
          (now[p] == Dir && NeedsDirectory(all, p)) || BringsFile(all, p, now[p]))
  }

  /** Member k is the first whose directory the old tree blocks, and `partial` holds everything the members before it
      need and bring, possibly some directories for member k, and nothing else. */
  ghost predicate StoppedAt(tree: Tree, members: seq<Member>, k: nat, partial: Tree) {
    && k < |members| && Obstructed(tree, DirectoryOf(members[k])) && !Blocked(tree, members[..k])
    && IsRestoredUpTo(tree, members[..k], members[..k + 1], partial)
  }

  ghost predicate IsPartial(tree: Tree, members: seq<Member>, partial: Tree) {
    exists k :: StoppedAt(tree, members, k, partial)
  }

  datatype Outcome =
    | Rejected                 // nothing was written
    | Failed(partial: Tree)    // an operating-system error in the second pass
    | Restored(now: Tree)

  /** One member of the second pass, on the tree that the earlier members led to. */
  method WriteMember(ghost tree: Tree, ghost earlier: seq<Member>, cur: Tree, m: Member)
    returns (ok: bool, now: Tree)
    requires Accepted(tree, earlier + [m]) && IsRestored(tree, earlier, cur)
    ensures ok == !Obstructed(tree, DirectoryOf(m))
    ensures ok ==> IsRestored(tree, earlier + [m], now)
    ensures !ok ==> IsRestoredUpTo(tree, earlier, earlier + [m], now)
  {
    var parts := SafeName(m.name).value;
    assert m == (earlier + [m])[|earlier|];
    assert MemberOk(tree, m);
    EarlierDepths(tree, earlier, m);
    SameObstruction(tree, earlier, cur, DirectoryOf(m));
    ok, now := MakeDirectories(cur, DirectoryOf(m));
    if !ok {
      PartlyGrows(tree, earlier, cur, m, now);
      return;
    }
    ghost var made := now;
    if m.kind == Regular {
      NoFileThere(tree, earlier, cur, m);
      now := now[parts := File(m.content, m.mode % 512)];
    }
    RestoredGrows(tree, earlier, cur, m, made, now);
  }

  lemma EarlierDepths(tree: Tree, earlier: seq<Member>, m: Member)
    requires Accepted(tree, earlier + [m])
    ensures |DirectoryOf(m)| <= 2
    ensures forall p | NeedsDirectory(earlier, p) :: |p| <= 2
    ensures forall p, f | BringsFile(earlier, p, f) :: |p| == 3
  {
    var all := earlier + [m];
    forall i | 0 <= i < |all|
      ensures SafeName(all[i].name).Some? && |DirectoryOf(all[i])| <= 2
      ensures all[i].kind == Regular ==> |SafeName(all[i].name).value| == 3
    {
      assert MemberOk(tree, all[i]);
      Depths(SafeName(all[i].name).value);
    }
    assert all[|earlier|] == m;
    assert forall i | 0 <= i < |earlier| :: all[i] == earlier[i];
  }

  lemma ShortIsDirectory(tree: Tree, earlier: seq<Member>, cur: Tree, p: Path)
    requires IsRestored(tree, earlier, cur) && p in cur && p !in tree && |p| != 3
    requires forall q, f | BringsFile(earlier, q, f) :: |q| == 3
    ensures cur[p] == Dir
  {
  }

  /** What earlier members wrote is in the way of no directory. */
  lemma SameObstruction(tree: Tree, earlier: seq<Member>, cur: Tree, path: Path)
    requires IsRestored(tree, earlier, cur) && |path| <= 2
    requires forall p, f | BringsFile(earlier, p, f) :: |p| == 3
    ensures Obstructed(cur, path) <==> Obstructed(tree, path)
  {
    forall k | 0 < k <= |path|
      ensures (path[..k] in cur && cur[path[..k]] != Dir) <==> (path[..k] in tree && tree[path[..k]] != Dir)
    {
      var p := path[..k];
      if p in cur && p !in tree { ShortIsDirectory(tree, earlier, cur, p); }
    }
  }

  lemma NoFileThere(tree: Tree, earlier: seq<Member>, cur: Tree, m: Member)
    requires Accepted(tree, earlier + [m]) && IsRestored(tree, earlier, cur) && m.kind == Regular
    ensures SafeName(m.name).Some? && SafeName(m.name).value !in cur
  {
    var all := earlier + [m];
    assert all[|earlier|] == m && MemberOk(tree, m);
    var parts := SafeName(m.name).value;
    Depths(parts);
    EarlierDepths(tree, earlier, m);
    assert forall i | 0 <= i < |earlier| :: all[i] == earlier[i] && SafeName(earlier[i].name) != Some(parts);
    assert forall f :: !BringsFile(earlier, parts, f);
  }

  /** The tree after one more member: its directories, then its file. */
  ghost predicate OneMore(cur: Tree, m: Member, made: Tree, now: Tree) {
    && MadeAt(cur, made, DirectoryOf(m))
    && now == (if m.kind == Regular then made[SafeName(m.name).GetOr([]) := File(m.content, m.mode % 512)] else made)
  }

  lemma OneMoreContains(tree: Tree, earlier: seq<Member>, cur: Tree, m: Member, made: Tree, now: Tree)
    requires IsRestored(tree, earlier, cur) && OneMore(cur, m, made, now) && SafeName(m.name).Some?
    requires m.kind == Directory || (m.kind == Regular && SafeName(m.name).value !in cur)
    ensures forall p | p in tree :: p in now && now[p] == tree[p]
    ensures forall p | NeedsDirectory(earlier + [m], p) :: p in now
    ensures forall p, f | BringsFile(earlier + [m], p, f) :: p in now && now[p] == f
  {
    forall p | NeedsDirectory(earlier + [m], p)
      ensures p in now
    {
      NeedsOneMore(earlier, m, p);
    }
    forall p, f | BringsFile(earlier + [m], p, f)
      ensures p in now && now[p] == f
    {
      BringsOneMore(earlier, m, p, f);
    }
  }

  lemma OneMoreAddsOnly(tree: Tree, earlier: seq<Member>, cur: Tree, m: Member, made: Tree, now: Tree, p: Path)
    requires IsRestored(tree, earlier, cur) && OneMore(cur, m, made, now) && SafeName(m.name).Some?
    requires p in now && p !in tree
    ensures (now[p] == Dir && NeedsDirectory(earlier + [m], p)) || BringsFile(earlier + [m], p, now[p])
  {
    NeedsOneMore(earlier, m, p);
    BringsOneMore(earlier, m, p, now[p]);
  }

  lemma RestoredGrows(tree: Tree, earlier: seq<Member>, cur: Tree, m: Member, made: Tree, now: Tree)
    requires IsRestored(tree, earlier, cur) && OneMore(cur, m, made, now) && SafeName(m.name).Some?
    requires m.kind == Directory || (m.kind == Regular && SafeName(m.name).value !in cur)
    ensures IsRestored(tree, earlier + [m], now)
  {
    OneMoreContains(tree, earlier, cur, m, made, now);
    forall p | p in now && p !in tree
      ensures (now[p] == Dir && NeedsDirectory(earlier + [m], p)) || BringsFile(earlier + [m], p, now[p])
    {
      OneMoreAddsOnly(tree, earlier, cur, m, made, now, p);
    }
  }

  lemma PartlyGrows(tree: Tree, earlier: seq<Member>, cur: Tree, m: Member, now: Tree)
    requires IsRestored(tree, earlier, cur) && MadeWithin(cur, now, DirectoryOf(m))
    ensures IsRestoredUpTo(tree, earlier, earlier + [m], now)
  {
    forall p | p in now && p !in tree
      ensures (now[p] == Dir && NeedsDirectory(earlier + [m], p)) || BringsFile(earlier + [m], p, now[p])
    {
      NeedsOneMore(earlier, m, p);
      BringsOneMore(earlier, m, p, now[p]);
    }
  }

  lemma FirstObstructed(tree: Tree, members: seq<Member>, k: nat, now: Tree)
    requires k < |members| && !Blocked(tree, members[..k]) && Obstructed(tree, DirectoryOf(members[k]))
    requires IsRestoredUpTo(tree, members[..k], members[..k + 1], now)
    ensures IsPartial(tree, members, now) && Blocked(tree, members)
  {
    assert StoppedAt(tree, members, k, now);
  }

  lemma NeedsOneMore(earlier: seq<Member>, m: Member, p: Path)
    ensures NeedsDirectory(earlier + [m], p) <==> NeedsDirectory(earlier, p) || IsPrefix(p, DirectoryOf(m))
  {
    var all := earlier + [m];
    assert all[|earlier|] == m;
    if NeedsDirectory(earlier, p) {
      var i :| 0 <= i < |earlier| && IsPrefix(p, DirectoryOf(earlier[i]));
      assert all[i] == earlier[i];
    }
  }

  lemma BringsOneMore(earlier: seq<Member>, m: Member, p: Path, g: Node)
    ensures BringsFile(earlier + [m], p, g) <==>
              BringsFile(earlier, p, g)
              || (m.kind == Regular && SafeName(m.name) == Some(p) && g == File(m.content, m.mode % 512))
  {
    var all := earlier + [m];
    assert all[|earlier|] == m;
    if BringsFile(earlier, p, g) {
      var i :| 0 <= i < |earlier| && earlier[i].kind == Regular && SafeName(earlier[i].name) == Some(p)
            && g == File(earlier[i].content, earlier[i].mode % 512);
      assert all[i] == earlier[i];
    }
  }

  /** restore_handoff: nothing is written if the digest differs or any member is rejected; the second pass succeeds
      exactly when the old tree has directories, or nothing, wherever a member needs one; and then the tree is the
      old one plus exactly the members. Even when it fails half way, nothing that existed has changed. */
  method RestoreHandoff(digestMatches: bool, members: seq<Member>, tree: Tree) returns (r: Outcome)
    ensures r == Rejected <==> !digestMatches || !Accepted(tree, members)
    ensures r.Failed? <==> digestMatches && Accepted(tree, members) && Blocked(tree, members)
    ensures r.Restored? ==> IsRestored(tree, members, r.now)
    ensures r.Failed? ==> IsPartial(tree, members, r.partial)
  {
    if !digestMatches { return Rejected; }
    var ok := Validate(tree, members);
    if !ok { return Rejected; }
    r := WriteAll(members, tree);
  }

  /** The second pass on validated members. */
  method WriteAll(members: seq<Member>, tree: Tree) returns (r: Outcome)
    requires Accepted(tree, members)
    ensures r.Failed? <==> Blocked(tree, members)
    ensures r.Failed? ==> IsPartial(tree, members, r.partial)
    ensures !r.Failed? ==> r.Restored? && IsRestored(tree, members, r.now)
  {
    var cur := tree;
    assert members[..0] == [];
    for k := 0 to |members|
      invariant IsRestored(tree, members[..k], cur)
      invariant !Blocked(tree, members[..k])
    {
      assert members[..k + 1] == members[..k] + [members[k]];
      AcceptedSoFar(tree, members, k + 1);
      var written, now := WriteMember(tree, members[..k], cur, members[k]);
      if !written {
        FirstObstructed(tree, members, k, now);
        return Failed(now);
      }
      BlockedOneMore(tree, members[..k], members[k]);
      cur := now;
    }
    assert members[..|members|] == members;
    r := Restored(cur);
  }

  lemma AcceptedSoFar(tree: Tree, members: seq<Member>, k: nat)
    requires Accepted(tree, members) && k <= |members|
    ensures Accepted(tree, members[..k])
  {
  }

  lemma BlockedOneMore(tree: Tree, earlier: seq<Member>, m: Member)
    requires !Blocked(tree, earlier) && !Obstructed(tree, DirectoryOf(m))
    ensures !Blocked(tree, earlier + [m])
  {
    forall i | 0 <= i < |earlier + [m]|
      ensures !Obstructed(tree, DirectoryOf((earlier + [m])[i]))
    {
      if i < |earlier| { assert (earlier + [m])[i] == earlier[i]; }
    }
  }

  // ---------- order ----------

  ghost predicate SameMembers(a: seq<Member>, b: seq<Member>) { forall m :: m in a <==> m in b }

  lemma SameNeeds(a: seq<Member>, b: seq<Member>, p: Path, f: Node)
    requires SameMembers(a, b)
    ensures NeedsDirectory(a, p) ==> NeedsDirectory(b, p)
    ensures BringsFile(a, p, f) ==> BringsFile(b, p, f)
  {
    if NeedsDirectory(a, p) {
      var i :| 0 <= i < |a| && IsPrefix(p, DirectoryOf(a[i]));
      assert a[i] in b;
      var j :| 0 <= j < |b| && b[j] == a[i];
    }
    if BringsFile(a, p, f) {
      var i :| 0 <= i < |a| && a[i].kind == Regular && SafeName(a[i].name) == Some(p)
            && f == File(a[i].content, a[i].mode % 512);
      assert a[i] in b;
      var j :| 0 <= j < |b| && b[j] == a[i];
    }
  }

  lemma RestoredHolds(tree: Tree, a: seq<Member>, b: seq<Member>, x: Tree, y: Tree, p: Path)
    requires SameMembers(a, b) && IsRestored(tree, a, x) && IsRestored(tree, b, y) && Accepted(tree, b)
    requires p in x
    ensures p in y && y[p] == x[p]
  {
    if p !in tree {
      SameNeeds(a, b, p, x[p]);
      if !BringsFile(b, p, x[p]) {
        assert NeedsDirectory(b, p) && x[p] == Dir;
        assert p in y;
        if BringsFile(b, p, y[p]) { NeedIsNoFile(tree, b, p, y[p]); }
      }
    }
  }

  lemma NeedIsNoFile(tree: Tree, b: seq<Member>, p: Path, f: Node)
    requires Accepted(tree, b) && NeedsDirectory(b, p)
    ensures !BringsFile(b, p, f)
  {
    forall i | 0 <= i < |b|
      ensures SafeName(b[i].name).Some? && |DirectoryOf(b[i])| <= 2
      ensures b[i].kind == Regular ==> |SafeName(b[i].name).value| == 3
    {
      assert MemberOk(tree, b[i]);
      Depths(SafeName(b[i].name).value);
    }
  }

  /** Two results of the same members are the same tree. */
  lemma SameResult(tree: Tree, a: seq<Member>, b: seq<Member>, x: Tree, y: Tree)
    requires SameMembers(a, b) && Accepted(tree, a) && Accepted(tree, b)
    requires IsRestored(tree, a, x) && IsRestored(tree, b, y)
    ensures x == y
  {
    forall p | p in x
      ensures p in y && y[p] == x[p]
    {
      RestoredHolds(tree, a, b, x, y, p);
    }
    forall p | p in y
      ensures p in x
    {
      RestoredHolds(tree, b, a, y, x, p);
    }
    assert x.Keys == y.Keys;
  }

  lemma CountsTwice(s: seq<Member>, i: nat, j: nat)
    requires i < j < |s| && s[i] == s[j]
    ensures multiset(s)[s[i]] >= 2
  {
    assert s == s[..j] + s[j..];
    assert s[i] == s[..j][i] && s[j] == s[j..][0];
    assert s[i] in s[..j] && s[i] in s[j..];
  }

  lemma {:induction false} CountsOnce(s: seq<Member>, m: Member)
    requires forall i, j | 0 <= i < j < |s| :: s[i] != s[j]
    ensures multiset(s)[m] <= 1
  {
    if s != [] {
      var n := |s| - 1;
      CountsOnce(s[..n], m);
      assert s == s[..n] + [s[n]];
      if m == s[n] { assert m !in s[..n]; }
    }
  }

  lemma AcceptedEitherWay(tree: Tree, a: seq<Member>, b: seq<Member>)
    requires multiset(a) == multiset(b) && Accepted(tree, a)
    ensures Accepted(tree, b)
  {
    SameMultiset(a, b);
    forall i | 0 <= i < |b|
      ensures MemberOk(tree, b[i])
    {
      assert b[i] in a;
    }
    forall i, j | 0 <= i < j < |b|
      ensures SafeName(b[i].name) != SafeName(b[j].name)
    {
      assert b[i] in a && b[j] in a;
      if b[i] == b[j] {
        CountsTwice(b, i, j);
        CountsOnce(a, b[i]);
      }
    }
  }

  lemma SameMultiset(a: seq<Member>, b: seq<Member>)
    requires multiset(a) == multiset(b)
    ensures SameMembers(a, b)
  {
    forall m
      ensures m in a <==> m in b
    {
      assert m in a <==> m in multiset(a);
      assert m in b <==> m in multiset(b);
    }
  }

  lemma BlockedEitherWay(tree: Tree, a: seq<Member>, b: seq<Member>)
    requires SameMembers(a, b) && Blocked(tree, a)
    ensures Blocked(tree, b)
  {
    var i :| 0 <= i < |a| && Obstructed(tree, DirectoryOf(a[i]));
    assert a[i] in b;
    var j :| 0 <= j < |b| && b[j] == a[i];
  }

  /** For two orders of the same members the first pass decides alike, the second pass succeeds or fails alike, and a
      restored tree is the same. */
  lemma OrderDoesNotMatter(tree: Tree, a: seq<Member>, b: seq<Member>)
    requires multiset(a) == multiset(b)
    ensures Accepted(tree, a) <==> Accepted(tree, b)
    ensures Blocked(tree, a) <==> Blocked(tree, b)
    ensures Accepted(tree, a) ==> forall x, y | IsRestored(tree, a, x) && IsRestored(tree, b, y) :: x == y
  {
    SameMultiset(a, b);
    if Accepted(tree, a) { AcceptedEitherWay(tree, a, b); }
    if Accepted(tree, b) { AcceptedEitherWay(tree, b, a); }
    if Blocked(tree, a) { BlockedEitherWay(tree, a, b); }
    if Blocked(tree, b) { BlockedEitherWay(tree, b, a); }
    if Accepted(tree, a) {
      forall x, y | IsRestored(tree, a, x) && IsRestored(tree, b, y)
        ensures x == y
      {
        SameResult(tree, a, b, x, y);
      }
    }
  }

  lemma TestsMade(tree: Tree, members: seq<Member>, partial: Tree)
    requires |members| == 2 && DirectoryOf(members[0]) == ["tests"] && !Obstructed(tree, ["tests"])
    requires IsPartial(tree, members, partial)
    ensures ["tests"] in partial
  {
    var k :| StoppedAt(tree, members, k, partial);
    assert k == 1;
    assert IsPrefix(["tests"], DirectoryOf(members[..1][0]));
    assert NeedsDirectory(members[..1], ["tests"]);
  }

  /** Validation alone does not make the second pass safe: with a regular file where "build" should be, an accepted
      archive whose other directory comes first is stopped, and only after that directory was made. */
  lemma ValidationIsNotEnough(partial: Tree)
    ensures var tree: Tree := map[["build"] := File([], 0)];
            var members := [Member("tests", Directory, [], 0), Member("build/dist", Directory, [], 0)];
            && Accepted(tree, members) && Blocked(tree, members)
            && ["tests"] !in tree
            && (IsPartial(tree, members, partial) ==> ["tests"] in partial)
  {
    var tree: Tree := map[["build"] := File([], 0)];
    var tests, dist := Member("tests", Directory, [], 0), Member("build/dist", Directory, [], 0);
    var members := [tests, dist];
    TestsName();
    DistName();
    assert ["build", "dist"][..1] == ["build"];
    assert MemberOk(tree, tests) && MemberOk(tree, dist);
    assert Obstructed(tree, DirectoryOf(dist)) by { assert DirectoryOf(dist)[..1] in tree; }
    assert members[1] == dist;
    assert !Obstructed(tree, DirectoryOf(tests)) by { assert DirectoryOf(tests)[..1] == ["tests"]; }
    if IsPartial(tree, members, partial) { TestsMade(tree, members, partial); }
  }

  lemma {:induction false} ReadPart(part: string, s: string, rest: string)
    requires '/' !in s
    ensures PartsFrom(part, s + rest) == PartsFrom(part + s, rest)
    decreases |s|
  {
    if s == [] {
      assert s + rest == rest && part + s == part;
    } else {
      assert (s + rest)[1..] == s[1..] + rest;
      ReadPart(part + [s[0]], s[1..], rest);
      assert part + [s[0]] + s[1..] == part + s;
    }
  }

  lemma TestsName()
    ensures SafeName("tests") == Some(["tests"])
  {
    ReadPart("", "tests", "");
    assert "tests" + "" == "tests" && "" + "tests" == "tests";
  }

  lemma DistParts()
    ensures PartsFrom([], "build/dist") == ["build", "dist"]
  {
    ReadPart("", "build", "/dist");
    assert "build" + "/dist" == "build/dist" && "" + "build" == "build";
    assert "/dist"[1..] == "dist";
    ReadPart("", "dist", "");
    assert "dist" + "" == "dist" && "" + "dist" == "dist";
    assert PartsFrom("build", "/dist") == ["build"] + PartsFrom([], "dist");
    assert ["build"] + ["dist"] == ["build", "dist"];
  }

  lemma DistName()
    ensures SafeName("build/dist") == Some(["build", "dist"])
  {
    DistParts();
    assert '\\' !in "build/dist";
  }

  // ---------- names and their texts ----------

  /** A part that survives normalisation. */
  predicate CleanPart(part: string) { part != [] && part != "." && '/' !in part }

  ghost predicate CleanParts(parts: Path) { forall i | 0 <= i < |parts| :: CleanPart(parts[i]) }

  /** The text of a path. */
  function Joined(parts: Path): string {
    if parts == [] then [] else if |parts| == 1 then parts[0] else parts[0] + "/" + Joined(parts[1..])
  }

  lemma {:induction false} PartsAreClean(part: string, s: string)
    requires '/' !in part
    ensures CleanParts(PartsFrom(part, s))
    decreases |s|
  {
    if s != [] {
      if s[0] == '/' { PartsAreClean([], s[1..]); } else { PartsAreClean(part + [s[0]], s[1..]); }
    }
  }

  /** Normalising the text of clean parts gives the parts back. */
  lemma {:induction false} JoinedIsRead(parts: Path)
    requires CleanParts(parts)
    ensures PartsFrom([], Joined(parts)) == parts
    decreases |parts|
  {
    if parts != [] {
      var first := parts[0];
      assert CleanPart(first) && [] + first == first;
      if |parts| == 1 {
        ReadPart([], first, []);
        assert first + [] == first;
      } else {
        var rest := Joined(parts[1..]);
        JoinedIsRead(parts[1..]);
        ReadPart([], first, "/" + rest);
        assert first + ("/" + rest) == Joined(parts);
        assert ("/" + rest)[1..] == rest;
        assert [first] + parts[1..] == parts;
      }
    }
  }

  /** Which names are safe, and what they normalise to: never absolute, empty, with a backslash or a parent step; and a
      clean relative text is its own normal form. */
  lemma SafeNameIs(name: string)
    ensures SafeName(name).Some? ==>
              && CleanParts(SafeName(name).value) && SafeName(name).value != [] && ".." !in SafeName(name).value
              && '\\' !in name && name[0] != '/'
  {
    PartsAreClean([], name);
    if name == [] { assert PartsFrom([], name) == []; }
  }

  lemma SafeNameRoundTrip(parts: Path)
    requires CleanParts(parts) && parts != [] && ".." !in parts && '\\' !in Joined(parts)
    ensures SafeName(Joined(parts)) == Some(parts)
  {
    JoinedIsRead(parts);
    assert CleanPart(parts[0]);
    assert Joined(parts)[0] == parts[0][0];
  }
}
