/** large_retained of scripts/experiment_workspace.py: one bottom-up walk sizes every file and directory. */
module LargeRetained {
  import opened Workspace

  const GIB: nat := 0x4000_0000

  /** Names are unique within a directory. */
  ghost predicate WellFormed(node: Node) {
    node.Dir? ==>
      && (forall i, j | 0 <= i < j < |node.entries| :: node.entries[i].name != node.entries[j].name)
      && (forall i | 0 <= i < |node.entries| :: WellFormed(node.entries[i].node))
  }

  /** The bytes allocated to regular files at and below `path`; links count nothing. */
  ghost function Total(node: Node, path: Path, blocks: Path -> nat): nat
    decreases node
  {
    match node
    case File(_) => blocks(path)
    case Link => 0
    case Dir(entries) => TotalOf(entries, path, blocks)
  }

  ghost function TotalOf(entries: seq<Entry>, path: Path, blocks: Path -> nat): nat
    decreases entries
  {
    if entries == [] then 0
    else
      var last := entries[|entries| - 1];
      TotalOf(entries[..|entries| - 1], path, blocks) + Total(last.node, path + [last.name], blocks)
  }

  type Sizes = map<Path, nat>

  /** A file or directory, not a link, stands at `p` at or below `node`, which itself stands at `path`. */
  ghost predicate Holds(node: Node, path: Path, p: Path, leaf: Node) {
    path <= p && At(node, p[|path|..], leaf) && leaf != Link
  }

  ghost predicate Sized(sizes: Sizes, p: Path, leaf: Node, blocks: Path -> nat) {
    p in sizes && sizes[p] == Total(leaf, p, blocks)
  }

  /** The dictionary of the walk: exactly the files and directories at and below `path`, each with its total. */
  ghost predicate SizesOf(node: Node, path: Path, blocks: Path -> nat, sizes: Sizes) {
    && (forall p, leaf | Holds(node, path, p, leaf) :: Sized(sizes, p, leaf, blocks))
    && (forall p | p in sizes :: exists leaf :: Holds(node, path, p, leaf))
  }

  ghost predicate Through(e: Entry, path: Path, p: Path, leaf: Node) { Holds(e.node, path + [e.name], p, leaf) }

  /** The same for some entries of a directory, without the directory itself. */
  ghost predicate SizesOfEntries(entries: seq<Entry>, path: Path, blocks: Path -> nat, sizes: Sizes) {
    && (forall i, p, leaf | 0 <= i < |entries| && Through(entries[i], path, p, leaf) ::
          Sized(sizes, p, leaf, blocks))
    && (forall p | p in sizes :: exists i, leaf :: 0 <= i < |entries| && Through(entries[i], path, p, leaf))
  }

  lemma FirstStep(e: Entry, path: Path, p: Path, leaf: Node)
    requires Through(e, path, p, leaf)
    ensures |p| > |path| && p[|path|] == e.name
  {
    assert (path + [e.name])[|path|] == p[|path|];
  }

  lemma PlacesBelow(e: Entry, path: Path, blocks: Path -> nat, more: Sizes)
    requires SizesOf(e.node, path + [e.name], blocks, more)
    ensures forall p | p in more :: |p| > |path| && p[|path|] == e.name
  {
    forall p | p in more
      ensures |p| > |path| && p[|path|] == e.name
    {
      var leaf :| Holds(e.node, path + [e.name], p, leaf);
      FirstStep(e, path, p, leaf);
    }
  }

  /** Different names lead to different places. */
  lemma OtherPlaces(entries: seq<Entry>, e: Entry, path: Path, blocks: Path -> nat, more: Sizes, i: nat, p: Path, leaf: Node)
    requires i < |entries| && entries[i].name != e.name && Through(entries[i], path, p, leaf)
    requires SizesOf(e.node, path + [e.name], blocks, more)
    ensures p !in more
  {
    FirstStep(entries[i], path, p, leaf);
    PlacesBelow(e, path, blocks, more);
  }

  lemma EntryFound(entries: seq<Entry>, e: Entry, path: Path, blocks: Path -> nat, sizes: Sizes, more: Sizes, i: nat,
                   p: Path, leaf: Node)
    requires SizesOfEntries(entries, path, blocks, sizes)
    requires forall j | 0 <= j < |entries| :: entries[j].name != e.name
    requires SizesOf(e.node, path + [e.name], blocks, more)
    requires i <= |entries| && Through(if i < |entries| then entries[i] else e, path, p, leaf)
    ensures Sized(sizes + more, p, leaf, blocks)
  {
    if i < |entries| {
      OtherPlaces(entries, e, path, blocks, more, i, p, leaf);
      assert Sized(sizes, p, leaf, blocks);
    } else {
      assert Sized(more, p, leaf, blocks);
    }
  }

  lemma EntriesGrow(entries: seq<Entry>, e: Entry, path: Path, blocks: Path -> nat, sizes: Sizes, more: Sizes)
    requires SizesOfEntries(entries, path, blocks, sizes)
    requires forall i | 0 <= i < |entries| :: entries[i].name != e.name
    requires SizesOf(e.node, path + [e.name], blocks, more)
    ensures SizesOfEntries(entries + [e], path, blocks, sizes + more)
  {
    var longer, all := entries + [e], sizes + more;
    forall i, p, leaf | 0 <= i < |longer| && Through(longer[i], path, p, leaf)
      ensures Sized(all, p, leaf, blocks)
    {
      EntryFound(entries, e, path, blocks, sizes, more, i, p, leaf);
    }
    forall p | p in all
      ensures exists i, leaf :: 0 <= i < |longer| && Through(longer[i], path, p, leaf)
    {
      if p in more {
        var leaf :| Holds(e.node, path + [e.name], p, leaf);
        assert Through(longer[|entries|], path, p, leaf);
      } else {
        var i, leaf :| 0 <= i < |entries| && Through(entries[i], path, p, leaf);
        assert Through(longer[i], path, p, leaf);
      }
    }
  }

  lemma LinkHoldsNothing(path: Path, blocks: Path -> nat)
    ensures SizesOf(Link, path, blocks, map[])
  {
    assert forall rest, leaf :: At(Link, rest, leaf) ==> leaf == Link;
  }

  lemma FileHoldsItself(node: Node, path: Path, blocks: Path -> nat)
    requires node.File?
    ensures SizesOf(node, path, blocks, map[path := blocks(path)])
  {
    assert path[|path|..] == [];
    assert Holds(node, path, path, node);
    forall p, leaf | Holds(node, path, p, leaf)
      ensures p == path && leaf == node
    {
      assert p[|path|..] == [];
    }
  }

  lemma BelowIsThrough(node: Node, path: Path, p: Path, leaf: Node) returns (i: nat)
    requires node.Dir? && Holds(node, path, p, leaf) && p != path
    ensures i < |node.entries| && Through(node.entries[i], path, p, leaf)
  {
    var rest := p[|path|..];
    assert p == path + rest;
    i :| i < |node.entries| && node.entries[i].name == rest[0] && At(node.entries[i].node, rest[1..], leaf);
    assert p == (path + [rest[0]]) + rest[1..];
    assert p[|path + [rest[0]]|..] == rest[1..];
  }

  lemma ThroughIsBelow(node: Node, path: Path, p: Path, leaf: Node, i: nat)
    requires node.Dir? && i < |node.entries| && Through(node.entries[i], path, p, leaf)
    ensures Holds(node, path, p, leaf) && p != path
  {
    var here := path + [node.entries[i].name];
    assert p == here + p[|here|..];
    assert p[|path|..][0] == node.entries[i].name && p[|path|..][1..] == p[|here|..];
  }

  lemma WholeNode(node: Node, path: Path, blocks: Path -> nat, below: Sizes)
    requires node.Dir? && SizesOfEntries(node.entries, path, blocks, below)
    ensures SizesOf(node, path, blocks, below[path := Total(node, path, blocks)])
  {
    var sizes := below[path := Total(node, path, blocks)];
    forall p, leaf | Holds(node, path, p, leaf)
      ensures Sized(sizes, p, leaf, blocks)
    {
      if p == path {
        assert p[|path|..] == [];
        assert leaf == node;
      } else {
        var i := BelowIsThrough(node, path, p, leaf);
        assert Through(node.entries[i], path, p, leaf);
        assert Sized(below, p, leaf, blocks);
      }
    }
    forall p | p in sizes
      ensures exists leaf :: Holds(node, path, p, leaf)
    {
      if p == path {
        assert path[|path|..] == [];
        assert Holds(node, path, path, node);
      } else {
        var i, leaf :| 0 <= i < |node.entries| && Through(node.entries[i], path, p, leaf);
        ThroughIsBelow(node, path, p, leaf, i);
      }
    }
  }

  /** The walk below one directory. */
  method SizeDirectory(node: Node, path: Path, blocks: Path -> nat) returns (sizes: Sizes)
    requires node.Dir? && WellFormed(node)
    ensures SizesOf(node, path, blocks, sizes)
    ensures path in sizes && sizes[path] == Total(node, path, blocks)
    decreases node, 1
  {
    sizes := map[];
    var total: nat := 0;
    var es := node.entries;
    for k := 0 to |es|
      invariant SizesOfEntries(es[..k], path, blocks, sizes)
      invariant total == TotalOf(es[..k], path, blocks)
    {
      var more, size := SizeEntry(es[k], path, blocks);
      assert es[..k + 1] == es[..k] + [es[k]] && es[..k + 1][..k] == es[..k];
      EntriesGrow(es[..k], es[k], path, blocks, sizes, more);
      sizes, total := sizes + more, total + size;
    }
    assert es[..|es|] == es;
    WholeNode(node, path, blocks, sizes);
    sizes := sizes[path := total];
  }

  /** One entry: a file counts itself, a directory has been walked before, a link counts nothing. */
  method SizeEntry(e: Entry, path: Path, blocks: Path -> nat) returns (more: Sizes, size: nat)
    requires WellFormed(e.node)
    ensures SizesOf(e.node, path + [e.name], blocks, more)
    ensures size == Total(e.node, path + [e.name], blocks)
    decreases e.node, 2
  {
    var here := path + [e.name];
    match e.node
    case Link =>
      LinkHoldsNothing(here, blocks);
      more, size := map[], 0;
    case File(_) =>
      FileHoldsItself(e.node, here, blocks);
      more, size := map[here := blocks(here)], blocks(here);
    case Dir(_) =>
      more := SizeDirectory(e.node, here, blocks);
      size := more[here];
  }

  /** `size` is what the file or directory at `p` holds, and it is more than 1 GiB. */
  ghost predicate IsLarge(root: Node, blocks: Path -> nat, p: Path, size: nat) {
    size > GIB && exists leaf :: Holds(root, [], p, leaf) && size == Total(leaf, p, blocks)
  }

  /** The report names exactly the files and directories that hold more than 1 GiB, each with its true size. */
  method LargePaths(root: Node, blocks: Path -> nat) returns (large: Sizes)
    requires root.Dir? && WellFormed(root)
    ensures forall p | p in large :: IsLarge(root, blocks, p, large[p])
    ensures forall p, size | IsLarge(root, blocks, p, size) :: p in large && large[p] == size
  {
    var sizes := SizeDirectory(root, [], blocks);
    large := map p | p in sizes && sizes[p] > GIB :: sizes[p];
  }
}
