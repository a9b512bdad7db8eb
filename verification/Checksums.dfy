/** The SHA256SUMS format: the printer of scripts/generated_release.py and the two independent readers,
    scripts/release_plan.py (also scripts/ci_release_publish.py) and scripts/published_assets.py. */
module Checksums {
  import opened Hex

  type Assets = map<string, string>   // name -> hash

  const SUMS: string := "SHA256SUMS"

  // ---------- text and lines ----------

  /** The characters at which Python's str.splitlines breaks. */
  predicate IsBreak(c: char) {
    c == '\n' || c == '\r' || c == '\U{0B}' || c == '\U{0C}' || c == '\U{1C}' || c == '\U{1D}' || c == '\U{1E}'
    || c == '\U{85}' || c == '\U{2028}' || c == '\U{2029}'
  }

  predicate HasBreak(s: string) { exists i :: 0 <= i < |s| && IsBreak(s[i]) }

  /** The length of the break at the head of `s`: "\r\n" counts as one. */
  function BreakLength(s: string): nat
    requires s != []
  {
    if |s| > 1 && s[0] == '\r' && s[1] == '\n' then 2 else 1
  }

  /** str.splitlines: `line` is what has been read of the current line. */
  function SplitFrom(line: string, s: string): seq<string>
    decreases |s|
  {
    if s == [] then if line == [] then [] else [line]
    else if IsBreak(s[0]) then [line] + SplitFrom([], s[BreakLength(s)..])
    else SplitFrom(line + [s[0]], s[1..])
  }

  function SplitLines(s: string): seq<string> { SplitFrom([], s) }

  function Text(lines: seq<string>): string {
    if lines == [] then [] else lines[0] + ['\n'] + Text(lines[1..])
  }

  lemma {:induction false} SplitFirstLine(read: string, line: string, rest: string)
    requires !HasBreak(line)
    ensures SplitFrom(read, line + ['\n'] + rest) == [read + line] + SplitFrom([], rest)
    decreases |line|
  {
    var s := line + ['\n'] + rest;
    if line == [] {
      assert s[0] == '\n' && s[1..] == rest;
      assert read + line == read;
    } else {
      assert s[0] == line[0] && !IsBreak(line[0]);
      assert s[1..] == line[1..] + ['\n'] + rest;
      SplitFirstLine(read + [line[0]], line[1..], rest);
      assert read + [line[0]] + line[1..] == read + line;
    }
  }

  /** Lines without breaks survive being written out and split again. */
  lemma {:induction false} SplitText(lines: seq<string>)
    requires forall i | 0 <= i < |lines| :: !HasBreak(lines[i])
    ensures SplitLines(Text(lines)) == lines
  {
    if lines != [] {
      SplitFirstLine([], lines[0], Text(lines[1..]));
      SplitText(lines[1..]);
      assert [] + lines[0] == lines[0];
    }
  }

  lemma {:induction false} SplitHasNoBreaks(read: string, s: string)
    requires !HasBreak(read)
    ensures forall line | line in SplitFrom(read, s) :: !HasBreak(line)
    decreases |s|
  {
    if s != [] {
      if IsBreak(s[0]) {
        SplitHasNoBreaks([], s[BreakLength(s)..]);
      } else {
        SplitHasNoBreaks(read + [s[0]], s[1..]);
      }
    }
  }

  /** The line breaks of Python text: the single characters, and the pair. */
  const LINE_BREAKS: seq<string> := [
    "\n", "\r", "\U{0B}", "\U{0C}", "\U{1C}", "\U{1D}", "\U{1E}", "\U{85}", "\U{2028}", "\U{2029}", "\r\n"
  ]

  lemma BreaksAreBreaks(br: string, rest: string)
    requires br in LINE_BREAKS && !(br == "\r" && rest != [] && rest[0] == '\n')
    ensures 1 <= |br| <= 2 && IsBreak(br[0]) && BreakLength(br + rest) == |br|
  {
  }

  /** Every line break ends a line, and takes nothing else with it. */
  lemma {:induction false} SplitAtBreak(read: string, line: string, br: string, rest: string)
    requires !HasBreak(line) && br in LINE_BREAKS && !(br == "\r" && rest != [] && rest[0] == '\n')
    ensures SplitFrom(read, line + br + rest) == [read + line] + SplitFrom([], rest)
    decreases |line|
  {
    var s := line + br + rest;
    BreaksAreBreaks(br, rest);
    if line == [] {
      assert s == br + rest && read + line == read;
      assert s[|br|..] == rest;
    } else {
      assert s[0] == line[0] && s[1..] == line[1..] + br + rest;
      assert forall i | 0 <= i < |line[1..]| :: line[1..][i] == line[i + 1];
      SplitAtBreak(read + [line[0]], line[1..], br, rest);
      assert read + [line[0]] + line[1..] == read + line;
    }
  }

  // ---------- line.split('  ') ----------

  predicate DoubleAt(s: string, i: nat) { i + 1 < |s| && s[i] == ' ' && s[i + 1] == ' ' }

  predicate HasDouble(s: string) { exists i: nat :: i < |s| && DoubleAt(s, i) }

  function SplitDoubleFrom(field: string, s: string): seq<string>
    decreases |s|
  {
    if s == [] then [field]
    else if DoubleAt(s, 0) then [field] + SplitDoubleFrom([], s[2..])
    else SplitDoubleFrom(field + [s[0]], s[1..])
  }

  function Fields(line: string): seq<string> { SplitDoubleFrom([], line) }

  lemma {:induction false} NoDoubleOneField(field: string, s: string)
    requires !HasDouble(s)
    ensures SplitDoubleFrom(field, s) == [field + s]
    decreases |s|
  {
    if s == [] {
      assert field + s == field;
    } else {
      assert !DoubleAt(s, 0);
      assert forall i: nat :: DoubleAt(s[1..], i) ==> DoubleAt(s, i + 1);
      NoDoubleOneField(field + [s[0]], s[1..]);
      assert field + [s[0]] + s[1..] == field + s;
    }
  }

  lemma {:induction false} SpacelessThenDouble(field: string, h: string, name: string)
    requires forall i | 0 <= i < |h| :: h[i] != ' '
    ensures SplitDoubleFrom(field, h + "  " + name) == [field + h] + SplitDoubleFrom([], name)
    decreases |h|
  {
    var s := h + "  " + name;
    if h == [] {
      assert DoubleAt(s, 0) && s[2..] == name;
      assert field + h == field;
    } else {
      assert s[0] == h[0] && !DoubleAt(s, 0);
      assert s[1..] == h[1..] + "  " + name;
      SpacelessThenDouble(field + [h[0]], h[1..], name);
      assert field + [h[0]] + h[1..] == field + h;
    }
  }

  lemma LongerHasNoDouble(field: string, c: char)
    requires !HasDouble(field) && (field != [] && field[|field| - 1] == ' ' ==> c != ' ')
    ensures !HasDouble(field + [c])
  {
    var longer := field + [c];
    forall i: nat | i < |longer|
      ensures !DoubleAt(longer, i)
    {
      assert i + 1 < |field| ==> !DoubleAt(field, i);
    }
  }

  /** Splitting loses nothing, and no field contains the separator: together with `field` the first one continues
      what was read, and the separators stand exactly between the fields. */
  lemma {:induction false} FieldsRebuild(field: string, s: string)
    requires !HasDouble(field) && (field != [] && field[|field| - 1] == ' ' ==> s == [] || s[0] != ' ')
    ensures var f := SplitDoubleFrom(field, s);
            && |f| >= 1
            && (|f| == 1 ==> f[0] == field + s)
            && (|f| == 2 ==> f[0] + "  " + f[1] == field + s)
            && forall i | 0 <= i < |f| :: !HasDouble(f[i])
    decreases |s|
  {
    if s == [] {
      assert field + s == field;
    } else if DoubleAt(s, 0) {
      FieldsRebuild([], s[2..]);
      var rest := SplitDoubleFrom([], s[2..]);
      assert [] + s[2..] == s[2..];
      if |rest| == 1 { assert s == "  " + rest[0]; }
    } else {
      var longer := field + [s[0]];
      LongerHasNoDouble(field, s[0]);
      FieldsRebuild(longer, s[1..]);
      assert longer + s[1..] == field + s;
    }
  }

  // ---------- printing ----------

  predicate IsHash(s: string) { |s| == 64 && forall i | 0 <= i < |s| :: IsHex(s[i]) }

  /** The hashes that every accepted READY receipt has. */
  predicate Hashed(assets: Assets) { forall n | n in assets :: IsHash(assets[n]) }

  /** A name that the format can carry. */
  predicate Plain(name: string) { !HasBreak(name) && !HasDouble(name) }

  function Line(assets: Assets, name: string): string
    requires name in assets
  {
    assets[name] + "  " + name
  }

  function Lines(assets: Assets, names: seq<string>): seq<string>
    requires forall n | n in names :: n in assets
  {
    if names == [] then [] else [Line(assets, names[0])] + Lines(assets, names[1..])
  }

  lemma {:induction false} LinesAt(assets: Assets, names: seq<string>)
    requires forall n | n in names :: n in assets
    ensures |Lines(assets, names)| == |names|
    ensures forall i | 0 <= i < |names| :: names[i] in assets && Lines(assets, names)[i] == Line(assets, names[i])
  {
    if names != [] { LinesAt(assets, names[1..]); }
  }

  predicate LessOrEqual(a: string, b: string) {
    a == [] || (b != [] && (a[0] < b[0] || (a[0] == b[0] && LessOrEqual(a[1..], b[1..]))))
  }

  lemma {:induction false} OrderIsTotal(a: string, b: string)
    ensures LessOrEqual(a, b) || LessOrEqual(b, a)
  {
    if a != [] && b != [] && a[0] == b[0] { OrderIsTotal(a[1..], b[1..]); }
  }

  lemma {:induction false} OrderIsTransitive(a: string, b: string, c: string)
    requires LessOrEqual(a, b) && LessOrEqual(b, c)
    ensures LessOrEqual(a, c)
  {
    if a != [] && a[0] == b[0] && b[0] == c[0] { OrderIsTransitive(a[1..], b[1..], c[1..]); }
  }

  ghost predicate Sorted(names: seq<string>) {
    forall i, j | 0 <= i < j < |names| :: LessOrEqual(names[i], names[j])
  }

  ghost predicate Distinct<T>(s: seq<T>) { forall i, j | 0 <= i < j < |s| :: s[i] != s[j] }

  /** sorted(ready['assets'].items()) */
  method SortNames(keys: set<string>) returns (names: seq<string>)
    ensures Sorted(names) && Distinct(names)
    ensures forall n :: n in names <==> n in keys
  {
    names := [];
    var rest := keys;
    while rest != {}
      invariant rest <= keys
      invariant Sorted(names) && Distinct(names)
      invariant forall n :: n in names <==> n in keys && n !in rest
      decreases rest
    {
      var n :| n in rest;
      rest := rest - {n};
      names := Insert(names, n);
    }
  }

  /** Where an insertion keeps the order. */
  predicate Between(names: seq<string>, n: string, i: nat) {
    && i <= |names|
    && (forall j | 0 <= j < i :: LessOrEqual(names[j], n))
    && (forall j | i <= j < |names| :: LessOrEqual(n, names[j]))
  }

  lemma InsertedSorted(names: seq<string>, n: string, i: nat)
    requires Sorted(names) && Between(names, n, i)
    ensures Sorted(names[..i] + [n] + names[i..])
  {
    var r := names[..i] + [n] + names[i..];
    forall j, k | 0 <= j < k < |r|
      ensures LessOrEqual(r[j], r[k])
    {
      assert j < i ==> r[j] == names[j];
      assert j > i ==> r[j] == names[j - 1];
      assert k < i ==> r[k] == names[k];
      assert k > i ==> r[k] == names[k - 1];
    }
  }

  lemma InsertedDistinct(names: seq<string>, n: string, i: nat)
    requires Distinct(names) && n !in names && i <= |names|
    ensures var r := names[..i] + [n] + names[i..];
            Distinct(r) && forall m :: m in r <==> m in names || m == n
  {
    var r := names[..i] + [n] + names[i..];
    assert names == names[..i] + names[i..];
    forall j, k | 0 <= j < k < |r|
      ensures r[j] != r[k]
    {
      assert j < i ==> r[j] == names[j];
      assert j > i ==> r[j] == names[j - 1];
      assert k < i ==> r[k] == names[k];
      assert k > i ==> r[k] == names[k - 1];
    }
  }

  method Insert(names: seq<string>, n: string) returns (r: seq<string>)
    requires Sorted(names) && Distinct(names) && n !in names
    ensures Sorted(r) && Distinct(r)
    ensures forall m :: m in r <==> m in names || m == n
  {
    var i := 0;
    while i < |names| && LessOrEqual(names[i], n)
      invariant 0 <= i <= |names|
      invariant forall j | 0 <= j < i :: LessOrEqual(names[j], n)
    {
      i := i + 1;
    }
    forall j | i <= j < |names|
      ensures LessOrEqual(n, names[j])
    {
      OrderIsTotal(n, names[i]);
      if i < j { OrderIsTransitive(n, names[i], names[j]); }
    }
    InsertedSorted(names, n, i);
    InsertedDistinct(names, n, i);
    r := names[..i] + [n] + names[i..];
  }

  /** `text` is one line per asset, in the order of `names`. */
  ghost predicate PrintedAs(text: string, assets: Assets, names: seq<string>) {
    && Distinct(names) && (forall n :: n in names <==> n in assets)
    && text == Text(Lines(assets, names))
  }

  /** The SHA256SUMS of stage: one line per asset, in name order. */
  method Print(assets: Assets) returns (text: string)
    ensures exists names :: Sorted(names) && PrintedAs(text, assets, names)
  {
    var order := SortNames(assets.Keys);
    text := [];
    assert order[..0] == [];
    for k := 0 to |order|
      invariant text + Text(Lines(assets, order[k..])) == Text(Lines(assets, order))
    {
      assert order[k..][1..] == order[k + 1..];
      text := text + (Line(assets, order[k]) + ['\n']);
    }
  }

  // ---------- the first reader: split, count, compare ----------

  /** The dictionary {name: sha for sha, name in entries}: a later entry replaces an earlier one. */
  function Dictionary(entries: seq<seq<string>>): Assets
    requires forall i | 0 <= i < |entries| :: |entries[i]| == 2
  {
    if entries == [] then map[]
    else Dictionary(entries[..|entries| - 1])[entries[|entries| - 1][1] := entries[|entries| - 1][0]]
  }

  ghost function Entries(lines: seq<string>): seq<seq<string>> {
    seq(|lines|, i requires 0 <= i < |lines| => Fields(lines[i]))
  }

  /** Every line has two fields, there are as many lines as assets, and the dictionary equals the assets. */
  ghost predicate ReadyReads(lines: seq<string>, assets: Assets) {
    && (forall i | 0 <= i < |lines| :: |Fields(lines[i])| == 2)
    && |lines| == |assets|
    && Dictionary(Entries(lines)) == assets
  }

  method ReadyAccepts(lines: seq<string>, assets: Assets) returns (ok: bool)
    ensures ok == ReadyReads(lines, assets)
  {
    ghost var all := Entries(lines);
    if |lines| != |assets| { return false; }
    var found: Assets := map[];
    for k := 0 to |lines|
      invariant forall i | 0 <= i < k :: |Fields(lines[i])| == 2
      invariant found == Dictionary(all[..k])
    {
      var entry := Fields(lines[k]);
      if |entry| != 2 { return false; }
      found := found[entry[1] := entry[0]];
      assert all[..k + 1][..k] == all[..k] && all[k] == entry;
    }
    assert all[..|lines|] == all;
    ok := found == assets;
  }

  // ---------- the second reader: match, reject duplicates, compare ----------

  /** ([0-9a-f]{64})  ([^/\\]+) */
  predicate Matches(line: string) {
    && |line| > 66
    && IsHash(line[..64])
    && line[64] == ' ' && line[65] == ' '
    && forall i | 66 <= i < |line| :: line[i] != '/' && line[i] != '\\'
  }

  method PublishedAccepts(lines: seq<string>, published: Assets) returns (ok: bool)
    ensures ok == PublishedReads(lines, published - {SUMS})
  {
    var parsed: Assets := map[];
    for k := 0 to |lines|
      invariant forall i | 0 <= i < k :: Matches(lines[i])
      invariant forall i, j | 0 <= i < j < k :: lines[i][66..] != lines[j][66..]
      invariant forall n :: n in parsed <==> exists i :: 0 <= i < k && lines[i][66..] == n
      invariant forall i | 0 <= i < k :: lines[i][66..] in parsed && parsed[lines[i][66..]] == lines[i][..64]
    {
      if !Matches(lines[k]) { return false; }
      var name := lines[k][66..];
      if name in parsed {
        var i :| 0 <= i < k && lines[i][66..] == name;
        return false;
      }
      parsed := parsed[name := lines[k][..64]];
    }
    ok := parsed == published - {SUMS};
    assert ok ==> PublishedReads(lines, parsed);
    if PublishedReads(lines, published - {SUMS}) {
      ParsedIsUnique(lines, parsed, published - {SUMS});
    }
  }

  /** Every line matches, no name repeats, and the entries are exactly the assets. */
  ghost predicate PublishedReads(lines: seq<string>, assets: Assets) {
    && (forall i | 0 <= i < |lines| :: Matches(lines[i]))
    && (forall i, j | 0 <= i < j < |lines| :: lines[i][66..] != lines[j][66..])
    && (forall i | 0 <= i < |lines| :: lines[i][66..] in assets && assets[lines[i][66..]] == lines[i][..64])
    && (forall n | n in assets :: exists i :: 0 <= i < |lines| && lines[i][66..] == n)
  }

  lemma ParsedIsUnique(lines: seq<string>, a: Assets, b: Assets)
    requires PublishedReads(lines, a) && PublishedReads(lines, b)
    ensures a == b
  {
    forall n
      ensures n in a <==> n in b
      ensures n in a && n in b ==> a[n] == b[n]
    {
    }
    assert a.Keys == b.Keys;
  }

  // ---------- what the readers accept ----------

  /** `lines` lists every asset once, in the order of `names`: a permutation of what Print writes. */
  ghost predicate Lists(lines: seq<string>, assets: Assets, names: seq<string>) {
    && Distinct(names) && (forall n :: n in names <==> n in assets)
    && lines == Lines(assets, names)
  }

  ghost predicate IsListing(lines: seq<string>, assets: Assets) { exists names :: Lists(lines, assets, names) }

  ghost predicate NoDoubles(assets: Assets) { forall n | n in assets :: !HasDouble(n) }

  /** Names that can be files of one directory. */
  ghost predicate FileNames(assets: Assets) {
    forall n | n in assets :: n != [] && forall i | 0 <= i < |n| :: n[i] != '/' && n[i] != '\\'
  }

  lemma {:induction false} DistinctSize<T>(s: seq<T>, keys: set<T>)
    requires Distinct(s) && forall x :: x in s <==> x in keys
    ensures |s| == |keys|
    decreases |s|
  {
    if s == [] {
      assert keys == {};
    } else {
      var n := |s| - 1;
      forall x
        ensures x in s[..n] <==> x in keys - {s[n]}
      {
        if x in s[..n] {
          var i :| 0 <= i < n && s[i] == x;
        }
      }
      assert s[n] in keys;
      DistinctSize(s[..n], keys - {s[n]});
    }
  }

  ghost predicate Pairs(entries: seq<seq<string>>) { forall i | 0 <= i < |entries| :: |entries[i]| == 2 }

  lemma {:induction false} DictionaryKeys(entries: seq<seq<string>>, n: string)
    requires Pairs(entries)
    ensures n in Dictionary(entries) <==> exists i :: 0 <= i < |entries| && entries[i][1] == n
    decreases |entries|
  {
    if entries != [] {
      var k := |entries| - 1;
      DictionaryKeys(entries[..k], n);
      if n in Dictionary(entries[..k]) {
        var i :| 0 <= i < k && entries[..k][i][1] == n;
        assert entries[i][1] == n;
      }
      if i :| 0 <= i < |entries| && entries[i][1] == n {
        if i < k { assert entries[..k][i][1] == n; }
      }
    }
  }

  /** A dictionary as large as its entry list was built without replacing anything. */
  lemma {:induction false} FullDictionary(entries: seq<seq<string>>)
    requires Pairs(entries)
    ensures |Dictionary(entries)| <= |entries|
    ensures |Dictionary(entries)| == |entries| ==>
              forall i, j | 0 <= i < j < |entries| :: entries[i][1] != entries[j][1]
    decreases |entries|
  {
    if entries != [] {
      var k := |entries| - 1;
      var before, name := Dictionary(entries[..k]), entries[k][1];
      FullDictionary(entries[..k]);
      var now := Dictionary(entries);
      assert now.Keys == before.Keys + {name};
      assert |now| == |now.Keys| && |before| == |before.Keys|;
      assert name in before ==> now.Keys == before.Keys;
      if |now| == |entries| {
        DictionaryKeys(entries[..k], name);
        forall i, j | 0 <= i < j < |entries|
          ensures entries[i][1] != entries[j][1]
        {
          assert entries[..k][i] == entries[i];
          if j < k { assert entries[..k][j] == entries[j]; }
        }
      }
    }
  }

  /** And one built from distinct names replaces nothing. */
  lemma {:induction false} DistinctDictionary(entries: seq<seq<string>>, i: nat)
    requires Pairs(entries)
    requires forall j, k | 0 <= j < k < |entries| :: entries[j][1] != entries[k][1]
    requires i < |entries|
    ensures entries[i][1] in Dictionary(entries) && Dictionary(entries)[entries[i][1]] == entries[i][0]
    decreases |entries|
  {
    if i < |entries| - 1 { DistinctDictionary(entries[..|entries| - 1], i); }
  }

  lemma LineFields(assets: Assets, name: string)
    requires name in assets && IsHash(assets[name]) && !HasDouble(name)
    ensures Fields(Line(assets, name)) == [assets[name], name]
  {
    SpacelessThenDouble([], assets[name], name);
    NoDoubleOneField([], name);
    assert [] + assets[name] == assets[name] && [] + name == name;
  }

  /** The entries of a listing. */
  ghost predicate EntriesOf(entries: seq<seq<string>>, assets: Assets, names: seq<string>) {
    && |entries| == |names|
    && forall i | 0 <= i < |names| :: names[i] in assets && entries[i] == [assets[names[i]], names[i]]
  }

  lemma ListingEntries(lines: seq<string>, assets: Assets, names: seq<string>)
    requires Hashed(assets) && NoDoubles(assets) && Lists(lines, assets, names)
    ensures EntriesOf(Entries(lines), assets, names)
  {
    LinesAt(assets, names);
    forall i | 0 <= i < |names|
      ensures names[i] in assets && Fields(lines[i]) == [assets[names[i]], names[i]]
    {
      assert names[i] in names;
      LineFields(assets, names[i]);
    }
  }

  lemma ListingDictionary(entries: seq<seq<string>>, assets: Assets, names: seq<string>, n: string)
    requires EntriesOf(entries, assets, names) && Distinct(names) && (forall m :: m in names <==> m in assets)
    ensures Pairs(entries)
    ensures n in Dictionary(entries) <==> n in assets
    ensures n in assets ==> Dictionary(entries)[n] == assets[n]
  {
    DictionaryKeys(entries, n);
    if n in assets {
      var i :| 0 <= i < |names| && names[i] == n;
      assert entries[i][1] == n;
      DistinctDictionary(entries, i);
    }
  }

  lemma ListingDictionaryIs(entries: seq<seq<string>>, assets: Assets, names: seq<string>)
    requires EntriesOf(entries, assets, names) && Distinct(names) && (forall m :: m in names <==> m in assets)
    ensures Pairs(entries) && Dictionary(entries) == assets
  {
    forall n
      ensures Pairs(entries) && (n in Dictionary(entries) <==> n in assets)
      ensures n in assets ==> Dictionary(entries)[n] == assets[n]
    {
      ListingDictionary(entries, assets, names, n);
    }
    assert Dictionary(entries).Keys == assets.Keys;
  }

  lemma ReadyReadsListing(lines: seq<string>, assets: Assets, names: seq<string>)
    requires Hashed(assets) && NoDoubles(assets) && Lists(lines, assets, names)
    ensures ReadyReads(lines, assets)
  {
    var entries := Entries(lines);
    ListingEntries(lines, assets, names);
    DistinctSize(names, assets.Keys);
    ListingDictionaryIs(entries, assets, names);
    assert forall i | 0 <= i < |lines| :: entries[i] == Fields(lines[i]);
  }

  /** A line of two fields is those fields around one separator, and its second field brings nothing new. */
  lemma TwoFields(line: string)
    requires |Fields(line)| == 2
    ensures var f := Fields(line);
            line == f[0] + "  " + f[1] && !HasDouble(f[1]) && (HasBreak(f[1]) ==> HasBreak(line))
  {
    FieldsRebuild([], line);
    var f := Fields(line);
    assert [] + line == line;
    assert line == f[0] + "  " + f[1];
    if HasBreak(f[1]) {
      var k :| 0 <= k < |f[1]| && IsBreak(f[1][k]);
      assert line[|f[0]| + 2 + k] == f[1][k];
    }
  }

  ghost function SecondFields(lines: seq<string>): seq<string>
    requires forall i | 0 <= i < |lines| :: |Fields(lines[i])| == 2
  {
    seq(|lines|, i requires 0 <= i < |lines| => Fields(lines[i])[1])
  }

  lemma SecondFieldsEnumerate(lines: seq<string>, assets: Assets)
    requires ReadyReads(lines, assets)
    ensures Distinct(SecondFields(lines)) && forall n :: n in SecondFields(lines) <==> n in assets
  {
    var entries, names := Entries(lines), SecondFields(lines);
    FullDictionary(entries);
    assert forall i | 0 <= i < |lines| :: names[i] == entries[i][1];
    forall n
      ensures n in names <==> n in assets
    {
      DictionaryKeys(entries, n);
      if n in assets {
        var i :| 0 <= i < |entries| && entries[i][1] == n;
        assert names[i] == n;
      }
    }
  }

  lemma ReadLineIs(lines: seq<string>, assets: Assets, i: nat)
    requires ReadyReads(lines, assets) && i < |lines|
    ensures SecondFields(lines)[i] in assets && lines[i] == Line(assets, SecondFields(lines)[i])
    ensures !HasDouble(SecondFields(lines)[i])
    ensures HasBreak(SecondFields(lines)[i]) ==> HasBreak(lines[i])
  {
    var entries := Entries(lines);
    FullDictionary(entries);
    DistinctDictionary(entries, i);
    TwoFields(lines[i]);
  }

  lemma ReadyReadsOnlyListings(lines: seq<string>, assets: Assets) returns (names: seq<string>)
    requires ReadyReads(lines, assets)
    ensures NoDoubles(assets) && Lists(lines, assets, names)
    ensures (forall line | line in lines :: !HasBreak(line)) ==> forall n | n in assets :: !HasBreak(n)
  {
    names := SecondFields(lines);
    SecondFieldsEnumerate(lines, assets);
    LinesAt(assets, names);
    forall i | 0 <= i < |lines|
      ensures lines[i] == Line(assets, names[i]) && !HasDouble(names[i]) && (HasBreak(names[i]) ==> HasBreak(lines[i]))
    {
      ReadLineIs(lines, assets, i);
    }
    assert lines == Lines(assets, names);
    forall n | n in assets
      ensures !HasDouble(n)
      ensures (forall line | line in lines :: !HasBreak(line)) ==> !HasBreak(n)
    {
      var i :| 0 <= i < |names| && names[i] == n;
      assert lines[i] in lines;
    }
  }

  /** The count-and-compare reader accepts exactly the permutations of the printed lines, provided no asset name
      contains the separator; if one does, it accepts nothing. */
  lemma ReadyReadsIff(lines: seq<string>, assets: Assets)
    requires Hashed(assets)
    ensures ReadyReads(lines, assets) <==> NoDoubles(assets) && IsListing(lines, assets)
  {
    if ReadyReads(lines, assets) {
      var names := ReadyReadsOnlyListings(lines, assets);
    }
    if NoDoubles(assets) && IsListing(lines, assets) {
      var names :| Lists(lines, assets, names);
      ReadyReadsListing(lines, assets, names);
    }
  }

  ghost function MatchedNames(lines: seq<string>): seq<string> {
    seq(|lines|, i requires 0 <= i < |lines| => if Matches(lines[i]) then lines[i][66..] else [])
  }

  lemma MatchedLineIs(lines: seq<string>, assets: Assets, i: nat)
    requires PublishedReads(lines, assets) && i < |lines|
    ensures var n := MatchedNames(lines)[i];
            && n in assets && lines[i] == Line(assets, n)
            && n != [] && forall k | 0 <= k < |n| :: n[k] != '/' && n[k] != '\\'
  {
    var n := lines[i][66..];
    assert lines[i] == lines[i][..64] + "  " + n;
    assert forall k | 0 <= k < |n| :: n[k] == lines[i][66 + k];
  }

  lemma MatchedNamesEnumerate(lines: seq<string>, assets: Assets)
    requires PublishedReads(lines, assets)
    ensures Distinct(MatchedNames(lines)) && forall n :: n in MatchedNames(lines) <==> n in assets
  {
    var names := MatchedNames(lines);
    forall n
      ensures n in names <==> n in assets
    {
      if n in assets {
        var i :| 0 <= i < |lines| && lines[i][66..] == n;
        assert names[i] == n;
      }
    }
  }

  lemma PublishedOnlyListings(lines: seq<string>, assets: Assets) returns (names: seq<string>)
    requires PublishedReads(lines, assets)
    ensures FileNames(assets) && Lists(lines, assets, names)
  {
    names := MatchedNames(lines);
    MatchedNamesEnumerate(lines, assets);
    LinesAt(assets, names);
    forall i | 0 <= i < |lines|
      ensures lines[i] == Line(assets, names[i])
    {
      MatchedLineIs(lines, assets, i);
    }
    assert lines == Lines(assets, names);
    forall n | n in assets
      ensures n != [] && forall k | 0 <= k < |n| :: n[k] != '/' && n[k] != '\\'
    {
      var i :| 0 <= i < |names| && names[i] == n;
      MatchedLineIs(lines, assets, i);
    }
  }

  lemma LineMatches(assets: Assets, name: string)
    requires name in assets && IsHash(assets[name])
    requires name != [] && forall i | 0 <= i < |name| :: name[i] != '/' && name[i] != '\\'
    ensures var line := Line(assets, name); Matches(line) && line[66..] == name && line[..64] == assets[name]
  {
    var line := Line(assets, name);
    assert line[..64] == assets[name] && line[66..] == name;
    assert forall i | 66 <= i < |line| :: line[i] == name[i - 66];
  }

  lemma PublishedReadsListing(lines: seq<string>, assets: Assets, names: seq<string>)
    requires Hashed(assets) && FileNames(assets) && Lists(lines, assets, names)
    ensures PublishedReads(lines, assets)
  {
    LinesAt(assets, names);
    forall i | 0 <= i < |lines|
      ensures Matches(lines[i]) && lines[i][66..] == names[i] && lines[i][..64] == assets[names[i]]
    {
      assert names[i] in assets;
      LineMatches(assets, names[i]);
    }
    forall n | n in assets
      ensures exists i :: 0 <= i < |lines| && lines[i][66..] == n
    {
      var i :| 0 <= i < |names| && names[i] == n;
      assert lines[i][66..] == n;
    }
  }

  /** The duplicate-rejecting reader accepts exactly the same permutations, provided every name could be a file. */
  lemma PublishedReadsIff(lines: seq<string>, assets: Assets)
    requires Hashed(assets)
    ensures PublishedReads(lines, assets) <==> FileNames(assets) && IsListing(lines, assets)
  {
    if PublishedReads(lines, assets) {
      var names := PublishedOnlyListings(lines, assets);
    }
    if FileNames(assets) && IsListing(lines, assets) {
      var names :| Lists(lines, assets, names);
      PublishedReadsListing(lines, assets, names);
    }
  }

  /** Every asset map has a listing. */
  lemma {:induction false} SomeListing(assets: Assets, keys: set<string>) returns (names: seq<string>)
    requires keys <= assets.Keys
    ensures Distinct(names) && forall n :: n in names <==> n in keys
    decreases keys
  {
    if keys == {} {
      names := [];
    } else {
      var n :| n in keys;
      var rest := SomeListing(assets, keys - {n});
      names := rest + [n];
    }
  }

  /** The two readers agree on every list of lines for assets whose names are file names without the separator. */
  lemma ReadersAgree(lines: seq<string>, assets: Assets)
    requires Hashed(assets) && NoDoubles(assets) && FileNames(assets)
    ensures ReadyReads(lines, assets) <==> PublishedReads(lines, assets)
  {
    ReadyReadsIff(lines, assets);
    PublishedReadsIff(lines, assets);
  }

  /** Exactly when they agree: either the names are both free of the separator and file names, or they are neither,
      and then both readers accept nothing. */
  lemma ReadersAgreeIff(assets: Assets)
    requires Hashed(assets)
    ensures (forall lines :: ReadyReads(lines, assets) <==> PublishedReads(lines, assets))
       <==> (NoDoubles(assets) <==> FileNames(assets))
  {
    var names := SomeListing(assets, assets.Keys);
    var listing := Lines(assets, names);
    assert Lists(listing, assets, names);
    ReadyReadsIff(listing, assets);
    PublishedReadsIff(listing, assets);
    forall lines
      ensures (NoDoubles(assets) <==> FileNames(assets)) ==>
                (ReadyReads(lines, assets) <==> PublishedReads(lines, assets))
    {
      ReadyReadsIff(lines, assets);
      PublishedReadsIff(lines, assets);
    }
  }

  /** A name on which they would differ: it is a file name, and contains the separator. */
  lemma ReadersDiffer(hash: string)
    requires IsHash(hash)
    ensures var assets: Assets := map["a  b" := hash];
            PublishedReads([hash + "  a  b"], assets) && !ReadyReads([hash + "  a  b"], assets)
  {
    var name := "a  b";
    var assets: Assets := map[name := hash];
    var lines := [hash + "  " + name];
    LinesAt(assets, [name]);
    assert Lines(assets, [name]) == lines;
    assert Lists(lines, assets, [name]);
    assert hash + "  " + name == hash + "  a  b";
    assert DoubleAt(name, 1);
    ReadyReadsIff([hash + "  a  b"], assets);
    PublishedReadsIff([hash + "  a  b"], assets);
  }

  /** Round trip, on the text itself: what Print writes is read back as the same assets exactly when every name is
      plain; and for assets with another name no text at all is accepted. */
  lemma RoundTripIff(text: string, assets: Assets, names: seq<string>)
    requires Hashed(assets) && PrintedAs(text, assets, names)
    ensures ReadyReads(SplitLines(text), assets) <==> forall n | n in assets :: Plain(n)
  {
    var lines := Lines(assets, names);
    if ReadyReads(SplitLines(text), assets) {
      OnlyPlainNamesAreRead(assets, text);
    }
    if forall n | n in assets :: Plain(n) {
      LinesAt(assets, names);
      forall i | 0 <= i < |lines|
        ensures !HasBreak(lines[i])
      {
        assert names[i] in assets;
        LineHasNoBreak(assets, names[i]);
      }
      SplitText(lines);
      ReadyReadsListing(lines, assets, names);
    }
  }

  lemma OnlyPlainNamesAreRead(assets: Assets, text: string)
    requires ReadyReads(SplitLines(text), assets)
    ensures forall n | n in assets :: Plain(n)
  {
    SplitHasNoBreaks([], text);
    var names := ReadyReadsOnlyListings(SplitLines(text), assets);
  }

  lemma LineHasNoBreak(assets: Assets, name: string)
    requires name in assets && IsHash(assets[name]) && !HasBreak(name)
    ensures !HasBreak(Line(assets, name))
  {
    var line := Line(assets, name);
    forall i | 0 <= i < |line|
      ensures !IsBreak(line[i])
    {
      if i < 64 { assert line[i] == assets[name][i]; }
      else if i >= 66 { assert line[i] == name[i - 66]; }
    }
  }

  // ---------- merging the platforms' assets ----------

  /** No two records disagree about a name. */
  ghost predicate Agree(records: seq<Assets>) {
    forall i, j, n | 0 <= i < |records| && 0 <= j < |records| && n in records[i] && n in records[j] ::
      records[i][n] == records[j][n]
  }

  ghost predicate IsUnion(records: seq<Assets>, merged: Assets) {
    && (forall i, n | 0 <= i < |records| && n in records[i] :: n in merged && merged[n] == records[i][n])
    && (forall n | n in merged :: exists i :: 0 <= i < |records| && n in records[i])
  }

  /** The inner loop of check_aggregate: one record's items, refused at the first disagreement. */
  method MergeRecord(before: Assets, record: Assets) returns (ok: bool, merged: Assets)
    ensures ok <==> forall n | n in before && n in record :: before[n] == record[n]
    ensures ok ==> merged == before + record
  {
    merged := before;
    var rest := record.Keys;
    while rest != {}
      invariant rest <= record.Keys
      invariant forall n | n in before && n in record && n !in rest :: before[n] == record[n]
      invariant merged.Keys == before.Keys + (record.Keys - rest)
      invariant forall n | n in merged :: merged[n] == if n in record && n !in rest then record[n] else before[n]
      decreases rest
    {
      var n :| n in rest;
      if n in merged && merged[n] != record[n] { return false, map[]; }
      merged := merged[n := record[n]];
      rest := rest - {n};
    }
    ok := true;
  }

  /** check_aggregate: the union of the records' assets, refused exactly when two of them disagree. */
  method Merge(records: seq<Assets>) returns (ok: bool, merged: Assets)
    ensures ok == Agree(records)
    ensures ok ==> IsUnion(records, merged)
  {
    merged := map[];
    for k := 0 to |records|
      invariant IsUnion(records[..k], merged)
    {
      var fits, more := MergeRecord(merged, records[k]);
      if !fits {
        ConflictShows(records, k, merged);
        return false, map[];
      }
      UnionGrows(records[..k], merged, records[k], more);
      assert records[..k + 1] == records[..k] + [records[k]];
      merged := more;
    }
    assert records[..|records|] == records;
    UnionAgrees(records, merged);
    ok := true;
  }

  lemma ConflictShows(records: seq<Assets>, k: nat, merged: Assets)
    requires k < |records| && IsUnion(records[..k], merged)
    requires exists n :: n in merged && n in records[k] && merged[n] != records[k][n]
    ensures !Agree(records)
  {
    var n :| n in merged && n in records[k] && merged[n] != records[k][n];
    var i :| 0 <= i < k && n in records[..k][i];
    assert records[i][n] == merged[n];
  }

  lemma UnionAgrees(records: seq<Assets>, merged: Assets)
    requires IsUnion(records, merged)
    ensures Agree(records)
  {
    forall i, j, n | 0 <= i < |records| && 0 <= j < |records| && n in records[i] && n in records[j]
      ensures records[i][n] == records[j][n]
    {
      assert merged[n] == records[i][n];
    }
  }

  lemma UnionGrows(records: seq<Assets>, before: Assets, record: Assets, merged: Assets)
    requires IsUnion(records, before)
    requires forall n | n in before :: n in merged && merged[n] == before[n]
    requires forall n | n in record :: n in merged && merged[n] == record[n]
    requires forall n | n in merged :: n in before || n in record
    ensures IsUnion(records + [record], merged)
  {
    var longer := records + [record];
    forall n | n in merged
      ensures exists i :: 0 <= i < |longer| && n in longer[i]
    {
      if n in before {
        var i :| 0 <= i < |records| && n in records[i];
        assert n in longer[i];
      } else {
        assert n in longer[|records|];
      }
    }
  }

  lemma SameUnion(a: seq<Assets>, b: seq<Assets>, m: Assets, n: Assets)
    requires forall r :: r in a <==> r in b
    requires IsUnion(a, m) && IsUnion(b, n)
    ensures m == n
  {
    forall x
      ensures x in m <==> x in n
      ensures x in m && x in n ==> m[x] == n[x]
    {
      if x in m {
        var i :| 0 <= i < |a| && x in a[i];
        assert a[i] in b;
        var j :| 0 <= j < |b| && b[j] == a[i];
      }
      if x in n {
        var i :| 0 <= i < |b| && x in b[i];
        assert b[i] in a;
        var j :| 0 <= j < |a| && a[j] == b[i];
      }
    }
    assert m.Keys == n.Keys;
  }

  lemma AgreeEitherWay(a: seq<Assets>, b: seq<Assets>)
    requires (forall r :: r in a <==> r in b) && Agree(a)
    ensures Agree(b)
  {
    forall i, j, n | 0 <= i < |b| && 0 <= j < |b| && n in b[i] && n in b[j]
      ensures b[i][n] == b[j][n]
    {
      assert b[i] in a && b[j] in a;
      var k :| 0 <= k < |a| && a[k] == b[i];
      var l :| 0 <= l < |a| && a[l] == b[j];
    }
  }

  /** For the same records in any order, and however often each is repeated, the merge is refused alike, and its result
      is the same. */
  lemma MergeIsOrderFree(a: seq<Assets>, b: seq<Assets>)
    requires forall r :: r in a <==> r in b
    ensures Agree(a) <==> Agree(b)
    ensures forall m, n | IsUnion(a, m) && IsUnion(b, n) :: m == n
  {
    if Agree(a) { AgreeEitherWay(a, b); }
    if Agree(b) { AgreeEitherWay(b, a); }
    forall m, n | IsUnion(a, m) && IsUnion(b, n)
      ensures m == n
    {
      SameUnion(a, b, m, n);
    }
  }
}
