/** Which files a scan skips, in terms of their names and of how they begin. */
module SkippedFiles {
  import opened Hex
  import opened Workspace

  /** The bytes of a text. */
  function Codes(text: string): Bytes { seq(|text|, i requires 0 <= i < |text| => text[i] as int) }

  predicate Begins(content: Bytes, text: string) { Codes(text) <= content }

  lemma CodesOfHeaders()
    ensures Codes("!<arch>\n") == [33, 60, 97, 114, 99, 104, 62, 10]
    ensures Codes("go object ") == [103, 111, 32, 111, 98, 106, 101, 99, 116, 32]
    ensures Codes("\U{7F}ELF") == [127, 69, 76, 70]
  {
  }

  /** The name ends in a dot and `ext`, after at least one character, and `ext` has no dot itself. */
  ghost predicate HasExtension(name: string, ext: string) {
    exists stem: string :: stem != [] && '.' !in ext && ext != [] && name == stem + "." + ext
  }

  lemma {:induction false} LastDotIs(stem: string, ext: string)
    requires '.' !in ext
    ensures LastDot(stem + "." + ext) == |stem|
    decreases |ext|
  {
    var name := stem + "." + ext;
    if ext != [] {
      var shorter := ext[..|ext| - 1];
      assert name[..|name| - 1] == stem + "." + shorter;
      assert name[|name| - 1] == ext[|ext| - 1];
      LastDotIs(stem, shorter);
    }
  }

  lemma {:induction false} LastDotIsLast(name: string)
    ensures -1 <= LastDot(name) < |name|
    ensures LastDot(name) >= 0 ==> name[LastDot(name)] == '.'
    ensures forall i | LastDot(name) < i < |name| :: name[i] != '.'
  {
    if name != [] && name[|name| - 1] != '.' { LastDotIsLast(name[..|name| - 1]); }
  }

  /** The suffix of a name is what follows its last dot, with the dot, unless the dot comes first or last. */
  lemma SuffixIff(name: string, ext: string)
    requires ext != [] && '.' !in ext
    ensures Suffix(name) == "." + ext <==> HasExtension(name, ext)
  {
    if HasExtension(name, ext) {
      var stem: string :| stem != [] && name == stem + "." + ext;
      LastDotIs(stem, ext);
      assert name[|stem|..] == "." + ext;
    }
    if Suffix(name) == "." + ext {
      var i := LastDot(name);
      LastDotIsLast(name);
      assert name == name[..i] + name[i..];
      assert name == name[..i] + "." + ext;
    }
  }

  /** Equal up to the case of ASCII letters. */
  predicate SameButCase(a: char, b: char) { a == b || ('A' <= a <= 'Z' && b == a + ' ') }

  lemma {:induction false} LowerIs(s: string)
    ensures |Lower(s)| == |s|
    ensures forall i | 0 <= i < |s| :: SameButCase(s[i], Lower(s)[i]) && !('A' <= Lower(s)[i] <= 'Z')
  {
    if s != [] { LowerIs(s[1..]); }
  }

  /** The name contains the lower-case text, in any case. */
  ghost predicate Mentions(name: string, text: string) {
    exists i :: 0 <= i && i + |text| <= |name| && MentionedAt(name, text, i)
  }

  predicate MentionedAt(name: string, text: string, i: nat)
    requires i + |text| <= |name|
  {
    forall k | 0 <= k < |text| :: SameButCase(name[i + k], text[k]) && !('A' <= text[k] <= 'Z')
  }

  lemma MentionsIff(name: string, text: string)
    requires forall k | 0 <= k < |text| :: !('A' <= text[k] <= 'Z')
    ensures Contains(Lower(name), text) <==> Mentions(name, text)
  {
    var low := Lower(name);
    LowerIs(name);
    if i :| 0 <= i <= |low| && text <= low[i..] {
      forall k | 0 <= k < |text|
        ensures SameButCase(name[i + k], text[k])
      {
        assert low[i..][k] == text[k] && low[i + k] == text[k];
      }
      assert MentionedAt(name, text, i);
    }
    if i: nat :| i + |text| <= |name| && MentionedAt(name, text, i) {
      forall k | 0 <= k < |text|
        ensures low[i + k] == text[k]
      {
        assert SameButCase(name[i + k], low[i + k]) && SameButCase(name[i + k], text[k]);
      }
      assert text <= low[i..];
    }
  }

  /** Result data by name: one of the listed extensions, or a checksum file. */
  ghost predicate NamedEvidence(name: string) {
    || (exists ext :: ext in EVIDENCE_EXTENSIONS && HasExtension(name, ext))
    || Mentions(name, "sha256") || Mentions(name, "checksum")
  }

  ghost predicate NamedSource(name: string) { exists ext :: ext in SOURCE_EXTENSIONS && HasExtension(name, ext) }

  ghost predicate NamedOutput(name: string) { exists ext :: ext in OUTPUT_EXTENSIONS && HasExtension(name, ext) }

  lemma SuffixAmong(name: string, extensions: seq<string>)
    requires forall ext | ext in extensions :: ext != [] && '.' !in ext
    ensures Suffix(name) in Dotted(extensions) <==> exists ext :: ext in extensions && HasExtension(name, ext)
  {
    if Suffix(name) in Dotted(extensions) {
      var ext :| ext in extensions && Suffix(name) == "." + ext;
      SuffixIff(name, ext);
    }
    if ext :| ext in extensions && HasExtension(name, ext) { SuffixIff(name, ext); }
  }

  lemma NoDots(extensions: seq<string>)
    requires extensions == EVIDENCE_EXTENSIONS || extensions == SOURCE_EXTENSIONS || extensions == OUTPUT_EXTENSIONS
    ensures forall ext | ext in extensions :: ext != [] && '.' !in ext
  {
  }

  lemma MentionsChecksum(name: string)
    ensures Contains(Lower(name), "sha256") <==> Mentions(name, "sha256")
    ensures Contains(Lower(name), "checksum") <==> Mentions(name, "checksum")
  {
    MentionsIff(name, "sha256");
    MentionsIff(name, "checksum");
  }

  lemma EvidenceIff(name: string)
    ensures IsEvidence(name) <==> NamedEvidence(name)
  {
    NoDots(EVIDENCE_EXTENSIONS);
    SuffixAmong(name, EVIDENCE_EXTENSIONS);
    MentionsChecksum(name);
  }

  lemma SourceIff(name: string)
    ensures Suffix(name) in SOURCE <==> NamedSource(name)
  {
    NoDots(SOURCE_EXTENSIONS);
    SuffixAmong(name, SOURCE_EXTENSIONS);
  }

  lemma OutputIff(name: string)
    ensures Suffix(name) in OUTPUT <==> NamedOutput(name)
  {
    NoDots(OUTPUT_EXTENSIONS);
    SuffixAmong(name, OUTPUT_EXTENSIONS);
  }

  /** 64 hexadecimal digits, a dash, and an "a" or a "d". */
  ghost predicate NamedCacheKey(name: string) {
    exists key: string :: |key| == 64 && (forall c | c in key :: c in "0123456789abcdef")
                          && (name == key + "-a" || name == key + "-d")
  }

  lemma HexDigits(c: char)
    ensures IsHex(c) <==> c in "0123456789abcdef"
  {
  }

  lemma CacheKeyIff(name: string)
    ensures IsCacheKey(name) <==> NamedCacheKey(name)
  {
    if IsCacheKey(name) {
      var key := name[..64];
      forall c | c in key
        ensures c in "0123456789abcdef"
      {
        HexDigits(c);
      }
      assert name == key + "-" + [name[65]];
    }
    if NamedCacheKey(name) {
      var key: string :| |key| == 64 && (forall c | c in key :: c in "0123456789abcdef")
                         && (name == key + "-a" || name == key + "-d");
      forall i | 0 <= i < 64
        ensures IsHex(name[i])
      {
        HexDigits(key[i]);
      }
    }
  }

  /** A build output: by its extension, by its cache key below a cache directory, or by how it begins. */
  ghost predicate LooksLikeOutput(path: Path, content: Bytes)
    requires path != []
  {
    || NamedOutput(path[|path| - 1])
    || (NamedCacheKey(path[|path| - 1]) && exists i :: 0 <= i < |path| - 1 && path[i] in CACHES)
    || Begins(content, "!<arch>\n") || Begins(content, "go object ") || Begins(content, "\U{7F}ELF")
    || [0xCF, 0xFA, 0xED, 0xFE] <= content
  }

  /** Which files a scan skips. */
  lemma SkippedIff(w: World, area: string, path: Path, content: Bytes)
    requires path != []
    ensures var name := path[|path| - 1];
            Expendable(w, area, path, content) <==>
              || name == ".git"
              || path in w.tracked
              || (exists r :: r in w.reproducible && r <= [area] + path)
              || ((NamedSource(name) || NamedEvidence(name)) && content in w.committed)
              || (LooksLikeOutput(path, content) && !NamedEvidence(name))
  {
    EvidenceIff(path[|path| - 1]);
    SourceIff(path[|path| - 1]);
    OutputIff(path[|path| - 1]);
    CacheKeyIff(path[|path| - 1]);
    CodesOfHeaders();
  }
}
