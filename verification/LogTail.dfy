/** The bounded guest log of mariamem.go: Write keeps the last 16 KiB of everything written. */
module LogTail {

  type Byte = b: int | 0 <= b < 256

  const LIMIT: nat := 16 * 1024

  /** The last `LIMIT` bytes of `s`, or all of them. */
  function Last(s: seq<Byte>): seq<Byte> { if |s| <= LIMIT then s else s[|s| - LIMIT..] }

  function Concat(chunks: seq<seq<Byte>>): seq<Byte> {
    if chunks == [] then [] else Concat(chunks[..|chunks| - 1]) + chunks[|chunks| - 1]
  }

  class Tail {
    var data: seq<Byte>

    ghost predicate Valid()
      reads this
    {
      |data| <= LIMIT
    }

    constructor ()
      ensures Valid() && data == []
    {
      data := [];
    }

    method Write(p: seq<Byte>) returns (n: nat)
      requires Valid()
      modifies this
      ensures Valid() && data == Last(old(data) + p)
      ensures n == |p|
    {
      n := |p|;
      if n >= LIMIT {
        data := data[..0] + p[n - LIMIT..];
        assert data == Last(old(data) + p);
      } else {
        if |data| + n > LIMIT {
          data := data[|data| + n - LIMIT..];
        }
        data := data + p;
        assert data == Last(old(data) + p);
      }
    }

    /** Any number of writes: the buffer is the tail of everything written, and every write reports its length. */
    method WriteAll(chunks: seq<seq<Byte>>) returns (lengths: seq<nat>)
      requires data == []
      modifies this
      ensures data == Last(Concat(chunks))
      ensures |data| == if |Concat(chunks)| < LIMIT then |Concat(chunks)| else LIMIT
      ensures forall i | 0 <= i < |data| :: data[i] == Concat(chunks)[|Concat(chunks)| - |data| + i]
      ensures |lengths| == |chunks| && forall i | 0 <= i < |chunks| :: lengths[i] == |chunks[i]|
    {
      lengths := [];
      assert chunks[..0] == [];
      for i := 0 to |chunks|
        invariant data == Last(Concat(chunks[..i]))
        invariant |lengths| == i && forall j | 0 <= j < i :: lengths[j] == |chunks[j]|
      {
        var n := Write(chunks[i]);
        lengths := lengths + [n];
        ForgottenStaysForgotten(Concat(chunks[..i]), chunks[i]);
        assert chunks[..i + 1][..i] == chunks[..i];
      }
      assert chunks[..|chunks|] == chunks;
    }
  }

  /** Truncating early loses nothing that truncating late would keep. */
  lemma ForgottenStaysForgotten(s: seq<Byte>, p: seq<Byte>)
    ensures Last(Last(s) + p) == Last(s + p)
  {
    if |s| > LIMIT {
      assert (s + p)[|s| - LIMIT..] == Last(s) + p;
      assert Last(Last(s) + p) == Last(s + p);
    }
  }
}
