// Bytes, and what it means for a file to hold some of them at a position.
module Bytes {

  type byte = b: int | 0 <= b < 0x100

  /** s holds part from i on. */
  predicate At(s: seq<byte>, i: nat, part: seq<byte>)
    ensures At(s, i, part) ==> i + |part| <= |s|
    decreases part
  {
    if part == [] then i <= |s| else i < |s| && s[i] == part[0] && At(s, i + 1, part[1..])
  }

  lemma {:induction false} AtSplit(s: seq<byte>, i: nat, a: seq<byte>, b: seq<byte>)
    requires At(s, i, a + b)
    ensures At(s, i, a) && At(s, i + |a|, b)
    decreases a
  {
    if a == [] {
      assert a + b == b;
    } else {
      assert (a + b)[1..] == a[1..] + b;
      AtSplit(s, i + 1, a[1..], b);
    }
  }

  lemma {:induction false} AtSlice(s: seq<byte>, i: nat, part: seq<byte>)
    ensures At(s, i, part) <==> i + |part| <= |s| && s[i..i + |part|] == part
    decreases part
  {
    if part != [] && i < |s| {
      AtSlice(s, i + 1, part[1..]);
      if i + |part| <= |s| {
        assert s[i..i + |part|] == [s[i]] + s[i + 1..i + |part|];
        assert part == [part[0]] + part[1..];
      }
    }
  }
}
