/** A stream that comes in chunks. */
module Chunks {
  import opened Regexes

  function Joined(chunks: seq<seq<Byte>>): seq<Byte> {
    if chunks == [] then [] else chunks[0] + Joined(chunks[1..])
  }

  lemma JoinedNone()
    ensures Joined([]) == []
  {
  }

  lemma {:induction false} JoinedBoth(a: seq<seq<Byte>>, b: seq<seq<Byte>>)
    ensures Joined(a + b) == Joined(a) + Joined(b)
    decreases |a|
  {
    if a == [] {
      assert a + b == b;
    } else {
      assert (a + b)[0] == a[0] && (a + b)[1..] == a[1..] + b;
      JoinedBoth(a[1..], b);
    }
  }

  /** What is left behind the first `k` chunks. */
  lemma JoinedFrom(chunks: seq<seq<Byte>>, k: nat) returns (rest: seq<Byte>)
    requires k <= |chunks|
    ensures Joined(chunks) == Joined(chunks[..k]) + rest
  {
    JoinedBoth(chunks[..k], chunks[k..]);
    assert chunks[..k] + chunks[k..] == chunks;
    rest := Joined(chunks[k..]);
  }

  lemma JoinedLast(chunks: seq<seq<Byte>>, k: nat)
    requires 0 < k <= |chunks|
    ensures Joined(chunks[..k]) == Joined(chunks[..k - 1]) + chunks[k - 1]
  {
    var last := [chunks[k - 1]];
    JoinedBoth(chunks[..k - 1], last);
    assert chunks[..k - 1] + last == chunks[..k];
    assert last[1..] == [];
  }
}
