/** Normalisation of inbound ICE candidate text: the candidate attribute of
    section 5.1 of RFC 8839 begins with "candidate:", and the signaling
    server may relay the bare body without it. */
module Candidates {
  import opened Types

  const Prefix: string := "candidate:"

  /** JavaScript's `startsWith("candidate:")`. */
  predicate HasPrefix(s: string) {
    Prefix <= s
  }

  /** The candidate text with the prefix added when it is missing. */
  function WithPrefix(s: string): (r: string)
    ensures HasPrefix(r)
    ensures r == s <==> HasPrefix(s)
    ensures r == s || r == Prefix + s
  {
    if HasPrefix(s) then s else Prefix + s
  }

  /** The candidate object with its `candidate` text normalised; every other
      field is kept. */
  function Normalize(c: IceCandidate): (r: IceCandidate)
    ensures HasPrefix(r.candidate)
    ensures r.sdpMid == c.sdpMid && r.sdpMLineIndex == c.sdpMLineIndex
    ensures r == c <==> HasPrefix(c.candidate)
  {
    c.(candidate := WithPrefix(c.candidate))
  }

  /** Normalising twice is normalising once. */
  lemma NormalizeIdempotent(c: IceCandidate)
    ensures Normalize(Normalize(c)) == Normalize(c)
  {
  }

  /** Normalisation never alters the text it was given: the original is
      always the tail of the result, and only the prefix can precede it. */
  lemma WithPrefixKeepsBody(s: string)
    ensures var r := WithPrefix(s); |s| <= |r| && r[|r| - |s|..] == s
    ensures var r := WithPrefix(s); r[..|r| - |s|] == [] || r[..|r| - |s|] == Prefix
  {
    var r := WithPrefix(s);
    if !HasPrefix(s) {
      assert r[|Prefix|..] == s;
      assert r[..|Prefix|] == Prefix;
    }
  }

  /** Every candidate in `cs` carries the prefix. */
  ghost predicate AllPrefixed(cs: seq<IceCandidate>) {
    forall i :: 0 <= i < |cs| ==> HasPrefix(cs[i].candidate)
  }

  /** Recording one more normalised candidate keeps every candidate prefixed. */
  lemma AllPrefixedSnoc(cs: seq<IceCandidate>, c: IceCandidate)
    requires AllPrefixed(cs)
    ensures AllPrefixed(cs + [Normalize(c)])
  {
  }
}
