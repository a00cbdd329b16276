/**
 * `cleanup` is idempotent on the text it writes: once a string has been
 * cleaned up to numbers and canonical unit names, cleaning it up again
 * gives it back unchanged.
 */
module CleanupFixpoint {
  import opened Wrappers
  import opened Text
  import opened Units
  import opened Lexer
  import opened Cleanup
  import opened RoundTrip
  import opened ChronoTrip

  /** The canonical names of some units. */
  function UnitNames(ks: seq<UnitKind>): (us: seq<string>)
    ensures |us| == |ks| && forall i | 0 <= i < |ks| :: us[i] == CanonicalName(ks[i])
  {
    seq(|ks|, i requires 0 <= i < |ks| => CanonicalName(ks[i]))
  }

  /** Written out, alternating tokens are the counts interleaved with the unit names. */
  lemma {:induction false} PairTexts(cs: seq<string>, ks: seq<UnitKind>)
    requires |cs| == |ks|
    ensures TokenTexts(PairTokens(cs, ks)) == Interleave(cs, UnitNames(ks))
    decreases |cs|
  {
    if cs != [] {
      var us := UnitNames(ks);
      PairTexts(cs[1..], ks[1..]);
      assert UnitNames(ks[1..]) == us[1..];
      var tail := PairTokens(cs[1..], ks[1..]);
      assert TokenTexts([Number(cs[0]), UnitName(ks[0])] + tail) == [cs[0], us[0]] + TokenTexts(tail);
    }
  }

  /**
   * Text that cleans up to alternating numbers and units (every duration
   * `parse` accepts with each number followed by its unit) cleans up to a
   * string that cleanup leaves as it is.
   */
  lemma CleanupIdempotent(text: string, cs: seq<string>, ks: seq<UnitKind>)
    requires |cs| == |ks| > 0 && forall i | 0 <= i < |cs| :: IsLiteral(cs[i])
    requires CleanupTokens(text) == Success(PairTokens(cs, ks))
    ensures Cleanup.Cleanup(text).Success?
    ensures Cleanup.Cleanup(Cleanup.Cleanup(text).value) == Cleanup.Cleanup(text)
  {
    var us := UnitNames(ks);
    PairTexts(cs, ks);
    JoinInterleave(cs, us, " ");
    forall i | 0 <= i < |ks| ensures Lookup(us[i]) == Some(ks[i]) {
      CanonicalNameLookup(ks[i]);
    }
    CleanupPairs(cs, us, ks, " ", " ");
  }
}
