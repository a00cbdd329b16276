/**
 * `parse` reads back what `output` writes in chrono style. The clock text
 * drops its leading all-zero groups and one leading zero; what is left is
 * either a bare number of seconds or a clock string that the chrono filter
 * turns back into the same days, hours, minutes and seconds.
 */
module ChronoTrip {
  import opened Wrappers
  import opened Text
  import opened Decimals
  import opened Units
  import opened Lexer
  import opened Chrono
  import opened Cleanup
  import opened Parser
  import opened Formatter
  import opened RoundTrip

  /** A zero in front of a literal is still a literal, worth the same. */
  lemma OneZeroLiteral(s: string)
    requires IsLiteral(s)
    ensures IsLiteral("0" + s) && LiteralValue("0" + s) == LiteralValue(s)
  {
    var t := "0" + s;
    var d := DigitRun(s);
    assert t[1..] == s;
    assert DigitRun(t) == d + 1;
    assert Zeros(1) == "0";
    if d + 1 < |s| {
      assert t[d + 1] == s[d] && t[d + 2] == s[d + 1];
      assert t[d + 2..] == s[d + 1..];
    }
    assert LiteralLength(t) == |t|;
    assert t[..d + 1] == "0" + s[..d];
    if d == |s| {
      assert s[..d] == s;
      LeadingZerosValue(1, s);
    } else {
      var f := FractionDigits(s);
      assert FractionDigits(t) == f;
      assert t[..d + 1] + f == "0" + (s[..d] + f);
      LeadingZerosValue(1, s[..d] + f);
    }
  }

  lemma {:induction false} ZerosLiteral(z: nat, s: string)
    requires IsLiteral(s)
    ensures IsLiteral(Zeros(z) + s) && LiteralValue(Zeros(z) + s) == LiteralValue(s)
  {
    if z == 0 {
      assert Zeros(z) + s == s;
    } else {
      var t := Zeros(z - 1) + s;
      ZerosLiteral(z - 1, s);
      OneZeroLiteral(t);
      assert Zeros(z) + s == "0" + t;
    }
  }

  /** A clock group: some zeros, then a literal that starts with a zero only if zeros precede it. */
  predicate Padded(g: string, z: nat, core: string)
  {
    g == Zeros(z) + core && IsLiteral(core) && (z > 0 || core[0] != '0')
  }

  /** A padded group is a literal worth its core; its characters are digits and the point. */
  lemma PaddedLiteral(g: string, z: nat, core: string)
    requires Padded(g, z, core)
    ensures IsLiteral(g) && LiteralValue(g) == LiteralValue(core)
    ensures forall i | 0 <= i < |g| :: IsDigit(g[i]) || g[i] == '.'
  {
    ZerosLiteral(z, core);
    LiteralChars(g);
  }

  /** Dropping one leading zero from a padded group takes off one of its zeros, or nothing. */
  lemma DropPadded(g: string, z: nat, core: string)
    requires Padded(g, z, core)
    ensures DropLeadingZero(g) == Zeros(if z > 0 then z - 1 else 0) + core
  {
    if z == 0 {
      assert Zeros(z) + core == core;
    } else {
      assert g == "0" + (Zeros(z - 1) + core);
    }
  }

  lemma Pad2Shape(n: nat) returns (z: nat, core: string)
    ensures Padded(Pad2(n), z, core) && LiteralValue(core) == Whole(n)
  {
    core := NatStr(n);
    z := |Pad2(n)| - |core|;
    RepeatZeros(z);
    LiteralOfDigits(core);
    assert n < 10 ==> |core| == 1;
  }

  lemma SecondsGroupShape(d: Decimal) returns (z: nat, core: string)
    ensures Padded(SecondsGroup(d), z, core) && LiteralValue(core) == d
  {
    var w := NatStr(WholePart(d));
    core := DecimalStr(d);
    DecimalStrLiteral(d);
    z := if |w| < 2 then 2 - |w| else 0;
    RepeatZeros(z);
    if z == 0 {
      assert core[0] == w[0];
    }
  }

  /** The four clock terms: days, hours, minutes and seconds, zeros included. */
  function ClockTerms(b: Breakdown): (ts: seq<Term>)
    ensures |ts| == 4 && forall i | 0 <= i < |ts| :: ts[i].unit == GroupUnit(|ts| - 1 - i)
  {
    [Term(Whole(b.days), Day), Term(Whole(b.hours), Hour), Term(Whole(b.minutes), Minute), Term(b.seconds, Second)]
  }

  /** Each clock group is a padded literal worth its clock term. */
  lemma ClockGroupShape(b: Breakdown, i: nat) returns (z: nat, core: string)
    requires i < 4
    ensures Padded(ChronoGroups(b)[i], z, core) && LiteralValue(core) == ClockTerms(b)[i].magnitude
  {
    if i == 0 {
      z, core := Pad2Shape(b.days);
    } else if i == 1 {
      z, core := Pad2Shape(b.hours);
    } else if i == 2 {
      z, core := Pad2Shape(b.minutes);
    } else {
      z, core := SecondsGroupShape(b.seconds);
    }
  }

  /** How many groups from the front are "00", never counting the last. */
  function ZeroGroups(gs: seq<string>): (k: nat)
    ensures k <= |gs| && (gs != [] ==> k < |gs|)
    ensures forall i | 0 <= i < k :: gs[i] == "00"
  {
    if |gs| > 1 && gs[0] == "00" then 1 + ZeroGroups(gs[1..]) else 0
  }

  /** Groups with no colon in them, none empty. */
  predicate ColonFree(gs: seq<string>)
  {
    forall k | 0 <= k < |gs| :: |gs[k]| > 0 && forall i | 0 <= i < |gs[k]| :: gs[k][i] != ':'
  }

  lemma ColonFreeTail(gs: seq<string>)
    requires ColonFree(gs) && |gs| > 0
    ensures ColonFree(gs[1..])
  {
    forall k | 0 <= k < |gs| - 1 ensures gs[1..][k] == gs[k + 1] {
    }
  }

  /** Stripping leading "00:" from joined groups drops exactly the leading "00" groups. */
  lemma {:induction false} StripJoin(gs: seq<string>)
    requires |gs| > 0 && ColonFree(gs)
    ensures StripZeroGroups(Join(gs, ":")) == Join(gs[ZeroGroups(gs)..], ":")
  {
    var g := gs[0];
    assert |g| > 0 && forall i | 0 <= i < |g| :: g[i] != ':';
    if |gs| == 1 {
      StripSingle(g);
      assert gs[0..] == gs;
    } else {
      var r := Join(gs[1..], ":");
      assert Join(gs, ":") == g + ":" + r;
      ColonFreeTail(gs);
      if g == "00" {
        StripStep(r);
        StripJoin(gs[1..]);
        assert gs[1..][ZeroGroups(gs[1..])..] == gs[ZeroGroups(gs)..];
      } else {
        StripOther(g, r);
        assert gs[0..] == gs;
      }
    }
  }

  /** A leading "00" group is dropped. */
  lemma StripStep(rest: string)
    ensures StripZeroGroups("00:" + rest) == StripZeroGroups(rest)
  {
    assert ("00:" + rest)[..3] == "00:";
    assert ("00:" + rest)[3..] == rest;
  }

  /** A single group, with no colon, is kept. */
  lemma StripSingle(g: string)
    requires forall i | 0 <= i < |g| :: g[i] != ':'
    ensures StripZeroGroups(g) == g
  {
    if |g| >= 3 {
      assert g[..3][2] == g[2];
    }
  }

  /** A leading group other than "00" stops the stripping. */
  lemma StripOther(g: string, r: string)
    requires |g| > 0 && g != "00" && forall i | 0 <= i < |g| :: g[i] != ':'
    ensures StripZeroGroups(g + ":" + r) == g + ":" + r
  {
    var s := g + ":" + r;
    if |g| >= 3 {
      assert s[..3][2] == g[2];
    } else if |g| == 2 {
      assert s[..3][..2] == g;
    } else if |s| >= 3 {
      assert s[..3][1] == ':';
    }
  }

  /** Dropping one leading zero from joined groups acts on the first group. */
  lemma DropJoin(gs: seq<string>)
    requires |gs| > 0 && |gs[0]| > 0
    ensures DropLeadingZero(Join(gs, ":")) == Join([DropLeadingZero(gs[0])] + gs[1..], ":")
  {
    var hs := [DropLeadingZero(gs[0])] + gs[1..];
    if |gs| > 1 {
      assert hs[1..] == gs[1..];
      var r := Join(gs[1..], ":");
      assert Join(gs, ":") == gs[0] + ":" + r;
      if gs[0][0] == '0' {
        assert (gs[0] + ":" + r)[1..] == gs[0][1..] + ":" + r;
      }
    }
  }

  /** A group of two zeros is worth nothing. */
  lemma DoubleZero()
    ensures IsLiteral("00") && LiteralValue("00").mantissa == 0
  {
    LiteralOfDigits("00");
    assert DigitsValue("00") == 0;
  }

  /** Digits and the point only. */
  predicate NumberChars(w: string)
  {
    forall j | 0 <= j < |w| :: IsDigit(w[j]) || w[j] == '.'
  }

  /**
   * Groups that are literals worth `ms`, made of digits and the point, that
   * stay so when one zero is taken off their front.
   */
  predicate Groups(gs: seq<string>, ms: seq<Decimal>)
  {
    && |gs| == |ms|
    && ColonFree(gs)
    && forall i | 0 <= i < |gs| ::
      && IsLiteral(gs[i]) && LiteralValue(gs[i]) == ms[i] && NumberChars(gs[i])
      && IsLiteral(DropLeadingZero(gs[i])) && LiteralValue(DropLeadingZero(gs[i])) == ms[i]
  }

  /** The clock groups satisfy `Groups` with the clock terms' magnitudes. */
  lemma ClockGroups(b: Breakdown)
    ensures Groups(ChronoGroups(b), Magnitudes(ClockTerms(b)))
  {
    var g := ChronoGroups(b);
    var ct := ClockTerms(b);
    forall i | 0 <= i < 4
      ensures IsLiteral(g[i]) && LiteralValue(g[i]) == ct[i].magnitude && NumberChars(g[i])
      ensures IsLiteral(DropLeadingZero(g[i])) && LiteralValue(DropLeadingZero(g[i])) == ct[i].magnitude
    {
      var z, core := ClockGroupShape(b, i);
      PaddedLiteral(g[i], z, core);
      DropPadded(g[i], z, core);
      ZerosLiteral(if z > 0 then z - 1 else 0, core);
    }
  }

  function Magnitudes(ts: seq<Term>): (ms: seq<Decimal>)
    ensures |ms| == |ts| && forall i | 0 <= i < |ts| :: ms[i] == ts[i].magnitude
  {
    seq(|ts|, i requires 0 <= i < |ts| => ts[i].magnitude)
  }

  /**
   * Stripping the leading "00" groups and one zero leaves the groups from
   * index k on, the first with a zero taken off; the dropped groups are
   * worth nothing.
   */
  lemma Remaining(gs: seq<string>, ms: seq<Decimal>) returns (k: nat, rs: seq<string>)
    requires |gs| > 0 && Groups(gs, ms)
    ensures k < |gs| && |rs| == |gs| - k
    ensures DropLeadingZero(StripZeroGroups(Join(gs, ":"))) == Join(rs, ":")
    ensures forall i | 0 <= i < k :: ms[i].mantissa == 0
    ensures forall i | 0 <= i < |rs| :: IsLiteral(rs[i]) && LiteralValue(rs[i]) == ms[k + i]
    ensures forall i | 0 <= i < |rs| :: NumberChars(rs[i])
  {
    k := ZeroGroups(gs);
    StripJoin(gs);
    var tail := gs[k..];
    DropJoin(tail);
    rs := [DropLeadingZero(gs[k])] + gs[k + 1..];
    assert [DropLeadingZero(tail[0])] + tail[1..] == rs;
    forall i | 0 <= i < k ensures ms[i].mantissa == 0 {
      DoubleZero();
    }
    forall i | 1 <= i < |rs|
      ensures IsLiteral(rs[i]) && LiteralValue(rs[i]) == ms[k + i] && NumberChars(rs[i])
    {
      assert rs[i] == gs[k + i];
    }
    var g := gs[k];
    if |g| > 0 && g[0] == '0' {
      forall j | 0 <= j < |g| - 1 ensures IsDigit(rs[0][j]) || rs[0][j] == '.' {
        assert rs[0][j] == g[j + 1];
      }
    }
  }

  /** One term is worth its magnitude times its unit's length. */
  lemma OneTerm(t: Term)
    ensures Seconds([t]) == Value(t.magnitude) * Length(t.unit) as real
    ensures MaxScale([t]) == t.magnitude.scale
  {
    assert [t][1..] == [];
  }

  /** A whole count of a unit is worth count times the unit's length. */
  lemma OneWholeTerm(n: nat, k: UnitKind)
    ensures Seconds([Term(Whole(n), k)]) == (n * Length(k)) as real
    ensures MaxScale([Term(Whole(n), k)]) == 0
  {
    OneTerm(Term(Whole(n), k));
    ValueWhole(n);
    RealProduct(n, Length(k));
  }

  /** The four clock terms are worth the whole breakdown, with the seconds' fraction digits. */
  lemma ClockSeconds(b: Breakdown)
    ensures Seconds(ClockTerms(b)) == WholeSeconds(b) as real + Value(b.seconds)
    ensures MaxScale(ClockTerms(b)) == b.seconds.scale
  {
    var a, c, d, e := [Term(Whole(b.days), Day)], [Term(Whole(b.hours), Hour)], [Term(Whole(b.minutes), Minute)], [Term(b.seconds, Second)];
    assert ClockTerms(b) == a + c + d + e;
    SecondsOfFour(a, c, d, e);
    OneWholeTerm(b.days, Day);
    OneWholeTerm(b.hours, Hour);
    OneWholeTerm(b.minutes, Minute);
    OneTerm(Term(b.seconds, Second));
    WholeSecondsSum(b);
  }

  /** Terms with zero whole magnitudes add nothing and no fraction digits. */
  lemma {:induction false} ZeroTerms(ts: seq<Term>)
    requires forall i | 0 <= i < |ts| :: ts[i].magnitude == Whole(0)
    ensures Seconds(ts) == 0.0 && MaxScale(ts) == 0
  {
    if ts != [] {
      assert forall i | 0 <= i < |ts| - 1 :: ts[1..][i] == ts[i + 1];
      ZeroTerms(ts[1..]);
    }
  }

  /**
   * The clock terms from index k on, when those before it are zero, add
   * up to the canonical duration they were broken down from.
   */
  lemma ClockTotal(x: Decimal, limitToHours: bool, k: nat)
    requires k <= 3
    requires forall i | 0 <= i < k :: ClockTerms(BreakDown(Normalize(x), limitToHours))[i].magnitude.mantissa == 0
    ensures Total(ClockTerms(BreakDown(Normalize(x), limitToHours))[k..]) == Normalize(x)
  {
    var n := Normalize(x);
    var b := BreakDown(n, limitToHours);
    var ct := ClockTerms(b);
    ClockSeconds(b);
    assert ct == ct[..k] + ct[k..];
    SecondsAppend(ct[..k], ct[k..]);
    forall i | 0 <= i < k ensures ct[..k][i].magnitude == Whole(0) {
      assert ct[..k][i] == ct[i];
    }
    ZeroTerms(ct[..k]);
    SameScaleSameValue(Total(ct[k..]), n);
  }

  /** A bare number cleans up to itself: it is lower case and has no colon. */
  lemma BareLiteralTokens(w: string)
    requires IsLiteral(w)
    ensures CleanupTokens(w) == Success([Number(w)])
  {
    BareLiteralPlain(w);
    LowerIdentity(w);
    ReadingLiteral(w);
    ReadingLast(w, Number(w));
    ReadPhrase(Last(w));
    assert StripAll(Words(Last(w)))[1..] == [];
  }

  /** A literal has no upper-case letter and is not clock-shaped. */
  lemma BareLiteralPlain(w: string)
    requires IsLiteral(w)
    ensures NoUpper(w) && !IsChronoShape(w)
  {
    LiteralChars(w);
    assert NoSpace(w);
    SplitNoSeparator(w, ':');
  }

  function GroupKinds(gs: seq<string>): (ks: seq<UnitKind>)
    requires |gs| <= 6
    ensures |ks| == |gs| && forall i | 0 <= i < |gs| :: ks[i] == GroupUnit(|gs| - 1 - i)
  {
    seq(|gs|, i requires 0 <= i < |gs| => GroupUnit(|gs| - 1 - i))
  }

  /** Joining the alternating words with one separator renders them as pairs. */
  lemma {:induction false} JoinInterleave(cs: seq<string>, us: seq<string>, sep: string)
    requires |cs| == |us| > 0
    ensures Join(Interleave(cs, us), sep) == Render(Pairs(cs, us, sep, sep))
    decreases |cs|
  {
    var c, u := cs[0], us[0];
    var tail := Interleave(cs[1..], us[1..]);
    assert Interleave(cs, us) == [c, u] + tail;
    if |cs| == 1 {
      JoinTwo(c, u, tail, sep);
    } else {
      JoinInterleave(cs[1..], us[1..], sep);
      JoinTwo(c, u, tail, sep);
    }
  }

  lemma JoinTwo(a: string, b: string, rest: seq<string>, sep: string)
    ensures Join([a, b] + rest, sep) == if rest == [] then a + sep + b else a + sep + (b + sep + Join(rest, sep))
  {
    var ws := [a, b] + rest;
    assert ws[1..] == [b] + rest;
    assert ws[1..][1..] == rest;
  }

  /** Two to six numeric groups joined by colons are clock-shaped and split back into themselves. */
  lemma ClockShape(rs: seq<string>)
    requires 2 <= |rs| <= 6
    requires forall i | 0 <= i < |rs| :: IsLiteral(rs[i]) && NumberChars(rs[i])
    ensures NoUpper(Join(rs, ":"))
    ensures IsChronoShape(Join(rs, ":")) && Split(RemoveSpaces(Join(rs, ":")), ':') == rs
  {
    var t := Join(rs, ":");
    JoinChars(rs, ":", IsChronoChar);
    assert NoUpper(t) && NoSpace(t);
    SplitJoin(rs, ':');
  }

  /** The chrono text of two or more groups cleans up to group, unit, group, unit, ... */
  lemma ClockTokens(rs: seq<string>)
    requires 2 <= |rs| <= 6
    requires forall i | 0 <= i < |rs| :: IsLiteral(rs[i]) && NumberChars(rs[i])
    ensures CleanupTokens(Join(rs, ":")) == Success(PairTokens(rs, GroupKinds(rs)))
  {
    var t := Join(rs, ":");
    ClockShape(rs);
    LowerIdentity(t);
    var us, ks := GroupNames(rs), GroupKinds(rs);
    JoinInterleave(rs, us, " ");
    forall i | 0 <= i < |rs| ensures Lookup(us[i]) == Some(ks[i]) {
      CanonicalNameLookup(ks[i]);
    }
    ReadPairs(rs, us, ks, " ", " ");
  }

  /** A bare number parses to that many of the default unit. */
  lemma ParseBare(w: string, opts: ParseOptions)
    requires IsLiteral(w)
    ensures var total := Total([Term(LiteralValue(w), opts.defaultUnit)]);
      Parse(w, opts) == Success(if total.mantissa == 0 && !opts.keepZero then None else Some(total))
  {
    BareLiteralTokens(w);
    assert ToTerms([Number(w)], opts.defaultUnit) == Success([Term(LiteralValue(w), opts.defaultUnit)]);
  }

  /** Two or more clock groups parse to the total of the groups read from the right. */
  lemma ParseClock(rs: seq<string>, ts: seq<Term>, opts: ParseOptions)
    requires 2 <= |rs| <= 6 && |ts| == |rs|
    requires forall i | 0 <= i < |rs| :: IsLiteral(rs[i]) && NumberChars(rs[i])
    requires forall i | 0 <= i < |rs| :: ts[i] == Term(LiteralValue(rs[i]), GroupUnit(|rs| - 1 - i))
    ensures var total := Total(ts);
      Parse(Join(rs, ":"), opts) == Success(if total.mantissa == 0 && !opts.keepZero then None else Some(total))
  {
    ClockTokens(rs);
    ParseTokens(Join(rs, ":"), rs, GroupKinds(rs), opts);
    assert ReadTerms(rs, GroupKinds(rs)) == ts;
  }

  /** The groups left stand for the clock terms from index k on, read from the right. */
  lemma SuffixTerms(ct: seq<Term>, k: nat, rs: seq<string>)
    requires |ct| <= 6 && k <= |ct| && |rs| == |ct| - k
    requires forall i | 0 <= i < |ct| :: ct[i].unit == GroupUnit(|ct| - 1 - i)
    requires forall i | 0 <= i < |rs| :: IsLiteral(rs[i]) && LiteralValue(rs[i]) == Magnitudes(ct)[k + i]
    ensures forall i | 0 <= i < |rs| :: ct[k..][i] == Term(LiteralValue(rs[i]), GroupUnit(|rs| - 1 - i))
  {
    forall i | 0 <= i < |rs| ensures ct[k..][i] == Term(LiteralValue(rs[i]), GroupUnit(|rs| - 1 - i)) {
      assert ct[k..][i] == ct[k + i];
    }
  }

  /** A two-digit clock group loses its padding zero. */
  lemma Pad2Unpadded(n: nat)
    ensures DropLeadingZero(Pad2(n)) == DecimalStr(Whole(n))
  {
    var s := NatStr(n);
    assert DecimalStr(Whole(n)) == s;
    if n < 10 {
      assert Pad2(n) == "0" + s;
    } else {
      assert Pad2(n) == s && s[0] != '0';
    }
  }

  /** A two-digit clock group is "00" only for zero. */
  lemma Pad2Zero(n: nat)
    ensures Pad2(n) == "00" <==> n == 0
  {
    var s := NatStr(n);
    if n < 10 {
      assert s == [DigitChar(n)];
      assert Pad2(n) == "0" + s;
      if Pad2(n) == "00" {
        assert s == Pad2(n)[1..];
      }
      assert DigitValue(DigitChar(n)) == n;
    } else {
      assert Pad2(n)[0] == s[0] != '0';
    }
  }

  /** A two-digit clock group has at least two digits. */
  lemma Pad2Digits(n: nat)
    ensures DigitRun(Pad2(n)) >= 2
  {
    var g := Pad2(n);
    RepeatZeros(|g| - |NatStr(n)|);
    assert AllDigits(g) by {
      forall i | 0 <= i < |g| ensures IsDigit(g[i]) {
        if i >= |g| - |NatStr(n)| {
          assert g[i] == NatStr(n)[i - (|g| - |NatStr(n)|)];
        }
      }
    }
    DigitRunAllDigits(g, []);
    assert g + [] == g;
  }

  /** The seconds group loses its padding zero. */
  lemma SecondsUnpadded(d: Decimal)
    ensures DropLeadingZero(SecondsGroup(d)) == DecimalStr(d)
  {
    var w := NatStr(WholePart(d));
    var z := if |w| < 2 then 2 - |w| else 0;
    RepeatZeros(z);
    if z == 0 {
      assert WholePart(d) >= 10;
      assert SecondsGroup(d)[0] == w[0];
    } else {
      assert SecondsGroup(d) == "0" + DecimalStr(d);
    }
  }

  /** The seconds group has at least two digits before any point. */
  lemma SecondsDigits(d: Decimal)
    ensures DigitRun(SecondsGroup(d)) >= 2
  {
    var w := NatStr(WholePart(d));
    var z := if |w| < 2 then 2 - |w| else 0;
    var rest := if d.scale == 0 then "" else "." + PadLeft(NatStr(FractionPart(d)), d.scale, '0');
    assert DecimalStr(d) == w + rest;
    RepeatZeros(z);
    var lead := Zeros(z) + w;
    assert SecondsGroup(d) == lead + rest;
    assert AllDigits(lead) by {
      forall i | 0 <= i < |lead| ensures IsDigit(lead[i]) {
        if i < z { assert lead[i] == Zeros(z)[i]; } else { assert lead[i] == w[i - z]; }
      }
    }
    DigitRunAllDigits(lead, rest);
  }

  lemma ClockColonFree(b: Breakdown)
    ensures ColonFree(ChronoGroups(b))
  {
    ClockGroups(b);
  }

  /** Clock groups past the last leading "00" stop the count of zero groups. */
  lemma {:induction false} ZeroGroupsStop(gs: seq<string>)
    requires ZeroGroups(gs) + 1 < |gs|
    ensures gs[ZeroGroups(gs)] != "00"
  {
    if gs[0] == "00" {
      ZeroGroupsStop(gs[1..]);
      assert gs[1..][ZeroGroups(gs[1..])] == gs[ZeroGroups(gs)];
    }
  }

  /** Every clock group has at least two digits before any point. */
  lemma GroupDigits(b: Breakdown)
    ensures forall i | 0 <= i < 4 :: DigitRun(ChronoGroups(b)[i]) >= 2
  {
    Pad2Digits(b.days);
    Pad2Digits(b.hours);
    Pad2Digits(b.minutes);
    SecondsDigits(b.seconds);
  }

  /** A clock group other than the seconds is written "00" exactly when it is worth nothing. */
  lemma ZeroGroupTerm(b: Breakdown, i: nat)
    requires i < 3
    ensures ChronoGroups(b)[i] == "00" <==> ClockTerms(b)[i].magnitude.mantissa == 0
  {
    if i == 0 {
      Pad2Zero(b.days);
    } else if i == 1 {
      Pad2Zero(b.hours);
    } else {
      Pad2Zero(b.minutes);
    }
  }

  /** Without its padding zero a clock group is its count as a word style writes it. */
  lemma GroupUnpadded(b: Breakdown, i: nat)
    requires i < 4
    ensures DropLeadingZero(ChronoGroups(b)[i]) == DecimalStr(ClockTerms(b)[i].magnitude)
  {
    if i == 0 {
      Pad2Unpadded(b.days);
    } else if i == 1 {
      Pad2Unpadded(b.hours);
    } else if i == 2 {
      Pad2Unpadded(b.minutes);
    } else {
      SecondsUnpadded(b.seconds);
    }
  }

  /**
   * The shape of chrono text: the leading zero groups (days, hours,
   * minutes, never the seconds) are dropped; the first group kept is
   * nonzero unless it is the seconds, and is written without padding, as a
   * word style writes its count; every later group has at least two digits
   * before any point.
   */
  lemma ChronoShape(b: Breakdown) returns (k: nat, rs: seq<string>)
    ensures k <= 3 && |rs| == 4 - k && ChronoText(b) == Join(rs, ":")
    ensures forall i | 0 <= i < k :: ClockTerms(b)[i].magnitude.mantissa == 0
    ensures k < 3 ==> ClockTerms(b)[k].magnitude.mantissa != 0
    ensures rs[0] == DecimalStr(ClockTerms(b)[k].magnitude)
    ensures forall i | 1 <= i < |rs| :: rs[i] == ChronoGroups(b)[k + i] && DigitRun(rs[i]) >= 2
  {
    var gs := ChronoGroups(b);
    ClockColonFree(b);
    k := ZeroGroups(gs);
    StripJoin(gs);
    var tail := gs[k..];
    DropJoin(tail);
    rs := [DropLeadingZero(gs[k])] + gs[k + 1..];
    assert [DropLeadingZero(tail[0])] + tail[1..] == rs;
    forall i | 0 <= i < k ensures ClockTerms(b)[i].magnitude.mantissa == 0 {
      ZeroGroupTerm(b, i);
    }
    if k < 3 {
      ZeroGroupsStop(gs);
      ZeroGroupTerm(b, k);
    }
    GroupUnpadded(b, k);
    GroupDigits(b);
    forall i | 1 <= i < |rs| ensures rs[i] == gs[k + i] && DigitRun(rs[i]) >= 2 {
      assert rs[i] == gs[k + 1..][i - 1];
    }
  }

  /** t is the text of the groups rs, which are the clock terms ct from index k on. */
  predicate Suffix(t: string, rs: seq<string>, ct: seq<Term>, k: nat)
  {
    && t == Join(rs, ":")
    && |ct| == 4 && k < 4 && |rs| == 4 - k
    && (forall i | 0 <= i < |ct| :: ct[i].unit == GroupUnit(|ct| - 1 - i))
    && (forall i | 0 <= i < |rs| :: IsLiteral(rs[i]) && LiteralValue(rs[i]) == Magnitudes(ct)[k + i])
    && (forall i | 0 <= i < |rs| :: NumberChars(rs[i]))
  }

  /** The text the groups left make parses to the total of the clock terms from index k on. */
  lemma ParseSuffix(t: string, rs: seq<string>, ct: seq<Term>, k: nat, opts: ParseOptions)
    requires Suffix(t, rs, ct, k) && opts.defaultUnit == Second
    ensures var total := Total(ct[k..]);
      Parse(t, opts) == Success(if total.mantissa == 0 && !opts.keepZero then None else Some(total))
  {
    SuffixTerms(ct, k, rs);
    if |rs| == 1 {
      ParseBare(rs[0], opts);
      assert ct[k..] == [Term(LiteralValue(rs[0]), Second)];
    } else {
      ParseClock(rs, ct[k..], opts);
    }
  }

  /**
   * Chrono output parses back to the duration it was written from, exactly
   * and in its canonical spelling, when the default unit is seconds.
   */
  lemma ChronoRoundTrip(x: Decimal, opts: OutputOptions, popts: ParseOptions)
    requires opts.format == Chrono && popts.defaultUnit == Second
    ensures Output(x, opts).Some?
    ensures Parse(Output(x, opts).value, popts) ==
      Success(if x.mantissa == 0 && !popts.keepZero then None else Some(Normalize(x)))
  {
    var n := Normalize(x);
    var b := BreakDown(n, opts.limitToHours);
    assert Output(x, opts) == Some(ChronoText(b));
    var k := ParseChronoText(b, popts);
    ClockTotal(x, opts.limitToHours, k);
    ValueZero(x);
    ValueZero(n);
  }

  /**
   * The chrono text of a breakdown parses to the total of its clock terms
   * from the first one shown; the ones before it are zero.
   */
  lemma ParseChronoText(b: Breakdown, popts: ParseOptions) returns (k: nat)
    requires popts.defaultUnit == Second
    ensures k <= 3 && forall i | 0 <= i < k :: ClockTerms(b)[i].magnitude.mantissa == 0
    ensures var total := Total(ClockTerms(b)[k..]);
      Parse(ChronoText(b), popts) == Success(if total.mantissa == 0 && !popts.keepZero then None else Some(total))
  {
    var rs;
    k, rs := ChronoSuffix(b);
    ParseSuffix(ChronoText(b), rs, ClockTerms(b), k, popts);
  }

  /** The groups the chrono text of a breakdown keeps, from index k on. */
  lemma ChronoSuffix(b: Breakdown) returns (k: nat, rs: seq<string>)
    ensures Suffix(ChronoText(b), rs, ClockTerms(b), k)
    ensures forall i | 0 <= i < k :: ClockTerms(b)[i].magnitude.mantissa == 0
  {
    var ct := ClockTerms(b);
    var gs := ChronoGroups(b);
    ClockGroups(b);
    k, rs := Remaining(gs, Magnitudes(ct));
  }
}
