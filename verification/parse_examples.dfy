/**
 * The durations the library's own examples read, worked out on the model:
 * each lemma states what `parse`, `filter_by_type` or `cleanup` returns for
 * one example string. General facts come first (how a phrase of alternating
 * counts and units, a clock string or a phrase with filler words reads),
 * then one lemma per example.
 */
module ParseExamples {
  import opened Wrappers
  import opened Text
  import opened Decimals
  import opened Units
  import opened Lexer
  import opened Chrono
  import opened Cleanup
  import opened Parser
  import opened Formatter
  import opened RoundTrip
  import opened ChronoTrip

  /** A total is pinned down by its scale and its value. */
  lemma TotalIs(ts: seq<Term>, m: nat, s: nat)
    requires MaxScale(ts) == s && Seconds(ts) == Value(Decimal(m, s))
    ensures Total(ts) == Decimal(m, s)
  {
    SameScaleSameValue(Total(ts), Decimal(m, s));
  }

  lemma SecondsTwo(t1: Term, t2: Term)
    ensures Seconds([t1, t2]) == Value(t1.magnitude) * Length(t1.unit) as real + Value(t2.magnitude) * Length(t2.unit) as real
    ensures MaxScale([t1, t2]) == Max(t1.magnitude.scale, t2.magnitude.scale)
  {
    assert [t1, t2][1..] == [t2];
    OneTerm(t2);
  }

  lemma SecondsThree(t1: Term, t2: Term, t3: Term)
    ensures Seconds([t1, t2, t3]) ==
      Value(t1.magnitude) * Length(t1.unit) as real + Value(t2.magnitude) * Length(t2.unit) as real
      + Value(t3.magnitude) * Length(t3.unit) as real
    ensures MaxScale([t1, t2, t3]) == Max(t1.magnitude.scale, Max(t2.magnitude.scale, t3.magnitude.scale))
  {
    assert [t1, t2, t3][1..] == [t2, t3];
    SecondsTwo(t2, t3);
  }

  /** A count written in digits only is that whole number. */
  lemma DigitsLiteral(w: string, n: nat)
    requires |w| > 0 && AllDigits(w) && DigitsValue(w) == n
    ensures IsLiteral(w) && LiteralValue(w) == Whole(n)
  {
    LiteralOfDigits(w);
  }

  /** A count written with a point is its digits over a power of ten. */
  lemma PointDigits(s: string, w: string, f: string, m: nat)
    requires |w| > 0 && AllDigits(w) && |f| > 0 && AllDigits(f)
    requires s == w + "." + f && DigitsValue(w) * Pow10(|f|) + DigitsValue(f) == m
    ensures IsLiteral(s) && LiteralValue(s) == Decimal(m, |f|)
  {
    DigitsValueConcat(w, f);
    PointLiteral(w, f);
  }

  lemma RenderTwo(c1: string, u1: string, c2: string, u2: string, gap: string, joiner: string)
    ensures Render(Pairs([c1, c2], [u1, u2], gap, joiner)) == c1 + gap + (u1 + joiner + (c2 + gap + u2))
  {
    assert [c1, c2][1..] == [c2] && [u1, u2][1..] == [u2];
    var p := Pairs([c2], [u2], gap, joiner);
    assert p == Then(c2, gap, Last(u2));
    assert Render(p) == c2 + gap + u2;
  }

  lemma RenderThree(c1: string, u1: string, c2: string, u2: string, c3: string, u3: string, gap: string, joiner: string)
    ensures Render(Pairs([c1, c2, c3], [u1, u2, u3], gap, joiner)) ==
      c1 + gap + (u1 + joiner + (c2 + gap + (u2 + joiner + (c3 + gap + u3))))
  {
    assert [c1, c2, c3][1..] == [c2, c3] && [u1, u2, u3][1..] == [u2, u3];
    RenderTwo(c2, u2, c3, u3, gap, joiner);
  }

  /** One count and its unit, as `output` writes them, parse to that term's seconds. */
  lemma ParseOnePair(text: string, c: string, u: string, gap: string, t: Term, opts: ParseOptions)
    requires IsGap(gap) && text == c + gap + u
    requires IsLiteral(c) && LiteralValue(c) == t.magnitude && Lookup(u) == Some(t.unit)
    ensures var total := Total([t]);
      Parse(text, opts) == Success(if total.mantissa == 0 && !opts.keepZero then None else Some(total))
  {
    var cs, us, ks := [c], [u], [t.unit];
    assert Spelled(cs, us, ks);
    ParsePairs(cs, us, ks, gap, " ", opts);
    assert Pairs(cs, us, gap, " ") == Then(c, gap, Last(u));
    assert ReadTerms(cs, ks) == [t];
  }

  /** Two counts with their units parse to the sum of both terms. */
  lemma ParseTwoPairs(text: string, c1: string, u1: string, c2: string, u2: string, gap: string, joiner: string,
                      t1: Term, t2: Term, opts: ParseOptions)
    requires IsGap(gap) && IsGap(joiner)
    requires text == c1 + gap + (u1 + joiner + (c2 + gap + u2))
    requires IsLiteral(c1) && LiteralValue(c1) == t1.magnitude && Lookup(u1) == Some(t1.unit)
    requires IsLiteral(c2) && LiteralValue(c2) == t2.magnitude && Lookup(u2) == Some(t2.unit)
    ensures var total := Total([t1, t2]);
      Parse(text, opts) == Success(if total.mantissa == 0 && !opts.keepZero then None else Some(total))
  {
    var cs, us, ks := [c1, c2], [u1, u2], [t1.unit, t2.unit];
    assert Spelled(cs, us, ks);
    ParsePairs(cs, us, ks, gap, joiner, opts);
    RenderTwo(c1, u1, c2, u2, gap, joiner);
    assert ReadTerms(cs, ks) == [t1, t2];
  }

  /** Three counts with their units parse to the sum of the three terms. */
  lemma ParseThreePairs(text: string, c1: string, u1: string, c2: string, u2: string, c3: string, u3: string,
                        gap: string, joiner: string, t1: Term, t2: Term, t3: Term, opts: ParseOptions)
    requires IsGap(gap) && IsGap(joiner)
    requires text == c1 + gap + (u1 + joiner + (c2 + gap + (u2 + joiner + (c3 + gap + u3))))
    requires IsLiteral(c1) && LiteralValue(c1) == t1.magnitude && Lookup(u1) == Some(t1.unit)
    requires IsLiteral(c2) && LiteralValue(c2) == t2.magnitude && Lookup(u2) == Some(t2.unit)
    requires IsLiteral(c3) && LiteralValue(c3) == t3.magnitude && Lookup(u3) == Some(t3.unit)
    ensures var total := Total([t1, t2, t3]);
      Parse(text, opts) == Success(if total.mantissa == 0 && !opts.keepZero then None else Some(total))
  {
    var cs, us, ks := [c1, c2, c3], [u1, u2, u3], [t1.unit, t2.unit, t3.unit];
    SpelledThree(c1, u1, c2, u2, c3, u3, t1, t2, t3);
    RenderThree(c1, u1, c2, u2, c3, u3, gap, joiner);
    ParsePairs(cs, us, ks, gap, joiner, opts);
  }

  lemma SpelledThree(c1: string, u1: string, c2: string, u2: string, c3: string, u3: string, t1: Term, t2: Term, t3: Term)
    requires IsLiteral(c1) && LiteralValue(c1) == t1.magnitude && Lookup(u1) == Some(t1.unit)
    requires IsLiteral(c2) && LiteralValue(c2) == t2.magnitude && Lookup(u2) == Some(t2.unit)
    requires IsLiteral(c3) && LiteralValue(c3) == t3.magnitude && Lookup(u3) == Some(t3.unit)
    ensures Spelled([c1, c2, c3], [u1, u2, u3], [t1.unit, t2.unit, t3.unit])
    ensures ReadTerms([c1, c2, c3], [t1.unit, t2.unit, t3.unit]) == [t1, t2, t3]
  {
  }

  /** A lower-case phrase without a "twenty five" pair, whose words are set apart. */
  predicate Plain(p: Phrase)
  {
    WellSeparated(p) && NoUpper(Render(p)) && NoCompound(StripAll(Words(p)))
  }

  lemma PlainLast(w: string)
    requires IsLexeme(w) && NoUpper(w)
    ensures Plain(Last(w))
  {
  }

  lemma PlainThen(w: string, sep: string, r: Phrase)
    requires Plain(r) && IsLexeme(w) && Separates(sep, w, r.word) && NoUpper(w) && NoUpper(sep)
    requires !(IsTens(StripCommas(w)) && IsOnes(StripCommas(r.word)))
    ensures Plain(Then(w, sep, r))
  {
    NoUpperConcat(w, sep, Render(r));
    StripAllThen(w, sep, r);
    NoCompoundCons(StripCommas(w), StripAll(Words(r)));
  }

  lemma StripAllThen(w: string, sep: string, r: Phrase)
    ensures StripAll(Words(Then(w, sep, r))) == [StripCommas(w)] + StripAll(Words(r))
    ensures StripAll(Words(r))[0] == StripCommas(r.word)
  {
  }

  lemma NoCompoundCons(a: string, rs: seq<string>)
    requires NoCompound(rs) && |rs| > 0 && !(IsTens(a) && IsOnes(rs[0]))
    ensures NoCompound([a] + rs)
  {
    var ws := [a] + rs;
    forall i | 0 <= i < |ws| - 1 ensures !(IsTens(ws[i]) && IsOnes(ws[i + 1])) {
      if i > 0 {
        assert ws[i] == rs[i - 1] && ws[i + 1] == rs[i];
      }
    }
  }

  /**
   * A plain phrase that is read word by word as alternating numbers and
   * units (after a leading unit counts one) parses to the total of those terms.
   */
  lemma ParsePhrase(p: Phrase, text: string, ts: seq<Token>, cs: seq<string>, ks: seq<UnitKind>, opts: ParseOptions)
    requires text == Render(p) && Plain(p) && !IsChronoShape(text)
    requires PhraseReading(p) == Success(ts)
    requires |cs| == |ks| && forall i | 0 <= i < |cs| :: IsLiteral(cs[i])
    requires PrependOne(ts) == PairTokens(cs, ks)
    ensures var total := Total(ReadTerms(cs, ks));
      Parse(text, opts) == Success(if total.mantissa == 0 && !opts.keepZero then None else Some(total))
  {
    CleanupPhrase(p);
    ParseTokens(text, cs, ks, opts);
  }

  lemma ParsePhraseOne(p: Phrase, text: string, ts: seq<Token>, c: string, t: Term, opts: ParseOptions)
    requires text == Render(p) && Plain(p) && !IsChronoShape(text)
    requires PhraseReading(p) == Success(ts) && PrependOne(ts) == [Number(c), UnitName(t.unit)]
    requires IsLiteral(c) && LiteralValue(c) == t.magnitude
    ensures var total := Total([t]);
      Parse(text, opts) == Success(if total.mantissa == 0 && !opts.keepZero then None else Some(total))
  {
    var cs, ks := [c], [t.unit];
    assert PairTokens(cs, ks) == [Number(c), UnitName(t.unit)] + PairTokens([], []);
    assert ReadTerms(cs, ks) == [t];
    ParsePhrase(p, text, ts, cs, ks, opts);
  }

  lemma ParsePhraseTwo(p: Phrase, text: string, ts: seq<Token>, c1: string, c2: string, t1: Term, t2: Term, opts: ParseOptions)
    requires text == Render(p) && Plain(p) && !IsChronoShape(text)
    requires PhraseReading(p) == Success(ts)
    requires PrependOne(ts) == [Number(c1), UnitName(t1.unit), Number(c2), UnitName(t2.unit)]
    requires IsLiteral(c1) && LiteralValue(c1) == t1.magnitude
    requires IsLiteral(c2) && LiteralValue(c2) == t2.magnitude
    ensures var total := Total([t1, t2]);
      Parse(text, opts) == Success(if total.mantissa == 0 && !opts.keepZero then None else Some(total))
  {
    var cs, ks := [c1, c2], [t1.unit, t2.unit];
    PairTokensTwo(c1, c2, t1.unit, t2.unit);
    ReadTermsTwo(c1, c2, t1, t2);
    ParsePhrase(p, text, ts, cs, ks, opts);
  }

  lemma PairTokensTwo(c1: string, c2: string, k1: UnitKind, k2: UnitKind)
    ensures PairTokens([c1, c2], [k1, k2]) == [Number(c1), UnitName(k1), Number(c2), UnitName(k2)]
  {
    assert [c1, c2][1..] == [c2] && [k1, k2][1..] == [k2];
    assert PairTokens([c2], [k2]) == [Number(c2), UnitName(k2)] + PairTokens([], []);
  }

  lemma ReadTermsTwo(c1: string, c2: string, t1: Term, t2: Term)
    requires IsLiteral(c1) && LiteralValue(c1) == t1.magnitude
    requires IsLiteral(c2) && LiteralValue(c2) == t2.magnitude
    ensures ReadTerms([c1, c2], [t1.unit, t2.unit]) == [t1, t2]
  {
  }

  lemma ParsePhraseThree(p: Phrase, text: string, ts: seq<Token>, c1: string, c2: string, c3: string,
                         t1: Term, t2: Term, t3: Term, opts: ParseOptions)
    requires text == Render(p) && Plain(p) && !IsChronoShape(text)
    requires PhraseReading(p) == Success(ts)
    requires PrependOne(ts) ==
      [Number(c1), UnitName(t1.unit), Number(c2), UnitName(t2.unit), Number(c3), UnitName(t3.unit)]
    requires IsLiteral(c1) && LiteralValue(c1) == t1.magnitude
    requires IsLiteral(c2) && LiteralValue(c2) == t2.magnitude
    requires IsLiteral(c3) && LiteralValue(c3) == t3.magnitude
    ensures var total := Total([t1, t2, t3]);
      Parse(text, opts) == Success(if total.mantissa == 0 && !opts.keepZero then None else Some(total))
  {
    var cs, ks := [c1, c2, c3], [t1.unit, t2.unit, t3.unit];
    PairTokensThree(c1, c2, c3, t1.unit, t2.unit, t3.unit);
    ReadTermsThree(c1, c2, c3, t1, t2, t3);
    ParsePhrase(p, text, ts, cs, ks, opts);
  }

  lemma ReadTermsThree(c1: string, c2: string, c3: string, t1: Term, t2: Term, t3: Term)
    requires IsLiteral(c1) && LiteralValue(c1) == t1.magnitude
    requires IsLiteral(c2) && LiteralValue(c2) == t2.magnitude
    requires IsLiteral(c3) && LiteralValue(c3) == t3.magnitude
    ensures ReadTerms([c1, c2, c3], [t1.unit, t2.unit, t3.unit]) == [t1, t2, t3]
  {
  }

  lemma PairTokensThree(c1: string, c2: string, c3: string, k1: UnitKind, k2: UnitKind, k3: UnitKind)
    ensures PairTokens([c1, c2, c3], [k1, k2, k3]) ==
      [Number(c1), UnitName(k1), Number(c2), UnitName(k2), Number(c3), UnitName(k3)]
  {
    assert [c1, c2, c3][1..] == [c2, c3] && [k1, k2, k3][1..] == [k2, k3];
    assert [c2, c3][1..] == [c3] && [k2, k3][1..] == [k3];
    assert PairTokens([c3], [k3]) == [Number(c3), UnitName(k3)] + PairTokens([], []);
  }

  /** A word as the phrase reader sees it: set apart, lower case, and read as `t`. */
  predicate Piece(w: string, t: Option<Token>)
  {
    IsLexeme(w) && NoUpper(w) && Reading(w) == Success(t)
  }

  /** A word's reading, from its comma-stripped and spelled-out forms. */
  lemma ReadingVia(w: string, s: string, v: string, r: Result<Option<Token>, ParseError>)
    requires StripCommas(w) == s && Spell(s) == v && Classify(v) == r
    ensures Reading(w) == r
  {
  }

  /** Two neighbouring words and the separator between them. */
  predicate Joint(a: string, sep: string, b: string)
  {
    Separates(sep, a, b) && NoUpper(sep) && !(IsTens(StripCommas(a)) && IsOnes(StripCommas(b)))
  }

  /** The tokens of a word in front of the tokens that follow it. */
  function Prefix(t: Option<Token>, ts: seq<Token>): seq<Token>
  {
    if t.Some? then [t.value] + ts else ts
  }

  /** A one-word phrase. */
  lemma Start(w: string, t: Option<Token>) returns (p: Phrase)
    requires Piece(w, t)
    ensures p.word == w && Plain(p) && Render(p) == w
    ensures PhraseReading(p) == Success(if t.Some? then [t.value] else [])
  {
    p := Last(w);
    PlainLast(w);
    if t.Some? {
      ReadingLast(w, t.value);
    }
  }

  /** A word put in front of a phrase. */
  lemma Extend(w: string, sep: string, r: Phrase, t: Option<Token>, ts: seq<Token>) returns (p: Phrase)
    requires Plain(r) && PhraseReading(r) == Success(ts)
    requires Piece(w, t) && Joint(w, sep, r.word)
    ensures p.word == w && Plain(p) && Render(p) == w + sep + Render(r)
    ensures PhraseReading(p) == Success(Prefix(t, ts))
  {
    p := Then(w, sep, r);
    PlainThen(w, sep, r);
  }

  lemma ConsOne(x: Token, a: Token)
    ensures [x] + [a] == [x, a]
  {
  }

  lemma ConsTwo(x: Token, a: Token, b: Token)
    ensures [x] + [a, b] == [x, a, b]
  {
  }

  lemma ConsThree(x: Token, a: Token, b: Token, c: Token)
    ensures [x] + [a, b, c] == [x, a, b, c]
  {
  }

  lemma ConsFour(x: Token, a: Token, b: Token, c: Token, d: Token)
    ensures [x] + [a, b, c, d] == [x, a, b, c, d]
  {
  }

  lemma ConsFive(x: Token, a: Token, b: Token, c: Token, d: Token, e: Token)
    ensures [x] + [a, b, c, d, e] == [x, a, b, c, d, e]
  {
  }
  lemma Total3Mins4Sec()
    ensures Total([Term(Whole(3), Minute), Term(Whole(4), Second)]) == Whole(184)
  {
    SecondsTwo(Term(Whole(3), Minute), Term(Whole(4), Second));
    TotalIs([Term(Whole(3), Minute), Term(Whole(4), Second)], 184, 0);
  }

  lemma Text3Mins4Sec()
    ensures "3 mins 4 sec" == "3" + " " + ("mins" + " " + ("4" + " " + "sec"))
  {
  }

  /** Counts and abbreviated units, one space apart. */
  lemma Example3Mins4Sec()
    ensures Parse("3 mins 4 sec", Defaults) == Success(Some(Whole(184)))
  {
    DigitsLiteral("3", 3);
    DigitsLiteral("4", 4);
    Text3Mins4Sec();
    ParseTwoPairs("3 mins 4 sec", "3", "mins", "4", "sec", " ", " ", Term(Whole(3), Minute), Term(Whole(4), Second), Defaults);
    Total3Mins4Sec();
  }

  lemma Total2Hrs20Min()
    ensures Total([Term(Whole(2), Hour), Term(Whole(20), Minute)]) == Whole(8400)
  {
    SecondsTwo(Term(Whole(2), Hour), Term(Whole(20), Minute));
    TotalIs([Term(Whole(2), Hour), Term(Whole(20), Minute)], 8400, 0);
  }

  lemma Text2Hrs20Min()
    ensures "2 hrs 20 min" == "2" + " " + ("hrs" + " " + ("20" + " " + "min"))
  {
  }

  /** Hours and minutes. */
  lemma Example2Hrs20Min()
    ensures Parse("2 hrs 20 min", Defaults) == Success(Some(Whole(8400)))
  {
    DigitsLiteral("2", 2);
    DigitsLiteral("20", 20);
    Text2Hrs20Min();
    ParseTwoPairs("2 hrs 20 min", "2", "hrs", "20", "min", " ", " ", Term(Whole(2), Hour), Term(Whole(20), Minute), Defaults);
    Total2Hrs20Min();
  }

  lemma Text2h20min()
    ensures "2h20min" == "2" + "" + ("h" + "" + ("20" + "" + "min"))
  {
  }

  /** Counts written against their units, without spaces. */
  lemma Example2h20min()
    ensures Parse("2h20min", Defaults) == Success(Some(Whole(8400)))
  {
    DigitsLiteral("2", 2);
    DigitsLiteral("20", 20);
    Text2h20min();
    ParseTwoPairs("2h20min", "2", "h", "20", "min", "", "", Term(Whole(2), Hour), Term(Whole(20), Minute), Defaults);
    Total2Hrs20Min();
  }

  lemma Total6Mos1Day()
    ensures Total([Term(Whole(6), Month), Term(Whole(1), Day)]) == Whole(3830400)
  {
    SecondsTwo(Term(Whole(6), Month), Term(Whole(1), Day));
    TotalIs([Term(Whole(6), Month), Term(Whole(1), Day)], 3830400, 0);
  }

  lemma Text6Mos1Day()
    ensures "6 mos 1 day" == "6" + " " + ("mos" + " " + ("1" + " " + "day"))
  {
  }

  /** Months of 22 working days. */
  lemma Example6Mos1Day()
    ensures Parse("6 mos 1 day", Defaults) == Success(Some(Whole(3830400)))
  {
    DigitsLiteral("1", 1);
    DigitsLiteral("6", 6);
    Text6Mos1Day();
    ParseTwoPairs("6 mos 1 day", "6", "mos", "1", "day", " ", " ", Term(Whole(6), Month), Term(Whole(1), Day), Defaults);
    Total6Mos1Day();
  }

  lemma Total1Year6Mos1Day()
    ensures Total([Term(Whole(1), Year), Term(Whole(6), Month), Term(Whole(1), Day)]) == Whole(11318400)
  {
    SecondsThree(Term(Whole(1), Year), Term(Whole(6), Month), Term(Whole(1), Day));
    TotalIs([Term(Whole(1), Year), Term(Whole(6), Month), Term(Whole(1), Day)], 11318400, 0);
  }

  lemma Text1Year6Mos1Day()
    ensures "1 year 6 mos 1 day" == "1" + " " + ("year" + " " + ("6" + " " + ("mos" + " " + ("1" + " " + "day"))))
  {
  }

  /** A year of 260 working days. */
  lemma Example1Year6Mos1Day()
    ensures Parse("1 year 6 mos 1 day", Defaults) == Success(Some(Whole(11318400)))
  {
    DigitsLiteral("1", 1);
    DigitsLiteral("6", 6);
    Text1Year6Mos1Day();
    ParseThreePairs("1 year 6 mos 1 day", "1", "year", "6", "mos", "1", "day", " ", " ", Term(Whole(1), Year), Term(Whole(6), Month), Term(Whole(1), Day), Defaults);
    Total1Year6Mos1Day();
  }

  lemma Total2Point5Hrs()
    ensures Total([Term(Decimal(25, 1), Hour)]) == Decimal(90000, 1)
  {
    OneTerm(Term(Decimal(25, 1), Hour));
    TotalIs([Term(Decimal(25, 1), Hour)], 90000, 1);
  }

  lemma Count2Point5()
    ensures IsLiteral("2.5") && LiteralValue("2.5") == Decimal(25, 1)
  {
    assert DigitsValue("5") == 5;
    PointDigits("2.5", "2", "5", 25);
  }

  lemma Text2Point5Hrs()
    ensures "2.5 hrs" == "2.5" + " " + "hrs"
  {
  }

  /** A count with a point gives a Float. */
  lemma Example2Point5Hrs()
    ensures Parse("2.5 hrs", Defaults) == Success(Some(Decimal(90000, 1)))
  {
    Count2Point5();
    Text2Point5Hrs();
    ParseOnePair("2.5 hrs", "2.5", "hrs", " ", Term(Decimal(25, 1), Hour), Defaults);
    Total2Point5Hrs();
  }

  lemma Total1Month()
    ensures Total([Term(Whole(1), Month)]) == Whole(633600)
  {
    OneTerm(Term(Whole(1), Month));
    TotalIs([Term(Whole(1), Month)], 633600, 0);
  }

  lemma Text1Month()
    ensures "1 month" == "1" + " " + "month"
  {
  }

  /** One month. */
  lemma Example1Month()
    ensures Parse("1 month", Defaults) == Success(Some(Whole(633600)))
  {
    DigitsLiteral("1", 1);
    Text1Month();
    ParseOnePair("1 month", "1", "month", " ", Term(Whole(1), Month), Defaults);
    Total1Month();
  }

  lemma Total2Months()
    ensures Total([Term(Whole(2), Month)]) == Whole(1267200)
  {
    OneTerm(Term(Whole(2), Month));
    TotalIs([Term(Whole(2), Month)], 1267200, 0);
  }

  lemma Text2Months()
    ensures "2 months" == "2" + " " + "months"
  {
  }

  /** Two months. */
  lemma Example2Months()
    ensures Parse("2 months", Defaults) == Success(Some(Whole(1267200)))
  {
    DigitsLiteral("2", 2);
    Text2Months();
    ParseOnePair("2 months", "2", "months", " ", Term(Whole(2), Month), Defaults);
    Total2Months();
  }

  lemma Total18Months()
    ensures Total([Term(Whole(18), Month)]) == Whole(11404800)
  {
    OneTerm(Term(Whole(18), Month));
    TotalIs([Term(Whole(18), Month)], 11404800, 0);
  }

  lemma Text18Months()
    ensures "18 months" == "18" + " " + "months"
  {
  }

  /** Eighteen months. */
  lemma Example18Months()
    ensures Parse("18 months", Defaults) == Success(Some(Whole(11404800)))
  {
    DigitsLiteral("18", 18);
    Text18Months();
    ParseOnePair("18 months", "18", "months", " ", Term(Whole(18), Month), Defaults);
    Total18Months();
  }

  lemma Total1Year6Months()
    ensures Total([Term(Whole(1), Year), Term(Whole(6), Month)]) == Whole(11289600)
  {
    SecondsTwo(Term(Whole(1), Year), Term(Whole(6), Month));
    TotalIs([Term(Whole(1), Year), Term(Whole(6), Month)], 11289600, 0);
  }

  lemma Text1Year6Months()
    ensures "1 year 6 months" == "1" + " " + ("year" + " " + ("6" + " " + "months"))
  {
  }

  /** A year and six months. */
  lemma Example1Year6Months()
    ensures Parse("1 year 6 months", Defaults) == Success(Some(Whole(11289600)))
  {
    DigitsLiteral("1", 1);
    DigitsLiteral("6", 6);
    Text1Year6Months();
    ParseTwoPairs("1 year 6 months", "1", "year", "6", "months", " ", " ", Term(Whole(1), Year), Term(Whole(6), Month), Defaults);
    Total1Year6Months();
  }

  lemma Total12Mins3Point141Seconds()
    ensures Total([Term(Whole(12), Minute), Term(Decimal(3141, 3), Second)]) == Decimal(723141, 3)
  {
    SecondsTwo(Term(Whole(12), Minute), Term(Decimal(3141, 3), Second));
    TotalIs([Term(Whole(12), Minute), Term(Decimal(3141, 3), Second)], 723141, 3);
  }

  lemma Count3Point141()
    ensures IsLiteral("3.141") && LiteralValue("3.141") == Decimal(3141, 3)
  {
    assert DigitsValue("1") == 1;
    assert "14"[..1] == "1";
    assert DigitsValue("14") == 14;
    assert "141"[..2] == "14";
    assert DigitsValue("141") == 141;
    PointDigits("3.141", "3", "141", 3141);
  }

  lemma Text12Mins3Point141Seconds()
    ensures "12 mins 3.141 seconds" == "12" + " " + ("mins" + " " + ("3.141" + " " + "seconds"))
  {
  }

  /** Seconds with a point make the whole duration a Float. */
  lemma Example12Mins3Point141Seconds()
    ensures Parse("12 mins 3.141 seconds", Defaults) == Success(Some(Decimal(723141, 3)))
  {
    DigitsLiteral("12", 12);
    Count3Point141();
    Text12Mins3Point141Seconds();
    ParseTwoPairs("12 mins 3.141 seconds", "12", "mins", "3.141", "seconds", " ", " ", Term(Whole(12), Minute), Term(Decimal(3141, 3), Second), Defaults);
    Total12Mins3Point141Seconds();
  }

  lemma Total12Mins3Seconds()
    ensures Total([Term(Whole(12), Minute), Term(Whole(3), Second)]) == Whole(723)
  {
    SecondsTwo(Term(Whole(12), Minute), Term(Whole(3), Second));
    TotalIs([Term(Whole(12), Minute), Term(Whole(3), Second)], 723, 0);
  }

  lemma Text12Mins3Seconds()
    ensures "12 mins 3 seconds" == "12" + " " + ("mins" + " " + ("3" + " " + "seconds"))
  {
  }

  /** Whole counts give an Integer. */
  lemma Example12Mins3Seconds()
    ensures Parse("12 mins 3 seconds", Defaults) == Success(Some(Whole(723)))
  {
    DigitsLiteral("12", 12);
    DigitsLiteral("3", 3);
    Text12Mins3Seconds();
    ParseTwoPairs("12 mins 3 seconds", "12", "mins", "3", "seconds", " ", " ", Term(Whole(12), Minute), Term(Whole(3), Second), Defaults);
    Total12Mins3Seconds();
  }

  lemma WordThree()
    ensures Piece("three", Some(Number("3")))
  {
    assert IsLexeme("three") && NoUpper("three");
    assert StripCommas("three") == "three";
    assert Spell("three") == "3";
    assert Classify("3") == Success(Some(Number("3")));
    ReadingVia("three", "three", "3", Success(Some(Number("3"))));
  }

  lemma WordMins()
    ensures Piece("mins", Some(UnitName(Minute)))
  {
    assert IsLexeme("mins") && NoUpper("mins");
    assert StripCommas("mins") == "mins";
    assert Spell("mins") == "mins";
    assert Classify("mins") == Success(Some(UnitName(Minute)));
    ReadingVia("mins", "mins", "mins", Success(Some(UnitName(Minute))));
  }

  lemma WordFour()
    ensures Piece("four", Some(Number("4")))
  {
    assert IsLexeme("four") && NoUpper("four");
    assert StripCommas("four") == "four";
    assert Spell("four") == "4";
    assert Classify("4") == Success(Some(Number("4")));
    ReadingVia("four", "four", "4", Success(Some(Number("4"))));
  }

  lemma WordSec()
    ensures Piece("sec", Some(UnitName(Second)))
  {
    assert IsLexeme("sec") && NoUpper("sec");
    assert StripCommas("sec") == "sec";
    assert Spell("sec") == "sec";
    assert Classify("sec") == Success(Some(UnitName(Second)));
    ReadingVia("sec", "sec", "sec", Success(Some(UnitName(Second))));
  }

  lemma PhraseSec() returns (p: Phrase)
    ensures p.word == "sec" && Plain(p) && Render(p) == "sec"
    ensures PhraseReading(p) == Success([UnitName(Second)])
  {
    WordSec();
    p := Start("sec", Some(UnitName(Second)));
  }

  lemma JointFourSec()
    ensures Joint("four", " ", "sec")
  {
  }

  lemma PhraseFourSec() returns (p: Phrase)
    ensures p.word == "four" && Plain(p) && Render(p) == "four" + " " + "sec"
    ensures PhraseReading(p) == Success([Number("4"), UnitName(Second)])
  {
    var r := PhraseSec();
    WordFour();
    JointFourSec();
    p := Extend("four", " ", r, Some(Number("4")), [UnitName(Second)]);
    ConsOne(Number("4"), UnitName(Second));
  }

  lemma JointMinsFour()
    ensures Joint("mins", " ", "four")
  {
  }

  lemma PhraseMinsFourSec() returns (p: Phrase)
    ensures p.word == "mins" && Plain(p) && Render(p) == "mins" + " " + ("four" + " " + "sec")
    ensures PhraseReading(p) == Success([UnitName(Minute), Number("4"), UnitName(Second)])
  {
    var r := PhraseFourSec();
    WordMins();
    JointMinsFour();
    p := Extend("mins", " ", r, Some(UnitName(Minute)), [Number("4"), UnitName(Second)]);
    ConsTwo(UnitName(Minute), Number("4"), UnitName(Second));
  }

  lemma JointThreeMins()
    ensures Joint("three", " ", "mins")
  {
  }

  lemma PhraseThreeMinsFourSec() returns (p: Phrase)
    ensures p.word == "three" && Plain(p) && Render(p) == "three" + " " + ("mins" + " " + ("four" + " " + "sec"))
    ensures PhraseReading(p) == Success([Number("3"), UnitName(Minute), Number("4"), UnitName(Second)])
  {
    var r := PhraseMinsFourSec();
    WordThree();
    JointThreeMins();
    p := Extend("three", " ", r, Some(Number("3")), [UnitName(Minute), Number("4"), UnitName(Second)]);
    ConsThree(Number("3"), UnitName(Minute), Number("4"), UnitName(Second));
  }

  lemma TextThreeMinsFourSec()
    ensures "three mins four sec" == "three" + " " + ("mins" + " " + ("four" + " " + "sec"))
  {
  }

  lemma NotClockThreeMinsFourSec()
    ensures !IsChronoShape("three mins four sec")
  {
    LetterNotChrono("three mins four sec", 0);
  }

  /** Number words are read as digits. */
  lemma ExampleThreeMinsFourSec()
    ensures Parse("three mins four sec", Defaults) == Success(Some(Whole(184)))
  {
    var p := PhraseThreeMinsFourSec();
    TextThreeMinsFourSec();
    NotClockThreeMinsFourSec();
    DigitsLiteral("3", 3);
    DigitsLiteral("4", 4);
    ParsePhraseTwo(p, "three mins four sec", [Number("3"), UnitName(Minute), Number("4"), UnitName(Second)], "3", "4", Term(Whole(3), Minute), Term(Whole(4), Second), Defaults);
    Total3Mins4Sec();
  }

  lemma WordTwo()
    ensures Piece("two", Some(Number("2")))
  {
    assert IsLexeme("two") && NoUpper("two");
    assert StripCommas("two") == "two";
    assert Spell("two") == "2";
    assert Classify("2") == Success(Some(Number("2")));
    ReadingVia("two", "two", "2", Success(Some(Number("2"))));
  }

  lemma WordHours()
    ensures Piece("hours", Some(UnitName(Hour)))
  {
    assert IsLexeme("hours") && NoUpper("hours");
    assert StripCommas("hours") == "hours";
    assert Spell("hours") == "hours";
    assert Classify("hours") == Success(Some(UnitName(Hour)));
    ReadingVia("hours", "hours", "hours", Success(Some(UnitName(Hour))));
  }

  lemma WordAnd()
    ensures Piece("and", None)
  {
    assert IsLexeme("and") && NoUpper("and");
    assert StripCommas("and") == "and";
    assert Spell("and") == "and";
    assert Classify("and") == Success(None);
    ReadingVia("and", "and", "and", Success(None));
  }

  lemma WordTwenty()
    ensures Piece("twenty", Some(Number("20")))
  {
    assert IsLexeme("twenty") && NoUpper("twenty");
    assert StripCommas("twenty") == "twenty";
    assert Spell("twenty") == "20";
    assert Classify("20") == Success(Some(Number("20")));
    ReadingVia("twenty", "twenty", "20", Success(Some(Number("20"))));
  }

  lemma WordMinutes()
    ensures Piece("minutes", Some(UnitName(Minute)))
  {
    assert IsLexeme("minutes") && NoUpper("minutes");
    assert StripCommas("minutes") == "minutes";
    assert Spell("minutes") == "minutes";
    assert Classify("minutes") == Success(Some(UnitName(Minute)));
    ReadingVia("minutes", "minutes", "minutes", Success(Some(UnitName(Minute))));
  }

  lemma PhraseMinutes() returns (p: Phrase)
    ensures p.word == "minutes" && Plain(p) && Render(p) == "minutes"
    ensures PhraseReading(p) == Success([UnitName(Minute)])
  {
    WordMinutes();
    p := Start("minutes", Some(UnitName(Minute)));
  }

  lemma JointTwentyMinutes()
    ensures Joint("twenty", " ", "minutes")
  {
  }

  lemma PhraseTwentyMinutes() returns (p: Phrase)
    ensures p.word == "twenty" && Plain(p) && Render(p) == "twenty" + " " + "minutes"
    ensures PhraseReading(p) == Success([Number("20"), UnitName(Minute)])
  {
    var r := PhraseMinutes();
    WordTwenty();
    JointTwentyMinutes();
    p := Extend("twenty", " ", r, Some(Number("20")), [UnitName(Minute)]);
    ConsOne(Number("20"), UnitName(Minute));
  }

  lemma JointAndTwenty()
    ensures Joint("and", " ", "twenty")
  {
  }

  lemma PhraseAndTwentyMinutes() returns (p: Phrase)
    ensures p.word == "and" && Plain(p) && Render(p) == "and" + " " + ("twenty" + " " + "minutes")
    ensures PhraseReading(p) == Success([Number("20"), UnitName(Minute)])
  {
    var r := PhraseTwentyMinutes();
    WordAnd();
    JointAndTwenty();
    p := Extend("and", " ", r, None, [Number("20"), UnitName(Minute)]);
  }

  lemma JointHoursAnd()
    ensures Joint("hours", " ", "and")
  {
  }

  lemma PhraseHoursAndTwentyMinutes() returns (p: Phrase)
    ensures p.word == "hours" && Plain(p) && Render(p) == "hours" + " " + ("and" + " " + ("twenty" + " " + "minutes"))
    ensures PhraseReading(p) == Success([UnitName(Hour), Number("20"), UnitName(Minute)])
  {
    var r := PhraseAndTwentyMinutes();
    WordHours();
    JointHoursAnd();
    p := Extend("hours", " ", r, Some(UnitName(Hour)), [Number("20"), UnitName(Minute)]);
    ConsTwo(UnitName(Hour), Number("20"), UnitName(Minute));
  }

  lemma JointTwoHours()
    ensures Joint("two", " ", "hours")
  {
  }

  lemma PhraseTwoHoursAndTwentyMinutes() returns (p: Phrase)
    ensures p.word == "two" && Plain(p) && Render(p) == "two" + " " + ("hours" + " " + ("and" + " " + ("twenty" + " " + "minutes")))
    ensures PhraseReading(p) == Success([Number("2"), UnitName(Hour), Number("20"), UnitName(Minute)])
  {
    var r := PhraseHoursAndTwentyMinutes();
    WordTwo();
    JointTwoHours();
    p := Extend("two", " ", r, Some(Number("2")), [UnitName(Hour), Number("20"), UnitName(Minute)]);
    ConsThree(Number("2"), UnitName(Hour), Number("20"), UnitName(Minute));
  }

  lemma TextTwoHoursAndTwentyMinutes()
    ensures "two hours and twenty minutes" == "two" + " " + ("hours" + " " + ("and" + " " + ("twenty" + " " + "minutes")))
  {
  }

  lemma NotClockTwoHoursAndTwentyMinutes()
    ensures !IsChronoShape("two hours and twenty minutes")
  {
    LetterNotChrono("two hours and twenty minutes", 0);
  }

  /** "and" is dropped. */
  lemma ExampleTwoHoursAndTwentyMinutes()
    ensures Parse("two hours and twenty minutes", Defaults) == Success(Some(Whole(8400)))
  {
    var p := PhraseTwoHoursAndTwentyMinutes();
    TextTwoHoursAndTwentyMinutes();
    NotClockTwoHoursAndTwentyMinutes();
    DigitsLiteral("2", 2);
    DigitsLiteral("20", 20);
    ParsePhraseTwo(p, "two hours and twenty minutes", [Number("2"), UnitName(Hour), Number("20"), UnitName(Minute)], "2", "20", Term(Whole(2), Hour), Term(Whole(20), Minute), Defaults);
    Total2Hrs20Min();
  }

  lemma TotalFourHoursAndFortyMinutes()
    ensures Total([Term(Whole(4), Hour), Term(Whole(40), Minute)]) == Whole(16800)
  {
    SecondsTwo(Term(Whole(4), Hour), Term(Whole(40), Minute));
    TotalIs([Term(Whole(4), Hour), Term(Whole(40), Minute)], 16800, 0);
  }

  lemma WordForty()
    ensures Piece("forty", Some(Number("40")))
  {
    assert IsLexeme("forty") && NoUpper("forty");
    assert StripCommas("forty") == "forty";
    assert Spell("forty") == "40";
    assert Classify("40") == Success(Some(Number("40")));
    ReadingVia("forty", "forty", "40", Success(Some(Number("40"))));
  }

  lemma JointFortyMinutes()
    ensures Joint("forty", " ", "minutes")
  {
  }

  lemma PhraseFortyMinutes() returns (p: Phrase)
    ensures p.word == "forty" && Plain(p) && Render(p) == "forty" + " " + "minutes"
    ensures PhraseReading(p) == Success([Number("40"), UnitName(Minute)])
  {
    var r := PhraseMinutes();
    WordForty();
    JointFortyMinutes();
    p := Extend("forty", " ", r, Some(Number("40")), [UnitName(Minute)]);
    ConsOne(Number("40"), UnitName(Minute));
  }

  lemma JointAndForty()
    ensures Joint("and", " ", "forty")
  {
  }

  lemma PhraseAndFortyMinutes() returns (p: Phrase)
    ensures p.word == "and" && Plain(p) && Render(p) == "and" + " " + ("forty" + " " + "minutes")
    ensures PhraseReading(p) == Success([Number("40"), UnitName(Minute)])
  {
    var r := PhraseFortyMinutes();
    WordAnd();
    JointAndForty();
    p := Extend("and", " ", r, None, [Number("40"), UnitName(Minute)]);
  }

  lemma PhraseHoursAndFortyMinutes() returns (p: Phrase)
    ensures p.word == "hours" && Plain(p) && Render(p) == "hours" + " " + ("and" + " " + ("forty" + " " + "minutes"))
    ensures PhraseReading(p) == Success([UnitName(Hour), Number("40"), UnitName(Minute)])
  {
    var r := PhraseAndFortyMinutes();
    WordHours();
    JointHoursAnd();
    p := Extend("hours", " ", r, Some(UnitName(Hour)), [Number("40"), UnitName(Minute)]);
    ConsTwo(UnitName(Hour), Number("40"), UnitName(Minute));
  }

  lemma JointFourHours()
    ensures Joint("four", " ", "hours")
  {
  }

  lemma PhraseFourHoursAndFortyMinutes() returns (p: Phrase)
    ensures p.word == "four" && Plain(p) && Render(p) == "four" + " " + ("hours" + " " + ("and" + " " + ("forty" + " " + "minutes")))
    ensures PhraseReading(p) == Success([Number("4"), UnitName(Hour), Number("40"), UnitName(Minute)])
  {
    var r := PhraseHoursAndFortyMinutes();
    WordFour();
    JointFourHours();
    p := Extend("four", " ", r, Some(Number("4")), [UnitName(Hour), Number("40"), UnitName(Minute)]);
    ConsThree(Number("4"), UnitName(Hour), Number("40"), UnitName(Minute));
  }

  lemma TextFourHoursAndFortyMinutes()
    ensures "four hours and forty minutes" == "four" + " " + ("hours" + " " + ("and" + " " + ("forty" + " " + "minutes")))
  {
  }

  lemma NotClockFourHoursAndFortyMinutes()
    ensures !IsChronoShape("four hours and forty minutes")
  {
    LetterNotChrono("four hours and forty minutes", 0);
  }

  /** Forty. */
  lemma ExampleFourHoursAndFortyMinutes()
    ensures Parse("four hours and forty minutes", Defaults) == Success(Some(Whole(16800)))
  {
    var p := PhraseFourHoursAndFortyMinutes();
    TextFourHoursAndFortyMinutes();
    NotClockFourHoursAndFortyMinutes();
    DigitsLiteral("4", 4);
    DigitsLiteral("40", 40);
    ParsePhraseTwo(p, "four hours and forty minutes", [Number("4"), UnitName(Hour), Number("40"), UnitName(Minute)], "4", "40", Term(Whole(4), Hour), Term(Whole(40), Minute), Defaults);
    TotalFourHoursAndFortyMinutes();
  }

  lemma WordHoursComma()
    ensures Piece("hours,", Some(UnitName(Hour)))
  {
    assert IsLexeme("hours,") && NoUpper("hours,");
    assert StripCommas("hours,") == "hours";
    assert Spell("hours") == "hours";
    assert Classify("hours") == Success(Some(UnitName(Hour)));
    ReadingVia("hours,", "hours", "hours", Success(Some(UnitName(Hour))));
  }

  lemma WordFourty()
    ensures Piece("fourty", Some(Number("40")))
  {
    assert IsLexeme("fourty") && NoUpper("fourty");
    assert StripCommas("fourty") == "fourty";
    assert Spell("fourty") == "40";
    assert Classify("40") == Success(Some(Number("40")));
    ReadingVia("fourty", "fourty", "40", Success(Some(Number("40"))));
  }

  lemma JointFourtyMinutes()
    ensures Joint("fourty", " ", "minutes")
  {
  }

  lemma PhraseFourtyMinutes() returns (p: Phrase)
    ensures p.word == "fourty" && Plain(p) && Render(p) == "fourty" + " " + "minutes"
    ensures PhraseReading(p) == Success([Number("40"), UnitName(Minute)])
  {
    var r := PhraseMinutes();
    WordFourty();
    JointFourtyMinutes();
    p := Extend("fourty", " ", r, Some(Number("40")), [UnitName(Minute)]);
    ConsOne(Number("40"), UnitName(Minute));
  }

  lemma JointAndFourty()
    ensures Joint("and", " ", "fourty")
  {
  }

  lemma PhraseAndFourtyMinutes() returns (p: Phrase)
    ensures p.word == "and" && Plain(p) && Render(p) == "and" + " " + ("fourty" + " " + "minutes")
    ensures PhraseReading(p) == Success([Number("40"), UnitName(Minute)])
  {
    var r := PhraseFourtyMinutes();
    WordAnd();
    JointAndFourty();
    p := Extend("and", " ", r, None, [Number("40"), UnitName(Minute)]);
  }

  lemma JointHoursCommaAnd()
    ensures Joint("hours,", " ", "and")
  {
  }

  lemma PhraseHoursCommaAndFourtyMinutes() returns (p: Phrase)
    ensures p.word == "hours," && Plain(p) && Render(p) == "hours," + " " + ("and" + " " + ("fourty" + " " + "minutes"))
    ensures PhraseReading(p) == Success([UnitName(Hour), Number("40"), UnitName(Minute)])
  {
    var r := PhraseAndFourtyMinutes();
    WordHoursComma();
    JointHoursCommaAnd();
    p := Extend("hours,", " ", r, Some(UnitName(Hour)), [Number("40"), UnitName(Minute)]);
    ConsTwo(UnitName(Hour), Number("40"), UnitName(Minute));
  }

  lemma JointFourHoursComma()
    ensures Joint("four", " ", "hours,")
  {
  }

  lemma PhraseFourHoursCommaAndFourtyMinutes() returns (p: Phrase)
    ensures p.word == "four" && Plain(p) && Render(p) == "four" + " " + ("hours," + " " + ("and" + " " + ("fourty" + " " + "minutes")))
    ensures PhraseReading(p) == Success([Number("4"), UnitName(Hour), Number("40"), UnitName(Minute)])
  {
    var r := PhraseHoursCommaAndFourtyMinutes();
    WordFour();
    JointFourHoursComma();
    p := Extend("four", " ", r, Some(Number("4")), [UnitName(Hour), Number("40"), UnitName(Minute)]);
    ConsThree(Number("4"), UnitName(Hour), Number("40"), UnitName(Minute));
  }

  lemma TextFourHoursAndFourtyMinutes()
    ensures "four hours, and fourty minutes" == "four" + " " + ("hours," + " " + ("and" + " " + ("fourty" + " " + "minutes")))
  {
  }

  lemma NotClockFourHoursAndFourtyMinutes()
    ensures !IsChronoShape("four hours, and fourty minutes")
  {
    LetterNotChrono("four hours, and fourty minutes", 0);
  }

  /** A trailing comma is dropped, and "fourty" is forty. */
  lemma ExampleFourHoursAndFourtyMinutes()
    ensures Parse("four hours, and fourty minutes", Defaults) == Success(Some(Whole(16800)))
  {
    var p := PhraseFourHoursCommaAndFourtyMinutes();
    TextFourHoursAndFourtyMinutes();
    NotClockFourHoursAndFourtyMinutes();
    DigitsLiteral("4", 4);
    DigitsLiteral("40", 40);
    ParsePhraseTwo(p, "four hours, and fourty minutes", [Number("4"), UnitName(Hour), Number("40"), UnitName(Minute)], "4", "40", Term(Whole(4), Hour), Term(Whole(40), Minute), Defaults);
    TotalFourHoursAndFortyMinutes();
  }

  lemma Total3WeeksAnd2Days()
    ensures Total([Term(Whole(3), Week), Term(Whole(2), Day)]) == Whole(489600)
  {
    SecondsTwo(Term(Whole(3), Week), Term(Whole(2), Day));
    TotalIs([Term(Whole(3), Week), Term(Whole(2), Day)], 489600, 0);
  }

  lemma Word3()
    ensures Piece("3", Some(Number("3")))
  {
    assert IsLexeme("3") && NoUpper("3");
    assert StripCommas("3") == "3";
    assert Spell("3") == "3";
    assert Classify("3") == Success(Some(Number("3")));
    ReadingVia("3", "3", "3", Success(Some(Number("3"))));
  }

  lemma WordWeeks()
    ensures Piece("weeks", Some(UnitName(Week)))
  {
    assert IsLexeme("weeks") && NoUpper("weeks");
    assert StripCommas("weeks") == "weeks";
    assert Spell("weeks") == "weeks";
    assert Classify("weeks") == Success(Some(UnitName(Week)));
    ReadingVia("weeks", "weeks", "weeks", Success(Some(UnitName(Week))));
  }

  lemma WordAndComma()
    ensures Piece("and,", None)
  {
    assert IsLexeme("and,") && NoUpper("and,");
    assert StripCommas("and,") == "and";
    assert Spell("and") == "and";
    assert Classify("and") == Success(None);
    ReadingVia("and,", "and", "and", Success(None));
  }

  lemma Word2()
    ensures Piece("2", Some(Number("2")))
  {
    assert IsLexeme("2") && NoUpper("2");
    assert StripCommas("2") == "2";
    assert Spell("2") == "2";
    assert Classify("2") == Success(Some(Number("2")));
    ReadingVia("2", "2", "2", Success(Some(Number("2"))));
  }

  lemma WordDays()
    ensures Piece("days", Some(UnitName(Day)))
  {
    assert IsLexeme("days") && NoUpper("days");
    assert StripCommas("days") == "days";
    assert Spell("days") == "days";
    assert Classify("days") == Success(Some(UnitName(Day)));
    ReadingVia("days", "days", "days", Success(Some(UnitName(Day))));
  }

  lemma PhraseDays() returns (p: Phrase)
    ensures p.word == "days" && Plain(p) && Render(p) == "days"
    ensures PhraseReading(p) == Success([UnitName(Day)])
  {
    WordDays();
    p := Start("days", Some(UnitName(Day)));
  }

  lemma Joint2Days()
    ensures Joint("2", " ", "days")
  {
  }

  lemma Phrase2Days() returns (p: Phrase)
    ensures p.word == "2" && Plain(p) && Render(p) == "2" + " " + "days"
    ensures PhraseReading(p) == Success([Number("2"), UnitName(Day)])
  {
    var r := PhraseDays();
    Word2();
    Joint2Days();
    p := Extend("2", " ", r, Some(Number("2")), [UnitName(Day)]);
    ConsOne(Number("2"), UnitName(Day));
  }

  lemma JointAndComma2()
    ensures Joint("and,", " ", "2")
  {
  }

  lemma PhraseAndComma2Days() returns (p: Phrase)
    ensures p.word == "and," && Plain(p) && Render(p) == "and," + " " + ("2" + " " + "days")
    ensures PhraseReading(p) == Success([Number("2"), UnitName(Day)])
  {
    var r := Phrase2Days();
    WordAndComma();
    JointAndComma2();
    p := Extend("and,", " ", r, None, [Number("2"), UnitName(Day)]);
  }

  lemma JointWeeksAndComma()
    ensures Joint("weeks", " ", "and,")
  {
  }

  lemma PhraseWeeksAndComma2Days() returns (p: Phrase)
    ensures p.word == "weeks" && Plain(p) && Render(p) == "weeks" + " " + ("and," + " " + ("2" + " " + "days"))
    ensures PhraseReading(p) == Success([UnitName(Week), Number("2"), UnitName(Day)])
  {
    var r := PhraseAndComma2Days();
    WordWeeks();
    JointWeeksAndComma();
    p := Extend("weeks", " ", r, Some(UnitName(Week)), [Number("2"), UnitName(Day)]);
    ConsTwo(UnitName(Week), Number("2"), UnitName(Day));
  }

  lemma Joint3Weeks()
    ensures Joint("3", " ", "weeks")
  {
  }

  lemma Phrase3WeeksAndComma2Days() returns (p: Phrase)
    ensures p.word == "3" && Plain(p) && Render(p) == "3" + " " + ("weeks" + " " + ("and," + " " + ("2" + " " + "days")))
    ensures PhraseReading(p) == Success([Number("3"), UnitName(Week), Number("2"), UnitName(Day)])
  {
    var r := PhraseWeeksAndComma2Days();
    Word3();
    Joint3Weeks();
    p := Extend("3", " ", r, Some(Number("3")), [UnitName(Week), Number("2"), UnitName(Day)]);
    ConsThree(Number("3"), UnitName(Week), Number("2"), UnitName(Day));
  }

  lemma Text3WeeksAnd2Days()
    ensures "3 weeks and, 2 days" == "3" + " " + ("weeks" + " " + ("and," + " " + ("2" + " " + "days")))
  {
  }

  lemma NotClock3WeeksAnd2Days()
    ensures !IsChronoShape("3 weeks and, 2 days")
  {
    LetterNotChrono("3 weeks and, 2 days", 2);
  }

  /** Weeks of five working days; "and," is dropped. */
  lemma Example3WeeksAnd2Days()
    ensures Parse("3 weeks and, 2 days", Defaults) == Success(Some(Whole(489600)))
  {
    var p := Phrase3WeeksAndComma2Days();
    Text3WeeksAnd2Days();
    NotClock3WeeksAnd2Days();
    DigitsLiteral("2", 2);
    DigitsLiteral("3", 3);
    ParsePhraseTwo(p, "3 weeks and, 2 days", [Number("3"), UnitName(Week), Number("2"), UnitName(Day)], "3", "2", Term(Whole(3), Week), Term(Whole(2), Day), Defaults);
    Total3WeeksAnd2Days();
  }

  lemma WordWeeksComma()
    ensures Piece("weeks,", Some(UnitName(Week)))
  {
    assert IsLexeme("weeks,") && NoUpper("weeks,");
    assert StripCommas("weeks,") == "weeks";
    assert Spell("weeks") == "weeks";
    assert Classify("weeks") == Success(Some(UnitName(Week)));
    ReadingVia("weeks,", "weeks", "weeks", Success(Some(UnitName(Week))));
  }

  lemma WordPlus()
    ensures Piece("plus", None)
  {
    assert IsLexeme("plus") && NoUpper("plus");
    assert StripCommas("plus") == "plus";
    assert Spell("plus") == "plus";
    assert Classify("plus") == Success(None);
    ReadingVia("plus", "plus", "plus", Success(None));
  }

  lemma JointPlus2()
    ensures Joint("plus", " ", "2")
  {
  }

  lemma PhrasePlus2Days() returns (p: Phrase)
    ensures p.word == "plus" && Plain(p) && Render(p) == "plus" + " " + ("2" + " " + "days")
    ensures PhraseReading(p) == Success([Number("2"), UnitName(Day)])
  {
    var r := Phrase2Days();
    WordPlus();
    JointPlus2();
    p := Extend("plus", " ", r, None, [Number("2"), UnitName(Day)]);
  }

  lemma JointWeeksCommaPlus()
    ensures Joint("weeks,", " ", "plus")
  {
  }

  lemma PhraseWeeksCommaPlus2Days() returns (p: Phrase)
    ensures p.word == "weeks," && Plain(p) && Render(p) == "weeks," + " " + ("plus" + " " + ("2" + " " + "days"))
    ensures PhraseReading(p) == Success([UnitName(Week), Number("2"), UnitName(Day)])
  {
    var r := PhrasePlus2Days();
    WordWeeksComma();
    JointWeeksCommaPlus();
    p := Extend("weeks,", " ", r, Some(UnitName(Week)), [Number("2"), UnitName(Day)]);
    ConsTwo(UnitName(Week), Number("2"), UnitName(Day));
  }

  lemma Joint3WeeksComma()
    ensures Joint("3", " ", "weeks,")
  {
  }

  lemma Phrase3WeeksCommaPlus2Days() returns (p: Phrase)
    ensures p.word == "3" && Plain(p) && Render(p) == "3" + " " + ("weeks," + " " + ("plus" + " " + ("2" + " " + "days")))
    ensures PhraseReading(p) == Success([Number("3"), UnitName(Week), Number("2"), UnitName(Day)])
  {
    var r := PhraseWeeksCommaPlus2Days();
    Word3();
    Joint3WeeksComma();
    p := Extend("3", " ", r, Some(Number("3")), [UnitName(Week), Number("2"), UnitName(Day)]);
    ConsThree(Number("3"), UnitName(Week), Number("2"), UnitName(Day));
  }

  lemma Text3WeeksPlus2Days()
    ensures "3 weeks, plus 2 days" == "3" + " " + ("weeks," + " " + ("plus" + " " + ("2" + " " + "days")))
  {
  }

  lemma NotClock3WeeksPlus2Days()
    ensures !IsChronoShape("3 weeks, plus 2 days")
  {
    LetterNotChrono("3 weeks, plus 2 days", 2);
  }

  /** "plus" is dropped. */
  lemma Example3WeeksPlus2Days()
    ensures Parse("3 weeks, plus 2 days", Defaults) == Success(Some(Whole(489600)))
  {
    var p := Phrase3WeeksCommaPlus2Days();
    Text3WeeksPlus2Days();
    NotClock3WeeksPlus2Days();
    DigitsLiteral("2", 2);
    DigitsLiteral("3", 3);
    ParsePhraseTwo(p, "3 weeks, plus 2 days", [Number("3"), UnitName(Week), Number("2"), UnitName(Day)], "3", "2", Term(Whole(3), Week), Term(Whole(2), Day), Defaults);
    Total3WeeksAnd2Days();
  }

  lemma WordWith()
    ensures Piece("with", None)
  {
    assert IsLexeme("with") && NoUpper("with");
    assert StripCommas("with") == "with";
    assert Spell("with") == "with";
    assert Classify("with") == Success(None);
    ReadingVia("with", "with", "with", Success(None));
  }

  lemma JointWith2()
    ensures Joint("with", " ", "2")
  {
  }

  lemma PhraseWith2Days() returns (p: Phrase)
    ensures p.word == "with" && Plain(p) && Render(p) == "with" + " " + ("2" + " " + "days")
    ensures PhraseReading(p) == Success([Number("2"), UnitName(Day)])
  {
    var r := Phrase2Days();
    WordWith();
    JointWith2();
    p := Extend("with", " ", r, None, [Number("2"), UnitName(Day)]);
  }

  lemma JointWeeksWith()
    ensures Joint("weeks", " ", "with")
  {
  }

  lemma PhraseWeeksWith2Days() returns (p: Phrase)
    ensures p.word == "weeks" && Plain(p) && Render(p) == "weeks" + " " + ("with" + " " + ("2" + " " + "days"))
    ensures PhraseReading(p) == Success([UnitName(Week), Number("2"), UnitName(Day)])
  {
    var r := PhraseWith2Days();
    WordWeeks();
    JointWeeksWith();
    p := Extend("weeks", " ", r, Some(UnitName(Week)), [Number("2"), UnitName(Day)]);
    ConsTwo(UnitName(Week), Number("2"), UnitName(Day));
  }

  lemma Phrase3WeeksWith2Days() returns (p: Phrase)
    ensures p.word == "3" && Plain(p) && Render(p) == "3" + " " + ("weeks" + " " + ("with" + " " + ("2" + " " + "days")))
    ensures PhraseReading(p) == Success([Number("3"), UnitName(Week), Number("2"), UnitName(Day)])
  {
    var r := PhraseWeeksWith2Days();
    Word3();
    Joint3Weeks();
    p := Extend("3", " ", r, Some(Number("3")), [UnitName(Week), Number("2"), UnitName(Day)]);
    ConsThree(Number("3"), UnitName(Week), Number("2"), UnitName(Day));
  }

  lemma Text3WeeksWith2Days()
    ensures "3 weeks with 2 days" == "3" + " " + ("weeks" + " " + ("with" + " " + ("2" + " " + "days")))
  {
  }

  lemma NotClock3WeeksWith2Days()
    ensures !IsChronoShape("3 weeks with 2 days")
  {
    LetterNotChrono("3 weeks with 2 days", 2);
  }

  /** "with" is dropped. */
  lemma Example3WeeksWith2Days()
    ensures Parse("3 weeks with 2 days", Defaults) == Success(Some(Whole(489600)))
  {
    var p := Phrase3WeeksWith2Days();
    Text3WeeksWith2Days();
    NotClock3WeeksWith2Days();
    DigitsLiteral("2", 2);
    DigitsLiteral("3", 3);
    ParsePhraseTwo(p, "3 weeks with 2 days", [Number("3"), UnitName(Week), Number("2"), UnitName(Day)], "3", "2", Term(Whole(3), Week), Term(Whole(2), Day), Defaults);
    Total3WeeksAnd2Days();
  }

  lemma Total47Yrs6MosAnd4Point5d()
    ensures Total([Term(Whole(47), Year), Term(Whole(6), Month), Term(Decimal(45, 1), Day)]) == Decimal(3558672000, 1)
  {
    SecondsThree(Term(Whole(47), Year), Term(Whole(6), Month), Term(Decimal(45, 1), Day));
    TotalIs([Term(Whole(47), Year), Term(Whole(6), Month), Term(Decimal(45, 1), Day)], 3558672000, 1);
  }

  lemma Word47()
    ensures Piece("47", Some(Number("47")))
  {
    assert IsLexeme("47") && NoUpper("47");
    assert StripCommas("47") == "47";
    assert Spell("47") == "47";
    assert Classify("47") == Success(Some(Number("47")));
    ReadingVia("47", "47", "47", Success(Some(Number("47"))));
  }

  lemma WordYrs()
    ensures Piece("yrs", Some(UnitName(Year)))
  {
    assert IsLexeme("yrs") && NoUpper("yrs");
    assert StripCommas("yrs") == "yrs";
    assert Spell("yrs") == "yrs";
    assert Classify("yrs") == Success(Some(UnitName(Year)));
    ReadingVia("yrs", "yrs", "yrs", Success(Some(UnitName(Year))));
  }

  lemma Word6()
    ensures Piece("6", Some(Number("6")))
  {
    assert IsLexeme("6") && NoUpper("6");
    assert StripCommas("6") == "6";
    assert Spell("6") == "6";
    assert Classify("6") == Success(Some(Number("6")));
    ReadingVia("6", "6", "6", Success(Some(Number("6"))));
  }

  lemma WordMos()
    ensures Piece("mos", Some(UnitName(Month)))
  {
    assert IsLexeme("mos") && NoUpper("mos");
    assert StripCommas("mos") == "mos";
    assert Spell("mos") == "mos";
    assert Classify("mos") == Success(Some(UnitName(Month)));
    ReadingVia("mos", "mos", "mos", Success(Some(UnitName(Month))));
  }

  lemma Word4Point5()
    ensures Piece("4.5", Some(Number("4.5")))
  {
    assert IsLexeme("4.5") && NoUpper("4.5");
    assert StripCommas("4.5") == "4.5";
    assert Spell("4.5") == "4.5";
    assert Classify("4.5") == Success(Some(Number("4.5")));
    ReadingVia("4.5", "4.5", "4.5", Success(Some(Number("4.5"))));
  }

  lemma WordD()
    ensures Piece("d", Some(UnitName(Day)))
  {
    assert IsLexeme("d") && NoUpper("d");
    assert StripCommas("d") == "d";
    assert Spell("d") == "d";
    assert Classify("d") == Success(Some(UnitName(Day)));
    ReadingVia("d", "d", "d", Success(Some(UnitName(Day))));
  }

  lemma PhraseD() returns (p: Phrase)
    ensures p.word == "d" && Plain(p) && Render(p) == "d"
    ensures PhraseReading(p) == Success([UnitName(Day)])
  {
    WordD();
    p := Start("d", Some(UnitName(Day)));
  }

  lemma Joint4Point5CloseD()
    ensures Joint("4.5", "", "d")
  {
  }

  lemma Phrase4Point5CloseD() returns (p: Phrase)
    ensures p.word == "4.5" && Plain(p) && Render(p) == "4.5" + "" + "d"
    ensures PhraseReading(p) == Success([Number("4.5"), UnitName(Day)])
  {
    var r := PhraseD();
    Word4Point5();
    Joint4Point5CloseD();
    p := Extend("4.5", "", r, Some(Number("4.5")), [UnitName(Day)]);
    ConsOne(Number("4.5"), UnitName(Day));
  }

  lemma JointAnd4Point5()
    ensures Joint("and", " ", "4.5")
  {
  }

  lemma PhraseAnd4Point5CloseD() returns (p: Phrase)
    ensures p.word == "and" && Plain(p) && Render(p) == "and" + " " + ("4.5" + "" + "d")
    ensures PhraseReading(p) == Success([Number("4.5"), UnitName(Day)])
  {
    var r := Phrase4Point5CloseD();
    WordAnd();
    JointAnd4Point5();
    p := Extend("and", " ", r, None, [Number("4.5"), UnitName(Day)]);
  }

  lemma JointMosAnd()
    ensures Joint("mos", " ", "and")
  {
  }

  lemma PhraseMosAnd4Point5CloseD() returns (p: Phrase)
    ensures p.word == "mos" && Plain(p) && Render(p) == "mos" + " " + ("and" + " " + ("4.5" + "" + "d"))
    ensures PhraseReading(p) == Success([UnitName(Month), Number("4.5"), UnitName(Day)])
  {
    var r := PhraseAnd4Point5CloseD();
    WordMos();
    JointMosAnd();
    p := Extend("mos", " ", r, Some(UnitName(Month)), [Number("4.5"), UnitName(Day)]);
    ConsTwo(UnitName(Month), Number("4.5"), UnitName(Day));
  }

  lemma Joint6Mos()
    ensures Joint("6", " ", "mos")
  {
  }

  lemma Phrase6MosAnd4Point5CloseD() returns (p: Phrase)
    ensures p.word == "6" && Plain(p) && Render(p) == "6" + " " + ("mos" + " " + ("and" + " " + ("4.5" + "" + "d")))
    ensures PhraseReading(p) == Success([Number("6"), UnitName(Month), Number("4.5"), UnitName(Day)])
  {
    var r := PhraseMosAnd4Point5CloseD();
    Word6();
    Joint6Mos();
    p := Extend("6", " ", r, Some(Number("6")), [UnitName(Month), Number("4.5"), UnitName(Day)]);
    ConsThree(Number("6"), UnitName(Month), Number("4.5"), UnitName(Day));
  }

  lemma JointYrs6()
    ensures Joint("yrs", " ", "6")
  {
  }

  lemma PhraseYrs6MosAnd4Point5CloseD() returns (p: Phrase)
    ensures p.word == "yrs" && Plain(p) && Render(p) == "yrs" + " " + ("6" + " " + ("mos" + " " + ("and" + " " + ("4.5" + "" + "d"))))
    ensures PhraseReading(p) == Success([UnitName(Year), Number("6"), UnitName(Month), Number("4.5"), UnitName(Day)])
  {
    var r := Phrase6MosAnd4Point5CloseD();
    WordYrs();
    JointYrs6();
    p := Extend("yrs", " ", r, Some(UnitName(Year)), [Number("6"), UnitName(Month), Number("4.5"), UnitName(Day)]);
    ConsFour(UnitName(Year), Number("6"), UnitName(Month), Number("4.5"), UnitName(Day));
  }

  lemma Joint47Yrs()
    ensures Joint("47", " ", "yrs")
  {
  }

  lemma Phrase47Yrs6MosAnd4Point5CloseD() returns (p: Phrase)
    ensures p.word == "47" && Plain(p) && Render(p) == "47" + " " + ("yrs" + " " + ("6" + " " + ("mos" + " " + ("and" + " " + ("4.5" + "" + "d")))))
    ensures PhraseReading(p) == Success([Number("47"), UnitName(Year), Number("6"), UnitName(Month), Number("4.5"), UnitName(Day)])
  {
    var r := PhraseYrs6MosAnd4Point5CloseD();
    Word47();
    Joint47Yrs();
    p := Extend("47", " ", r, Some(Number("47")), [UnitName(Year), Number("6"), UnitName(Month), Number("4.5"), UnitName(Day)]);
    ConsFive(Number("47"), UnitName(Year), Number("6"), UnitName(Month), Number("4.5"), UnitName(Day));
  }

  lemma Text47Yrs6MosAnd4Point5d()
    ensures "47 yrs 6 mos and 4.5d" == "47" + " " + ("yrs" + " " + ("6" + " " + ("mos" + " " + ("and" + " " + ("4.5" + "" + "d")))))
  {
  }

  lemma NotClock47Yrs6MosAnd4Point5d()
    ensures !IsChronoShape("47 yrs 6 mos and 4.5d")
  {
    LetterNotChrono("47 yrs 6 mos and 4.5d", 3);
  }

  lemma Count4Point5()
    ensures IsLiteral("4.5") && LiteralValue("4.5") == Decimal(45, 1)
  {
    assert DigitsValue("5") == 5;
    PointDigits("4.5", "4", "5", 45);
  }

  /** Years, months and a fractional count of days. */
  lemma Example47Yrs6MosAnd4Point5d()
    ensures Parse("47 yrs 6 mos and 4.5d", Defaults) == Success(Some(Decimal(3558672000, 1)))
  {
    var p := Phrase47Yrs6MosAnd4Point5CloseD();
    Text47Yrs6MosAnd4Point5d();
    NotClock47Yrs6MosAnd4Point5d();
    Count4Point5();
    DigitsLiteral("47", 47);
    DigitsLiteral("6", 6);
    ParsePhraseThree(p, "47 yrs 6 mos and 4.5d", [Number("47"), UnitName(Year), Number("6"), UnitName(Month), Number("4.5"), UnitName(Day)], "47", "6", "4.5", Term(Whole(47), Year), Term(Whole(6), Month), Term(Decimal(45, 1), Day), Defaults);
    Total47Yrs6MosAnd4Point5d();
  }

  lemma TotalDay()
    ensures Total([Term(Whole(1), Day)]) == Whole(28800)
  {
    OneTerm(Term(Whole(1), Day));
    TotalIs([Term(Whole(1), Day)], 28800, 0);
  }

  lemma WordDay()
    ensures Piece("day", Some(UnitName(Day)))
  {
    assert IsLexeme("day") && NoUpper("day");
    assert StripCommas("day") == "day";
    assert Spell("day") == "day";
    assert Classify("day") == Success(Some(UnitName(Day)));
    ReadingVia("day", "day", "day", Success(Some(UnitName(Day))));
  }

  lemma PhraseDay() returns (p: Phrase)
    ensures p.word == "day" && Plain(p) && Render(p) == "day"
    ensures PhraseReading(p) == Success([UnitName(Day)])
  {
    WordDay();
    p := Start("day", Some(UnitName(Day)));
  }

  lemma TextDay()
    ensures "day" == "day"
  {
  }

  lemma NotClockDay()
    ensures !IsChronoShape("day")
  {
    LetterNotChrono("day", 0);
  }

  /** A lone unit counts one of it. */
  lemma ExampleDay()
    ensures Parse("day", Defaults) == Success(Some(Whole(28800)))
  {
    var p := PhraseDay();
    TextDay();
    NotClockDay();
    DigitsLiteral("1", 1);
    ConsOne(Number("1"), UnitName(Day));
    ParsePhraseOne(p, "day", [UnitName(Day)], "1", Term(Whole(1), Day), Defaults);
    TotalDay();
  }

  lemma TotalMinute30s()
    ensures Total([Term(Whole(1), Minute), Term(Whole(30), Second)]) == Whole(90)
  {
    SecondsTwo(Term(Whole(1), Minute), Term(Whole(30), Second));
    TotalIs([Term(Whole(1), Minute), Term(Whole(30), Second)], 90, 0);
  }

  lemma WordMinute()
    ensures Piece("minute", Some(UnitName(Minute)))
  {
    assert IsLexeme("minute") && NoUpper("minute");
    assert StripCommas("minute") == "minute";
    assert Spell("minute") == "minute";
    assert Classify("minute") == Success(Some(UnitName(Minute)));
    ReadingVia("minute", "minute", "minute", Success(Some(UnitName(Minute))));
  }

  lemma Word30()
    ensures Piece("30", Some(Number("30")))
  {
    assert IsLexeme("30") && NoUpper("30");
    assert StripCommas("30") == "30";
    assert Spell("30") == "30";
    assert Classify("30") == Success(Some(Number("30")));
    ReadingVia("30", "30", "30", Success(Some(Number("30"))));
  }

  lemma WordS()
    ensures Piece("s", Some(UnitName(Second)))
  {
    assert IsLexeme("s") && NoUpper("s");
    assert StripCommas("s") == "s";
    assert Spell("s") == "s";
    assert Classify("s") == Success(Some(UnitName(Second)));
    ReadingVia("s", "s", "s", Success(Some(UnitName(Second))));
  }

  lemma PhraseS() returns (p: Phrase)
    ensures p.word == "s" && Plain(p) && Render(p) == "s"
    ensures PhraseReading(p) == Success([UnitName(Second)])
  {
    WordS();
    p := Start("s", Some(UnitName(Second)));
  }

  lemma Joint30CloseS()
    ensures Joint("30", "", "s")
  {
  }

  lemma Phrase30CloseS() returns (p: Phrase)
    ensures p.word == "30" && Plain(p) && Render(p) == "30" + "" + "s"
    ensures PhraseReading(p) == Success([Number("30"), UnitName(Second)])
  {
    var r := PhraseS();
    Word30();
    Joint30CloseS();
    p := Extend("30", "", r, Some(Number("30")), [UnitName(Second)]);
    ConsOne(Number("30"), UnitName(Second));
  }

  lemma JointMinute30()
    ensures Joint("minute", " ", "30")
  {
  }

  lemma PhraseMinute30CloseS() returns (p: Phrase)
    ensures p.word == "minute" && Plain(p) && Render(p) == "minute" + " " + ("30" + "" + "s")
    ensures PhraseReading(p) == Success([UnitName(Minute), Number("30"), UnitName(Second)])
  {
    var r := Phrase30CloseS();
    WordMinute();
    JointMinute30();
    p := Extend("minute", " ", r, Some(UnitName(Minute)), [Number("30"), UnitName(Second)]);
    ConsTwo(UnitName(Minute), Number("30"), UnitName(Second));
  }

  lemma TextMinute30s()
    ensures "minute 30s" == "minute" + " " + ("30" + "" + "s")
  {
  }

  lemma NotClockMinute30s()
    ensures !IsChronoShape("minute 30s")
  {
    LetterNotChrono("minute 30s", 0);
  }

  /** A leading unit counts one of it. */
  lemma ExampleMinute30s()
    ensures Parse("minute 30s", Defaults) == Success(Some(Whole(90)))
  {
    var p := PhraseMinute30CloseS();
    TextMinute30s();
    NotClockMinute30s();
    DigitsLiteral("1", 1);
    DigitsLiteral("30", 30);
    ConsThree(Number("1"), UnitName(Minute), Number("30"), UnitName(Second));
    ParsePhraseTwo(p, "minute 30s", [UnitName(Minute), Number("30"), UnitName(Second)], "1", "30", Term(Whole(1), Minute), Term(Whole(30), Second), Defaults);
    TotalMinute30s();
  }

  lemma Word4()
    ensures Piece("4", Some(Number("4")))
  {
    assert IsLexeme("4") && NoUpper("4");
    assert StripCommas("4") == "4";
    assert Spell("4") == "4";
    assert Classify("4") == Success(Some(Number("4")));
    ReadingVia("4", "4", "4", Success(Some(Number("4"))));
  }

  lemma Word11()
    ensures Piece("11", Some(Number("11")))
  {
    assert IsLexeme("11") && NoUpper("11");
    assert StripCommas("11") == "11";
    assert Spell("11") == "11";
    assert Classify("11") == Success(Some(Number("11")));
    ReadingVia("11", "11", "11", Success(Some(Number("11"))));
  }

  lemma PhraseHours() returns (p: Phrase)
    ensures p.word == "hours" && Plain(p) && Render(p) == "hours"
    ensures PhraseReading(p) == Success([UnitName(Hour)])
  {
    WordHours();
    p := Start("hours", Some(UnitName(Hour)));
  }

  lemma Joint11Hours()
    ensures Joint("11", " ", "hours")
  {
  }

  lemma Phrase11Hours() returns (p: Phrase)
    ensures p.word == "11" && Plain(p) && Render(p) == "11" + " " + "hours"
    ensures PhraseReading(p) == Success([Number("11"), UnitName(Hour)])
  {
    var r := PhraseHours();
    Word11();
    Joint11Hours();
    p := Extend("11", " ", r, Some(Number("11")), [UnitName(Hour)]);
    ConsOne(Number("11"), UnitName(Hour));
  }

  lemma JointAnd11()
    ensures Joint("and", " ", "11")
  {
  }

  lemma PhraseAnd11Hours() returns (p: Phrase)
    ensures p.word == "and" && Plain(p) && Render(p) == "and" + " " + ("11" + " " + "hours")
    ensures PhraseReading(p) == Success([Number("11"), UnitName(Hour)])
  {
    var r := Phrase11Hours();
    WordAnd();
    JointAnd11();
    p := Extend("and", " ", r, None, [Number("11"), UnitName(Hour)]);
  }

  lemma JointDaysAnd()
    ensures Joint("days", " ", "and")
  {
  }

  lemma PhraseDaysAnd11Hours() returns (p: Phrase)
    ensures p.word == "days" && Plain(p) && Render(p) == "days" + " " + ("and" + " " + ("11" + " " + "hours"))
    ensures PhraseReading(p) == Success([UnitName(Day), Number("11"), UnitName(Hour)])
  {
    var r := PhraseAnd11Hours();
    WordDays();
    JointDaysAnd();
    p := Extend("days", " ", r, Some(UnitName(Day)), [Number("11"), UnitName(Hour)]);
    ConsTwo(UnitName(Day), Number("11"), UnitName(Hour));
  }

  lemma Joint4Days()
    ensures Joint("4", " ", "days")
  {
  }

  lemma Phrase4DaysAnd11Hours() returns (p: Phrase)
    ensures p.word == "4" && Plain(p) && Render(p) == "4" + " " + ("days" + " " + ("and" + " " + ("11" + " " + "hours")))
    ensures PhraseReading(p) == Success([Number("4"), UnitName(Day), Number("11"), UnitName(Hour)])
  {
    var r := PhraseDaysAnd11Hours();
    Word4();
    Joint4Days();
    p := Extend("4", " ", r, Some(Number("4")), [UnitName(Day), Number("11"), UnitName(Hour)]);
    ConsThree(Number("4"), UnitName(Day), Number("11"), UnitName(Hour));
  }

  lemma TextDaysAndHours()
    ensures "4 days and 11 hours" == "4" + " " + ("days" + " " + ("and" + " " + ("11" + " " + "hours")))
  {
  }

  lemma NotClockDaysAndHours()
    ensures !IsChronoShape("4 days and 11 hours")
  {
    LetterNotChrono("4 days and 11 hours", 2);
  }

  lemma Joint11CloseHours()
    ensures Joint("11", "     ", "hours")
  {
  }

  lemma Phrase11WideHours() returns (p: Phrase)
    ensures p.word == "11" && Plain(p) && Render(p) == "11" + "     " + "hours"
    ensures PhraseReading(p) == Success([Number("11"), UnitName(Hour)])
  {
    var r := PhraseHours();
    Word11();
    Joint11CloseHours();
    p := Extend("11", "     ", r, Some(Number("11")), [UnitName(Hour)]);
    ConsOne(Number("11"), UnitName(Hour));
  }

  lemma PhraseAnd11WideHours() returns (p: Phrase)
    ensures p.word == "and" && Plain(p) && Render(p) == "and" + " " + ("11" + "     " + "hours")
    ensures PhraseReading(p) == Success([Number("11"), UnitName(Hour)])
  {
    var r := Phrase11WideHours();
    WordAnd();
    JointAnd11();
    p := Extend("and", " ", r, None, [Number("11"), UnitName(Hour)]);
  }

  lemma PhraseDaysAnd11WideHours() returns (p: Phrase)
    ensures p.word == "days" && Plain(p) && Render(p) == "days" + " " + ("and" + " " + ("11" + "     " + "hours"))
    ensures PhraseReading(p) == Success([UnitName(Day), Number("11"), UnitName(Hour)])
  {
    var r := PhraseAnd11WideHours();
    WordDays();
    JointDaysAnd();
    p := Extend("days", " ", r, Some(UnitName(Day)), [Number("11"), UnitName(Hour)]);
    ConsTwo(UnitName(Day), Number("11"), UnitName(Hour));
  }

  lemma Phrase4DaysAnd11WideHours() returns (p: Phrase)
    ensures p.word == "4" && Plain(p) && Render(p) == "4" + " " + ("days" + " " + ("and" + " " + ("11" + "     " + "hours")))
    ensures PhraseReading(p) == Success([Number("4"), UnitName(Day), Number("11"), UnitName(Hour)])
  {
    var r := PhraseDaysAnd11WideHours();
    Word4();
    Joint4Days();
    p := Extend("4", " ", r, Some(Number("4")), [UnitName(Day), Number("11"), UnitName(Hour)]);
    ConsThree(Number("4"), UnitName(Day), Number("11"), UnitName(Hour));
  }

  lemma TextDaysAndHoursSpaced()
    ensures "4 days and 11     hours" == "4" + " " + ("days" + " " + ("and" + " " + ("11" + "     " + "hours")))
  {
  }

  lemma NotClockDaysAndHoursSpaced()
    ensures !IsChronoShape("4 days and 11     hours")
  {
    LetterNotChrono("4 days and 11     hours", 2);
  }

  lemma WordMin()
    ensures Piece("min", Some(UnitName(Minute)))
  {
    assert IsLexeme("min") && NoUpper("min");
    assert StripCommas("min") == "min";
    assert Spell("min") == "min";
    assert Classify("min") == Success(Some(UnitName(Minute)));
    ReadingVia("min", "min", "min", Success(Some(UnitName(Minute))));
  }

  lemma Word11Point5()
    ensures Piece("11.5", Some(Number("11.5")))
  {
    assert IsLexeme("11.5") && NoUpper("11.5");
    assert StripCommas("11.5") == "11.5";
    assert Spell("11.5") == "11.5";
    assert Classify("11.5") == Success(Some(Number("11.5")));
    ReadingVia("11.5", "11.5", "11.5", Success(Some(Number("11.5"))));
  }

  lemma Joint11Point5CloseS()
    ensures Joint("11.5", "", "s")
  {
  }

  lemma Phrase11Point5CloseS() returns (p: Phrase)
    ensures p.word == "11.5" && Plain(p) && Render(p) == "11.5" + "" + "s"
    ensures PhraseReading(p) == Success([Number("11.5"), UnitName(Second)])
  {
    var r := PhraseS();
    Word11Point5();
    Joint11Point5CloseS();
    p := Extend("11.5", "", r, Some(Number("11.5")), [UnitName(Second)]);
    ConsOne(Number("11.5"), UnitName(Second));
  }

  lemma JointMinClose11Point5()
    ensures Joint("min", "", "11.5")
  {
  }

  lemma PhraseMinClose11Point5CloseS() returns (p: Phrase)
    ensures p.word == "min" && Plain(p) && Render(p) == "min" + "" + ("11.5" + "" + "s")
    ensures PhraseReading(p) == Success([UnitName(Minute), Number("11.5"), UnitName(Second)])
  {
    var r := Phrase11Point5CloseS();
    WordMin();
    JointMinClose11Point5();
    p := Extend("min", "", r, Some(UnitName(Minute)), [Number("11.5"), UnitName(Second)]);
    ConsTwo(UnitName(Minute), Number("11.5"), UnitName(Second));
  }

  lemma Joint4CloseMin()
    ensures Joint("4", "", "min")
  {
  }

  lemma Phrase4CloseMinClose11Point5CloseS() returns (p: Phrase)
    ensures p.word == "4" && Plain(p) && Render(p) == "4" + "" + ("min" + "" + ("11.5" + "" + "s"))
    ensures PhraseReading(p) == Success([Number("4"), UnitName(Minute), Number("11.5"), UnitName(Second)])
  {
    var r := PhraseMinClose11Point5CloseS();
    Word4();
    Joint4CloseMin();
    p := Extend("4", "", r, Some(Number("4")), [UnitName(Minute), Number("11.5"), UnitName(Second)]);
    ConsThree(Number("4"), UnitName(Minute), Number("11.5"), UnitName(Second));
  }

  lemma TextMinSeconds()
    ensures "4min11.5s" == "4" + "" + ("min" + "" + ("11.5" + "" + "s"))
  {
  }

  lemma NotClockMinSeconds()
    ensures !IsChronoShape("4min11.5s")
  {
    LetterNotChrono("4min11.5s", 1);
  }

  lemma Word23()
    ensures Piece("23", Some(Number("23")))
  {
    assert IsLexeme("23") && NoUpper("23");
    assert StripCommas("23") == "23";
    assert Spell("23") == "23";
    assert Classify("23") == Success(Some(Number("23")));
    ReadingVia("23", "23", "23", Success(Some(Number("23"))));
  }

  /** Two groups joined by a colon are minutes and seconds. */
  lemma ParseClockTwo(text: string, a: string, b: string, t1: Term, t2: Term, opts: ParseOptions)
    requires text == a + ":" + b
    requires IsLiteral(a) && NumberChars(a) && t1 == Term(LiteralValue(a), Minute)
    requires IsLiteral(b) && NumberChars(b) && t2 == Term(LiteralValue(b), Second)
    ensures var total := Total([t1, t2]);
      Parse(text, opts) == Success(if total.mantissa == 0 && !opts.keepZero then None else Some(total))
  {
    var rs := [a, b];
    assert rs == [a, b] + [];
    JoinTwo(a, b, [], ":");
    ParseClock(rs, [t1, t2], opts);
  }

  /** Three groups joined by colons are hours, minutes and seconds. */
  lemma ParseClockThree(text: string, a: string, b: string, c: string, t1: Term, t2: Term, t3: Term, opts: ParseOptions)
    requires text == a + ":" + (b + ":" + c)
    requires IsLiteral(a) && NumberChars(a) && t1 == Term(LiteralValue(a), Hour)
    requires IsLiteral(b) && NumberChars(b) && t2 == Term(LiteralValue(b), Minute)
    requires IsLiteral(c) && NumberChars(c) && t3 == Term(LiteralValue(c), Second)
    ensures var total := Total([t1, t2, t3]);
      Parse(text, opts) == Success(if total.mantissa == 0 && !opts.keepZero then None else Some(total))
  {
    var rs := [a, b, c];
    assert rs == [a, b] + [c];
    JoinTwo(a, b, [c], ":");
    ParseClock(rs, [t1, t2, t3], opts);
  }

  lemma TextClock1Colon20()
    ensures "1:20" == "1" + ":" + "20"
  {
  }

  lemma Total1Colon20()
    ensures Total([Term(Whole(1), Minute), Term(Whole(20), Second)]) == Whole(80)
  {
    SecondsTwo(Term(Whole(1), Minute), Term(Whole(20), Second));
    TotalIs([Term(Whole(1), Minute), Term(Whole(20), Second)], 80, 0);
  }

  /** A clock of minutes and seconds. */
  lemma Example1Colon20()
    ensures Parse("1:20", Defaults) == Success(Some(Whole(80)))
  {
    DigitsLiteral("1", 1);
    DigitsLiteral("20", 20);
    assert NumberChars("1") && NumberChars("20");
    TextClock1Colon20();
    ParseClockTwo("1:20", "1", "20", Term(Whole(1), Minute), Term(Whole(20), Second), Defaults);
    Total1Colon20();
  }

  lemma Count20Point51()
    ensures IsLiteral("20.51") && LiteralValue("20.51") == Decimal(2051, 2)
  {
    assert "20"[..1] == "2";
    assert DigitsValue("20") == 20;
    assert "51"[..1] == "5";
    assert DigitsValue("51") == 51;
    PointDigits("20.51", "20", "51", 2051);
  }

  lemma TextClock1Colon20Point51()
    ensures "1:20.51" == "1" + ":" + "20.51"
  {
  }

  lemma Total1Colon20Point51()
    ensures Total([Term(Whole(1), Minute), Term(Decimal(2051, 2), Second)]) == Decimal(8051, 2)
  {
    SecondsTwo(Term(Whole(1), Minute), Term(Decimal(2051, 2), Second));
    TotalIs([Term(Whole(1), Minute), Term(Decimal(2051, 2), Second)], 8051, 2);
  }

  /** Clock seconds with a fraction keep their hundredths. */
  lemma Example1Colon20Point51()
    ensures Parse("1:20.51", Defaults) == Success(Some(Decimal(8051, 2)))
  {
    DigitsLiteral("1", 1);
    Count20Point51();
    assert NumberChars("1") && NumberChars("20.51");
    TextClock1Colon20Point51();
    ParseClockTwo("1:20.51", "1", "20.51", Term(Whole(1), Minute), Term(Decimal(2051, 2), Second), Defaults);
    Total1Colon20Point51();
  }

  lemma TextClock4Colon01Colon01()
    ensures "4:01:01" == "4" + ":" + ("01" + ":" + "01")
  {
  }

  lemma Total4Colon01Colon01()
    ensures Total([Term(Whole(4), Hour), Term(Whole(1), Minute), Term(Whole(1), Second)]) == Whole(14461)
  {
    SecondsThree(Term(Whole(4), Hour), Term(Whole(1), Minute), Term(Whole(1), Second));
    TotalIs([Term(Whole(4), Hour), Term(Whole(1), Minute), Term(Whole(1), Second)], 14461, 0);
  }

  /** Hours, minutes and seconds; a leading zero in a group is ignored. */
  lemma Example4Colon01Colon01()
    ensures Parse("4:01:01", Defaults) == Success(Some(Whole(14461)))
  {
    DigitsLiteral("4", 4);
    assert "01"[..1] == "0";
    DigitsLiteral("01", 1);
    assert NumberChars("4") && NumberChars("01");
    TextClock4Colon01Colon01();
    ParseClockThree("4:01:01", "4", "01", "01", Term(Whole(4), Hour), Term(Whole(1), Minute), Term(Whole(1), Second), Defaults);
    Total4Colon01Colon01();
  }

  lemma LowerText3Mins4Sec()
    ensures Lower("3 Mins 4 Sec") == "3 mins 4 sec"
  {
  }

  /** Capital letters read as their lower-case forms. */
  lemma Example3Mins4SecCapitalised()
    ensures Parse("3 Mins 4 Sec", Defaults) == Success(Some(Whole(184)))
  {
    ParseIgnoresCase("3 Mins 4 Sec", Defaults);
    LowerText3Mins4Sec();
    Example3Mins4Sec();
  }

  /** A phrase with a word the reader does not know fails with that word. */
  lemma ParseUnknown(p: Phrase, text: string, e: ParseError, opts: ParseOptions)
    requires text == Render(p) && Plain(p) && !IsChronoShape(text)
    requires PhraseReading(p) == Failure(e)
    ensures Parse(text, opts) == if opts.raiseExceptions then Failure(e) else Success(None)
  {
    CleanupPhrase(p);
  }

  lemma WordGobblygoo()
    ensures IsLexeme("gobblygoo") && NoUpper("gobblygoo")
    ensures Reading("gobblygoo") == Failure(UnknownWord("gobblygoo"))
  {
    UnknownGobblygoo();
    ReadingUnknown("gobblygoo");
  }

  lemma UnknownGobblygoo()
    ensures StripCommas("gobblygoo") == "gobblygoo" && NumberWordValue("gobblygoo").None?
    ensures !IsLiteral("gobblygoo") && Lookup("gobblygoo").None? && !IsJoinWord("gobblygoo")
  {
  }

  lemma NotClockGobblygoo()
    ensures !IsChronoShape("gobblygoo")
  {
    LetterNotChrono("gobblygoo", 0);
  }

  /** A word that is neither a number, a number word, a unit nor a filler word is unknown. */
  lemma ReadingUnknown(w: string)
    requires StripCommas(w) == w && NumberWordValue(w).None?
    requires w != [] && !IsLiteral(w) && Lookup(w).None? && !IsJoinWord(w)
    ensures Reading(w) == Failure(UnknownWord(w))
  {
  }

  /** An unknown word is nil, or an error when errors are raised. */
  lemma ExampleGobblygoo(opts: ParseOptions)
    ensures Parse("gobblygoo", opts) ==
      if opts.raiseExceptions then Failure(UnknownWord("gobblygoo")) else Success(None)
  {
    WordGobblygoo();
    NotClockGobblygoo();
    PlainLast("gobblygoo");
    ParseUnknown(Last("gobblygoo"), "gobblygoo", UnknownWord("gobblygoo"), opts);
  }

  lemma WordGobblygoos()
    ensures IsLexeme("gobblygoos") && NoUpper("gobblygoos")
    ensures Reading("gobblygoos") == Failure(UnknownWord("gobblygoos"))
  {
    UnknownGobblygoos();
    ReadingUnknown("gobblygoos");
  }

  lemma UnknownGobblygoos()
    ensures StripCommas("gobblygoos") == "gobblygoos" && NumberWordValue("gobblygoos").None?
    ensures !IsLiteral("gobblygoos") && Lookup("gobblygoos").None? && !IsJoinWord("gobblygoos")
  {
  }

  lemma Joint23Gobblygoos()
    ensures Joint("23", " ", "gobblygoos")
  {
  }

  lemma Text23Gobblygoos()
    ensures "23 gobblygoos" == "23" + " " + "gobblygoos"
  {
  }

  lemma NotClock23Gobblygoos()
    ensures !IsChronoShape("23 gobblygoos")
  {
    LetterNotChrono("23 gobblygoos", 3);
  }

  /** A count before an unknown word does not save it. */
  lemma Example23Gobblygoos(opts: ParseOptions)
    ensures Parse("23 gobblygoos", opts) ==
      if opts.raiseExceptions then Failure(UnknownWord("gobblygoos")) else Success(None)
  {
    Word23();
    WordGobblygoos();
    Joint23Gobblygoos();
    PlainLast("gobblygoos");
    var p := Then("23", " ", Last("gobblygoos"));
    PlainThen("23", " ", Last("gobblygoos"));
    Text23Gobblygoos();
    NotClock23Gobblygoos();
    ParseUnknown(p, "23 gobblygoos", UnknownWord("gobblygoos"), opts);
  }

  lemma TotalZero(k: UnitKind)
    ensures Total([Term(Whole(0), k)]) == Whole(0)
  {
    OneTerm(Term(Whole(0), k));
    ValueWhole(0);
    TotalIs([Term(Whole(0), k)], 0, 0);
  }

  /** "0" is nil unless zero is kept, whatever the default unit. */
  lemma ExampleZero(opts: ParseOptions)
    ensures Parse("0", opts) == if opts.keepZero then Success(Some(Whole(0))) else Success(None)
  {
    DigitsLiteral("0", 0);
    ParseBare("0", opts);
    TotalZero(opts.defaultUnit);
  }

  /** Seconds written with a point make the result a Float. */
  lemma ExampleFloatSeconds()
    ensures var r := Parse("12 mins 3.141 seconds", Defaults);
      r.Success? && r.value.Some? && IsFloat(r.value.value)
  {
    Example12Mins3Point141Seconds();
  }

  /** Whole counts make the result an Integer. */
  lemma ExampleIntegerSeconds()
    ensures var r := Parse("12 mins 3 seconds", Defaults);
      r.Success? && r.value.Some? && !IsFloat(r.value.value)
  {
    Example12Mins3Seconds();
  }

  /** A bare number takes the default unit. */
  lemma ExampleDefaultMinutes()
    ensures Parse("5", ParseOptions(false, Minute, false)) == Success(Some(Whole(300)))
  {
    DigitsLiteral("5", 5);
    ParseBare("5", ParseOptions(false, Minute, false));
    TotalFiveMinutes();
  }

  lemma TotalFiveMinutes()
    ensures Total([Term(Whole(5), Minute)]) == Whole(300)
  {
    OneTerm(Term(Whole(5), Minute));
    ValueWhole(5);
    TotalIs([Term(Whole(5), Minute)], 300, 0);
  }

  lemma NamesTwo(rs: seq<string>)
    requires |rs| == 2
    ensures GroupNames(rs) == [CanonicalName(Minute), CanonicalName(Second)]
  {
  }

  lemma NamesThree(rs: seq<string>)
    requires |rs| == 3
    ensures GroupNames(rs) == [CanonicalName(Hour), CanonicalName(Minute), CanonicalName(Second)]
  {
  }

  /** Two clock groups become minutes and seconds. */
  lemma FilterClockTwo(a: string, b: string)
    requires IsLiteral(a) && NumberChars(a) && IsLiteral(b) && NumberChars(b)
    ensures FilterByType(a + ":" + b) ==
      Some(a + " " + (CanonicalName(Minute) + " " + (b + " " + CanonicalName(Second))))
  {
    var rs := [a, b];
    assert rs == [a, b] + [];
    JoinTwo(a, b, [], ":");
    ClockShape(rs);
    var us := GroupNames(rs);
    NamesTwo(rs);
    JoinInterleave(rs, us, " ");
    RenderTwo(a, us[0], b, us[1], " ", " ");
  }

  /** Three clock groups become hours, minutes and seconds. */
  lemma FilterClockThree(a: string, b: string, c: string)
    requires IsLiteral(a) && NumberChars(a) && IsLiteral(b) && NumberChars(b) && IsLiteral(c) && NumberChars(c)
    ensures FilterByType(a + ":" + (b + ":" + c)) ==
      Some(a + " " + (CanonicalName(Hour) + " " + (b + " " + (CanonicalName(Minute) + " " + (c + " " + CanonicalName(Second))))))
  {
    var rs := [a, b, c];
    assert rs == [a, b] + [c];
    JoinTwo(a, b, [c], ":");
    ClockShape(rs);
    var us := GroupNames(rs);
    NamesThree(rs);
    JoinInterleave(rs, us, " ");
    RenderThree(a, us[0], b, us[1], c, us[2], " ", " ");
  }

  lemma TextClock3Colon14()
    ensures "3:14" == "3" + ":" + "14"
    ensures "3 minutes 14 seconds" == "3" + " " + ("minutes" + " " + ("14" + " " + "seconds"))
  {
  }

  /** filter_by_type rewrites "3:14" into unit words. */
  lemma ExampleFilter3Colon14()
    ensures FilterByType("3:14") == Some("3 minutes 14 seconds")
  {
    DigitsLiteral("3", 3);
    DigitsLiteral("14", 14);
    assert NumberChars("3") && NumberChars("14");
    TextClock3Colon14();
    FilterClockTwo("3", "14");
  }

  lemma TextClock12Colon10Colon14()
    ensures "12:10:14" == "12" + ":" + ("10" + ":" + "14")
    ensures "12 hours 10 minutes 14 seconds" ==
      "12" + " " + ("hours" + " " + ("10" + " " + ("minutes" + " " + ("14" + " " + "seconds"))))
  {
  }

  /** filter_by_type rewrites "12:10:14" into unit words. */
  lemma ExampleFilter12Colon10Colon14()
    ensures FilterByType("12:10:14") == Some("12 hours 10 minutes 14 seconds")
  {
    DigitsLiteral("12", 12);
    DigitsLiteral("10", 10);
    DigitsLiteral("14", 14);
    assert NumberChars("12") && NumberChars("10") && NumberChars("14");
    TextClock12Colon10Colon14();
    FilterClockThree("12", "10", "14");
  }

  /** filter_by_type leaves other text alone. */
  lemma ExampleFilterWords()
    ensures FilterByType("4 hours") == Some("4 hours")
  {
    LetterNotChrono("4 hours", 2);
  }

  /** Four tokens written out, one space apart. */
  lemma JoinFourTokens(c1: string, k1: UnitKind, c2: string, k2: UnitKind)
    ensures Join(TokenTexts([Number(c1), UnitName(k1), Number(c2), UnitName(k2)]), " ") ==
      c1 + " " + (CanonicalName(k1) + " " + (c2 + " " + CanonicalName(k2)))
  {
    var ws := TokenTexts([Number(c1), UnitName(k1), Number(c2), UnitName(k2)]);
    assert ws == [c1, CanonicalName(k1)] + [c2, CanonicalName(k2)];
    JoinTwo(c1, CanonicalName(k1), [c2, CanonicalName(k2)], " ");
    assert [c2, CanonicalName(k2)] == [c2, CanonicalName(k2)] + [];
    JoinTwo(c2, CanonicalName(k2), [], " ");
  }

  /** Text read as two terms cleans up to their counts and canonical unit names. */
  lemma CleanupTwoTerms(text: string, c1: string, k1: UnitKind, c2: string, k2: UnitKind, out: string)
    requires CleanupTokens(text) == Success([Number(c1), UnitName(k1), Number(c2), UnitName(k2)])
    requires out == c1 + " " + (CanonicalName(k1) + " " + (c2 + " " + CanonicalName(k2)))
    ensures Cleanup.Cleanup(text) == Success(out)
  {
    JoinFourTokens(c1, k1, c2, k2);
  }

  /** The tokens of a plain phrase read as two terms. */
  lemma TwoTermTokens(p: Phrase, text: string, c1: string, k1: UnitKind, c2: string, k2: UnitKind)
    requires text == Render(p) && Plain(p) && !IsChronoShape(text)
    requires PhraseReading(p) == Success([Number(c1), UnitName(k1), Number(c2), UnitName(k2)])
    ensures CleanupTokens(text) == Success([Number(c1), UnitName(k1), Number(c2), UnitName(k2)])
  {
    CleanupPhrase(p);
    assert PrependOne([Number(c1), UnitName(k1), Number(c2), UnitName(k2)]) == [Number(c1), UnitName(k1), Number(c2), UnitName(k2)];
  }

  /** Spaces in front of the text are skipped. */
  lemma CleanupLeadingSpaces(sp: string, x: string, y: string)
    requires y == sp + x && AllSpace(sp) && NoUpper(sp) && NoUpper(x)
    requires !IsChronoShape(y) && !IsChronoShape(x)
    ensures CleanupTokens(y) == CleanupTokens(x)
  {
    NoUpperConcat(sp, x, []);
    assert sp + x + [] == sp + x;
    LowerIdentity(sp + x);
    LowerIdentity(x);
    LexSpaces(sp, x);
  }

  lemma TextFourDaysElevenHours()
    ensures "4 days 11 hours" == "4" + " " + ("days" + " " + ("11" + " " + "hours"))
  {
  }

  /** Any text read as 4 days and 11 hours cleans up to "4 days 11 hours". */
  lemma CleanupFourDaysElevenHours(text: string)
    requires CleanupTokens(text) == Success([Number("4"), UnitName(Day), Number("11"), UnitName(Hour)])
    ensures Cleanup.Cleanup(text) == Success("4 days 11 hours")
  {
    TextFourDaysElevenHours();
    CleanupTwoTerms(text, "4", Day, "11", Hour, "4 days 11 hours");
  }

  lemma TokensDaysAndHours()
    ensures CleanupTokens("4 days and 11 hours") == Success([Number("4"), UnitName(Day), Number("11"), UnitName(Hour)])
  {
    var p := Phrase4DaysAnd11Hours();
    TextDaysAndHours();
    NotClockDaysAndHours();
    TwoTermTokens(p, "4 days and 11 hours", "4", Day, "11", Hour);
  }

  /** cleanup drops the filler word. */
  lemma ExampleCleanupFiller()
    ensures Cleanup.Cleanup("4 days and 11 hours") == Success("4 days 11 hours")
  {
    TokensDaysAndHours();
    CleanupFourDaysElevenHours("4 days and 11 hours");
  }

  lemma TextIndented()
    ensures "  4 days and 11     hours" == "  " + "4 days and 11     hours"
  {
  }

  lemma NotClockIndented()
    ensures !IsChronoShape("  4 days and 11     hours")
  {
    LetterNotChrono("  4 days and 11     hours", 4);
  }

  lemma TokensDaysAndHoursSpaced()
    ensures CleanupTokens("4 days and 11     hours") == Success([Number("4"), UnitName(Day), Number("11"), UnitName(Hour)])
  {
    var p := Phrase4DaysAnd11WideHours();
    TextDaysAndHoursSpaced();
    NotClockDaysAndHoursSpaced();
    TwoTermTokens(p, "4 days and 11     hours", "4", Day, "11", Hour);
  }

  lemma TwoSpaces()
    ensures AllSpace("  ") && NoUpper("  ")
  {
  }

  lemma NoUpperSpaced()
    ensures NoUpper("4 days and 11     hours")
  {
  }

  lemma TokensIndented()
    ensures CleanupTokens("  4 days and 11     hours") == Success([Number("4"), UnitName(Day), Number("11"), UnitName(Hour)])
  {
    TokensDaysAndHoursSpaced();
    TextIndented();
    NotClockIndented();
    NotClockDaysAndHoursSpaced();
    NoUpperSpaced();
    TwoSpaces();
    CleanupLeadingSpaces("  ", "4 days and 11     hours", "  4 days and 11     hours");
  }

  /** cleanup drops leading spaces and squeezes runs of spaces. */
  lemma ExampleCleanupSpaces()
    ensures Cleanup.Cleanup("  4 days and 11     hours") == Success("4 days 11 hours")
  {
    TokensIndented();
    CleanupFourDaysElevenHours("  4 days and 11     hours");
  }

  lemma TextFourMinutesSeconds()
    ensures "4 minutes 11.5 seconds" == "4" + " " + ("minutes" + " " + ("11.5" + " " + "seconds"))
  {
  }

  lemma TokensMinSeconds()
    ensures CleanupTokens("4min11.5s") == Success([Number("4"), UnitName(Minute), Number("11.5"), UnitName(Second)])
  {
    var p := Phrase4CloseMinClose11Point5CloseS();
    TextMinSeconds();
    NotClockMinSeconds();
    TwoTermTokens(p, "4min11.5s", "4", Minute, "11.5", Second);
  }

  /** cleanup puts spaces between counts and units written together. */
  lemma ExampleCleanupGlued()
    ensures Cleanup.Cleanup("4min11.5s") == Success("4 minutes 11.5 seconds")
  {
    TokensMinSeconds();
    TextFourMinutesSeconds();
    CleanupTwoTerms("4min11.5s", "4", Minute, "11.5", Second, "4 minutes 11.5 seconds");
  }
}
