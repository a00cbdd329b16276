/**
 * `parse` reads back what `output` writes: in every style but chrono, the
 * text of a list of terms parses to the exact total of those terms. The
 * reading is first shown for any counts and unit words that alternate
 * (`Pairs`), then for the words `output` itself writes.
 */
module RoundTrip {
  import opened Wrappers
  import opened Text
  import opened Decimals
  import opened Units
  import opened Lexer
  import opened Chrono
  import opened Cleanup
  import opened Parser
  import opened Formatter

  /** Counts and unit words written alternately: count, gap, unit, joiner, count, ... */
  function Pairs(cs: seq<string>, us: seq<string>, gap: string, joiner: string): Phrase
    requires |cs| == |us| > 0
    decreases |cs|
  {
    if |cs| == 1 then Then(cs[0], gap, Last(us[0]))
    else Then(cs[0], gap, Then(us[0], joiner, Pairs(cs[1..], us[1..], gap, joiner)))
  }

  /** Each count glued to its unit word. */
  function Glued(cs: seq<string>, us: seq<string>, gap: string): (hs: seq<string>)
    requires |cs| == |us|
    ensures |hs| == |cs| && forall i | 0 <= i < |cs| :: hs[i] == cs[i] + gap + us[i]
  {
    seq(|cs|, i requires 0 <= i < |cs| => cs[i] + gap + us[i])
  }

  /** Every count is a numeric literal and every unit word spells its unit. */
  predicate Spelled(cs: seq<string>, us: seq<string>, ks: seq<UnitKind>)
  {
    && |cs| == |us| == |ks|
    && forall i | 0 <= i < |cs| :: IsLiteral(cs[i]) && Lookup(us[i]) == Some(ks[i])
  }

  /** The separators `output` uses: nothing or one space. */
  predicate IsGap(s: string) { s == "" || s == " " }

  /** The tokens the phrase cleans up to: number, unit, number, unit, ... */
  function PairTokens(cs: seq<string>, ks: seq<UnitKind>): (r: seq<Token>)
    requires |cs| == |ks|
    ensures |r| == 2 * |cs|
    decreases |cs|
  {
    if cs == [] then [] else [Number(cs[0]), UnitName(ks[0])] + PairTokens(cs[1..], ks[1..])
  }

  /** The terms those tokens are read as. */
  function ReadTerms(cs: seq<string>, ks: seq<UnitKind>): (r: seq<Term>)
    requires |cs| == |ks| && forall i | 0 <= i < |cs| :: IsLiteral(cs[i])
    ensures |r| == |cs| && forall i | 0 <= i < |cs| :: r[i] == Term(LiteralValue(cs[i]), ks[i])
  {
    seq(|cs|, i requires 0 <= i < |cs| => Term(LiteralValue(cs[i]), ks[i]))
  }

  lemma SpelledTail(cs: seq<string>, us: seq<string>, ks: seq<UnitKind>)
    requires Spelled(cs, us, ks) && |cs| > 0
    ensures Spelled(cs[1..], us[1..], ks[1..])
  {
    forall i | 0 <= i < |cs| - 1 ensures IsLiteral(cs[1..][i]) && Lookup(us[1..][i]) == Some(ks[1..][i]) {
      assert cs[1..][i] == cs[i + 1] && us[1..][i] == us[i + 1] && ks[1..][i] == ks[i + 1];
    }
  }

  /** A word `Lookup` knows is a run of lower-case letters, so a lexer word. */
  lemma UnitSpellingIsWord(u: string)
    requires Lookup(u).Some?
    ensures IsWord(u) && AllLetters(u)
  {
  }

  lemma {:induction false} RenderPairs(cs: seq<string>, us: seq<string>, gap: string, joiner: string)
    requires |cs| == |us| > 0
    ensures Render(Pairs(cs, us, gap, joiner)) == Join(Glued(cs, us, gap), joiner)
    decreases |cs|
  {
    var p := Pairs(cs, us, gap, joiner);
    var hs := Glued(cs, us, gap);
    if |cs| == 1 {
      assert Render(p) == cs[0] + gap + us[0];
    } else {
      RenderPairs(cs[1..], us[1..], gap, joiner);
      assert hs[1..] == Glued(cs[1..], us[1..], gap);
      var r := Render(p.rest.rest);
      assert Render(p) == cs[0] + gap + (us[0] + joiner + r);
      Regroup(cs[0], gap, us[0], joiner, r);
    }
  }

  lemma Regroup(a: string, b: string, c: string, d: string, e: string)
    ensures a + b + (c + d + e) == (a + b + c) + d + e
  {
  }

  lemma {:induction false} PairsSeparated(cs: seq<string>, us: seq<string>, ks: seq<UnitKind>, gap: string, joiner: string)
    requires Spelled(cs, us, ks) && |cs| > 0 && IsGap(gap) && IsGap(joiner)
    ensures WellSeparated(Pairs(cs, us, gap, joiner))
    decreases |cs|
  {
    UnitSpellingIsWord(us[0]);
    if |cs| > 1 {
      SpelledTail(cs, us, ks);
      PairsSeparated(cs[1..], us[1..], ks[1..], gap, joiner);
      assert IsLiteral(cs[1]) by {
        assert cs[1..][0] == cs[1];
      }
    }
  }

  /** Every word of the phrase is a literal or a unit spelling. */
  predicate ReadableWords(ws: seq<string>)
  {
    forall i | 0 <= i < |ws| :: IsLiteral(ws[i]) || Lookup(ws[i]).Some?
  }

  lemma WordsStep(w: string, sep: string, r: Phrase)
    requires IsLiteral(w) || Lookup(w).Some?
    requires r.Last? ==> IsLiteral(r.word) || Lookup(r.word).Some?
    requires r.Then? ==> ReadableWords(Words(r))
    ensures ReadableWords(Words(Then(w, sep, r)))
  {
    assert Words(Then(w, sep, r)) == [w] + Words(r);
    if r.Last? {
      assert Words(r) == [r.word];
    }
  }

  lemma {:induction false} PairsWords(cs: seq<string>, us: seq<string>, ks: seq<UnitKind>, gap: string, joiner: string)
    requires Spelled(cs, us, ks) && |cs| > 0
    ensures ReadableWords(Words(Pairs(cs, us, gap, joiner)))
    decreases |cs|
  {
    var p := Pairs(cs, us, gap, joiner);
    if |cs| == 1 {
      WordsStep(p.word, p.sep, p.rest);
    } else {
      SpelledTail(cs, us, ks);
      PairsWords(cs[1..], us[1..], ks[1..], gap, joiner);
      WordsStep(p.rest.word, p.rest.sep, p.rest.rest);
      WordsStep(p.word, p.sep, p.rest);
    }
  }

  /** No word of the list is a number word, so no "twenty five" pair is present. */
  lemma ReadableNoCompound(ws: seq<string>)
    requires ReadableWords(ws)
    ensures StripAll(ws) == ws
    ensures NoCompound(StripAll(ws))
  {
    forall i | 0 <= i < |ws| ensures StripCommas(ws[i]) == ws[i] && NumberWordValue(ws[i]) == None {
      if IsLiteral(ws[i]) {
        LiteralChars(ws[i]);
        StripCommasNone(ws[i]);
      } else {
        UnitNotNumber(ws[i]);
        assert IsLetter(ws[i][0]) && IsLetter(ws[i][|ws[i]| - 1]);
        StripCommasNone(ws[i]);
      }
    }
  }

  lemma ReadingLast(w: string, t: Token)
    requires Reading(w) == Success(Some(t))
    ensures PhraseReading(Last(w)) == Success([t])
  {
    assert [t] + [] == [t];
  }

  lemma ReadingThen(w: string, sep: string, r: Phrase, t: Token, ts: seq<Token>)
    requires Reading(w) == Success(Some(t)) && PhraseReading(r) == Success(ts)
    ensures PhraseReading(Then(w, sep, r)) == Success([t] + ts)
  {
  }

  lemma {:induction false} PairsReading(cs: seq<string>, us: seq<string>, ks: seq<UnitKind>, gap: string, joiner: string)
    requires Spelled(cs, us, ks) && |cs| > 0
    ensures PhraseReading(Pairs(cs, us, gap, joiner)) == Success(PairTokens(cs, ks))
    decreases |cs|
  {
    var n, k := Number(cs[0]), UnitName(ks[0]);
    assert IsLiteral(cs[0]) && Lookup(us[0]) == Some(ks[0]);
    ReadingLiteral(cs[0]);
    ReadingUnit(us[0]);
    if |cs| == 1 {
      LastPairReading(cs[0], us[0], gap, n, k);
      assert Pairs(cs, us, gap, joiner) == Then(cs[0], gap, Last(us[0]));
      assert PairTokens(cs[1..], ks[1..]) == [];
      assert PairTokens(cs, ks) == [n, k] + [] == [n, k];
    } else {
      SpelledTail(cs, us, ks);
      PairsReading(cs[1..], us[1..], ks[1..], gap, joiner);
      PairReading(cs[0], us[0], gap, joiner, Pairs(cs[1..], us[1..], gap, joiner), n, k, PairTokens(cs[1..], ks[1..]));
    }
  }

  lemma LastPairReading(c: string, u: string, gap: string, n: Token, k: Token)
    requires Reading(c) == Success(Some(n)) && Reading(u) == Success(Some(k))
    ensures PhraseReading(Then(c, gap, Last(u))) == Success([n, k])
  {
    ReadingLast(u, k);
    ReadingThen(c, gap, Last(u), n, [k]);
    assert [n] + [k] == [n, k];
  }

  lemma PairReading(c: string, u: string, gap: string, joiner: string, rest: Phrase, n: Token, k: Token, tail: seq<Token>)
    requires Reading(c) == Success(Some(n)) && Reading(u) == Success(Some(k)) && PhraseReading(rest) == Success(tail)
    ensures PhraseReading(Then(c, gap, Then(u, joiner, rest))) == Success([n, k] + tail)
  {
    ReadingThen(u, joiner, rest, k, tail);
    ReadingThen(c, gap, Then(u, joiner, rest), n, [k] + tail);
    assert [n] + ([k] + tail) == [n, k] + tail;
  }

  /** The glued words have no upper-case letter. */
  lemma GluedNoUpper(cs: seq<string>, us: seq<string>, ks: seq<UnitKind>, gap: string, joiner: string)
    requires Spelled(cs, us, ks) && IsGap(gap) && IsGap(joiner)
    ensures NoUpper(Join(Glued(cs, us, gap), joiner))
  {
    var hs := Glued(cs, us, gap);
    forall k | 0 <= k < |hs| ensures NoUpper(hs[k]) {
      LiteralChars(cs[k]);
      UnitSpellingIsWord(us[k]);
      NoUpperConcat(cs[k], gap, us[k]);
    }
    JoinChars(hs, joiner, (c: char) => !IsUpper(c));
  }

  lemma NoUpperConcat(a: string, b: string, c: string)
    requires NoUpper(a) && NoUpper(b) && NoUpper(c)
    ensures NoUpper(a + b + c)
  {
  }

  /** A clock-shaped text has no letters. */
  lemma LetterNotChrono(s: string, i: nat)
    requires i < |s| && IsLetter(s[i])
    ensures !IsChronoShape(s)
  {
  }

  /** The first unit word is made of letters, so the text is not clock-shaped. */
  lemma PairsNotChrono(cs: seq<string>, us: seq<string>, ks: seq<UnitKind>, gap: string, joiner: string)
    requires Spelled(cs, us, ks) && |cs| > 0
    ensures !IsChronoShape(Render(Pairs(cs, us, gap, joiner)))
  {
    var p := Pairs(cs, us, gap, joiner);
    UnitSpellingIsWord(us[0]);
    var tail := RenderHead(p.rest);
    assert Render(p) == p.word + p.sep + (p.rest.word + tail);
    LetterNotChrono(Render(p), |p.word| + |p.sep|);
  }

  /** Reading the phrase gives its numbers and units back, one token per word. */
  lemma ReadPairs(cs: seq<string>, us: seq<string>, ks: seq<UnitKind>, gap: string, joiner: string)
    requires Spelled(cs, us, ks) && |cs| > 0 && IsGap(gap) && IsGap(joiner)
    ensures ReadWords(Render(Pairs(cs, us, gap, joiner))) == Success(PairTokens(cs, ks))
  {
    var p := Pairs(cs, us, gap, joiner);
    PairsSeparated(cs, us, ks, gap, joiner);
    PairsWords(cs, us, ks, gap, joiner);
    PairsReading(cs, us, ks, gap, joiner);
    ReadableNoCompound(Words(p));
    ReadPhrase(p);
  }

  /** Cleaning up the phrase gives the same tokens: it is lower case and not clock-shaped. */
  lemma CleanupPairs(cs: seq<string>, us: seq<string>, ks: seq<UnitKind>, gap: string, joiner: string)
    requires Spelled(cs, us, ks) && |cs| > 0 && IsGap(gap) && IsGap(joiner)
    ensures CleanupTokens(Render(Pairs(cs, us, gap, joiner))) == Success(PairTokens(cs, ks))
  {
    var p := Pairs(cs, us, gap, joiner);
    RenderPairs(cs, us, gap, joiner);
    GluedNoUpper(cs, us, ks, gap, joiner);
    PairsNotChrono(cs, us, ks, gap, joiner);
    LowerIdentity(Render(p));
    ReadPairs(cs, us, ks, gap, joiner);
  }

  lemma {:induction false} PairTokensLiteral(cs: seq<string>, ks: seq<UnitKind>)
    requires |cs| == |ks| && forall i | 0 <= i < |cs| :: IsLiteral(cs[i])
    ensures LiteralNumbers(PairTokens(cs, ks))
    decreases |cs|
  {
    if cs != [] {
      var tt, tr := PairTokens(cs, ks), PairTokens(cs[1..], ks[1..]);
      assert forall i | 0 <= i < |cs| - 1 :: cs[1..][i] == cs[i + 1];
      PairTokensLiteral(cs[1..], ks[1..]);
      forall i | 0 <= i < |tt| && tt[i].Number? ensures IsLiteral(tt[i].literal) {
        if i >= 2 {
          assert tt[i] == tr[i - 2];
        }
      }
    }
  }

  /** Reading the tokens as terms pairs each number with the unit after it. */
  lemma {:induction false} PairTokensTerms(cs: seq<string>, ks: seq<UnitKind>, defaultUnit: UnitKind)
    requires |cs| == |ks| && forall i | 0 <= i < |cs| :: IsLiteral(cs[i])
    ensures LiteralNumbers(PairTokens(cs, ks))
    ensures ToTerms(PairTokens(cs, ks), defaultUnit) == Success(ReadTerms(cs, ks))
    decreases |cs|
  {
    PairTokensLiteral(cs, ks);
    if cs != [] {
      assert forall i | 0 <= i < |cs| - 1 :: cs[1..][i] == cs[i + 1];
      PairTokensTerms(cs[1..], ks[1..], defaultUnit);
      var tr, rest := PairTokens(cs[1..], ks[1..]), ReadTerms(cs[1..], ks[1..]);
      ToTermsPair(cs[0], ks[0], tr, defaultUnit, rest);
      assert PairTokens(cs, ks) == [Number(cs[0]), UnitName(ks[0])] + tr;
      ReadTermsCons(cs, ks);
    }
  }

  /** A number and a unit in front of well-read tokens add their term in front. */
  lemma ToTermsPair(c: string, k: UnitKind, tr: seq<Token>, defaultUnit: UnitKind, rest: seq<Term>)
    requires IsLiteral(c) && LiteralNumbers(tr) && ToTerms(tr, defaultUnit) == Success(rest)
    ensures LiteralNumbers([Number(c), UnitName(k)] + tr)
    ensures ToTerms([Number(c), UnitName(k)] + tr, defaultUnit) == Success([Term(LiteralValue(c), k)] + rest)
  {
    var tt := [Number(c), UnitName(k)] + tr;
    forall i | 0 <= i < |tt| && tt[i].Number? ensures IsLiteral(tt[i].literal) {
      if i >= 2 {
        assert tt[i] == tr[i - 2];
      }
    }
    assert tt[2..] == tr;
  }

  lemma ReadTermsCons(cs: seq<string>, ks: seq<UnitKind>)
    requires |cs| == |ks| > 0 && forall i | 0 <= i < |cs| :: IsLiteral(cs[i])
    ensures ReadTerms(cs, ks) == [Term(LiteralValue(cs[0]), ks[0])] + ReadTerms(cs[1..], ks[1..])
  {
    assert forall i | 0 <= i < |cs| - 1 :: cs[1..][i] == cs[i + 1];
  }

  /** Text that cleans up to alternating numbers and units parses to the exact total of those terms. */
  lemma ParseTokens(text: string, cs: seq<string>, ks: seq<UnitKind>, opts: ParseOptions)
    requires |cs| == |ks| && forall i | 0 <= i < |cs| :: IsLiteral(cs[i])
    requires CleanupTokens(text) == Success(PairTokens(cs, ks))
    ensures var total := Total(ReadTerms(cs, ks));
      Parse(text, opts) == Success(if total.mantissa == 0 && !opts.keepZero then None else Some(total))
  {
    PairTokensTerms(cs, ks, opts.defaultUnit);
  }

  /** The phrase parses to the exact total of the terms it spells. */
  lemma ParsePairs(cs: seq<string>, us: seq<string>, ks: seq<UnitKind>, gap: string, joiner: string, opts: ParseOptions)
    requires Spelled(cs, us, ks) && |cs| > 0 && IsGap(gap) && IsGap(joiner)
    ensures forall i | 0 <= i < |cs| :: IsLiteral(cs[i])
    ensures var total := Total(ReadTerms(cs, ks));
      Parse(Render(Pairs(cs, us, gap, joiner)), opts) ==
        Success(if total.mantissa == 0 && !opts.keepZero then None else Some(total))
  {
    CleanupPairs(cs, us, ks, gap, joiner);
    ParseTokens(Render(Pairs(cs, us, gap, joiner)), cs, ks, opts);
  }

  /** The counts `output` writes for some terms. */
  function CountWords(ts: seq<Term>): (cs: seq<string>)
    ensures |cs| == |ts| && forall i | 0 <= i < |ts| :: cs[i] == DecimalStr(ts[i].magnitude)
  {
    seq(|ts|, i requires 0 <= i < |ts| => DecimalStr(ts[i].magnitude))
  }

  /** The unit words `output` writes for some terms, plural unless the count is 1. */
  function UnitWords(ts: seq<Term>, f: Format): (us: seq<string>)
    requires f != Chrono
    ensures |us| == |ts| && forall i | 0 <= i < |ts| :: us[i] == DisplayWord(ts[i].unit, f, ts[i].magnitude != Whole(1))
  {
    seq(|ts|, i requires 0 <= i < |ts| => DisplayWord(ts[i].unit, f, ts[i].magnitude != Whole(1)))
  }

  function UnitKinds(ts: seq<Term>): (ks: seq<UnitKind>)
    ensures |ks| == |ts| && forall i | 0 <= i < |ts| :: ks[i] == ts[i].unit
  {
    seq(|ts|, i requires 0 <= i < |ts| => ts[i].unit)
  }

  /** What `output` puts between a count and its unit. */
  function UnitGap(f: Format): string { if SpacedUnit(f) then " " else "" }

  /** The words `output` writes for some terms spell those terms. */
  lemma TermsSpelled(ts: seq<Term>, f: Format)
    requires f != Chrono
    ensures Spelled(CountWords(ts), UnitWords(ts, f), UnitKinds(ts))
    ensures HumanizeAll(ts, f) == Glued(CountWords(ts), UnitWords(ts, f), UnitGap(f))
    ensures ReadTerms(CountWords(ts), UnitKinds(ts)) == ts
  {
    forall i | 0 <= i < |ts| ensures IsLiteral(CountWords(ts)[i]) && LiteralValue(CountWords(ts)[i]) == ts[i].magnitude && Lookup(UnitWords(ts, f)[i]) == Some(ts[i].unit) {
      DecimalStrLiteral(ts[i].magnitude);
      DisplayWordLookup(ts[i].unit, f, ts[i].magnitude != Whole(1));
    }
  }

  /**
   * The text `output` writes for any nonempty list of terms, in any style
   * but chrono, parses to the exact total of those terms.
   */
  lemma ParseRendered(ts: seq<Term>, f: Format, opts: ParseOptions)
    requires |ts| > 0 && f != Chrono
    ensures Parse(Join(HumanizeAll(ts, f), Joiner(f)), opts) ==
      Success(if Total(ts).mantissa == 0 && !opts.keepZero then None else Some(Total(ts)))
  {
    var cs, us, ks := CountWords(ts), UnitWords(ts, f), UnitKinds(ts);
    TermsSpelled(ts, f);
    RenderPairs(cs, us, UnitGap(f), Joiner(f));
    ParsePairs(cs, us, ks, UnitGap(f), Joiner(f), opts);
  }

  /**
   * `parse(output(x)) == x`: in every style but chrono, with every term
   * kept, the text `output` writes parses back to the same exact number of
   * seconds, in its canonical spelling. The "0 seconds" written for a kept
   * zero reads back as zero when `parse` keeps zero too, and as nil otherwise.
   */
  lemma OutputRoundTrip(x: Decimal, opts: OutputOptions, popts: ParseOptions)
    requires opts.format != Chrono && (opts.units.None? || opts.units.value >= 4)
    ensures Output(x, opts).Some? <==> x.mantissa != 0 || opts.keepZero
    ensures Output(x, opts).Some? ==>
      Parse(Output(x, opts).value, popts) ==
        Success(if x.mantissa == 0 && !popts.keepZero then None else Some(Normalize(x)))
  {
    var n := Normalize(x);
    var b := BreakDown(n, opts.limitToHours);
    var ts := Shown(b, opts);
    TermsTotal(x, opts.limitToHours);
    assert ts == Listed(b, opts.keepZero);
    if x.mantissa != 0 {
      ParseRendered(ts, opts.format, popts);
      ValueZero(x);
      ValueZero(n);
    } else if opts.keepZero {
      ParseRendered(ts, opts.format, popts);
      ZeroTotal(x);
    }
  }

  /** "0 seconds" totals to zero, the canonical spelling of any zero. */
  lemma ZeroTotal(x: Decimal)
    requires x.mantissa == 0
    ensures Total([Term(Whole(0), Second)]) == Normalize(x) == Whole(0)
  {
    ValueZero(x);
    NormalizeCanonical(x, Whole(0));
    CanonicalUnique(Total([Term(Whole(0), Second)]), Whole(0));
  }


  /**
   * With `units: n` only the first n terms are written, so the text reads
   * back as at most the duration.
   */
  lemma OutputUnitsBound(x: Decimal, opts: OutputOptions, popts: ParseOptions)
    requires opts.format != Chrono
    ensures Output(x, opts).Some? ==>
      var r := Parse(Output(x, opts).value, popts);
      r.Success? && (r.value.Some? ==> Value(r.value.value) <= Value(x))
  {
    var ts := Shown(BreakDown(Normalize(x), opts.limitToHours), opts);
    ShownSeconds(x, opts);
    if ts != [] {
      ParseRendered(ts, opts.format, popts);
    }
  }
}
