/**
 * `parse`: the cleaned tokens are read as (number, unit) terms, a final bare
 * number takes the default unit, and the duration is the exact sum of
 * magnitude times unit length. Zero is refused unless `keep_zero` is set.
 */
module Parser {
  import opened Wrappers
  import opened Text
  import opened Decimals
  import opened Units
  import opened Lexer
  import opened Cleanup

  /**
   * The options `parse` reads. `raiseExceptions` is the library's
   * process-wide switch, passed here with every call.
   */
  datatype ParseOptions = ParseOptions(keepZero: bool, defaultUnit: UnitKind, raiseExceptions: bool)

  const Defaults := ParseOptions(false, Second, false)

  /** Numbers and units alternate, starting with a number; the last unit may be missing. */
  predicate WellFormed(ts: seq<Token>)
  {
    forall i | 0 <= i < |ts| :: ts[i].Number? <==> i % 2 == 0
  }

  lemma WellFormedStep(ts: seq<Token>)
    requires |ts| >= 2
    ensures WellFormed(ts) <==> ts[0].Number? && ts[1].UnitName? && WellFormed(ts[2..])
  {
    if ts[0].Number? && ts[1].UnitName? && WellFormed(ts[2..]) {
      forall i | 2 <= i < |ts| ensures ts[i].Number? <==> i % 2 == 0 {
        assert ts[i] == ts[2..][i - 2];
      }
    }
    if WellFormed(ts) {
      forall i | 0 <= i < |ts| - 2 ensures ts[2..][i].Number? <==> i % 2 == 0 {
        assert ts[2..][i] == ts[i + 2];
      }
    }
  }

  function ToTerms(ts: seq<Token>, defaultUnit: UnitKind): (r: Result<seq<Term>, ParseError>)
    requires LiteralNumbers(ts)
    ensures r.Success? <==> WellFormed(ts)
    ensures r.Success? ==> |r.value| == (|ts| + 1) / 2
    decreases |ts|
  {
    if ts == [] then Success([])
    else if ts[0].UnitName? then Failure(MalformedTerm(CanonicalName(ts[0].kind)))
    else if |ts| == 1 then Success([Term(LiteralValue(ts[0].literal), defaultUnit)])
    else if ts[1].Number? then Failure(MalformedTerm(ts[1].literal))
    else
      LiteralNumbersTail(ts);
      WellFormedStep(ts);
      match ToTerms(ts[2..], defaultUnit)
      case Failure(e) => Failure(e)
      case Success(rest) => Success([Term(LiteralValue(ts[0].literal), ts[1].kind)] + rest)
  }

  lemma LiteralNumbersTail(ts: seq<Token>)
    requires LiteralNumbers(ts) && |ts| >= 2
    ensures LiteralNumbers(ts[2..])
  {
    assert forall i | 0 <= i < |ts| - 2 :: ts[2..][i] == ts[i + 2];
  }

  /** The term a well-formed token list has at index i. */
  predicate TermAt(ts: seq<Token>, defaultUnit: UnitKind, i: nat, t: Term)
    requires LiteralNumbers(ts)
  {
    && 2 * i < |ts|
    && ts[2 * i].Number?
    && t.magnitude == LiteralValue(ts[2 * i].literal)
    && t.unit == (if 2 * i + 1 < |ts| && ts[2 * i + 1].UnitName? then ts[2 * i + 1].kind else defaultUnit)
  }

  /**
   * Term i is the number at position 2i with the unit after it, or the
   * default unit when that number ends the list.
   */
  lemma {:induction false} ToTermsAt(ts: seq<Token>, defaultUnit: UnitKind, i: nat)
    requires LiteralNumbers(ts) && WellFormed(ts)
    requires i < (|ts| + 1) / 2
    ensures TermAt(ts, defaultUnit, i, ToTerms(ts, defaultUnit).value[i])
    decreases i
  {
    if i > 0 {
      LiteralNumbersTail(ts);
      WellFormedStep(ts);
      var tail := ts[2..];
      ToTermsAt(tail, defaultUnit, i - 1);
      var rest := ToTerms(tail, defaultUnit).value;
      assert ToTerms(ts, defaultUnit).value == [Term(LiteralValue(ts[0].literal), ts[1].kind)] + rest;
      assert ts[2 * i] == tail[2 * (i - 1)];
      if 2 * i + 1 < |ts| {
        assert ts[2 * i + 1] == tail[2 * (i - 1) + 1];
      }
    }
  }

  /**
   * `parse`. Without the raise switch every failure is None (nil); with it
   * an unparseable string is a Failure (DurationParseError). A text with a
   * word that is neither a number, a unit nor a connective is unparseable,
   * whatever counts stand before it; the word is not skipped. A zero total
   * is None in both modes unless `keepZero` is set.
   */
  function Parse(text: string, opts: ParseOptions): (r: Result<Option<Decimal>, ParseError>)
    ensures !opts.raiseExceptions ==> r.Success?
    ensures r.Success? && r.value.Some? && !opts.keepZero ==> r.value.value.mantissa != 0
  {
    var terms :=
      match CleanupTokens(text)
      case Failure(e) => Failure(e)
      case Success(ts) => ToTerms(ts, opts.defaultUnit);
    match terms
    case Failure(e) => if opts.raiseExceptions then Failure(e) else Success(None)
    case Success(ts) =>
      var total := Total(ts);
      if total.mantissa == 0 && !opts.keepZero then Success(None) else Success(Some(total))
  }

  /** Some number among the tokens was written with a point. */
  predicate HasPoint(ts: seq<Token>)
  {
    exists i | 0 <= i < |ts| :: ts[i].Number? && '.' in ts[i].literal
  }

  /** A number and a unit in front: the point is in that number or further on. */
  lemma HasPointStep(ts: seq<Token>)
    requires |ts| >= 2 && ts[0].Number? && ts[1].UnitName?
    ensures HasPoint(ts) <==> '.' in ts[0].literal || HasPoint(ts[2..])
  {
    var tail := ts[2..];
    if HasPoint(tail) {
      var j :| 0 <= j < |tail| && tail[j].Number? && '.' in tail[j].literal;
      assert ts[j + 2] == tail[j];
    }
    if HasPoint(ts) {
      var j :| 0 <= j < |ts| && ts[j].Number? && '.' in ts[j].literal;
      if j >= 2 {
        assert tail[j - 2] == ts[j];
      }
    }
  }

  /** The terms read from the tokens have fraction digits exactly when some number had a point. */
  lemma {:induction false} ToTermsFloat(ts: seq<Token>, defaultUnit: UnitKind)
    requires LiteralNumbers(ts) && WellFormed(ts)
    ensures MaxScale(ToTerms(ts, defaultUnit).value) > 0 <==> HasPoint(ts)
    decreases |ts|
  {
    if |ts| == 1 {
      var t := Term(LiteralValue(ts[0].literal), defaultUnit);
      assert ToTerms(ts, defaultUnit).value == [t];
      assert MaxScale([t]) == t.magnitude.scale;
    } else if |ts| >= 2 {
      LiteralNumbersTail(ts);
      WellFormedStep(ts);
      ToTermsFloat(ts[2..], defaultUnit);
      HasPointStep(ts);
      var t := Term(LiteralValue(ts[0].literal), ts[1].kind);
      var rest := ToTerms(ts[2..], defaultUnit).value;
      assert ToTerms(ts, defaultUnit).value == [t] + rest;
      assert ([t] + rest)[1..] == rest;
    }
  }

  /**
   * `parse` returns a Float exactly when some number in the cleaned text was
   * written with a point; spelled-out numbers never are.
   */
  lemma ParseFloat(text: string, opts: ParseOptions)
    ensures Parse(text, opts).Success? && Parse(text, opts).value.Some? ==>
      CleanupTokens(text).Success? && (IsFloat(Parse(text, opts).value.value) <==> HasPoint(CleanupTokens(text).value))
  {
    if CleanupTokens(text).Success? && WellFormed(CleanupTokens(text).value) {
      ToTermsFloat(CleanupTokens(text).value, opts.defaultUnit);
    }
  }

  /** `parse` does not distinguish upper from lower case. */
  lemma ParseIgnoresCase(text: string, opts: ParseOptions)
    ensures Parse(Lower(text), opts) == Parse(text, opts)
  {
    CleanupIgnoresCase(text);
  }
}
