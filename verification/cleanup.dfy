/**
 * `cleanup`: lower-cases the input, applies the chrono filter, splits it into
 * words, spells number words as digits, drops filler words and commas, and
 * rewrites every unit spelling to its canonical name. The outcome is a list
 * of tokens; an unrecognised word is an error.
 */
module Cleanup {
  import opened Wrappers
  import opened Text
  import opened Units
  import opened Lexer
  import opened Chrono

  datatype Token = Number(literal: string) | UnitName(kind: UnitKind)

  /** Why a string is not a duration (DurationParseError in the library). */
  datatype ParseError =
    | UnknownWord(word: string)
    | MalformedTerm(word: string)
    | TooManyGroups(groups: nat)

  /** The connectives that are dropped wherever they stand. */
  predicate IsJoinWord(w: string) { w == "and" || w == "with" || w == "plus" }

  /** A leading and a trailing comma are removed. */
  function StripCommas(w: string): (r: string)
    ensures |r| <= |w|
  {
    var a := if |w| > 0 && w[0] == ',' then w[1..] else w;
    if |a| > 0 && a[|a| - 1] == ',' then a[..|a| - 1] else a
  }

  /**
   * Number words worth one digit or a ten; "a" and "an" stand for 1. The
   * table is grouped by initial letter.
   */
  function NumberWordValue(w: string): (r: Option<nat>)
    ensures r.Some? ==> r.value < 60
  {
    if w == [] then None
    else match w[0]
      case 'a' => if IsArticle(w) then Some(1) else None
      case 'z' => if w == "zero" then Some(0) else None
      case 'o' => if w == "one" then Some(1) else None
      case 't' =>
        if w == "two" then Some(2) else if w == "three" then Some(3) else if w == "ten" then Some(10)
        else if w == "twelve" then Some(12) else if w == "thirteen" then Some(13)
        else if w == "twenty" then Some(20) else if w == "thirty" then Some(30) else None
      case 'f' =>
        if w == "four" then Some(4) else if w == "five" then Some(5) else if w == "fourteen" then Some(14)
        else if w == "fifteen" then Some(15) else if w == "forty" || w == "fourty" then Some(40)
        else if w == "fifty" then Some(50) else None
      case 's' =>
        if w == "six" then Some(6) else if w == "seven" then Some(7) else if w == "sixteen" then Some(16)
        else if w == "seventeen" then Some(17) else None
      case 'e' =>
        if w == "eight" then Some(8) else if w == "eleven" then Some(11) else if w == "eighteen" then Some(18)
        else None
      case 'n' => if w == "nine" then Some(9) else if w == "nineteen" then Some(19) else None
      case _ => None
  }

  predicate IsArticle(w: string) { w == "a" || w == "an" }

  /** "twenty" to "fifty": a ten that a following digit word adds to. */
  predicate IsTens(w: string) { NumberWordValue(w).Some? && NumberWordValue(w).value >= 20 }

  /** "one" to "nine", but not the article. */
  predicate IsOnes(w: string)
  {
    NumberWordValue(w).Some? && 1 <= NumberWordValue(w).value <= 9 && !IsArticle(w)
  }

  /** Spelled-out numbers below sixty become digits; "twenty five" is one number. */
  function Numerize(ws: seq<string>): (r: seq<string>)
    ensures |r| <= |ws|
  {
    if ws == [] then []
    else if |ws| > 1 && IsTens(ws[0]) && IsOnes(ws[1]) then
      [SmallNatStr(NumberWordValue(ws[0]).value + NumberWordValue(ws[1]).value)] + Numerize(ws[2..])
    else if NumberWordValue(ws[0]).Some? then [SmallNatStr(NumberWordValue(ws[0]).value)] + Numerize(ws[1..])
    else [ws[0]] + Numerize(ws[1..])
  }

  /** What one cleaned word contributes: a token, nothing (filler), or an error. */
  function Classify(w: string): (r: Result<Option<Token>, ParseError>)
    ensures r.Success? && r.value.Some? && r.value.value.Number? ==> IsLiteral(r.value.value.literal)
  {
    if IsLiteral(w) then Success(Some(Number(w)))
    else if Lookup(w).Some? then Success(Some(UnitName(Lookup(w).value)))
    else if w == [] || IsJoinWord(w) then Success(None)
    else Failure(UnknownWord(w))
  }

  function ClassifyAll(ws: seq<string>): (r: Result<seq<Token>, ParseError>)
    ensures r.Success? ==> |r.value| <= |ws|
    ensures r.Success? ==> forall i | 0 <= i < |r.value| :: r.value[i].Number? ==> IsLiteral(r.value[i].literal)
  {
    if ws == [] then Success([])
    else
      match Classify(ws[0])
      case Failure(e) => Failure(e)
      case Success(t) =>
        match ClassifyAll(ws[1..])
        case Failure(e) => Failure(e)
        case Success(ts) => Success(if t.Some? then [t.value] + ts else ts)
  }

  function StripAll(ws: seq<string>): (r: seq<string>)
    ensures |r| == |ws| && forall i | 0 <= i < |ws| :: r[i] == StripCommas(ws[i])
  {
    seq(|ws|, i requires 0 <= i < |ws| => StripCommas(ws[i]))
  }

  /** A phrase that starts with a unit ("day", "minute 30s") counts one of it. */
  function PrependOne(ts: seq<Token>): seq<Token>
  {
    if |ts| > 0 && ts[0].UnitName? then [Number("1")] + ts else ts
  }

  /**
   * The tokens are kept as they are, after at most one added count of one,
   * which is added exactly when they start with a unit; so a nonempty
   * result always starts with a number.
   */
  lemma PrependOneShape(ts: seq<Token>)
    ensures var r := PrependOne(ts);
      |ts| <= |r| <= |ts| + 1 && r[|r| - |ts|..] == ts &&
      (|r| > |ts| <==> |ts| > 0 && ts[0].UnitName?) &&
      (|r| > |ts| ==> r[0] == Number("1")) &&
      (|ts| > 0 ==> r[0].Number?)
  {
  }

  predicate LiteralNumbers(ts: seq<Token>)
  {
    forall i | 0 <= i < |ts| :: ts[i].Number? ==> IsLiteral(ts[i].literal)
  }

  lemma PrependOneLiterals(ts: seq<Token>)
    requires LiteralNumbers(ts)
    ensures LiteralNumbers(PrependOne(ts))
  {
    assert IsLiteral("1");
  }

  /** The whole cleanup, as tokens. */
  function CleanupTokens(text: string): (r: Result<seq<Token>, ParseError>)
    ensures r.Success? ==> LiteralNumbers(r.value)
  {
    match FilterByType(Lower(text))
    case None => Failure(TooManyGroups(|Split(RemoveSpaces(Lower(text)), ':')|))
    case Some(s) => ReadWords(s)
  }

  /** The filtered text split into words, number words spelled out, and each word read as a token. */
  function ReadWords(s: string): (r: Result<seq<Token>, ParseError>)
    ensures r.Success? ==> LiteralNumbers(r.value)
  {
    match ClassifyAll(Numerize(StripAll(Lex(s))))
    case Failure(e) => Failure(e)
    case Success(ts) =>
      PrependOneLiterals(ts);
      Success(PrependOne(ts))
  }

  function TokenText(t: Token): string
  {
    match t
    case Number(l) => l
    case UnitName(k) => CanonicalName(k)
  }

  function TokenTexts(ts: seq<Token>): (r: seq<string>)
    ensures |r| == |ts| && forall i | 0 <= i < |ts| :: r[i] == TokenText(ts[i])
  {
    seq(|ts|, i requires 0 <= i < |ts| => TokenText(ts[i]))
  }

  /** `cleanup` as the library returns it: the tokens written out, one space apart. */
  function Cleanup(text: string): Result<string, ParseError>
  {
    match CleanupTokens(text)
    case Failure(e) => Failure(e)
    case Success(ts) => Success(Join(TokenTexts(ts), " "))
  }

  /** Case makes no difference: the text is lower-cased before anything else. */
  lemma CleanupIgnoresCase(text: string)
    ensures CleanupTokens(Lower(text)) == CleanupTokens(text)
  {
    LowerIdentity(Lower(text));
  }

  /** What Numerize makes of a word that is not part of a "twenty five" pair. */
  function Spell(w: string): string
  {
    if NumberWordValue(w).Some? then SmallNatStr(NumberWordValue(w).value) else w
  }

  /** No ten is followed by a digit word. */
  predicate NoCompound(ws: seq<string>)
  {
    forall i | 0 <= i < |ws| - 1 :: !(IsTens(ws[i]) && IsOnes(ws[i + 1]))
  }

  /** Without a "twenty five" pair, Numerize spells every word on its own. */
  lemma {:induction false} NumerizeWordwise(ws: seq<string>)
    requires NoCompound(ws)
    ensures |Numerize(ws)| == |ws|
    ensures forall i | 0 <= i < |ws| :: Numerize(ws)[i] == Spell(ws[i])
  {
    if ws != [] {
      assert NoCompound(ws[1..]) by {
        forall i | 0 <= i < |ws[1..]| - 1 ensures !(IsTens(ws[1..][i]) && IsOnes(ws[1..][i + 1])) {
          assert ws[1..][i] == ws[i + 1] && ws[1..][i + 1] == ws[i + 2];
        }
      }
      NumerizeWordwise(ws[1..]);
    }
  }

  /** What one input word contributes once its commas are stripped and its number spelled. */
  function Reading(w: string): Result<Option<Token>, ParseError>
  {
    Classify(Spell(StripCommas(w)))
  }

  /** The tokens of a phrase read word by word; the first unknown word is the error. */
  function PhraseReading(p: Phrase): Result<seq<Token>, ParseError>
  {
    match Reading(p.word)
    case Failure(e) => Failure(e)
    case Success(t) =>
      match (if p.Last? then Success([]) else PhraseReading(p.rest))
      case Failure(e) => Failure(e)
      case Success(ts) => Success(if t.Some? then [t.value] + ts else ts)
  }

  lemma {:induction false} ClassifyPhrase(p: Phrase, ws: seq<string>)
    requires |ws| == |Words(p)|
    requires forall i | 0 <= i < |ws| :: ws[i] == Spell(StripCommas(Words(p)[i]))
    ensures ClassifyAll(ws) == PhraseReading(p)
  {
    match p
    case Last(w) =>
      assert ws[1..] == [];
    case Then(w, _, r) =>
      assert forall i | 0 <= i < |Words(r)| :: Words(p)[i + 1] == Words(r)[i];
      ClassifyPhrase(r, ws[1..]);
  }

  /** A phrase with no "twenty five" pair is read word by word. */
  lemma ReadPhrase(p: Phrase)
    requires WellSeparated(p)
    requires NoCompound(StripAll(Words(p)))
    ensures ReadWords(Render(p)) ==
      match PhraseReading(p)
      case Success(ts) => Success(PrependOne(ts))
      case Failure(e) => Failure(e)
  {
    LexPhrase(p);
    var ws := StripAll(Words(p));
    NumerizeWordwise(ws);
    ClassifyPhrase(p, Numerize(ws));
  }

  /**
   * Cleanup of a lower-case phrase that is not clock-shaped and has no
   * "twenty five" pair reads it word by word.
   */
  lemma CleanupPhrase(p: Phrase)
    requires WellSeparated(p) && NoUpper(Render(p)) && !IsChronoShape(Render(p))
    requires NoCompound(StripAll(Words(p)))
    ensures CleanupTokens(Render(p)) ==
      match PhraseReading(p)
      case Success(ts) => Success(PrependOne(ts))
      case Failure(e) => Failure(e)
  {
    LowerIdentity(Render(p));
    ReadPhrase(p);
  }

  /** Every character of a literal is a digit or the point, and it ends in a digit. */
  lemma LiteralChars(w: string)
    requires IsLiteral(w)
    ensures forall i | 0 <= i < |w| :: IsDigit(w[i]) || w[i] == '.'
    ensures IsDigit(w[|w| - 1])
  {
    var d := DigitRun(w);
    forall i | 0 <= i < |w| ensures IsDigit(w[i]) || w[i] == '.' {
      if i < d {
        assert w[..d][i] == w[i];
      } else if i > d {
        assert w[d + 1..][..DigitRun(w[d + 1..])][i - d - 1] == w[i];
      }
    }
    if d < |w| {
      var f := w[d + 1..];
      assert DigitRun(f) == |f|;
      assert f[..|f|][|f| - 1] == w[|w| - 1];
    } else {
      assert w[..d][|w| - 1] == w[|w| - 1];
    }
  }

  /** A word with no comma at either end is left as it is. */
  lemma StripCommasNone(w: string)
    requires w == [] || (w[0] != ',' && w[|w| - 1] != ',')
    ensures StripCommas(w) == w
  {
  }

  /** A numeric literal is read as that number. */
  lemma ReadingLiteral(w: string)
    requires IsLiteral(w)
    ensures Reading(w) == Success(Some(Number(w)))
  {
    LiteralChars(w);
    StripCommasNone(w);
    assert NumberWordValue(w) == None;
  }

  /** Only the number words have a value, and no unit spelling is a number word. */
  lemma UnitNotNumber(w: string)
    requires Lookup(w).Some?
    ensures NumberWordValue(w) == None
  {
  }

  /** A unit spelling is read as its unit. */
  lemma ReadingUnit(w: string)
    requires Lookup(w).Some?
    ensures Reading(w) == Success(Some(UnitName(Lookup(w).value)))
  {
    assert IsLetter(w[0]) && IsLetter(w[|w| - 1]);
    StripCommasNone(w);
    UnitNotNumber(w);
    assert DigitRun(w) == 0;
    assert !IsLiteral(w);
  }
}
