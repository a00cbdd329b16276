/**
 * Splitting cleaned-up input into words. A numeric literal is a run of
 * digits, optionally followed by a point and at least one more digit ("12",
 * "3.141", ".5"); it always stands as a word of its own, even when no space separates it from a unit ("4min11.5s").
 * Every other maximal run of non-space characters is a word.
 */
module Lexer {
  import opened Text
  import opened Decimals

  /** Number of leading decimal digits. */
  function DigitRun(s: string): (n: nat)
    ensures n <= |s|
    ensures AllDigits(s[..n])
    ensures n < |s| ==> !IsDigit(s[n])
  {
    if s == [] || !IsDigit(s[0]) then 0
    else
      var n := 1 + DigitRun(s[1..]);
      assert s[..n] == [s[0]] + s[1..][..n - 1];
      n
  }

  /**
   * Length of the numeric literal at the front of `s` (0 if there is none):
   * digits, then a point and more digits if a digit follows the point.
   */
  function LiteralLength(s: string): (n: nat)
    ensures n <= |s|
  {
    var d := DigitRun(s);
    if d + 1 < |s| && s[d] == '.' && IsDigit(s[d + 1]) then d + 1 + DigitRun(s[d + 1..]) else d
  }

  predicate StartsLiteral(s: string) { LiteralLength(s) > 0 }

  predicate IsLiteral(w: string) { w != [] && LiteralLength(w) == |w| }

  /** A word that is not a literal and cannot run into one: no space, digit or point. */
  predicate IsWord(w: string)
  {
    w != [] && forall i | 0 <= i < |w| :: !IsSpace(w[i]) && !IsDigit(w[i]) && w[i] != '.'
  }

  /** The digits after the point of a literal that has one. */
  function FractionDigits(w: string): (f: string)
    requires IsLiteral(w) && DigitRun(w) < |w|
    ensures AllDigits(f) && |f| > 0
  {
    w[DigitRun(w) + 1..]
  }

  /** The exact value a literal denotes; it is a Float exactly when it has a point. */
  function LiteralValue(w: string): (r: Decimal)
    requires IsLiteral(w)
    ensures IsFloat(r) <==> '.' in w
  {
    var d := DigitRun(w);
    if d == |w| then
      assert forall i | 0 <= i < |w| :: w[i] != '.' by {
        assert w[..d] == w;
      }
      Decimal(DigitsValue(w), 0)
    else
      var f := FractionDigits(w);
      DigitsValueConcat(w[..d], f);
      assert w[d] == '.';
      Decimal(DigitsValue(w[..d] + f), |f|)
  }

  /**
   * A literal is worth its whole digits plus its fraction digits over the
   * matching power of ten ("007.50" is 7.5, ".5" is 0.5).
   */
  lemma LiteralValueDigits(w: string)
    requires IsLiteral(w)
    ensures Value(LiteralValue(w)) == DigitsValue(w[..DigitRun(w)]) as real +
      (if DigitRun(w) == |w| then 0.0 else DigitsValue(FractionDigits(w)) as real / Pow10(|FractionDigits(w)|) as real)
  {
    var d := DigitRun(w);
    if d == |w| {
      assert w[..d] == w;
    } else {
      var f := FractionDigits(w);
      DigitsValueConcat(w[..d], f);
      var i, n := DigitsValue(w[..d]), DigitsValue(f);
      assert LiteralValue(w) == Decimal(i * Pow10(|f|) + n, |f|);
      WholeAndFractionValue(i, n, |f|);
    }
  }

  /** Whole part and fraction written as one mantissa over a power of ten. */
  lemma WholeAndFractionValue(i: nat, f: nat, k: nat)
    ensures Value(Decimal(i * Pow10(k) + f, k)) == i as real + f as real / Pow10(k) as real
  {
    var p := Pow10(k);
    RealProduct(i, p);
    RealSplit(i as real, p as real, f as real);
  }

  lemma RealSplit(a: real, p: real, f: real)
    requires p > 0.0
    ensures (a * p + f) / p == a + f / p
  {
  }

  lemma {:induction false} DigitRunAllDigits(a: string, b: string)
    requires AllDigits(a)
    requires b == [] || !IsDigit(b[0])
    ensures DigitRun(a + b) == |a|
  {
    if a != [] {
      assert (a + b)[1..] == a[1..] + b;
      DigitRunAllDigits(a[1..], b);
    } else {
      assert a + b == b;
    }
  }

  lemma {:induction false} DigitRunStops(a: string, b: string)
    requires DigitRun(a) < |a|
    ensures DigitRun(a + b) == DigitRun(a)
  {
    if IsDigit(a[0]) {
      assert (a + b)[1..] == a[1..] + b;
      DigitRunStops(a[1..], b);
    }
  }

  /** A literal followed by something that cannot continue it is read as it is. */
  lemma LiteralLengthConcat(x: string, y: string)
    requires IsLiteral(x)
    requires y == [] || (!IsDigit(y[0]) && y[0] != '.')
    ensures LiteralLength(x + y) == |x|
  {
    var d := DigitRun(x);
    if d == |x| {
      assert x[..d] == x;
      DigitRunAllDigits(x, y);
    } else {
      DigitRunStops(x, y);
      var f := x[d + 1..];
      assert AllDigits(f) by {
        assert DigitRun(x[d + 1..]) == |x| - d - 1;
        assert x[d + 1..][..|f|] == f;
      }
      assert (x + y)[d + 1..] == f + y;
      DigitRunAllDigits(f, y);
    }
  }

  /** Length of the word at the front of `s`: up to a space or a literal. */
  function WordLength(s: string): (n: nat)
    requires s != [] && !IsSpace(s[0]) && !StartsLiteral(s)
    ensures 1 <= n <= |s|
  {
    if |s| == 1 || IsSpace(s[1]) || StartsLiteral(s[1..]) then 1 else 1 + WordLength(s[1..])
  }

  lemma {:induction false} WordLengthConcat(w: string, y: string)
    requires IsWord(w)
    requires y == [] || IsSpace(y[0]) || StartsLiteral(y)
    ensures (w + y)[0] == w[0]
    ensures !IsSpace((w + y)[0]) && !StartsLiteral(w + y)
    ensures WordLength(w + y) == |w|
  {
    NotLiteralStart(w, y);
    if |w| > 1 {
      assert (w + y)[1..] == w[1..] + y;
      WordLengthConcat(w[1..], y);
    } else {
      assert (w + y)[1..] == y;
    }
  }

  lemma NotLiteralStart(w: string, y: string)
    requires w != [] && !IsDigit(w[0]) && w[0] != '.'
    ensures !StartsLiteral(w + y)
  {
    assert (w + y)[0] == w[0];
  }

  /** The words of `s`, in order; whitespace only separates them. */
  function Lex(s: string): (ws: seq<string>)
    ensures forall i | 0 <= i < |ws| :: ws[i] != [] && NoSpace(ws[i])
    decreases |s|
  {
    if s == [] then []
    else if IsSpace(s[0]) then Lex(s[1..])
    else if StartsLiteral(s) then
      var n := LiteralLength(s);
      LexemeNoSpace(s, n);
      [s[..n]] + Lex(s[n..])
    else
      var n := WordLength(s);
      WordNoSpace(s);
      [s[..n]] + Lex(s[n..])
  }

  lemma LexemeNoSpace(s: string, n: nat)
    requires n == LiteralLength(s) && n > 0
    ensures NoSpace(s[..n])
  {
    var d := DigitRun(s);
    forall i | 0 <= i < n ensures !IsSpace(s[i]) {
      if i < d {
        assert s[..d][i] == s[i];
      } else if i > d {
        assert s[d + 1..][..DigitRun(s[d + 1..])][i - d - 1] == s[i];
      }
    }
  }

  lemma {:induction false} WordNoSpace(s: string)
    requires s != [] && !IsSpace(s[0]) && !StartsLiteral(s)
    ensures NoSpace(s[..WordLength(s)])
  {
    if !(|s| == 1 || IsSpace(s[1]) || StartsLiteral(s[1..])) {
      WordNoSpace(s[1..]);
      assert s[..WordLength(s)] == [s[0]] + s[1..][..WordLength(s[1..])];
    }
  }

  lemma LexSpace(c: char, y: string)
    requires IsSpace(c)
    ensures Lex([c] + y) == Lex(y)
  {
    assert ([c] + y)[1..] == y;
  }

  lemma LexLiteral(x: string, y: string)
    requires IsLiteral(x)
    requires y == [] || (!IsDigit(y[0]) && y[0] != '.')
    ensures Lex(x + y) == [x] + Lex(y)
  {
    LiteralLengthConcat(x, y);
    assert (x + y)[..|x|] == x;
    assert (x + y)[|x|..] == y;
  }

  lemma LexWord(w: string, y: string)
    requires IsWord(w)
    requires y == [] || IsSpace(y[0]) || StartsLiteral(y)
    ensures Lex(w + y) == [w] + Lex(y)
  {
    WordLengthConcat(w, y);
    assert (w + y)[..|w|] == w;
    assert (w + y)[|w|..] == y;
  }

  predicate AllSpace(s: string) { forall i | 0 <= i < |s| :: IsSpace(s[i]) }

  lemma {:induction false} LexSpaces(sp: string, y: string)
    requires AllSpace(sp)
    ensures Lex(sp + y) == Lex(y)
  {
    if sp != [] {
      assert sp + y == [sp[0]] + (sp[1..] + y);
      LexSpace(sp[0], sp[1..] + y);
      LexSpaces(sp[1..], y);
    } else {
      assert sp + y == y;
    }
  }

  lemma LiteralStarts(x: string, z: string)
    requires IsLiteral(x)
    ensures StartsLiteral(x + z)
  {
    assert (x + z)[0] == x[0];
    if !IsDigit(x[0]) {
      assert DigitRun(x) == 0;
      assert (x + z)[1] == x[1];
    }
  }

  /** How two adjacent words may be written: apart, or touching if one is a literal. */
  predicate Separates(sep: string, a: string, b: string)
  {
    || (sep != [] && AllSpace(sep))
    || (sep == [] && ((IsLiteral(a) && IsWord(b)) || (IsWord(a) && IsLiteral(b))))
  }

  predicate IsLexeme(w: string) { IsLiteral(w) || IsWord(w) }

  /** Words written one after another, with the separator that follows each. */
  datatype Phrase = Last(word: string) | Then(word: string, sep: string, rest: Phrase)

  function Render(p: Phrase): string
  {
    match p
    case Last(w) => w
    case Then(w, sep, r) => w + sep + Render(r)
  }

  function Words(p: Phrase): (ws: seq<string>)
    ensures |ws| > 0 && ws[0] == p.word
  {
    match p
    case Last(w) => [w]
    case Then(w, _, r) => [w] + Words(r)
  }

  /** Every word is a lexeme and every separator keeps its neighbours apart. */
  predicate WellSeparated(p: Phrase)
  {
    match p
    case Last(w) => IsLexeme(w)
    case Then(w, sep, r) => IsLexeme(w) && Separates(sep, w, r.word) && WellSeparated(r)
  }

  lemma RenderHead(p: Phrase) returns (tail: string)
    ensures Render(p) == p.word + tail
  {
    match p
    case Last(w) =>
      tail := [];
      assert w + [] == w;
    case Then(w, sep, r) =>
      tail := sep + Render(r);
  }

  lemma LexStep(a: string, sep: string, b: string, tail: string)
    requires IsLexeme(a) && IsLexeme(b) && Separates(sep, a, b)
    ensures Lex(a + sep + (b + tail)) == [a] + Lex(b + tail)
  {
    var rest := b + tail;
    var y := sep + rest;
    assert a + sep + rest == a + y;
    if sep == [] {
      assert y == rest;
      if IsLiteral(a) {
        assert y[0] == b[0];
        LexLiteral(a, y);
      } else {
        LiteralStarts(b, tail);
        LexWord(a, y);
      }
    } else {
      if IsLiteral(a) {
        LexLiteral(a, y);
      } else {
        LexWord(a, y);
      }
      LexSpaces(sep, rest);
    }
  }

  /** Lexing a well-separated phrase gives back its words. */
  lemma {:induction false} LexPhrase(p: Phrase)
    requires WellSeparated(p)
    ensures Lex(Render(p)) == Words(p)
  {
    match p
    case Last(w) =>
      if IsLiteral(w) {
        LexLiteral(w, []);
      } else {
        LexWord(w, []);
      }
      assert w + [] == w;
    case Then(w, sep, r) =>
      LexPhrase(r);
      var tail := RenderHead(r);
      LexStep(w, sep, r.word, tail);
  }
}
