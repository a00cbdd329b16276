/**
 * `output`: a number of seconds broken down greedily into days, hours,
 * minutes and seconds (8-hour days; hours are the largest unit when
 * `limit_to_hours` is set), and written in one of five styles.
 */
module Formatter {
  import opened Wrappers
  import opened Text
  import opened Decimals
  import opened Units
  import opened Lexer

  /** The options `output` reads; `units: None` keeps every term. */
  datatype OutputOptions = OutputOptions(format: Format, keepZero: bool, limitToHours: bool, units: Option<nat>)

  const OutputDefaults := OutputOptions(Default, false, false, None)

  function WholePart(d: Decimal): nat
  {
    QuotientNat(d.mantissa, Pow10(d.scale));
    d.mantissa / Pow10(d.scale)
  }

  function FractionPart(d: Decimal): nat { d.mantissa % Pow10(d.scale) }

  /** A decimal is its whole part plus its fraction digits over 10^scale. */
  lemma WholeAndFraction(d: Decimal)
    ensures d.mantissa == WholePart(d) * Pow10(d.scale) + FractionPart(d)
    ensures FractionPart(d) < Pow10(d.scale)
  {
  }

  /** Adding a whole number `a` to the mantissa's whole part adds `a` to the value. */
  lemma ValueShift(a: nat, f: nat, s: nat)
    ensures Value(Decimal(a * Pow10(s) + f, s)) == a as real + Value(Decimal(f, s))
  {
    var p := Pow10(s);
    RealProduct(a, p);
    SplitQuotient(a as real, p as real, f as real);
  }

  lemma SplitQuotient(a: real, p: real, f: real)
    requires p > 0.0
    ensures (a * p + f) / p == a + f / p
  {
  }

  /** The fraction digits alone are worth less than one. */
  lemma FractionBelowOne(f: nat, s: nat)
    requires f < Pow10(s)
    ensures Value(Decimal(f, s)) < 1.0
  {
    var p := Pow10(s) as real;
    assert f as real < p;
    BelowOne(f as real, p);
  }

  lemma BelowOne(x: real, p: real)
    requires 0.0 <= x < p
    ensures x / p < 1.0
  {
  }

  /**
   * The value written with as many fraction digits as its scale: the whole part, then the
   * N fraction digits with their leading zeros. A whole number has no point.
   */
  function DecimalStr(d: Decimal): string
  {
    var w := NatStr(WholePart(d));
    if d.scale == 0 then w else w + "." + PadLeft(NatStr(FractionPart(d)), d.scale, '0')
  }

  /** The count as written is a number literal that reads back as the same decimal. */
  lemma DecimalStrLiteral(d: Decimal)
    ensures IsLiteral(DecimalStr(d))
    ensures LiteralValue(DecimalStr(d)) == d
  {
    if d.scale == 0 {
      var w := NatStr(WholePart(d));
      LiteralOfDigits(w);
      assert DigitsValue(w) == d.mantissa;
    } else {
      FractionLiteral(d);
    }
  }

  lemma FractionLiteral(d: Decimal)
    requires d.scale > 0
    ensures IsLiteral(NatStr(WholePart(d)) + "." + PadLeft(NatStr(FractionPart(d)), d.scale, '0'))
    ensures LiteralValue(NatStr(WholePart(d)) + "." + PadLeft(NatStr(FractionPart(d)), d.scale, '0')) == d
  {
    var w := NatStr(WholePart(d));
    var f := PadLeft(NatStr(FractionPart(d)), d.scale, '0');
    PaddedFraction(d);
    PointLiteral(w, f);
    WholeAndFraction(d);
    DigitsOfParts(w, f, WholePart(d), FractionPart(d), d.scale, d.mantissa);
  }

  lemma DigitsOfParts(w: string, f: string, x: nat, y: nat, k: nat, m: nat)
    requires AllDigits(w) && AllDigits(f) && DigitsValue(w) == x && DigitsValue(f) == y && |f| == k
    requires m == x * Pow10(k) + y
    ensures AllDigits(w + f) && DigitsValue(w + f) == m
  {
    DigitsValueConcat(w, f);
  }

  /** The fraction digits padded to the scale: exactly `scale` digits worth the fraction part. */
  lemma PaddedFraction(d: Decimal)
    requires d.scale > 0
    ensures |PadLeft(NatStr(FractionPart(d)), d.scale, '0')| == d.scale
    ensures AllDigits(PadLeft(NatStr(FractionPart(d)), d.scale, '0'))
    ensures DigitsValue(PadLeft(NatStr(FractionPart(d)), d.scale, '0')) == FractionPart(d)
  {
    var n := NatStr(FractionPart(d));
    WholeAndFraction(d);
    NatStrLength(FractionPart(d), d.scale);
    RepeatZeros(d.scale - |n|);
    LeadingZerosValue(d.scale - |n|, n);
  }

  /** A nonempty run of digits is a literal worth its digits. */
  lemma LiteralOfDigits(w: string)
    requires |w| > 0 && AllDigits(w)
    ensures IsLiteral(w)
    ensures LiteralValue(w) == Decimal(DigitsValue(w), 0)
  {
    DigitRunAllDigits(w, []);
    assert w + [] == w;
  }

  /** Digits, a point and more digits make a literal with as many fraction digits. */
  lemma PointLiteral(w: string, f: string)
    requires |w| > 0 && AllDigits(w) && |f| > 0 && AllDigits(f)
    ensures IsLiteral(w + "." + f)
    ensures DigitRun(w + "." + f) == |w|
    ensures LiteralValue(w + "." + f) == Decimal(DigitsValue(w + f), |f|)
  {
    var s := w + "." + f;
    assert s == w + ("." + f);
    DigitRunAllDigits(w, "." + f);
    assert s[|w|] == '.' && s[|w| + 1] == f[0];
    assert s[|w| + 1..] == f + [];
    DigitRunAllDigits(f, []);
    assert s[..|w|] == w;
    assert s[|w| + 1..] == f;
  }

  /** A number below 10^k has at most k digits. */
  lemma {:induction false} NatStrLength(n: nat, k: nat)
    requires n < Pow10(k)
    ensures |NatStr(n)| <= k || (n == 0 && k == 0)
  {
    if n >= 10 {
      NatStrLength(n / 10, k - 1);
    }
  }

  /** The greedy breakdown of a duration: whole days, hours and minutes, and the seconds left. */
  datatype Breakdown = Breakdown(days: nat, hours: nat, minutes: nat, seconds: Decimal)

  /** The seconds the whole-unit part of a breakdown stands for. */
  function WholeSeconds(b: Breakdown): nat
  {
    b.days * Length(Day) + b.hours * Length(Hour) + b.minutes * Length(Minute)
  }

  /**
   * Whole minutes are taken out of the seconds, whole hours out of the
   * minutes, and (unless `limitToHours`) whole 8-hour days out of the hours;
   * the seconds keep the fraction.
   */
  function BreakDown(d: Decimal, limitToHours: bool): (b: Breakdown)
    ensures Value(d) == WholeSeconds(b) as real + Value(b.seconds)
    ensures b.seconds.scale == d.scale
    ensures b.minutes < 60 && Value(b.seconds) < 60.0
    ensures limitToHours ==> b.days == 0
    ensures !limitToHours ==> b.hours < 8
  {
    var p := Pow10(d.scale);
    var w, f := WholePart(d), FractionPart(d);
    var m := w / 60;
    var s := Decimal((w % 60) * p + f, d.scale);
    var b := if limitToHours then Breakdown(0, m / 60, m % 60, s) else Breakdown(m / 60 / 8, m / 60 % 8, m % 60, s);
    BreakDownValue(d, b, w, m);
    b
  }

  lemma BreakDownValue(d: Decimal, b: Breakdown, w: nat, m: nat)
    requires w == WholePart(d) && m == w / 60
    requires b.seconds == Decimal((w % 60) * Pow10(d.scale) + FractionPart(d), d.scale)
    requires b.minutes == m % 60
    requires b.days * 8 + b.hours == m / 60
    ensures Value(d) == WholeSeconds(b) as real + Value(b.seconds)
    ensures Value(b.seconds) < 60.0
  {
    var s, f := d.scale, FractionPart(d);
    WholeAndFraction(d);
    ValueShift(w, f, s);
    ValueShift(w % 60, f, s);
    FractionBelowOne(f, s);
    assert w == 60 * m + w % 60;
    assert m == 60 * (m / 60) + m % 60;
    assert WholeSeconds(b) == 60 * m;
  }

  /** The terms a breakdown shows, largest unit first; zero counts are left out. */
  function Terms(b: Breakdown): (ts: seq<Term>)
    ensures |ts| <= 4
    ensures forall i | 0 <= i < |ts| :: ts[i].magnitude.mantissa != 0
  {
    Optional(b.days > 0, Term(Whole(b.days), Day))
    + Optional(b.hours > 0, Term(Whole(b.hours), Hour))
    + Optional(b.minutes > 0, Term(Whole(b.minutes), Minute))
    + Optional(b.seconds.mantissa > 0, Term(b.seconds, Second))
  }

  function Optional(keep: bool, t: Term): (ts: seq<Term>)
    ensures |ts| <= 1 && forall i | 0 <= i < |ts| :: keep && ts[i] == t
  {
    if keep then [t] else []
  }

  lemma OptionalSeconds(keep: bool, t: Term)
    ensures Seconds(Optional(keep, t)) == if keep then Value(t.magnitude) * Length(t.unit) as real else 0.0
    ensures MaxScale(Optional(keep, t)) == if keep then t.magnitude.scale else 0
  {
    if keep {
      assert Optional(keep, t)[1..] == [];
    }
  }

  lemma SecondsOfFour(a: seq<Term>, b: seq<Term>, c: seq<Term>, d: seq<Term>)
    ensures Seconds(a + b + c + d) == Seconds(a) + Seconds(b) + Seconds(c) + Seconds(d)
    ensures MaxScale(a + b + c + d) == Max(Max(Max(MaxScale(a), MaxScale(b)), MaxScale(c)), MaxScale(d))
  {
    SecondsAppend(a + b + c, d);
    SecondsAppend(a + b, c);
    SecondsAppend(a, b);
  }

  /** The shown terms are worth the whole breakdown, and their sum has the fraction digits of its seconds. */
  lemma TermsSeconds(b: Breakdown)
    ensures Seconds(Terms(b)) == WholeSeconds(b) as real + Value(b.seconds)
    ensures MaxScale(Terms(b)) == if b.seconds.mantissa > 0 then b.seconds.scale else 0
  {
    var td, th, tm, ts := Term(Whole(b.days), Day), Term(Whole(b.hours), Hour), Term(Whole(b.minutes), Minute), Term(b.seconds, Second);
    var a, c, d, e := Optional(b.days > 0, td), Optional(b.hours > 0, th), Optional(b.minutes > 0, tm), Optional(b.seconds.mantissa > 0, ts);
    assert Terms(b) == a + c + d + e;
    SecondsOfFour(a, c, d, e);
    WholeTermSeconds(b.days > 0, b.days, Day);
    WholeTermSeconds(b.hours > 0, b.hours, Hour);
    WholeTermSeconds(b.minutes > 0, b.minutes, Minute);
    SecondsTerm(b.seconds);
    WholeSecondsSum(b);
  }

  /** The seconds term, shown when nonzero, is worth the seconds. */
  lemma SecondsTerm(d: Decimal)
    ensures Seconds(Optional(d.mantissa > 0, Term(d, Second))) == Value(d)
    ensures MaxScale(Optional(d.mantissa > 0, Term(d, Second))) == if d.mantissa > 0 then d.scale else 0
  {
    OptionalSeconds(d.mantissa > 0, Term(d, Second));
    ValueZero(d);
  }

  lemma WholeSecondsSum(b: Breakdown)
    ensures WholeSeconds(b) as real == (b.days * Length(Day)) as real + (b.hours * Length(Hour)) as real + (b.minutes * Length(Minute)) as real
  {
  }

  /** A whole count of a unit, shown when nonzero, is worth count times the unit's length. */
  lemma WholeTermSeconds(keep: bool, n: nat, k: UnitKind)
    requires keep <==> n > 0
    ensures Seconds(Optional(keep, Term(Whole(n), k))) == (n * Length(k)) as real
    ensures MaxScale(Optional(keep, Term(Whole(n), k))) == 0
  {
    OptionalSeconds(keep, Term(Whole(n), k));
    ValueWhole(n);
    RealProduct(n, Length(k));
  }

  /**
   * A duration shows no term exactly when it is zero; otherwise the exact
   * total of the terms it shows is its canonical spelling.
   */
  lemma TermsTotal(x: Decimal, limitToHours: bool)
    ensures Terms(BreakDown(Normalize(x), limitToHours)) == [] <==> x.mantissa == 0
    ensures Terms(BreakDown(Normalize(x), limitToHours)) != [] ==>
      Total(Terms(BreakDown(Normalize(x), limitToHours))) == Normalize(x)
  {
    var n := Normalize(x);
    var b := BreakDown(n, limitToHours);
    var ts := Terms(b);
    TermsSeconds(b);
    ValueZero(x);
    ValueZero(n);
    TermsEmpty(b);
    if ts != [] {
      if b.seconds.mantissa > 0 {
        SameScaleSameValue(Total(ts), n);
      } else {
        CanonicalUnique(Total(ts), n);
      }
    }
  }

  /** A breakdown shows no term exactly when it is worth nothing. */
  lemma TermsEmpty(b: Breakdown)
    ensures Terms(b) == [] <==> WholeSeconds(b) as real + Value(b.seconds) == 0.0
  {
    ValueZero(b.seconds);
    var d, h, m := b.days * Length(Day), b.hours * Length(Hour), b.minutes * Length(Minute);
    assert d == 0 <==> b.days == 0;
    assert h == 0 <==> b.hours == 0;
    assert m == 0 <==> b.minutes == 0;
  }


  /** The terms `output` writes: a kept zero is "0 seconds"; `units: n` keeps the first n. */
  function Shown(b: Breakdown, opts: OutputOptions): (ts: seq<Term>)
  {
    Limit(Listed(b, opts.keepZero), opts.units)
  }

  /** Every term of a breakdown, or "0 seconds" for a kept zero. */
  function Listed(b: Breakdown, keepZero: bool): (ts: seq<Term>)
  {
    if Terms(b) == [] && keepZero then [Term(Whole(0), Second)] else Terms(b)
  }

  /** `units: n` keeps the first n terms. */
  function Limit(ts: seq<Term>, units: Option<nat>): (r: seq<Term>)
    ensures |r| == match units case None => |ts| case Some(n) => if n < |ts| then n else |ts|
    ensures r == ts[..|r|]
  {
    match units
    case None => ts
    case Some(n) => if n < |ts| then ts[..n] else ts
  }

  /** `output` shows nothing for a zero it is not told to keep, or when asked for no units. */
  lemma ShownEmpty(x: Decimal, opts: OutputOptions)
    ensures Shown(BreakDown(Normalize(x), opts.limitToHours), opts) == [] <==>
      (x.mantissa == 0 && !opts.keepZero) || opts.units == Some(0)
  {
    TermsTotal(x, opts.limitToHours);
  }

  /** The terms `output` shows are worth at most the duration. */
  lemma ShownSeconds(x: Decimal, opts: OutputOptions)
    ensures Seconds(Shown(BreakDown(Normalize(x), opts.limitToHours), opts)) <= Value(x)
  {
    var b := BreakDown(Normalize(x), opts.limitToHours);
    var all := Listed(b, opts.keepZero);
    SecondsPrefix(all, |Shown(b, opts)|);
    ListedSeconds(b, opts.keepZero);
  }

  /** Listing a breakdown loses nothing: its terms are worth all of it. */
  lemma ListedSeconds(b: Breakdown, keepZero: bool)
    ensures Seconds(Listed(b, keepZero)) == WholeSeconds(b) as real + Value(b.seconds)
  {
    TermsSeconds(b);
    if Terms(b) == [] && keepZero {
      var z := [Term(Whole(0), Second)];
      assert z[1..] == [];
      assert Seconds(z) == 0.0;
    }
  }

  /** One term as a word style writes it: the count, then the unit word, pluralised unless the count is exactly 1. */
  function Humanize(t: Term, f: Format): string
    requires f != Chrono
  {
    DecimalStr(t.magnitude) + (if SpacedUnit(f) then " " else "") + DisplayWord(t.unit, f, t.magnitude != Whole(1))
  }

  /** The terms as a word style writes them, in order; `RoundTrip.ParseRendered` reads them back. */
  function HumanizeAll(ts: seq<Term>, f: Format): seq<string>
    requires f != Chrono
  {
    seq(|ts|, i requires 0 <= i < |ts| => Humanize(ts[i], f))
  }

  /** Micro style runs the terms together; the others put a space between them. */
  function Joiner(f: Format): string { if f == Micro then "" else " " }

  /** A clock group: at least two digits, with leading zeros. */
  function Pad2(n: nat): string { PadLeft(NatStr(n), 2, '0') }

  /** The seconds group: its whole part padded to two digits, then its fraction as written. */
  function SecondsGroup(d: Decimal): string
  {
    var w := NatStr(WholePart(d));
    Repeat('0', if |w| < 2 then 2 - |w| else 0) + DecimalStr(d)
  }

  /** The chrono groups of a breakdown, days first. */
  function ChronoGroups(b: Breakdown): (gs: seq<string>)
    ensures |gs| == 4
  {
    [Pad2(b.days), Pad2(b.hours), Pad2(b.minutes), SecondsGroup(b.seconds)]
  }

  /** Every leading "00:" group is dropped. */
  function StripZeroGroups(s: string): (r: string)
    ensures |r| <= |s|
  {
    if |s| >= 3 && s[..3] == "00:" then StripZeroGroups(s[3..]) else s
  }

  /** One leading zero is dropped. */
  function DropLeadingZero(s: string): (r: string)
  {
    if |s| > 0 && s[0] == '0' then s[1..] else s
  }

  /** Chrono style: the groups joined by colons, with the leading zeros taken off. */
  function ChronoText(b: Breakdown): string
  {
    DropLeadingZero(StripZeroGroups(Join(ChronoGroups(b), ":")))
  }

  /**
   * `output`. The value is first put in its canonical spelling (a Float
   * with no fractional part prints as an Integer). Chrono style always
   * writes something; the other styles give None (nil) when no term is left.
   */
  function Output(x: Decimal, opts: OutputOptions): (r: Option<string>)
    ensures r.None? <==> opts.format != Chrono && ((x.mantissa == 0 && !opts.keepZero) || opts.units == Some(0))
  {
    ShownEmpty(x, opts);
    var b := BreakDown(Normalize(x), opts.limitToHours);
    if opts.format == Chrono then Some(ChronoText(b))
    else
      var ts := Shown(b, opts);
      if ts == [] then None else Some(Join(HumanizeAll(ts, opts.format), Joiner(opts.format)))
  }
}
