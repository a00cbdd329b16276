/**
 * Characters and strings: ASCII classes, lower-casing, decimal digit strings,
 * padding, and joining/splitting on a separator.
 */
module Text {

  predicate IsDigit(c: char) { '0' <= c <= '9' }

  predicate IsUpper(c: char) { 'A' <= c <= 'Z' }

  predicate IsLetter(c: char) { 'a' <= c <= 'z' }

  /** The whitespace characters that separate words. */
  predicate IsSpace(c: char) { c == ' ' || c == '\t' || c == '\n' || c == '\r' }

  predicate AllDigits(s: string) { forall i | 0 <= i < |s| :: IsDigit(s[i]) }

  predicate AllLetters(s: string) { forall i | 0 <= i < |s| :: IsLetter(s[i]) }

  predicate NoUpper(s: string) { forall i | 0 <= i < |s| :: !IsUpper(s[i]) }

  predicate NoSpace(s: string) { forall i | 0 <= i < |s| :: !IsSpace(s[i]) }

  function LowerChar(c: char): (r: char)
    ensures !IsUpper(r)
    ensures IsUpper(c) ==> r as int == c as int + 32
    ensures !IsUpper(c) ==> r == c
  {
    if IsUpper(c) then (c as int + 32) as char else c
  }

  /** ASCII `downcase`. */
  function Lower(s: string): (r: string)
    ensures |r| == |s|
    ensures forall i | 0 <= i < |s| :: r[i] == LowerChar(s[i])
  {
    seq(|s|, i requires 0 <= i < |s| => LowerChar(s[i]))
  }

  lemma LowerConcat(a: string, b: string)
    ensures Lower(a + b) == Lower(a) + Lower(b)
  {
  }

  lemma LowerIdentity(s: string)
    requires NoUpper(s)
    ensures Lower(s) == s
  {
  }

  function DigitChar(d: nat): (c: char)
    requires d < 10
    ensures IsDigit(c)
  {
    ('0' as int + d) as char
  }

  function DigitValue(c: char): (d: nat)
    requires IsDigit(c)
    ensures d < 10
    ensures DigitChar(d) == c
  {
    c as int - '0' as int
  }

  function Pow10(k: nat): (p: nat)
    ensures p >= 1
  {
    if k == 0 then 1 else 10 * Pow10(k - 1)
  }

  lemma {:induction false} Pow10Add(i: nat, j: nat)
    ensures Pow10(i + j) == Pow10(i) * Pow10(j)
  {
    if i > 0 {
      Pow10Add(i - 1, j);
    }
  }

  lemma QuotientNat(m: nat, p: nat)
    requires p >= 1
    ensures m / p >= 0
  {
  }

  /** The value of a string of decimal digits, most significant first. */
  function DigitsValue(s: string): (n: nat)
    requires AllDigits(s)
  {
    if s == [] then 0 else DigitsValue(s[..|s| - 1]) * 10 + DigitValue(s[|s| - 1])
  }

  lemma {:induction false} DigitsValueConcat(a: string, b: string)
    requires AllDigits(a) && AllDigits(b)
    ensures AllDigits(a + b)
    ensures DigitsValue(a + b) == DigitsValue(a) * Pow10(|b|) + DigitsValue(b)
  {
    assert AllDigits(a + b) by {
      forall i | 0 <= i < |a + b| ensures IsDigit((a + b)[i]) {
        if i < |a| { assert (a + b)[i] == a[i]; } else { assert (a + b)[i] == b[i - |a|]; }
      }
    }
    if b == [] {
      assert a + b == a;
    } else {
      var b' := b[..|b| - 1];
      var c := b[|b| - 1];
      assert a + b == (a + b') + [c];
      DigitsValueConcat(a, b');
      LastDigit(a + b', c);
      LastDigit(b', c);
      assert b' + [c] == b;
      var x, p, y := DigitsValue(a), Pow10(|b'|), DigitsValue(b');
      assert DigitsValue(a + b) == (x * p + y) * 10 + DigitValue(c);
      assert DigitsValue(b) == y * 10 + DigitValue(c);
      assert Pow10(|b|) == p * 10;
      ShiftDecimal(x, p, y);
    }
  }

  lemma ShiftDecimal(x: int, p: int, y: int)
    ensures (x * p + y) * 10 == x * (p * 10) + y * 10
  {
  }

  lemma LastDigit(s: string, c: char)
    requires AllDigits(s) && IsDigit(c)
    ensures AllDigits(s + [c])
    ensures DigitsValue(s + [c]) == DigitsValue(s) * 10 + DigitValue(c)
  {
    assert (s + [c])[..|s|] == s;
  }

  /** A run of zeros in front of a digit string does not change its value. */
  lemma LeadingZerosValue(z: nat, s: string)
    requires AllDigits(s)
    ensures AllDigits(Zeros(z) + s)
    ensures DigitsValue(Zeros(z) + s) == DigitsValue(s)
  {
    ZerosValue(z);
    DigitsValueConcat(Zeros(z), s);
  }

  function Zeros(z: nat): (r: string)
    ensures |r| == z
    ensures forall i | 0 <= i < z :: r[i] == '0'
  {
    if z == 0 then [] else ['0'] + Zeros(z - 1)
  }

  lemma {:induction false} ZerosValue(z: nat)
    ensures AllDigits(Zeros(z)) && DigitsValue(Zeros(z)) == 0
  {
    if z > 0 {
      var r := Zeros(z);
      assert r[..z - 1] == Zeros(z - 1);
      ZerosValue(z - 1);
    }
  }

  /** The shortest decimal spelling of `n`. */
  function NatStr(n: nat): (s: string)
    ensures |s| > 0 && AllDigits(s)
    ensures n > 0 ==> s[0] != '0'
    ensures DigitsValue(s) == n
  {
    if n < 10 then [DigitChar(n)]
    else
      var p := NatStr(n / 10);
      var s := p + [DigitChar(n % 10)];
      assert s[..|s| - 1] == p;
      s
  }

  /** The decimal spelling of a number below a hundred, written out without recursion. */
  function SmallNatStr(n: nat): (s: string)
    requires n < 100
    ensures |s| > 0 && AllDigits(s)
    ensures n > 0 ==> s[0] != '0'
    ensures DigitsValue(s) == n
  {
    if n < 10 then [DigitChar(n)]
    else
      var s := [DigitChar(n / 10), DigitChar(n % 10)];
      assert s[..1] == [DigitChar(n / 10)];
      assert DigitsValue(s[..1]) == n / 10 by {
        assert [DigitChar(n / 10)][..0] == [];
      }
      s
  }

  lemma SmallNatStrIsNatStr(n: nat)
    requires n < 100
    ensures SmallNatStr(n) == NatStr(n)
  {
    if n >= 10 {
      assert NatStr(n / 10) == [DigitChar(n / 10)];
    }
  }

  /** `s` preceded by enough copies of `c` to make it `width` long. */
  function PadLeft(s: string, width: nat, c: char): (r: string)
    ensures |r| == if |s| < width then width else |s|
    ensures r == Repeat(c, |r| - |s|) + s
  {
    if |s| < width then Repeat(c, width - |s|) + s else s
  }

  function Repeat(c: char, k: nat): (r: string)
    ensures |r| == k
    ensures forall i | 0 <= i < k :: r[i] == c
  {
    if k == 0 then [] else [c] + Repeat(c, k - 1)
  }

  lemma RepeatZeros(k: nat)
    ensures Repeat('0', k) == Zeros(k)
  {
  }

  function Join(ws: seq<string>, sep: string): (r: string)
  {
    if ws == [] then []
    else if |ws| == 1 then ws[0]
    else ws[0] + sep + Join(ws[1..], sep)
  }

  /** The pieces of `s` between occurrences of `c`, empty pieces kept. */
  function Split(s: string, c: char): (ws: seq<string>)
    ensures |ws| > 0
  {
    if s == [] then [[]]
    else
      var rest := Split(s[1..], c);
      if s[0] == c then [[]] + rest else [[s[0]] + rest[0]] + rest[1..]
  }

  lemma {:induction false} SplitNoSeparator(s: string, c: char)
    requires forall i | 0 <= i < |s| :: s[i] != c
    ensures Split(s, c) == [s]
  {
    if s != [] {
      SplitNoSeparator(s[1..], c);
      assert [s[0]] + s[1..] == s;
    }
  }

  lemma {:induction false} SplitConcat(a: string, b: string, c: char)
    requires forall i | 0 <= i < |a| :: a[i] != c
    ensures Split(a + [c] + b, c) == [a] + Split(b, c)
  {
    if a == [] {
      assert a + [c] + b == [c] + b;
      assert ([c] + b)[1..] == b;
    } else {
      SplitConcat(a[1..], b, c);
      assert (a + [c] + b)[1..] == a[1..] + [c] + b;
      assert [a[0]] + a[1..] == a;
    }
  }

  /** Splitting a joined list on its one-character separator gives the list back. */
  lemma {:induction false} SplitJoin(ws: seq<string>, c: char)
    requires |ws| > 0
    requires forall k, i | 0 <= k < |ws| && 0 <= i < |ws[k]| :: ws[k][i] != c
    ensures Split(Join(ws, [c]), c) == ws
  {
    if |ws| == 1 {
      SplitNoSeparator(ws[0], c);
    } else {
      SplitJoin(ws[1..], c);
      SplitConcat(ws[0], Join(ws[1..], [c]), c);
      assert [ws[0]] + ws[1..] == ws;
    }
  }

  /** Every character of a join comes from a piece or from the separator. */
  lemma {:induction false} JoinChars(ws: seq<string>, sep: string, P: char -> bool)
    requires forall k, i | 0 <= k < |ws| && 0 <= i < |ws[k]| :: P(ws[k][i])
    requires forall i | 0 <= i < |sep| :: P(sep[i])
    ensures forall i | 0 <= i < |Join(ws, sep)| :: P(Join(ws, sep)[i])
  {
    if |ws| > 1 {
      JoinChars(ws[1..], sep, P);
      var r := Join(ws[1..], sep);
      assert Join(ws, sep) == ws[0] + sep + r;
      forall i | 0 <= i < |Join(ws, sep)| ensures P(Join(ws, sep)[i]) {
        if i < |ws[0]| {
          assert Join(ws, sep)[i] == ws[0][i];
        } else if i < |ws[0]| + |sep| {
          assert Join(ws, sep)[i] == sep[i - |ws[0]|];
        } else {
          assert Join(ws, sep)[i] == r[i - |ws[0]| - |sep|];
        }
      }
    } else if |ws| == 1 {
      assert Join(ws, sep) == ws[0];
    }
  }

  /** The string with every space character removed. */
  function RemoveSpaces(s: string): (r: string)
    ensures |r| <= |s|
    ensures NoSpace(s) ==> r == s
  {
    if s == [] then []
    else if s[0] == ' ' then RemoveSpaces(s[1..])
    else [s[0]] + RemoveSpaces(s[1..])
  }

  /** Two lists of words taken alternately: a[0], b[0], a[1], b[1], ... */
  function Interleave(xs: seq<string>, ys: seq<string>): (ws: seq<string>)
    requires |xs| == |ys|
    ensures |ws| == 2 * |xs|
    ensures forall i | 0 <= i < |xs| :: ws[2 * i] == xs[i] && ws[2 * i + 1] == ys[i]
    decreases |xs|
  {
    if xs == [] then []
    else
      var t := Interleave(xs[1..], ys[1..]);
      var ws := [xs[0], ys[0]] + t;
      forall i | 1 <= i < |xs| ensures ws[2 * i] == xs[i] && ws[2 * i + 1] == ys[i] {
        assert ws[2 * i] == t[2 * (i - 1)] && ws[2 * i + 1] == t[2 * (i - 1) + 1];
        assert xs[1..][i - 1] == xs[i] && ys[1..][i - 1] == ys[i];
      }
      ws
  }
}
