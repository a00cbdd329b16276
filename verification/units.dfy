/**
 * The unit table: the seven unit kinds, their synthetic lengths in seconds
 * (a working calendar: 8-hour days, 5-day weeks, 22-day months, 260-day
 * years), the spellings the parser recognises, and the words each output
 * style prints.
 */
module Units {
  import opened Wrappers
  import opened Text
  import opened Decimals

  datatype UnitKind = Second | Minute | Hour | Day | Week | Month | Year

  function Length(k: UnitKind): (r: nat)
    ensures r >= 1
  {
    match k
    case Second => 1
    case Minute => 60
    case Hour => 3600
    case Day => 8 * 3600
    case Week => 5 * 8 * 3600
    case Month => 22 * 8 * 3600
    case Year => 7488000
  }

  /** The calendar is built from 8-hour days; a year is exactly 260 days. */
  lemma SyntheticCalendar()
    ensures Length(Minute) == 60 * Length(Second)
    ensures Length(Hour) == 60 * Length(Minute)
    ensures Length(Day) == 8 * Length(Hour)
    ensures Length(Week) == 5 * Length(Day)
    ensures Length(Month) == 22 * Length(Day)
    ensures Length(Year) == 260 * Length(Day)
  {
  }

  /** An amount of one unit, as in "4.5 days". */
  datatype Term = Term(magnitude: Decimal, unit: UnitKind)

  /** The seconds one term stands for. */
  function TermSeconds(t: Term): (r: Decimal)
    ensures Value(r) == Value(t.magnitude) * Length(t.unit) as real
    ensures r.scale == t.magnitude.scale
  {
    Times(t.magnitude, Length(t.unit))
  }

  /** The seconds a list of terms stands for, as a real number. */
  function Seconds(ts: seq<Term>): real
  {
    if ts == [] then 0.0 else Value(ts[0].magnitude) * Length(ts[0].unit) as real + Seconds(ts[1..])
  }

  /** The most digits after the point any term has. */
  function MaxScale(ts: seq<Term>): nat
  {
    if ts == [] then 0 else Max(ts[0].magnitude.scale, MaxScale(ts[1..]))
  }

  /** Sum of the terms' seconds: exact, and written with as many digits as its most precise term. */
  function Total(ts: seq<Term>): (r: Decimal)
    ensures Value(r) == Seconds(ts)
    ensures r.scale == MaxScale(ts)
  {
    if ts == [] then Whole(0) else Add(TermSeconds(ts[0]), Total(ts[1..]))
  }

  lemma {:induction false} SecondsAppend(a: seq<Term>, b: seq<Term>)
    ensures Seconds(a + b) == Seconds(a) + Seconds(b)
    ensures MaxScale(a + b) == Max(MaxScale(a), MaxScale(b))
  {
    if a != [] {
      assert (a + b)[1..] == a[1..] + b;
      SecondsAppend(a[1..], b);
    } else {
      assert a + b == b;
    }
  }
  /** No term is worth less than nothing. */
  lemma {:induction false} SecondsNonNegative(ts: seq<Term>)
    ensures Seconds(ts) >= 0.0
  {
    if ts != [] {
      ValueZero(ts[0].magnitude);
      SecondsNonNegative(ts[1..]);
    }
  }

  /** The first n terms are worth at most all of them. */
  lemma SecondsPrefix(ts: seq<Term>, n: nat)
    requires n <= |ts|
    ensures Seconds(ts[..n]) <= Seconds(ts)
  {
    assert ts == ts[..n] + ts[n..];
    SecondsAppend(ts[..n], ts[n..]);
    SecondsNonNegative(ts[n..]);
  }


  /** The name every recognised spelling is rewritten to during cleanup. */
  function CanonicalName(k: UnitKind): string
  {
    match k
    case Second => "seconds"
    case Minute => "minutes"
    case Hour => "hours"
    case Day => "days"
    case Week => "weeks"
    case Month => "months"
    case Year => "years"
  }

  /**
   * The white list of unit spellings (lower case), each with the unit it
   * names. The table is grouped by initial letter.
   */
  function Lookup(w: string): (r: Option<UnitKind>)
    ensures r.Some? ==> |w| > 0 && AllLetters(w)
  {
    if w == [] then None
    else match w[0]
      case 's' => if w in {"seconds", "second", "secs", "sec", "s"} then Some(Second) else None
      case 'm' =>
        if w in {"minutes", "minute", "mins", "min", "m"} then Some(Minute)
        else if w in {"months", "month", "mos", "mo"} then Some(Month)
        else None
      case 'h' => if w in {"hours", "hour", "hrs", "hr", "h"} then Some(Hour) else None
      case 'd' => if w in {"days", "day", "dy", "d"} then Some(Day) else None
      case 'w' => if w in {"weeks", "week", "wks", "wk", "w"} then Some(Week) else None
      case 'y' => if w in {"years", "year", "yrs", "yr", "y"} then Some(Year) else None
      case _ => None
  }

  lemma CanonicalNameLookup(k: UnitKind)
    ensures Lookup(CanonicalName(k)) == Some(k)
  {
  }

  /** The five output styles. */
  datatype Format = Micro | Short | Default | Long | Chrono

  /** The unit word a non-chrono style prints, before pluralisation. */
  function UnitWord(k: UnitKind, f: Format): string
    requires f != Chrono
  {
    match f
    case Micro | Short =>
      (match k
       case Second => "s" case Minute => "min" case Hour => "h" case Day => "d"
       case Week => "w" case Month => "mo" case Year => "y")
    case Default =>
      (match k
       case Second => "sec" case Minute => "min" case Hour => "hr" case Day => "day"
       case Week => "wk" case Month => "mo" case Year => "yr")
    case Long =>
      (match k
       case Second => "second" case Minute => "minute" case Hour => "hour" case Day => "day"
       case Week => "week" case Month => "month" case Year => "year")
  }

  /** Default and long style add an "s" to every count other than exactly 1. */
  predicate Pluralizes(f: Format) { f == Default || f == Long }

  /** Micro and short style write the unit right after the number. */
  predicate SpacedUnit(f: Format) { f == Default || f == Long }

  function DisplayWord(k: UnitKind, f: Format, plural: bool): string
    requires f != Chrono
  {
    UnitWord(k, f) + (if plural && Pluralizes(f) then "s" else "")
  }

  /** Every word an output style prints is read back as the unit it came from. */
  lemma DisplayWordLookup(k: UnitKind, f: Format, plural: bool)
    requires f != Chrono
    ensures Lookup(DisplayWord(k, f, plural)) == Some(k)
  {
    if plural && Pluralizes(f) {
      assert DisplayWord(k, f, plural) == UnitWord(k, f) + "s";
      match f
      case Default => {
        match k
        case Second => assert UnitWord(k, f) + "s" == "secs";
        case Minute => assert UnitWord(k, f) + "s" == "mins";
        case Hour => assert UnitWord(k, f) + "s" == "hrs";
        case Day => assert UnitWord(k, f) + "s" == "days";
        case Week => assert UnitWord(k, f) + "s" == "wks";
        case Month => assert UnitWord(k, f) + "s" == "mos";
        case Year => assert UnitWord(k, f) + "s" == "yrs";
      }
      case Long => {
        match k
        case Second => assert UnitWord(k, f) + "s" == "seconds";
        case Minute => assert UnitWord(k, f) + "s" == "minutes";
        case Hour => assert UnitWord(k, f) + "s" == "hours";
        case Day => assert UnitWord(k, f) + "s" == "days";
        case Week => assert UnitWord(k, f) + "s" == "weeks";
        case Month => assert UnitWord(k, f) + "s" == "months";
        case Year => assert UnitWord(k, f) + "s" == "years";
      }
    } else {
      assert DisplayWord(k, f, plural) == UnitWord(k, f);
    }
  }
}
