/**
 * The `output` exemplars: durations and what each style writes for them.
 * Each is proved from the general definitions: the breakdown of the
 * value, the terms shown, and the words written for each term.
 */
module OutputExamples {
  import opened Wrappers
  import opened Text
  import opened Decimals
  import opened Units
  import opened Formatter
  import opened ChronoTrip

  /** `output` with only the format given. */
  function Style(f: Format): OutputOptions { OutputOptions(f, false, false, None) }

  /** A whole count is written as its digits. */
  lemma WholeStr(n: nat)
    ensures DecimalStr(Whole(n)) == NatStr(n)
  {
  }

  /** A count with a fraction is written as its whole part, a point and its padded fraction digits. */
  lemma FractionStr(d: Decimal)
    requires d.scale > 0
    ensures DecimalStr(d) == NatStr(WholePart(d)) + "." + PadLeft(NatStr(FractionPart(d)), d.scale, '0')
  {
  }

  lemma HumanizeWhole(n: nat, k: UnitKind, f: Format)
    requires f != Chrono
    ensures Humanize(Term(Whole(n), k), f) == NatStr(n) + (if SpacedUnit(f) then " " else "") + DisplayWord(k, f, n != 1)
  {
    WholeStr(n);
  }

  lemma HumanizeFraction(d: Decimal, k: UnitKind, f: Format, s: string, out: string)
    requires f != Chrono && d.scale > 0 && DecimalStr(d) == s
    requires out == s + (if SpacedUnit(f) then " " else "") + DisplayWord(k, f, true)
    ensures Humanize(Term(d, k), f) == out
  {
  }

  /** Outside chrono style, `output` joins the humanized terms it shows. */
  lemma OutputShown(x: Decimal, opts: OutputOptions, ts: seq<Term>)
    requires opts.format != Chrono && ts != []
    requires Shown(BreakDown(Normalize(x), opts.limitToHours), opts) == ts
    ensures Output(x, opts) == Some(Join(HumanizeAll(ts, opts.format), Joiner(opts.format)))
  {
  }

  /** A kept zero is shown as zero seconds. */
  lemma ShownZero(f: Format)
    ensures Shown(Breakdown(0, 0, 0, Whole(0)), OutputOptions(f, true, false, None)) == [Term(Whole(0), Second)]
  {
    assert Terms(Breakdown(0, 0, 0, Whole(0))) == [];
  }

  lemma JoinOneTerm(ts: seq<Term>, f: Format)
    requires |ts| == 1 && f != Chrono
    ensures Join(HumanizeAll(ts, f), Joiner(f)) == Humanize(ts[0], f)
  {
  }

  lemma JoinTwoTerms(ts: seq<Term>, f: Format)
    requires |ts| == 2 && f != Chrono
    ensures Join(HumanizeAll(ts, f), Joiner(f)) == Humanize(ts[0], f) + Joiner(f) + Humanize(ts[1], f)
  {
    var hs := HumanizeAll(ts, f);
    assert hs[1..] == [hs[1]];
  }

  lemma JoinThreeTerms(ts: seq<Term>, f: Format)
    requires |ts| == 3 && f != Chrono
    ensures Join(HumanizeAll(ts, f), Joiner(f)) ==
      Humanize(ts[0], f) + Joiner(f) + Humanize(ts[1], f) + Joiner(f) + Humanize(ts[2], f)
  {
    JoinThree(HumanizeAll(ts, f), Joiner(f));
  }

  lemma JoinThree(hs: seq<string>, j: string)
    requires |hs| == 3
    ensures Join(hs, j) == hs[0] + j + hs[1] + j + hs[2]
  {
    assert hs[1..][1..] == [hs[2]];
    assert Join(hs[1..], j) == hs[1] + j + hs[2];
  }

  /** A clock group below ten gets one leading zero. */
  lemma Pad2Small(n: nat)
    requires n < 10
    ensures Pad2(n) == ['0', DigitChar(n)]
  {
  }

  /** A clock group of ten or more is written as it is. */
  lemma Pad2Of(n: nat)
    requires n >= 10
    ensures Pad2(n) == NatStr(n)
  {
  }

  lemma SecondsGroupWhole(n: nat)
    ensures SecondsGroup(Whole(n)) == Pad2(n)
  {
    WholeStr(n);
  }

  lemma SecondsGroupFraction(d: Decimal)
    requires WholePart(d) >= 10
    ensures SecondsGroup(d) == DecimalStr(d)
  {
    assert |NatStr(WholePart(d))| >= 2;
  }

  lemma StripStop(s: string)
    requires |s| >= 2 && (s[0] != '0' || s[1] != '0')
    ensures StripZeroGroups(s) == s
  {
    if |s| >= 3 {
      assert s[..3][0] == s[0] && s[..3][1] == s[1];
    }
  }

  lemma DecimalStr20Point51()
    ensures DecimalStr(Decimal(2051, 2)) == "20.51"
  {
    FractionStr(Decimal(2051, 2));
    FractionText20Point51();
  }

  lemma FractionText20Point51()
    ensures NatStr(WholePart(Decimal(2051, 2))) + "." + PadLeft(NatStr(FractionPart(Decimal(2051, 2))), 2, '0') == "20.51"
  {
    assert WholePart(Decimal(2051, 2)) == 20 && FractionPart(Decimal(2051, 2)) == 51;
    Digits20();
    Digits51();
    assert PadLeft("51", 2, '0') == "51";
  }

  lemma DecimalStr20Point51928()
    ensures DecimalStr(Decimal(2051928, 5)) == "20.51928"
  {
    FractionStr(Decimal(2051928, 5));
    FractionText20Point51928();
  }

  lemma FractionText20Point51928()
    ensures NatStr(WholePart(Decimal(2051928, 5))) + "." + PadLeft(NatStr(FractionPart(Decimal(2051928, 5))), 5, '0') == "20.51928"
  {
    assert WholePart(Decimal(2051928, 5)) == 20 && FractionPart(Decimal(2051928, 5)) == 51928;
    Digits20();
    Digits51928();
    assert PadLeft("51928", 5, '0') == "51928";
  }

  lemma Digits15()
    ensures NatStr(15) == "15"
  {
  }

  lemma Pad2Of15()
    ensures Pad2(15) == "15"
  {
    Pad2Of(15);
    Digits15();
  }

  lemma Digits20()
    ensures NatStr(20) == "20"
  {
  }

  lemma Pad2Of20()
    ensures Pad2(20) == "20"
  {
    Pad2Of(20);
    Digits20();
  }

  lemma Digits51()
    ensures NatStr(51) == "51"
  {
  }

  lemma Pad2Of51()
    ensures Pad2(51) == "51"
  {
    Pad2Of(51);
    Digits51();
  }

  lemma Digits133()
    ensures NatStr(133) == "133"
  {
  }

  lemma Pad2Of133()
    ensures Pad2(133) == "133"
  {
    Pad2Of(133);
    Digits133();
  }

  lemma Digits261()
    ensures NatStr(261) == "261"
  {
  }

  lemma Pad2Of261()
    ensures Pad2(261) == "261"
  {
    Pad2Of(261);
    Digits261();
  }

  lemma Digits396()
    ensures NatStr(396) == "396"
  {
  }

  lemma Pad2Of396()
    ensures Pad2(396) == "396"
  {
    Pad2Of(396);
    Digits396();
  }

  lemma Digits781()
    ensures NatStr(781) == "781"
  {
  }

  lemma Pad2Of781()
    ensures Pad2(781) == "781"
  {
    Pad2Of(781);
    Digits781();
  }

  lemma Digits9480()
    ensures NatStr(9480) == "9480"
  {
  }

  lemma Pad2Of9480()
    ensures Pad2(9480) == "9480"
  {
    Pad2Of(9480);
    Digits9480();
  }

  lemma Digits51928()
    ensures NatStr(51928) == "51928"
  {
  }

  lemma Pad2Of51928()
    ensures Pad2(51928) == "51928"
  {
    Pad2Of(51928);
    Digits51928();
  }

  lemma Words0SecondMicro()
    ensures Humanize(Term(Whole(0), Second), Micro) == "0s"
  {
    HumanizeWhole(0, Second, Micro);
  }

  lemma Words0SecondShort()
    ensures Humanize(Term(Whole(0), Second), Short) == "0s"
  {
    HumanizeWhole(0, Second, Short);
  }

  lemma Words0SecondDefault()
    ensures Humanize(Term(Whole(0), Second), Default) == "0 secs"
  {
    HumanizeWhole(0, Second, Default);
  }

  lemma Words0SecondLong()
    ensures Humanize(Term(Whole(0), Second), Long) == "0 seconds"
  {
    HumanizeWhole(0, Second, Long);
  }

  lemma Words133DayMicro()
    ensures Humanize(Term(Whole(133), Day), Micro) == "133d"
  {
    HumanizeWhole(133, Day, Micro);
    Digits133();
  }

  lemma Words133DayShort()
    ensures Humanize(Term(Whole(133), Day), Short) == "133d"
  {
    HumanizeWhole(133, Day, Short);
    Digits133();
  }

  lemma Words133DayDefault()
    ensures Humanize(Term(Whole(133), Day), Default) == "133 days"
  {
    HumanizeWhole(133, Day, Default);
    Digits133();
  }

  lemma Words133DayLong()
    ensures Humanize(Term(Whole(133), Day), Long) == "133 days"
  {
    HumanizeWhole(133, Day, Long);
    Digits133();
  }

  lemma Words15MinuteDefault()
    ensures Humanize(Term(Whole(15), Minute), Default) == "15 mins"
  {
    HumanizeWhole(15, Minute, Default);
    Digits15();
  }

  lemma Words1HourLong()
    ensures Humanize(Term(Whole(1), Hour), Long) == "1 hour"
  {
    HumanizeWhole(1, Hour, Long);
  }

  lemma Words1MinuteMicro()
    ensures Humanize(Term(Whole(1), Minute), Micro) == "1min"
  {
    HumanizeWhole(1, Minute, Micro);
  }

  lemma Words1MinuteShort()
    ensures Humanize(Term(Whole(1), Minute), Short) == "1min"
  {
    HumanizeWhole(1, Minute, Short);
  }

  lemma Words1MinuteDefault()
    ensures Humanize(Term(Whole(1), Minute), Default) == "1 min"
  {
    HumanizeWhole(1, Minute, Default);
  }

  lemma Words1MinuteLong()
    ensures Humanize(Term(Whole(1), Minute), Long) == "1 minute"
  {
    HumanizeWhole(1, Minute, Long);
  }

  lemma Words1SecondMicro()
    ensures Humanize(Term(Whole(1), Second), Micro) == "1s"
  {
    HumanizeWhole(1, Second, Micro);
  }

  lemma Words1SecondShort()
    ensures Humanize(Term(Whole(1), Second), Short) == "1s"
  {
    HumanizeWhole(1, Second, Short);
  }

  lemma Words1SecondDefault()
    ensures Humanize(Term(Whole(1), Second), Default) == "1 sec"
  {
    HumanizeWhole(1, Second, Default);
  }

  lemma Words1SecondLong()
    ensures Humanize(Term(Whole(1), Second), Long) == "1 second"
  {
    HumanizeWhole(1, Second, Long);
  }

  lemma Words20MinuteMicro()
    ensures Humanize(Term(Whole(20), Minute), Micro) == "20min"
  {
    HumanizeWhole(20, Minute, Micro);
    Digits20();
  }

  lemma Words20MinuteShort()
    ensures Humanize(Term(Whole(20), Minute), Short) == "20min"
  {
    HumanizeWhole(20, Minute, Short);
    Digits20();
  }

  lemma Words20MinuteDefault()
    ensures Humanize(Term(Whole(20), Minute), Default) == "20 mins"
  {
    HumanizeWhole(20, Minute, Default);
    Digits20();
  }

  lemma Words20MinuteLong()
    ensures Humanize(Term(Whole(20), Minute), Long) == "20 minutes"
  {
    HumanizeWhole(20, Minute, Long);
    Digits20();
  }

  lemma Words20Point51928SecondMicro()
    ensures Humanize(Term(Decimal(2051928, 5), Second), Micro) == "20.51928s"
  {
    DecimalStr20Point51928();
    HumanizeFraction(Decimal(2051928, 5), Second, Micro, "20.51928", "20.51928s");
  }

  lemma Words20Point51928SecondShort()
    ensures Humanize(Term(Decimal(2051928, 5), Second), Short) == "20.51928s"
  {
    DecimalStr20Point51928();
    HumanizeFraction(Decimal(2051928, 5), Second, Short, "20.51928", "20.51928s");
  }

  lemma Words20Point51928SecondDefault()
    ensures Humanize(Term(Decimal(2051928, 5), Second), Default) == "20.51928 secs"
  {
    DecimalStr20Point51928();
    HumanizeFraction(Decimal(2051928, 5), Second, Default, "20.51928", "20.51928 secs");
  }

  lemma Words20Point51928SecondLong()
    ensures Humanize(Term(Decimal(2051928, 5), Second), Long) == "20.51928 seconds"
  {
    DecimalStr20Point51928();
    HumanizeFraction(Decimal(2051928, 5), Second, Long, "20.51928", "20.51928 seconds");
  }

  lemma Words20Point51SecondMicro()
    ensures Humanize(Term(Decimal(2051, 2), Second), Micro) == "20.51s"
  {
    DecimalStr20Point51();
    HumanizeFraction(Decimal(2051, 2), Second, Micro, "20.51", "20.51s");
  }

  lemma Words20Point51SecondShort()
    ensures Humanize(Term(Decimal(2051, 2), Second), Short) == "20.51s"
  {
    DecimalStr20Point51();
    HumanizeFraction(Decimal(2051, 2), Second, Short, "20.51", "20.51s");
  }

  lemma Words20Point51SecondDefault()
    ensures Humanize(Term(Decimal(2051, 2), Second), Default) == "20.51 secs"
  {
    DecimalStr20Point51();
    HumanizeFraction(Decimal(2051, 2), Second, Default, "20.51", "20.51 secs");
  }

  lemma Words20Point51SecondLong()
    ensures Humanize(Term(Decimal(2051, 2), Second), Long) == "20.51 seconds"
  {
    DecimalStr20Point51();
    HumanizeFraction(Decimal(2051, 2), Second, Long, "20.51", "20.51 seconds");
  }

  lemma Words20SecondMicro()
    ensures Humanize(Term(Whole(20), Second), Micro) == "20s"
  {
    HumanizeWhole(20, Second, Micro);
    Digits20();
  }

  lemma Words20SecondShort()
    ensures Humanize(Term(Whole(20), Second), Short) == "20s"
  {
    HumanizeWhole(20, Second, Short);
    Digits20();
  }

  lemma Words20SecondDefault()
    ensures Humanize(Term(Whole(20), Second), Default) == "20 secs"
  {
    HumanizeWhole(20, Second, Default);
    Digits20();
  }

  lemma Words20SecondLong()
    ensures Humanize(Term(Whole(20), Second), Long) == "20 seconds"
  {
    HumanizeWhole(20, Second, Long);
    Digits20();
  }

  lemma Words261DayMicro()
    ensures Humanize(Term(Whole(261), Day), Micro) == "261d"
  {
    HumanizeWhole(261, Day, Micro);
    Digits261();
  }

  lemma Words261DayShort()
    ensures Humanize(Term(Whole(261), Day), Short) == "261d"
  {
    HumanizeWhole(261, Day, Short);
    Digits261();
  }

  lemma Words261DayDefault()
    ensures Humanize(Term(Whole(261), Day), Default) == "261 days"
  {
    HumanizeWhole(261, Day, Default);
    Digits261();
  }

  lemma Words261DayLong()
    ensures Humanize(Term(Whole(261), Day), Long) == "261 days"
  {
    HumanizeWhole(261, Day, Long);
    Digits261();
  }

  lemma Words2HourMicro()
    ensures Humanize(Term(Whole(2), Hour), Micro) == "2h"
  {
    HumanizeWhole(2, Hour, Micro);
  }

  lemma Words2HourShort()
    ensures Humanize(Term(Whole(2), Hour), Short) == "2h"
  {
    HumanizeWhole(2, Hour, Short);
  }

  lemma Words2HourDefault()
    ensures Humanize(Term(Whole(2), Hour), Default) == "2 hrs"
  {
    HumanizeWhole(2, Hour, Default);
  }

  lemma Words2HourLong()
    ensures Humanize(Term(Whole(2), Hour), Long) == "2 hours"
  {
    HumanizeWhole(2, Hour, Long);
  }

  lemma Words396DayMicro()
    ensures Humanize(Term(Whole(396), Day), Micro) == "396d"
  {
    HumanizeWhole(396, Day, Micro);
    Digits396();
  }

  lemma Words396DayShort()
    ensures Humanize(Term(Whole(396), Day), Short) == "396d"
  {
    HumanizeWhole(396, Day, Short);
    Digits396();
  }

  lemma Words396DayDefault()
    ensures Humanize(Term(Whole(396), Day), Default) == "396 days"
  {
    HumanizeWhole(396, Day, Default);
    Digits396();
  }

  lemma Words396DayLong()
    ensures Humanize(Term(Whole(396), Day), Long) == "396 days"
  {
    HumanizeWhole(396, Day, Long);
    Digits396();
  }

  lemma Words4HourMicro()
    ensures Humanize(Term(Whole(4), Hour), Micro) == "4h"
  {
    HumanizeWhole(4, Hour, Micro);
  }

  lemma Words4HourShort()
    ensures Humanize(Term(Whole(4), Hour), Short) == "4h"
  {
    HumanizeWhole(4, Hour, Short);
  }

  lemma Words4HourDefault()
    ensures Humanize(Term(Whole(4), Hour), Default) == "4 hrs"
  {
    HumanizeWhole(4, Hour, Default);
  }

  lemma Words4HourLong()
    ensures Humanize(Term(Whole(4), Hour), Long) == "4 hours"
  {
    HumanizeWhole(4, Hour, Long);
  }

  lemma Words781DayMicro()
    ensures Humanize(Term(Whole(781), Day), Micro) == "781d"
  {
    HumanizeWhole(781, Day, Micro);
    Digits781();
  }

  lemma Words781DayShort()
    ensures Humanize(Term(Whole(781), Day), Short) == "781d"
  {
    HumanizeWhole(781, Day, Short);
    Digits781();
  }

  lemma Words781DayDefault()
    ensures Humanize(Term(Whole(781), Day), Default) == "781 days"
  {
    HumanizeWhole(781, Day, Default);
    Digits781();
  }

  lemma Words781DayLong()
    ensures Humanize(Term(Whole(781), Day), Long) == "781 days"
  {
    HumanizeWhole(781, Day, Long);
    Digits781();
  }

  lemma Words9480HourDefault()
    ensures Humanize(Term(Whole(9480), Hour), Default) == "9480 hrs"
  {
    HumanizeWhole(9480, Hour, Default);
    Digits9480();
  }

  lemma BreakDown80()
    ensures BreakDown(Normalize(Whole(80)), false) == Breakdown(0, 0, 1, Whole(20))
  {
    NormalizeCanonical(Whole(80), Whole(80));
  }

  lemma Output80(f: Format)
    requires f != Chrono
    ensures Output(Whole(80), Style(f)) == Some(Humanize(Term(Whole(1), Minute), f) + Joiner(f) + Humanize(Term(Whole(20), Second), f))
  {
    var ts := [Term(Whole(1), Minute), Term(Whole(20), Second)];
    assert Shown(Breakdown(0, 0, 1, Whole(20)), Style(f)) == ts;
    BreakDown80();
    OutputShown(Whole(80), Style(f), ts);
    JoinTwoTerms(ts, f);
  }

  lemma Output80Micro()
    ensures Output(Whole(80), Style(Micro)) == Some(Humanize(Term(Whole(1), Minute), Micro) + Joiner(Micro) + Humanize(Term(Whole(20), Second), Micro))
  {
    Output80(Micro);
  }

  lemma Glue80Micro(h1: string, h2: string)
    requires h1 == "1min" && h2 == "20s"
    ensures h1 + Joiner(Micro) + h2 == "1min20s"
  {
  }

  lemma Text80Micro()
    ensures Humanize(Term(Whole(1), Minute), Micro) + Joiner(Micro) + Humanize(Term(Whole(20), Second), Micro) == "1min20s"
  {
    Words1MinuteMicro();
    Words20SecondMicro();
    Glue80Micro(Humanize(Term(Whole(1), Minute), Micro), Humanize(Term(Whole(20), Second), Micro));
  }

  lemma Example80Micro()
    ensures Output(Whole(80), Style(Micro)) == Some("1min20s")
  {
    Output80Micro();
    Text80Micro();
  }

  lemma Output80Short()
    ensures Output(Whole(80), Style(Short)) == Some(Humanize(Term(Whole(1), Minute), Short) + Joiner(Short) + Humanize(Term(Whole(20), Second), Short))
  {
    Output80(Short);
  }

  lemma Glue80Short(h1: string, h2: string)
    requires h1 == "1min" && h2 == "20s"
    ensures h1 + Joiner(Short) + h2 == "1min 20s"
  {
  }

  lemma Text80Short()
    ensures Humanize(Term(Whole(1), Minute), Short) + Joiner(Short) + Humanize(Term(Whole(20), Second), Short) == "1min 20s"
  {
    Words1MinuteShort();
    Words20SecondShort();
    Glue80Short(Humanize(Term(Whole(1), Minute), Short), Humanize(Term(Whole(20), Second), Short));
  }

  lemma Example80Short()
    ensures Output(Whole(80), Style(Short)) == Some("1min 20s")
  {
    Output80Short();
    Text80Short();
  }

  lemma Output80Default()
    ensures Output(Whole(80), Style(Default)) == Some(Humanize(Term(Whole(1), Minute), Default) + Joiner(Default) + Humanize(Term(Whole(20), Second), Default))
  {
    Output80(Default);
  }

  lemma Glue80Default(h1: string, h2: string)
    requires h1 == "1 min" && h2 == "20 secs"
    ensures h1 + Joiner(Default) + h2 == "1 min 20 secs"
  {
  }

  lemma Text80Default()
    ensures Humanize(Term(Whole(1), Minute), Default) + Joiner(Default) + Humanize(Term(Whole(20), Second), Default) == "1 min 20 secs"
  {
    Words1MinuteDefault();
    Words20SecondDefault();
    Glue80Default(Humanize(Term(Whole(1), Minute), Default), Humanize(Term(Whole(20), Second), Default));
  }

  lemma Example80Default()
    ensures Output(Whole(80), Style(Default)) == Some("1 min 20 secs")
  {
    Output80Default();
    Text80Default();
  }

  lemma Output80Long()
    ensures Output(Whole(80), Style(Long)) == Some(Humanize(Term(Whole(1), Minute), Long) + Joiner(Long) + Humanize(Term(Whole(20), Second), Long))
  {
    Output80(Long);
  }

  lemma Glue80Long(h1: string, h2: string)
    requires h1 == "1 minute" && h2 == "20 seconds"
    ensures h1 + Joiner(Long) + h2 == "1 minute 20 seconds"
  {
  }

  lemma Text80Long()
    ensures Humanize(Term(Whole(1), Minute), Long) + Joiner(Long) + Humanize(Term(Whole(20), Second), Long) == "1 minute 20 seconds"
  {
    Words1MinuteLong();
    Words20SecondLong();
    Glue80Long(Humanize(Term(Whole(1), Minute), Long), Humanize(Term(Whole(20), Second), Long));
  }

  lemma Example80Long()
    ensures Output(Whole(80), Style(Long)) == Some("1 minute 20 seconds")
  {
    Output80Long();
    Text80Long();
  }

  lemma Groups80()
    ensures ChronoGroups(Breakdown(0, 0, 1, Whole(20))) == ["00", "00", "01", "20"]
  {
    SecondsGroupWhole(20);
    Pad2Small(0);
    Pad2Small(1);
    Pad2Of20();
  }

  lemma Strip80()
    ensures StripZeroGroups("00:00:01:20") == "01:20"
  {
    assert "00:00:01:20" == "00:" + "00:01:20";
    StripStep("00:01:20");
    assert "00:01:20" == "00:" + "01:20";
    StripStep("01:20");
    StripStop("01:20");
  }

  lemma Joined80()
    ensures Join(["00", "00", "01", "20"], ":") == "00:00:01:20"
  {
  }

  lemma Clock80()
    ensures ChronoText(Breakdown(0, 0, 1, Whole(20))) == "1:20"
  {
    Groups80();
    Joined80();
    Strip80();
    assert DropLeadingZero("01:20") == "1:20";
  }

  /** 80 seconds in the five styles. */
  lemma Example80()
    ensures Output(Whole(80), Style(Micro)) == Some("1min20s")
    ensures Output(Whole(80), Style(Short)) == Some("1min 20s")
    ensures Output(Whole(80), Style(Default)) == Some("1 min 20 secs")
    ensures Output(Whole(80), Style(Long)) == Some("1 minute 20 seconds")
    ensures Output(Whole(80), Style(Chrono)) == Some("1:20")
  {
    Example80Micro();
    Example80Short();
    Example80Default();
    Example80Long();
    Clock80();
    BreakDown80();
  }

  lemma BreakDown80Point51()
    ensures BreakDown(Normalize(Decimal(8051, 2)), false) == Breakdown(0, 0, 1, Decimal(2051, 2))
  {
    NormalizeCanonical(Decimal(8051, 2), Decimal(8051, 2));
  }

  lemma Output80Point51(f: Format)
    requires f != Chrono
    ensures Output(Decimal(8051, 2), Style(f)) == Some(Humanize(Term(Whole(1), Minute), f) + Joiner(f) + Humanize(Term(Decimal(2051, 2), Second), f))
  {
    var ts := [Term(Whole(1), Minute), Term(Decimal(2051, 2), Second)];
    assert Shown(Breakdown(0, 0, 1, Decimal(2051, 2)), Style(f)) == ts;
    BreakDown80Point51();
    OutputShown(Decimal(8051, 2), Style(f), ts);
    JoinTwoTerms(ts, f);
  }

  lemma Output80Point51Micro()
    ensures Output(Decimal(8051, 2), Style(Micro)) == Some(Humanize(Term(Whole(1), Minute), Micro) + Joiner(Micro) + Humanize(Term(Decimal(2051, 2), Second), Micro))
  {
    Output80Point51(Micro);
  }

  lemma Glue80Point51Micro(h1: string, h2: string)
    requires h1 == "1min" && h2 == "20.51s"
    ensures h1 + Joiner(Micro) + h2 == "1min20.51s"
  {
  }

  lemma Text80Point51Micro()
    ensures Humanize(Term(Whole(1), Minute), Micro) + Joiner(Micro) + Humanize(Term(Decimal(2051, 2), Second), Micro) == "1min20.51s"
  {
    Words1MinuteMicro();
    Words20Point51SecondMicro();
    Glue80Point51Micro(Humanize(Term(Whole(1), Minute), Micro), Humanize(Term(Decimal(2051, 2), Second), Micro));
  }

  lemma Example80Point51Micro()
    ensures Output(Decimal(8051, 2), Style(Micro)) == Some("1min20.51s")
  {
    Output80Point51Micro();
    Text80Point51Micro();
  }

  lemma Output80Point51Short()
    ensures Output(Decimal(8051, 2), Style(Short)) == Some(Humanize(Term(Whole(1), Minute), Short) + Joiner(Short) + Humanize(Term(Decimal(2051, 2), Second), Short))
  {
    Output80Point51(Short);
  }

  lemma Glue80Point51Short(h1: string, h2: string)
    requires h1 == "1min" && h2 == "20.51s"
    ensures h1 + Joiner(Short) + h2 == "1min 20.51s"
  {
  }

  lemma Text80Point51Short()
    ensures Humanize(Term(Whole(1), Minute), Short) + Joiner(Short) + Humanize(Term(Decimal(2051, 2), Second), Short) == "1min 20.51s"
  {
    Words1MinuteShort();
    Words20Point51SecondShort();
    Glue80Point51Short(Humanize(Term(Whole(1), Minute), Short), Humanize(Term(Decimal(2051, 2), Second), Short));
  }

  lemma Example80Point51Short()
    ensures Output(Decimal(8051, 2), Style(Short)) == Some("1min 20.51s")
  {
    Output80Point51Short();
    Text80Point51Short();
  }

  lemma Output80Point51Default()
    ensures Output(Decimal(8051, 2), Style(Default)) == Some(Humanize(Term(Whole(1), Minute), Default) + Joiner(Default) + Humanize(Term(Decimal(2051, 2), Second), Default))
  {
    Output80Point51(Default);
  }

  lemma Glue80Point51Default(h1: string, h2: string)
    requires h1 == "1 min" && h2 == "20.51 secs"
    ensures h1 + Joiner(Default) + h2 == "1 min 20.51 secs"
  {
  }

  lemma Text80Point51Default()
    ensures Humanize(Term(Whole(1), Minute), Default) + Joiner(Default) + Humanize(Term(Decimal(2051, 2), Second), Default) == "1 min 20.51 secs"
  {
    Words1MinuteDefault();
    Words20Point51SecondDefault();
    Glue80Point51Default(Humanize(Term(Whole(1), Minute), Default), Humanize(Term(Decimal(2051, 2), Second), Default));
  }

  lemma Example80Point51Default()
    ensures Output(Decimal(8051, 2), Style(Default)) == Some("1 min 20.51 secs")
  {
    Output80Point51Default();
    Text80Point51Default();
  }

  lemma Output80Point51Long()
    ensures Output(Decimal(8051, 2), Style(Long)) == Some(Humanize(Term(Whole(1), Minute), Long) + Joiner(Long) + Humanize(Term(Decimal(2051, 2), Second), Long))
  {
    Output80Point51(Long);
  }

  lemma Glue80Point51Long(h1: string, h2: string)
    requires h1 == "1 minute" && h2 == "20.51 seconds"
    ensures h1 + Joiner(Long) + h2 == "1 minute 20.51 seconds"
  {
  }

  lemma Text80Point51Long()
    ensures Humanize(Term(Whole(1), Minute), Long) + Joiner(Long) + Humanize(Term(Decimal(2051, 2), Second), Long) == "1 minute 20.51 seconds"
  {
    Words1MinuteLong();
    Words20Point51SecondLong();
    Glue80Point51Long(Humanize(Term(Whole(1), Minute), Long), Humanize(Term(Decimal(2051, 2), Second), Long));
  }

  lemma Example80Point51Long()
    ensures Output(Decimal(8051, 2), Style(Long)) == Some("1 minute 20.51 seconds")
  {
    Output80Point51Long();
    Text80Point51Long();
  }

  lemma Groups80Point51()
    ensures ChronoGroups(Breakdown(0, 0, 1, Decimal(2051, 2))) == ["00", "00", "01", "20.51"]
  {
    SecondsGroupFraction(Decimal(2051, 2));
    DecimalStr20Point51();
    Pad2Small(0);
    Pad2Small(1);
  }

  lemma Strip80Point51()
    ensures StripZeroGroups("00:00:01:20.51") == "01:20.51"
  {
    assert "00:00:01:20.51" == "00:" + "00:01:20.51";
    StripStep("00:01:20.51");
    assert "00:01:20.51" == "00:" + "01:20.51";
    StripStep("01:20.51");
    StripStop("01:20.51");
  }

  lemma Joined80Point51()
    ensures Join(["00", "00", "01", "20.51"], ":") == "00:00:01:20.51"
  {
  }

  lemma Clock80Point51()
    ensures ChronoText(Breakdown(0, 0, 1, Decimal(2051, 2))) == "1:20.51"
  {
    Groups80Point51();
    Joined80Point51();
    Strip80Point51();
    assert DropLeadingZero("01:20.51") == "1:20.51";
  }

  /** 80.51 seconds in the five styles. */
  lemma Example80Point51()
    ensures Output(Decimal(8051, 2), Style(Micro)) == Some("1min20.51s")
    ensures Output(Decimal(8051, 2), Style(Short)) == Some("1min 20.51s")
    ensures Output(Decimal(8051, 2), Style(Default)) == Some("1 min 20.51 secs")
    ensures Output(Decimal(8051, 2), Style(Long)) == Some("1 minute 20.51 seconds")
    ensures Output(Decimal(8051, 2), Style(Chrono)) == Some("1:20.51")
  {
    Example80Point51Micro();
    Example80Point51Short();
    Example80Point51Default();
    Example80Point51Long();
    Clock80Point51();
    BreakDown80Point51();
  }

  lemma BreakDown80Point51928()
    ensures BreakDown(Normalize(Decimal(8051928, 5)), false) == Breakdown(0, 0, 1, Decimal(2051928, 5))
  {
    NormalizeCanonical(Decimal(8051928, 5), Decimal(8051928, 5));
  }

  lemma Output80Point51928(f: Format)
    requires f != Chrono
    ensures Output(Decimal(8051928, 5), Style(f)) == Some(Humanize(Term(Whole(1), Minute), f) + Joiner(f) + Humanize(Term(Decimal(2051928, 5), Second), f))
  {
    var ts := [Term(Whole(1), Minute), Term(Decimal(2051928, 5), Second)];
    assert Shown(Breakdown(0, 0, 1, Decimal(2051928, 5)), Style(f)) == ts;
    BreakDown80Point51928();
    OutputShown(Decimal(8051928, 5), Style(f), ts);
    JoinTwoTerms(ts, f);
  }

  lemma Output80Point51928Micro()
    ensures Output(Decimal(8051928, 5), Style(Micro)) == Some(Humanize(Term(Whole(1), Minute), Micro) + Joiner(Micro) + Humanize(Term(Decimal(2051928, 5), Second), Micro))
  {
    Output80Point51928(Micro);
  }

  lemma Glue80Point51928Micro(h1: string, h2: string)
    requires h1 == "1min" && h2 == "20.51928s"
    ensures h1 + Joiner(Micro) + h2 == "1min20.51928s"
  {
  }

  lemma Text80Point51928Micro()
    ensures Humanize(Term(Whole(1), Minute), Micro) + Joiner(Micro) + Humanize(Term(Decimal(2051928, 5), Second), Micro) == "1min20.51928s"
  {
    Words1MinuteMicro();
    Words20Point51928SecondMicro();
    Glue80Point51928Micro(Humanize(Term(Whole(1), Minute), Micro), Humanize(Term(Decimal(2051928, 5), Second), Micro));
  }

  lemma Example80Point51928Micro()
    ensures Output(Decimal(8051928, 5), Style(Micro)) == Some("1min20.51928s")
  {
    Output80Point51928Micro();
    Text80Point51928Micro();
  }

  lemma Output80Point51928Short()
    ensures Output(Decimal(8051928, 5), Style(Short)) == Some(Humanize(Term(Whole(1), Minute), Short) + Joiner(Short) + Humanize(Term(Decimal(2051928, 5), Second), Short))
  {
    Output80Point51928(Short);
  }

  lemma Glue80Point51928Short(h1: string, h2: string)
    requires h1 == "1min" && h2 == "20.51928s"
    ensures h1 + Joiner(Short) + h2 == "1min 20.51928s"
  {
  }

  lemma Text80Point51928Short()
    ensures Humanize(Term(Whole(1), Minute), Short) + Joiner(Short) + Humanize(Term(Decimal(2051928, 5), Second), Short) == "1min 20.51928s"
  {
    Words1MinuteShort();
    Words20Point51928SecondShort();
    Glue80Point51928Short(Humanize(Term(Whole(1), Minute), Short), Humanize(Term(Decimal(2051928, 5), Second), Short));
  }

  lemma Example80Point51928Short()
    ensures Output(Decimal(8051928, 5), Style(Short)) == Some("1min 20.51928s")
  {
    Output80Point51928Short();
    Text80Point51928Short();
  }

  lemma Output80Point51928Default()
    ensures Output(Decimal(8051928, 5), Style(Default)) == Some(Humanize(Term(Whole(1), Minute), Default) + Joiner(Default) + Humanize(Term(Decimal(2051928, 5), Second), Default))
  {
    Output80Point51928(Default);
  }

  lemma Glue80Point51928Default(h1: string, h2: string)
    requires h1 == "1 min" && h2 == "20.51928 secs"
    ensures h1 + Joiner(Default) + h2 == "1 min 20.51928 secs"
  {
  }

  lemma Text80Point51928Default()
    ensures Humanize(Term(Whole(1), Minute), Default) + Joiner(Default) + Humanize(Term(Decimal(2051928, 5), Second), Default) == "1 min 20.51928 secs"
  {
    Words1MinuteDefault();
    Words20Point51928SecondDefault();
    Glue80Point51928Default(Humanize(Term(Whole(1), Minute), Default), Humanize(Term(Decimal(2051928, 5), Second), Default));
  }

  lemma Example80Point51928Default()
    ensures Output(Decimal(8051928, 5), Style(Default)) == Some("1 min 20.51928 secs")
  {
    Output80Point51928Default();
    Text80Point51928Default();
  }

  lemma Output80Point51928Long()
    ensures Output(Decimal(8051928, 5), Style(Long)) == Some(Humanize(Term(Whole(1), Minute), Long) + Joiner(Long) + Humanize(Term(Decimal(2051928, 5), Second), Long))
  {
    Output80Point51928(Long);
  }

  lemma Glue80Point51928Long(h1: string, h2: string)
    requires h1 == "1 minute" && h2 == "20.51928 seconds"
    ensures h1 + Joiner(Long) + h2 == "1 minute 20.51928 seconds"
  {
  }

  lemma Text80Point51928Long()
    ensures Humanize(Term(Whole(1), Minute), Long) + Joiner(Long) + Humanize(Term(Decimal(2051928, 5), Second), Long) == "1 minute 20.51928 seconds"
  {
    Words1MinuteLong();
    Words20Point51928SecondLong();
    Glue80Point51928Long(Humanize(Term(Whole(1), Minute), Long), Humanize(Term(Decimal(2051928, 5), Second), Long));
  }

  lemma Example80Point51928Long()
    ensures Output(Decimal(8051928, 5), Style(Long)) == Some("1 minute 20.51928 seconds")
  {
    Output80Point51928Long();
    Text80Point51928Long();
  }

  lemma Groups80Point51928()
    ensures ChronoGroups(Breakdown(0, 0, 1, Decimal(2051928, 5))) == ["00", "00", "01", "20.51928"]
  {
    SecondsGroupFraction(Decimal(2051928, 5));
    DecimalStr20Point51928();
    Pad2Small(0);
    Pad2Small(1);
  }

  lemma Strip80Point51928()
    ensures StripZeroGroups("00:00:01:20.51928") == "01:20.51928"
  {
    assert "00:00:01:20.51928" == "00:" + "00:01:20.51928";
    StripStep("00:01:20.51928");
    assert "00:01:20.51928" == "00:" + "01:20.51928";
    StripStep("01:20.51928");
    StripStop("01:20.51928");
  }

  lemma Joined80Point51928()
    ensures Join(["00", "00", "01", "20.51928"], ":") == "00:00:01:20.51928"
  {
  }

  lemma Clock80Point51928()
    ensures ChronoText(Breakdown(0, 0, 1, Decimal(2051928, 5))) == "1:20.51928"
  {
    Groups80Point51928();
    Joined80Point51928();
    Strip80Point51928();
    assert DropLeadingZero("01:20.51928") == "1:20.51928";
  }

  /** 80.51928 seconds in the five styles. */
  lemma Example80Point51928()
    ensures Output(Decimal(8051928, 5), Style(Micro)) == Some("1min20.51928s")
    ensures Output(Decimal(8051928, 5), Style(Short)) == Some("1min 20.51928s")
    ensures Output(Decimal(8051928, 5), Style(Default)) == Some("1 min 20.51928 secs")
    ensures Output(Decimal(8051928, 5), Style(Long)) == Some("1 minute 20.51928 seconds")
    ensures Output(Decimal(8051928, 5), Style(Chrono)) == Some("1:20.51928")
  {
    Example80Point51928Micro();
    Example80Point51928Short();
    Example80Point51928Default();
    Example80Point51928Long();
    Clock80Point51928();
    BreakDown80Point51928();
  }

  lemma BreakDown14461()
    ensures BreakDown(Normalize(Whole(14461)), false) == Breakdown(0, 4, 1, Whole(1))
  {
    NormalizeCanonical(Whole(14461), Whole(14461));
  }

  lemma Output14461(f: Format)
    requires f != Chrono
    ensures Output(Whole(14461), Style(f)) == Some(Humanize(Term(Whole(4), Hour), f) + Joiner(f) + Humanize(Term(Whole(1), Minute), f) + Joiner(f) + Humanize(Term(Whole(1), Second), f))
  {
    var ts := [Term(Whole(4), Hour), Term(Whole(1), Minute), Term(Whole(1), Second)];
    assert Shown(Breakdown(0, 4, 1, Whole(1)), Style(f)) == ts;
    BreakDown14461();
    OutputShown(Whole(14461), Style(f), ts);
    JoinThreeTerms(ts, f);
  }

  lemma Output14461Micro()
    ensures Output(Whole(14461), Style(Micro)) == Some(Humanize(Term(Whole(4), Hour), Micro) + Joiner(Micro) + Humanize(Term(Whole(1), Minute), Micro) + Joiner(Micro) + Humanize(Term(Whole(1), Second), Micro))
  {
    Output14461(Micro);
  }

  lemma Glue14461Micro(h1: string, h2: string, h3: string)
    requires h1 == "4h" && h2 == "1min" && h3 == "1s"
    ensures h1 + Joiner(Micro) + h2 + Joiner(Micro) + h3 == "4h1min1s"
  {
  }

  lemma Text14461Micro()
    ensures Humanize(Term(Whole(4), Hour), Micro) + Joiner(Micro) + Humanize(Term(Whole(1), Minute), Micro) + Joiner(Micro) + Humanize(Term(Whole(1), Second), Micro) == "4h1min1s"
  {
    Words4HourMicro();
    Words1MinuteMicro();
    Words1SecondMicro();
    Glue14461Micro(Humanize(Term(Whole(4), Hour), Micro), Humanize(Term(Whole(1), Minute), Micro), Humanize(Term(Whole(1), Second), Micro));
  }

  lemma Example14461Micro()
    ensures Output(Whole(14461), Style(Micro)) == Some("4h1min1s")
  {
    Output14461Micro();
    Text14461Micro();
  }

  lemma Output14461Short()
    ensures Output(Whole(14461), Style(Short)) == Some(Humanize(Term(Whole(4), Hour), Short) + Joiner(Short) + Humanize(Term(Whole(1), Minute), Short) + Joiner(Short) + Humanize(Term(Whole(1), Second), Short))
  {
    Output14461(Short);
  }

  lemma Glue14461Short(h1: string, h2: string, h3: string)
    requires h1 == "4h" && h2 == "1min" && h3 == "1s"
    ensures h1 + Joiner(Short) + h2 + Joiner(Short) + h3 == "4h 1min 1s"
  {
  }

  lemma Text14461Short()
    ensures Humanize(Term(Whole(4), Hour), Short) + Joiner(Short) + Humanize(Term(Whole(1), Minute), Short) + Joiner(Short) + Humanize(Term(Whole(1), Second), Short) == "4h 1min 1s"
  {
    Words4HourShort();
    Words1MinuteShort();
    Words1SecondShort();
    Glue14461Short(Humanize(Term(Whole(4), Hour), Short), Humanize(Term(Whole(1), Minute), Short), Humanize(Term(Whole(1), Second), Short));
  }

  lemma Example14461Short()
    ensures Output(Whole(14461), Style(Short)) == Some("4h 1min 1s")
  {
    Output14461Short();
    Text14461Short();
  }

  lemma Output14461Default()
    ensures Output(Whole(14461), Style(Default)) == Some(Humanize(Term(Whole(4), Hour), Default) + Joiner(Default) + Humanize(Term(Whole(1), Minute), Default) + Joiner(Default) + Humanize(Term(Whole(1), Second), Default))
  {
    Output14461(Default);
  }

  lemma Glue14461Default(h1: string, h2: string, h3: string)
    requires h1 == "4 hrs" && h2 == "1 min" && h3 == "1 sec"
    ensures h1 + Joiner(Default) + h2 + Joiner(Default) + h3 == "4 hrs 1 min 1 sec"
  {
  }

  lemma Text14461Default()
    ensures Humanize(Term(Whole(4), Hour), Default) + Joiner(Default) + Humanize(Term(Whole(1), Minute), Default) + Joiner(Default) + Humanize(Term(Whole(1), Second), Default) == "4 hrs 1 min 1 sec"
  {
    Words4HourDefault();
    Words1MinuteDefault();
    Words1SecondDefault();
    Glue14461Default(Humanize(Term(Whole(4), Hour), Default), Humanize(Term(Whole(1), Minute), Default), Humanize(Term(Whole(1), Second), Default));
  }

  lemma Example14461Default()
    ensures Output(Whole(14461), Style(Default)) == Some("4 hrs 1 min 1 sec")
  {
    Output14461Default();
    Text14461Default();
  }

  lemma Output14461Long()
    ensures Output(Whole(14461), Style(Long)) == Some(Humanize(Term(Whole(4), Hour), Long) + Joiner(Long) + Humanize(Term(Whole(1), Minute), Long) + Joiner(Long) + Humanize(Term(Whole(1), Second), Long))
  {
    Output14461(Long);
  }

  lemma Glue14461Long(h1: string, h2: string, h3: string)
    requires h1 == "4 hours" && h2 == "1 minute" && h3 == "1 second"
    ensures h1 + Joiner(Long) + h2 + Joiner(Long) + h3 == "4 hours 1 minute 1 second"
  {
  }

  lemma Text14461Long()
    ensures Humanize(Term(Whole(4), Hour), Long) + Joiner(Long) + Humanize(Term(Whole(1), Minute), Long) + Joiner(Long) + Humanize(Term(Whole(1), Second), Long) == "4 hours 1 minute 1 second"
  {
    Words4HourLong();
    Words1MinuteLong();
    Words1SecondLong();
    Glue14461Long(Humanize(Term(Whole(4), Hour), Long), Humanize(Term(Whole(1), Minute), Long), Humanize(Term(Whole(1), Second), Long));
  }

  lemma Example14461Long()
    ensures Output(Whole(14461), Style(Long)) == Some("4 hours 1 minute 1 second")
  {
    Output14461Long();
    Text14461Long();
  }

  lemma Groups14461()
    ensures ChronoGroups(Breakdown(0, 4, 1, Whole(1))) == ["00", "04", "01", "01"]
  {
    SecondsGroupWhole(1);
    Pad2Small(0);
    Pad2Small(1);
    Pad2Small(4);
  }

  lemma Strip14461()
    ensures StripZeroGroups("00:04:01:01") == "04:01:01"
  {
    assert "00:04:01:01" == "00:" + "04:01:01";
    StripStep("04:01:01");
    StripStop("04:01:01");
  }

  lemma Joined14461()
    ensures Join(["00", "04", "01", "01"], ":") == "00:04:01:01"
  {
  }

  lemma Clock14461()
    ensures ChronoText(Breakdown(0, 4, 1, Whole(1))) == "4:01:01"
  {
    Groups14461();
    Joined14461();
    Strip14461();
    assert DropLeadingZero("04:01:01") == "4:01:01";
  }

  /** 14461 seconds in the five styles. */
  lemma Example14461()
    ensures Output(Whole(14461), Style(Micro)) == Some("4h1min1s")
    ensures Output(Whole(14461), Style(Short)) == Some("4h 1min 1s")
    ensures Output(Whole(14461), Style(Default)) == Some("4 hrs 1 min 1 sec")
    ensures Output(Whole(14461), Style(Long)) == Some("4 hours 1 minute 1 second")
    ensures Output(Whole(14461), Style(Chrono)) == Some("4:01:01")
  {
    Example14461Micro();
    Example14461Short();
    Example14461Default();
    Example14461Long();
    Clock14461();
    BreakDown14461();
  }

  lemma BreakDown8400()
    ensures BreakDown(Normalize(Whole(8400)), false) == Breakdown(0, 2, 20, Whole(0))
  {
    NormalizeCanonical(Whole(8400), Whole(8400));
  }

  lemma Output8400(f: Format)
    requires f != Chrono
    ensures Output(Whole(8400), Style(f)) == Some(Humanize(Term(Whole(2), Hour), f) + Joiner(f) + Humanize(Term(Whole(20), Minute), f))
  {
    var ts := [Term(Whole(2), Hour), Term(Whole(20), Minute)];
    assert Shown(Breakdown(0, 2, 20, Whole(0)), Style(f)) == ts;
    BreakDown8400();
    OutputShown(Whole(8400), Style(f), ts);
    JoinTwoTerms(ts, f);
  }

  lemma Output8400Micro()
    ensures Output(Whole(8400), Style(Micro)) == Some(Humanize(Term(Whole(2), Hour), Micro) + Joiner(Micro) + Humanize(Term(Whole(20), Minute), Micro))
  {
    Output8400(Micro);
  }

  lemma Glue8400Micro(h1: string, h2: string)
    requires h1 == "2h" && h2 == "20min"
    ensures h1 + Joiner(Micro) + h2 == "2h20min"
  {
  }

  lemma Text8400Micro()
    ensures Humanize(Term(Whole(2), Hour), Micro) + Joiner(Micro) + Humanize(Term(Whole(20), Minute), Micro) == "2h20min"
  {
    Words2HourMicro();
    Words20MinuteMicro();
    Glue8400Micro(Humanize(Term(Whole(2), Hour), Micro), Humanize(Term(Whole(20), Minute), Micro));
  }

  lemma Example8400Micro()
    ensures Output(Whole(8400), Style(Micro)) == Some("2h20min")
  {
    Output8400Micro();
    Text8400Micro();
  }

  lemma Output8400Short()
    ensures Output(Whole(8400), Style(Short)) == Some(Humanize(Term(Whole(2), Hour), Short) + Joiner(Short) + Humanize(Term(Whole(20), Minute), Short))
  {
    Output8400(Short);
  }

  lemma Glue8400Short(h1: string, h2: string)
    requires h1 == "2h" && h2 == "20min"
    ensures h1 + Joiner(Short) + h2 == "2h 20min"
  {
  }

  lemma Text8400Short()
    ensures Humanize(Term(Whole(2), Hour), Short) + Joiner(Short) + Humanize(Term(Whole(20), Minute), Short) == "2h 20min"
  {
    Words2HourShort();
    Words20MinuteShort();
    Glue8400Short(Humanize(Term(Whole(2), Hour), Short), Humanize(Term(Whole(20), Minute), Short));
  }

  lemma Example8400Short()
    ensures Output(Whole(8400), Style(Short)) == Some("2h 20min")
  {
    Output8400Short();
    Text8400Short();
  }

  lemma Output8400Default()
    ensures Output(Whole(8400), Style(Default)) == Some(Humanize(Term(Whole(2), Hour), Default) + Joiner(Default) + Humanize(Term(Whole(20), Minute), Default))
  {
    Output8400(Default);
  }

  lemma Glue8400Default(h1: string, h2: string)
    requires h1 == "2 hrs" && h2 == "20 mins"
    ensures h1 + Joiner(Default) + h2 == "2 hrs 20 mins"
  {
  }

  lemma Text8400Default()
    ensures Humanize(Term(Whole(2), Hour), Default) + Joiner(Default) + Humanize(Term(Whole(20), Minute), Default) == "2 hrs 20 mins"
  {
    Words2HourDefault();
    Words20MinuteDefault();
    Glue8400Default(Humanize(Term(Whole(2), Hour), Default), Humanize(Term(Whole(20), Minute), Default));
  }

  lemma Example8400Default()
    ensures Output(Whole(8400), Style(Default)) == Some("2 hrs 20 mins")
  {
    Output8400Default();
    Text8400Default();
  }

  lemma Output8400Long()
    ensures Output(Whole(8400), Style(Long)) == Some(Humanize(Term(Whole(2), Hour), Long) + Joiner(Long) + Humanize(Term(Whole(20), Minute), Long))
  {
    Output8400(Long);
  }

  lemma Glue8400Long(h1: string, h2: string)
    requires h1 == "2 hours" && h2 == "20 minutes"
    ensures h1 + Joiner(Long) + h2 == "2 hours 20 minutes"
  {
  }

  lemma Text8400Long()
    ensures Humanize(Term(Whole(2), Hour), Long) + Joiner(Long) + Humanize(Term(Whole(20), Minute), Long) == "2 hours 20 minutes"
  {
    Words2HourLong();
    Words20MinuteLong();
    Glue8400Long(Humanize(Term(Whole(2), Hour), Long), Humanize(Term(Whole(20), Minute), Long));
  }

  lemma Example8400Long()
    ensures Output(Whole(8400), Style(Long)) == Some("2 hours 20 minutes")
  {
    Output8400Long();
    Text8400Long();
  }

  lemma Groups8400()
    ensures ChronoGroups(Breakdown(0, 2, 20, Whole(0))) == ["00", "02", "20", "00"]
  {
    SecondsGroupWhole(0);
    Pad2Small(0);
    Pad2Small(2);
    Pad2Of20();
  }

  lemma Strip8400()
    ensures StripZeroGroups("00:02:20:00") == "02:20:00"
  {
    assert "00:02:20:00" == "00:" + "02:20:00";
    StripStep("02:20:00");
    StripStop("02:20:00");
  }

  lemma Joined8400()
    ensures Join(["00", "02", "20", "00"], ":") == "00:02:20:00"
  {
  }

  lemma Clock8400()
    ensures ChronoText(Breakdown(0, 2, 20, Whole(0))) == "2:20:00"
  {
    Groups8400();
    Joined8400();
    Strip8400();
    assert DropLeadingZero("02:20:00") == "2:20:00";
  }

  /** 8400 seconds in the five styles. */
  lemma Example8400()
    ensures Output(Whole(8400), Style(Micro)) == Some("2h20min")
    ensures Output(Whole(8400), Style(Short)) == Some("2h 20min")
    ensures Output(Whole(8400), Style(Default)) == Some("2 hrs 20 mins")
    ensures Output(Whole(8400), Style(Long)) == Some("2 hours 20 minutes")
    ensures Output(Whole(8400), Style(Chrono)) == Some("2:20:00")
  {
    Example8400Micro();
    Example8400Short();
    Example8400Default();
    Example8400Long();
    Clock8400();
    BreakDown8400();
  }

  lemma BreakDown3830400()
    ensures BreakDown(Normalize(Whole(3830400)), false) == Breakdown(133, 0, 0, Whole(0))
  {
    NormalizeCanonical(Whole(3830400), Whole(3830400));
  }

  lemma Output3830400(f: Format)
    requires f != Chrono
    ensures Output(Whole(3830400), Style(f)) == Some(Humanize(Term(Whole(133), Day), f))
  {
    var ts := [Term(Whole(133), Day)];
    assert Shown(Breakdown(133, 0, 0, Whole(0)), Style(f)) == ts;
    BreakDown3830400();
    OutputShown(Whole(3830400), Style(f), ts);
    JoinOneTerm(ts, f);
  }

  lemma Output3830400Micro()
    ensures Output(Whole(3830400), Style(Micro)) == Some(Humanize(Term(Whole(133), Day), Micro))
  {
    Output3830400(Micro);
  }

  lemma Glue3830400Micro(h1: string)
    requires h1 == "133d"
    ensures h1 == "133d"
  {
  }

  lemma Text3830400Micro()
    ensures Humanize(Term(Whole(133), Day), Micro) == "133d"
  {
    Words133DayMicro();
    Glue3830400Micro(Humanize(Term(Whole(133), Day), Micro));
  }

  lemma Example3830400Micro()
    ensures Output(Whole(3830400), Style(Micro)) == Some("133d")
  {
    Output3830400Micro();
    Text3830400Micro();
  }

  lemma Output3830400Short()
    ensures Output(Whole(3830400), Style(Short)) == Some(Humanize(Term(Whole(133), Day), Short))
  {
    Output3830400(Short);
  }

  lemma Glue3830400Short(h1: string)
    requires h1 == "133d"
    ensures h1 == "133d"
  {
  }

  lemma Text3830400Short()
    ensures Humanize(Term(Whole(133), Day), Short) == "133d"
  {
    Words133DayShort();
    Glue3830400Short(Humanize(Term(Whole(133), Day), Short));
  }

  lemma Example3830400Short()
    ensures Output(Whole(3830400), Style(Short)) == Some("133d")
  {
    Output3830400Short();
    Text3830400Short();
  }

  lemma Output3830400Default()
    ensures Output(Whole(3830400), Style(Default)) == Some(Humanize(Term(Whole(133), Day), Default))
  {
    Output3830400(Default);
  }

  lemma Glue3830400Default(h1: string)
    requires h1 == "133 days"
    ensures h1 == "133 days"
  {
  }

  lemma Text3830400Default()
    ensures Humanize(Term(Whole(133), Day), Default) == "133 days"
  {
    Words133DayDefault();
    Glue3830400Default(Humanize(Term(Whole(133), Day), Default));
  }

  lemma Example3830400Default()
    ensures Output(Whole(3830400), Style(Default)) == Some("133 days")
  {
    Output3830400Default();
    Text3830400Default();
  }

  lemma Output3830400Long()
    ensures Output(Whole(3830400), Style(Long)) == Some(Humanize(Term(Whole(133), Day), Long))
  {
    Output3830400(Long);
  }

  lemma Glue3830400Long(h1: string)
    requires h1 == "133 days"
    ensures h1 == "133 days"
  {
  }

  lemma Text3830400Long()
    ensures Humanize(Term(Whole(133), Day), Long) == "133 days"
  {
    Words133DayLong();
    Glue3830400Long(Humanize(Term(Whole(133), Day), Long));
  }

  lemma Example3830400Long()
    ensures Output(Whole(3830400), Style(Long)) == Some("133 days")
  {
    Output3830400Long();
    Text3830400Long();
  }

  lemma Groups3830400()
    ensures ChronoGroups(Breakdown(133, 0, 0, Whole(0))) == ["133", "00", "00", "00"]
  {
    SecondsGroupWhole(0);
    Pad2Small(0);
    Pad2Of133();
  }

  lemma Strip3830400()
    ensures StripZeroGroups("133:00:00:00") == "133:00:00:00"
  {
    StripStop("133:00:00:00");
  }

  lemma Joined3830400()
    ensures Join(["133", "00", "00", "00"], ":") == "133:00:00:00"
  {
  }

  lemma Clock3830400()
    ensures ChronoText(Breakdown(133, 0, 0, Whole(0))) == "133:00:00:00"
  {
    Groups3830400();
    Joined3830400();
    Strip3830400();
    assert DropLeadingZero("133:00:00:00") == "133:00:00:00";
  }

  /** 3830400 seconds in the five styles. */
  lemma Example3830400()
    ensures Output(Whole(3830400), Style(Micro)) == Some("133d")
    ensures Output(Whole(3830400), Style(Short)) == Some("133d")
    ensures Output(Whole(3830400), Style(Default)) == Some("133 days")
    ensures Output(Whole(3830400), Style(Long)) == Some("133 days")
    ensures Output(Whole(3830400), Style(Chrono)) == Some("133:00:00:00")
  {
    Example3830400Micro();
    Example3830400Short();
    Example3830400Default();
    Example3830400Long();
    Clock3830400();
    BreakDown3830400();
  }

  lemma BreakDown7516800()
    ensures BreakDown(Normalize(Whole(7516800)), false) == Breakdown(261, 0, 0, Whole(0))
  {
    NormalizeCanonical(Whole(7516800), Whole(7516800));
  }

  lemma Output7516800(f: Format)
    requires f != Chrono
    ensures Output(Whole(7516800), Style(f)) == Some(Humanize(Term(Whole(261), Day), f))
  {
    var ts := [Term(Whole(261), Day)];
    assert Shown(Breakdown(261, 0, 0, Whole(0)), Style(f)) == ts;
    BreakDown7516800();
    OutputShown(Whole(7516800), Style(f), ts);
    JoinOneTerm(ts, f);
  }

  lemma Output7516800Micro()
    ensures Output(Whole(7516800), Style(Micro)) == Some(Humanize(Term(Whole(261), Day), Micro))
  {
    Output7516800(Micro);
  }

  lemma Glue7516800Micro(h1: string)
    requires h1 == "261d"
    ensures h1 == "261d"
  {
  }

  lemma Text7516800Micro()
    ensures Humanize(Term(Whole(261), Day), Micro) == "261d"
  {
    Words261DayMicro();
    Glue7516800Micro(Humanize(Term(Whole(261), Day), Micro));
  }

  lemma Example7516800Micro()
    ensures Output(Whole(7516800), Style(Micro)) == Some("261d")
  {
    Output7516800Micro();
    Text7516800Micro();
  }

  lemma Output7516800Short()
    ensures Output(Whole(7516800), Style(Short)) == Some(Humanize(Term(Whole(261), Day), Short))
  {
    Output7516800(Short);
  }

  lemma Glue7516800Short(h1: string)
    requires h1 == "261d"
    ensures h1 == "261d"
  {
  }

  lemma Text7516800Short()
    ensures Humanize(Term(Whole(261), Day), Short) == "261d"
  {
    Words261DayShort();
    Glue7516800Short(Humanize(Term(Whole(261), Day), Short));
  }

  lemma Example7516800Short()
    ensures Output(Whole(7516800), Style(Short)) == Some("261d")
  {
    Output7516800Short();
    Text7516800Short();
  }

  lemma Output7516800Default()
    ensures Output(Whole(7516800), Style(Default)) == Some(Humanize(Term(Whole(261), Day), Default))
  {
    Output7516800(Default);
  }

  lemma Glue7516800Default(h1: string)
    requires h1 == "261 days"
    ensures h1 == "261 days"
  {
  }

  lemma Text7516800Default()
    ensures Humanize(Term(Whole(261), Day), Default) == "261 days"
  {
    Words261DayDefault();
    Glue7516800Default(Humanize(Term(Whole(261), Day), Default));
  }

  lemma Example7516800Default()
    ensures Output(Whole(7516800), Style(Default)) == Some("261 days")
  {
    Output7516800Default();
    Text7516800Default();
  }

  lemma Output7516800Long()
    ensures Output(Whole(7516800), Style(Long)) == Some(Humanize(Term(Whole(261), Day), Long))
  {
    Output7516800(Long);
  }

  lemma Glue7516800Long(h1: string)
    requires h1 == "261 days"
    ensures h1 == "261 days"
  {
  }

  lemma Text7516800Long()
    ensures Humanize(Term(Whole(261), Day), Long) == "261 days"
  {
    Words261DayLong();
    Glue7516800Long(Humanize(Term(Whole(261), Day), Long));
  }

  lemma Example7516800Long()
    ensures Output(Whole(7516800), Style(Long)) == Some("261 days")
  {
    Output7516800Long();
    Text7516800Long();
  }

  lemma Groups7516800()
    ensures ChronoGroups(Breakdown(261, 0, 0, Whole(0))) == ["261", "00", "00", "00"]
  {
    SecondsGroupWhole(0);
    Pad2Small(0);
    Pad2Of261();
  }

  lemma Strip7516800()
    ensures StripZeroGroups("261:00:00:00") == "261:00:00:00"
  {
    StripStop("261:00:00:00");
  }

  lemma Joined7516800()
    ensures Join(["261", "00", "00", "00"], ":") == "261:00:00:00"
  {
  }

  lemma Clock7516800()
    ensures ChronoText(Breakdown(261, 0, 0, Whole(0))) == "261:00:00:00"
  {
    Groups7516800();
    Joined7516800();
    Strip7516800();
    assert DropLeadingZero("261:00:00:00") == "261:00:00:00";
  }

  /** 7516800 seconds in the five styles. */
  lemma Example7516800()
    ensures Output(Whole(7516800), Style(Micro)) == Some("261d")
    ensures Output(Whole(7516800), Style(Short)) == Some("261d")
    ensures Output(Whole(7516800), Style(Default)) == Some("261 days")
    ensures Output(Whole(7516800), Style(Long)) == Some("261 days")
    ensures Output(Whole(7516800), Style(Chrono)) == Some("261:00:00:00")
  {
    Example7516800Micro();
    Example7516800Short();
    Example7516800Default();
    Example7516800Long();
    Clock7516800();
    BreakDown7516800();
  }

  lemma BreakDown22492800()
    ensures BreakDown(Normalize(Whole(22492800)), false) == Breakdown(781, 0, 0, Whole(0))
  {
    NormalizeCanonical(Whole(22492800), Whole(22492800));
  }

  lemma Output22492800(f: Format)
    requires f != Chrono
    ensures Output(Whole(22492800), Style(f)) == Some(Humanize(Term(Whole(781), Day), f))
  {
    var ts := [Term(Whole(781), Day)];
    assert Shown(Breakdown(781, 0, 0, Whole(0)), Style(f)) == ts;
    BreakDown22492800();
    OutputShown(Whole(22492800), Style(f), ts);
    JoinOneTerm(ts, f);
  }

  lemma Output22492800Micro()
    ensures Output(Whole(22492800), Style(Micro)) == Some(Humanize(Term(Whole(781), Day), Micro))
  {
    Output22492800(Micro);
  }

  lemma Glue22492800Micro(h1: string)
    requires h1 == "781d"
    ensures h1 == "781d"
  {
  }

  lemma Text22492800Micro()
    ensures Humanize(Term(Whole(781), Day), Micro) == "781d"
  {
    Words781DayMicro();
    Glue22492800Micro(Humanize(Term(Whole(781), Day), Micro));
  }

  lemma Example22492800Micro()
    ensures Output(Whole(22492800), Style(Micro)) == Some("781d")
  {
    Output22492800Micro();
    Text22492800Micro();
  }

  lemma Output22492800Short()
    ensures Output(Whole(22492800), Style(Short)) == Some(Humanize(Term(Whole(781), Day), Short))
  {
    Output22492800(Short);
  }

  lemma Glue22492800Short(h1: string)
    requires h1 == "781d"
    ensures h1 == "781d"
  {
  }

  lemma Text22492800Short()
    ensures Humanize(Term(Whole(781), Day), Short) == "781d"
  {
    Words781DayShort();
    Glue22492800Short(Humanize(Term(Whole(781), Day), Short));
  }

  lemma Example22492800Short()
    ensures Output(Whole(22492800), Style(Short)) == Some("781d")
  {
    Output22492800Short();
    Text22492800Short();
  }

  lemma Output22492800Default()
    ensures Output(Whole(22492800), Style(Default)) == Some(Humanize(Term(Whole(781), Day), Default))
  {
    Output22492800(Default);
  }

  lemma Glue22492800Default(h1: string)
    requires h1 == "781 days"
    ensures h1 == "781 days"
  {
  }

  lemma Text22492800Default()
    ensures Humanize(Term(Whole(781), Day), Default) == "781 days"
  {
    Words781DayDefault();
    Glue22492800Default(Humanize(Term(Whole(781), Day), Default));
  }

  lemma Example22492800Default()
    ensures Output(Whole(22492800), Style(Default)) == Some("781 days")
  {
    Output22492800Default();
    Text22492800Default();
  }

  lemma Output22492800Long()
    ensures Output(Whole(22492800), Style(Long)) == Some(Humanize(Term(Whole(781), Day), Long))
  {
    Output22492800(Long);
  }

  lemma Glue22492800Long(h1: string)
    requires h1 == "781 days"
    ensures h1 == "781 days"
  {
  }

  lemma Text22492800Long()
    ensures Humanize(Term(Whole(781), Day), Long) == "781 days"
  {
    Words781DayLong();
    Glue22492800Long(Humanize(Term(Whole(781), Day), Long));
  }

  lemma Example22492800Long()
    ensures Output(Whole(22492800), Style(Long)) == Some("781 days")
  {
    Output22492800Long();
    Text22492800Long();
  }

  lemma Groups22492800()
    ensures ChronoGroups(Breakdown(781, 0, 0, Whole(0))) == ["781", "00", "00", "00"]
  {
    SecondsGroupWhole(0);
    Pad2Small(0);
    Pad2Of781();
  }

  lemma Strip22492800()
    ensures StripZeroGroups("781:00:00:00") == "781:00:00:00"
  {
    StripStop("781:00:00:00");
  }

  lemma Joined22492800()
    ensures Join(["781", "00", "00", "00"], ":") == "781:00:00:00"
  {
  }

  lemma Clock22492800()
    ensures ChronoText(Breakdown(781, 0, 0, Whole(0))) == "781:00:00:00"
  {
    Groups22492800();
    Joined22492800();
    Strip22492800();
    assert DropLeadingZero("781:00:00:00") == "781:00:00:00";
  }

  /** 22492800 seconds in the five styles. */
  lemma Example22492800()
    ensures Output(Whole(22492800), Style(Micro)) == Some("781d")
    ensures Output(Whole(22492800), Style(Short)) == Some("781d")
    ensures Output(Whole(22492800), Style(Default)) == Some("781 days")
    ensures Output(Whole(22492800), Style(Long)) == Some("781 days")
    ensures Output(Whole(22492800), Style(Chrono)) == Some("781:00:00:00")
  {
    Example22492800Micro();
    Example22492800Short();
    Example22492800Default();
    Example22492800Long();
    Clock22492800();
    BreakDown22492800();
  }

  lemma BreakDown11404800()
    ensures BreakDown(Normalize(Whole(11404800)), false) == Breakdown(396, 0, 0, Whole(0))
  {
    NormalizeCanonical(Whole(11404800), Whole(11404800));
  }

  lemma Output11404800(f: Format)
    requires f != Chrono
    ensures Output(Whole(11404800), Style(f)) == Some(Humanize(Term(Whole(396), Day), f))
  {
    var ts := [Term(Whole(396), Day)];
    assert Shown(Breakdown(396, 0, 0, Whole(0)), Style(f)) == ts;
    BreakDown11404800();
    OutputShown(Whole(11404800), Style(f), ts);
    JoinOneTerm(ts, f);
  }

  lemma Output11404800Micro()
    ensures Output(Whole(11404800), Style(Micro)) == Some(Humanize(Term(Whole(396), Day), Micro))
  {
    Output11404800(Micro);
  }

  lemma Glue11404800Micro(h1: string)
    requires h1 == "396d"
    ensures h1 == "396d"
  {
  }

  lemma Text11404800Micro()
    ensures Humanize(Term(Whole(396), Day), Micro) == "396d"
  {
    Words396DayMicro();
    Glue11404800Micro(Humanize(Term(Whole(396), Day), Micro));
  }

  lemma Example11404800Micro()
    ensures Output(Whole(11404800), Style(Micro)) == Some("396d")
  {
    Output11404800Micro();
    Text11404800Micro();
  }

  lemma Output11404800Short()
    ensures Output(Whole(11404800), Style(Short)) == Some(Humanize(Term(Whole(396), Day), Short))
  {
    Output11404800(Short);
  }

  lemma Glue11404800Short(h1: string)
    requires h1 == "396d"
    ensures h1 == "396d"
  {
  }

  lemma Text11404800Short()
    ensures Humanize(Term(Whole(396), Day), Short) == "396d"
  {
    Words396DayShort();
    Glue11404800Short(Humanize(Term(Whole(396), Day), Short));
  }

  lemma Example11404800Short()
    ensures Output(Whole(11404800), Style(Short)) == Some("396d")
  {
    Output11404800Short();
    Text11404800Short();
  }

  lemma Output11404800Default()
    ensures Output(Whole(11404800), Style(Default)) == Some(Humanize(Term(Whole(396), Day), Default))
  {
    Output11404800(Default);
  }

  lemma Glue11404800Default(h1: string)
    requires h1 == "396 days"
    ensures h1 == "396 days"
  {
  }

  lemma Text11404800Default()
    ensures Humanize(Term(Whole(396), Day), Default) == "396 days"
  {
    Words396DayDefault();
    Glue11404800Default(Humanize(Term(Whole(396), Day), Default));
  }

  lemma Example11404800Default()
    ensures Output(Whole(11404800), Style(Default)) == Some("396 days")
  {
    Output11404800Default();
    Text11404800Default();
  }

  lemma Output11404800Long()
    ensures Output(Whole(11404800), Style(Long)) == Some(Humanize(Term(Whole(396), Day), Long))
  {
    Output11404800(Long);
  }

  lemma Glue11404800Long(h1: string)
    requires h1 == "396 days"
    ensures h1 == "396 days"
  {
  }

  lemma Text11404800Long()
    ensures Humanize(Term(Whole(396), Day), Long) == "396 days"
  {
    Words396DayLong();
    Glue11404800Long(Humanize(Term(Whole(396), Day), Long));
  }

  lemma Example11404800Long()
    ensures Output(Whole(11404800), Style(Long)) == Some("396 days")
  {
    Output11404800Long();
    Text11404800Long();
  }

  lemma Groups11404800()
    ensures ChronoGroups(Breakdown(396, 0, 0, Whole(0))) == ["396", "00", "00", "00"]
  {
    SecondsGroupWhole(0);
    Pad2Small(0);
    Pad2Of396();
  }

  lemma Strip11404800()
    ensures StripZeroGroups("396:00:00:00") == "396:00:00:00"
  {
    StripStop("396:00:00:00");
  }

  lemma Joined11404800()
    ensures Join(["396", "00", "00", "00"], ":") == "396:00:00:00"
  {
  }

  lemma Clock11404800()
    ensures ChronoText(Breakdown(396, 0, 0, Whole(0))) == "396:00:00:00"
  {
    Groups11404800();
    Joined11404800();
    Strip11404800();
    assert DropLeadingZero("396:00:00:00") == "396:00:00:00";
  }

  /** 11404800 seconds in the five styles. */
  lemma Example11404800()
    ensures Output(Whole(11404800), Style(Micro)) == Some("396d")
    ensures Output(Whole(11404800), Style(Short)) == Some("396d")
    ensures Output(Whole(11404800), Style(Default)) == Some("396 days")
    ensures Output(Whole(11404800), Style(Long)) == Some("396 days")
    ensures Output(Whole(11404800), Style(Chrono)) == Some("396:00:00:00")
  {
    Example11404800Micro();
    Example11404800Short();
    Example11404800Default();
    Example11404800Long();
    Clock11404800();
    BreakDown11404800();
  }

  /** With keep_zero set, a zero duration is shown as zero seconds in every word format. */
  lemma OutputKeptZero(f: Format)
    requires f != Chrono
    ensures Output(Whole(0), OutputOptions(f, true, false, None)) == Some(Humanize(Term(Whole(0), Second), f))
  {
    var ts := [Term(Whole(0), Second)];
    ShownKeptZero(f);
    OutputShown(Whole(0), OutputOptions(f, true, false, None), ts);
    JoinOneTerm(ts, f);
  }

  lemma ShownKeptZero(f: Format)
    ensures Shown(BreakDown(Normalize(Whole(0)), false), OutputOptions(f, true, false, None)) == [Term(Whole(0), Second)]
  {
    BreakDownZero();
    ShownZero(f);
  }

  lemma BreakDownZero()
    ensures BreakDown(Normalize(Whole(0)), false) == Breakdown(0, 0, 0, Whole(0))
  {
    NormalizeCanonical(Whole(0), Whole(0));
  }

  lemma ExampleKeptZeroMicro()
    ensures Output(Whole(0), OutputOptions(Micro, true, false, None)) == Some("0s")
  {
    OutputKeptZero(Micro);
    Words0SecondMicro();
  }

  lemma ExampleKeptZeroShort()
    ensures Output(Whole(0), OutputOptions(Short, true, false, None)) == Some("0s")
  {
    OutputKeptZero(Short);
    Words0SecondShort();
  }

  lemma ExampleKeptZeroDefault()
    ensures Output(Whole(0), OutputOptions(Default, true, false, None)) == Some("0 secs")
  {
    OutputKeptZero(Default);
    Words0SecondDefault();
  }

  lemma ExampleKeptZeroLong()
    ensures Output(Whole(0), OutputOptions(Long, true, false, None)) == Some("0 seconds")
  {
    OutputKeptZero(Long);
    Words0SecondLong();
  }

  lemma BreakDownHoursOnly()
    ensures BreakDown(Normalize(Whole(34128900)), true) == Breakdown(0, 9480, 15, Whole(0))
  {
    NormalizeCanonical(Whole(34128900), Whole(34128900));
  }

  lemma OutputHoursOnlyDefault()
    ensures Output(Whole(34128900), OutputOptions(Default, false, true, None)) == Some(Humanize(Term(Whole(9480), Hour), Default) + Joiner(Default) + Humanize(Term(Whole(15), Minute), Default))
  {
    var ts := [Term(Whole(9480), Hour), Term(Whole(15), Minute)];
    assert Shown(Breakdown(0, 9480, 15, Whole(0)), OutputOptions(Default, false, true, None)) == ts;
    BreakDownHoursOnly();
    OutputShown(Whole(34128900), OutputOptions(Default, false, true, None), ts);
    JoinTwoTerms(ts, Default);
  }

  lemma GlueHoursOnlyDefault(h1: string, h2: string)
    requires h1 == "9480 hrs" && h2 == "15 mins"
    ensures h1 + Joiner(Default) + h2 == "9480 hrs 15 mins"
  {
  }

  lemma TextHoursOnlyDefault()
    ensures Humanize(Term(Whole(9480), Hour), Default) + Joiner(Default) + Humanize(Term(Whole(15), Minute), Default) == "9480 hrs 15 mins"
  {
    Words9480HourDefault();
    Words15MinuteDefault();
    GlueHoursOnlyDefault(Humanize(Term(Whole(9480), Hour), Default), Humanize(Term(Whole(15), Minute), Default));
  }

  lemma ExampleHoursOnlyDefault()
    ensures Output(Whole(34128900), OutputOptions(Default, false, true, None)) == Some("9480 hrs 15 mins")
  {
    OutputHoursOnlyDefault();
    TextHoursOnlyDefault();
  }

  lemma OutputTwoUnitsDefault()
    ensures Output(Whole(14461), OutputOptions(Default, false, false, Some(2))) == Some(Humanize(Term(Whole(4), Hour), Default) + Joiner(Default) + Humanize(Term(Whole(1), Minute), Default))
  {
    var ts := [Term(Whole(4), Hour), Term(Whole(1), Minute)];
    assert Shown(Breakdown(0, 4, 1, Whole(1)), OutputOptions(Default, false, false, Some(2))) == ts;
    BreakDown14461();
    OutputShown(Whole(14461), OutputOptions(Default, false, false, Some(2)), ts);
    JoinTwoTerms(ts, Default);
  }

  lemma GlueTwoUnitsDefault(h1: string, h2: string)
    requires h1 == "4 hrs" && h2 == "1 min"
    ensures h1 + Joiner(Default) + h2 == "4 hrs 1 min"
  {
  }

  lemma TextTwoUnitsDefault()
    ensures Humanize(Term(Whole(4), Hour), Default) + Joiner(Default) + Humanize(Term(Whole(1), Minute), Default) == "4 hrs 1 min"
  {
    Words4HourDefault();
    Words1MinuteDefault();
    GlueTwoUnitsDefault(Humanize(Term(Whole(4), Hour), Default), Humanize(Term(Whole(1), Minute), Default));
  }

  lemma ExampleTwoUnitsDefault()
    ensures Output(Whole(14461), OutputOptions(Default, false, false, Some(2))) == Some("4 hrs 1 min")
  {
    OutputTwoUnitsDefault();
    TextTwoUnitsDefault();
  }

  lemma BreakDown3834061()
    ensures BreakDown(Normalize(Whole(3834061)), false) == Breakdown(133, 1, 1, Whole(1))
  {
    NormalizeCanonical(Whole(3834061), Whole(3834061));
  }

  lemma OutputThreeUnitsLong()
    ensures Output(Whole(3834061), OutputOptions(Long, false, false, Some(3))) == Some(Humanize(Term(Whole(133), Day), Long) + Joiner(Long) + Humanize(Term(Whole(1), Hour), Long) + Joiner(Long) + Humanize(Term(Whole(1), Minute), Long))
  {
    var ts := [Term(Whole(133), Day), Term(Whole(1), Hour), Term(Whole(1), Minute)];
    assert Shown(Breakdown(133, 1, 1, Whole(1)), OutputOptions(Long, false, false, Some(3))) == ts;
    BreakDown3834061();
    OutputShown(Whole(3834061), OutputOptions(Long, false, false, Some(3)), ts);
    JoinThreeTerms(ts, Long);
  }

  lemma GlueThreeUnitsLong(h1: string, h2: string, h3: string)
    requires h1 == "133 days" && h2 == "1 hour" && h3 == "1 minute"
    ensures h1 + Joiner(Long) + h2 + Joiner(Long) + h3 == "133 days 1 hour 1 minute"
  {
  }

  lemma TextThreeUnitsLong()
    ensures Humanize(Term(Whole(133), Day), Long) + Joiner(Long) + Humanize(Term(Whole(1), Hour), Long) + Joiner(Long) + Humanize(Term(Whole(1), Minute), Long) == "133 days 1 hour 1 minute"
  {
    Words133DayLong();
    Words1HourLong();
    Words1MinuteLong();
    GlueThreeUnitsLong(Humanize(Term(Whole(133), Day), Long), Humanize(Term(Whole(1), Hour), Long), Humanize(Term(Whole(1), Minute), Long));
  }

  lemma ExampleThreeUnitsLong()
    ensures Output(Whole(3834061), OutputOptions(Long, false, false, Some(3))) == Some("133 days 1 hour 1 minute")
  {
    OutputThreeUnitsLong();
    TextThreeUnitsLong();
  }

  lemma GroupsZero()
    ensures ChronoGroups(Breakdown(0, 0, 0, Whole(0))) == ["00", "00", "00", "00"]
  {
    SecondsGroupWhole(0);
    Pad2Small(0);
  }

  lemma JoinedZero()
    ensures Join(["00", "00", "00", "00"], ":") == "00:00:00:00"
  {
  }

  lemma StripZero()
    ensures StripZeroGroups("00:00:00:00") == "00"
  {
    assert "00:00:00:00" == "00:" + "00:00:00";
    StripStep("00:00:00");
    assert "00:00:00" == "00:" + "00:00";
    StripStep("00:00");
    assert "00:00" == "00:" + "00";
    StripStep("00");
  }

  lemma ClockZero()
    ensures ChronoText(Breakdown(0, 0, 0, Whole(0))) == "0"
  {
    GroupsZero();
    JoinedZero();
    StripZero();
    assert DropLeadingZero("00") == "0";
  }

  /** Zero in chrono style is "0", whether or not zeros are kept. */
  lemma ChronoZero(keep: bool)
    ensures Output(Whole(0), OutputOptions(Chrono, keep, false, None)) == Some("0")
  {
    BreakDownZero();
    ClockZero();
  }

  /** Zero seconds in every style, with and without `keep_zero`. */
  lemma KeepZeroExamples()
    ensures Output(Whole(0), OutputOptions(Micro, true, false, None)) == Some("0s")
    ensures Output(Whole(0), OutputOptions(Short, true, false, None)) == Some("0s")
    ensures Output(Whole(0), OutputOptions(Default, true, false, None)) == Some("0 secs")
    ensures Output(Whole(0), OutputOptions(Long, true, false, None)) == Some("0 seconds")
    ensures Output(Whole(0), OutputOptions(Chrono, true, false, None)) == Some("0")
    ensures Output(Whole(0), OutputOptions(Micro, false, false, None)) == None
    ensures Output(Whole(0), OutputOptions(Short, false, false, None)) == None
    ensures Output(Whole(0), OutputOptions(Default, false, false, None)) == None
    ensures Output(Whole(0), OutputOptions(Long, false, false, None)) == None
    ensures Output(Whole(0), OutputOptions(Chrono, false, false, None)) == Some("0")
  {
    ExampleKeptZeroMicro();
    ExampleKeptZeroShort();
    ExampleKeptZeroDefault();
    ExampleKeptZeroLong();
    ChronoZero(true);
    ChronoZero(false);
  }

  /** With no options at all, `output` uses the default style. */
  lemma DefaultFormatExample()
    ensures Output(Whole(8400), OutputDefaults) == Some("2 hrs 20 mins")
  {
    assert OutputDefaults == Style(Default);
    Example8400Default();
  }
}
