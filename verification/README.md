# chronic_duration, modelled in Dafny

This project models chronic_duration, a small Ruby library with two jobs:

- `parse` reads a natural-language duration such as "2 hrs 20 min", "three mins four sec", "1:20" or "47 yrs 6 mos and 4.5d" and returns the number of seconds it stands for.
- `output` writes a number of seconds back as text in one of five styles: micro (`1min20s`), short (`1min 20s`), default (`1 min 20 secs`), long (`1 minute 20 seconds`) and chrono (`1:20`).

The library uses a working calendar, not the civil one:

| unit | length |
|---|---|
| minute | 60 s |
| hour | 60 min |
| day | 8 hours |
| week | 5 days |
| month | 22 days |
| year | 260 days |

The model is purely functional: datatypes, functions and lemmas. Durations are exact decimals (`Decimals.Decimal`: a natural mantissa and a number of fraction digits). Everything the library computes with floating point is therefore computed exactly here.

Modules, in dependency order:

- `Wrappers`: `Option` and `Result`.
- `Text`: ASCII lower-casing, digit strings, splitting and joining.
- `Decimals`: exact decimals, their value, sum and canonical form.
- `Units`: the unit table, the unit spellings `parse` accepts, the words each output style writes, and the total of a list of terms.
- `Lexer`: splitting text into words. A number glued to its unit, as in `4min11.5s`, is split into two words.
- `Chrono`: `filter_by_type`. A clock string `a:b:c` is rewritten to `a hours b minutes c seconds`, with groups read from the right.
- `Cleanup`: `cleanup`. It lower-cases the text, applies the chrono filter, spells number words as digits, drops filler words and stray commas, and maps unit spellings to canonical names. The result is tokens, or an error naming the first word it cannot read.
- `Parser`: `parse`. It reads the tokens as (number, unit) terms, gives a trailing bare number the default unit, sums the terms exactly, and applies `keep_zero` and the raise switch.
- `Formatter`: `output`. It breaks a duration into days, hours, minutes and seconds, which are the largest to smallest units it writes. It then applies `keep_zero`, `limit_to_hours` and `units`, and writes the result in one of the five styles.
- `RoundTrip`, `ChronoTrip`: `parse(output(x))` gives back exactly `x` in every style.
- `CleanupFixpoint`: `cleanup` leaves its own output unchanged.
- `OutputExamples`, `ParseExamples`: each example the library's specification file lists, proved about the model.

## Model

| member | source | states |
|---|---|---|
| Units.SyntheticCalendar | spec/lib/chronic_duration_spec.rb:16-29 | a minute is 60 s, an hour 60 min, a day 8 h, a week 5 days, a month 22 days and a year 260 days |
| Units.Total | spec/lib/chronic_duration_spec.rb:7-31 | the sum is exactly the magnitudes times their unit lengths, written with as many fraction digits as its most precise term |
| Units.SecondsAppend | spec/lib/chronic_duration_spec.rb:7-31 | the seconds of two term lists added together are the seconds of their concatenation |
| Units.SecondsPrefix | spec/lib/chronic_duration_spec.rb:196-198 | the first n terms are never worth more than all of them |
| Units.CanonicalNameLookup | spec/lib/chronic_duration_spec.rb:241-251 | the canonical unit name cleanup writes is read back as the same unit |
| Units.DisplayWordLookup | spec/lib/chronic_duration_spec.rb:209-215 | every unit word any output style writes, singular or plural, is read back as the unit it came from |
| Decimals.Normalize | spec/lib/chronic_duration_spec.rb:99-106 | the canonical spelling (no trailing fraction zero) of the same value, with no more fraction digits |
| Decimals.CanonicalUnique | spec/lib/chronic_duration_spec.rb:99-106 | two canonical decimals with the same value are the same decimal |
| Decimals.Add | spec/lib/chronic_duration_spec.rb:7-31 | the exact sum of two decimals, at the larger of their scales |
| Text.Lower | spec/lib/chronic_duration_spec.rb:11-12 | ASCII downcase: same length, each letter A-Z moved to a-z, every other character kept |
| Text.SplitJoin | spec/lib/chronic_duration_spec.rb:8-10 | splitting colon-joined groups on the colon gives the groups back |
| Lexer.LiteralValue | spec/lib/chronic_duration_spec.rb:60-66 | the decimal a numeric literal denotes is a Float exactly when the literal has a point |
| Lexer.LiteralValueDigits | spec/lib/chronic_duration_spec.rb:18-19 | a numeric literal is worth its whole digits plus its fraction digits over the matching power of ten |
| Lexer.LexPhrase | spec/lib/chronic_duration_spec.rb:249-251 | lexing a phrase gives back its words, also where a number touches its unit as in 4min11.5s |
| Lexer.LexSpaces | spec/lib/chronic_duration_spec.rb:245-247 | whitespace before the text does not change the words |
| Chrono.FilterByType | spec/lib/chronic_duration_spec.rb:223-235 | text that is not clock-shaped comes back unchanged; the result is missing exactly for a clock string of more than six groups |
| Chrono.GroupWords | spec/lib/chronic_duration_spec.rb:225-231 | each clock group is followed by the canonical name of its unit, read from the right: seconds, minutes, hours, days |
| ChronoTrip.ClockShape | spec/lib/chronic_duration_spec.rb:223-231 | two to six numeric groups joined by colons are clock-shaped and split back into the same groups |
| ChronoTrip.ClockTokens | spec/lib/chronic_duration_spec.rb:8-10 | a clock string cleans up to group, unit, group, unit, ... with units read from the right |
| Cleanup.CleanupIgnoresCase | spec/lib/chronic_duration_spec.rb:11-12 | cleanup gives the same tokens for a text and its lower-case form |
| Cleanup.NumerizeWordwise | spec/lib/chronic_duration_spec.rb:13 | without a ten followed by a digit word, number words are spelled out one by one and nothing else changes |
| Cleanup.ClassifyPhrase | spec/lib/chronic_duration_spec.rb:241-251 | reading the cleaned words gives the tokens of the phrase word by word, filler dropped, the first unknown word as the error |
| Cleanup.CleanupPhrase | spec/lib/chronic_duration_spec.rb:239-251 | a lower-case, non-clock phrase without a compound number cleans up to its word-by-word reading, with a leading unit counting one |
| CleanupFixpoint.CleanupIdempotent | spec/lib/chronic_duration_spec.rb:241-251 | text that cleans up to numbers each followed by a unit cleans up to a string that cleanup leaves unchanged |
| Parser.ToTerms | spec/lib/chronic_duration_spec.rb:7-31 | the tokens are read as terms exactly when numbers and units alternate starting with a number; one term per number |
| Parser.ToTermsAt | spec/lib/chronic_duration_spec.rb:68-69 | term i is the number at position 2i with the unit after it, or the default unit when that number is last |
| Parser.Parse | spec/lib/chronic_duration_spec.rb:34-58 | without raise mode parse never fails; a present result is nonzero unless keep_zero is set |
| Parser.ParseIgnoresCase | spec/lib/chronic_duration_spec.rb:11-12 | parse gives the same result for a text and its lower-case form |
| Parser.ToTermsFloat | spec/lib/chronic_duration_spec.rb:60-66 | the terms read from well-formed tokens have fraction digits exactly when some number token was written with a point |
| Parser.ParseFloat | spec/lib/chronic_duration_spec.rb:60-66 | for every text, a present parse result is a Float exactly when some number in the cleaned text was written with a point; spelled-out numbers never are |
| RoundTrip.ParseTokens | spec/lib/chronic_duration_spec.rb:7-31 | text that cleans up to alternating numbers and units parses to the exact total of those terms |
| RoundTrip.ParsePairs | spec/lib/chronic_duration_spec.rb:209-215 | counts and unit words written alternately, apart or touching, parse to the exact total of the terms they spell |
| RoundTrip.ParseRendered | spec/lib/chronic_duration_spec.rb:209-215 | the text output writes for any nonempty list of terms, in every style but chrono, parses to the exact total of those terms |
| RoundTrip.OutputRoundTrip | spec/lib/chronic_duration_spec.rb:209-215 | parse(output(x)) == x exactly in micro, short, default and long style; output writes something exactly when x is nonzero or keep_zero is set |
| RoundTrip.OutputUnitsBound | spec/lib/chronic_duration_spec.rb:196-199 | with units: n the text output writes parses back to at most the duration |
| ChronoTrip.ParseBare | spec/lib/chronic_duration_spec.rb:68-69 | a bare number parses to that many of the default unit, or to nil when it is zero and zero is not kept |
| ChronoTrip.ParseClock | spec/lib/chronic_duration_spec.rb:8-10 | two to six clock groups parse to the total of the groups read from the right as seconds, minutes, hours, days, months, years |
| ChronoTrip.StripJoin | spec/lib/chronic_duration_spec.rb:113-129 | dropping leading 00: groups from joined clock groups drops exactly the leading 00 groups |
| ChronoTrip.ClockTotal | spec/lib/chronic_duration_spec.rb:113-129 | the clock terms left after the zero groups are dropped add up to the canonical duration |
| ChronoTrip.ChronoRoundTrip | spec/lib/chronic_duration_spec.rb:209-215 | parse(output(x, chrono)) == x exactly, when the default unit is seconds; chrono output is never missing |
| Formatter.BreakDown | spec/lib/chronic_duration_spec.rb:123-154 | greedy breakdown into whole days, hours and minutes and the seconds left, worth the whole value; minutes below 60, hours below 8 unless limit_to_hours, and then no days |
| Formatter.TermsTotal | spec/lib/chronic_duration_spec.rb:82-154 | a duration shows no term exactly when it is zero; otherwise the terms it shows total its canonical spelling |
| Formatter.ShownEmpty | spec/lib/chronic_duration_spec.rb:165-190 | output shows no term exactly when the duration is zero and zero is not kept, or no units are asked for |
| Formatter.ShownSeconds | spec/lib/chronic_duration_spec.rb:196-198 | the terms kept by units: n are worth at most the duration |
| Formatter.Limit | spec/lib/chronic_duration_spec.rb:196-198 | units: n keeps the first n terms, in order, and drops the rest |
| Formatter.DecimalStrLiteral | spec/lib/chronic_duration_spec.rb:91-106 | the number output writes for a count is a numeric literal that reads back as the same decimal |
| Formatter.Output | spec/lib/chronic_duration_spec.rb:165-190 | output is missing exactly when the style is not chrono and either the duration is a zero not kept or no units are asked for |
| ChronoTrip.ChronoShape | spec/lib/chronic_duration_spec.rb:83-154 | chrono text is the clock groups joined by colons: the leading groups dropped are all zero, the first group kept is nonzero unless it is the seconds and is written without padding, every later group has at least two digits before any point |
| ParseExamples.ParsePhrase | spec/lib/chronic_duration_spec.rb:11-31 | a plain phrase read word by word as alternating counts and units parses to the total of those terms |
| ParseExamples.ParseUnknown | spec/lib/chronic_duration_spec.rb:44-50 | in raise mode a phrase with an unknown word fails naming that word, as these lines show for "23 gobblygoos"; without raise mode it is nil, a choice of this model (see Left out) |
| ParseExamples.FilterClockTwo | spec/lib/chronic_duration_spec.rb:225-227 | two clock groups a:b become a minutes b seconds |
| ParseExamples.FilterClockThree | spec/lib/chronic_duration_spec.rb:229-231 | three clock groups a:b:c become a hours b minutes c seconds |
| ParseExamples.CleanupLeadingSpaces | spec/lib/chronic_duration_spec.rb:245-247 | spaces in front of a non-clock text do not change its cleanup tokens |
| OutputExamples.OutputKeptZero | spec/lib/chronic_duration_spec.rb:165-173 | with keep_zero set a zero duration is written as zero seconds in every word style |
| OutputExamples.Example80Micro | spec/lib/chronic_duration_spec.rb:85 | output(80, format: micro) is "1min20s" |
| OutputExamples.Example80Short | spec/lib/chronic_duration_spec.rb:86 | output(80, format: short) is "1min 20s" |
| OutputExamples.Example80Default | spec/lib/chronic_duration_spec.rb:87 | output(80, format: default) is "1 min 20 secs" |
| OutputExamples.Example80Long | spec/lib/chronic_duration_spec.rb:88 | output(80, format: long) is "1 minute 20 seconds" |
| OutputExamples.Example80 | spec/lib/chronic_duration_spec.rb:83-90 | output(80) in micro, short, default, long and chrono style is "1min20s", "1min 20s", "1 min 20 secs", "1 minute 20 seconds", "1:20" |
| OutputExamples.Example80Point51Micro | spec/lib/chronic_duration_spec.rb:93 | output(80.51, format: micro) is "1min20.51s" |
| OutputExamples.Example80Point51Short | spec/lib/chronic_duration_spec.rb:94 | output(80.51, format: short) is "1min 20.51s" |
| OutputExamples.Example80Point51Default | spec/lib/chronic_duration_spec.rb:95 | output(80.51, format: default) is "1 min 20.51 secs" |
| OutputExamples.Example80Point51Long | spec/lib/chronic_duration_spec.rb:96 | output(80.51, format: long) is "1 minute 20.51 seconds" |
| OutputExamples.Example80Point51 | spec/lib/chronic_duration_spec.rb:91-98 | output(80.51) in micro, short, default, long and chrono style is "1min20.51s", "1min 20.51s", "1 min 20.51 secs", "1 minute 20.51 seconds", "1:20.51" |
| OutputExamples.Example80Point51928Micro | spec/lib/chronic_duration_spec.rb:101 | output(80.51928, format: micro) is "1min20.51928s" |
| OutputExamples.Example80Point51928Short | spec/lib/chronic_duration_spec.rb:102 | output(80.51928, format: short) is "1min 20.51928s" |
| OutputExamples.Example80Point51928Default | spec/lib/chronic_duration_spec.rb:103 | output(80.51928, format: default) is "1 min 20.51928 secs" |
| OutputExamples.Example80Point51928Long | spec/lib/chronic_duration_spec.rb:104 | output(80.51928, format: long) is "1 minute 20.51928 seconds" |
| OutputExamples.Example80Point51928 | spec/lib/chronic_duration_spec.rb:99-106 | output(80.51928) in micro, short, default, long and chrono style is "1min20.51928s", "1min 20.51928s", "1 min 20.51928 secs", "1 minute 20.51928 seconds", "1:20.51928" |
| OutputExamples.Example14461Micro | spec/lib/chronic_duration_spec.rb:109 | output(14461, format: micro) is "4h1min1s" |
| OutputExamples.Example14461Short | spec/lib/chronic_duration_spec.rb:110 | output(14461, format: short) is "4h 1min 1s" |
| OutputExamples.Example14461Default | spec/lib/chronic_duration_spec.rb:111 | output(14461, format: default) is "4 hrs 1 min 1 sec" |
| OutputExamples.Example14461Long | spec/lib/chronic_duration_spec.rb:112 | output(14461, format: long) is "4 hours 1 minute 1 second" |
| OutputExamples.Example14461 | spec/lib/chronic_duration_spec.rb:107-114 | output(14461) in micro, short, default, long and chrono style is "4h1min1s", "4h 1min 1s", "4 hrs 1 min 1 sec", "4 hours 1 minute 1 second", "4:01:01" |
| OutputExamples.Example8400Micro | spec/lib/chronic_duration_spec.rb:117 | output(8400, format: micro) is "2h20min" |
| OutputExamples.Example8400Short | spec/lib/chronic_duration_spec.rb:118 | output(8400, format: short) is "2h 20min" |
| OutputExamples.Example8400Default | spec/lib/chronic_duration_spec.rb:119 | output(8400, format: default) is "2 hrs 20 mins" |
| OutputExamples.Example8400Long | spec/lib/chronic_duration_spec.rb:120 | output(8400, format: long) is "2 hours 20 minutes" |
| OutputExamples.Example8400 | spec/lib/chronic_duration_spec.rb:115-122 | output(8400) in micro, short, default, long and chrono style is "2h20min", "2h 20min", "2 hrs 20 mins", "2 hours 20 minutes", "2:20:00" |
| OutputExamples.Example3830400Micro | spec/lib/chronic_duration_spec.rb:125 | output(3830400, format: micro) is "133d" |
| OutputExamples.Example3830400Short | spec/lib/chronic_duration_spec.rb:126 | output(3830400, format: short) is "133d" |
| OutputExamples.Example3830400Default | spec/lib/chronic_duration_spec.rb:127 | output(3830400, format: default) is "133 days" |
| OutputExamples.Example3830400Long | spec/lib/chronic_duration_spec.rb:128 | output(3830400, format: long) is "133 days" |
| OutputExamples.Example3830400 | spec/lib/chronic_duration_spec.rb:123-130 | output(3830400) in micro, short, default, long and chrono style is "133d", "133d", "133 days", "133 days", "133:00:00:00" |
| OutputExamples.Example7516800Micro | spec/lib/chronic_duration_spec.rb:133 | output(7516800, format: micro) is "261d" |
| OutputExamples.Example7516800Short | spec/lib/chronic_duration_spec.rb:134 | output(7516800, format: short) is "261d" |
| OutputExamples.Example7516800Default | spec/lib/chronic_duration_spec.rb:135 | output(7516800, format: default) is "261 days" |
| OutputExamples.Example7516800Long | spec/lib/chronic_duration_spec.rb:136 | output(7516800, format: long) is "261 days" |
| OutputExamples.Example7516800 | spec/lib/chronic_duration_spec.rb:131-138 | output(7516800) in micro, short, default, long and chrono style is "261d", "261d", "261 days", "261 days", "261:00:00:00" |
| OutputExamples.Example22492800Micro | spec/lib/chronic_duration_spec.rb:141 | output(22492800, format: micro) is "781d" |
| OutputExamples.Example22492800Short | spec/lib/chronic_duration_spec.rb:142 | output(22492800, format: short) is "781d" |
| OutputExamples.Example22492800Default | spec/lib/chronic_duration_spec.rb:143 | output(22492800, format: default) is "781 days" |
| OutputExamples.Example22492800Long | spec/lib/chronic_duration_spec.rb:144 | output(22492800, format: long) is "781 days" |
| OutputExamples.Example22492800 | spec/lib/chronic_duration_spec.rb:139-146 | output(22492800) in micro, short, default, long and chrono style is "781d", "781d", "781 days", "781 days", "781:00:00:00" |
| OutputExamples.Example11404800Micro | spec/lib/chronic_duration_spec.rb:149 | output(11404800, format: micro) is "396d" |
| OutputExamples.Example11404800Short | spec/lib/chronic_duration_spec.rb:150 | output(11404800, format: short) is "396d" |
| OutputExamples.Example11404800Default | spec/lib/chronic_duration_spec.rb:151 | output(11404800, format: default) is "396 days" |
| OutputExamples.Example11404800Long | spec/lib/chronic_duration_spec.rb:152 | output(11404800, format: long) is "396 days" |
| OutputExamples.Example11404800 | spec/lib/chronic_duration_spec.rb:147-154 | output(11404800) in micro, short, default, long and chrono style is "396d", "396d", "396 days", "396 days", "396:00:00:00" |
| OutputExamples.ExampleKeptZeroMicro | spec/lib/chronic_duration_spec.rb:168 | output(0, format: micro, keep_zero: true) is "0s" |
| OutputExamples.ExampleKeptZeroShort | spec/lib/chronic_duration_spec.rb:169 | output(0, format: short, keep_zero: true) is "0s" |
| OutputExamples.ExampleKeptZeroDefault | spec/lib/chronic_duration_spec.rb:170 | output(0, format: default, keep_zero: true) is "0 secs" |
| OutputExamples.ExampleKeptZeroLong | spec/lib/chronic_duration_spec.rb:171 | output(0, format: long, keep_zero: true) is "0 seconds" |
| OutputExamples.ChronoZero | spec/lib/chronic_duration_spec.rb:172-180 | output(0, format: chrono) is "0" whether or not keep_zero is set |
| OutputExamples.KeepZeroExamples | spec/lib/chronic_duration_spec.rb:165-190 | output(0) with keep_zero is "0s", "0s", "0 secs", "0 seconds", "0"; without it nil in every word style and "0" in chrono |
| OutputExamples.ExampleHoursOnlyDefault | spec/lib/chronic_duration_spec.rb:192-194 | output(34128900, limit_to_hours: true) is "9480 hrs 15 mins" |
| OutputExamples.ExampleTwoUnitsDefault | spec/lib/chronic_duration_spec.rb:197 | output(14461, units: 2) is "4 hrs 1 min" |
| OutputExamples.ExampleThreeUnitsLong | spec/lib/chronic_duration_spec.rb:198 | output(3834061, units: 3, format: long) is "133 days 1 hour 1 minute" |
| OutputExamples.DefaultFormatExample | spec/lib/chronic_duration_spec.rb:201-205 | output(8400) with no options is "2 hrs 20 mins" |
| ParseExamples.Example1Colon20 | spec/lib/chronic_duration_spec.rb:8 | parse("1:20") is 80 |
| ParseExamples.Example1Colon20Point51 | spec/lib/chronic_duration_spec.rb:9 | parse("1:20.51") is 80.51 |
| ParseExamples.Example4Colon01Colon01 | spec/lib/chronic_duration_spec.rb:10 | parse("4:01:01") is 14461 |
| ParseExamples.Example3Mins4Sec | spec/lib/chronic_duration_spec.rb:11 | parse("3 mins 4 sec") is 184 |
| ParseExamples.Example3Mins4SecCapitalised | spec/lib/chronic_duration_spec.rb:12 | parse("3 Mins 4 Sec") is 184 |
| ParseExamples.ExampleThreeMinsFourSec | spec/lib/chronic_duration_spec.rb:13 | parse("three mins four sec") is 184 |
| ParseExamples.Example2Hrs20Min | spec/lib/chronic_duration_spec.rb:14 | parse("2 hrs 20 min") is 8400 |
| ParseExamples.Example2h20min | spec/lib/chronic_duration_spec.rb:15 | parse("2h20min") is 8400 |
| ParseExamples.Example6Mos1Day | spec/lib/chronic_duration_spec.rb:16 | parse("6 mos 1 day") is 3830400 |
| ParseExamples.Example1Year6Mos1Day | spec/lib/chronic_duration_spec.rb:17 | parse("1 year 6 mos 1 day") is 11318400 |
| ParseExamples.Example2Point5Hrs | spec/lib/chronic_duration_spec.rb:18 | parse("2.5 hrs") is 9000.0 |
| ParseExamples.Example47Yrs6MosAnd4Point5d | spec/lib/chronic_duration_spec.rb:19 | parse("47 yrs 6 mos and 4.5d") is 355867200.0 |
| ParseExamples.ExampleTwoHoursAndTwentyMinutes | spec/lib/chronic_duration_spec.rb:20 | parse("two hours and twenty minutes") is 8400 |
| ParseExamples.ExampleFourHoursAndFortyMinutes | spec/lib/chronic_duration_spec.rb:21 | parse("four hours and forty minutes") is 16800 |
| ParseExamples.ExampleFourHoursAndFourtyMinutes | spec/lib/chronic_duration_spec.rb:22 | parse("four hours, and fourty minutes") is 16800 |
| ParseExamples.Example3WeeksAnd2Days | spec/lib/chronic_duration_spec.rb:23 | parse("3 weeks and, 2 days") is 489600 |
| ParseExamples.Example3WeeksPlus2Days | spec/lib/chronic_duration_spec.rb:24 | parse("3 weeks, plus 2 days") is 489600 |
| ParseExamples.Example3WeeksWith2Days | spec/lib/chronic_duration_spec.rb:25 | parse("3 weeks with 2 days") is 489600 |
| ParseExamples.Example1Month | spec/lib/chronic_duration_spec.rb:26 | parse("1 month") is 633600 |
| ParseExamples.Example2Months | spec/lib/chronic_duration_spec.rb:27 | parse("2 months") is 1267200 |
| ParseExamples.Example18Months | spec/lib/chronic_duration_spec.rb:28 | parse("18 months") is 11404800 |
| ParseExamples.Example1Year6Months | spec/lib/chronic_duration_spec.rb:29 | parse("1 year 6 months") is 11289600 |
| ParseExamples.ExampleDay | spec/lib/chronic_duration_spec.rb:30 | parse("day") is 28800 |
| ParseExamples.ExampleMinute30s | spec/lib/chronic_duration_spec.rb:31 | parse("minute 30s") is 90 |
| ParseExamples.Example12Mins3Point141Seconds | spec/lib/chronic_duration_spec.rb:61 | parse("12 mins 3.141 seconds") is 723.141 |
| ParseExamples.Example12Mins3Seconds | spec/lib/chronic_duration_spec.rb:65 | parse("12 mins 3 seconds") is 723 |
| ParseExamples.ExampleGobblygoo | spec/lib/chronic_duration_spec.rb:37 | parse("gobblygoo") is nil, or fails with the unknown word in raise mode |
| ParseExamples.Example23Gobblygoos | spec/lib/chronic_duration_spec.rb:44-50 | in raise mode parse("23 gobblygoos") fails naming gobblygoos; the nil it gives without raise mode is a choice of this model (see Left out) |
| ParseExamples.ExampleZero | spec/lib/chronic_duration_spec.rb:40-58 | parse("0") is nil, and 0 with keep_zero, whatever the default unit |
| ParseExamples.ExampleFloatSeconds | spec/lib/chronic_duration_spec.rb:60-62 | parse("12 mins 3.141 seconds") is a Float |
| ParseExamples.ExampleIntegerSeconds | spec/lib/chronic_duration_spec.rb:64-66 | parse("12 mins 3 seconds") is an Integer |
| ParseExamples.ExampleDefaultMinutes | spec/lib/chronic_duration_spec.rb:68-70 | parse("5", default_unit: minutes) is 300 |
| ParseExamples.ExampleFilter3Colon14 | spec/lib/chronic_duration_spec.rb:225-227 | filter_by_type("3:14") is "3 minutes 14 seconds" |
| ParseExamples.ExampleFilter12Colon10Colon14 | spec/lib/chronic_duration_spec.rb:229-231 | filter_by_type("12:10:14") is "12 hours 10 minutes 14 seconds" |
| ParseExamples.ExampleFilterWords | spec/lib/chronic_duration_spec.rb:233-235 | filter_by_type("4 hours") is "4 hours" |
| ParseExamples.ExampleCleanupFiller | spec/lib/chronic_duration_spec.rb:241-243 | cleanup("4 days and 11 hours") is "4 days 11 hours" |
| ParseExamples.ExampleCleanupSpaces | spec/lib/chronic_duration_spec.rb:245-247 | cleanup("  4 days and 11     hours") is "4 days 11 hours" |
| ParseExamples.ExampleCleanupGlued | spec/lib/chronic_duration_spec.rb:249-251 | cleanup("4min11.5s") is "4 minutes 11.5 seconds" |
| Units.TermSeconds | spec/lib/chronic_duration_spec.rb:7-31 | one term is worth its magnitude times its unit length, at the magnitude's scale |
| Units.Lookup | spec/lib/chronic_duration_spec.rb:7-31 | every spelling the unit table knows is a nonempty run of letters |
| Units.Length | spec/lib/chronic_duration_spec.rb:16-29 | every unit is at least one second long |
| Decimals.NormalizeCanonical | spec/lib/chronic_duration_spec.rb:99-106 | any canonical decimal with the same value is the normal form |
| Lexer.Lex | spec/lib/chronic_duration_spec.rb:245-251 | the words of the text are nonempty and contain no whitespace |
| Cleanup.NumberWordValue | spec/lib/chronic_duration_spec.rb:13 | a number word is worth less than sixty |
| Cleanup.Classify | spec/lib/chronic_duration_spec.rb:241-251 | a word cleanup keeps as a number is a numeric literal |
| Cleanup.CleanupTokens | spec/lib/chronic_duration_spec.rb:239-251 | every number among the cleaned tokens is a numeric literal |
| Cleanup.ReadPhrase | spec/lib/chronic_duration_spec.rb:241-251 | the words of a phrase without a compound number are read one by one, a leading unit counting one |
| Cleanup.ReadingLiteral | spec/lib/chronic_duration_spec.rb:241-251 | a numeric literal is read as that number |
| Cleanup.ReadingUnit | spec/lib/chronic_duration_spec.rb:241-251 | a spelling in the unit table is read as its unit |
| ChronoTrip.DropJoin | spec/lib/chronic_duration_spec.rb:113-129 | dropping one leading 0 from joined clock groups acts on the first group only |
| ChronoTrip.Remaining | spec/lib/chronic_duration_spec.rb:113-129 | after leading 00 groups and one leading 0 are dropped, the remaining groups read back as the later group values; the dropped groups are zero |
| ChronoTrip.JoinInterleave | spec/lib/chronic_duration_spec.rb:241-251 | counts and unit names joined by one separator are the rendered pairs |
| ChronoTrip.ParseChronoText | spec/lib/chronic_duration_spec.rb:209-215 | the chrono text of a breakdown parses to the total of the clock terms it keeps; the ones it drops are zero |
| Formatter.Terms | spec/lib/chronic_duration_spec.rb:82-154 | a breakdown shows at most four terms, none of them zero |
| Formatter.TermsEmpty | spec/lib/chronic_duration_spec.rb:165-190 | a breakdown shows no term exactly when it is worth nothing |
| Formatter.ListedSeconds | spec/lib/chronic_duration_spec.rb:165-190 | the terms a breakdown lists, with or without a kept zero, are worth all of it |
| RoundTrip.CleanupPairs | spec/lib/chronic_duration_spec.rb:209-215 | counts and unit spellings written alternately clean up to numbers each followed by its unit |
| RoundTrip.TermsSpelled | spec/lib/chronic_duration_spec.rb:209-215 | the counts and unit words output writes spell exactly the terms it was given |
| RoundTrip.ZeroTotal | spec/lib/chronic_duration_spec.rb:165-173 | "0 seconds" totals to zero, the canonical spelling of any zero duration |

## Left out

- Floating point: durations are exact decimals. The library returns an Integer or a Float. Here a parse result counts as a Float (`Decimals.IsFloat`) exactly when it has fraction digits; `Parser.ParseFloat` proves that this happens exactly when some number in the text was written with a point.
- The process-wide `raise_exceptions` switch is the field `raiseExceptions` of `Parser.ParseOptions`, passed with every call. With the switch on, a failure is a `Failure` carrying the offending word (the library's `DurationParseError`).
- The library's regular-expression and `instance_eval` machinery is not modelled. Its effect is written out as functions on strings.
- Lower-casing is ASCII only. There is no Unicode case folding.
- Number words: only the words below sixty are modelled, plus the compounds "twenty five" to "fifty nine". "a" and "an" count as 1. Larger spelled-out numbers are not modelled.
- `output` never writes weeks, months or years. Days are the largest unit it emits, as in the examples at lines 123-154 of the specification file.
- The chrono filter accepts two to six groups; groups beyond the hours are read as days, months and years. With more than six groups, `Parser.Parse` fails with `TooManyGroups`, and is nil without the raise switch.
- There is no separate "no digits" error. A text made only of a unit word ("day") reads as one of that unit, as line 30 of the specification file shows.
- A zero total without `keep_zero` is nil whether or not the raise switch is on.
- A text with a word that is neither a number, a unit nor a connective is nil without the raise switch, even when a count stands before the word ("23 gobblygoos"). The specification file pins only the raise-mode failure for that text (lines 44-50) and nil for "gobblygoo" alone (line 37). An implementation that skipped unknown words would meet those lines too. Giving nil here is the model's chosen reading of how the library treats an unknown unit.
- `default_unit` is a `Units.UnitKind`, not a unit name string.
- Negative durations are not modelled: counts are natural numbers.
- lib/chronic_duration.rb is not part of this model. The behaviour follows the library's specification file, spec/lib/chronic_duration_spec.rb.
- The empty example group at lines 217-219 and the RSpec machinery itself are not modelled.
- RoundTrip.OutputRoundTrip: stated only for the word styles, with `units` either absent or at least 4. With fewer units, part of the duration is dropped by design; `RoundTrip.OutputUnitsBound` bounds what comes back. Chrono style is covered separately by `ChronoTrip.ChronoRoundTrip`.
- ChronoTrip.ChronoRoundTrip: stated only for parsing with the default unit seconds. Chrono output of a duration below a minute is a bare number, which another default unit would misread.
- CleanupFixpoint.CleanupIdempotent: stated only for text that cleans up to numbers each followed by a unit. A text ending in a bare number, or an unreadable one, is not covered.
