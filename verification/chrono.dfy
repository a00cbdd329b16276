/**
 * The chrono filter (`filter_by_type`): colon-delimited clock input such as
 * "12:10:14" is rewritten into unit words before the general parse. The
 * groups are read from the right as seconds, minutes, hours, days, months and
 * years (weeks are skipped).
 */
module Chrono {
  import opened Wrappers
  import opened Text
  import opened Units
  import opened Lexer

  predicate IsChronoChar(c: char) { IsDigit(c) || c == '.' || c == ':' }

  /** The units of the colon groups, from the last group leftwards. */
  function GroupUnit(i: nat): (k: UnitKind)
    requires i < 6
    ensures k != Week
  {
    if i == 0 then Second else if i == 1 then Minute else if i == 2 then Hour
    else if i == 3 then Day else if i == 4 then Month else Year
  }

  /**
   * Clock shape: once spaces are removed, two or more numeric literals
   * separated by single colons and nothing else.
   */
  predicate IsChronoShape(s: string)
  {
    && (forall i | 0 <= i < |s| :: s[i] == ' ' || IsChronoChar(s[i]))
    && var gs := Split(RemoveSpaces(s), ':');
    && |gs| >= 2
    && forall k | 0 <= k < |gs| :: IsLiteral(gs[k])
  }

  /** The unit words for clock groups: each reads back as its group's unit, the last as seconds. */
  function GroupNames(gs: seq<string>): (us: seq<string>)
    requires |gs| <= 6
    ensures |us| == |gs| && forall i | 0 <= i < |gs| :: Lookup(us[i]) == Some(GroupUnit(|gs| - 1 - i))
  {
    seq(|gs|, i requires 0 <= i < |gs| => CanonicalName(GroupUnit(|gs| - 1 - i)))
  }

  /** Each group followed by the canonical name of its unit; the last group is seconds. */
  function GroupWords(gs: seq<string>): (ws: seq<string>)
    requires |gs| <= 6
    ensures |ws| == 2 * |gs|
    ensures forall i | 0 <= i < |gs| :: ws[2 * i] == gs[i] && ws[2 * i + 1] == CanonicalName(GroupUnit(|gs| - 1 - i))
  {
    Interleave(gs, GroupNames(gs))
  }

  /**
   * `filter_by_type`: a clock-shaped string becomes "<g> <unit> ..." for its
   * groups; any other string is returned unchanged. More than six groups
   * have no unit to map to and give None.
   */
  function FilterByType(s: string): (r: Option<string>)
    ensures !IsChronoShape(s) ==> r == Some(s)
    ensures r.None? <==> IsChronoShape(s) && |Split(RemoveSpaces(s), ':')| > 6
  {
    if IsChronoShape(s) then
      var gs := Split(RemoveSpaces(s), ':');
      if |gs| > 6 then None else Some(Join(GroupWords(gs), " "))
    else Some(s)
  }
}
