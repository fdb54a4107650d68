/** The time-remaining text shown for the battery. */
module BatteryViewModels {
  import opened Wrappers
  import opened Text

  const Calculating: string := "Calculating..."

  /** "Calculating..." for no positive estimate, "<h>h <m>m" from an hour on, "<m>m" below. */
  function FormatMinutes(minutes: int): (s: string)
    ensures minutes <= 0 ==> s == Calculating
    ensures minutes >= 60 ==> s == NatToString(minutes / 60) + "h " + NatToString(minutes % 60) + "m"
    ensures 0 < minutes < 60 ==> s == NatToString(minutes) + "m"
  {
    if minutes <= 0 then Calculating
    else
      var hours := minutes / 60;
      var mins := minutes % 60;
      if hours > 0 then NatToString(hours) + "h " + NatToString(mins) + "m"
      else NatToString(mins) + "m"
  }

  /** Reads a duration back from "<h>h <m>m" or "<m>m". */
  function ParseMinutes(s: string): Option<int> {
    if |s| >= 2 && s[|s| - 1] == 'm' then ParseParts(Split(s[..|s| - 1], 'h')) else None
  }

  /** The pieces of the text before the final 'm', split at 'h'. */
  function ParseParts(parts: seq<string>): Option<int> {
    if |parts| == 1 && parts[0] != "" && AllDigits(parts[0]) then Some(ParseDigits(parts[0]))
    else if |parts| == 2 && parts[0] != "" && AllDigits(parts[0]) && |parts[1]| >= 2 && parts[1][0] == ' ' && AllDigits(parts[1][1..]) then
      Some(ParseDigits(parts[0]) * 60 + ParseDigits(parts[1][1..]))
    else None
  }

  lemma DigitsHaveNoH(s: string)
    requires AllDigits(s)
    ensures 'h' !in s
  {
  }

  lemma ParseMinutesOnly(ms: string)
    requires AllDigits(ms) && ms != ""
    ensures ParseMinutes(ms + "m") == Some(ParseDigits(ms))
  {
    var s := ms + "m";
    DigitsHaveNoH(ms);
    assert s[..|s| - 1] == ms;
    SplitNoSeparator(ms, 'h');
  }

  lemma ParseHoursAndMinutes(hs: string, ms: string)
    requires AllDigits(hs) && AllDigits(ms) && hs != "" && ms != ""
    ensures ParseMinutes(hs + "h " + ms + "m") == Some(ParseDigits(hs) * 60 + ParseDigits(ms))
  {
    var rest := " " + ms;
    var body := hs + ['h'] + rest;
    var s := body + "m";
    assert s == hs + "h " + ms + "m";
    assert s[..|s| - 1] == body;
    DigitsHaveNoH(hs);
    DigitsHaveNoH(ms);
    assert 'h' !in rest;
    SplitAppend(hs, rest, 'h');
    SplitNoSeparator(rest, 'h');
    assert Split(body, 'h') == [hs, rest];
    ParsePartsHoursMinutes(hs, ms);
  }

  lemma ParsePartsHoursMinutes(hs: string, ms: string)
    requires AllDigits(hs) && AllDigits(ms) && hs != "" && ms != ""
    ensures ParseParts([hs, " " + ms]) == Some(ParseDigits(hs) * 60 + ParseDigits(ms))
  {
    assert [hs, " " + ms][1][1..] == ms;
  }

  /** Every positive estimate reads back from its text. */
  lemma ParseFormatMinutes(minutes: int)
    requires minutes > 0
    ensures ParseMinutes(FormatMinutes(minutes)) == Some(minutes)
  {
    var hours, mins := minutes / 60, minutes % 60;
    assert minutes == hours * 60 + mins;
    if minutes >= 60 {
      assert FormatMinutes(minutes) == NatToString(hours) + "h " + NatToString(mins) + "m";
      ParseHoursAndMinutes(NatToString(hours), NatToString(mins));
      ParseNatToString(hours);
      ParseNatToString(mins);
    } else {
      assert FormatMinutes(minutes) == NatToString(minutes) + "m";
      ParseMinutesOnly(NatToString(minutes));
      ParseNatToString(minutes);
    }
  }

  /** Distinct positive estimates never show the same text, nor the placeholder. */
  lemma FormatMinutesInjective(a: int, b: int)
    requires a > 0 && b > 0 && FormatMinutes(a) == FormatMinutes(b)
    ensures a == b
  {
    ParseFormatMinutes(a);
    ParseFormatMinutes(b);
  }

  lemma PlaceholderIsNotAnEstimate(minutes: int)
    requires minutes > 0
    ensures FormatMinutes(minutes) != Calculating
  {
    ParseFormatMinutes(minutes);
    assert ParseMinutes(Calculating) == None;
  }

  /** Time to full while charging if known, else time to empty if known, else "N/A". */
  function TimeRemainingString(isCharging: bool, timeToFull: Option<int>, timeToEmpty: Option<int>): (s: string)
    ensures isCharging && timeToFull.Some? ==> s == FormatMinutes(timeToFull.value)
    ensures !(isCharging && timeToFull.Some?) && timeToEmpty.Some? ==> s == FormatMinutes(timeToEmpty.value)
    ensures !(isCharging && timeToFull.Some?) && timeToEmpty.None? ==> s == "N/A"
  {
    if isCharging && timeToFull.Some? then FormatMinutes(timeToFull.value)
    else if timeToEmpty.Some? then FormatMinutes(timeToEmpty.value)
    else "N/A"
  }
}
