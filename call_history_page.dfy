/** The call-history page of the web client (frontend/src/pages/CallHistory.jsx): the duration
    text `M:SS` and when it is shown. */
module CallHistoryPage {
  import opened Wrappers
  import opened Numerals
  import opened Clock

  datatype MinSec = MinSec(mins: nat, secs: nat)

  /** Whole minutes, which are not wrapped into hours, and the seconds left over. */
  function DurationFields(seconds: nat): (f: MinSec)
    ensures f.mins * 60 + f.secs == seconds && f.secs < 60
  {
    MinSec(seconds / 60, seconds % 60)
  }

  /** `formatDuration`: the minutes unpadded, a colon, the seconds padded to two digits. */
  function FormatDuration(seconds: nat): (s: string)
    ensures ParseDuration(s) == Some(DurationFields(seconds))
    ensures |s| >= 4 && s[|s| - 3] == ':' && AllDigits(s[|s| - 2..]) && AllDigits(s[..|s| - 3])
    ensures s[..|s| - 3] == Decimal(DurationFields(seconds).mins)
  {
    DurationOf(DurationFields(seconds));
    Decimal(DurationFields(seconds).mins) + ":" + Pad2(DurationFields(seconds).secs)
  }

  /** The duration text of given fields, proved apart from FormatDuration so that its
      postconditions are checked against one lemma call. */
  lemma DurationOf(f: MinSec)
    requires f.secs < 60
    ensures var s := Decimal(f.mins) + ":" + Pad2(f.secs);
      && ParseDuration(s) == Some(MinSec(f.mins, f.secs))
      && |s| >= 4 && s[|s| - 3] == ':' && AllDigits(s[|s| - 2..]) && AllDigits(s[..|s| - 3])
      && s[..|s| - 3] == Decimal(f.mins)
  {
    var m, t := Decimal(f.mins), Pad2(f.secs);
    Pad2Field(f.secs);
    DecimalRoundTrip(f.mins);
    DurationText(m, t);
  }

  /** A digit field, a colon and a two-digit field: the text reads back as the two values, and
      the colon sits third from the end. */
  lemma DurationText(m: string, t: string)
    requires AllDigits(m) && AllDigits(t) && |m| >= 1 && |t| == 2
    ensures var s := m + ":" + t;
      && ParseDuration(s) == Some(MinSec(DecimalValue(m), DecimalValue(t)))
      && |s| >= 4 && s[|s| - 3] == ':' && s[|s| - 2..] == t && s[..|s| - 3] == m
  {
    var s := m + ":" + t;
    DigitsHaveNoColon(m);
    DigitsHaveNoColon(t);
    SplitOnPeel(m, ':', t);
    assert s[|s| - 2..] == t;
    assert s[..|s| - 3] == m;
  }

  /** Reading a duration text back: exactly two colon-separated fields of digits. */
  function ParseDuration(s: string): (r: Option<MinSec>)
    ensures r.Some? ==> |SplitOn(s, ':')| == 2
  {
    var parts := SplitOn(s, ':');
    if |parts| == 2 && AllDigits(parts[0]) && AllDigits(parts[1])
    then Some(MinSec(DecimalValue(parts[0]), DecimalValue(parts[1])))
    else None
  }

  /** An hour is shown as sixty minutes: the minutes field is not wrapped and can pass 59. */
  lemma AnHourIsSixtyMinutes()
    ensures FormatDuration(3600) == "60:00"
  {
    assert Decimal(6) == "6";
    assert Decimal(60) == "60";
    assert Decimal(0) == "0";
    assert Pad2(0) == "00";
  }

  /** `call.duration > 0 && formatDuration(call.duration)`: a duration is shown only when it is
      positive. */
  function DurationLabel(duration: int): (r: Option<string>)
    ensures r.Some? <==> duration > 0
    ensures r.Some? ==> ParseDuration(r.value) == Some(DurationFields(duration))
  {
    if duration > 0 then Some(FormatDuration(duration)) else None
  }
}
