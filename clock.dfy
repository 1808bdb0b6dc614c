/** The `HH:MM:SS` clock text both call screens show: the hours, minutes and seconds of a
    number of seconds, each written with at least two digits. */
module Clock {
  import opened Wrappers
  import opened Numerals

  datatype Fields = Fields(hrs: nat, mins: nat, secs: nat)

  /** Whole hours, the minutes left over within the hour, and the seconds left over within the
      minute. */
  function ClockFields(seconds: nat): (f: Fields)
    ensures f.hrs * 3600 + f.mins * 60 + f.secs == seconds
    ensures f.mins < 60 && f.secs < 60
  {
    Fields(seconds / 3600, (seconds % 3600) / 60, seconds % 60)
  }

  /** The fields are unique: any split with in-range minutes and seconds is the one above. */
  lemma ClockFieldsUnique(seconds: nat, f: Fields)
    requires f.hrs * 3600 + f.mins * 60 + f.secs == seconds && f.mins < 60 && f.secs < 60
    ensures f == ClockFields(seconds)
  {
    var g := ClockFields(seconds);
    assert f.mins * 60 + f.secs < 3600;
    assert g.mins * 60 + g.secs < 3600;
  }

  /** The three padded fields joined by colons. */
  function ClockText(f: Fields): (s: string)
    ensures |s| == |Pad2(f.hrs)| + |Pad2(f.mins)| + |Pad2(f.secs)| + 2
    ensures s[..|Pad2(f.hrs)|] == Pad2(f.hrs) && s[|Pad2(f.hrs)|] == ':'
    ensures s[|Pad2(f.hrs)| + 1 + |Pad2(f.mins)|] == ':' && s[|s| - |Pad2(f.secs)|..] == Pad2(f.secs)
  {
    var h, m, t := Pad2(f.hrs), Pad2(f.mins), Pad2(f.secs);
    ColonJoined(h, m, t);
    h + ":" + m + ":" + t
  }

  /** Where the pieces of three texts joined by colons sit. */
  lemma ColonJoined(h: string, m: string, t: string)
    ensures var s := h + ":" + m + ":" + t;
      && |s| == |h| + |m| + |t| + 2 && s[..|h|] == h && s[|h|] == ':'
      && s[|h| + 1 + |m|] == ':' && s[|s| - |t|..] == t
  {
    var s := h + ":" + m + ":" + t;
    assert s[..|h|] == h;
    assert s[|s| - |t|..] == t;
  }

  /** Reading a clock text back: exactly three colon-separated fields of digits. */
  function ParseClock(s: string): (r: Option<Fields>)
    ensures r.Some? ==> |SplitOn(s, ':')| == 3
  {
    var parts := SplitOn(s, ':');
    if |parts| == 3 && AllDigits(parts[0]) && AllDigits(parts[1]) && AllDigits(parts[2])
    then Some(Fields(DecimalValue(parts[0]), DecimalValue(parts[1]), DecimalValue(parts[2])))
    else None
  }

  // Named so that each caller obtains `':' !in s` from the quantifier of AllDigits in one step.
  lemma DigitsHaveNoColon(s: string)
    requires AllDigits(s)
    ensures ':' !in s
  {
  }

  /** Three digit fields joined by colons read back as their values. */
  lemma ParseThreeFields(h: string, m: string, t: string)
    requires AllDigits(h) && AllDigits(m) && AllDigits(t)
    ensures ParseClock(h + ":" + m + ":" + t) == Some(Fields(DecimalValue(h), DecimalValue(m), DecimalValue(t)))
  {
    DigitsHaveNoColon(h);
    DigitsHaveNoColon(m);
    DigitsHaveNoColon(t);
    assert h + ":" + m + ":" + t == h + [':'] + (m + [':'] + t);
    SplitOnPeel(h, ':', m + [':'] + t);
    SplitOnPeel(m, ':', t);
  }

  /** A clock text reads back as the fields it was written from. */
  lemma ClockTextRoundTrip(f: Fields)
    ensures ParseClock(ClockText(f)) == Some(f)
  {
    Pad2Field(f.hrs);
    Pad2Field(f.mins);
    Pad2Field(f.secs);
    ParseThreeFields(Pad2(f.hrs), Pad2(f.mins), Pad2(f.secs));
  }

  /** Every field has at least two characters, so the text has at least eight; below 100 hours
      it is exactly `HH:MM:SS`. */
  lemma ClockTextLength(f: Fields)
    requires f.mins < 60 && f.secs < 60
    ensures |Pad2(f.hrs)| >= 2 && |Pad2(f.mins)| >= 2 && |Pad2(f.secs)| >= 2
    ensures |ClockText(f)| >= 8
    ensures |ClockText(f)| == 8 <==> f.hrs < 100
    ensures f.hrs < 100 ==> ClockText(f)[2] == ':' && ClockText(f)[5] == ':'
  {
    Pad2Field(f.hrs);
    Pad2Field(f.mins);
    Pad2Field(f.secs);
  }
}
