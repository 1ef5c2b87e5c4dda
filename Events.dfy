/**
 * `formatTime` of src/pages/Events.jsx: shows an event's "HH:MM" time on a
 * 12-hour clock, "h:MM AM" or "h:MM PM".
 */
module Events {
  import opened Js

  /** `timeString.split(':')[0]`: the hours text. */
  function HoursText(t: string): string {
    Split(t, ':')[0]
  }

  /** `timeString.split(':')[1]` as a template literal shows it: the second
      piece, or "undefined" when the text holds no ':'. */
  function MinutesText(t: string): (m: string)
    ensures ':' !in m
  {
    var parts := Split(t, ':');
    if |parts| >= 2 then parts[1] else "undefined"
  }

  /** The times `formatTime` is meant for: the hours text is decimal digits
      naming an hour of the day. */
  predicate WellFormedTime(t: string) {
    var h := HoursText(t);
    |h| >= 1 && AllDigits(h) && ParseDigits(h) < 24
  }

  /** `parseInt(hours)` */
  function Hour(t: string): (h: nat)
    requires WellFormedTime(t)
    ensures h < 24
  {
    ParseDigits(HoursText(t))
  }

  /** `hour >= 12 ? 'PM' : 'AM'` */
  function Meridiem(hour: nat): (m: string)
    ensures m == "AM" || m == "PM"
    ensures m == "PM" <==> hour >= 12
  {
    if hour >= 12 then "PM" else "AM"
  }

  /** `hour % 12 || 12`: the hour on a 12-hour dial. */
  function DisplayHour(hour: nat): (d: nat)
    ensures 1 <= d <= 12
    ensures d % 12 == hour % 12
  {
    if hour % 12 == 0 then 12 else hour % 12
  }

  /** `${displayHour}:${minutes} ${ampm}` */
  function FormatTime(t: string): (r: string)
    requires WellFormedTime(t)
    ensures |r| >= 5 && r[|r| - 3..] == (if Hour(t) >= 12 then " PM" else " AM")
  {
    var hour := Hour(t);
    NatToString(DisplayHour(hour)) + ":" + MinutesText(t) + " " + Meridiem(hour)
  }

  /** Reads a 12-hour time "h:MM AM" / "h:MM PM" back into the hour of the day
      and the minutes text; None when the text is not of that form. */
  function ReadClock12(s: string): (r: Option<(nat, string)>)
    ensures r.Some? ==> r.value.0 < 24
  {
    var parts := Split(s, ':');
    if |parts| != 2 || parts[0] == [] || !AllDigits(parts[0]) then None
    else ReadDial(ParseDigits(parts[0]), parts[1])
  }

  /** The dial hour read before the ':', and the text after it: minutes, a space, the suffix. */
  function ReadDial(h: nat, tail: string): (r: Option<(nat, string)>)
    ensures r.Some? ==> r.value.0 < 24
  {
    if !(1 <= h <= 12) || |tail| < 3 || tail[|tail| - 3] != ' ' then None
    else
      var marker, minutes := tail[|tail| - 2..], tail[..|tail| - 3];
      if marker == "AM" then Some((h % 12, minutes))
      else if marker == "PM" then Some((h % 12 + 12, minutes))
      else None
  }

  /** The suffix is "PM" exactly for the afternoon hours, and the dial hour
      with its suffix determines the hour of the day. */
  lemma {:induction false} DialDeterminesHour(hour: nat)
    requires hour < 24
    ensures Meridiem(hour) == "PM" <==> hour >= 12
    ensures Meridiem(hour) == "AM" <==> hour < 12
    ensures hour == (if Meridiem(hour) == "AM" then DisplayHour(hour) % 12 else DisplayHour(hour) % 12 + 12)
  {
    if hour >= 12 {
      assert hour % 12 == hour - 12;
    } else {
      assert hour % 12 == hour;
    }
  }

  /** Decimal digits never contain the ':' separator. */
  lemma DigitsHaveNoColon(d: string)
    requires AllDigits(d)
    ensures ':' !in d
  {
    forall i | 0 <= i < |d| ensures d[i] != ':' {
      assert IsDigit(d[i]);
    }
  }

  /** The suffix after the minutes is read back, and so are the minutes. */
  lemma ReadDialOf(d: nat, minutes: string, marker: string)
    requires 1 <= d <= 12 && (marker == "AM" || marker == "PM")
    ensures ReadDial(d, minutes + " " + marker)
      == Some((if marker == "AM" then d % 12 else d % 12 + 12, minutes))
  {
    var tail := minutes + " " + marker;
    assert tail[|tail| - 3] == ' ';
    assert tail[|tail| - 2..] == marker;
    assert tail[..|tail| - 3] == minutes;
  }

  /** Reading a 12-hour text made of a dial hour, minutes without ':' and a suffix. */
  lemma ReadClock12Of(d: nat, minutes: string, marker: string)
    requires 1 <= d <= 12 && ':' !in minutes && (marker == "AM" || marker == "PM")
    ensures ReadClock12(NatToString(d) + ":" + minutes + " " + marker)
      == Some((if marker == "AM" then d % 12 else d % 12 + 12, minutes))
  {
    var digits := NatToString(d);
    var tail := minutes + " " + marker;
    DigitsHaveNoColon(digits);
    assert ':' !in tail by {
      assert tail == minutes + [' '] + marker;
    }
    assert digits + ":" + minutes + " " + marker == digits + [':'] + tail;
    SplitAtFirst(digits, ':', tail);
    SplitWithoutSep(tail, ':');
    NatToStringRoundTrip(d);
    ReadDialOf(d, minutes, marker);
  }

  /** The formatted time loses nothing: reading it back gives the hour of the
      day and the minutes text it was made from. */
  lemma FormatTimeRoundTrip(t: string)
    requires WellFormedTime(t)
    ensures ReadClock12(FormatTime(t)) == Some((Hour(t), MinutesText(t)))
  {
    var hour := Hour(t);
    ReadClock12Of(DisplayHour(hour), MinutesText(t), Meridiem(hour));
    DialDeterminesHour(hour);
  }

  /** The hour is shown without a leading zero and with one or two digits. */
  lemma DisplayHourDigits(t: string)
    requires WellFormedTime(t)
    ensures var d := NatToString(DisplayHour(Hour(t)));
      1 <= |d| <= 2 && d[0] != '0' && FormatTime(t)[..|d| + 1] == d + ":"
  {
    var d := NatToString(DisplayHour(Hour(t)));
    if DisplayHour(Hour(t)) >= 10 {
      assert NatToString(DisplayHour(Hour(t)) / 10) == "1";
    }
    assert FormatTime(t)[..|d| + 1] == d + ":";
  }

  /** A time whose hours and minutes texts hold no ':' is read piece by piece. */
  lemma {:induction false} FormatTimeOfPieces(hh: string, mm: string)
    requires |hh| >= 1 && AllDigits(hh) && ParseDigits(hh) < 24 && ':' !in mm
    ensures ':' !in hh
    ensures WellFormedTime(hh + ":" + mm) && Hour(hh + ":" + mm) == ParseDigits(hh)
    ensures FormatTime(hh + ":" + mm)
      == NatToString(DisplayHour(ParseDigits(hh))) + ":" + mm + " " + Meridiem(ParseDigits(hh))
  {
    DigitsHaveNoColon(hh);
    SplitAtFirst(hh, ':', mm);
    SplitWithoutSep(mm, ':');
  }

  /** A digit after a leading zero reads as itself, and is written back without the zero. */
  lemma PaddedDigit(d: char)
    requires '1' <= d <= '9'
    ensures AllDigits(['0', d]) && ParseDigits(['0', d]) == d as int - '0' as int
    ensures NatToString(d as int - '0' as int) == [d]
  {
    assert ['0', d][..1] == ['0'] && ['0'][..0] == [];
    assert ParseDigits(['0']) == 0;
  }

  /** A zero-padded morning hour loses its zero: "09:30" is shown as "9:30 AM". */
  lemma FormatTimeMorning(d: char, mm: string)
    requires '1' <= d <= '9' && ':' !in mm
    ensures WellFormedTime(['0', d] + ":" + mm)
    ensures FormatTime(['0', d] + ":" + mm) == [d] + ":" + mm + " AM"
  {
    var hh := ['0', d];
    var hour := d as int - '0' as int;
    PaddedDigit(d);
    FormatTimeOfPieces(hh, mm);
    assert DisplayHour(hour) == hour && Meridiem(hour) == "AM";
  }

  /** Midnight is shown as 12 AM: "00:15" is shown as "12:15 AM". */
  lemma FormatTimeMidnight(mm: string)
    requires ':' !in mm
    ensures WellFormedTime("00:" + mm) && FormatTime("00:" + mm) == "12:" + mm + " AM"
  {
    assert "00"[..1] == "0";
    assert ParseDigits("00") == 0;
    assert NatToString(12) == "12" by { assert NatToString(1) == "1"; }
    assert "00:" + mm == "00" + ":" + mm;
    FormatTimeOfPieces("00", mm);
  }

  /** Noon is shown as 12 PM: "12:00" is shown as "12:00 PM". */
  lemma FormatTimeNoon(mm: string)
    requires ':' !in mm
    ensures WellFormedTime("12:" + mm) && FormatTime("12:" + mm) == "12:" + mm + " PM"
  {
    assert "12"[..1] == "1";
    assert ParseDigits("12") == 12;
    assert NatToString(12) == "12" by { assert NatToString(1) == "1"; }
    assert "12:" + mm == "12" + ":" + mm;
    FormatTimeOfPieces("12", mm);
  }

  /** A time with seconds, "HH:MM:SS", splits into its three parts. */
  lemma SplitWithSeconds(hh: string, mm: string, ss: string)
    requires ':' !in hh && ':' !in mm && ':' !in ss
    ensures Split(hh + ":" + mm + ":" + ss, ':') == [hh, mm, ss]
  {
    assert hh + ":" + mm + ":" + ss == hh + [':'] + (mm + [':'] + ss);
    SplitAtFirst(hh, ':', mm + [':'] + ss);
    SplitAtFirst(mm, ':', ss);
    SplitWithoutSep(ss, ':');
  }

  /** The afternoon counts from 1 PM, and seconds after the minutes are
      dropped: "13:45:00" is shown as "1:45 PM". */
  lemma FormatTimeAfternoon(mm: string, ss: string)
    requires ':' !in mm && ':' !in ss
    ensures WellFormedTime("13:" + mm + ":" + ss)
    ensures FormatTime("13:" + mm + ":" + ss) == "1:" + mm + " PM"
  {
    assert "13"[..1] == "1";
    assert ParseDigits("13") == 13;
    var t := "13:" + mm + ":" + ss;
    assert t == "13" + ":" + mm + ":" + ss;
    SplitWithSeconds("13", mm, ss);
    assert HoursText(t) == "13" && MinutesText(t) == mm;
  }
}
