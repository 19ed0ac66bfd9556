/** The 12-hour clock string of `drawStatusBar` (Generate/Whatsapp.js). The
    hour and minute that the source reads from `new Date()` are parameters. */
module WhatsappStatusBar {
  import opened Wrappers
  import opened Decimal

  /** What the status bar shows: an hour on the 12-hour dial, the minute and
      the half of the day. */
  datatype ClockFace = ClockFace(hour12: nat, minute: nat, pm: bool)

  /** The minute part: a leading zero below ten, then the decimal digits. */
  function MinuteText(minute: nat): (s: string)
    ensures forall i :: 0 <= i < |s| ==> IsDigit(s[i])
    ensures minute < 100 ==> |s| == 2 && ParseDigits(s) == minute
  {
    if minute < 10 then
      var s := "0" + ToDecimal(minute);
      assert s == ['0', DigitChar(minute)];
      assert s[..1] == "0" && s[..1][..0] == [];
      assert ParseDigits(s[..1]) == 0;
      DigitValueOfDigitChar(minute);
      s
    else
      ParseDecimal(minute);
      ToDecimal(minute)
  }

  /** `${hours}:${mm} ${ampm}` for a face. */
  function ClockText(face: ClockFace): string {
    ToDecimal(face.hour12) + ":" + MinuteText(face.minute) + " " + (if face.pm then "PM" else "AM")
  }

  /** The face for a 24-hour time: the hour lies on the dial (1 to 12, with 12
      for midnight and noon), agrees with the 24-hour hour modulo 12, and the
      afternoon flag is set exactly from hour 12 on. */
  function Face(hour: nat, minute: nat): (face: ClockFace)
    ensures 1 <= face.hour12 <= 12
    ensures face.hour12 % 12 == hour % 12
    ensures face.pm <==> hour >= 12
    ensures face.minute == minute
  {
    var h := hour % 12;
    ClockFace(if h != 0 then h else 12, minute, hour >= 12)
  }

  /** Position of the first `c` in `s`, if any. */
  function IndexOf(s: string, c: char): (r: Option<nat>)
    ensures r.Some? ==> r.value < |s| && s[r.value] == c && c !in s[..r.value]
    ensures r.None? ==> c !in s
  {
    if |s| == 0 then None
    else if s[0] == c then Some(0)
    else match IndexOf(s[1..], c)
      case None => None
      case Some(i) => assert s[..i + 1] == [s[0]] + s[1..][..i]; Some(i + 1)
  }

  /** Reads a status-bar string back as a 24-hour hour and a minute: digits of
      an hour from 1 to 12, a colon, two minute digits below 60, a space and
      `AM` or `PM`. */
  function ParseClock(s: string): Option<(nat, nat)> {
    match IndexOf(s, ':')
    case None => None
    case Some(k) => ParseFields(s[..k], s[k + 1..])
  }

  /** The fields before and after the first colon. */
  function ParseFields(hs: string, rest: string): Option<(nat, nat)> {
    if !IsDigits(hs) || |rest| != 5 || !IsDigits(rest[..2]) || rest[2] != ' ' then None
    else if rest[3..] != "AM" && rest[3..] != "PM" then None
    else
      var h, m := ParseDigits(hs), ParseDigits(rest[..2]);
      if h < 1 || 12 < h || 60 <= m then None
      else Some((h % 12 + (if rest[3..] == "PM" then 12 else 0), m))
  }

  lemma FirstColon(a: string, b: string)
    requires ':' !in a
    ensures IndexOf(a + ":" + b, ':') == Some(|a|)
  {
    var s := a + ":" + b;
    assert s[..|a|] == a;
    assert s[|a|] == ':';
  }

  lemma ParseFieldsLaidOut(hs: string, mm: string, suffix: string, h: nat, m: nat)
    requires IsDigits(hs) && IsDigits(mm) && |mm| == 2
    requires suffix == "AM" || suffix == "PM"
    requires ParseDigits(hs) == h && 1 <= h <= 12
    requires ParseDigits(mm) == m && m < 60
    ensures ParseFields(hs, mm + " " + suffix) == Some((h % 12 + (if suffix == "PM" then 12 else 0), m))
  {
    var rest := mm + " " + suffix;
    assert rest[..2] == mm;
    assert rest[3..] == suffix;
  }

  /** A string laid out as the status bar lays it out parses field by field. */
  lemma ParseLaidOut(hs: string, mm: string, suffix: string)
    requires IsDigits(hs) && IsDigits(mm) && |mm| == 2
    requires suffix == "AM" || suffix == "PM"
    ensures ParseClock(hs + ":" + mm + " " + suffix) == ParseFields(hs, mm + " " + suffix)
  {
    var s := hs + ":" + mm + " " + suffix;
    assert s == hs + ":" + (mm + " " + suffix);
    assert ':' !in hs by {
      forall i | 0 <= i < |hs| ensures hs[i] != ':' {
        assert IsDigit(hs[i]);
      }
    }
    FirstColon(hs, mm + " " + suffix);
    assert s[..|hs|] == hs;
    assert s[|hs| + 1..] == mm + " " + suffix;
  }

  /** The status-bar string of any valid time reads back as that time, so two
      different times never show the same string. */
  lemma ClockRoundTrip(hour: nat, minute: nat)
    requires hour < 24 && minute < 60
    ensures ParseClock(ClockText(Face(hour, minute))) == Some((hour, minute))
  {
    var face := Face(hour, minute);
    var hs, mm := ToDecimal(face.hour12), MinuteText(minute);
    var suffix := if face.pm then "PM" else "AM";
    assert ClockText(face) == hs + ":" + mm + " " + suffix;
    ParseDecimal(face.hour12);
    ParseLaidOut(hs, mm, suffix);
    ParseFieldsLaidOut(hs, mm, suffix, face.hour12, minute);
    DialBack(hour, face.hour12, face.pm);
  }

  /** The dial hour and the half of the day determine the 24-hour hour. */
  lemma DialBack(hour: nat, hour12: nat, pm: bool)
    requires hour < 24 && 1 <= hour12 <= 12
    requires hour12 % 12 == hour % 12 && (pm <==> hour >= 12)
    ensures hour12 % 12 + (if pm then 12 else 0) == hour
  {
  }

  /** `drawStatusBar`'s time: `ampm` is taken before `hours` is reduced modulo
      12, and a reduced hour of 0 becomes 12. */
  method FormatClock(hour: nat, minute: nat) returns (currentTime: string)
    ensures currentTime == ClockText(Face(hour, minute))
    ensures hour < 24 && minute < 60 ==> ParseClock(currentTime) == Some((hour, minute))
  {
    var hours := hour;
    var ampm := if hours >= 12 then "PM" else "AM";
    hours := hours % 12;
    hours := if hours != 0 then hours else 12;
    var minutes := if minute < 10 then "0" + ToDecimal(minute) else ToDecimal(minute);
    currentTime := ToDecimal(hours) + ":" + minutes + " " + ampm;
    if hour < 24 && minute < 60 {
      ClockRoundTrip(hour, minute);
    }
  }
}
