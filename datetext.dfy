/**
 * The two textual date forms the core reads and writes: strptime with the feeds'
 * `%Y-%m-%d %H:%M:%S` (or `%Y/%m/%d %H:%M:%S`) format, and ISO 8601 as
 * datetime.isoformat() writes it and datetime.fromisoformat() reads it.
 */
module DateText {
  import opened Wrappers
  import opened Strings
  import opened Calendar

  /** `\d{4}<sep>\d{2}<sep>\d{2} \d{2}:\d{2}:\d{2}`: the shape the feeds' date patterns capture. */
  predicate StampShape(s: string, sep: char) {
    |s| == 19 && AllDigits(s[0..4]) && s[4] == sep && AllDigits(s[5..7]) && s[7] == sep
    && AllDigits(s[8..10]) && s[10] == ' ' && AllDigits(s[11..13]) && s[13] == ':'
    && AllDigits(s[14..16]) && s[16] == ':' && AllDigits(s[17..19])
  }

  /** Reads `YYYY<sep>MM<sep>DD` at the start of `s` into a date, valid or not. */
  function DateFields(s: string, sep: char): Date
    requires |s| >= 10 && AllDigits(s[0..4]) && AllDigits(s[5..7]) && AllDigits(s[8..10])
  {
    Date(NatValue(s[0..4]), NatValue(s[5..7]), NatValue(s[8..10]))
  }

  /** Reads `HH:MM:SS` starting at index `i` of `s`. */
  function TimeFields(s: string, i: nat, date: Date): LocalTime
    requires i + 8 <= |s| && AllDigits(s[i..i + 2]) && AllDigits(s[i + 3..i + 5]) && AllDigits(s[i + 6..i + 8])
  {
    LocalTime(date, NatValue(s[i..i + 2]), NatValue(s[i + 3..i + 5]), NatValue(s[i + 6..i + 8]))
  }

  /**
   * datetime.strptime(s, '%Y<sep>%m<sep>%d %H:%M:%S') on a string of the captured
   * shape; None stands for the ValueError it raises (month 13, 31 April, second 60...).
   */
  function ParseStamp(s: string, sep: char): (r: Option<LocalTime>)
    ensures r.Some? ==> ValidLocal(r.value)
    ensures r.Some? ==> StampShape(s, sep)
  {
    if !StampShape(s, sep) then None
    else
      var t := TimeFields(s, 11, DateFields(s, sep));
      if ValidLocal(t) then Some(t) else None
  }

  /** strftime('%Y<sep>%m<sep>%d %H:%M:%S'): how the feeds write the stamp strptime reads. */
  function StampText(t: LocalTime, sep: char): (s: string)
    requires ValidLocal(t)
    ensures |s| == 19
  {
    PadDigits(t.date.year, 4) + [sep] + PadDigits(t.date.month, 2) + [sep] + PadDigits(t.date.day, 2) + " "
    + PadDigits(t.hour, 2) + ":" + PadDigits(t.minute, 2) + ":" + PadDigits(t.second, 2)
  }

  /** Where each field of a stamp sits. */
  lemma StampLayout(y: string, mo: string, d: string, h: string, mi: string, se: string, sep: char)
    requires |y| == 4 && |mo| == 2 && |d| == 2 && |h| == 2 && |mi| == 2 && |se| == 2
    ensures var s := y + [sep] + mo + [sep] + d + " " + h + ":" + mi + ":" + se;
      |s| == 19 && s[0..4] == y && s[4] == sep && s[5..7] == mo && s[7] == sep && s[8..10] == d
      && s[10] == ' ' && s[11..13] == h && s[13] == ':' && s[14..16] == mi && s[16] == ':' && s[17..19] == se
  {
  }

  /** Two stamps that agree field by field and separator by separator are the same text. */
  lemma SameStamp(a: string, b: string)
    requires |a| == 19 && |b| == 19
    requires a[0..4] == b[0..4] && a[5..7] == b[5..7] && a[8..10] == b[8..10]
    requires a[11..13] == b[11..13] && a[14..16] == b[14..16] && a[17..19] == b[17..19]
    requires a[4] == b[4] && a[7] == b[7] && a[10] == b[10] && a[13] == b[13] && a[16] == b[16]
    ensures a == b
  {
    forall i | 0 <= i < 19
      ensures a[i] == b[i]
    {
      if i < 4 { assert a[i] == a[0..4][i] && b[i] == b[0..4][i]; }
      else if 5 <= i < 7 { assert a[i] == a[5..7][i - 5] && b[i] == b[5..7][i - 5]; }
      else if 8 <= i < 10 { assert a[i] == a[8..10][i - 8] && b[i] == b[8..10][i - 8]; }
      else if 11 <= i < 13 { assert a[i] == a[11..13][i - 11] && b[i] == b[11..13][i - 11]; }
      else if 14 <= i < 16 { assert a[i] == a[14..16][i - 14] && b[i] == b[14..16][i - 14]; }
      else if 17 <= i { assert a[i] == a[17..19][i - 17] && b[i] == b[17..19][i - 17]; }
    }
  }

  /** strptime accepts every stamp the feed writes for a valid time, and reads back that time. */
  lemma StampTextParses(t: LocalTime, sep: char)
    requires ValidLocal(t)
    ensures ParseStamp(StampText(t, sep), sep) == Some(t)
  {
    var y, mo, d := PadDigits(t.date.year, 4), PadDigits(t.date.month, 2), PadDigits(t.date.day, 2);
    var h, mi, se := PadDigits(t.hour, 2), PadDigits(t.minute, 2), PadDigits(t.second, 2);
    StampLayout(y, mo, d, h, mi, se, sep);
    var s := StampText(t, sep);
    assert StampShape(s, sep);
    assert TimeFields(s, 11, DateFields(s, sep)) == t;
  }

  /** What strptime accepts is exactly the stamp of the time it reads: nothing is lost or added. */
  lemma ParseStampReadsText(s: string, sep: char)
    requires ParseStamp(s, sep).Some?
    ensures StampText(ParseStamp(s, sep).value, sep) == s
  {
    var t := ParseStamp(s, sep).value;
    PadOfDigits(s[0..4]);
    PadOfDigits(s[5..7]);
    PadOfDigits(s[8..10]);
    PadOfDigits(s[11..13]);
    PadOfDigits(s[14..16]);
    PadOfDigits(s[17..19]);
    var y, mo, d := PadDigits(t.date.year, 4), PadDigits(t.date.month, 2), PadDigits(t.date.day, 2);
    var h, mi, se := PadDigits(t.hour, 2), PadDigits(t.minute, 2), PadDigits(t.second, 2);
    StampLayout(y, mo, d, h, mi, se, sep);
    SameStamp(StampText(t, sep), s);
  }

  /** `YYYY-MM-DD` */
  function DateText(d: Date): (s: string)
    requires ValidDate(d)
    ensures |s| == 10
  {
    PadDigits(d.year, 4) + "-" + PadDigits(d.month, 2) + "-" + PadDigits(d.day, 2)
  }

  /** Asia/Taipei's utcoffset as isoformat() appends it. */
  const TaipeiSuffix := "+08:00"

  /**
   * dt.isoformat(sep=sep) of instant `ts` read in Asia/Taipei, with the seconds
   * (timespec 'seconds'; whole-second instants print no fraction) or without them
   * (timespec 'minutes').
   */
  function IsoFormat(ts: Timestamp, sep: char, withSeconds: bool): (s: string)
    requires InRange(ts, TaipeiOffset)
    ensures |s| == if withSeconds then 25 else 22
    ensures s[|s| - 6..] == TaipeiSuffix
  {
    WallClockText(ToLocal(ts, TaipeiOffset), sep, withSeconds) + TaipeiSuffix
  }

  /** isoformat() of a naive datetime: the wall-clock reading with no offset. */
  function WallClockText(t: LocalTime, sep: char, withSeconds: bool): (s: string)
    requires ValidLocal(t)
    ensures |s| == if withSeconds then 19 else 16
  {
    DateText(t.date) + [sep] + PadDigits(t.hour, 2) + ":" + PadDigits(t.minute, 2)
    + (if withSeconds then ":" + PadDigits(t.second, 2) else "")
  }

  /** `+HH:MM` or `-HH:MM` at index 19 of `s`: a UTC offset in seconds. */
  function OffsetAt(s: string): Option<int>
    requires |s| == 25
  {
    if (s[19] == '+' || s[19] == '-') && AllDigits(s[20..22]) && s[22] == ':' && AllDigits(s[23..25]) then
      var h := NatValue(s[20..22]);
      var m := NatValue(s[23..25]);
      if h < 24 && m < 60 then Some((if s[19] == '-' then -1 else 1) * (h * 3600 + m * 60)) else None
    else
      None
  }

  /**
   * datetime.fromisoformat(s) for `YYYY-MM-DD`, `YYYY-MM-DD?HH:MM:SS` and
   * `YYYY-MM-DD?HH:MM:SS±HH:MM` (any single separator character), as an instant; a
   * string without an offset names a wall-clock time, read here in Asia/Taipei.  None
   * stands for the ValueError it raises.
   */
  function FromIsoFormat(s: string): (r: Option<Timestamp>)
    ensures r.Some? ==> (|s| == 10 || |s| == 19 || |s| == 25) && IsoDateShape(s)
    ensures r.Some? && |s| > 10 ==> IsoTimeShape(s)
    ensures r.Some? && |s| == 25 ==> OffsetAt(s).Some?
  {
    if |s| != 10 && |s| != 19 && |s| != 25 then None
    else if !IsoDateShape(s) then None
    else if |s| == 10 then
      var t := LocalTime(DateFields(s, '-'), 0, 0, 0);
      if ValidLocal(t) then Some(Localize(t, TaipeiOffset)) else None
    else if !IsoTimeShape(s) then None
    else
      var t := TimeFields(s, 11, DateFields(s, '-'));
      var offset := if |s| == 19 then Some(TaipeiOffset) else OffsetAt(s);
      if ValidLocal(t) && offset.Some? then Some(Localize(t, offset.value)) else None
  }

  /** `YYYY-MM-DD` at the start of `s`. */
  predicate IsoDateShape(s: string) {
    |s| >= 10 && AllDigits(s[0..4]) && s[4] == '-' && AllDigits(s[5..7]) && s[7] == '-' && AllDigits(s[8..10])
  }

  /** `HH:MM:SS` at index 11 of `s`. */
  predicate IsoTimeShape(s: string) {
    |s| >= 19 && AllDigits(s[11..13]) && s[13] == ':' && AllDigits(s[14..16]) && s[16] == ':' && AllDigits(s[17..19])
  }

  /** Where each field of an isoformat() string sits. */
  lemma IsoLayout(y: string, mo: string, d: string, h: string, mi: string, se: string, z: string, sep: char)
    requires |y| == 4 && |mo| == 2 && |d| == 2 && |h| == 2 && |mi| == 2 && |se| == 2
    ensures var s := y + "-" + mo + "-" + d + [sep] + h + ":" + mi + ":" + se + z;
      |s| == 19 + |z| && s[0..4] == y && s[4] == '-' && s[5..7] == mo && s[7] == '-' && s[8..10] == d
      && s[11..13] == h && s[13] == ':' && s[14..16] == mi && s[16] == ':' && s[17..19] == se
      && s[19..] == z
  {
  }

  /** The fields of isoformat()'s text, followed by any suffix, read back as the wall-clock time it shows. */
  lemma WallClockReadsBack(s: string, t: LocalTime, sep: char, z: string)
    requires ValidLocal(t) && s == WallClockText(t, sep, true) + z
    ensures |s| == 19 + |z| && IsoDateShape(s) && IsoTimeShape(s) && s[19..] == z
    ensures TimeFields(s, 11, DateFields(s, '-')) == t
  {
    var y, mo, d := PadDigits(t.date.year, 4), PadDigits(t.date.month, 2), PadDigits(t.date.day, 2);
    var h, mi, se := PadDigits(t.hour, 2), PadDigits(t.minute, 2), PadDigits(t.second, 2);
    assert s == y + "-" + mo + "-" + d + [sep] + h + ":" + mi + ":" + se + z;
    IsoLayout(y, mo, d, h, mi, se, z, sep);
  }

  /**
   * utcoffset() as isoformat() appends it: `+HH:MM` or `-HH:MM`, for an offset of whole
   * minutes less than a day either way (`+00:00` for UTC).
   */
  function OffsetText(offset: int): (z: string)
    requires -SecondsPerDay < offset < SecondsPerDay && offset % 60 == 0
    ensures |z| == 6
  {
    var size := if offset < 0 then -offset else offset;
    assert Pow10(2) == 100;
    [if offset < 0 then '-' else '+'] + PadDigits(size / 3600, 2) + ":" + PadDigits(size % 3600 / 60, 2)
  }

  /** Asia/Taipei's suffix is the offset text of UTC+8. */
  lemma TaipeiSuffixIsOffsetText()
    ensures OffsetText(TaipeiOffset) == TaipeiSuffix
  {
    assert TaipeiOffset / 3600 == 8 && TaipeiOffset % 3600 / 60 == 0;
    var zero := PadDigits(0, 1);
    assert zero == PadDigits(0, 0) + [DigitChar(0)] == "0";
    assert PadDigits(8, 2) == zero + [DigitChar(8)] == "08";
    assert PadDigits(0, 2) == zero + [DigitChar(0)] == "00";
  }

  /** Every offset isoformat() writes reads back, sign included, as the same offset. */
  lemma OffsetTextReadsBack(s: string, offset: int)
    requires -SecondsPerDay < offset < SecondsPerDay && offset % 60 == 0
    requires |s| == 25 && s[19..] == OffsetText(offset)
    ensures OffsetAt(s) == Some(offset)
  {
    var size := if offset < 0 then -offset else offset;
    assert size < 86400;
    var hh, mm := PadDigits(size / 3600, 2), PadDigits(size % 3600 / 60, 2);
    var z := s[19..];
    assert z == [if offset < 0 then '-' else '+'] + hh + ":" + mm;
    assert s[19] == z[0] && s[22] == z[3] == ':';
    assert s[20..22] == z[1..3] == hh;
    assert s[23..25] == z[4..6] == mm;
    assert size % 60 == 0;
    assert size == size / 3600 * 3600 + size % 3600 / 60 * 60;
  }

  /**
   * fromisoformat honours whatever offset the text carries: the wall-clock fields
   * followed by any well-formed offset read as that wall-clock time at that offset.
   */
  lemma FromIsoFormatWithOffset(t: LocalTime, sep: char, offset: int)
    requires ValidLocal(t) && -SecondsPerDay < offset < SecondsPerDay && offset % 60 == 0
    ensures FromIsoFormat(WallClockText(t, sep, true) + OffsetText(offset)) == Some(Localize(t, offset))
  {
    var s := WallClockText(t, sep, true) + OffsetText(offset);
    WallClockReadsBack(s, t, sep, OffsetText(offset));
    OffsetTextReadsBack(s, offset);
  }

  /** Text without an offset names a wall-clock time, read in Asia/Taipei. */
  lemma FromIsoFormatNaive(t: LocalTime, sep: char)
    requires ValidLocal(t)
    ensures FromIsoFormat(WallClockText(t, sep, true)) == Some(Localize(t, TaipeiOffset))
  {
    var s := WallClockText(t, sep, true);
    assert s + "" == s;
    WallClockReadsBack(s, t, sep, "");
  }

  /** A date alone is its midnight, read in Asia/Taipei. */
  lemma FromIsoFormatDate(d: Date)
    requires ValidDate(d)
    ensures FromIsoFormat(DateText(d)) == Some(Localize(LocalTime(d, 0, 0, 0), TaipeiOffset))
  {
    DateTextReadsBack(DateText(d), d);
  }

  /** The fields of `YYYY-MM-DD`, at the head of a longer text too, read back as the date. */
  lemma DateTextReadsBack(s: string, d: Date)
    requires ValidDate(d) && |s| >= 10 && s[..10] == DateText(d)
    ensures IsoDateShape(s) && DateFields(s, '-') == d
  {
    var y, mo, dd := PadDigits(d.year, 4), PadDigits(d.month, 2), PadDigits(d.day, 2);
    var head := s[..10];
    assert head == y + "-" + mo + "-" + dd;
    assert head[0..4] == y && head[4] == '-' && head[5..7] == mo && head[7] == '-' && head[8..10] == dd;
    assert s[0..4] == head[0..4] && s[5..7] == head[5..7] && s[8..10] == head[8..10];
  }

  /** The offset isoformat() appends for Asia/Taipei reads back as UTC+8. */
  lemma TaipeiSuffixReadsBack(s: string)
    requires |s| == 25 && s[19..25] == TaipeiSuffix
    ensures OffsetAt(s) == Some(TaipeiOffset)
  {
    var z := s[19..25];
    assert z[0] == '+' && z[1] == '0' && z[2] == '8' && z[3] == ':' && z[4] == '0' && z[5] == '0';
    assert s[19] == '+' && s[20] == '0' && s[21] == '8' && s[22] == ':' && s[23] == '0' && s[24] == '0';
    NatValueOfTwo(s[20..22]);
    NatValueOfTwo(s[23..25]);
  }

  /** fromisoformat reads back exactly the instant isoformat wrote. */
  lemma IsoFormatRoundTrip(ts: Timestamp)
    requires InRange(ts, TaipeiOffset)
    ensures FromIsoFormat(IsoFormat(ts, 'T', true)) == Some(ts)
  {
    var t := ToLocal(ts, TaipeiOffset);
    TimestampTextReadsBack(WallClockText(t, 'T', true) + TaipeiSuffix, t);
  }

  /** The fields of isoformat()'s text with the +08:00 suffix read back as the wall-clock time it shows. */
  lemma TimestampTextReadsBack(s: string, t: LocalTime)
    requires ValidLocal(t) && s == WallClockText(t, 'T', true) + TaipeiSuffix
    ensures |s| == 25 && IsoDateShape(s) && IsoTimeShape(s)
    ensures TimeFields(s, 11, DateFields(s, '-')) == t && OffsetAt(s) == Some(TaipeiOffset)
  {
    WallClockReadsBack(s, t, 'T', TaipeiSuffix);
    TaipeiSuffixReadsBack(s);
  }

  /** A date the feed's shape carries but the calendar lacks is refused. */
  lemma ParseStampRejectsFebruary30()
    ensures ParseStamp("2020-02-30 12:00:00", '-') == None
  {
    var s := "2020-02-30 12:00:00";
    assert s[5..7] == "02" && s[8..10] == "30";
    NatValueOfTwo(s[5..7]);
    NatValueOfTwo(s[8..10]);
  }
}
