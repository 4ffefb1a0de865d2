/** The three clock renderings the application shows or writes: the
    `%H:%M:%S` transcript stamp, the `%Y%m%d_%H%M%S` file-name stamp, and the
    `MM:SS` elapsed-time label. Wall-clock readings are integer fields or
    integer milliseconds instead of Python floats. */
module TimeFormat {
  import opened Wrappers
  import opened Text

  /** A `datetime.now()` reading. */
  datatype DateTime = DateTime(year: int, month: int, day: int, hour: int, minute: int, second: int)

  /** Field ranges of a `datetime`; years are four-digit (see README). */
  predicate ValidDateTime(d: DateTime) {
    && 1000 <= d.year <= 9999
    && 1 <= d.month <= 12
    && 1 <= d.day <= 31
    && 0 <= d.hour < 24
    && 0 <= d.minute < 60
    && 0 <= d.second < 60
  }

  /** `%H:%M:%S` */
  function ClockText(d: DateTime): (r: string)
    requires ValidDateTime(d)
    ensures |r| == 8 && r[2] == ':' && r[5] == ':'
  {
    PadWidth(d.hour, 2);
    PadWidth(d.minute, 2);
    PadWidth(d.second, 2);
    ZeroPad(d.hour, 2) + ":" + ZeroPad(d.minute, 2) + ":" + ZeroPad(d.second, 2)
  }

  /** Reads back hour, minute and second from an `HH:MM:SS` text. */
  function ParseClockText(s: string): Option<(int, int, int)> {
    if |s| == 8 && s[2] == ':' && s[5] == ':' && AllDigits(s[0..2]) && AllDigits(s[3..5]) && AllDigits(s[6..8])
    then Some((ParseNat(s[0..2]), ParseNat(s[3..5]), ParseNat(s[6..8])))
    else None
  }

  lemma ClockTextRoundTrip(d: DateTime)
    requires ValidDateTime(d)
    ensures ParseClockText(ClockText(d)) == Some((d.hour, d.minute, d.second))
  {
    var s := ClockText(d);
    PadWidth(d.hour, 2);
    PadWidth(d.minute, 2);
    PadWidth(d.second, 2);
    assert s[0..2] == ZeroPad(d.hour, 2);
    assert s[3..5] == ZeroPad(d.minute, 2);
    assert s[6..8] == ZeroPad(d.second, 2);
    ParseZeroPad(d.hour, 2);
    ParseZeroPad(d.minute, 2);
    ParseZeroPad(d.second, 2);
  }

  /** `%Y%m%d_%H%M%S` */
  function FileStamp(d: DateTime): (r: string)
    requires ValidDateTime(d)
    ensures |r| == 15 && r[8] == '_'
    ensures AllDigits(r[..8]) && AllDigits(r[9..])
  {
    PadWidth(d.year, 4);
    PadWidth(d.month, 2);
    PadWidth(d.day, 2);
    PadWidth(d.hour, 2);
    PadWidth(d.minute, 2);
    PadWidth(d.second, 2);
    var date := ZeroPad(d.year, 4) + ZeroPad(d.month, 2) + ZeroPad(d.day, 2);
    var time := ZeroPad(d.hour, 2) + ZeroPad(d.minute, 2) + ZeroPad(d.second, 2);
    var r := date + "_" + time;
    assert r[..8] == date && r[9..] == time;
    r
  }

  /** Reads a `YYYYMMDD_HHMMSS` stamp back into its fields. */
  function ParseFileStamp(s: string): Option<DateTime> {
    if |s| == 15 && s[8] == '_' && AllDigits(s[..8]) && AllDigits(s[9..]) then
      assert AllDigits(s[0..4]) && AllDigits(s[4..6]) && AllDigits(s[6..8]) by {
        assert s[0..4] == s[..8][0..4] && s[4..6] == s[..8][4..6] && s[6..8] == s[..8][6..8];
      }
      assert AllDigits(s[9..11]) && AllDigits(s[11..13]) && AllDigits(s[13..15]) by {
        assert s[9..11] == s[9..][0..2] && s[11..13] == s[9..][2..4] && s[13..15] == s[9..][4..6];
      }
      Some(DateTime(ParseNat(s[0..4]), ParseNat(s[4..6]), ParseNat(s[6..8]),
                    ParseNat(s[9..11]), ParseNat(s[11..13]), ParseNat(s[13..15])))
    else None
  }

  /** The file-name stamp determines the moment it was taken (to the second). */
  lemma FileStampRoundTrip(d: DateTime)
    requires ValidDateTime(d)
    ensures ParseFileStamp(FileStamp(d)) == Some(d)
  {
    var s := FileStamp(d);
    PadWidth(d.year, 4);
    PadWidth(d.month, 2);
    PadWidth(d.day, 2);
    PadWidth(d.hour, 2);
    PadWidth(d.minute, 2);
    PadWidth(d.second, 2);
    assert s[0..4] == ZeroPad(d.year, 4);
    assert s[4..6] == ZeroPad(d.month, 2);
    assert s[6..8] == ZeroPad(d.day, 2);
    assert s[9..11] == ZeroPad(d.hour, 2);
    assert s[11..13] == ZeroPad(d.minute, 2);
    assert s[13..15] == ZeroPad(d.second, 2);
    ParseZeroPad(d.year, 4);
    ParseZeroPad(d.month, 2);
    ParseZeroPad(d.day, 2);
    ParseZeroPad(d.hour, 2);
    ParseZeroPad(d.minute, 2);
    ParseZeroPad(d.second, 2);
  }

  lemma FileStampInjective(d1: DateTime, d2: DateTime)
    requires ValidDateTime(d1) && ValidDateTime(d2)
    requires FileStamp(d1) == FileStamp(d2)
    ensures d1 == d2
  {
    FileStampRoundTrip(d1);
    FileStampRoundTrip(d2);
  }

  // ---------------------------------------------------------------------
  // The recording-time label

  /** The label shown whenever no recording is running. */
  const IdleElapsed: string := "00:00"

  /** Whole seconds between two millisecond readings, rounded down as Python's
      `//` and `%` on float seconds do (Dafny's `/` agrees for a positive divisor). */
  function ElapsedSeconds(startMs: int, nowMs: int): int {
    (nowMs - startMs) / 1000
  }

  /** `f"{minutes:02d}:{seconds:02d}"` with `minutes = elapsed // 60` and
      `seconds = elapsed % 60`. */
  function ElapsedText(total: int): string {
    FormatInt(total / 60, 2) + ":" + ZeroPad(total % 60, 2)
  }

  /** The seconds field is always exactly two digits in 00..59, after the last
      colon, whatever the elapsed time (even a negative one when the clock
      stepped back). */
  lemma ElapsedSecondsField(total: int)
    ensures var r := ElapsedText(total);
      && |r| >= 5 && r[|r| - 3] == ':' && AllDigits(r[|r| - 2..])
      && ParseNat(r[|r| - 2..]) == total % 60 < 60
  {
    var r := ElapsedText(total);
    PadWidth(total % 60, 2);
    assert r[|r| - 2..] == ZeroPad(total % 60, 2);
    ParseZeroPad(total % 60, 2);
  }

  /** For a non-negative elapsed time the label reads back as minutes and
      seconds that add up to it, with the minutes at least two digits. */
  lemma ElapsedRoundTrip(total: int)
    requires total >= 0
    ensures var r := ElapsedText(total);
      && |r| >= 5 && r[|r| - 3] == ':'
      && AllDigits(r[..|r| - 3]) && AllDigits(r[|r| - 2..])
      && ParseNat(r[..|r| - 3]) * 60 + ParseNat(r[|r| - 2..]) == total
  {
    var r := ElapsedText(total);
    var m := ZeroPad(total / 60, 2);
    assert FormatInt(total / 60, 2) == m;
    ElapsedSecondsField(total);
    assert r[..|r| - 3] == m;
    ParseZeroPad(total / 60, 2);
  }

  lemma IdleElapsedReadsZero()
    ensures ElapsedText(0) == IdleElapsed
  {
    assert Digits(0) == "0";
  }
}
