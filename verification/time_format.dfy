/** `formatTimestamp` of content.js (lines 51-57) and tblive/content.js (lines
    18-24): the local hours, minutes and seconds of a timestamp, each padded to
    two digits and joined by colons. Turning a timestamp into local time depends
    on the clock's time zone and is a parameter of the model. */
module TimeFormat {

  import opened Wrappers
  import opened Js

  /** The local wall-clock reading of a valid `Date`. */
  datatype LocalTime = LocalTime(hours: nat, minutes: nat, seconds: nat)

  predicate ValidTime(t: LocalTime)
  {
    t.hours < 24 && t.minutes < 60 && t.seconds < 60
  }

  /** `n.toString().padStart(2, '0')`. */
  function Pad2(n: nat): string
  {
    var d := DigitsOf(n);
    if |d| < 2 then "0" + d else d
  }

  /** The formatted time; `None` is an invalid date, whose components are all
      NaN. */
  function FormatTimestamp(t: Option<LocalTime>): string
  {
    match t
    case None => "NaN:NaN:NaN"
    case Some(lt) => Pad2(lt.hours) + ":" + Pad2(lt.minutes) + ":" + Pad2(lt.seconds)
  }

  function DigitValue(c: char): int
  {
    c as int - '0' as int
  }

  /** Reads an `HH:MM:SS` string back; the partner of FormatTimestamp. */
  function ParseTime(s: string): Option<LocalTime>
  {
    if |s| == 8 && s[2] == ':' && s[5] == ':'
       && IsDigit(s[0]) && IsDigit(s[1]) && IsDigit(s[3]) && IsDigit(s[4]) && IsDigit(s[6]) && IsDigit(s[7])
    then Some(LocalTime(DigitValue(s[0]) * 10 + DigitValue(s[1]),
                        DigitValue(s[3]) * 10 + DigitValue(s[4]),
                        DigitValue(s[6]) * 10 + DigitValue(s[7])))
    else None
  }

  /** A number below 100 pads to exactly two digits that read back as it. */
  lemma Pad2Digits(n: nat)
    requires n < 100
    ensures var p := Pad2(n);
      |p| == 2 && IsDigit(p[0]) && IsDigit(p[1]) && DigitValue(p[0]) * 10 + DigitValue(p[1]) == n
  {
    if n >= 10 {
      assert DigitsOf(n) == [DigitChar(n / 10), DigitChar(n % 10)];
    } else {
      assert DigitsOf(n) == [DigitChar(n)];
    }
  }

  /** Every valid local time formats as `HH:MM:SS`, eight characters, and reads
      back as itself. */
  lemma {:induction false} FormatTimestampRoundTrip(t: LocalTime)
    requires ValidTime(t)
    ensures |FormatTimestamp(Some(t))| == 8
    ensures ParseTime(FormatTimestamp(Some(t))) == Some(t)
  {
    Pad2Digits(t.hours);
    Pad2Digits(t.minutes);
    Pad2Digits(t.seconds);
  }
}
