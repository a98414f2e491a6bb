/**
 * `utils/formatTime.ts`: a track position or duration in seconds, possibly
 * fractional (the player divides milliseconds by 1000), shown as `MM:SS`, or
 * `HH:MM:SS` from one hour on. JavaScript's `Math.trunc` and `%` are written
 * out on reals: both round toward zero.
 */
module FormatTime {
  import opened Wrappers
  import opened Text
  import opened JsNumber

  /** `Math.trunc(x)`. */
  function Trunc(x: real): (r: int)
    ensures x >= 0.0 ==> r as real <= x < r as real + 1.0
    ensures x < 0.0 ==> r as real - 1.0 < x <= r as real
  {
    if x >= 0.0 then x.Floor else -((-x).Floor)
  }

  /** `x % 60`: the remainder keeps the sign of `x`. */
  function Rem60(x: real): (r: real)
    ensures x >= 0.0 ==> 0.0 <= r < 60.0
    ensures x < 0.0 ==> -60.0 < r <= 0.0
  {
    x - 60.0 * (Trunc(x / 60.0) as real)
  }

  /** `getHours`: whole blocks of 3600 seconds. */
  function Hours(time: real): int {
    Trunc(time / 3600.0)
  }

  /** `getMinutes`. */
  function Minutes(time: real): (r: int)
    ensures time >= 0.0 ==> 0 <= r < 60
    ensures time < 0.0 ==> -60 < r <= 0
  {
    Trunc(Rem60(time / 60.0))
  }

  /** `getSeconds`. */
  function Seconds(time: real): (r: int)
    ensures time >= 0.0 ==> 0 <= r < 60
    ensures time < 0.0 ==> -60 < r <= 0
  {
    Trunc(Rem60(time))
  }

  /** For a non-negative time the three fields add up to its whole seconds. */
  lemma ClockDecomposes(time: real)
    requires time >= 0.0
    ensures Hours(time) * 3600 + Minutes(time) * 60 + Seconds(time) == time.Floor
  {
    var s := time.Floor;
    var m := (time / 60.0).Floor;
    var h := (time / 3600.0).Floor;
    assert (time / 60.0 / 60.0) == time / 3600.0;
    assert Seconds(time) == s - 60 * m by {
      assert Rem60(time) == time - 60.0 * (m as real);
      assert (time - 60.0 * (m as real)).Floor == s - 60 * m;
    }
    assert Minutes(time) == m - 60 * h by {
      assert Rem60(time / 60.0) == time / 60.0 - 60.0 * (h as real);
      assert (time / 60.0 - 60.0 * (h as real)).Floor == m - 60 * h;
    }
  }

  /** `s.padStart(len, fill)` with a one-character fill: `fill`s in front up to `len` characters, never cutting `s`. */
  function PadStart(s: string, len: int, fill: char): (r: string)
    ensures |r| == if |s| >= len then |s| else len
    ensures r[|r| - |s|..] == s
    ensures forall i :: 0 <= i < |r| - |s| ==> r[i] == fill
    decreases len - |s|
  {
    if |s| >= len then s else PadStart([fill] + s, len, fill)
  }

  /** `pad`: `${num}` padded with zeros (`StrWholeInt` ties `ShowWhole` to `String`). */
  function Pad(num: int, len: int): string {
    PadStart(ShowWhole(num), len, '0')
  }

  /** `formatTime`: the hour field only when there is at least one whole hour. */
  function Format(timeInSeconds: real): string {
    var hours := Hours(timeInSeconds);
    var hourString := if hours > 0 then Some(Pad(hours, 2)) else None;
    Clock(hourString, Pad(Minutes(timeInSeconds), 2), Pad(Seconds(timeInSeconds), 2))
  }

  /** The returned template: `HH:MM:SS` when there is an hour string, else `MM:SS`. */
  function Clock(hourString: Option<string>, minuteString: string, secondString: string): string {
    match hourString
    case None => minuteString + ":" + secondString
    case Some(h) => h + ":" + minuteString + ":" + secondString
  }

  // ---------------------------------------------------------------------------
  // the fields, read back

  /** Two decimal digits, tens first. */
  function TwoDigits(n: nat): (r: string)
    requires n < 100
  {
    [DigitChar(n / 10), DigitChar(n % 10)]
  }

  /** Leading zeros do not change a digit string's value. */
  lemma {:induction false} ValueLeadingZero(s: string)
    requires AllDigits(s)
    ensures AllDigits("0" + s) && Value("0" + s) == Value(s)
    decreases |s|
  {
    if s != [] {
      var z := "0" + s;
      assert z[..|z| - 1] == "0" + s[..|s| - 1];
      ValueLeadingZero(s[..|s| - 1]);
    }
  }

  /** Zero padding keeps a digit string's value and reaches at least `len` characters. */
  lemma {:induction false} PadStartValue(s: string, len: int)
    requires AllDigits(s)
    ensures AllDigits(PadStart(s, len, '0')) && Value(PadStart(s, len, '0')) == Value(s)
    ensures |PadStart(s, len, '0')| >= len
    decreases len - |s|
  {
    if |s| < len {
      ValueLeadingZero(s);
      PadStartValue("0" + s, len);
    }
  }

  /** A padded non-negative number is all digits and reads back as itself. */
  lemma PadValue(n: nat, len: int)
    ensures AllDigits(Pad(n, len)) && Value(Pad(n, len)) == n && |Pad(n, len)| >= len
  {
    ValueShow(n);
    PadStartValue(Show(n), len);
  }

  /** Below 100 a number pads to exactly its two digits. */
  lemma PadTwoDigits(n: nat)
    requires n < 100
    ensures Pad(n, 2) == TwoDigits(n)
  {
    if n >= 10 {
      assert Show(n) == Show(n / 10) + [DigitChar(n % 10)];
    } else {
      assert DigitChar(0) == '0';
    }
  }

  /** The hour field is zero under an hour and positive from an hour on. */
  lemma HoursSign(time: real)
    requires time >= 0.0
    ensures Hours(time) >= 0
    ensures Hours(time) == 0 <==> time < 3600.0
  {
  }

  /** Without an hour string the clock is exactly `MM:SS` for fields below 60. */
  lemma ShortClock(minutes: nat, seconds: nat)
    requires minutes < 60 && seconds < 60
    ensures Clock(None, Pad(minutes, 2), Pad(seconds, 2)) == TwoDigits(minutes) + ":" + TwoDigits(seconds)
  {
    PadTwoDigits(minutes);
    PadTwoDigits(seconds);
  }

  /** With an hour string the clock is `HH:MM:SS`, the hour field at least two digits and reading back as the hours. */
  lemma LongClock(hours: nat, minutes: nat, seconds: nat)
    requires minutes < 60 && seconds < 60
    ensures var h := Pad(hours, 2);
            && Clock(Some(h), Pad(minutes, 2), Pad(seconds, 2)) == h + ":" + TwoDigits(minutes) + ":" + TwoDigits(seconds)
            && |h| >= 2 && AllDigits(h) && Value(h) == hours
  {
    PadTwoDigits(minutes);
    PadTwoDigits(seconds);
    PadValue(hours, 2);
  }

  /** `formatTime` fills the template with the padded fields, the hours only from one hour on. */
  lemma FormatFields(time: real)
    requires time >= 0.0
    ensures var hours := Hours(time);
            && hours >= 0
            && Format(time) == Clock(if time >= 3600.0 then Some(Pad(hours, 2)) else None,
                                     Pad(Minutes(time), 2), Pad(Seconds(time), 2))
  {
    HoursSign(time);
  }

  /** Under an hour the output is exactly `MM:SS`. */
  lemma ShortForm(time: real)
    requires 0.0 <= time < 3600.0
    ensures Format(time) == TwoDigits(Minutes(time)) + ":" + TwoDigits(Seconds(time))
    ensures |Format(time)| == 5
  {
    FormatFields(time);
    ShortClock(Minutes(time), Seconds(time));
  }

  /** From an hour on the output is `HH:MM:SS`, the hour field at least two digits and reading back as the hours. */
  lemma LongForm(time: real)
    requires time >= 3600.0
    ensures var h := Pad(Hours(time), 2);
            && Format(time) == h + ":" + TwoDigits(Minutes(time)) + ":" + TwoDigits(Seconds(time))
            && |h| >= 2 && AllDigits(h) && Value(h) == Hours(time)
  {
    FormatFields(time);
    LongClock(Hours(time), Minutes(time), Seconds(time));
  }

  /** Reading a clock `[H:]M:S` of digit fields back as seconds. */
  function ClockSeconds(clock: string): Option<nat> {
    FieldSeconds(Split(clock, ':'))
  }

  /** Two fields are minutes and seconds, three are hours, minutes and seconds; each must be digits. */
  function FieldSeconds(fields: seq<string>): Option<nat> {
    if |fields| == 2 && AllDigits(fields[0]) && AllDigits(fields[1]) then
      Some(Value(fields[0]) * 60 + Value(fields[1]))
    else if |fields| == 3 && AllDigits(fields[0]) && AllDigits(fields[1]) && AllDigits(fields[2]) then
      Some(Value(fields[0]) * 3600 + Value(fields[1]) * 60 + Value(fields[2]))
    else None
  }

  lemma DigitsNoColon(s: string)
    requires AllDigits(s)
    ensures ':' !in s
  {
    assert forall i :: 0 <= i < |s| ==> s[i] != ':';
  }

  /** Digit fields joined by colons split back into those fields. */
  lemma SplitFields(fields: seq<string>)
    requires 2 <= |fields| <= 3
    requires forall i :: 0 <= i < |fields| ==> AllDigits(fields[i])
    ensures Split(Join(fields, ":"), ':') == fields
  {
    forall i | 0 <= i < |fields| ensures ':' !in fields[i] {
      DigitsNoColon(fields[i]);
    }
    SplitJoin(fields, ':');
  }

  lemma JoinThree(a: string, b: string, c: string)
    ensures Join([a, b, c], ":") == a + ":" + b + ":" + c
  {
    assert [b, c][1..] == [c];
    assert Join([b, c], ":") == b + ":" + c;
    assert [a, b, c][1..] == [b, c];
    assert Join([a, b, c], ":") == a + ":" + (b + ":" + c);
  }

  lemma TwoFieldSeconds(a: string, b: string)
    requires AllDigits(a) && AllDigits(b)
    ensures FieldSeconds([a, b]) == Some(Value(a) * 60 + Value(b))
  {
    var fields := [a, b];
    assert fields[0] == a && fields[1] == b;
  }

  lemma ThreeFieldSeconds(a: string, b: string, c: string)
    requires AllDigits(a) && AllDigits(b) && AllDigits(c)
    ensures FieldSeconds([a, b, c]) == Some(Value(a) * 3600 + Value(b) * 60 + Value(c))
  {
    var fields := [a, b, c];
    assert fields[0] == a && fields[1] == b && fields[2] == c;
  }

  /** Two digit fields joined by a colon read back as minutes and seconds. */
  lemma ReadTwoFields(a: string, b: string)
    requires AllDigits(a) && AllDigits(b)
    ensures ClockSeconds(a + ":" + b) == Some(Value(a) * 60 + Value(b))
  {
    assert Split(a + ":" + b, ':') == [a, b] by {
      assert [a, b][1..] == [b];
      assert Join([a, b], ":") == a + ":" + b;
      SplitFields([a, b]);
    }
    TwoFieldSeconds(a, b);
  }

  /** Three digit fields joined by colons read back as hours, minutes and seconds. */
  lemma ReadThreeFields(a: string, b: string, c: string)
    requires AllDigits(a) && AllDigits(b) && AllDigits(c)
    ensures ClockSeconds(a + ":" + b + ":" + c) == Some(Value(a) * 3600 + Value(b) * 60 + Value(c))
  {
    JoinThree(a, b, c);
    SplitFields([a, b, c]);
    ThreeFieldSeconds(a, b, c);
  }

  /**
   * A clock of digit fields reads back as the seconds they stand for, an
   * absent hour field counting as zero hours.
   */
  lemma ClockReadsBack(hourString: Option<string>, minuteString: string, secondString: string,
                       hours: nat, minutes: nat, seconds: nat)
    requires AllDigits(minuteString) && Value(minuteString) == minutes
    requires AllDigits(secondString) && Value(secondString) == seconds
    requires hourString.Some? ==> AllDigits(hourString.value) && Value(hourString.value) == hours
    requires hourString.None? ==> hours == 0
    ensures ClockSeconds(Clock(hourString, minuteString, secondString)) == Some(hours * 3600 + minutes * 60 + seconds)
  {
    match hourString
    case None =>
      ReadTwoFields(minuteString, secondString);
    case Some(h) =>
      ReadThreeFields(h, minuteString, secondString);
  }

  /** The padded fields of a clock read back as the seconds they stand for. */
  lemma PaddedClockReadsBack(hours: nat, minutes: nat, seconds: nat, withHours: bool)
    requires !withHours ==> hours == 0
    ensures ClockSeconds(Clock(if withHours then Some(Pad(hours, 2)) else None, Pad(minutes, 2), Pad(seconds, 2)))
            == Some(hours * 3600 + minutes * 60 + seconds)
  {
    var hh, mm, ss := Pad(hours, 2), Pad(minutes, 2), Pad(seconds, 2);
    assert AllDigits(hh) && Value(hh) == hours by { PadValue(hours, 2); }
    assert AllDigits(mm) && Value(mm) == minutes by { PadValue(minutes, 2); }
    assert AllDigits(ss) && Value(ss) == seconds by { PadValue(seconds, 2); }
    ClockReadsBack(if withHours then Some(hh) else None, mm, ss, hours, minutes, seconds);
  }

  /** The formatted clock reads back as the whole seconds of a non-negative time. */
  lemma FormatReadsBack(time: real)
    requires time >= 0.0
    ensures ClockSeconds(Format(time)) == Some(time.Floor)
  {
    FormatFields(time);
    assert Hours(time) * 3600 + Minutes(time) * 60 + Seconds(time) == time.Floor
        && (Hours(time) == 0 <==> time < 3600.0) by {
      ClockDecomposes(time);
      HoursSign(time);
    }
    PaddedClockReadsBack(Hours(time), Minutes(time), Seconds(time), time >= 3600.0);
  }
}
