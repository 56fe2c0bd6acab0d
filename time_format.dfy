/** `formatTime` of the recorder panel (src/components/Wavesurfer.tsx): a
    progress time in milliseconds shown as `mm:ss`, hours dropped. */
module TimeFormat {
  import opened Text

  const MsPerHour := 3600000
  const MsPerMinute := 60000
  const MsPerSecond := 1000

  /** JavaScript's `a % b`: the remainder takes the sign of the dividend. */
  function JsRem(a: int, b: int): (r: int)
    requires b > 0
    ensures a >= 0 ==> 0 <= r < b
    ensures a < 0 ==> -b < r <= 0
  {
    if a >= 0 then a % b else -((-a) % b)
  }

  /** `Math.trunc(a / b)`: the quotient rounded toward zero. */
  function TruncDiv(a: int, b: int): int
    requires b > 0
  {
    if a >= 0 then a / b else -((-a) / b)
  }

  /** `%` is the remainder of the truncating division: a = b·trunc(a/b) + a % b. */
  lemma JsRemTruncates(a: int, b: int)
    requires b > 0
    ensures a == b * TruncDiv(a, b) + JsRem(a, b)
  {
    if a < 0 {
      var q, m := (-a) / b, (-a) % b;
      assert -a == b * q + m;
    }
  }

  /** `Math.floor(a / b)` for a positive divisor. */
  function FloorDiv(a: int, b: int): (q: int)
    requires b > 0
  {
    a / b
  }

  /** Whole minutes within the hour, as the formatter computes them. */
  function MinutesField(timeMs: int): int {
    FloorDiv(JsRem(timeMs, MsPerHour), MsPerMinute)
  }

  /** Whole seconds within the minute, as the formatter computes them. */
  function SecondsField(timeMs: int): int {
    FloorDiv(JsRem(timeMs, MsPerMinute), MsPerSecond)
  }

  function FormatTime(timeMs: int): string {
    PadStart(IntToString(MinutesField(timeMs)), 2, '0') + ":" +
    PadStart(IntToString(SecondsField(timeMs)), 2, '0')
  }

  /** The value of the two digits at `i` and `i + 1`. */
  function TwoDigitValue(s: string, i: nat): int
    requires i + 1 < |s|
  {
    10 * (s[i] as int - '0' as int) + (s[i + 1] as int - '0' as int)
  }

  /** For a non-negative time both fields lie in [0, 59], and the text is
      their two zero-padded digits around a colon. */
  lemma FormatTimeDigits(timeMs: int)
    requires timeMs >= 0
    ensures 0 <= MinutesField(timeMs) < 60 && 0 <= SecondsField(timeMs) < 60
    ensures MinutesField(timeMs) == (timeMs % MsPerHour) / MsPerMinute
    ensures SecondsField(timeMs) == (timeMs % MsPerMinute) / MsPerSecond
    ensures FormatTime(timeMs) ==
      [DigitChar(MinutesField(timeMs) / 10), DigitChar(MinutesField(timeMs) % 10), ':',
       DigitChar(SecondsField(timeMs) / 10), DigitChar(SecondsField(timeMs) % 10)]
  {
    FieldsOf(timeMs);
    TextOfFields(timeMs);
  }

  /** Whenever both fields lie in [0, 59], the text is their padded digits. */
  lemma TextOfFields(timeMs: int)
    requires 0 <= MinutesField(timeMs) < 60 && 0 <= SecondsField(timeMs) < 60
    ensures FormatTime(timeMs) ==
      [DigitChar(MinutesField(timeMs) / 10), DigitChar(MinutesField(timeMs) % 10), ':',
       DigitChar(SecondsField(timeMs) / 10), DigitChar(SecondsField(timeMs) % 10)]
  {
    var mm, ss := MinutesField(timeMs), SecondsField(timeMs);
    FieldText(mm);
    FieldText(ss);
    JoinFields(PadStart(IntToString(mm), 2, '0'), PadStart(IntToString(ss), 2, '0'),
               DigitChar(mm / 10), DigitChar(mm % 10), DigitChar(ss / 10), DigitChar(ss % 10));
  }

  lemma JoinFields(m: string, s: string, m1: char, m0: char, s1: char, s0: char)
    requires m == [m1, m0] && s == [s1, s0]
    ensures m + ":" + s == [m1, m0, ':', s1, s0]
  {
  }

  /** The two fields of a non-negative time, as Euclidean arithmetic. */
  lemma FieldsOf(timeMs: int)
    requires timeMs >= 0
    ensures MinutesField(timeMs) == (timeMs % MsPerHour) / MsPerMinute
    ensures SecondsField(timeMs) == (timeMs % MsPerMinute) / MsPerSecond
    ensures 0 <= MinutesField(timeMs) < 60 && 0 <= SecondsField(timeMs) < 60
  {
    assert JsRem(timeMs, MsPerHour) == timeMs % MsPerHour;
    assert JsRem(timeMs, MsPerMinute) == timeMs % MsPerMinute;
  }

  /** A field below 60, padded, is its two digits. */
  lemma FieldText(n: int)
    requires 0 <= n < 60
    ensures PadStart(IntToString(n), 2, '0') == [DigitChar(n / 10), DigitChar(n % 10)]
  {
    assert IntToString(n) == NatToString(n);
    TwoDigits(n);
  }

  /** The shape of the result: five characters, digits around a colon. */
  lemma FormatTimeShape(timeMs: int)
    requires timeMs >= 0
    ensures var r := FormatTime(timeMs);
      |r| == 5 && r[2] == ':' && IsDigit(r[0]) && IsDigit(r[1]) && IsDigit(r[3]) && IsDigit(r[4])
  {
    FormatTimeDigits(timeMs);
    DisplayShape(FormatTime(timeMs), MinutesField(timeMs), SecondsField(timeMs));
  }

  lemma DisplayShape(r: string, mm: int, ss: int)
    requires 0 <= mm < 60 && 0 <= ss < 60
    requires r == [DigitChar(mm / 10), DigitChar(mm % 10), ':', DigitChar(ss / 10), DigitChar(ss % 10)]
    ensures |r| == 5 && r[2] == ':' && IsDigit(r[0]) && IsDigit(r[1]) && IsDigit(r[3]) && IsDigit(r[4])
  {
  }

  /** Reading the text back gives minutes and seconds whose value brackets
      the time within the hour to the second. */
  lemma FormatTimeBrackets(timeMs: int)
    requires timeMs >= 0
    ensures var r, w := FormatTime(timeMs), timeMs % MsPerHour;
      |r| == 5 &&
      0 <= TwoDigitValue(r, 0) < 60 && 0 <= TwoDigitValue(r, 3) < 60 &&
      MsPerMinute * TwoDigitValue(r, 0) + MsPerSecond * TwoDigitValue(r, 3) <= w <
      MsPerMinute * TwoDigitValue(r, 0) + MsPerSecond * TwoDigitValue(r, 3) + MsPerSecond
  {
    FormatTimeDigits(timeMs);
    ClockBrackets(FormatTime(timeMs), timeMs);
  }

  lemma ClockBrackets(r: string, timeMs: int)
    requires timeMs >= 0
    requires var mm, ss := (timeMs % MsPerHour) / MsPerMinute, (timeMs % MsPerMinute) / MsPerSecond;
      0 <= mm < 60 && 0 <= ss < 60 &&
      r == [DigitChar(mm / 10), DigitChar(mm % 10), ':', DigitChar(ss / 10), DigitChar(ss % 10)]
    ensures var w := timeMs % MsPerHour;
      |r| == 5 &&
      0 <= TwoDigitValue(r, 0) < 60 && 0 <= TwoDigitValue(r, 3) < 60 &&
      MsPerMinute * TwoDigitValue(r, 0) + MsPerSecond * TwoDigitValue(r, 3) <= w <
      MsPerMinute * TwoDigitValue(r, 0) + MsPerSecond * TwoDigitValue(r, 3) + MsPerSecond
  {
    var mm, ss := (timeMs % MsPerHour) / MsPerMinute, (timeMs % MsPerMinute) / MsPerSecond;
    DigitsAt(r, 0, mm);
    DigitsAt(r, 3, ss);
    FieldsBracket(timeMs);
  }

  lemma DigitsAt(s: string, i: nat, n: int)
    requires 0 <= n < 100 && i + 1 < |s|
    requires s[i] == DigitChar(n / 10) && s[i + 1] == DigitChar(n % 10)
    ensures TwoDigitValue(s, i) == n
  {
  }

  /** Within the first hour, the bracketing holds of the time itself. */
  lemma FormatTimeFirstHour(timeMs: int)
    requires 0 <= timeMs < MsPerHour
    ensures var r := FormatTime(timeMs);
      |r| == 5 &&
      MsPerMinute * TwoDigitValue(r, 0) + MsPerSecond * TwoDigitValue(r, 3) <= timeMs <
      MsPerMinute * TwoDigitValue(r, 0) + MsPerSecond * TwoDigitValue(r, 3) + MsPerSecond
  {
    FormatTimeBrackets(timeMs);
    SmallMod(timeMs);
  }

  lemma SmallMod(a: int)
    requires 0 <= a < MsPerHour
    ensures a % MsPerHour == a
  {
  }

  /** Hours are discarded: a time and the same time one hour later look alike. */
  lemma FormatTimeDropsHours(timeMs: int)
    requires timeMs >= 0
    ensures FormatTime(timeMs + MsPerHour) == FormatTime(timeMs)
  {
    FieldsDropHours(timeMs);
  }

  lemma FieldsDropHours(timeMs: int)
    requires timeMs >= 0
    ensures MinutesField(timeMs + MsPerHour) == MinutesField(timeMs)
    ensures SecondsField(timeMs + MsPerHour) == SecondsField(timeMs)
  {
    AddHour(timeMs);
    assert JsRem(timeMs + MsPerHour, MsPerHour) == JsRem(timeMs, MsPerHour);
    assert JsRem(timeMs + MsPerHour, MsPerMinute) == JsRem(timeMs, MsPerMinute);
  }

  /** A negative time is not clamped: JavaScript's remainder keeps the sign,
      so the fields come out negative and are shown with a minus sign. */
  lemma FormatTimeNegative()
    ensures FormatTime(-1) == "-1:-1"
  {
    assert JsRem(-1, MsPerHour) == -1 && JsRem(-1, MsPerMinute) == -1;
    assert MinutesField(-1) == -1;
    assert SecondsField(-1) == -1;
    assert NatToString(1) == "1";
    assert IntToString(-1) == "-1";
    assert PadStart("-1", 2, '0') == "-1";
  }

  /** The arithmetic behind the bracketing, on the two fields. */
  lemma FieldsBracket(timeMs: int)
    requires timeMs >= 0
    ensures var w, mm, ss := timeMs % MsPerHour, (timeMs % MsPerHour) / MsPerMinute, (timeMs % MsPerMinute) / MsPerSecond;
      MsPerMinute * mm + MsPerSecond * ss <= w < MsPerMinute * mm + MsPerSecond * ss + MsPerSecond
  {
    var w := timeMs % MsPerHour;
    HourThenMinute(timeMs);
    var x := w % MsPerMinute;
    assert w == MsPerMinute * (w / MsPerMinute) + x;
    assert x == MsPerSecond * (x / MsPerSecond) + x % MsPerSecond;
  }

  /** Adding an hour changes neither remainder. */
  lemma AddHour(a: int)
    requires a >= 0
    ensures (a + MsPerHour) % MsPerHour == a % MsPerHour
    ensures (a + MsPerHour) % MsPerMinute == a % MsPerMinute
  {
    var q, r := a / MsPerMinute, a % MsPerMinute;
    assert a + MsPerHour == MsPerMinute * (q + 60) + r;
  }

  /** Reducing modulo an hour first does not change the remainder modulo a minute. */
  lemma HourThenMinute(a: int)
    requires a >= 0
    ensures (a % MsPerHour) % MsPerMinute == a % MsPerMinute
  {
    var q, r := a / MsPerHour, a % MsPerHour;
    assert a == MsPerMinute * (60 * q) + r;
  }
}
