/**
 * `formatTime` of MainActivity: a millisecond count shown as "MM:SS", the
 * minutes and seconds printed with `%02d`. Java's `/` and `%` truncate toward
 * zero while Dafny's are Euclidean; the two agree on the non-negative counts
 * this function is given (positions and durations reported by the player).
 */
module TimeFormat {

  const MillisPerSecond := 1000
  const MillisPerMinute := 60000
  const MillisPerHour := 3600000

  predicate IsDigit(c: char) {
    '0' <= c <= '9'
  }

  function DigitValue(c: char): int {
    c as int - '0' as int
  }

  /** The ASCII digit for 0..9. */
  function Digit(d: int): (c: char)
    requires 0 <= d < 10
    ensures IsDigit(c) && DigitValue(c) == d
  {
    ('0' as int + d) as char
  }

  /** The value of a two-digit decimal field. */
  function FieldValue(s: string): int
    requires |s| == 2
  {
    10 * DigitValue(s[0]) + DigitValue(s[1])
  }

  /** `%02d` of a value below 100: two digits, zero-padded, reading back as `n`. */
  function Pad2(n: int): (s: string)
    requires 0 <= n < 100
    ensures |s| == 2 && IsDigit(s[0]) && IsDigit(s[1])
    ensures FieldValue(s) == n
  {
    [Digit(n / 10), Digit(n % 10)]
  }

  /** The minute field of a five-character clock text "MM:SS". */
  function MinuteField(s: string): int
    requires |s| == 5
  {
    FieldValue(s[0..2])
  }

  /** The second field of a five-character clock text "MM:SS". */
  function SecondField(s: string): int
    requires |s| == 5
  {
    FieldValue(s[3..5])
  }

  /** Always five characters: two digits, a colon, two digits. */
  function FormatTime(ms: int): (s: string)
    requires ms >= 0
    ensures |s| == 5 && s[2] == ':'
    ensures IsDigit(s[0]) && IsDigit(s[1]) && IsDigit(s[3]) && IsDigit(s[4])
    ensures 0 <= MinuteField(s) < 60 && 0 <= SecondField(s) < 60
  {
    var seconds := (ms / 1000) % 60;
    var minutes := (ms / (1000 * 60)) % 60;
    Pad2(minutes) + ":" + Pad2(seconds)
  }

  /** A positive multiple of a positive number is at least that number. */
  lemma {:induction false} MulAtLeast(d: int, k: int)
    requires d > 0 && k >= 1
    ensures d * k >= d
  {
  }

  /** Division by a multiple: the quotient and remainder determined by a decomposition. */
  lemma {:induction false} DivModOf(a: int, d: int, q: int, r: int)
    requires d > 0 && a == d * q + r && 0 <= r < d
    ensures a / d == q && a % d == r
  {
    var q0, r0 := a / d, a % d;
    assert d * q0 + r0 == d * q + r;
    if q0 < q {
      assert d * q - d * q0 == d * (q - q0);
      MulAtLeast(d, q - q0);
    } else if q < q0 {
      assert d * q0 - d * q == d * (q0 - q);
      MulAtLeast(d, q0 - q);
    }
  }

  /**
   * The two fields are the minute and second of the hour-minute-second-millisecond
   * decomposition of `ms`: the position within the current hour is exactly
   * minutes * 60000 + seconds * 1000 plus the dropped milliseconds.
   */
  lemma {:induction false} FormatTimeFields(ms: int)
    requires ms >= 0
    ensures ms % MillisPerHour
      == MinuteField(FormatTime(ms)) * MillisPerMinute
       + SecondField(FormatTime(ms)) * MillisPerSecond
       + ms % MillisPerSecond
  {
    var s := FormatTime(ms);
    var q, r := ms / 1000, ms % 1000;
    var sec := q % 60;
    var m' := q / 60;
    var min, h := m' % 60, m' / 60;
    assert ms == 3600000 * h + (60000 * min + 1000 * sec + r);
    DivModOf(ms, 60000, 60 * h + min, 1000 * sec + r);
    DivModOf(60 * h + min, 60, h, min);
    DivModOf(ms, 3600000, h, 60000 * min + 1000 * sec + r);
    assert s[0..2] == Pad2(min) && s[3..5] == Pad2(sec);
  }

  /** The text for time zero. */
  lemma FormatTimeZero()
    ensures FormatTime(0) == "00:00"
  {
  }

  /** Two clock texts with the same fields are the same text. */
  lemma {:induction false} ClockTextDeterminedByFields(s: string, t: string)
    requires |s| == 5 && |t| == 5 && s[2] == ':' && t[2] == ':'
    requires IsDigit(s[0]) && IsDigit(s[1]) && IsDigit(s[3]) && IsDigit(s[4])
    requires IsDigit(t[0]) && IsDigit(t[1]) && IsDigit(t[3]) && IsDigit(t[4])
    requires MinuteField(s) == MinuteField(t) && SecondField(s) == SecondField(t)
    ensures s == t
  {
  }

  /**
   * Two counts print alike exactly when they fall in the same whole second of
   * their hour: milliseconds below a second and whole hours never show.
   */
  lemma {:induction false} FormatTimeEqualIff(a: int, b: int)
    requires a >= 0 && b >= 0
    ensures FormatTime(a) == FormatTime(b)
        <==> (a % MillisPerHour) / MillisPerSecond == (b % MillisPerHour) / MillisPerSecond
  {
    FormatTimeFields(a);
    FormatTimeFields(b);
    var sa, sb := FormatTime(a), FormatTime(b);
    var ka := MinuteField(sa) * 60 + SecondField(sa);
    var kb := MinuteField(sb) * 60 + SecondField(sb);
    DivModOf(a % MillisPerHour, 1000, ka, a % 1000);
    DivModOf(b % MillisPerHour, 1000, kb, b % 1000);
    if ka == kb {
      DivModOf(ka, 60, MinuteField(sa), SecondField(sa));
      DivModOf(kb, 60, MinuteField(sb), SecondField(sb));
      ClockTextDeterminedByFields(sa, sb);
    }
  }

  /** Whole hours are dropped: the display wraps back to "00:00" every hour. */
  lemma {:induction false} FormatTimeDropsHours(ms: int, hours: nat)
    requires ms >= 0
    ensures FormatTime(ms + hours * MillisPerHour) == FormatTime(ms)
  {
    var big := ms + hours * MillisPerHour;
    DivModOf(big, MillisPerHour, ms / MillisPerHour + hours, ms % MillisPerHour);
    FormatTimeEqualIff(big, ms);
  }

  /** Milliseconds below a full second are dropped, not rounded. */
  lemma {:induction false} FormatTimeDropsMillis(ms: int)
    requires ms >= 0
    ensures FormatTime(ms - ms % MillisPerSecond) == FormatTime(ms)
  {
    var down := ms - ms % MillisPerSecond;
    var h, w := ms / MillisPerHour, ms % MillisPerHour;
    DivModOf(w, 1000, w / 1000, w % 1000);
    DivModOf(ms, 1000, h * 3600 + w / 1000, w % 1000);
    DivModOf(down, MillisPerHour, h, w - w % 1000);
    FormatTimeEqualIff(down, ms);
  }
}
