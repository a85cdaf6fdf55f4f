/** The display formatters (src/utils/formatters.ts). JavaScript numbers are `real` here: the
    arithmetic is exact and `NaN` is not represented. */
module Formatters {
  import opened Text

  /** `Math.trunc`: rounds toward zero. */
  function Trunc(x: real): (t: int)
    ensures x >= 0.0 ==> t == x.Floor
    ensures x < 0.0 ==> t == -((-x).Floor)
  {
    if x >= 0.0 then x.Floor else -((-x).Floor)
  }

  /** The `%` operator on numbers: the remainder keeps the sign of the dividend. */
  function JsRem(a: real, b: real): (r: real)
    requires b != 0.0
  {
    a - b * (Trunc(a / b) as real)
  }

  datatype DurationParts = DurationParts(hours: int, minutes: int, seconds: int)

  /** `Math.floor(s / 3600)`, `Math.floor((s % 3600) / 60)` and `Math.floor(s % 60)`. */
  function DurationComponents(s: real): (r: DurationParts)
  {
    DurationParts((s / 3600.0).Floor, (JsRem(s, 3600.0) / 60.0).Floor, JsRem(s, 60.0).Floor)
  }

  /** The pieces `formatDuration` joins: positive hours and minutes, and the seconds when
      positive or when nothing else was written. */
  function DurationPieces(p: DurationParts): (pieces: seq<string>)
    ensures |pieces| > 0
  {
    (if p.hours > 0 then [IntToString(p.hours) + "h"] else [])
    + (if p.minutes > 0 then [IntToString(p.minutes) + "m"] else [])
    + (if p.seconds > 0 || (p.hours <= 0 && p.minutes <= 0) then [IntToString(p.seconds) + "s"] else [])
  }

  /** `formatDuration(seconds)`. On whole non-negative seconds nothing is lost: the text reads
      back as the number it was made from. */
  function FormatDuration(s: real): (r: string)
    ensures s == 0.0 ==> r == "0s"
    ensures s >= 0.0 && s == s.Floor as real ==> ParseDuration(r) == s.Floor
  {
    if s == 0.0 then
      ZeroDuration();
      "0s"
    else
      var r := Join(DurationPieces(DurationComponents(s)), " ");
      assert s >= 0.0 && s == s.Floor as real ==> ParseDuration(r) == s.Floor by {
        if s >= 0.0 && s == s.Floor as real {
          PositiveRoundTrip(s.Floor);
        }
      }
      r
  }

  /** For whole non-negative seconds the components are plain quotient and remainders. */
  lemma WholeComponents(n: nat)
    ensures DurationComponents(n as real) == DurationParts(n / 3600, (n % 3600) / 60, n % 60)
  {
    FloorDiv(n, 3600);
    FloorDiv(n, 60);
    FloorDiv(n % 3600, 60);
    assert JsRem(n as real, 3600.0) == (n % 3600) as real;
    assert JsRem(n as real, 60.0) == (n % 60) as real;
  }

  lemma FloorDiv(n: nat, d: nat)
    requires d > 0
    ensures ((n as real) / (d as real)).Floor == n / d
  {
    var q, r := n / d, n % d;
    assert n == q * d + r;
    assert (n as real) / (d as real) == (q as real) + (r as real) / (d as real);
    assert 0.0 <= (r as real) / (d as real) < 1.0;
  }

  /** The value a duration piece such as `15s` stands for, in seconds. */
  function PieceValue(piece: string): (r: nat)
  {
    if |piece| == 0 then 0
    else
      var unit := piece[|piece| - 1];
      RadixValue(piece[..|piece| - 1], 10) * (if unit == 'h' then 3600 else if unit == 'm' then 60 else if unit == 's' then 1 else 0)
  }

  function SumPieces(pieces: seq<string>): (r: nat)
  {
    if |pieces| == 0 then 0 else PieceValue(pieces[0]) + SumPieces(pieces[1..])
  }

  /** Reading a formatted duration back: the pieces between spaces, summed. */
  function ParseDuration(s: string): (r: nat)
  {
    SumPieces(Split(s, ' '))
  }

  lemma {:induction false} SumPiecesAppend(a: seq<string>, b: seq<string>)
    ensures SumPieces(a + b) == SumPieces(a) + SumPieces(b)
  {
    if |a| > 0 {
      assert (a + b)[1..] == a[1..] + b;
      SumPiecesAppend(a[1..], b);
    } else {
      assert a + b == b;
    }
  }

  /** A piece reads back as its number times its unit. */
  lemma PieceRoundTrip(k: nat, unit: char, factor: nat)
    requires unit == 'h' || unit == 'm' || unit == 's'
    requires factor == (if unit == 'h' then 3600 else if unit == 'm' then 60 else 1)
    ensures PieceValue(IntToString(k) + [unit]) == k * factor
    ensures ' ' !in IntToString(k) + [unit]
  {
    var digits := IntToString(k);
    assert (digits + [unit])[..|digits|] == digits;
    RadixRoundTrip(k, 10);
    assert forall i :: 0 <= i < |digits| ==> IsDigitChar(digits[i]);
  }

  /** The pieces of non-negative components read back as the total number of seconds. */
  lemma PiecesValue(h: nat, m: nat, sec: nat)
    requires h > 0 || m > 0 || sec > 0
    ensures SumPieces(DurationPieces(DurationParts(h, m, sec))) == h * 3600 + m * 60 + sec
  {
    var hs: seq<string> := if h > 0 then [IntToString(h) + "h"] else [];
    var ms: seq<string> := if m > 0 then [IntToString(m) + "m"] else [];
    var ss: seq<string> := if sec > 0 then [IntToString(sec) + "s"] else [];
    assert DurationPieces(DurationParts(h, m, sec)) == hs + ms + ss;
    assert SumPieces(hs) == h * 3600 by {
      PieceRoundTrip(h, 'h', 3600);
    }
    assert SumPieces(ms) == m * 60 by {
      PieceRoundTrip(m, 'm', 60);
    }
    assert SumPieces(ss) == sec by {
      PieceRoundTrip(sec, 's', 1);
    }
    SumPiecesAppend(hs + ms, ss);
    SumPiecesAppend(hs, ms);
  }

  /** No piece contains the separator. */
  lemma PiecesWithoutSpaces(p: DurationParts)
    requires p.hours >= 0 && p.minutes >= 0 && p.seconds >= 0
    ensures forall i :: 0 <= i < |DurationPieces(p)| ==> ' ' !in DurationPieces(p)[i]
  {
    PieceRoundTrip(p.hours, 'h', 3600);
    PieceRoundTrip(p.minutes, 'm', 60);
    PieceRoundTrip(p.seconds, 's', 1);
  }

  /** Hours, minutes and seconds recombine to the total. */
  lemma Recompose(n: nat)
    ensures (n / 3600) * 3600 + ((n % 3600) / 60) * 60 + n % 60 == n
  {
    var h, r := n / 3600, n % 3600;
    assert n == h * 3600 + r;
    assert r == (r / 60) * 60 + r % 60;
    assert r % 60 == n % 60 by {
      assert n == (h * 60 + r / 60) * 60 + r % 60;
      DivUnique(n, 60, h * 60 + r / 60, r % 60);
    }
  }

  /** A product with a factor of at least one is at least the other factor. */
  lemma MulSign(k: int, d: int)
    requires d > 0
    ensures k >= 1 ==> k * d >= d
    ensures k <= -1 ==> k * d <= -d
  {
  }

  /** Euclidean division is determined by its quotient and remainder. */
  lemma DivUnique(a: int, d: int, q: int, r: int)
    requires d > 0 && a == q * d + r && 0 <= r < d
    ensures a / d == q && a % d == r
  {
    var q' := a / d;
    assert (q' - q) * d == r - a % d;
    MulSign(q' - q, d);
  }

  /** Adding whole multiples of the divisor moves the quotient and keeps the remainder. */
  lemma DivShift(t: int, d: int, k: int)
    requires d > 0
    ensures (t + k * d) / d == t / d + k && (t + k * d) % d == t % d
  {
    assert t + k * d == (t / d + k) * d + t % d;
    DivUnique(t + k * d, d, t / d + k, t % d);
  }

  /** Scaling dividend and divisor alike scales the remainder and keeps the quotient. */
  lemma DivScale(n: nat, d: nat, k: nat)
    requires d > 0 && k > 0
    ensures (n * k) / (d * k) == n / d && (n * k) % (d * k) == (n % d) * k
  {
    var q, r := n / d, n % d;
    assert n * k == q * (d * k) + r * k;
    assert r * k < d * k by {
      MulSign(d - r, k);
    }
    DivUnique(n * k, d * k, q, r * k);
  }

  /** The pieces of a positive whole number of seconds, joined by spaces, read back as it. */
  lemma PositiveRoundTrip(n: nat)
    requires n > 0
    ensures ParseDuration(Join(DurationPieces(DurationComponents(n as real)), " ")) == n
  {
    WholeComponents(n);
    var h, m, sec := n / 3600, (n % 3600) / 60, n % 60;
    Recompose(n);
    PiecesValue(h, m, sec);
    PiecesWithoutSpaces(DurationParts(h, m, sec));
    var pieces := DurationPieces(DurationParts(h, m, sec));
    SplitJoin(pieces, ' ');
    assert [' '] == " ";
  }

  lemma ZeroDuration()
    ensures ParseDuration("0s") == 0
  {
    assert Split("s", ' ') == ["s"] by {
      assert "s"[1..] == "";
      assert Split("", ' ') == [""];
      assert ['s'] + "" == "s";
    }
    assert Split("0s", ' ') == ["0s"] by {
      assert "0s"[1..] == "s";
      assert ['0'] + "s" == "0s";
    }
    assert "0s"[..1] == "0";
    assert RadixValue("0", 10) == 0 by { assert "0"[..0] == ""; }
  }

  /** Largest magnitude of a `Date` time value, in milliseconds; beyond it the date is invalid. */
  const MaxTimeValue: real := 8_640_000_000_000_000.0

  /** `toString().padStart(2, '0')` of a field. */
  function Pad2(x: nat): (r: string)
  {
    PadStart(IntToString(x), 2, '0')
  }

  /** A two-character digit string in base 10. */
  lemma RadixValue2(a: char, b: char)
    ensures RadixValue([a, b], 10) == DigitValue(a) * 10 + DigitValue(b)
  {
    assert [] + [a] == [a];
    assert [a] + [b] == [a, b];
    RadixValueSnoc([], a, 10);
    RadixValueSnoc([a], b, 10);
  }

  lemma OneDigit(x: nat)
    requires x < 10
    ensures IntToString(x) == [DigitChar(x)]
  {
  }

  lemma TwoDigits(x: nat)
    requires 10 <= x < 100
    ensures IntToString(x) == [DigitChar(x / 10), DigitChar(x % 10)]
  {
    OneDigit(x / 10);
  }

  /** Below 100 a field is written as exactly two digits that read back as the field. */
  lemma Pad2Digits(x: nat)
    requires x < 100
    ensures |Pad2(x)| == 2 && RadixValue(Pad2(x), 10) == x
    ensures IsDigitChar(Pad2(x)[0]) && IsDigitChar(Pad2(x)[1])
  {
    var p := Pad2(x);
    if x < 10 {
      OneDigit(x);
      assert p == ['0', DigitChar(x)] by {
        assert p[1..] == [DigitChar(x)];
      }
      DigitRoundTrip(x);
      RadixValue2('0', DigitChar(x));
    } else {
      TwoDigits(x);
      assert p == [DigitChar(x / 10), DigitChar(x % 10)];
      DigitRoundTrip(x / 10);
      DigitRoundTrip(x % 10);
      RadixValue2(DigitChar(x / 10), DigitChar(x % 10));
    }
  }

  /** The clock fields of a time value `t` in milliseconds, as `getUTCHours` and friends give them. */
  function ClockFields(t: int): (f: (nat, nat, nat))
    ensures f.0 < 24 && f.1 < 60 && f.2 < 60
  {
    ((t / 3_600_000) % 24, (t / 60_000) % 60, (t / 1000) % 60)
  }

  /** Where the three fields of `a:b:c` sit. */
  lemma ColonLayout(a: string, b: string, c: string)
    requires |a| == 2 && |b| == 2 && |c| == 2
    ensures var r := a + ":" + b + ":" + c;
            |r| == 8 && r[2] == ':' && r[5] == ':' && r[0] == a[0]
            && r[..2] == a && r[3..5] == b && r[6..] == c
  {
  }

  /** `HH:MM:SS` from three fields below 100. */
  function ClockText(h: nat, m: nat, sec: nat): (r: string)
    requires h < 100 && m < 100 && sec < 100
    ensures |r| == 8 && r[2] == ':' && r[5] == ':' && IsDigitChar(r[0])
    ensures RadixValue(r[..2], 10) == h && RadixValue(r[3..5], 10) == m && RadixValue(r[6..], 10) == sec
  {
    Pad2Digits(h);
    Pad2Digits(m);
    Pad2Digits(sec);
    ColonLayout(Pad2(h), Pad2(m), Pad2(sec));
    Pad2(h) + ":" + Pad2(m) + ":" + Pad2(sec)
  }

  /** The clock text of a valid time value in milliseconds. */
  function FormatTime(t: int): (r: string)
    ensures |r| == 8 && r[2] == ':' && r[5] == ':' && IsDigitChar(r[0])
    ensures RadixValue(r[..2], 10) < 24 && RadixValue(r[3..5], 10) < 60 && RadixValue(r[6..], 10) < 60
  {
    var f := ClockFields(t);
    ClockText(f.0, f.1, f.2)
  }

  predicate ValidTime(s: real)
  {
    -MaxTimeValue <= s * 1000.0 <= MaxTimeValue
  }

  /** `formatTimestamp(seconds)`: the UTC clock time of `new Date(seconds * 1000)`; an invalid
      date prints `NaN` in every field. */
  function FormatTimestamp(s: real): (r: string)
    ensures !ValidTime(s) ==> r == "NaN:NaN:NaN"
    ensures ValidTime(s) ==> |r| == 8 && r[2] == ':' && r[5] == ':' && IsDigitChar(r[0])
    ensures ValidTime(s) ==> RadixValue(r[..2], 10) < 24 && RadixValue(r[3..5], 10) < 60 && RadixValue(r[6..], 10) < 60
  {
    if ValidTime(s) then FormatTime(Trunc(s * 1000.0)) else "NaN:NaN:NaN"
  }

  /** Reading `HH:MM:SS` back as seconds. */
  function ParseTimestamp(r: string): (v: nat)
    requires |r| == 8
  {
    RadixValue(r[..2], 10) * 3600 + RadixValue(r[3..5], 10) * 60 + RadixValue(r[6..], 10)
  }

  /** A whole number of seconds is a whole number of milliseconds. */
  lemma WholeMillis(n: int)
    ensures Trunc((n as real) * 1000.0) == n * 1000
  {
    assert (n as real) * 1000.0 == (n * 1000) as real;
  }

  /** A valid whole number of seconds is formatted from its milliseconds. */
  lemma FormatWhole(n: int)
    requires -8_640_000_000_000 <= n <= 8_640_000_000_000
    ensures FormatTimestamp(n as real) == FormatTime(n * 1000)
  {
    WholeMillis(n);
    ValidTimeFormat(n as real);
  }

  lemma ValidTimeFormat(s: real)
    requires ValidTime(s)
    ensures FormatTimestamp(s) == FormatTime(Trunc(s * 1000.0))
  {
  }

  /** Within a day the clock fields of whole seconds are hours, minutes and seconds. */
  lemma DivideThousands(n: nat)
    requires n < 86400
    ensures ClockFields(n * 1000) == (n / 3600, (n / 60) % 60, n % 60)
  {
    DivScale(n, 3600, 1000);
    DivScale(n, 60, 1000);
    DivScale(n, 1, 1000);
    DivUnique(n / 3600, 24, 0, n / 3600);
  }

  /** Hours, minutes-of-hour and seconds-of-minute recombine to the total within a day. */
  lemma RecomposeClock(n: nat)
    requires n < 86400
    ensures (n / 3600) * 3600 + ((n / 60) % 60) * 60 + n % 60 == n
  {
    var h, r := n / 3600, n % 3600;
    assert n == (h * 60 + r / 60) * 60 + r % 60;
    DivUnique(n, 60, h * 60 + r / 60, r % 60);
    DivUnique(n / 60, 60, h, r / 60);
    Recompose(n);
  }

  /** Within a day, a whole number of seconds survives formatting and reading back. */
  lemma TimestampRoundTrip(n: nat)
    requires n < 86400
    ensures |FormatTimestamp(n as real)| == 8 && ParseTimestamp(FormatTimestamp(n as real)) == n
  {
    FormatWhole(n);
    DivideThousands(n);
    RecomposeClock(n);
  }

  /** A whole day later the clock fields are the same. */
  lemma ShiftDay(t: int)
    ensures ClockFields(t + 86_400_000) == ClockFields(t)
  {
    DivShift(t, 3_600_000, 24);
    DivShift(t, 60_000, 1440);
    DivShift(t, 1000, 86400);
    DivShift(t / 3_600_000, 24, 1);
    DivShift(t / 60_000, 60, 24);
    DivShift(t / 1000, 60, 1440);
  }

  /** The hour field wraps: whole seconds one day apart format the same. */
  lemma TimestampWrapsDaily(n: int)
    requires -8_640_000_000_000 <= n && n + 86400 <= 8_640_000_000_000
    ensures FormatTimestamp((n + 86400) as real) == FormatTimestamp(n as real)
  {
    FormatWhole(n);
    FormatWhole(n + 86400);
    SecondsWrapDaily(n);
  }

  /** Whole seconds a day apart have the same clock text. */
  lemma SecondsWrapDaily(n: int)
    ensures FormatTime((n + 86400) * 1000) == FormatTime(n * 1000)
  {
    NextDayMillis(n);
    FormatTimeWrapsDaily(n * 1000);
  }

  lemma NextDayMillis(n: int)
    ensures FormatTime((n + 86400) * 1000) == FormatTime(n * 1000 + 86_400_000)
  {
    assert (n + 86400) * 1000 == n * 1000 + 86_400_000;
  }

  /** A whole day later the clock text is the same. */
  lemma FormatTimeWrapsDaily(t: int)
    ensures FormatTime(t + 86_400_000) == FormatTime(t)
  {
    ShiftDay(t);
  }

  /** The worked examples of the source's comments. */
  lemma HourExample()
    ensures FormatDuration(3600.0) == "1h"
  {
    WholeComponents(3600);
    OneDigit(1);
    assert DigitChar(1) == '1';
    assert IntToString(1) + "h" == "1h";
    assert DurationPieces(DurationParts(1, 0, 0)) == [] + ["1h"] + [];
  }

  lemma MixedPieces()
    ensures DurationPieces(DurationParts(2, 30, 15)) == ["2h", "30m", "15s"]
  {
    OneDigit(2);
    TwoDigits(30);
    TwoDigits(15);
    assert IntToString(2) + "h" == "2h";
    assert IntToString(30) + "m" == "30m";
    assert IntToString(15) + "s" == "15s";
  }

  lemma MixedExample()
    ensures FormatDuration(9015.0) == "2h 30m 15s"
  {
    WholeComponents(9015);
    assert DurationComponents(9015.0) == DurationParts(2, 30, 15);
    MixedPieces();
    MixedJoin();
  }

  lemma MixedJoin()
    ensures Join(["2h", "30m", "15s"], " ") == "2h 30m 15s"
  {
    assert ["2h", "30m", "15s"][1..] == ["30m", "15s"];
    assert ["30m", "15s"][1..] == ["15s"];
  }

  lemma TimestampExample()
    ensures FormatTimestamp(9015.0) == "02:30:15"
  {
    FormatWhole(9015);
    ExampleTime();
  }

  lemma ExampleTime()
    ensures FormatTime(9_015_000) == "02:30:15"
  {
    DivUnique(9_015_000, 3_600_000, 2, 1_815_000);
    DivUnique(9_015_000, 60_000, 150, 15_000);
    DivUnique(9_015_000, 1000, 9015, 0);
    DivUnique(2, 24, 0, 2);
    DivUnique(150, 60, 2, 30);
    DivUnique(9015, 60, 150, 15);
    assert ClockFields(9_015_000) == (2, 30, 15);
    ExamplePads();
  }

  lemma ExamplePads()
    ensures ClockText(2, 30, 15) == "02:30:15"
  {
    OneDigit(2);
    TwoDigits(30);
    TwoDigits(15);
    assert IntToString(2) == "2" && IntToString(30) == "30" && IntToString(15) == "15";
    assert Pad2(2) == "02" by {
      assert seq(1, _ => '0') + "2" == "02";
    }
    assert Pad2(30) == "30" && Pad2(15) == "15";
  }
}
