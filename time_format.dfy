/**
 * The player's time label: `formatTime` turns a number of seconds into
 * "minutes:seconds", with the seconds padded to two digits and NaN shown as
 * "0:00". The arithmetic follows JavaScript: `Math.floor`, the truncating
 * remainder `%`, `Number.prototype.toString` on integers and
 * `String.prototype.padStart(2, "0")`.
 *
 * Its partner is `ParseClock`, which reads a label back into a number of
 * whole seconds; `ClockRoundTrip` proves that for every non-negative time the
 * label reads back as the whole seconds it was made from.
 */
module TimeFormat {

  /** A JavaScript number as the player sees it: NaN, or a real value. */
  datatype Time = NaN | Num(value: real)

  datatype Option<T> = None | Some(value: T)

  /** `Math.trunc`: rounds toward zero. */
  function Trunc(x: real): (n: int)
    ensures x >= 0.0 ==> n == x.Floor
    ensures x < 0.0 ==> x <= n as real < x + 1.0 && n <= 0
  {
    if x >= 0.0 then x.Floor else -((-x).Floor)
  }

  /** JavaScript's `x % 60`: the remainder takes the sign of the dividend. */
  function Rem60(x: real): (r: real)
    ensures x >= 0.0 ==> 0.0 <= r < 60.0
    ensures x < 0.0 ==> -60.0 < r <= 0.0
  {
    x - 60.0 * (Trunc(x / 60.0) as real)
  }

  function Digit(d: nat): (c: char)
    requires d < 10
    ensures '0' <= c <= '9' && (c as int) - ('0' as int) == d
  {
    "0123456789"[d]
  }

  lemma DigitChars()
    ensures Digit(0) == '0' && Digit(1) == '1' && Digit(2) == '2' && Digit(3) == '3' && Digit(4) == '4'
    ensures Digit(5) == '5' && Digit(6) == '6' && Digit(7) == '7' && Digit(8) == '8' && Digit(9) == '9'
  {
  }

  /** Decimal digits of a natural number, most significant first. */
  function NatToString(n: nat): (s: string)
    decreases n
  {
    if n < 10 then [Digit(n)] else NatToString(n / 10) + [Digit(n % 10)]
  }

  /** `Number.prototype.toString` on an integer-valued number. */
  function IntToString(n: int): (r: string)
    ensures |r| >= 1 && (r[0] == '-' <==> n < 0)
  {
    NatToStringDigits(if n < 0 then -n else n);
    if n < 0 then "-" + NatToString(-n) else NatToString(n)
  }

  /** `padStart(2, "0")`: prefix zeros until the string is two long. */
  function PadStart2(s: string): (r: string)
    ensures |r| == if |s| < 2 then 2 else |s|
  {
    if |s| == 0 then "00" else if |s| == 1 then "0" + s else s
  }

  /** `padStart` keeps the string as its suffix and fills in front with zeros. */
  lemma PadStart2Pads(s: string)
    ensures PadStart2(s)[|PadStart2(s)| - |s|..] == s
    ensures forall i :: 0 <= i < |PadStart2(s)| - |s| ==> PadStart2(s)[i] == '0'
  {
  }

  /** formatTime: NaN is "0:00"; otherwise floor(t / 60), a colon, and
   *  floor(t % 60) padded to two characters. */
  function FormatTime(t: Time): (r: string)
    ensures t.NaN? ==> r == "0:00"
    ensures |r| >= 4 && ':' in r
  {
    match t
    case NaN => "0:00"
    case Num(x) => IntToString((x / 60.0).Floor) + ":" + PadStart2(IntToString(Rem60(x).Floor))
  }

  // ---------------------------------------------------------------------
  // Reading a label back

  predicate IsDigit(c: char) {
    '0' <= c <= '9'
  }

  /** The value of a non-empty string of decimal digits. */
  function ParseNat(s: string): (r: Option<nat>)
    ensures r.Some? ==> |s| > 0
    decreases |s|
  {
    if |s| == 0 || !IsDigit(s[|s| - 1]) then None
    else
      var d := (s[|s| - 1] as int) - ('0' as int);
      if |s| == 1 then Some(d)
      else match ParseNat(s[..|s| - 1])
        case None => None
        case Some(m) => Some(10 * m + d)
  }

  /** Splits a string at its first colon. */
  function SplitColon(s: string): (r: Option<(string, string)>)
    ensures r.Some? ==> |s| == |r.value.0| + 1 + |r.value.1|
  {
    if |s| == 0 then None
    else if s[0] == ':' then Some(([], s[1..]))
    else match SplitColon(s[1..])
      case None => None
      case Some(p) => Some(([s[0]] + p.0, p.1))
  }

  /** Reads "m:ss" (any number of minute digits, exactly two second digits,
   *  seconds below 60) as a number of whole seconds. */
  function ParseClock(s: string): (r: Option<int>)
    ensures r.Some? ==> r.value >= 0 && |s| >= 4
  {
    match SplitColon(s)
    case None => None
    case Some(p) =>
      if |p.1| != 2 then None
      else match (ParseNat(p.0), ParseNat(p.1))
        case (Some(m), Some(sec)) => if sec < 60 then Some(60 * m + sec) else None
        case _ => None
  }

  // ---------------------------------------------------------------------
  // Properties

  lemma {:induction false} NatToStringDigits(n: nat)
    ensures |NatToString(n)| >= 1
    ensures forall i :: 0 <= i < |NatToString(n)| ==> IsDigit(NatToString(n)[i])
    ensures ':' !in NatToString(n)
    decreases n
  {
    if n >= 10 {
      NatToStringDigits(n / 10);
      var s := NatToString(n / 10);
      assert NatToString(n) == s + [Digit(n % 10)];
    }
  }

  /** Writing a number in decimal and reading it back gives the number. */
  lemma {:induction false} NatRoundTrip(n: nat)
    ensures ParseNat(NatToString(n)) == Some(n)
    decreases n
  {
    if n >= 10 {
      var s := NatToString(n / 10);
      var t := NatToString(n);
      assert t == s + [Digit(n % 10)];
      assert t[..|t| - 1] == s;
      NatToStringDigits(n / 10);
      NatRoundTrip(n / 10);
    }
  }

  lemma {:induction false} SplitAtFirstColon(u: string, v: string)
    requires ':' !in u
    ensures SplitColon(u + ":" + v) == Some((u, v))
    decreases |u|
  {
    if |u| == 0 {
      assert u + ":" + v == [':'] + v;
    } else {
      assert (u + ":" + v)[1..] == u[1..] + ":" + v;
      SplitAtFirstColon(u[1..], v);
      assert [u[0]] + u[1..] == u;
    }
  }

  /** For a non-negative real, floor(x / 60) and floor(x % 60) are the
   *  minutes and the seconds of the whole seconds floor(x). */
  lemma MinutesAndSeconds(x: real)
    requires x >= 0.0
    ensures (x / 60.0).Floor == x.Floor / 60
    ensures Rem60(x).Floor == x.Floor % 60
  {
    var f := x.Floor;
    var q, r := f / 60, f % 60;
    assert f == 60 * q + r && 0 <= r < 60;
    assert q as real <= x / 60.0 < (q + 1) as real;
    assert (x / 60.0).Floor == q;
    assert Rem60(x) == x - 60.0 * (q as real);
    assert (r as real) <= Rem60(x) < (r + 1) as real;
  }

  lemma ParseTwoDigits(a: char, b: char)
    requires IsDigit(a) && IsDigit(b)
    ensures ParseNat([a, b]) == Some(10 * ((a as int) - ('0' as int)) + ((b as int) - ('0' as int)))
  {
    assert [a, b][..1] == [a];
  }

  lemma ParseDigitPair(t: string, hi: nat, lo: nat)
    requires hi < 10 && lo < 10 && t == [Digit(hi), Digit(lo)]
    ensures |t| == 2 && ParseNat(t) == Some(10 * hi + lo)
  {
    ParseTwoDigits(Digit(hi), Digit(lo));
  }

  lemma TwoDigitNat(n: nat)
    requires 10 <= n < 100
    ensures NatToString(n) == [Digit(n / 10), Digit(n % 10)]
  {
    assert NatToString(n / 10) == [Digit(n / 10)];
  }

  lemma PaddedDigits(s: nat)
    requires s < 60
    ensures PadStart2(NatToString(s)) == if s < 10 then ['0', Digit(s)] else [Digit(s / 10), Digit(s % 10)]
  {
    if s < 10 {
      assert NatToString(s) == [Digit(s)];
    } else {
      TwoDigitNat(s);
    }
  }

  /** The seconds field of a label: exactly two digits whose value is s. */
  lemma TwoDigitSeconds(s: nat)
    requires s < 60
    ensures |PadStart2(NatToString(s))| == 2
    ensures ParseNat(PadStart2(NatToString(s))) == Some(s)
  {
    var hi, lo := if s < 10 then 0 else s / 10, if s < 10 then s else s % 10;
    PaddedDigits(s);
    ParseDigitPair(PadStart2(NatToString(s)), hi, lo);
  }

  /** The label of whole minutes m and whole seconds s: m in decimal, a colon,
   *  and s padded to two digits. */
  function Label(m: nat, s: nat): string {
    NatToString(m) + ":" + PadStart2(NatToString(s))
  }

  /** For a non-negative time, the label is that of the minutes and the
   *  remaining seconds of its whole seconds. */
  lemma FormatWholeSeconds(x: real)
    requires x >= 0.0
    ensures FormatTime(Num(x)) == Label(x.Floor / 60, x.Floor % 60)
  {
    var f := x.Floor;
    calc {
      FormatTime(Num(x));
      IntToString((x / 60.0).Floor) + ":" + PadStart2(IntToString(Rem60(x).Floor));
      { MinutesAndSeconds(x); }
      IntToString(f / 60) + ":" + PadStart2(IntToString(f % 60));
      NatToString(f / 60) + ":" + PadStart2(NatToString(f % 60));
    }
  }

  /** A colon-free minutes field and a two-character seconds field are read
   *  back as their total. */
  lemma ParseClockParts(mm: string, ss: string, m: nat, s: nat)
    requires ':' !in mm && |ss| == 2 && s < 60
    requires ParseNat(mm) == Some(m) && ParseNat(ss) == Some(s)
    ensures ParseClock(mm + ":" + ss) == Some(60 * m + s)
  {
    SplitAtFirstColon(mm, ss);
  }

  /** A label built from whole minutes and seconds reads back as their total. */
  lemma ParseLabel(m: nat, s: nat)
    requires s < 60
    ensures ParseClock(Label(m, s)) == Some(60 * m + s)
  {
    var mm, ss := NatToString(m), PadStart2(NatToString(s));
    NatToStringDigits(m);
    NatRoundTrip(m);
    TwoDigitSeconds(s);
    ParseClockParts(mm, ss, m, s);
  }

  /** Reading back the label of a non-negative time gives its whole seconds. */
  lemma ClockRoundTrip(x: real)
    requires x >= 0.0
    ensures ParseClock(FormatTime(Num(x))) == Some(x.Floor)
  {
    var f := x.Floor;
    calc {
      ParseClock(FormatTime(Num(x)));
      { FormatWholeSeconds(x); }
      ParseClock(Label(f / 60, f % 60));
      { ParseLabel(f / 60, f % 60); }
      Some(60 * (f / 60) + f % 60);
      Some(f);
    }
  }

  /** A label whose minutes and seconds are both below ten. */
  lemma ShortLabel(m: nat, sec: nat)
    requires m < 10 && sec < 10
    ensures Label(m, sec) == [Digit(m), ':', '0', Digit(sec)]
  {
    assert NatToString(m) == [Digit(m)];
    PaddedDigits(sec);
  }

  /** The label before metadata arrives and at the start of a track. */
  lemma FormatStartExamples()
    ensures FormatTime(NaN) == "0:00"
    ensures FormatTime(Num(0.0)) == "0:00"
  {
    calc {
      FormatTime(Num(0.0));
      { FormatWholeSeconds(0.0); }
      Label(0, 0);
      { ShortLabel(0, 0); }
      "0:00";
    }
  }

  /** 65 s, and any time within that second, is shown as "1:05". */
  lemma FormatMinuteExample(x: real)
    requires 65.0 <= x < 66.0
    ensures FormatTime(Num(x)) == "1:05"
  {
    calc {
      FormatTime(Num(x));
      { FormatWholeSeconds(x); assert x.Floor == 65; }
      Label(1, 5);
      { ShortLabel(1, 5); }
      "1:05";
    }
  }

  /** A label whose seconds have two digits. */
  lemma LongLabel(m: nat, sec: nat)
    requires 10 <= sec < 60
    ensures Label(m, sec) == NatToString(m) + [':', Digit(sec / 10), Digit(sec % 10)]
  {
    PaddedDigits(sec);
  }

  /** The last label below ten minutes: every time in [599, 600). */
  lemma FormatLastShortExample(x: real)
    requires 599.0 <= x < 600.0
    ensures FormatTime(Num(x)) == "9:59"
  {
    calc {
      FormatTime(Num(x));
      { FormatWholeSeconds(x); }
      Label(x.Floor / 60, x.Floor % 60);
      { assert x.Floor == 599; assert 599 / 60 == 9 && 599 % 60 == 59; }
      Label(9, 59);
      { LongLabel(9, 59); }
      NatToString(9) + [':', Digit(5), Digit(9)];
      [Digit(9), ':', Digit(5), Digit(9)];
      { DigitChars(); }
      "9:59";
    }
  }

  /** A label with a two-digit minute count: every time in [754, 755). */
  lemma FormatTwoDigitMinutesExample(x: real)
    requires 754.0 <= x < 755.0
    ensures FormatTime(Num(x)) == "12:34"
  {
    calc {
      FormatTime(Num(x));
      { FormatWholeSeconds(x); }
      Label(x.Floor / 60, x.Floor % 60);
      { assert x.Floor == 754; assert 754 / 60 == 12 && 754 % 60 == 34; }
      Label(12, 34);
      { LongLabel(12, 34); }
      NatToString(12) + [':', Digit(3), Digit(4)];
      { TwoDigitNat(12); }
      [Digit(1), Digit(2)] + [':', Digit(3), Digit(4)];
      { DigitChars(); }
      "12:34";
    }
  }

  /** A negative time is printed with JavaScript's truncating remainder:
   *  both fields come out negative. */
  lemma NegativeExample()
    ensures FormatTime(Num(-30.0)) == "-1:-30"
  {
    assert (-30.0 / 60.0).Floor == -1;
    assert Trunc(-30.0 / 60.0) == 0;
    assert Rem60(-30.0).Floor == -30;
    assert NatToString(30) == "30";
  }
}
