/** The integer and time-formatting helpers of klunk/utils.py. */
module Utils {
  import opened Wrappers
  import opened Strs

  /** A write-only text sink: every `Write` adds one line. */
  class Logger {
    var log: string

    constructor ()
      ensures log == ""
    {
      log := "";
    }

    /** Appends the arguments joined by single spaces, then a newline. */
    method Write(args: seq<string>)
      modifies this
      ensures log == old(log) + Join(" ", args) + "\n"
    {
      log := log + Join(" ", args) + "\n";
    }
  }

  function Sum(l: seq<int>): int {
    if l == [] then 0 else l[0] + Sum(l[1..])
  }

  /** `average(l)`: -1 for an empty list, otherwise the (true) quotient of
      the sum by the length. */
  function Average(l: seq<int>): (r: real)
    ensures |l| == 0 ==> r == -1.0
    ensures |l| > 0 ==> r * (|l| as real) == Sum(l) as real
  {
    if |l| == 0 then -1.0 else (Sum(l) as real) / (|l| as real)
  }

  lemma {:induction false} SumBounds(l: seq<int>, lo: int, hi: int)
    requires forall k :: 0 <= k < |l| ==> lo <= l[k] <= hi
    ensures |l| * lo <= Sum(l) <= |l| * hi
    decreases |l|
  {
    if l != [] {
      SumBounds(l[1..], lo, hi);
    }
  }

  /** The average of a non-empty list lies between its least and its
      greatest element. */
  lemma {:induction false} AverageBetween(l: seq<int>, lo: int, hi: int)
    requires |l| > 0
    requires forall k :: 0 <= k < |l| ==> lo <= l[k] <= hi
    ensures lo as real <= Average(l) <= hi as real
  {
    SumBounds(l, lo, hi);
    var n := |l| as real;
    assert Average(l) * n == Sum(l) as real;
    assert (lo as real) * n <= Average(l) * n <= (hi as real) * n;
  }

  /** The time unit: milliseconds unless `is_s` says seconds. */
  function Divisor(isSeconds: bool): int {
    if isSeconds then 1 else 1000
  }

  const INVALID_TIME := "Invalid Time"

  /** `time_fmt(x, is_s)`: `h:mm:ss`, hours unpadded and not reduced,
      minutes and seconds reduced mod 60 and zero-padded. -1 is the marker
      for a missing time. */
  function TimeFmt(x: int, isSeconds: bool): (r: string)
    ensures x == -1 <==> r == INVALID_TIME
  {
    if x == -1 then INVALID_TIME
    else
      var s := x / Divisor(isSeconds);
      var m := s / 60;
      var h := m / 60;
      var r := IntToString(h) + ":" + Pad2(m % 60) + ":" + Pad2(s % 60);
      assert r[|IntToString(h)|] == ':';
      assert ':' !in INVALID_TIME;
      r
  }

  /** `short_time_fmt(x, is_s)`: `mm:ss`, total minutes not reduced. */
  function ShortTimeFmt(x: int, isSeconds: bool): (r: string)
    ensures x == -1 <==> r == INVALID_TIME
  {
    if x == -1 then INVALID_TIME
    else
      var s := x / Divisor(isSeconds);
      var r := Pad2(s / 60) + ":" + Pad2(s % 60);
      assert r[|Pad2(s / 60)|] == ':';
      assert ':' !in INVALID_TIME;
      r
  }

  lemma {:induction false} DigitsHaveNoColon(s: string)
    requires IsDigits(s)
    ensures ':' !in s
  {
  }

  /** A padded number reads back as itself and, below 100, has two digits. */
  lemma {:induction false} Pad2ReadBack(n: nat)
    ensures IsDigits(Pad2(n))
    ensures ParseInt(Pad2(n)) == Ok(n)
    ensures n < 100 ==> |Pad2(n)| == 2
  {
    if n < 10 {
      var p := Pad2(n);
      assert p == ['0', DigitChar(n)];
      assert p[..1] == "0";
      assert DigitsValue("0") == 0 by {
        assert "0"[..0] == [];
      }
      assert DigitsValue(p) == n;
      ParseIntOfDigits(p);
    } else {
      ParseIntOfNatToString(n);
      if n < 100 {
        assert NatToString(n) == NatToString(n / 10) + [DigitChar(n % 10)];
      }
    }
  }

  lemma {:induction false} Join3(a: string, b: string, c: string)
    ensures Join([':'], [a, b, c]) == a + ":" + b + ":" + c
  {
    assert [a, b, c][1..] == [b, c];
    assert [b, c][1..] == [c];
    assert Join([':'], [c]) == c;
    assert Join([':'], [b, c]) == b + [':'] + c;
    assert Join([':'], [a, b, c]) == a + [':'] + (b + [':'] + c);
  }

  lemma {:induction false} HoursMinutesSeconds(s: int)
    ensures (s / 60 / 60) * 3600 + (s / 60 % 60) * 60 + s % 60 == s
  {
    var m := s / 60;
    assert s == m * 60 + s % 60;
    assert m == (m / 60) * 60 + m % 60;
  }

  /** Reading the three fields of `time_fmt` back gives hours, minutes below
      60 and seconds below 60 that add up to the whole time. */
  lemma {:induction false} TimeFmtReadBack(x: nat, isSeconds: bool)
    ensures var parts := Split(TimeFmt(x, isSeconds), ':');
            |parts| == 3 && |parts[1]| == 2 && |parts[2]| == 2 &&
            ParseInt(parts[0]).Ok? && ParseInt(parts[1]).Ok? && ParseInt(parts[2]).Ok? &&
            0 <= ParseInt(parts[1]).value < 60 && 0 <= ParseInt(parts[2]).value < 60 &&
            ParseInt(parts[0]).value * 3600 + ParseInt(parts[1]).value * 60 + ParseInt(parts[2]).value
              == x / Divisor(isSeconds)
  {
    var s := x / Divisor(isSeconds);
    var m := s / 60;
    var h := m / 60;
    var a, b, c := NatToString(h), Pad2(m % 60), Pad2(s % 60);
    TimeFmtFields(x, isSeconds);
    ParseIntOfNatToString(h);
    Pad2ReadBack(m % 60);
    Pad2ReadBack(s % 60);
    DigitsHaveNoColon(a);
    DigitsHaveNoColon(b);
    DigitsHaveNoColon(c);
    Join3(a, b, c);
    SplitJoin([a, b, c], ':');
    var parts := Split(TimeFmt(x, isSeconds), ':');
    assert parts == [a, b, c];
    HoursMinutesSeconds(s);
  }

  lemma {:induction false} TimeFmtFields(x: nat, isSeconds: bool)
    ensures TimeFmt(x, isSeconds) ==
      NatToString(x / Divisor(isSeconds) / 60 / 60) + ":" +
      Pad2(x / Divisor(isSeconds) / 60 % 60) + ":" + Pad2(x / Divisor(isSeconds) % 60)
  {
  }

  /** Reading the two fields of `short_time_fmt` back gives whole minutes and
      seconds below 60 that add up to the whole time. */
  lemma {:induction false} ShortTimeFmtReadBack(x: nat, isSeconds: bool)
    ensures var parts := Split(ShortTimeFmt(x, isSeconds), ':');
            |parts| == 2 && |parts[1]| == 2 &&
            ParseInt(parts[0]).Ok? && ParseInt(parts[1]).Ok? &&
            0 <= ParseInt(parts[1]).value < 60 &&
            ParseInt(parts[0]).value * 60 + ParseInt(parts[1]).value == x / Divisor(isSeconds)
  {
    var s := x / Divisor(isSeconds);
    var a, b := Pad2(s / 60), Pad2(s % 60);
    Pad2ReadBack(s / 60);
    Pad2ReadBack(s % 60);
    DigitsHaveNoColon(a);
    DigitsHaveNoColon(b);
    assert Join([':'], [a, b]) == a + ":" + b by {
      assert [a, b][1..] == [b];
    }
    SplitJoin([a, b], ':');
    assert s == (s / 60) * 60 + s % 60;
  }
}
