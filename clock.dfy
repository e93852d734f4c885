/**
 * `format_time`: a number of seconds shown as "m:ss", or "h:mm:ss" once the
 * hour part is not zero. Python's `divmod` by 60 floors, which for a positive
 * divisor is Dafny's `/` and `%`. `ParseTime` reads such a text back; the two
 * are inverse.
 */
module Clock {
  import opened Wrappers

  function DigitChar(d: nat): char
    requires d < 10
  {
    "0123456789"[d]
  }

  predicate IsDigit(c: char)
  {
    '0' <= c <= '9'
  }

  function DigitValue(c: char): nat
    requires IsDigit(c)
  {
    c as int - '0' as int
  }

  /** `str(n)` for a natural number: decimal digits, no leading zero. */
  function NatText(n: nat): (r: string)
    ensures r != [] && forall i :: 0 <= i < |r| ==> IsDigit(r[i])
  {
    if n < 10 then [DigitChar(n)] else NatText(n / 10) + [DigitChar(n % 10)]
  }

  /** `str(i)` for any integer. */
  function IntText(i: int): string
  {
    if i < 0 then "-" + NatText(-i) else NatText(i)
  }

  /** `f"{n:02}"` for 0 <= n < 100. */
  function Pad2(n: nat): string
    requires n < 100
  {
    if n < 10 then "0" + NatText(n) else NatText(n)
  }

  /** The view's time format. */
  function FormatTime(seconds: int): string
  {
    var m, s := seconds / 60, seconds % 60;
    var h, m' := m / 60, m % 60;
    if h != 0 then IntText(h) + ":" + Pad2(m') + ":" + Pad2(s) else IntText(m') + ":" + Pad2(s)
  }

  /** The value of a run of decimal digits (0 for none). */
  function DigitsValue(s: string): nat
    requires forall i :: 0 <= i < |s| ==> IsDigit(s[i])
  {
    if s == [] then 0 else 10 * DigitsValue(s[..|s| - 1]) + DigitValue(s[|s| - 1])
  }

  predicate AllDigits(s: string)
  {
    forall i :: 0 <= i < |s| ==> IsDigit(s[i])
  }

  /** A non-empty run of digits. */
  function ParseNat(s: string): Option<nat>
  {
    if s != [] && AllDigits(s) then Some(DigitsValue(s)) else None
  }

  /** An optional minus sign followed by digits. */
  function ParseInt(s: string): Option<int>
  {
    if s != [] && s[0] == '-' then
      match ParseNat(s[1..])
      case Some(n) => Some(-(n as int))
      case None => None
    else
      match ParseNat(s)
      case Some(n) => Some(n)
      case None => None
  }

  /** `s.split(":")`. */
  function SplitColons(s: string): (r: seq<string>)
    ensures |r| >= 1
  {
    if s == [] then [""]
    else
      var rest := SplitColons(s[1..]);
      if s[0] == ':' then [""] + rest else [[s[0]] + rest[0]] + rest[1..]
  }

  /** "m:ss" or "h:mm:ss" back to seconds; the fields after a colon must have exactly two digits. */
  function ParseTime(t: string): Option<int>
  {
    var parts := SplitColons(t);
    if |parts| == 2 && |parts[1]| == 2 then
      match (ParseNat(parts[0]), ParseNat(parts[1]))
      case (Some(m), Some(s)) => Some(60 * m + s)
      case _ => None
    else if |parts| == 3 && |parts[1]| == 2 && |parts[2]| == 2 then
      match (ParseInt(parts[0]), ParseNat(parts[1]), ParseNat(parts[2]))
      case (Some(h), Some(m), Some(s)) => Some(3600 * h + 60 * m + s)
      case _ => None
    else None
  }

  lemma {:induction false} DigitsOfNatText(n: nat)
    ensures DigitsValue(NatText(n)) == n
  {
    if n >= 10 {
      var t := NatText(n);
      assert t[..|t| - 1] == NatText(n / 10);
      DigitsOfNatText(n / 10);
    }
  }

  lemma DigitsOfPad2(n: nat)
    requires n < 100
    ensures ParseNat(Pad2(n)) == Some(n) && |Pad2(n)| == 2
  {
    DigitsOfNatText(n);
    if n < 10 {
      var t := Pad2(n);
      assert t[..|t| - 1] == "0";
      assert DigitsValue("0") == 0 by {
        assert "0"[..0] == [];
      }
    }
  }

  lemma {:induction false} SplitNoColon(a: string)
    requires forall i :: 0 <= i < |a| ==> a[i] != ':'
    ensures SplitColons(a) == [a]
  {
    if a != [] {
      SplitNoColon(a[1..]);
      assert [a[0]] + a[1..] == a;
    }
  }

  lemma {:induction false} SplitAtColon(a: string, b: string)
    requires forall i :: 0 <= i < |a| ==> a[i] != ':'
    ensures SplitColons(a + ":" + b) == [a] + SplitColons(b)
  {
    if a == [] {
      assert a + ":" + b == [':'] + b;
      assert (a + ":" + b)[1..] == b;
    } else {
      var t := a + ":" + b;
      assert t[0] == a[0] && t[1..] == a[1..] + ":" + b;
      SplitAtColon(a[1..], b);
      assert [a[0]] + a[1..] == a;
    }
  }

  lemma NoColonInDigits(s: string)
    requires AllDigits(s)
    ensures forall i :: 0 <= i < |s| ==> s[i] != ':'
  {
  }

  lemma IntTextParses(i: int)
    ensures ParseInt(IntText(i)) == Some(i)
    ensures forall k :: 0 <= k < |IntText(i)| ==> IntText(i)[k] != ':'
  {
    if i < 0 {
      DigitsOfNatText(-i);
      var t := IntText(i);
      assert t[1..] == NatText(-i);
    } else {
      DigitsOfNatText(i);
    }
  }

  lemma ParseHms(h: int, m: nat, s: nat)
    requires m < 60 && s < 60
    ensures ParseTime(IntText(h) + ":" + Pad2(m) + ":" + Pad2(s)) == Some(3600 * h + 60 * m + s)
    ensures |SplitColons(IntText(h) + ":" + Pad2(m) + ":" + Pad2(s))| == 3
  {
    var a, b, c := IntText(h), Pad2(m), Pad2(s);
    DigitsOfPad2(s);
    DigitsOfPad2(m);
    NoColonInDigits(c);
    NoColonInDigits(b);
    SplitNoColon(c);
    IntTextParses(h);
    SplitAtColon(b, c);
    assert SplitColons(b + ":" + c) == [b, c];
    SplitAtColon(a, b + ":" + c);
    assert a + ":" + b + ":" + c == a + ":" + (b + ":" + c);
    assert SplitColons(a + ":" + b + ":" + c) == [a, b, c];
  }

  lemma ParseMs(m: nat, s: nat)
    requires m < 60 && s < 60
    ensures ParseTime(IntText(m) + ":" + Pad2(s)) == Some(60 * m + s)
    ensures |SplitColons(IntText(m) + ":" + Pad2(s))| == 2
  {
    DigitsOfPad2(s);
    NoColonInDigits(Pad2(s));
    SplitNoColon(Pad2(s));
    IntTextParses(m);
    SplitAtColon(IntText(m), Pad2(s));
    DigitsOfNatText(m);
  }

  /**
   * The text `format_time` shows reads back as the same number of seconds, negative counts included,
   * and it has the short "m:ss" form exactly when the count is under an hour and not negative.
   */
  lemma FormatTimeRoundTrip(seconds: int)
    ensures ParseTime(FormatTime(seconds)) == Some(seconds)
    ensures |SplitColons(FormatTime(seconds))| == 2 <==> 0 <= seconds < 3600
  {
    var m, s := seconds / 60, seconds % 60;
    var h, m' := m / 60, m % 60;
    assert seconds == 3600 * h + 60 * m' + s by {
      assert seconds == 60 * m + s;
      assert m == 60 * h + m';
    }
    assert 0 <= 60 * m' + s < 3600;
    assert h == 0 <==> 0 <= seconds < 3600 by {
      if h >= 1 { assert 3600 * h >= 3600; }
      if h <= -1 { assert 3600 * h <= -3600; }
    }
    if h != 0 {
      ParseHms(h, m', s);
    } else {
      ParseMs(m', s);
    }
  }
}
