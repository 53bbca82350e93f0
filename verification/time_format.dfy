/**
 * The `mm:ss` countdown display: whole minutes and the remaining seconds, each
 * written in decimal and left-padded with '0' to at least two characters, joined
 * by ':'. The now-playing card and the standalone session timer use the same
 * formula.
 */
module TimeFormat {
  import opened Wrappers

  predicate IsDigit(c: char)
  {
    '0' <= c <= '9'
  }

  predicate AllDigits(s: string)
  {
    forall i :: 0 <= i < |s| ==> IsDigit(s[i])
  }

  function DigitChar(d: nat): (c: char)
    requires d < 10
    ensures IsDigit(c)
  {
    ('0' as int + d) as char
  }

  function DigitValue(c: char): (d: nat)
    requires IsDigit(c)
    ensures d < 10 && DigitChar(d) == c
  {
    c as int - '0' as int
  }

  /** `n.toString()` for a non-negative integer: its decimal digits, no leading zeros. */
  function Decimal(n: nat): (s: string)
    ensures 1 <= |s| && AllDigits(s)
    ensures n < 10 <==> |s| == 1
    ensures |s| > 1 ==> s[0] != '0'
  {
    if n < 10 then [DigitChar(n)] else Decimal(n / 10) + [DigitChar(n % 10)]
  }

  /** The number a string of decimal digits denotes (leading zeros allowed). */
  function DecimalValue(s: string): nat
    requires AllDigits(s)
  {
    if s == [] then 0 else DecimalValue(s[..|s| - 1]) * 10 + DigitValue(s[|s| - 1])
  }

  /** Reading the digits back gives the number that was written. */
  lemma {:induction false} DecimalRoundTrip(n: nat)
    ensures DecimalValue(Decimal(n)) == n
  {
    if n >= 10 {
      var s := Decimal(n);
      assert s[..|s| - 1] == Decimal(n / 10);
      DecimalRoundTrip(n / 10);
    }
  }

  /** A number below 100 needs at most two digits; one of 100 or more needs at least three. */
  lemma {:induction false} DecimalWidth(n: nat)
    ensures n < 100 <==> |Decimal(n)| <= 2
  {
    if n >= 10 {
      assert |Decimal(n)| == |Decimal(n / 10)| + 1;
    }
  }

  /** `s.padStart(width, fill)`: prepend `fill` until the string is `width` long; never truncates. */
  function PadStart(s: string, width: nat, fill: char): (r: string)
    ensures |r| == if |s| >= width then |s| else width
    ensures r[|r| - |s|..] == s
    ensures forall i :: 0 <= i < |r| - |s| ==> r[i] == fill
    decreases width - |s|
  {
    if |s| >= width then s else PadStart([fill] + s, width, fill)
  }

  /** Leading zeros do not change the value of a digit string. */
  lemma {:induction false} LeadingZeroValue(s: string)
    requires AllDigits(s)
    ensures AllDigits(['0'] + s) && DecimalValue(['0'] + s) == DecimalValue(s)
    decreases |s|
  {
    if s != [] {
      assert (['0'] + s)[..|s|] == ['0'] + s[..|s| - 1];
      LeadingZeroValue(s[..|s| - 1]);
    }
  }

  /** Padding a digit string with '0' keeps it a digit string of the same value. */
  lemma {:induction false} ZeroPaddingValue(s: string, width: nat)
    requires AllDigits(s)
    ensures AllDigits(PadStart(s, width, '0'))
    ensures DecimalValue(PadStart(s, width, '0')) == DecimalValue(s)
    decreases width - |s|
  {
    if |s| < width {
      LeadingZeroValue(s);
      ZeroPaddingValue(['0'] + s, width);
    }
  }

  /** One two-character-minimum field of the display. */
  function Field(n: nat): string
  {
    PadStart(Decimal(n), 2, '0')
  }

  /** `formatTime(totalSeconds)`: `floor(t/60)` and `t mod 60`, padded and joined by ':'. */
  function FormatTime(t: nat): string
  {
    Field(t / 60) + ":" + Field(t % 60)
  }

  /** Index of the first ':' in `s`, or `|s|` when there is none. */
  function ColonIndex(s: string): (i: nat)
    ensures i <= |s|
    ensures forall j :: 0 <= j < i ==> s[j] != ':'
    ensures i < |s| ==> s[i] == ':'
  {
    if s == [] then 0 else if s[0] == ':' then 0 else 1 + ColonIndex(s[1..])
  }

  /** Reads an `mm:ss` display back: the two digit fields around the first ':'. */
  function ParseTime(s: string): Option<(nat, nat)>
  {
    var i := ColonIndex(s);
    if i < |s| && 0 < i && i + 1 < |s| && AllDigits(s[..i]) && AllDigits(s[i + 1..]) then
      Some((DecimalValue(s[..i]), DecimalValue(s[i + 1..])))
    else
      None
  }

  /** A field is digits only, and at least two characters long. */
  lemma FieldDigits(n: nat)
    ensures AllDigits(Field(n)) && |Field(n)| >= 2
    ensures DecimalValue(Field(n)) == n
  {
    ZeroPaddingValue(Decimal(n), 2);
    DecimalRoundTrip(n);
  }

  /** Two non-empty digit fields joined by ':' read back as their two values. */
  lemma JoinedFieldsParse(a: string, b: string)
    requires 1 <= |a| && 1 <= |b| && AllDigits(a) && AllDigits(b)
    ensures ParseTime(a + ":" + b) == Some((DecimalValue(a), DecimalValue(b)))
  {
    var s := a + ":" + b;
    assert s[..|a|] == a;
    assert s[|a| + 1..] == b;
    assert ColonIndex(s) == |a| by {
      var i := ColonIndex(s);
      if i < |a| {
        assert s[i] == a[i];
      }
      assert s[|a|] == ':';
    }
  }

  /**
   * Round trip: parsing the display gives minutes `mm` and seconds `ss` with
   * `ss < 60` and `mm * 60 + ss == t`.
   */
  lemma FormatTimeRoundTrip(t: nat)
    ensures ParseTime(FormatTime(t)) == Some((t / 60, t % 60))
    ensures var (mm, ss) := ParseTime(FormatTime(t)).value; ss < 60 && mm * 60 + ss == t
  {
    var mm, ss := t / 60, t % 60;
    FieldDigits(mm);
    FieldDigits(ss);
    JoinedFieldsParse(Field(mm), Field(ss));
  }

  /** A padded field of a value below 100 is exactly two digits. */
  lemma ShortField(n: nat)
    requires n < 100
    ensures |Field(n)| == 2 && IsDigit(Field(n)[0]) && IsDigit(Field(n)[1])
  {
    DecimalWidth(n);
    FieldDigits(n);
  }

  /** Two fields below 100 joined by ':' make exactly `dd:dd`. */
  lemma ShortDisplay(mm: nat, ss: nat)
    requires mm < 100 && ss < 100
    ensures var s := Field(mm) + ":" + Field(ss);
      |s| == 5 && s[2] == ':' && forall i :: 0 <= i < 5 && i != 2 ==> IsDigit(s[i])
  {
    ShortField(mm);
    ShortField(ss);
    TwoDigitJoin(Field(mm), Field(ss));
  }

  lemma TwoDigitJoin(a: string, b: string)
    requires |a| == 2 && |b| == 2 && IsDigit(a[0]) && IsDigit(a[1]) && IsDigit(b[0]) && IsDigit(b[1])
    ensures var s := a + ":" + b;
      |s| == 5 && s[2] == ':' && forall i :: 0 <= i < 5 && i != 2 ==> IsDigit(s[i])
  {
    var s := a + ":" + b;
    assert s == [a[0], a[1], ':', b[0], b[1]];
  }

  /** Under 100 minutes the display is exactly `dd:dd`. */
  lemma FormatTimeShape(t: nat)
    requires t < 6000
    ensures |FormatTime(t)| == 5 && FormatTime(t)[2] == ':'
    ensures forall i :: 0 <= i < 5 && i != 2 ==> IsDigit(FormatTime(t)[i])
  {
    assert t / 60 < 100;
    ShortDisplay(t / 60, t % 60);
  }

  /**
   * From 100 minutes on, the minutes field is the full decimal of `floor(t/60)`,
   * three or more digits: padding never truncates.
   */
  lemma FormatTimeLong(t: nat)
    requires t >= 6000
    ensures var s := FormatTime(t); |s| >= 6 && s[..|s| - 3] == Decimal(t / 60)
    ensures |Decimal(t / 60)| > 2
  {
    DecimalWidth(t / 60);
    DecimalWidth(t % 60);
  }
}
