/**
 * `formatTime`, the m:ss rendering of a position or duration in whole
 * seconds. The player hook and the library view carry the same
 * expression; both use this definition.
 */
module TimeFormat {
  import opened JsString

  /**
   * `Math.floor(s / 60)`, a colon, then `Math.floor(s % 60)` padded to two
   * characters with '0'. For a non-negative time the text after the colon
   * is exactly two digits worth less than 60, the text before it is the
   * minutes' shortest decimal digits, and the two parts read back as
   * decimal numbers give the minutes and seconds of `s`.
   */
  function FormatTime(s: int): (r: string)
    ensures s >= 0 ==>
      && |r| >= 4
      && r[|r| - 3] == ':'
      && AllDigits(r[..|r| - 3]) && AllDigits(r[|r| - 2..])
      && r[..|r| - 3] == NatToString(s / 60)
      && DecimalValue(r[..|r| - 3]) == s / 60
      && DecimalValue(r[|r| - 2..]) < 60
      && DecimalValue(r[..|r| - 3]) * 60 + DecimalValue(r[|r| - 2..]) == s
  {
    var mins := s / 60;
    var secs := JsRem(s, 60);
    var r := IntToString(mins) + ":" + PadStart(IntToString(secs), 2, '0');
    if s >= 0 then
      TwoDigits(secs);
      AroundColon(NatToString(mins), PadStart(NatToString(secs), 2, '0'));
      r
    else
      r
  }

  /** A string built as `m + ":" + p` with a two-character `p` splits back into `m` and `p`. */
  lemma AroundColon(m: string, p: string)
    requires |p| == 2
    ensures var r := m + ":" + p;
            |r| == |m| + 3 && r[|r| - 3] == ':' && r[..|r| - 3] == m && r[|r| - 2..] == p
  {
    var r := m + ":" + p;
    assert r[..|r| - 3] == m;
    assert r[|r| - 2..] == p;
  }

  /** A number below 100, padded to two characters, is two digits that read back as it. */
  lemma TwoDigits(x: nat)
    requires x < 100
    ensures |PadStart(NatToString(x), 2, '0')| == 2
    ensures AllDigits(PadStart(NatToString(x), 2, '0'))
    ensures DecimalValue(PadStart(NatToString(x), 2, '0')) == x
  {
    var p := PadStart(NatToString(x), 2, '0');
    if x < 10 {
      assert p == ['0', DigitChar(x)];
      assert p[..1] == ['0'];
    }
  }

  /** Two non-negative times render alike only when they are equal. */
  lemma FormatTimeInjective(a: nat, b: nat)
    requires FormatTime(a) == FormatTime(b)
    ensures a == b
  {
  }

  /** A negative time keeps JavaScript's signs: -5 seconds renders as "-1:-5". */
  lemma FormatTimeNegativeExample()
    ensures FormatTime(-5) == "-1:-5"
  {
    assert NatToString(1) == "1";
    assert NatToString(5) == "5";
  }

  lemma FormatTimeExample()
    ensures FormatTime(65) == "1:05"
    ensures FormatTime(600) == "10:00"
  {
    assert NatToString(1) == "1";
    assert NatToString(5) == "5";
    assert NatToString(0) == "0";
    assert NatToString(10) == "10";
  }
}
