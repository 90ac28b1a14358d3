/** Clock display of the match controller (src/components/ChessGame.jsx, line 19). */
module Clock {
  import opened Strings

  /**
   * `formatTime(s)`: whole minutes, a colon, then the seconds within the
   * minute as exactly two digits. The clocks are never negative (a clock
   * that would reach zero is set to zero), so `s` is a `nat` and the
   * source's floor division and remainder agree with Dafny's.
   */
  function FormatTime(s: nat): (r: string)
    ensures |r| >= 4 && r[|r| - 3] == ':'
    ensures AllDigits(r[..|r| - 3]) && AllDigits(r[|r| - 2..])
    ensures DecimalValue(r[..|r| - 3]) == s / 60
    ensures DecimalValue(r[|r| - 2..]) == s % 60 < 60
    ensures |r| == 4 <==> s < 600
    ensures |r| == 4 || r[0] != '0'
  {
    var minutes := NatToString(s / 60);
    var seconds := PadStart2(NatToString(s % 60));
    SecondsField(s % 60);
    var r := minutes + ":" + seconds;
    assert r[..|r| - 3] == minutes;
    assert r[0] == minutes[0];
    assert r[|r| - 2..] == seconds;
    r
  }

  /** The second field is two digits holding the value. */
  lemma SecondsField(x: nat)
    requires x < 60
    ensures |PadStart2(NatToString(x))| == 2
    ensures AllDigits(PadStart2(NatToString(x)))
    ensures DecimalValue(PadStart2(NatToString(x))) == x
  {
    var d := NatToString(x);
    if x >= 10 {
      assert NatToString(x / 10) == [Digit(x / 10)];
    } else {
      LeadingZero(d);
    }
  }

  /** Reads a clock display back into seconds: minutes times sixty plus seconds. */
  function ReadTime(r: string): (s: nat)
    requires |r| >= 3 && AllDigits(r[..|r| - 3]) && AllDigits(r[|r| - 2..])
    ensures s >= DecimalValue(r[|r| - 2..])
  {
    60 * DecimalValue(r[..|r| - 3]) + DecimalValue(r[|r| - 2..])
  }

  /** Reading a display gives back the clock it was formatted from. */
  lemma ReadFormatTime(s: nat)
    ensures ReadTime(FormatTime(s)) == s
  {
    var r := FormatTime(s);
    assert ReadTime(r) == 60 * (s / 60) + s % 60;
  }

  /** Two different clock values never look the same. */
  lemma FormatTimeInjective(s: nat, t: nat)
    requires FormatTime(s) == FormatTime(t)
    ensures s == t
  {
    ReadFormatTime(s);
    ReadFormatTime(t);
  }
}
