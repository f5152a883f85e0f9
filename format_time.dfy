/** Countdown text: a millisecond count shown as whole seconds, rounded up, with an "s" suffix. */
module TimeFormat {
  import opened Common

  /** `Math.ceil(ms / 1000)` on an integer millisecond count. */
  function CeilSeconds(ms: int): (s: int)
    ensures (s - 1) * 1000 < ms <= s * 1000
  {
    -((-ms) / 1000)
  }

  /** `formatTime(ms)`: the rounded-up seconds followed by "s". */
  function FormatTime(ms: int): (text: string)
    ensures |text| >= 2 && text[|text| - 1] == 's'
    ensures text[..|text| - 1] == IntToString(CeilSeconds(ms))
    ensures ms >= 0 ==> text[0] != '-'
  {
    IntToString(CeilSeconds(ms)) + "s"
  }

  /** The rounding the countdown shows: whole seconds stay, any part second rounds up, zero is "0s". */
  lemma FormatTimeExamples()
    ensures FormatTime(1000) == "1s" && FormatTime(2000) == "2s"
    ensures FormatTime(1500) == "2s" && FormatTime(500) == "1s"
    ensures FormatTime(0) == "0s"
  {
    assert CeilSeconds(1000) == 1 && CeilSeconds(2000) == 2 && CeilSeconds(1500) == 2;
    assert CeilSeconds(500) == 1 && CeilSeconds(0) == 0;
    assert IntToString(1) == "1" && IntToString(2) == "2" && IntToString(0) == "0";
  }

  /** A countdown that has more time left never shows fewer seconds. */
  lemma CeilSecondsMonotone(a: int, b: int)
    requires a <= b
    ensures CeilSeconds(a) <= CeilSeconds(b)
  {
  }
}
