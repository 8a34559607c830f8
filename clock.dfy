// Wall-clock readings are integer ticks (seconds). `format_timestamp` and
// `parse_datetime` become the decimal text of the tick and its parser, so
// that a stamp written into a snapshot reads back as the same tick.
module Clock {
  import opened Wrappers

  function Digit(d: nat): char
    requires d < 10
  {
    "0123456789"[d]
  }

  /** The decimal digits of `t`, most significant first. */
  function Format(t: nat): (s: string)
    ensures |s| > 0 && forall i :: 0 <= i < |s| ==> '0' <= s[i] <= '9'
    decreases t
  {
    if t < 10 then [Digit(t)] else Format(t / 10) + [Digit(t % 10)]
  }

  function DigitValue(c: char): nat
  {
    if '0' <= c <= '9' then c as int - '0' as int else 0
  }

  /** Reads decimal digits back; any other text fails. */
  function Parse(s: string): (r: Option<nat>)
    ensures r.Some? ==> |s| > 0
    decreases |s|
  {
    if s == [] || !('0' <= s[|s| - 1] <= '9') then None
    else if |s| == 1 then Some(DigitValue(s[0]))
    else match Parse(s[..|s| - 1])
      case None => None
      case Some(v) => Some(10 * v + DigitValue(s[|s| - 1]))
  }

  lemma DigitRoundTrip(d: nat)
    requires d < 10
    ensures '0' <= Digit(d) <= '9' && DigitValue(Digit(d)) == d
  {
    match d
    case 0 => case 1 => case 2 => case 3 => case 4 =>
    case 5 => case 6 => case 7 => case 8 => case 9 =>
  }

  lemma {:induction false} ParseFormat(t: nat)
    ensures Parse(Format(t)) == Some(t)
    decreases t
  {
    if t < 10 {
      DigitRoundTrip(t);
    } else {
      var p, c := Format(t / 10), Digit(t % 10);
      var s := p + [c];
      assert Format(t) == s;
      assert s[..|s| - 1] == p;
      ParseFormat(t / 10);
      DigitRoundTrip(t % 10);
      assert Parse(s) == Some(10 * (t / 10) + t % 10);
    }
  }
}
