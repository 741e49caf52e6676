/** Pieces every sensor's `new` and `read` repeat: the threshold-order check,
    the rounded percentage and the bounded usage history. */
module Readings {
  import opened Text

  const THRESHOLD_PREFIX: string := "Critical threshold ("
  const THRESHOLD_MIDDLE: string := " must be greater than warning threshold ("

  /** The message of the `critical <= warning` refusal in the sensors' `new`. */
  function ThresholdMessage(warning: nat, critical: nat): (r: string)
    ensures StartsWith(r, THRESHOLD_PREFIX)
  {
    var r := THRESHOLD_PREFIX + NatToString(critical) + ")" + THRESHOLD_MIDDLE + NatToString(warning) + ")";
    assert r[..|THRESHOLD_PREFIX|] == THRESHOLD_PREFIX;
    r
  }

  /** The message after its prefix: the critical digits, then `)`. */
  lemma ThresholdMessageTail(w: nat, c: nat)
    ensures ThresholdMessage(w, c)[|THRESHOLD_PREFIX|..] ==
      NatToString(c) + [')'] + (THRESHOLD_MIDDLE + NatToString(w) + ")")
  {
    MessageTail(THRESHOLD_PREFIX, NatToString(c), THRESHOLD_MIDDLE, NatToString(w));
  }

  /** Dropping the prefix of `p c ) m w )` leaves `c ) m w )`. */
  lemma MessageTail(p: string, c: string, m: string, w: string)
    ensures (p + c + ")" + m + w + ")")[|p|..] == c + [')'] + (m + w + ")")
  {
    var tail := c + [')'] + (m + w + ")");
    assert p + c + ")" + m + w + ")" == p + tail;
    assert (p + tail)[|p|..] == tail;
  }

  /** Different thresholds are reported differently. */
  lemma ThresholdMessageNamesBoth(w1: nat, c1: nat, w2: nat, c2: nat)
    requires ThresholdMessage(w1, c1) == ThresholdMessage(w2, c2)
    ensures w1 == w2 && c1 == c2
  {
    CriticalNamed(w1, c1, w2, c2);
    WarningNamed(THRESHOLD_MIDDLE, w1, w2);
  }

  /** The critical digits come first and end at the first `)`. */
  lemma CriticalNamed(w1: nat, c1: nat, w2: nat, c2: nat)
    requires ThresholdMessage(w1, c1) == ThresholdMessage(w2, c2)
    ensures c1 == c2
    ensures THRESHOLD_MIDDLE + NatToString(w1) + ")" == THRESHOLD_MIDDLE + NatToString(w2) + ")"
  {
    var q := THRESHOLD_MIDDLE;
    ThresholdMessageTail(w1, c1);
    ThresholdMessageTail(w2, c2);
    DigitsThenCharUnique(NatToString(c1), q + NatToString(w1) + ")", NatToString(c2), q + NatToString(w2) + ")", ')');
    NatToStringInjective(c1, c2);
  }

  /** After a common text, the warning digits are the rest up to the closing `)`. */
  lemma WarningNamed(q: string, w1: nat, w2: nat)
    requires q + NatToString(w1) + ")" == q + NatToString(w2) + ")"
    ensures w1 == w2
  {
    var r1 := q + NatToString(w1) + ")";
    var r2 := q + NatToString(w2) + ")";
    assert r1[|q|..] == NatToString(w1) + [')'] + [];
    assert r2[|q|..] == NatToString(w2) + [')'] + [];
    DigitsThenCharUnique(NatToString(w1), [], NatToString(w2), [], ')');
    NatToStringInjective(w1, w2);
  }

  /** `u64::saturating_sub`. */
  function SaturatingSub(a: nat, b: nat): (r: nat)
    ensures b <= a ==> r + b == a
    ensures a <= b ==> r == 0
  {
    if a >= b then a - b else 0
  }

  /** `part / whole * 100`, or 0 for an empty whole. */
  function Percent(part: nat, whole: nat): (r: real)
    ensures whole == 0 ==> r == 0.0
    ensures whole > 0 ==> r * (whole as real) == (part as real) * 100.0
    ensures r >= 0.0
    ensures part <= whole ==> r <= 100.0
    ensures 0 < whole <= part ==> r >= 100.0
  {
    if whole == 0 then 0.0
    else
      QuotientBounds(part as real, whole as real);
      (part as real) / (whole as real) * 100.0
  }

  /** Two parts that make up the whole have percentages summing to 100. */
  lemma PercentComplement(part: nat, rest: nat, whole: nat)
    requires whole > 0 && part + rest == whole
    ensures Percent(part, whole) + Percent(rest, whole) == 100.0
  {
    var u, a, t := Percent(part, whole), Percent(rest, whole), whole as real;
    assert (u + a) * t == u * t + a * t;
    assert (u + a - 100.0) * t == 0.0;
  }

  lemma QuotientBounds(p: real, w: real)
    requires p >= 0.0 && w > 0.0
    ensures (p / w) * w == p && p / w >= 0.0
    ensures p <= w ==> p / w <= 1.0
    ensures w <= p ==> p / w >= 1.0
  {
    var q := p / w;
    assert q * w == p;
    if q > 1.0 { assert q * w > 1.0 * w; }
    if q < 1.0 { assert q * w < 1.0 * w; }
  }

  /** `x.round().clamp(0.0, 100.0) as u8`: halves round away from zero, so a
      negative value ends at 0. */
  function RoundClamp(x: real): (r: nat)
    ensures r <= 100
    ensures x <= 0.0 ==> r == 0
    ensures x >= 100.0 ==> r == 100
    ensures 0.0 < x < 100.0 ==> (r as real) - 0.5 <= x < (r as real) + 0.5
  {
    if x <= 0.0 then 0 else if x >= 100.0 then 100 else (x + 0.5).Floor
  }

  /** `x.round() as u8`: halves round away from zero and the cast saturates
      onto 0..=255, so anything below a half ends at 0. */
  function RoundU8(x: real): (r: nat)
    ensures r <= U8_MAX
    ensures x < 0.5 ==> r == 0
    ensures x >= 254.5 ==> r == U8_MAX
    ensures 0.5 <= x < 255.5 ==> (r as real) - 0.5 <= x < (r as real) + 0.5
  {
    if x < 0.5 then 0 else if x >= 255.5 then U8_MAX else (x + 0.5).Floor
  }

  /** On a percentage the saturating round agrees with the clamped one. */
  lemma RoundU8OfPercent(x: real)
    requires 0.0 <= x <= 100.0
    ensures RoundU8(x) == RoundClamp(x)
  {
  }

  /** `usage_history.push(u)` followed by one `remove(0)` once the history is
      longer than the sparkline length. */
  function PushHistory<T>(h: seq<T>, u: T, limit: nat): (r: seq<T>)
    ensures r != [] ==> r[|r| - 1] == u
    ensures |r| == if |h| + 1 > limit then |h| else |h| + 1
  {
    var pushed := h + [u];
    if |pushed| > limit then pushed[1..] else pushed
  }

  /** The bound is kept once it holds; a history already longer than the limit
      (after the sparkline length was lowered) shrinks by nothing, keeping its
      length, since only one entry is removed per push. */
  lemma HistoryBound<T>(h: seq<T>, u: T, limit: nat)
    ensures |h| <= limit ==> |PushHistory(h, u, limit)| <= limit || (limit == 0 && |PushHistory(h, u, limit)| == 0)
    ensures |h| > limit ==> |PushHistory(h, u, limit)| == |h|
    ensures |h| < limit ==> PushHistory(h, u, limit) == h + [u]
    ensures |h| == limit && limit > 0 ==> PushHistory(h, u, limit) == h[1..] + [u]
  {
    if |h| == limit && limit > 0 {
      assert (h + [u])[1..] == h[1..] + [u];
    }
  }
}
