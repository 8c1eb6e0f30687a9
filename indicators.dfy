/**
 * The indicators of backtesting_lib/indicators.py as pure functions of the
 * Close series. pandas' NaN is None; rolling(window=p).mean() is RollingMean,
 * which is undefined until a full window of p values exists.
 */
module Indicators {
  import opened Common
  import opened Arith

  /** An indicator's output, aligned index for index with the Close series. */
  type Series = seq<Option<real>>

  /** The two indicator classes and their constructor argument. */
  datatype IndicatorSpec = SMASpec(period: nat) | RSISpec(period: nat)

  function Sum(s: seq<real>): real {
    if s == [] then 0.0 else Sum(s[..|s| - 1]) + s[|s| - 1]
  }

  /**
   * rolling(window=period).mean(): the mean of the last `period` values, None
   * before the window fills. pandas accepts window=0, whose empty windows
   * have no mean, so every entry is None.
   */
  function RollingMean(s: seq<real>, period: nat): (r: Series)
    ensures |r| == |s|
    ensures forall i :: 0 <= i < |s| ==> (r[i].Some? <==> period >= 1 && i >= period - 1)
  {
    seq(|s|, i requires 0 <= i < |s| =>
      if period == 0 || i < period - 1 then None else Some(Sum(s[i - period + 1 .. i + 1]) / period as real))
  }

  /** SMA.calculate: one entry per close, NaN until `period` closes exist. */
  function SMA(closes: seq<real>, period: nat): (r: Series)
    ensures |r| == |closes|
    ensures forall i :: 0 <= i < |closes| ==> (r[i].Some? <==> period >= 1 && i >= period - 1)
  {
    RollingMean(closes, period)
  }

  /**
   * delta.where(delta > 0, 0.0): the rise from the previous close, else 0.
   * The first delta is NaN, which fails `> 0`, so it becomes 0.
   */
  function Gains(closes: seq<real>): (r: seq<real>)
    ensures |r| == |closes| && forall k :: 0 <= k < |r| ==> r[k] >= 0.0
  {
    seq(|closes|, i requires 0 <= i < |closes| =>
      if i == 0 then 0.0
      else if closes[i] - closes[i - 1] > 0.0 then closes[i] - closes[i - 1] else 0.0)
  }

  /** -delta.where(delta < 0, 0.0): the fall from the previous close, else 0. */
  function Losses(closes: seq<real>): (r: seq<real>)
    ensures |r| == |closes| && forall k :: 0 <= k < |r| ==> r[k] >= 0.0
  {
    seq(|closes|, i requires 0 <= i < |closes| =>
      if i == 0 then 0.0
      else if closes[i] - closes[i - 1] < 0.0 then -(closes[i] - closes[i - 1]) else 0.0)
  }

  function AverageGain(closes: seq<real>, period: nat): Series
  {
    RollingMean(Gains(closes), period)
  }

  function AverageLoss(closes: seq<real>, period: nat): Series
  {
    RollingMean(Losses(closes), period)
  }

  /**
   * avg_gain / avg_loss after a zero avg_loss was replaced by NaN, then
   * fillna(0): every NaN (warm-up, or no losses in the window) becomes 0.
   */
  function RelativeStrength(avgGain: Option<real>, avgLoss: Option<real>): (rs: real)
    ensures avgGain.None? || avgLoss.None? || avgLoss.value == 0.0 ==> rs == 0.0
    ensures avgGain.Some? && avgLoss.Some? && avgGain.value >= 0.0 && avgLoss.value > 0.0 ==>
      rs >= 0.0 && rs * avgLoss.value == avgGain.value
  {
    if avgGain.Some? && avgLoss.Some? && avgLoss.value > 0.0 then
      DivAtLeast(avgGain.value, avgLoss.value, 0.0);
      avgGain.value / avgLoss.value
    else if avgGain.Some? && avgLoss.Some? && avgLoss.value != 0.0 then avgGain.value / avgLoss.value
    else 0.0
  }

  function RSIFromStrength(rs: real): real
    requires rs >= 0.0
  {
    100.0 - 100.0 / (1.0 + rs)
  }

  /** RSI.calculate. */
  function RSI(closes: seq<real>, period: nat): (r: Series)
    ensures |r| == |closes|
  {
    seq(|closes|, i requires 0 <= i < |closes| =>
      AveragesNonNegative(closes, period, i);
      Some(RSIFromStrength(RelativeStrength(AverageGain(closes, period)[i], AverageLoss(closes, period)[i]))))
  }

  /** Indicator.calculate, dispatched on the indicator class. */
  function Compute(ind: IndicatorSpec, closes: seq<real>): Series
  {
    match ind
    case SMASpec(p) => SMA(closes, p)
    case RSISpec(p) => RSI(closes, p)
  }

  function Digit(d: nat): char
    requires d < 10
  {
    "0123456789"[d]
  }

  /** f'{period}' for a non-negative period. */
  function DecimalString(n: nat): (s: string)
    ensures |s| >= 1 && (n >= 10 <==> |s| >= 2)
    ensures forall k :: 0 <= k < |s| ==> s[k] in "0123456789"
  {
    if n < 10 then [Digit(n)] else DecimalString(n / 10) + [Digit(n % 10)]
  }

  /**
   * The name SMA.__init__ and RSI.__init__ set: 'SMA_<period>' or 'RSI_<period>'.
   * It is what the registry key is evidently meant to be; see RegistryKey.
   */
  function Name(ind: IndicatorSpec): (name: string)
    ensures |name| >= 5 && name[..4] == (if ind.SMASpec? then "SMA_" else "RSI_")
    ensures forall k :: 4 <= k < |name| ==> name[k] in "0123456789"
  {
    match ind
    case SMASpec(p) => "SMA_" + DecimalString(p)
    case RSISpec(p) => "RSI_" + DecimalString(p)
  }

  /**
   * The name an indicator carries once built, and so its registry key: SMA and
   * RSI set their name and then call Indicator.__init__, which resets it to ''.
   */
  function RegistryKey(ind: IndicatorSpec): string {
    ""
  }

  // ---------------------------------------------------------------------------
  // Sums

  lemma {:induction false} SumBounds(s: seq<real>, lo: real, hi: real)
    requires forall k :: 0 <= k < |s| ==> lo <= s[k] <= hi
    ensures |s| as real * lo <= Sum(s) <= |s| as real * hi
  {
    if s != [] {
      SumBounds(s[..|s| - 1], lo, hi);
    }
  }

  /** An upper bound of the elements, so that SumBounds has one to use. */
  function Largest(s: seq<real>): (m: real)
    ensures forall k :: 0 <= k < |s| ==> s[k] <= m
  {
    if s == [] then 0.0
    else var m := Largest(s[..|s| - 1]); if s[|s| - 1] > m then s[|s| - 1] else m
  }

  lemma {:induction false} SumFront(s: seq<real>)
    requires s != []
    ensures Sum(s) == s[0] + Sum(s[1..])
  {
    if |s| > 1 {
      SumFront(s[..|s| - 1]);
      assert s[..|s| - 1][1..] == s[1..][..|s| - 2];
    }
  }

  // ---------------------------------------------------------------------------
  // Rolling means and SMA

  /** Past the warm-up, SMA[i] is the mean of Close[i-period+1..i]. */
  lemma SMAIsTrailingMean(closes: seq<real>, period: nat, i: nat)
    requires period >= 1 && period - 1 <= i < |closes|
    ensures SMA(closes, period)[i] == Some(Sum(closes[i - period + 1 .. i + 1]) / period as real)
  {
  }

  /**
   * pandas updates a rolling mean by adding the newest value and dropping the
   * oldest; the window definition agrees with that recurrence.
   */
  lemma RollingMeanRecurrence(s: seq<real>, period: nat, i: nat)
    requires period >= 1 && period <= i < |s|
    ensures var r := RollingMean(s, period);
      r[i].value * period as real == r[i - 1].value * period as real + s[i] - s[i - period]
  {
    var w := s[i - period .. i + 1];
    assert s[i - period + 1 .. i + 1] == w[1..];
    assert s[i - period .. i] == w[..|w| - 1];
    SumFront(w);
    var r := RollingMean(s, period);
    var p := period as real;
    assert r[i] == Some(Sum(w[1..]) / p);
    assert r[i - 1] == Some(Sum(w[..|w| - 1]) / p);
    DivTimes(Sum(w[1..]), p);
    DivTimes(Sum(w[..|w| - 1]), p);
  }

  /** A rolling mean lies between any bounds of its window. */
  lemma RollingMeanWithinWindow(s: seq<real>, period: nat, i: nat, lo: real, hi: real)
    requires period >= 1 && period - 1 <= i < |s|
    requires forall k :: i - period + 1 <= k <= i ==> lo <= s[k] <= hi
    ensures lo <= RollingMean(s, period)[i].value <= hi
  {
    var w := s[i - period + 1 .. i + 1];
    assert |w| == period;
    forall k | 0 <= k < |w| ensures lo <= w[k] <= hi {
      assert w[k] == s[i - period + 1 + k];
    }
    SumBounds(w, lo, hi);
    var p := period as real;
    DivideBounds(Sum(w), p, lo, hi);
  }

  lemma DivideBounds(x: real, p: real, lo: real, hi: real)
    requires p > 0.0 && p * lo <= x <= p * hi
    ensures lo <= x / p <= hi
  {
    DivAtLeast(x, p, lo);
    DivAtMost(x, p, hi);
  }

  /** The value at index i depends only on values 0..i. */
  lemma RollingMeanCausal(s: seq<real>, t: seq<real>, period: nat, i: nat)
    requires i < |s| && i < |t| && s[..i + 1] == t[..i + 1]
    ensures RollingMean(s, period)[i] == RollingMean(t, period)[i]
  {
    if period >= 1 && i >= period - 1 {
      assert s[i - period + 1 .. i + 1] == s[..i + 1][i - period + 1 ..];
      assert t[i - period + 1 .. i + 1] == t[..i + 1][i - period + 1 ..];
    }
  }

  /** Changing prices after index i leaves SMA[i] unchanged. */
  lemma SMACausal(closes: seq<real>, other: seq<real>, period: nat, i: nat)
    requires i < |closes| && i < |other| && closes[..i + 1] == other[..i + 1]
    ensures SMA(closes, period)[i] == SMA(other, period)[i]
  {
    RollingMeanCausal(closes, other, period, i);
  }

  /** The SMA is a mean of closes, so it lies between the lowest and highest close of its window. */
  lemma SMAWithinWindow(closes: seq<real>, period: nat, i: nat, lo: real, hi: real)
    requires period >= 1 && period - 1 <= i < |closes|
    requires forall k :: i - period + 1 <= k <= i ==> lo <= closes[k] <= hi
    ensures SMA(closes, period)[i].Some? && lo <= SMA(closes, period)[i].value <= hi
  {
    RollingMeanWithinWindow(closes, period, i, lo, hi);
  }

  // ---------------------------------------------------------------------------
  // Gains, losses and RSI

  /** Gains and losses are non-negative, never both positive, and split the day's move. */
  lemma GainsAndLossesSplitDelta(closes: seq<real>, i: nat)
    requires i < |closes|
    ensures |Gains(closes)| == |Losses(closes)| == |closes|
    ensures Gains(closes)[i] >= 0.0 && Losses(closes)[i] >= 0.0
    ensures Gains(closes)[i] == 0.0 || Losses(closes)[i] == 0.0
    ensures Gains(closes)[i] - Losses(closes)[i] == if i == 0 then 0.0 else closes[i] - closes[i - 1]
  {
  }

  lemma AveragesNonNegative(closes: seq<real>, period: nat, i: nat)
    requires i < |closes|
    ensures AverageGain(closes, period)[i].Some? ==> AverageGain(closes, period)[i].value >= 0.0
    ensures AverageLoss(closes, period)[i].Some? ==> AverageLoss(closes, period)[i].value >= 0.0
  {
    if period >= 1 && i >= period - 1 {
      RollingMeanWithinWindow(Gains(closes), period, i, 0.0, GainBound(closes));
      RollingMeanWithinWindow(Losses(closes), period, i, 0.0, GainBound(closes));
    }
  }

  /** A bound on every gain and every loss of the series. */
  function GainBound(closes: seq<real>): (b: real)
    ensures forall k :: 0 <= k < |closes| ==> Gains(closes)[k] <= b && Losses(closes)[k] <= b
  {
    var g := Largest(Gains(closes));
    var l := Largest(Losses(closes));
    if g > l then g else l
  }

  lemma StrengthBounds(rs: real)
    requires rs >= 0.0
    ensures 0.0 <= RSIFromStrength(rs) < 100.0
    ensures RSIFromStrength(rs) == 0.0 <==> rs == 0.0
  {
    var d := 1.0 + rs;
    DivAtMost(100.0, d, 100.0);
    DivAtMost(100.0, d, 0.0);
    var q := 100.0 / d;
    assert d * q == 100.0;
    if q == 100.0 {
      assert d * 100.0 == 100.0;
    }
  }

  /** RSI is never NaN and always lies in [0, 100). */
  lemma RSIBounded(closes: seq<real>, period: nat, i: nat)
    requires i < |closes|
    ensures RSI(closes, period)[i].Some?
    ensures 0.0 <= RSI(closes, period)[i].value < 100.0
  {
    AveragesNonNegative(closes, period, i);
    StrengthBounds(RelativeStrength(AverageGain(closes, period)[i], AverageLoss(closes, period)[i]));
  }

  /**
   * RSI is 0 exactly in the warm-up (all of the series for period 0), where
   * the window has no gain, and where it has no loss: the code's fillna(0)
   * turns a zero average loss into 0, not 100.
   */
  lemma RSIZeroExactly(closes: seq<real>, period: nat, i: nat)
    requires i < |closes|
    ensures RSI(closes, period)[i].value == 0.0 <==>
      period == 0 || i < period - 1 ||
      AverageGain(closes, period)[i].value == 0.0 || AverageLoss(closes, period)[i].value == 0.0
  {
    var g := AverageGain(closes, period)[i];
    var l := AverageLoss(closes, period)[i];
    AveragesNonNegative(closes, period, i);
    StrengthBounds(RelativeStrength(g, l));
    if period >= 1 && i >= period - 1 && g.value != 0.0 && l.value != 0.0 {
      var rs := g.value / l.value;
      assert l.value * rs == g.value;
      assert rs != 0.0;
    }
  }

  /** Changing prices after index i leaves RSI[i] unchanged. */
  lemma RSICausal(closes: seq<real>, other: seq<real>, period: nat, i: nat)
    requires i < |closes| && i < |other| && closes[..i + 1] == other[..i + 1]
    ensures RSI(closes, period)[i] == RSI(other, period)[i]
  {
    assert Gains(closes)[..i + 1] == Gains(other)[..i + 1] by {
      forall k | 0 <= k <= i ensures Gains(closes)[k] == Gains(other)[k] {
        assert closes[k] == closes[..i + 1][k];
        if k > 0 { assert closes[k - 1] == closes[..i + 1][k - 1]; }
      }
    }
    assert Losses(closes)[..i + 1] == Losses(other)[..i + 1] by {
      forall k | 0 <= k <= i ensures Losses(closes)[k] == Losses(other)[k] {
        assert closes[k] == closes[..i + 1][k];
        if k > 0 { assert closes[k - 1] == closes[..i + 1][k - 1]; }
      }
    }
    RollingMeanCausal(Gains(closes), Gains(other), period, i);
    RollingMeanCausal(Losses(closes), Losses(other), period, i);
  }

  predicate StrictlyIncreasing(closes: seq<real>) {
    forall k :: 0 < k < |closes| ==> closes[k - 1] < closes[k]
  }

  /** With no losses anywhere, RSI is 0 at every index (not the 100 of the textbook rule). */
  lemma RisingPricesGiveZeroRSI(closes: seq<real>, period: nat, i: nat)
    requires i < |closes| && StrictlyIncreasing(closes)
    ensures RSI(closes, period)[i] == Some(0.0)
  {
    if period >= 1 && i >= period - 1 {
      RollingMeanWithinWindow(Losses(closes), period, i, 0.0, 0.0);
    }
    RSIZeroExactly(closes, period, i);
  }

  // ---------------------------------------------------------------------------
  // Registry names

  lemma {:induction false} DecimalStringInjective(n: nat, m: nat)
    ensures DecimalString(n) == DecimalString(m) <==> n == m
  {
    if DecimalString(n) == DecimalString(m) {
      var s := DecimalString(n);
      if n < 10 {
        assert "0123456789"[n] == "0123456789"[m];
      } else {
        assert s[..|s| - 1] == DecimalString(n / 10) && s[..|s| - 1] == DecimalString(m / 10);
        DecimalStringInjective(n / 10, m / 10);
        assert "0123456789"[n % 10] == "0123456789"[m % 10];
      }
    }
  }

  /**
   * Two indicators share a name exactly when they are the same class with the
   * same period: keyed by Name, only a second registration of the same
   * indicator would overwrite the first.
   */
  lemma NamesIdentifyIndicators(a: IndicatorSpec, b: IndicatorSpec)
    ensures Name(a) == Name(b) <==> a == b
  {
    if Name(a) == Name(b) {
      assert Name(a)[..4] == Name(b)[..4];
      assert Name(a)[4..] == DecimalString(a.period) && Name(b)[4..] == DecimalString(b.period);
      DecimalStringInjective(a.period, b.period);
    }
  }

  /**
   * As built, the registry key forgets the indicator: two different indicators,
   * whose intended names differ, share the key ''.
   */
  lemma RegistryKeyForgetsName(a: IndicatorSpec, b: IndicatorSpec)
    requires a != b
    ensures Name(a) != Name(b) && RegistryKey(a) == RegistryKey(b)
  {
    NamesIdentifyIndicators(a, b);
  }
}
