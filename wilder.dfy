/** The 14-period Relative Strength Index with Wilder smoothing: the running
    (average gain, average loss) pair as a fold over the close series, the
    RSI formula, and what they guarantee. */
module Wilder {

  /** Gain of one close-to-close change: `Math.max(diff, 0)`, which is also
      what the seed loop's `if (diff > 0) gains += diff` adds. */
  function Gain(diff: real): real
  {
    if diff > 0.0 then diff else 0.0
  }

  /** Loss of one change: `Math.max(-diff, 0)`, which is also what the seed
      loop's `else losses -= diff` adds. */
  function Loss(diff: real): real
  {
    if diff < 0.0 then -diff else 0.0
  }

  /** `result[i].close - result[i - 1].close`. */
  function Change(closes: seq<real>, i: nat): real
    requires 1 <= i < |closes|
  {
    closes[i] - closes[i - 1]
  }

  /** The gains of the changes at indices 1..k. */
  function GainSum(closes: seq<real>, k: nat): (r: real)
    requires k == 0 || k < |closes|
    ensures r >= 0.0
  {
    if k == 0 then 0.0 else GainSum(closes, k - 1) + Gain(Change(closes, k))
  }

  /** The losses of the changes at indices 1..k, as positive amounts. */
  function LossSum(closes: seq<real>, k: nat): (r: real)
    requires k == 0 || k < |closes|
    ensures r >= 0.0
  {
    if k == 0 then 0.0 else LossSum(closes, k - 1) + Loss(Change(closes, k))
  }

  /** How many changes the seed loop `for (i = 1; i <= 14 && i < n; i++)`
      visits for n bars. */
  function SeedCount(n: nat): nat
  {
    if n <= 1 then 0 else if n - 1 < 14 then n - 1 else 14
  }

  /** Wilder's running averages: `avgGain` and `avgLoss`. */
  datatype Averages = Averages(gain: real, loss: real)

  /** The averages in force when the RSI of index i is computed: seeded
      from the first 14 changes at index 14, then smoothed once per index
      in ascending order. Both stay non-negative. */
  function WilderState(closes: seq<real>, i: nat): (a: Averages)
    requires 14 <= i < |closes|
    ensures a.gain >= 0.0 && a.loss >= 0.0
    decreases i
  {
    if i == 14 then
      Averages(GainSum(closes, 14) / 14.0, LossSum(closes, 14) / 14.0)
    else
      var prev, diff := WilderState(closes, i - 1), Change(closes, i);
      Averages((prev.gain * 13.0 + Gain(diff)) / 14.0, (prev.loss * 13.0 + Loss(diff)) / 14.0)
  }

  /** The RSI of a pair of averages: 100 when there is no average loss,
      otherwise 100 - 100 / (1 + RS) with RS = avgGain / avgLoss. */
  function Rsi(a: Averages): real
    requires a.gain >= 0.0 && a.loss >= 0.0
  {
    if a.loss == 0.0 then 100.0 else 100.0 - 100.0 / (1.0 + a.gain / a.loss)
  }

  /** The RSI lies in [0, 100]; it is 100 exactly when there is no average
      loss and 0 exactly when there is loss but no gain. */
  lemma RsiRange(a: Averages)
    requires a.gain >= 0.0 && a.loss >= 0.0
    ensures 0.0 <= Rsi(a) <= 100.0
    ensures Rsi(a) == 100.0 <==> a.loss == 0.0
    ensures Rsi(a) == 0.0 <==> a.gain == 0.0 && a.loss > 0.0
  {
    if a.loss > 0.0 {
      var rs := a.gain / a.loss;
      QuotientSign(a.gain, a.loss);
      ReciprocalBounds(rs);
    }
  }

  lemma QuotientSign(g: real, l: real)
    requires g >= 0.0 && l > 0.0
    ensures g / l >= 0.0
    ensures g / l == 0.0 <==> g == 0.0
  {
    if g > 0.0 {
      assert g / l > 0.0;
    }
  }

  lemma ReciprocalBounds(rs: real)
    requires rs >= 0.0
    ensures 0.0 < 100.0 / (1.0 + rs) <= 100.0
    ensures 100.0 / (1.0 + rs) == 100.0 <==> rs == 0.0
  {
    var q := 100.0 / (1.0 + rs);
    assert q * (1.0 + rs) == 100.0;
    if rs > 0.0 {
      assert q < 100.0;
    }
  }

  /** Closes that never fall. */
  ghost predicate NonDecreasing(closes: seq<real>)
  {
    forall j :: 1 <= j < |closes| ==> closes[j - 1] <= closes[j]
  }

  /** Closes that fall at every step. */
  ghost predicate StrictlyDecreasing(closes: seq<real>)
  {
    forall j :: 1 <= j < |closes| ==> closes[j - 1] > closes[j]
  }

  lemma {:induction false} NoLossSum(closes: seq<real>, k: nat)
    requires k < |closes| && NonDecreasing(closes)
    ensures LossSum(closes, k) == 0.0
  {
    if k > 0 {
      NoLossSum(closes, k - 1);
    }
  }

  /** A close series that never falls never records a loss: the average
      loss is 0 at every index from 14 on. */
  lemma {:induction false} RisingNeverLoses(closes: seq<real>, i: nat)
    requires 14 <= i < |closes| && NonDecreasing(closes)
    ensures WilderState(closes, i).loss == 0.0
    decreases i
  {
    if i == 14 {
      NoLossSum(closes, 14);
    } else {
      RisingNeverLoses(closes, i - 1);
    }
  }

  /** ... so its RSI is 100 at index 14 and at every later index. */
  lemma RisingRsiIs100(closes: seq<real>, i: nat)
    requires 14 <= i < |closes| && NonDecreasing(closes)
    ensures Rsi(WilderState(closes, i)) == 100.0
  {
    RisingNeverLoses(closes, i);
  }

  lemma {:induction false} FallingSums(closes: seq<real>, k: nat)
    requires k < |closes| && StrictlyDecreasing(closes)
    ensures GainSum(closes, k) == 0.0
    ensures k > 0 ==> LossSum(closes, k) > 0.0
  {
    if k > 0 {
      FallingSums(closes, k - 1);
    }
  }

  /** A close series that falls at every step never records a gain and
      always carries a loss. */
  lemma {:induction false} FallingNeverGains(closes: seq<real>, i: nat)
    requires 14 <= i < |closes| && StrictlyDecreasing(closes)
    ensures WilderState(closes, i).gain == 0.0
    ensures WilderState(closes, i).loss > 0.0
    decreases i
  {
    if i == 14 {
      FallingSums(closes, 14);
    } else {
      FallingNeverGains(closes, i - 1);
    }
  }

  /** ... so its RSI is 0 at index 14 and at every later index. */
  lemma FallingRsiIs0(closes: seq<real>, i: nat)
    requires 14 <= i < |closes| && StrictlyDecreasing(closes)
    ensures Rsi(WilderState(closes, i)) == 0.0
  {
    FallingNeverGains(closes, i);
    RsiRange(WilderState(closes, i));
  }

  function Reverse(s: seq<real>): (r: seq<real>)
    ensures |r| == |s|
  {
    seq(|s|, j requires 0 <= j < |s| => s[|s| - 1 - j])
  }

  /** The recurrence depends on the order of the bars: a strictly rising
      series has RSI 100 at index 14, the same closes in reverse order 0. */
  lemma OrderMatters(closes: seq<real>)
    requires |closes| >= 15
    requires forall j :: 1 <= j < |closes| ==> closes[j - 1] < closes[j]
    ensures Rsi(WilderState(closes, 14)) == 100.0
    ensures Rsi(WilderState(Reverse(closes), 14)) == 0.0
  {
    RisingRsiIs100(closes, 14);
    var r := Reverse(closes);
    forall j | 1 <= j < |r|
      ensures r[j - 1] > r[j]
    {
      assert r[j - 1] == closes[|closes| - j] && r[j] == closes[|closes| - 1 - j];
    }
    FallingRsiIs0(r, 14);
  }

  /** The averages at index i depend on the closes up to index i only. */
  lemma {:induction false} WilderCausal(closes: seq<real>, other: seq<real>, i: nat)
    requires 14 <= i < |closes| && i < |other|
    requires closes[..i + 1] == other[..i + 1]
    ensures WilderState(closes, i) == WilderState(other, i)
    decreases i
  {
    assert forall j :: 0 <= j <= i ==> closes[j] == other[j] by {
      forall j | 0 <= j <= i
        ensures closes[j] == other[j]
      {
        assert closes[..i + 1][j] == other[..i + 1][j];
      }
    }
    if i == 14 {
      SumsCausal(closes, other, 14);
    } else {
      assert closes[..i] == other[..i];
      WilderCausal(closes, other, i - 1);
    }
  }

  lemma {:induction false} SumsCausal(closes: seq<real>, other: seq<real>, k: nat)
    requires k < |closes| && k < |other|
    requires forall j :: 0 <= j <= k ==> closes[j] == other[j]
    ensures GainSum(closes, k) == GainSum(other, k)
    ensures LossSum(closes, k) == LossSum(other, k)
  {
    if k > 0 {
      SumsCausal(closes, other, k - 1);
    }
  }
}
