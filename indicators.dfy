/** The indicator engine `calculateIndicators`: it takes the bars of a
    price series, oldest first, and writes the Bollinger Bands, the volume
    average and spike flag, and the RSI onto each bar object in place. */
module Indicators {
  import opened Stats
  import opened Wilder

  /** A nullable field: `null` (or not yet set) versus a value. */
  datatype Option<T> = None | Some(value: T)

  /** The part of a bar the engine only reads. */
  datatype Quote = Quote(date: string, open: real, high: real, low: real, close: real, volume: real)

  /** The Bollinger and volume fields of a bar. */
  datatype BandFields = BandFields(
    ma20: Option<real>, std20: Option<real>, upper: Option<real>, lower: Option<real>,
    volMa20: Option<real>, volSpike: Option<bool>)

  /** `DataPoint`: one trading day's bar. The derived fields are optional:
      a fresh bar has none of them. */
  class DataPoint {
    var date: string
    var open: real
    var high: real
    var low: real
    var close: real
    var volume: real
    var ma20: Option<real>
    var std20: Option<real>
    var upper: Option<real>
    var lower: Option<real>
    var rsi: Option<real>
    var volMa20: Option<real>
    var volSpike: Option<bool>

    constructor (date: string, open: real, high: real, low: real, close: real, volume: real)
      ensures Prices() == Quote(date, open, high, low, close, volume)
      ensures Bands() == BandFields(None, None, None, None, None, None) && rsi == None
    {
      this.date, this.open, this.high, this.low := date, open, high, low;
      this.close, this.volume := close, volume;
      ma20, std20, upper, lower := None, None, None, None;
      rsi, volMa20, volSpike := None, None, None;
    }

    function Prices(): Quote
      reads this
    {
      Quote(date, open, high, low, close, volume)
    }

    function Bands(): BandFields
      reads this
    {
      BandFields(ma20, std20, upper, lower, volMa20, volSpike)
    }
  }

  /** `bars.map((d) => d.close)`. */
  function Closes(bars: seq<DataPoint>): seq<real>
    reads bars
  {
    seq(|bars|, j requires 0 <= j < |bars| reads bars => bars[j].close)
  }

  /** `bars.map((d) => d.volume)`. */
  function Volumes(bars: seq<DataPoint>): seq<real>
    reads bars
  {
    seq(|bars|, j requires 0 <= j < |bars| reads bars => bars[j].volume)
  }

  /** The index of the first occurrence of `b` in `bars` (|bars| when absent). */
  ghost function FirstIndex(bars: seq<DataPoint>, b: DataPoint): nat
  {
    if |bars| == 0 || bars[0] == b then 0 else 1 + FirstIndex(bars[1..], b)
  }

  /** No bar object occurs twice in the series: each is first found at its own index. */
  ghost predicate Distinct(bars: seq<DataPoint>)
  {
    forall k :: 0 <= k < |bars| ==> FirstIndex(bars, bars[k]) == k
  }

  /** The 20-bar window ending at index i: `slice(i - 19, i + 1)`. */
  function Window(s: seq<real>, i: nat): (w: seq<real>)
    requires 19 <= i < |s|
    ensures |w| == 20
  {
    s[i - 19 .. i + 1]
  }

  /** `closes` is the close column of `bars`. */
  ghost predicate CloseColumn(bars: seq<DataPoint>, closes: seq<real>)
    reads bars
  {
    |closes| == |bars| && forall k {:trigger bars[k]} :: 0 <= k < |bars| ==> bars[k].close == closes[k]
  }

  /** `closes` and `volumes` are the close and volume columns of `bars`. */
  ghost predicate Columns(bars: seq<DataPoint>, closes: seq<real>, volumes: seq<real>)
    reads bars
  {
    CloseColumn(bars, closes) && |volumes| == |bars|
    && forall k {:trigger bars[k]} :: 0 <= k < |bars| ==> bars[k].volume == volumes[k]
  }

  /** The Bollinger and volume fields bar i carries once the engine has run
      over a series with these closes and volumes. */
  function ExpectedBands(closes: seq<real>, volumes: seq<real>, i: nat, sqrt: real -> real): BandFields
    requires i < |closes| && i < |volumes|
  {
    if i < 19 then
      BandFields(None, None, None, None, None, Some(false))
    else
      var ma := Average(Window(closes, i));
      var sd := StdDev(Window(closes, i), ma, sqrt);
      var volMa := Average(Window(volumes, i));
      BandFields(Some(ma), Some(sd), Some(ma + sd * 2.0), Some(ma - sd * 2.0),
                 Some(volMa), Some(volumes[i] > volMa * 2.0))
  }

  /** The RSI bar i carries once the engine has run over these closes. */
  function ExpectedRsi(closes: seq<real>, i: nat): Option<real>
    requires i < |closes|
  {
    if i < 14 then None else Some(Rsi(WilderState(closes, i)))
  }

  /** `calculateIndicators(data)`. An empty series is returned as it is;
      otherwise the result is a new array holding the same bar objects
      (`[...data]`), so the derived fields are written onto the caller's
      bars. The prices are left alone. */
  method CalculateIndicators(data: array<DataPoint>, sqrt: real -> real) returns (result: array<DataPoint>)
    requires Distinct(data[..])
    modifies data[..]
    ensures data.Length == 0 ==> result == data
    ensures data.Length > 0 ==> fresh(result)
    ensures result[..] == data[..]
    ensures forall k :: 0 <= k < data.Length ==> data[k].Prices() == old(data[k].Prices())
    ensures forall k :: 0 <= k < data.Length ==>
      data[k].Bands() == ExpectedBands(old(Closes(data[..])), old(Volumes(data[..])), k, sqrt)
    ensures forall k :: 0 <= k < data.Length ==> data[k].rsi == ExpectedRsi(old(Closes(data[..])), k)
  {
    if data.Length == 0 {
      return data;
    }
    ghost var closes, volumes := Closes(data[..]), Volumes(data[..]);
    var bars := data[..];
    result := new DataPoint[|bars|](j requires 0 <= j < |bars| => bars[j]);
    assert result[..] == bars;
    Annotate(result, sqrt, closes, volumes);
  }

  /** The three loops of the engine over the copied array: bands and
      volume, then the RSI seed, then the RSI. */
  method Annotate(result: array<DataPoint>, sqrt: real -> real, ghost closes: seq<real>, ghost volumes: seq<real>)
    requires Distinct(result[..]) && Columns(result[..], closes, volumes)
    modifies result[..]
    ensures forall k :: 0 <= k < result.Length ==> result[k].Prices() == old(result[k].Prices())
    ensures forall k :: 0 <= k < result.Length ==>
      result[k].Bands() == ExpectedBands(closes, volumes, k, sqrt) && result[k].rsi == ExpectedRsi(closes, k)
  {
    BollingerPass(result, sqrt, closes, volumes);
    var gains, losses := SeedSums(result, closes);
    RsiPass(result, gains / 14.0, losses / 14.0, closes);
  }

  /** The Bollinger Bands and volume loop, one bar at a time. */
  method BollingerPass(result: array<DataPoint>, sqrt: real -> real, ghost closes: seq<real>, ghost volumes: seq<real>)
    requires Distinct(result[..]) && Columns(result[..], closes, volumes)
    modifies result[..]
    ensures forall k :: 0 <= k < result.Length ==>
      result[k].Prices() == old(result[k].Prices()) && result[k].rsi == old(result[k].rsi)
    ensures forall k :: 0 <= k < result.Length ==> result[k].Bands() == ExpectedBands(closes, volumes, k, sqrt)
  {
    ghost var expected := seq(result.Length, k requires 0 <= k < result.Length => ExpectedBands(closes, volumes, k, sqrt));
    for i := 0 to result.Length
      invariant forall k :: 0 <= k < result.Length ==>
        result[k].Prices() == old(result[k].Prices()) && result[k].rsi == old(result[k].rsi)
      invariant Columns(result[..], closes, volumes)
      invariant forall k :: 0 <= k < i ==> result[k].Bands() == expected[k]
    {
      AnnotateBands(result, i, sqrt, closes, volumes);
    }
  }

  /** The body of the Bollinger loop for bar i: from index 19 on, the
      20-bar windows of closes and volumes give MA20, STD20, the bands,
      Vol_MA20 and Vol_Spike; before that the fields are null and
      Vol_Spike is false. */
  method AnnotateBands(result: array<DataPoint>, i: nat, sqrt: real -> real, ghost closes: seq<real>, ghost volumes: seq<real>)
    requires i < result.Length && Columns(result[..], closes, volumes)
    modifies result[i]
    ensures result[i].Bands() == ExpectedBands(closes, volumes, i, sqrt)
    ensures result[i].Prices() == old(result[i].Prices()) && result[i].rsi == old(result[i].rsi)
  {
    var bar := result[i];
    if i >= 19 {
      var ma20, std20, volMa20 := WindowStats(result, i, sqrt, closes, volumes);
      bar.ma20, bar.std20, bar.upper, bar.lower, bar.volMa20, bar.volSpike :=
        Some(ma20), Some(std20), Some(ma20 + std20 * 2.0), Some(ma20 - std20 * 2.0),
        Some(volMa20), Some(bar.volume > volMa20 * 2.0);
    } else {
      bar.ma20, bar.std20, bar.upper, bar.lower, bar.volMa20, bar.volSpike :=
        None, None, None, None, None, Some(false);
    }
  }

  /** The statistics of the 20 bars ending at index i: the mean and the
      standard deviation of their closes, and the mean of their volumes. */
  method WindowStats(result: array<DataPoint>, i: nat, sqrt: real -> real, ghost closes: seq<real>, ghost volumes: seq<real>)
    returns (ma20: real, std20: real, volMa20: real)
    requires 19 <= i < result.Length && Columns(result[..], closes, volumes)
    ensures ma20 == Average(Window(closes, i))
    ensures std20 == StdDev(Window(closes, i), ma20, sqrt)
    ensures volMa20 == Average(Window(volumes, i))
  {
    var windowClose := Closes(result[i - 19 .. i + 1]);
    var windowVol := Volumes(result[i - 19 .. i + 1]);
    WindowColumns(result[..], closes, volumes, i);
    ma20 := Average(windowClose);
    std20 := StdDev(windowClose, ma20, sqrt);
    volMa20 := Average(windowVol);
  }

  /** Slicing the bars and then taking a column gives the window of that column. */
  lemma WindowColumns(bars: seq<DataPoint>, closes: seq<real>, volumes: seq<real>, i: nat)
    requires 19 <= i < |bars| && Columns(bars, closes, volumes)
    ensures Closes(bars[i - 19 .. i + 1]) == Window(closes, i)
    ensures Volumes(bars[i - 19 .. i + 1]) == Window(volumes, i)
  {
  }

  /** The seed loop: the summed gains and losses of the changes at indices
      1..14, or of all the changes when there are fewer bars. */
  method SeedSums(result: array<DataPoint>, ghost closes: seq<real>) returns (gains: real, losses: real)
    requires CloseColumn(result[..], closes)
    ensures gains == GainSum(closes, SeedCount(result.Length))
    ensures losses == LossSum(closes, SeedCount(result.Length))
  {
    gains, losses := 0.0, 0.0;
    var i := 1;
    while i <= 14 && i < result.Length
      invariant 1 <= i <= 15
      invariant i == 1 || i <= result.Length
      invariant gains == GainSum(closes, i - 1)
      invariant losses == LossSum(closes, i - 1)
    {
      var diff := result[i].close - result[i - 1].close;
      if diff > 0.0 {
        gains := gains + diff;
      } else {
        losses := losses - diff;
      }
      i := i + 1;
    }
  }

  /** The RSI loop, one bar at a time, carrying the running averages. */
  method RsiPass(result: array<DataPoint>, seedGain: real, seedLoss: real, ghost closes: seq<real>)
    requires Distinct(result[..])
    requires CloseColumn(result[..], closes)
    requires result.Length > 14 ==> Averages(seedGain, seedLoss) == WilderState(closes, 14)
    modifies result[..]
    ensures forall k :: 0 <= k < result.Length ==>
      result[k].Prices() == old(result[k].Prices()) && result[k].Bands() == old(result[k].Bands())
    ensures forall k :: 0 <= k < result.Length ==> result[k].rsi == ExpectedRsi(closes, k)
  {
    var avgGain, avgLoss := seedGain, seedLoss;
    ghost var expected := seq(result.Length, k requires 0 <= k < result.Length => ExpectedRsi(closes, k));
    for i := 0 to result.Length
      invariant forall k :: 0 <= k < result.Length ==>
        result[k].Prices() == old(result[k].Prices()) && result[k].Bands() == old(result[k].Bands())
      invariant CloseColumn(result[..], closes)
      invariant forall k :: 0 <= k < i ==> result[k].rsi == expected[k]
      invariant result.Length > 14 && i <= 14 ==> Averages(avgGain, avgLoss) == WilderState(closes, 14)
      invariant i > 14 ==> Averages(avgGain, avgLoss) == WilderState(closes, i - 1)
    {
      avgGain, avgLoss := AnnotateRsi(result, result[i], i, avgGain, avgLoss, closes);
    }
  }

  /** The body of the RSI loop for bar i: null before index 14; at 14 the
      RSI of the seeded averages; after 14 the averages are first smoothed
      with the change at i. */
  method AnnotateRsi(result: array<DataPoint>, bar: DataPoint, i: nat, avgGain: real, avgLoss: real, ghost closes: seq<real>)
    returns (newGain: real, newLoss: real)
    requires i < result.Length && bar == result[i] && CloseColumn(result[..], closes)
    requires 14 <= i ==> Averages(avgGain, avgLoss) == WilderState(closes, if i == 14 then 14 else i - 1)
    modifies bar`rsi
    ensures bar.rsi == ExpectedRsi(closes, i)
    ensures i < 14 ==> newGain == avgGain && newLoss == avgLoss
    ensures 14 <= i ==> Averages(newGain, newLoss) == WilderState(closes, i)
  {
    newGain, newLoss := avgGain, avgLoss;
    if i < 14 {
      bar.rsi := None;
      return;
    }
    if i > 14 {
      var diff := result[i].close - result[i - 1].close;
      assert diff == Change(closes, i);
      var currentGain, currentLoss := Gain(diff), Loss(diff);
      newGain := (newGain * 13.0 + currentGain) / 14.0;
      newLoss := (newLoss * 13.0 + currentLoss) / 14.0;
    }
    bar.rsi := Some(Rsi(Averages(newGain, newLoss)));
  }

  /** Warm-up and definedness of the band fields: MA20, STD20, Upper, Lower
      and Vol_MA20 are null exactly before index 19, Vol_Spike is never null. */
  lemma BandsWarmUp(closes: seq<real>, volumes: seq<real>, i: nat, sqrt: real -> real)
    requires i < |closes| && i < |volumes|
    ensures var b := ExpectedBands(closes, volumes, i, sqrt);
      (b.ma20 == None <==> i < 19) && (b.std20 == None <==> i < 19) && (b.upper == None <==> i < 19)
      && (b.lower == None <==> i < 19) && (b.volMa20 == None <==> i < 19) && b.volSpike.Some?
    ensures i < 19 ==> ExpectedBands(closes, volumes, i, sqrt).volSpike == Some(false)
  {
  }

  /** The bands from index 19 on: MA20 lies within the range of its window,
      Upper and Lower sit 2 STD20 either side of it, STD20 is never
      negative, so Lower <= MA20 <= Upper; the bands are strictly apart
      exactly when the window is not flat at a non-negative close. */
  lemma BandsOrdered(closes: seq<real>, volumes: seq<real>, i: nat, sqrt: real -> real, lo: real, hi: real)
    requires 19 <= i < |closes| && i < |volumes| && IsSqrt(sqrt)
    requires forall j :: i - 19 <= j <= i ==> lo <= closes[j] <= hi
    ensures var b := ExpectedBands(closes, volumes, i, sqrt);
      b.ma20.Some? && b.std20.Some? && b.upper.Some? && b.lower.Some?
      && lo <= b.ma20.value <= hi && b.std20.value >= 0.0
      && b.upper.value == b.ma20.value + 2.0 * b.std20.value
      && b.lower.value == b.ma20.value - 2.0 * b.std20.value
      && b.lower.value <= b.ma20.value <= b.upper.value
    ensures var b := ExpectedBands(closes, volumes, i, sqrt);
      b.lower.value < b.ma20.value < b.upper.value <==> !(Constant(Window(closes, i)) && closes[i - 19] >= 0.0)
  {
    var w := Window(closes, i);
    AverageWithin(w, lo, hi);
    StdDevSign(w, sqrt);
  }

  /** Vol_Spike from index 19 on: today's volume exceeds twice the 20-bar
      average (today included) exactly when nine times today's volume
      exceeds the sum of the previous 19 volumes. */
  lemma SpikeMeaning(closes: seq<real>, volumes: seq<real>, i: nat, sqrt: real -> real)
    requires 19 <= i < |closes| && i < |volumes|
    ensures ExpectedBands(closes, volumes, i, sqrt).volMa20 == Some(Average(Window(volumes, i)))
    ensures ExpectedBands(closes, volumes, i, sqrt).volSpike == Some(9.0 * volumes[i] > Sum(volumes[i - 19 .. i]))
  {
    var w := Window(volumes, i);
    assert w[..19] == volumes[i - 19 .. i];
    assert Sum(w) == Sum(volumes[i - 19 .. i]) + volumes[i];
  }

  /** The RSI is null exactly before index 14 and lies in [0, 100] after. */
  lemma RsiBounded(closes: seq<real>, i: nat)
    requires i < |closes|
    ensures ExpectedRsi(closes, i) == None <==> i < 14
    ensures ExpectedRsi(closes, i).Some? ==> 0.0 <= ExpectedRsi(closes, i).value <= 100.0
  {
    if i >= 14 {
      RsiRange(WilderState(closes, i));
    }
  }

  /** A rising series never has an RSI below 100 once it is defined. */
  lemma RisingSeriesRsi(closes: seq<real>, i: nat)
    requires 14 <= i < |closes| && NonDecreasing(closes)
    ensures ExpectedRsi(closes, i) == Some(100.0)
  {
    RisingRsiIs100(closes, i);
  }

  /** Closes 100, 101, 102, ...: MA20 at index i is i + 90.5 (109.5 at
      index 19), and the window is never flat, so Upper > MA20 > Lower. */
  lemma StepSeriesBands(closes: seq<real>, volumes: seq<real>, i: nat, sqrt: real -> real)
    requires 19 <= i < |closes| && i < |volumes| && IsSqrt(sqrt)
    requires forall j :: 0 <= j < |closes| ==> closes[j] == 100.0 + j as real
    ensures ExpectedBands(closes, volumes, i, sqrt).ma20 == Some(i as real + 90.5)
    ensures var b := ExpectedBands(closes, volumes, i, sqrt);
      b.lower.value < b.ma20.value < b.upper.value
  {
    var w := Window(closes, i);
    var a := 81.0 + i as real;
    assert forall j :: 0 <= j < |w| ==> w[j] == a + j as real by {
      forall j | 0 <= j < |w|
        ensures w[j] == a + j as real
      {
        assert w[j] == closes[i - 19 + j];
      }
    }
    SumOfRun(w, a);
    assert w[1] != w[0];
    BandsOrdered(closes, volumes, i, sqrt, w[0], w[19]);
  }

  /** Nineteen-plus days at volume 1000 followed by one day at 10000: the
      day before the jump is not a spike, the jump is. */
  lemma SpikeScenario(closes: seq<real>, volumes: seq<real>, sqrt: real -> real)
    requires |closes| == 25 && |volumes| == 25
    requires forall j :: 0 <= j < 24 ==> volumes[j] == 1000.0
    requires volumes[24] == 10000.0
    ensures ExpectedBands(closes, volumes, 23, sqrt).volSpike == Some(false)
    ensures ExpectedBands(closes, volumes, 24, sqrt).volSpike == Some(true)
  {
    SpikeMeaning(closes, volumes, 23, sqrt);
    SpikeMeaning(closes, volumes, 24, sqrt);
    SumOfConstant(volumes[4 .. 23], 1000.0);
    SumOfConstant(volumes[5 .. 24], 1000.0);
  }
}
