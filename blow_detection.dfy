/** The band-energy blow detector: one frequency snapshot in, `{isBlowing, isExtinguished}` out,
    with a consecutive-frame counter kept in a state object that the detector updates in place. */
module BlowDetection {
  import opened Spectrum

  /** A JavaScript number as far as the detector needs one: a finite value, or NaN (what
      adding `undefined`, read from a typed array at a negative index, produces). */
  datatype Number = Num(v: real) | NaN

  function Plus(a: Number, b: Number): Number {
    if a.NaN? || b.NaN? then NaN else Num(a.v + b.v)
  }

  function Times(a: Number, k: real): Number {
    if a.NaN? then NaN else Num(a.v * k)
  }

  /** `a > k`; false whenever `a` is NaN. */
  predicate Greater(a: Number, k: real) {
    a.Num? && a.v > k
  }

  /** `a < b`; false whenever either is NaN. */
  predicate Less(a: Number, b: Number) {
    a.Num? && b.Num? && a.v < b.v
  }

  datatype BlowDetectionConfig = BlowDetectionConfig(
    blowThreshold: real,
    blowRequiredDuration: int,
    lowFreqStart: int,
    lowFreqEnd: int,
    midFreqStart: int,
    midFreqEnd: int,
    midHighRatio: real)

  const DEFAULT_BLOW_CONFIG: BlowDetectionConfig := BlowDetectionConfig(
    blowThreshold := 0.5,
    blowRequiredDuration := 20,
    lowFreqStart := 0,
    lowFreqEnd := 30,
    midFreqStart := 50,
    midFreqEnd := 200,
    midHighRatio := 0.6)

  datatype BlowDetectionResult = BlowDetectionResult(isBlowing: bool, isExtinguished: bool)

  const Inert: BlowDetectionResult := BlowDetectionResult(false, false)

  function Min(a: int, b: int): int {
    if a <= b then a else b
  }

  /** `dataArray[i]` read as a number: `undefined`, hence NaN once added, off the array. */
  function Bin(s: Snapshot, i: int): Number {
    if 0 <= i < |s| then Num(s[i] as real) else NaN
  }

  /** What `for (i = start; i < stop; i++) sum += dataArray[i]` accumulates from 0. */
  function BandSum(s: Snapshot, start: int, stop: int): Number
    decreases stop - start
  {
    if stop <= start then Num(0.0) else Plus(BandSum(s, start, stop - 1), Bin(s, stop - 1))
  }

  /** The two summing loops run while `i < end && i < dataArray.length`. */
  function LowSum(s: Snapshot, c: BlowDetectionConfig): Number {
    BandSum(s, c.lowFreqStart, Min(|s|, c.lowFreqEnd))
  }

  function MidSum(s: Snapshot, c: BlowDetectionConfig): Number {
    BandSum(s, c.midFreqStart, Min(|s|, c.midFreqEnd))
  }

  /** `Math.min(dataArray.length, end) - start`, which is negative when `start` lies past the band. */
  function LowBandWidth(s: Snapshot, c: BlowDetectionConfig): int {
    Min(|s|, c.lowFreqEnd) - c.lowFreqStart
  }

  function MidBandWidth(s: Snapshot, c: BlowDetectionConfig): int {
    Min(|s|, c.midFreqEnd) - c.midFreqStart
  }

  /** The guard against dividing by zero: it catches a width of exactly 0 only. */
  predicate Degenerate(s: Snapshot, c: BlowDetectionConfig) {
    LowBandWidth(s, c) == 0 || MidBandWidth(s, c) == 0
  }

  /** `sum / width / 255`. */
  function Average(sum: Number, width: int): Number
    requires width != 0
  {
    if sum.NaN? then NaN else Num(sum.v / width as real / 255.0)
  }

  function LowAverage(s: Snapshot, c: BlowDetectionConfig): Number
    requires !Degenerate(s, c)
  {
    Average(LowSum(s, c), LowBandWidth(s, c))
  }

  function MidAverage(s: Snapshot, c: BlowDetectionConfig): Number
    requires !Degenerate(s, c)
  {
    Average(MidSum(s, c), MidBandWidth(s, c))
  }

  /** The frame is classified as a blow: strong low band, and a mid band below the ratio. */
  predicate Blows(s: Snapshot, c: BlowDetectionConfig) {
    && !Degenerate(s, c)
    && Greater(LowAverage(s, c), c.blowThreshold)
    && Less(MidAverage(s, c), Times(LowAverage(s, c), c.midHighRatio))
  }

  /** The result of one call and the counter it leaves behind. */
  datatype Outcome = Outcome(result: BlowDetectionResult, blowDuration: int)

  /** One call of the detector on counter value `d`. */
  function Detect(s: Snapshot, c: BlowDetectionConfig, d: int): (o: Outcome)
    ensures o.result.isExtinguished ==> o.result.isBlowing
    ensures o.result.isBlowing <==> Blows(s, c)
    ensures Blows(s, c) ==> o.blowDuration == d + 1
    ensures o.result.isExtinguished <==> Blows(s, c) && d + 1 > c.blowRequiredDuration
    ensures !Blows(s, c) ==> o.blowDuration == if Degenerate(s, c) then d else 0
  {
    if Degenerate(s, c) then Outcome(Inert, d)
    else if Blows(s, c) then Outcome(BlowDetectionResult(true, d + 1 > c.blowRequiredDuration), d + 1)
    else Outcome(Inert, 0)
  }

  /** The detector state object, `{ blowDuration }`, owned by the caller and updated in place. */
  class BlowDetectionState {
    var blowDuration: int

    constructor ()
      ensures blowDuration == 0
    {
      blowDuration := 0;
    }

    /** `detectBlow(analyser, config, this)` with the analyser's read replaced by `s`. */
    method DetectBlow(s: Snapshot, config: BlowDetectionConfig) returns (r: BlowDetectionResult)
      modifies this
      ensures Outcome(r, blowDuration) == Detect(s, config, old(blowDuration))
    {
      var lowSum := Num(0.0);
      var midSum := Num(0.0);

      var i := config.lowFreqStart;
      while i < config.lowFreqEnd && i < |s|
        invariant config.lowFreqStart <= i
        invariant i == config.lowFreqStart || i <= Min(|s|, config.lowFreqEnd)
        invariant lowSum == BandSum(s, config.lowFreqStart, i)
        decreases |s| - i
      {
        // the index check here is the proof that no read goes past the end of the snapshot
        var v := if i < 0 then NaN else Num(s[i] as real);
        lowSum := Plus(lowSum, v);
        i := i + 1;
      }
      assert lowSum == LowSum(s, config);

      i := config.midFreqStart;
      while i < config.midFreqEnd && i < |s|
        invariant config.midFreqStart <= i
        invariant i == config.midFreqStart || i <= Min(|s|, config.midFreqEnd)
        invariant midSum == BandSum(s, config.midFreqStart, i)
        decreases |s| - i
      {
        var v := if i < 0 then NaN else Num(s[i] as real);
        midSum := Plus(midSum, v);
        i := i + 1;
      }
      assert midSum == MidSum(s, config);

      var lowBandWidth := Min(|s|, config.lowFreqEnd) - config.lowFreqStart;
      var midBandWidth := Min(|s|, config.midFreqEnd) - config.midFreqStart;

      if lowBandWidth == 0 || midBandWidth == 0 {
        return Inert;
      }

      var lowAverage := Average(lowSum, lowBandWidth);
      var midAverage := Average(midSum, midBandWidth);

      var isBlowingSound :=
        Greater(lowAverage, config.blowThreshold) &&
        Less(midAverage, Times(lowAverage, config.midHighRatio));

      if isBlowingSound {
        blowDuration := blowDuration + 1;
        r := BlowDetectionResult(true, blowDuration > config.blowRequiredDuration);
      } else {
        blowDuration := 0;
        r := Inert;
      }
    }
  }

  // ----- What the band sums are -----

  /** Over a band inside the snapshot the sum is NaN exactly when the band starts below
      index 0, and otherwise a finite value no larger than 255 per bin. */
  lemma {:induction false} BandSumShape(s: Snapshot, start: int, stop: int)
    requires stop <= |s|
    ensures BandSum(s, start, stop).NaN? <==> start < 0 && start < stop
    ensures BandSum(s, start, stop).Num? ==> 0.0 <= BandSum(s, start, stop).v
    ensures BandSum(s, start, stop).Num? && start < stop ==>
              BandSum(s, start, stop).v <= 255.0 * (stop - start) as real
    decreases stop - start
  {
    if start < stop {
      BandSumShape(s, start, stop - 1);
    }
  }

  /** A band whose bins all hold `k` sums to `k` times its width. */
  lemma {:induction false} BandSumConstant(s: Snapshot, start: int, stop: int, k: Byte)
    requires 0 <= start <= stop <= |s|
    requires forall i :: start <= i < stop ==> s[i] == k
    ensures BandSum(s, start, stop) == Num(k as real * (stop - start) as real)
    decreases stop - start
  {
    if start < stop {
      BandSumConstant(s, start, stop - 1, k);
      assert k as real * (stop - 1 - start) as real + k as real == k as real * (stop - start) as real;
    }
  }

  // ----- One frame -----

  /** A zero-width band short-circuits to the inert result and leaves the counter alone. */
  lemma ZeroWidthIsInert(s: Snapshot, c: BlowDetectionConfig, d: int)
    requires LowBandWidth(s, c) == 0 || MidBandWidth(s, c) == 0
    ensures Detect(s, c, d) == Outcome(Inert, d)
  {
  }

  /** Only a width of exactly zero is caught: a band starting past its end gives a negative
      width, an all-zero sum, and an ordinary classification. */
  lemma NegativeWidthIsClassified(s: Snapshot, c: BlowDetectionConfig, d: int)
    requires c.lowFreqStart > Min(|s|, c.lowFreqEnd) && c.lowFreqStart >= 0
    requires MidBandWidth(s, c) != 0
    ensures LowBandWidth(s, c) < 0 && LowSum(s, c) == Num(0.0)
    ensures c.blowThreshold < 0.0 && MidBandWidth(s, c) < 0 && c.midFreqStart >= 0 ==>
              Detect(s, c, d) == Outcome(BlowDetectionResult(false, false), 0)
  {
    if c.blowThreshold < 0.0 && MidBandWidth(s, c) < 0 && c.midFreqStart >= 0 {
      assert MidSum(s, c) == Num(0.0);
      assert LowAverage(s, c) == Num(0.0) && MidAverage(s, c) == Num(0.0);
    }
  }

  /** A blow frame adds exactly one to the counter and reports blowing. */
  lemma BlowFrameCounts(s: Snapshot, c: BlowDetectionConfig, d: int)
    requires Blows(s, c)
    ensures Detect(s, c, d).blowDuration == d + 1 && Detect(s, c, d).result.isBlowing
  {
  }

  /** A classified non-blow frame resets the counter, whatever it was, and reports nothing. */
  lemma NonBlowFrameResets(s: Snapshot, c: BlowDetectionConfig, d: int)
    requires !Degenerate(s, c) && !Blows(s, c)
    ensures Detect(s, c, d) == Outcome(Inert, 0)
  {
  }

  /** An all-zero snapshot is never a blow when the threshold is not negative. */
  lemma {:induction false} SilenceNeverBlows(s: Snapshot, c: BlowDetectionConfig)
    requires forall i :: 0 <= i < |s| ==> s[i] == 0
    requires c.blowThreshold >= 0.0
    ensures !Blows(s, c)
  {
    if !Degenerate(s, c) {
      var stop := Min(|s|, c.lowFreqEnd);
      var lo := BandSum(s, c.lowFreqStart, stop);
      BandSumShape(s, c.lowFreqStart, stop);
      if lo.Num? {
        if c.lowFreqStart < stop {
          BandSumConstant(s, c.lowFreqStart, stop, 0);
        }
        assert lo == Num(0.0);
        AverageOfZero(LowBandWidth(s, c));
      }
    }
  }

  lemma AverageOfZero(width: int)
    requires width != 0
    ensures Average(Num(0.0), width) == Num(0.0)
  {
    var w := width as real;
    assert 0.0 / w == 0.0;
  }

  // ----- Consecutive frames -----

  /** The results of feeding `frames` in order, starting from counter `d`. */
  function Run(frames: seq<Snapshot>, c: BlowDetectionConfig, d: int): (rs: seq<BlowDetectionResult>)
    ensures |rs| == |frames|
  {
    if frames == [] then []
    else
      var o := Detect(frames[0], c, d);
      [o.result] + Run(frames[1..], c, o.blowDuration)
  }

  /** Debounce: over consecutive blow frames from counter `d`, the frame at index `j` is
      blowing, and is extinguishing exactly when `d + j + 1` exceeds the required duration. */
  lemma {:induction false} Debounce(frames: seq<Snapshot>, c: BlowDetectionConfig, d: int)
    requires forall k :: 0 <= k < |frames| ==> Blows(frames[k], c)
    ensures forall j :: 0 <= j < |frames| ==>
              Run(frames, c, d)[j] == BlowDetectionResult(true, d + j + 1 > c.blowRequiredDuration)
  {
    if frames != [] {
      Debounce(frames[1..], c, d + 1);
      var rs := Run(frames, c, d);
      assert rs == [BlowDetectionResult(true, d + 1 > c.blowRequiredDuration)] + Run(frames[1..], c, d + 1);
      forall j | 0 <= j < |frames|
        ensures rs[j] == BlowDetectionResult(true, d + j + 1 > c.blowRequiredDuration)
      {
        if j > 0 {
          assert rs[j] == Run(frames[1..], c, d + 1)[j - 1];
        }
      }
    }
  }

  /** With the default configuration, starting from 0, frames 1 to 20 of an unbroken blow
      keep the candles lit and the 21st frame onward extinguishes them. */
  lemma DefaultDebounce(frames: seq<Snapshot>)
    requires forall k :: 0 <= k < |frames| ==> Blows(frames[k], DEFAULT_BLOW_CONFIG)
    ensures forall j :: 0 <= j < |frames| ==>
              Run(frames, DEFAULT_BLOW_CONFIG, 0)[j].isBlowing &&
              (Run(frames, DEFAULT_BLOW_CONFIG, 0)[j].isExtinguished <==> j + 1 >= 21)
  {
    Debounce(frames, DEFAULT_BLOW_CONFIG, 0);
  }

  /** A 128-bin snapshot with a full-scale low band (bins 0 to 29) over a silent mid band
      (bins 50 to 127) is a blow under the default configuration: low average 1, mid average 0. */
  lemma LoudBreathBlows(s: Snapshot)
    requires |s| == FrequencyBinCount
    requires forall i :: 0 <= i < 30 ==> s[i] == 255
    requires forall i :: 50 <= i < |s| ==> s[i] == 0
    ensures Blows(s, DEFAULT_BLOW_CONFIG)
    ensures LowAverage(s, DEFAULT_BLOW_CONFIG) == Num(1.0)
    ensures MidAverage(s, DEFAULT_BLOW_CONFIG) == Num(0.0)
  {
    var c := DEFAULT_BLOW_CONFIG;
    assert LowBandWidth(s, c) == 30 && MidBandWidth(s, c) == 78;
    BandSumConstant(s, 0, 30, 255);
    BandSumConstant(s, 50, 128, 0);
    assert LowSum(s, c) == Num(255.0 * 30.0);
    assert MidSum(s, c) == Num(0.0);
    AverageOfZero(78);
    assert 255.0 * 30.0 / 30.0 / 255.0 == 1.0;
  }
}
