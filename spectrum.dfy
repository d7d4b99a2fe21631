/** A frequency-domain snapshot as the Web Audio analyser delivers it into a Uint8Array:
    one unsigned byte of magnitude per frequency bin. */
module Spectrum {

  /** An element of a Uint8Array. */
  type Byte = x: int | 0 <= x < 256

  type Snapshot = seq<Byte>

  /** `analyser.fftSize = 256`, so `frequencyBinCount` is half of it. */
  const FftSize: nat := 256
  const FrequencyBinCount: nat := FftSize / 2

  /** The sum of the magnitudes, accumulated left to right. */
  function Sum(xs: seq<Byte>): (r: int)
    ensures 0 <= r <= 255 * |xs|
  {
    if xs == [] then 0 else Sum(xs[..|xs| - 1]) + xs[|xs| - 1]
  }

  /** Extending a prefix by one bin adds that bin's magnitude. */
  lemma SumPrefixStep(xs: seq<Byte>, i: nat)
    requires i < |xs|
    ensures Sum(xs[..i + 1]) == Sum(xs[..i]) + xs[i]
  {
    assert xs[..i + 1][..i] == xs[..i];
  }
}
