/** The output mix of the sample interrupt, common to both variants:
 *  `127 + (sum over the eight channels of ((sample * amp) >> 8)) / 4`. */
module Mixer {
  import opened Bits

  const CHANNELS := 8
  /** Mid-scale bias of the unsigned PWM duty register. */
  const BIAS := 127

  /** One channel's term `(sample * amp) >> 8`. The product fits the 16-bit
   *  `int` it is computed in, and `>>` on a negative `int` is arithmetic,
   *  i.e. floor division by 256. */
  function Scaled(sample: i8, amp: u8): (r: int)
    ensures -0x8000 <= sample * amp < 0x8000
    ensures r * 0x100 <= sample * amp < r * 0x100 + 0x100
    ensures -128 <= r <= 126
  {
    (sample * amp) / 0x100
  }

  /** Sum of the first `|samples|` channel terms. */
  function MixSum(samples: seq<i8>, amps: seq<u8>): (r: int)
    requires |samples| == |amps|
    ensures -128 * |samples| <= r <= 126 * |samples|
    decreases |samples|
  {
    if samples == [] then 0
    else
      var n := |samples| - 1;
      MixSum(samples[..n], amps[..n]) + Scaled(samples[n], amps[n])
  }

  /** The value written to the PWM compare register(s), before the register
   *  keeps its low byte. */
  function Output(samples: seq<i8>, amps: seq<u8>): (r: int)
    requires |samples| == |amps| == CHANNELS
    ensures -129 <= r <= 379
  {
    BIAS + CDiv(MixSum(samples, amps), 4)
  }

  /** Both ends of the output range are reached: eight full-scale negative
   *  samples give -129, eight full-scale positive ones give 379. */
  lemma {:induction false} OutputRangeIsTight()
    ensures Output(seq(CHANNELS, _ => -128), seq(CHANNELS, _ => 255)) == -129
    ensures Output(seq(CHANNELS, _ => 127), seq(CHANNELS, _ => 255)) == 379
  {
    ConstantMix(-128, 255, CHANNELS);
    ConstantMix(127, 255, CHANNELS);
  }

  lemma {:induction false} ConstantMix(s: i8, a: u8, n: nat)
    ensures MixSum(seq(n, _ => s), seq(n, _ => a)) == n * Scaled(s, a)
  {
    if n > 0 {
      assert seq(n, _ => s)[..n - 1] == seq(n - 1, _ => s);
      assert seq(n, _ => a)[..n - 1] == seq(n - 1, _ => a);
      ConstantMix(s, a, n - 1);
      MulSucc(n - 1, Scaled(s, a));
    }
  }

  /** The sum is taken before the division: silent channels contribute
   *  nothing, so a lone full-scale channel is divided by 4 as well. */
  lemma {:induction false} MixOfSilence(samples: seq<i8>)
    ensures MixSum(samples, seq(|samples|, _ => 0)) == 0
  {
    if samples != [] {
      var n := |samples| - 1;
      assert seq(|samples|, _ => 0)[..n] == seq(n, _ => 0);
      MixOfSilence(samples[..n]);
    }
  }
}
