/** getNextChannel's scan, written identically in both variants: among the
 *  channels past half of their envelope, keep one whose amplitude is below
 *  a running threshold. The threshold starts at 255 and, as written, is then
 *  set to the low byte of the chosen channel's envelope accumulator, not to
 *  its amplitude. */
module Allocator {
  import opened Bits
  import Envelope

  /** The running pair (nextChannel, lastWaveAmp) after the loop has looked
   *  at channels 0 .. n-1. */
  function Scan(envAcc: seq<u16>, waveAmp: seq<u8>, n: nat): (r: (u8, u8))
    requires n <= |envAcc| == |waveAmp| <= 0x100
    ensures r == (0, 255) || (r.0 < n && envAcc[r.0] > Envelope.HALF && r.1 == LowByte(envAcc[r.0]))
    ensures (forall k :: 0 <= k < n ==> envAcc[k] <= Envelope.HALF) ==> r == (0, 255)
    ensures (exists k :: 0 <= k < n && envAcc[k] > Envelope.HALF && waveAmp[k] < 255) ==>
      r.0 < n && envAcc[r.0] > Envelope.HALF
    ensures (forall k :: 0 <= k < n ==> !(envAcc[k] > Envelope.HALF && waveAmp[k] < 255)) ==> r == (0, 255)
  {
    if n == 0 then (0, 255)
    else
      var prev := Scan(envAcc, waveAmp, n - 1);
      if envAcc[n - 1] > Envelope.HALF && waveAmp[n - 1] < prev.1 then (n - 1, LowByte(envAcc[n - 1]))
      else prev
  }

  /** The channel getNextChannel returns for the eight channels' state. */
  function NextChannel(envAcc: seq<u16>, waveAmp: seq<u8>): (r: u8)
    requires |envAcc| == |waveAmp| == 8
    ensures r < 8
    ensures r != 0 ==> envAcc[r] > Envelope.HALF
    ensures (forall k :: 0 <= k < 8 ==> envAcc[k] <= Envelope.HALF) ==> r == 0
    ensures (exists k :: 0 <= k < 8 && envAcc[k] > Envelope.HALF && waveAmp[k] < 255) ==> envAcc[r] > Envelope.HALF
  {
    Scan(envAcc, waveAmp, 8).0
  }

  /** The threshold update can only tighten the choice when the chosen
   *  channel's amplitude equals the low byte of its accumulator; otherwise
   *  a later, quieter eligible channel may lose. Channels 1 and 5 are past
   *  half with amplitudes 40 and 10: with envAcc[1] = 0x50FF the threshold
   *  becomes 255 again and channel 5 is chosen, with envAcc[1] = 0x5000 it
   *  becomes 0 and channel 1 is kept although channel 5 is quieter. */
  lemma {:induction false} ThresholdIsLowByteOfAccumulator()
    ensures NextChannel([0, 0x50FF, 0, 0, 0, 0x6000, 0, 0], [0, 40, 0, 0, 0, 10, 0, 0]) == 5
    ensures NextChannel([0, 0x5000, 0, 0, 0, 0x6000, 0, 0], [0, 40, 0, 0, 0, 10, 0, 0]) == 1
  {
    var amps := [0, 40, 0, 0, 0, 10, 0, 0];
    var a := [0, 0x50FF, 0, 0, 0, 0x6000, 0, 0];
    assert Scan(a, amps, 2) == (1, 255);
    assert Scan(a, amps, 5) == (1, 255);
    assert Scan(a, amps, 6) == (5, 0);
    var b := [0, 0x5000, 0, 0, 0, 0x6000, 0, 0];
    assert Scan(b, amps, 2) == (1, 0);
    assert Scan(b, amps, 5) == (1, 0);
  }

  /** When no channel is past half, channel 0 is returned even if it is
   *  sounding at full amplitude. */
  lemma DefaultIsChannelZero()
    ensures NextChannel([0, 0, 0, 0, 0, 0, 0, 0], [255, 0, 0, 0, 0, 0, 0, 0]) == 0
  {
  }
}
