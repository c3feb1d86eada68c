/** The SoundMachine variant of the synthesiser: the same eight channels as
 *  the 32u4 variant, plus a tick and beat transport counted in the same
 *  interrupt. Channel numbers are reduced with `& 7` instead of being sent
 *  to channel 0, the cursor is incremented before it is used, and the
 *  envelope is read at `accumulator / 1024`. */
module SoundMachine {
  import opened Bits
  import opened Voice
  import Mixer
  import Envelope
  import Allocator
  import Iteration

  const CHANNELS := 8
  /** The number of entries of tickBPM: one per bpm from 20 to 239. */
  const TEMPOS := 220
  /** The lowest bpm tickBPM has an entry for. */
  const MIN_BPM := 20

  /** The read-only flash tables of tables.h, whose contents are not part of
   *  this model: 256 signed samples per waveform, 128 amplitudes per
   *  envelope, the phase increment per MIDI pitch, the envelope increment
   *  per length and the ticks per MIDI clock per bpm. `nearTempo(i)` is
   *  the flash word at tickBPM + i for an i outside that table. */
  datatype TableSet = TableSet(
    wave: WaveTable -> seq<i8>,
    envelope: EnvTable -> seq<u8>,
    pitchInc: seq<u16>,
    lengthInc: seq<u16>,
    tempo: seq<u16>,
    nearTempo: int -> u16)
  {
    predicate WellFormed()
    {
      && (forall w :: |wave(w)| == 0x100)
      && (forall e :: |envelope(e)| == 128)
      && |pitchInc| == 128
      && |lengthInc| == 128
      && |tempo| == TEMPOS
    }
  }

  /** Tables of the lengths the code indexes. */
  type Tables = t: TableSet | t.WellFormed()
    witness TableSet(_ => seq(0x100, _ => 0), _ => seq(128, _ => 0), seq(128, _ => 0), seq(128, _ => 0), seq(TEMPOS, _ => 0), _ => 0)

  /** The state the sound part of the interrupt reads and writes. */
  datatype EngineState = EngineState(
    waveAcc: seq<u16>,
    waveTune: seq<u16>,
    waveAmp: seq<u8>,
    envAcc: seq<u16>,
    envTune: seq<u16>,
    wave: seq<WaveTable>,
    env: seq<EnvTable>,
    current: u8)
  {
    predicate Valid()
    {
      && |waveAcc| == |waveTune| == |waveAmp| == CHANNELS
      && |envAcc| == |envTune| == |wave| == |env| == CHANNELS
    }

    /** The channel whose envelope the next interrupt advances: the cursor
     *  is incremented and masked first (see ProcessedIsMaskedIncrement). */
    function Processed(): (c: u8)
      ensures c < CHANNELS
    {
      (current as int + 1) % CHANNELS
    }
  }

  /** Engine states with eight entries per array. */
  type Engine = e: EngineState | e.Valid()
    witness EngineState(seq(CHANNELS, _ => 0), seq(CHANNELS, _ => 0), seq(CHANNELS, _ => 0), seq(CHANNELS, _ => 0), seq(CHANNELS, _ => 0), seq(CHANNELS, _ => NoWave), seq(CHANNELS, _ => NoEnvelope), 0)

  /** The word setBpm reads at tickBPM + i. */
  function TempoWord(t: Tables, i: int): (w: u16)
    ensures 0 <= i < |t.tempo| ==> w == t.tempo[i]
    ensures !(0 <= i < |t.tempo|) ==> w == t.nearTempo(i)
  {
    if 0 <= i < |t.tempo| then t.tempo[i] else t.nearTempo(i)
  }

  /** The interrupt's `current++; current &= 0x07;` on the byte cursor
   *  yields the channel Processed names. */
  lemma ProcessedIsMaskedIncrement(e: Engine)
    ensures e.Processed() == Mask7(Wrap8(e.current as int + 1))
  {
  }

  /** From the cursor's initial value 8 the first channel processed is 1. */
  lemma FirstChannelIsOne(e: Engine)
    requires e.current == CHANNELS
    ensures e.Processed() == 1
  {
  }

  /** The tick and beat counters of the interrupt. */
  datatype Transport = Transport(
    tickCount: u16,
    tickTop: u16,
    tick: bool,
    bpmCount: u8,
    bpmTop: u8,
    tickBpm: bool)
  {
    /** Both counters are running below positive tops. */
    predicate Counting()
    {
      0 < tickTop && tickCount < tickTop && 0 < bpmTop && bpmCount < bpmTop
    }
  }

  /** The transport part of one interrupt (soundmachine.cpp:39-49). */
  function TransportStep(c: Transport): (r: Transport)
    ensures r.tickTop == c.tickTop && r.bpmTop == c.bpmTop
    ensures c.Counting() ==> r.Counting()
    ensures c.tick ==> r.tick
    ensures c.tickBpm ==> r.tickBpm
    ensures c.Counting() && c.tickCount + 1 < c.tickTop ==> r == c.(tickCount := c.tickCount + 1)
  {
    var count := Wrap16(c.tickCount as int + 1);
    if count != c.tickTop then
      c.(tickCount := count)
    else
      var beats := Wrap8(c.bpmCount as int + 1);
      if beats != c.bpmTop then
        c.(tickCount := 0, tick := true, bpmCount := beats)
      else
        c.(tickCount := 0, tick := true, bpmCount := 0, tickBpm := true)
  }

  /** `n` interrupts of the transport. */
  function TransportN(c: Transport, n: nat): Transport
  {
    Iteration.Iterate(TransportStep, c, n)
  }

  lemma TransportNSplit(c: Transport, a: nat, b: nat)
    ensures TransportN(c, a + b) == TransportN(TransportN(c, a), b)
  {
    Iteration.IterateSplit(TransportStep, c, a, b);
  }

  /** The counters stay below their tops, which never change. */
  lemma {:induction false} CountingIsInvariant(c: Transport, n: nat)
    requires c.Counting()
    ensures TransportN(c, n).Counting()
    ensures TransportN(c, n).tickTop == c.tickTop && TransportN(c, n).bpmTop == c.bpmTop
    decreases n
  {
    if n > 0 {
      CountingIsInvariant(c, n - 1);
    }
  }

  /** Below the top, each interrupt only counts. */
  lemma {:induction false} CountsUp(c: Transport, n: nat)
    requires c.Counting() && c.tickCount + n < c.tickTop
    ensures TransportN(c, n) == c.(tickCount := c.tickCount + n)
    decreases n
  {
    if n > 0 {
      CountsUp(c, n - 1);
    }
  }

  /** A MIDI tick is raised exactly tickTop - tickCount interrupts later:
   *  the counter is back at 0, the beat counter has advanced (back to 0 when
   *  it reaches bpmTop) and the beat flag is raised when it wrapped. */
  lemma TickAfter(c: Transport)
    requires c.Counting()
    ensures var r := TransportN(c, c.tickTop - c.tickCount);
      && r.tick && r.tickCount == 0
      && r.bpmCount == (if c.bpmCount + 1 == c.bpmTop then 0 else c.bpmCount + 1)
      && (r.tickBpm <==> c.tickBpm || c.bpmCount + 1 == c.bpmTop)
      && r.tickTop == c.tickTop && r.bpmTop == c.bpmTop
  {
    var n := c.tickTop - c.tickCount;
    CountsUp(c, n - 1);
  }

  /** From a counter at 0, m whole tick periods count m beats. */
  lemma {:induction false} BeatsAfter(c: Transport, m: nat)
    requires c.Counting() && c.tickCount == 0 && c.bpmCount + m < c.bpmTop
    ensures TransportN(c, m * c.tickTop) == c.(bpmCount := c.bpmCount + m, tick := c.tick || m > 0)
    decreases m
  {
    if m > 0 {
      BeatsAfter(c, m - 1);
      NextBeat(c, m - 1);
    }
  }

  lemma NextBeat(c: Transport, m: nat)
    requires c.Counting() && c.tickCount == 0 && c.bpmCount + m + 1 < c.bpmTop
    requires TransportN(c, m * c.tickTop) == c.(bpmCount := c.bpmCount + m, tick := c.tick || m > 0)
    ensures TransportN(c, (m + 1) * c.tickTop) == c.(bpmCount := c.bpmCount + m + 1, tick := true)
  {
    var k := m * c.tickTop;
    var d := TransportN(c, k);
    assert TransportN(c, (m + 1) * c.tickTop) == TransportN(d, c.tickTop) by {
      MulSucc(m, c.tickTop);
      TransportNSplit(c, k, c.tickTop);
    }
    TickAfter(d);
  }

  /** The tick period that completes a bar of beats raises both flags. */
  lemma LastBeat(d: Transport)
    requires d.Counting() && d.tickCount == 0 && d.bpmCount + 1 == d.bpmTop
    ensures TransportN(d, d.tickTop) == d.(tick := true, bpmCount := 0, tickBpm := true)
  {
    TickAfter(d);
  }

  /** From both counters at 0 the beat flag is raised after exactly
   *  n = tickTop * bpmTop interrupts, with both counters back at 0. */
  lemma BeatPeriod(c: Transport, n: nat)
    requires c.Counting() && c.tickCount == 0 && c.bpmCount == 0
    requires n == c.tickTop * c.bpmTop
    ensures TransportN(c, n) == c.(tick := true, tickBpm := true)
  {
    var m := c.bpmTop - 1;
    var k := m * c.tickTop;
    var d := c.(bpmCount := m, tick := c.tick || m > 0);
    assert TransportN(c, k) == d by {
      BeatsAfter(c, m);
    }
    assert TransportN(d, c.tickTop) == c.(tick := true, tickBpm := true) by {
      LastBeat(d);
    }
    assert TransportN(c, n) == TransportN(d, c.tickTop) by {
      MulSucc(m, c.tickTop);
      TransportNSplit(c, k, c.tickTop);
    }
  }

  /** setEnv's switch: an unknown envelope id selects env1. */
  function EnvFor(id: u8): (e: EnvTable)
    ensures id <= 4 ==> e != NoEnvelope && EnvNumber(e) == id
    ensures id > 4 ==> e == Env1
  {
    EnvSelect(id, Env1)
  }

  /** The envelope-table index of the accumulator value just stored,
   *  `/1024`: always inside the 128-entry table, and below 32 exactly when
   *  the value is below the sentinel. A note reads the first quarter of its
   *  table while it sounds, and one entry of the second quarter on the turn
   *  that crosses the sentinel (see EnvIndexCrossing). */
  function EnvIndex(acc: u16): (r: nat)
    ensures r < 64
    ensures r < 32 <==> acc < Envelope.END
  {
    acc / 1024
  }

  /** On the turn a note crosses the sentinel the amplitude is read from
   *  the second quarter of the table: from 0x7F00 with increment 0x200 the
   *  entry read is 32, and the channel sounds at that amplitude until its
   *  next envelope turn, which silences it. */
  lemma EnvIndexCrossing(table: seq<u8>)
    requires |table| == 128
    ensures Envelope.Advance(0x7F00, 0x200) == 0x8100
    ensures EnvelopeStep(0x7F00, 0x200, table) == (0x8100, table[32])
    ensures EnvelopeStep(0x8100, 0x200, table) == (0x8100, 0)
  {
  }

  /** One channel's envelope step (soundmachine.cpp:57-61): the new
   *  accumulator and amplitude. */
  function EnvelopeStep(acc: u16, tune: u16, table: seq<u8>): (r: (u16, u8))
    requires |table| == 128
    ensures r.0 == Envelope.Advance(acc, tune)
    ensures acc >= Envelope.END ==> r.1 == 0
    ensures acc < Envelope.END ==> r.1 == table[EnvIndex(r.0)]
  {
    if Bit15Clear(acc) then
      var next := Wrap16(acc as int + tune);
      (next, table[EnvIndex(next)])
    else
      (acc, 0)
  }

  /** The waveform sample each channel contributes. */
  function Samples(e: Engine, t: Tables): (s: seq<i8>)
    ensures |s| == CHANNELS
  {
    seq(CHANNELS, k requires 0 <= k < CHANNELS => t.wave(e.wave[k])[HighByte(e.waveAcc[k])])
  }

  /** The sample of channel k is the waveform byte at the high byte of its
   *  phase accumulator; the low byte only carries the fraction. */
  lemma SampleAt(e: Engine, t: Tables, k: nat)
    requires k < CHANNELS
    ensures Samples(e, t)[k] == t.wave(e.wave[k])[e.waveAcc[k] / 0x100]
  {
  }

  /** The value the interrupt writes to the PWM register, computed from the
   *  state it leaves behind. */
  function Output(e: Engine, t: Tables): (r: int)
    ensures -129 <= r <= 379
  {
    Mixer.Output(Samples(e, t), e.waveAmp)
  }

  /** The sound part of one interrupt (soundmachine.cpp:51-79). */
  function Step(e: Engine, t: Tables): (r: Engine)
    ensures r.waveTune == e.waveTune && r.envTune == e.envTune
    ensures r.wave == e.wave && r.env == e.env
    ensures r.current == e.Processed()
    ensures forall k :: 0 <= k < CHANNELS ==> r.waveAcc[k] == Wrap16(e.waveAcc[k] as int + e.waveTune[k])
    ensures forall k :: 0 <= k < CHANNELS && k != e.Processed() ==>
      r.envAcc[k] == e.envAcc[k] && r.waveAmp[k] == e.waveAmp[k]
    ensures var c := e.Processed();
      (r.envAcc[c], r.waveAmp[c]) == EnvelopeStep(e.envAcc[c], e.envTune[c], t.envelope(e.env[c]))
  {
    var c := e.Processed();
    var (acc, amp) := EnvelopeStep(e.envAcc[c], e.envTune[c], t.envelope(e.env[c]));
    e.(waveAcc := seq(CHANNELS, k requires 0 <= k < CHANNELS => Wrap16(e.waveAcc[k] as int + e.waveTune[k])),
       envAcc := e.envAcc[c := acc],
       waveAmp := e.waveAmp[c := amp],
       current := c)
  }

  /** The interrupt as a function value, to be iterated. */
  function Interrupt(t: Tables): Engine -> Engine
  {
    (x: Engine) => Step(x, t)
  }

  /** `n` interrupts in a row, with no API call in between. */
  function StepN(e: Engine, t: Tables, n: nat): Engine
  {
    Iteration.Iterate(Interrupt(t), e, n)
  }

  lemma StepNSplit(e: Engine, t: Tables, a: nat, b: nat)
    ensures StepN(e, t, a + b) == StepN(StepN(e, t, a), t, b)
  {
    Iteration.IterateSplit(Interrupt(t), e, a, b);
  }

  lemma StepNLast(e: Engine, t: Tables, n: nat)
    ensures StepN(e, t, n + 1) == Step(StepN(e, t, n), t)
  {
  }

  /** The interrupt never writes the increments or the table selections. */
  lemma {:induction false} StepNKeepsVoices(e: Engine, t: Tables, n: nat)
    ensures var r := StepN(e, t, n);
      && r.waveTune == e.waveTune && r.envTune == e.envTune
      && r.wave == e.wave && r.env == e.env
    decreases n
  {
    if n > 0 {
      StepNKeepsVoices(e, t, n - 1);
      StepNLast(e, t, n - 1);
    }
  }

  /** The cursor visits the channels in round-robin order, one per tick. */
  lemma {:induction false} CursorAfter(e: Engine, t: Tables, n: nat)
    ensures StepN(e, t, n).Processed() == (e.Processed() + n) % CHANNELS
    decreases n
  {
    if n > 0 {
      var p := StepN(e, t, n - 1).Processed();
      assert p == (e.Processed() + n - 1) % CHANNELS by {
        CursorAfter(e, t, n - 1);
      }
      var q := StepN(e, t, n).Processed();
      assert q == (p + 1) % CHANNELS by {
        CursorStep(e, t, n);
      }
      RoundRobinSucc(e.Processed() + n - 1, p, q);
    }
  }

  lemma CursorStep(e: Engine, t: Tables, n: nat)
    requires 0 < n
    ensures StepN(e, t, n).Processed() == (StepN(e, t, n - 1).Processed() + 1) % CHANNELS
  {
    StepNLast(e, t, n - 1);
  }

  /** Every phase accumulator advances by its increment on every tick,
   *  modulo 2^16. */
  lemma {:induction false} PhaseAfter(e: Engine, t: Tables, n: nat, k: nat)
    requires k < CHANNELS
    ensures StepN(e, t, n).waveAcc[k] == Wrap16(e.waveAcc[k] as int + n * e.waveTune[k])
    decreases n
  {
    if n > 0 {
      var x := e.waveAcc[k] as int + (n - 1) * e.waveTune[k];
      var a := StepN(e, t, n - 1).waveAcc[k];
      assert a == Wrap16(x) by {
        PhaseAfter(e, t, n - 1, k);
      }
      assert StepN(e, t, n).waveAcc[k] == Wrap16(a as int + e.waveTune[k]) by {
        PhaseStep(e, t, n, k);
      }
      assert Wrap16(a as int + e.waveTune[k]) == Wrap16(x + e.waveTune[k]) by {
        Wrap16Add(x, e.waveTune[k]);
      }
      MulSucc(n - 1, e.waveTune[k]);
    }
  }

  lemma PhaseStep(e: Engine, t: Tables, n: nat, k: nat)
    requires 0 < n && k < CHANNELS
    ensures StepN(e, t, n).waveAcc[k] == Wrap16(StepN(e, t, n - 1).waveAcc[k] as int + e.waveTune[k])
  {
    StepNLast(e, t, n - 1);
    StepNKeepsVoices(e, t, n - 1);
  }

  /** With increment 256 (one table entry per tick) the waveform index
   *  runs through all 256 entries in order. */
  lemma {:induction false} PhaseCycle(e: Engine, t: Tables, n: nat, k: nat)
    requires k < CHANNELS && e.waveTune[k] == 0x100
    ensures HighByte(StepN(e, t, n).waveAcc[k]) == (HighByte(e.waveAcc[k]) + n) % 0x100
    decreases n
  {
    if n > 0 {
      var h := HighByte(e.waveAcc[k]) + n - 1;
      var a := StepN(e, t, n - 1).waveAcc[k];
      assert HighByte(a) == h % 0x100 by {
        PhaseCycle(e, t, n - 1, k);
      }
      var b := StepN(e, t, n).waveAcc[k];
      assert b == Wrap16(a as int + 0x100) by {
        PhaseStep(e, t, n, k);
      }
      HighByteCycle(a, b, h);
    }
  }

  /** ... and the accumulator is back where it started after 256 ticks. */
  lemma PhaseReturns(e: Engine, t: Tables, k: nat, n: nat)
    requires k < CHANNELS && e.waveTune[k] == 0x100
    requires n == 0x100
    ensures StepN(e, t, n).waveAcc[k] == e.waveAcc[k]
  {
    PhaseAfter(e, t, n, k);
    assert n * e.waveTune[k] == 0x1_0000;
  }

  /** The number of ticks before the cursor reaches channel `k`. */
  function Wait(e: Engine, k: nat): (j: nat)
    requires k < CHANNELS
    ensures j < CHANNELS
    ensures (e.Processed() + j) % CHANNELS == k
  {
    (k - e.Processed()) % CHANNELS
  }

  /** Channel k's accumulator and amplitude after n <= 8 ticks: untouched
   *  until the cursor reaches it, stepped exactly once from then on. */
  function ChannelAfter(e: Engine, t: Tables, k: nat, n: nat): (u16, u8)
    requires k < CHANNELS
  {
    if n <= Wait(e, k) then (e.envAcc[k], e.waveAmp[k])
    else EnvelopeStep(e.envAcc[k], e.envTune[k], t.envelope(e.env[k]))
  }

  lemma {:induction false} EnvelopeTurn(e: Engine, t: Tables, k: nat, n: nat)
    requires k < CHANNELS && n <= CHANNELS
    ensures (StepN(e, t, n).envAcc[k], StepN(e, t, n).waveAmp[k]) == ChannelAfter(e, t, k, n)
    decreases n
  {
    if n > 0 {
      EnvelopeTurn(e, t, k, n - 1);
      TurnStep(e, t, k, n - 1);
    }
  }

  lemma TurnStep(e: Engine, t: Tables, k: nat, m: nat)
    requires k < CHANNELS && m < CHANNELS
    requires (StepN(e, t, m).envAcc[k], StepN(e, t, m).waveAmp[k]) == ChannelAfter(e, t, k, m)
    ensures (StepN(e, t, m + 1).envAcc[k], StepN(e, t, m + 1).waveAmp[k]) == ChannelAfter(e, t, k, m + 1)
  {
    var s := StepN(e, t, m);
    var w := Wait(e, k);
    assert s.Processed() == k <==> m == w by {
      CursorAfter(e, t, m);
      RoundRobinHit(e.Processed(), k, m);
    }
    assert s.envTune == e.envTune && s.env == e.env by {
      StepNKeepsVoices(e, t, m);
    }
    assert (StepN(e, t, m + 1).envAcc[k], StepN(e, t, m + 1).waveAmp[k]) == (Step(s, t).envAcc[k], Step(s, t).waveAmp[k]) by {
      StepNLast(e, t, m);
    }
    ChannelStep(s, t, k);
  }

  /** One interrupt changes channel k's envelope only when the cursor
   *  reaches it. */
  lemma ChannelStep(s: Engine, t: Tables, k: nat)
    requires k < CHANNELS
    ensures var r := Step(s, t);
      (r.envAcc[k], r.waveAmp[k]) == if s.Processed() == k then EnvelopeStep(s.envAcc[k], s.envTune[k], t.envelope(s.env[k])) else (s.envAcc[k], s.waveAmp[k])
  {
  }

  /** Eight ticks advance every channel's envelope exactly once. */
  lemma EightTicks(e: Engine, t: Tables, k: nat, n: nat)
    requires k < CHANNELS && n == CHANNELS
    ensures var r := StepN(e, t, n);
      (r.envAcc[k], r.waveAmp[k]) == EnvelopeStep(e.envAcc[k], e.envTune[k], t.envelope(e.env[k]))
  {
    EnvelopeTurn(e, t, k, n);
  }

  /** A channel whose accumulator has bit 15 set is silent within eight
   *  ticks and its accumulator is never changed by the interrupt. */
  lemma SilentWithinEightTicks(e: Engine, t: Tables, k: nat, n: nat)
    requires k < CHANNELS && n == CHANNELS
    requires e.envAcc[k] >= Envelope.END
    ensures StepN(e, t, n).envAcc[k] == e.envAcc[k]
    ensures StepN(e, t, n).waveAmp[k] == 0
  {
    EightTicks(e, t, k, n);
  }

  /** The finished, silent state is absorbing under ticks. */
  lemma {:induction false} FinishedIsAbsorbing(e: Engine, t: Tables, k: nat, n: nat)
    requires k < CHANNELS
    requires e.envAcc[k] >= Envelope.END && e.waveAmp[k] == 0
    ensures StepN(e, t, n).envAcc[k] == e.envAcc[k]
    ensures StepN(e, t, n).waveAmp[k] == 0
    decreases n
  {
    if n > 0 {
      FinishedIsAbsorbing(e, t, k, n - 1);
      StepNLast(e, t, n - 1);
    }
  }

  lemma NextTurn(e: Engine, t: Tables, k: nat, before: nat, n: nat)
    requires k < CHANNELS && n == CHANNELS
    ensures StepN(e, t, before + n).envAcc[k]
         == Envelope.Advance(StepN(e, t, before).envAcc[k], e.envTune[k])
  {
    StepNSplit(e, t, before, n);
    EightTicks(StepN(e, t, before), t, k, n);
    StepNKeepsVoices(e, t, before);
  }

  /** After 8m ticks a channel's envelope has taken exactly m turns. */
  lemma {:induction false} EnvelopeAfterTurns(e: Engine, t: Tables, k: nat, m: nat)
    requires k < CHANNELS
    ensures StepN(e, t, CHANNELS * m).envAcc[k] == Envelope.AdvanceN(e.envAcc[k], e.envTune[k], m)
    decreases m
  {
    if m > 0 {
      EnvelopeAfterTurns(e, t, k, m - 1);
      var before := CHANNELS * (m - 1);
      NextTurn(e, t, k, before, CHANNELS);
      assert before + CHANNELS == CHANNELS * m;
    }
  }

  /** A note started by play (accumulator 0) with a nonzero length
   *  increment sounds for Turns(tune) envelope turns, i.e. 8 * Turns(tune)
   *  ticks, and is finished after them. */
  lemma NoteLasts(e: Engine, t: Tables, k: nat, m: nat)
    requires k < CHANNELS
    requires e.envAcc[k] == 0 && e.envTune[k] > 0
    ensures m < Envelope.Turns(e.envTune[k]) ==> StepN(e, t, CHANNELS * m).envAcc[k] < Envelope.END
    ensures StepN(e, t, CHANNELS * Envelope.Turns(e.envTune[k])).envAcc[k] >= Envelope.END
  {
    Envelope.NoteEnds(e.envTune[k]);
    EnvelopeAfterTurns(e, t, k, m);
    EnvelopeAfterTurns(e, t, k, Envelope.Turns(e.envTune[k]));
  }

  /** The envelope half of the interrupt never reads a phase accumulator:
   *  two engines that differ only in their phase accumulators keep the same
   *  envelopes, amplitudes and cursor under any number of ticks. */
  lemma {:induction false} EnvelopeIgnoresPhase(e1: Engine, e2: Engine, t: Tables, n: nat)
    requires e1.(waveAcc := e2.waveAcc) == e2
    ensures StepN(e1, t, n).(waveAcc := StepN(e2, t, n).waveAcc) == StepN(e2, t, n)
    decreases n
  {
    if n > 0 {
      var s1 := StepN(e1, t, n - 1);
      var s2 := StepN(e2, t, n - 1);
      assert s1.(waveAcc := s2.waveAcc) == s2 by {
        EnvelopeIgnoresPhase(e1, e2, t, n - 1);
      }
      assert StepN(e1, t, n) == Step(s1, t) && StepN(e2, t, n) == Step(s2, t) by {
        StepNLast(e1, t, n - 1);
        StepNLast(e2, t, n - 1);
      }
      StepIgnoresPhase(s1, s2, t);
    }
  }

  lemma StepIgnoresPhase(s1: Engine, s2: Engine, t: Tables)
    requires s1.(waveAcc := s2.waveAcc) == s2
    ensures Step(s1, t).(waveAcc := Step(s2, t).waveAcc) == Step(s2, t)
  {
  }

  /** What stop(k) leaves sounding: the phase accumulator is moved to
   *  0x8000 but the envelope and amplitude of the channel, and of every
   *  other channel, evolve as if stop had not been called. */
  lemma StopKeepsSounding(e: Engine, t: Tables, k: nat, n: nat)
    requires k < CHANNELS
    ensures var stopped := StepN(e.(waveAcc := e.waveAcc[k := Envelope.END]), t, n);
      && stopped.envAcc == StepN(e, t, n).envAcc
      && stopped.waveAmp == StepN(e, t, n).waveAmp
  {
    var s := e.(waveAcc := e.waveAcc[k := Envelope.END]);
    EnvelopeIgnoresPhase(e, s, t, n);
  }

  /** Signatures setSignature accepts: 1 << i for i in 0 .. 5. */
  predicate PowerOfTwoSignature(s: int)
  {
    s in {1, 2, 4, 8, 16, 32}
  }

  /** `1 << i`. */
  function Shl1(i: nat): (r: nat)
    ensures r > 0
  {
    if i == 0 then 1 else 2 * Shl1(i - 1)
  }

  lemma ShiftsBelowSix(i: nat)
    requires i < 6
    ensures PowerOfTwoSignature(Shl1(i))
  {
    if i == 0 {
    } else if i == 1 {
    } else if i == 2 {
    } else if i == 3 {
    } else if i == 4 {
    } else {
      assert Shl1(5) == 32;
    }
  }

  /** The globals and the member of soundmachine.cpp, as one object. */
  class SoundMachine {
    const tables: Tables
    const waveAcc: array<u16>
    const waveTune: array<u16>
    const waveAmp: array<u8>
    const envAcc: array<u16>
    const envTune: array<u16>
    const wave: array<WaveTable>
    const env: array<EnvTable>
    const pitch: array<u8>
    const length: array<u8>
    var lastPlay: u8
    var current: u8
    var tickCount: u16
    var tickTop: u16
    var tick: bool
    var bpmCount: u8
    var bpmTop: u8
    var tickBpm: bool
    var bpm: u8
    /** The OCIE1A bit of TIMSK1: whether the timer interrupt runs Tick. */
    var running: bool

    ghost predicate Valid()
      reads this
    {
      && waveAcc.Length == waveTune.Length == waveAmp.Length == CHANNELS
      && envAcc.Length == envTune.Length == wave.Length == env.Length == CHANNELS
      && pitch.Length == length.Length == CHANNELS
      && waveAcc != waveTune && waveAcc != envAcc && waveAcc != envTune
      && waveTune != envAcc && waveTune != envTune && envAcc != envTune
      && waveAmp != pitch && waveAmp != length && pitch != length
      && lastPlay < CHANNELS
    }

    /** The engine state the sound part of the interrupt works on. */
    ghost function Snapshot(): (e: Engine)
      reads this, waveAcc, waveTune, waveAmp, envAcc, envTune, wave, env
      requires Valid()
    {
      EngineState(waveAcc[..], waveTune[..], waveAmp[..], envAcc[..], envTune[..], wave[..], env[..], current)
    }

    /** The transport counters. */
    function Clock(): (c: Transport)
      reads this
      ensures c.tickTop == tickTop && c.bpmTop == bpmTop
    {
      Transport(tickCount, tickTop, tick, bpmCount, bpmTop, tickBpm)
    }

    /** The initial values of the globals (soundmachine.cpp:4-28): all
     *  zero except the cursor, 8, and bpmTop, 24. The constructor itself
     *  does nothing, so bpm is left indeterminate. Until begin, every
     *  envelope accumulator is 0, not the sentinel. */
    constructor (t: Tables)
      ensures Valid() && tables == t
      ensures fresh(waveAcc) && fresh(waveTune) && fresh(waveAmp) && fresh(envAcc) && fresh(envTune)
      ensures fresh(wave) && fresh(env) && fresh(pitch) && fresh(length)
      ensures lastPlay == 0 && current == CHANNELS && !running
      ensures Clock() == Transport(0, 0, false, 0, 24, false)
      ensures forall k :: 0 <= k < CHANNELS ==>
        && waveAcc[k] == 0 && waveTune[k] == 0 && waveAmp[k] == 0
        && envAcc[k] == 0 && envTune[k] == 0
        && wave[k] == NoWave && env[k] == NoEnvelope && pitch[k] == 0 && length[k] == 0
    {
      tables := t;
      waveAcc := new u16[CHANNELS](_ => 0);
      waveTune := new u16[CHANNELS](_ => 0);
      waveAmp := new u8[CHANNELS](_ => 0);
      envAcc := new u16[CHANNELS](_ => 0);
      envTune := new u16[CHANNELS](_ => 0);
      wave := new WaveTable[CHANNELS](_ => NoWave);
      env := new EnvTable[CHANNELS](_ => NoEnvelope);
      pitch := new u8[CHANNELS](_ => 0);
      length := new u8[CHANNELS](_ => 0);
      lastPlay, current, running := 0, CHANNELS, false;
      tickCount, tickTop, tick := 0, 0, false;
      bpmCount, bpmTop, tickBpm := 0, 24, false;
    }

    /** begin without the timer set-up: every channel silenced, 60 bpm, a
     *  quarter-note beat, and the compare-match interrupt enabled. */
    method Begin()
      requires Valid()
      modifies envAcc, this`bpm, this`tickTop, this`tickCount, this`tick, this`bpmCount, this`bpmTop, this`running
      ensures Valid()
      ensures forall k :: 0 <= k < CHANNELS ==> envAcc[k] == Envelope.END
      ensures bpm == 60 && tickTop == tables.tempo[60 - MIN_BPM]
      ensures tickCount == 0 && !tick && bpmCount == 0 && bpmTop == 24
      ensures tickBpm == old(tickBpm)
      ensures running
    {
      for i := 0 to CHANNELS
        invariant forall j :: 0 <= j < i ==> envAcc[j] == Envelope.END
      {
        envAcc[i] := Envelope.END;
      }
      SetBpm(60);
      SetSignature(4);
      running := true;
    }

    /** The timer interrupt: returns the value written to the PWM
     *  register. */
    method Tick() returns (out: int)
      requires Valid()
      modifies this`tickCount, this`tick, this`bpmCount, this`tickBpm, this`current
      modifies waveAcc, waveAmp, envAcc
      ensures Valid()
      ensures Clock() == TransportStep(old(Clock()))
      ensures Snapshot() == Step(old(Snapshot()), tables)
      ensures out == Output(Snapshot(), tables)
    {
      ghost var next := Step(Snapshot(), tables);
      ProcessedIsMaskedIncrement(Snapshot());
      CountTick();
      current := Mask7(Wrap8(current as int + 1));
      AdvanceEnvelope();
      out := MixChannels();
      assert waveAcc[..] == next.waveAcc;
    }

    /** The tick and beat counters (soundmachine.cpp:39-49). */
    method CountTick()
      modifies this`tickCount, this`tick, this`bpmCount, this`tickBpm
      ensures Clock() == TransportStep(old(Clock()))
    {
      tickCount := Wrap16(tickCount as int + 1);
      if tickCount == tickTop {
        tickCount := 0;
        tick := true;
        bpmCount := Wrap8(bpmCount as int + 1);
        if bpmCount == bpmTop {
          bpmCount := 0;
          tickBpm := true;
        }
      }
    }

    /** The envelope step of the channel under the cursor
     *  (soundmachine.cpp:57-61). */
    method AdvanceEnvelope()
      requires Valid() && current < CHANNELS
      modifies envAcc, waveAmp
      ensures Valid()
      ensures var c := current;
        && envAcc[..] == old(envAcc[..])[c := EnvelopeStep(old(envAcc[c]), envTune[c], tables.envelope(env[c])).0]
        && waveAmp[..] == old(waveAmp[..])[c := EnvelopeStep(old(envAcc[c]), envTune[c], tables.envelope(env[c])).1]
    {
      var c := current;
      if Bit15Clear(envAcc[c]) {
        envAcc[c] := Wrap16(envAcc[c] as int + envTune[c]);
        waveAmp[c] := tables.envelope(env[c])[EnvIndex(envAcc[c])];
      } else {
        waveAmp[c] := 0;
      }
    }

    /** The eight phase steps and the mix (soundmachine.cpp:65-79); the
     *  source writes the eight terms out, here they are a loop over k. */
    method MixChannels() returns (out: int)
      requires Valid()
      modifies waveAcc
      ensures Valid()
      ensures forall k :: 0 <= k < CHANNELS ==> waveAcc[k] == Wrap16(old(waveAcc[k]) as int + waveTune[k])
      ensures out == Output(Snapshot(), tables)
    {
      ghost var acc, tune, ws := waveAcc[..], waveTune[..], wave[..];
      ghost var final := seq(CHANNELS, k requires 0 <= k < CHANNELS => Wrap16(acc[k] as int + tune[k]));
      ghost var samples := seq(CHANNELS, k requires 0 <= k < CHANNELS => tables.wave(ws[k])[HighByte(final[k])]);
      var sum := 0;
      for k := 0 to CHANNELS
        invariant forall j :: 0 <= j < k ==> waveAcc[j] == final[j]
        invariant forall j :: k <= j < CHANNELS ==> waveAcc[j] == old(waveAcc[j])
        invariant sum == Mixer.MixSum(samples[..k], waveAmp[..k])
      {
        waveAcc[k] := Wrap16(waveAcc[k] as int + waveTune[k]);
        sum := sum + Mixer.Scaled(tables.wave(wave[k])[HighByte(waveAcc[k])], waveAmp[k]);
        assert samples[..k + 1][..k] == samples[..k];
        assert waveAmp[..k + 1][..k] == waveAmp[..k];
      }
      assert samples[..CHANNELS] == samples;
      assert waveAmp[..CHANNELS] == waveAmp[..];
      assert Samples(Snapshot(), tables) == samples;
      out := Mixer.BIAS + CDiv(sum, 4);
    }

    /** setVoice: configures channel i & 7; the accumulators, and so
     *  whatever the channel is playing, are left alone. */
    method SetVoice(i: u8, waveId: u8, pitchId: u8, envId: u8, lengthId: u8)
      requires Valid()
      requires pitchId < |tables.pitchInc| && lengthId < |tables.lengthInc|
      modifies wave, waveTune, pitch, env, envTune, length
      ensures Valid()
      ensures var c := i % CHANNELS;
        && wave[..] == old(wave[..])[c := WaveFor(waveId)]
        && waveTune[..] == old(waveTune[..])[c := tables.pitchInc[pitchId]]
        && pitch[..] == old(pitch[..])[c := pitchId]
        && env[..] == old(env[..])[c := EnvFor(envId)]
        && envTune[..] == old(envTune[..])[c := tables.lengthInc[lengthId]]
        && length[..] == old(length[..])[c := lengthId]
      ensures waveAcc[..] == old(waveAcc[..]) && envAcc[..] == old(envAcc[..])
      ensures waveAmp[..] == old(waveAmp[..])
    {
      var ch := Mask7(i);
      SetWave(ch, waveId);
      SetPitch(ch, pitchId);
      SetEnv(ch, envId);
      SetLength(ch, lengthId);
    }

    method SetWave(i: u8, waveId: u8)
      requires Valid() && i < CHANNELS
      modifies wave
      ensures Valid()
      ensures wave[..] == old(wave[..])[i := WaveFor(waveId)]
    {
      if waveId == TRI {
        wave[i] := Tri;
      } else if waveId == SQUARE {
        wave[i] := Square;
      } else if waveId == SAW {
        wave[i] := Saw;
      } else if waveId == NOISE {
        wave[i] := Noise;
      } else {
        wave[i] := Sin;
      }
    }

    method SetPitch(i: u8, pitchId: u8)
      requires Valid() && i < CHANNELS && pitchId < |tables.pitchInc|
      modifies pitch, waveTune
      ensures Valid()
      ensures pitch[..] == old(pitch[..])[i := pitchId]
      ensures waveTune[..] == old(waveTune[..])[i := tables.pitchInc[pitchId]]
    {
      pitch[i] := pitchId;
      waveTune[i] := tables.pitchInc[pitchId];
    }

    method SetEnv(i: u8, envId: u8)
      requires Valid() && i < CHANNELS
      modifies env
      ensures Valid()
      ensures env[..] == old(env[..])[i := EnvFor(envId)]
    {
      if envId == 0 {
        env[i] := Env1;
      } else if envId == 1 {
        env[i] := Env2;
      } else if envId == 2 {
        env[i] := Env3;
      } else if envId == 3 {
        env[i] := Env4;
      } else if envId == 4 {
        env[i] := Env5;
      } else {
        env[i] := Env1;
      }
    }

    method SetLength(i: u8, lengthId: u8)
      requires Valid() && i < CHANNELS && lengthId < |tables.lengthInc|
      modifies length, envTune
      ensures Valid()
      ensures length[..] == old(length[..])[i := lengthId]
      ensures envTune[..] == old(envTune[..])[i := tables.lengthInc[lengthId]]
    {
      length[i] := lengthId;
      envTune[i] := tables.lengthInc[lengthId];
    }

    /** play(i): restarts channel i & 7 from the start of its waveform and
     *  envelope and records it as the last channel played. */
    method Play(i: u8)
      requires Valid()
      modifies this`lastPlay, waveAcc, envAcc
      ensures Valid()
      ensures lastPlay == i % CHANNELS
      ensures waveAcc[..] == old(waveAcc[..])[i % CHANNELS := 0]
      ensures envAcc[..] == old(envAcc[..])[i % CHANNELS := 0]
    {
      var ch := Mask7(i);
      lastPlay := ch;
      waveAcc[ch] := 0;
      envAcc[ch] := 0;
    }

    /** The four-argument play: configures and starts the channel after the
     *  last one played. It returns lastPlay + 1 unmasked, so 8 when the
     *  last channel played was 7, although channel 0 is the one started. */
    method PlayNote(waveId: u8, pitchId: u8, envId: u8, lengthId: u8) returns (channel: u8)
      requires Valid()
      requires pitchId < |tables.pitchInc| && lengthId < |tables.lengthInc|
      modifies this`lastPlay, wave, waveTune, pitch, env, envTune, length, waveAcc, envAcc
      ensures Valid()
      ensures channel == old(lastPlay) + 1
      ensures old(lastPlay) == 7 ==> channel == CHANNELS && lastPlay == 0
      ensures var c := channel % CHANNELS;
        && lastPlay == c
        && wave[..] == old(wave[..])[c := WaveFor(waveId)]
        && waveTune[..] == old(waveTune[..])[c := tables.pitchInc[pitchId]]
        && pitch[..] == old(pitch[..])[c := pitchId]
        && env[..] == old(env[..])[c := EnvFor(envId)]
        && envTune[..] == old(envTune[..])[c := tables.lengthInc[lengthId]]
        && length[..] == old(length[..])[c := lengthId]
        && waveAcc[..] == old(waveAcc[..])[c := 0]
        && envAcc[..] == old(envAcc[..])[c := 0]
      ensures waveAmp[..] == old(waveAmp[..])
    {
      var next := Wrap8(lastPlay as int + 1);
      SetVoice(next, waveId, pitchId, envId, lengthId);
      Play(next);
      channel := next;
    }

    /** stop(i): writes 0x8000 into the phase accumulator of channel i and
     *  nothing else. The envelope goes on, so the note keeps sounding (see
     *  StopKeepsSounding). The channel number is not masked. */
    method Stop(i: u8)
      requires Valid() && i < CHANNELS
      modifies waveAcc
      ensures Valid()
      ensures waveAcc[..] == old(waveAcc[..])[i := Envelope.END]
    {
      waveAcc[i] := Envelope.END;
    }

    /** getNextPlay: the channel after the last one played, round-robin.
     *  `(lastPlay + 1) & 7` keeps the low three bits only, so taking the
     *  sum modulo 256 first changes nothing. */
    function GetNextPlay(): (r: u8)
      reads this
      ensures r < CHANNELS
      ensures r == (lastPlay + 1) % CHANNELS
    {
      Mask7(Wrap8(lastPlay as int + 1))
    }

    /** getNextChannel: the loop of soundmachine.cpp:308-319. */
    method GetNextChannel() returns (r: u8)
      requires Valid()
      ensures r == Allocator.NextChannel(envAcc[..], waveAmp[..])
      ensures r < CHANNELS
      ensures r != 0 ==> envAcc[r] > Envelope.HALF
      ensures (forall k :: 0 <= k < CHANNELS ==> envAcc[k] <= Envelope.HALF) ==> r == 0
      ensures (exists k :: 0 <= k < CHANNELS && envAcc[k] > Envelope.HALF && waveAmp[k] < 255) ==> envAcc[r] > Envelope.HALF
    {
      var nextChannel: u8 := 0;
      var lastWaveAmp: u8 := 255;
      for i := 0 to CHANNELS
        invariant (nextChannel, lastWaveAmp) == Allocator.Scan(envAcc[..], waveAmp[..], i)
      {
        if envAcc[i] > Envelope.HALF && waveAmp[i] < lastWaveAmp {
          lastWaveAmp := LowByte(envAcc[i]);
          nextChannel := i;
        }
      }
      r := nextChannel;
    }

    /** pause: toggles the interrupt; true when processing is now stopped. */
    method Pause() returns (stopped: bool)
      modifies this`running
      ensures running == !old(running)
      ensures stopped == !running
    {
      if running {
        running := false;
        stopped := true;
      } else {
        running := true;
        stopped := false;
      }
    }

    /** setBpm: stores its argument as given, for every argument: the two
     *  clamps assign bpm and are overwritten by the next statement. The
     *  tempo word is read at tickBPM + (bpm - 20), which is inside the
     *  table only for 20 .. 239. */
    method SetBpm(newBpm: u8)
      modifies this`bpm, this`tickTop, this`tickCount, this`tick, this`bpmCount
      ensures bpm == newBpm && tickTop == TempoWord(tables, newBpm - MIN_BPM)
      ensures tickCount == 0 && !tick && bpmCount == 0
    {
      if newBpm > 239 {
        bpm := 239;
      } else if newBpm < 20 {
        bpm := 20;
      }
      bpm := newBpm;
      tickTop := TempoWord(tables, bpm - MIN_BPM);
      tickCount := 0;
      tick := false;
      bpmCount := 0;
    }

    method GetBpm() returns (r: u8)
      ensures r == bpm
    {
      r := bpm;
    }

    /** getTick: reports and clears the MIDI tick flag. */
    method GetTick() returns (r: bool)
      modifies this`tick
      ensures r == old(tick) && !tick
    {
      if tick == false {
        r := false;
      } else {
        tick := false;
        r := true;
      }
    }

    /** setSignature: a power of two from 1 to 32 divides the 96 ticks of a
     *  whole note into beats; any other value selects a quarter-note beat. */
    method SetSignature(sign: u8)
      modifies this`bpmTop
      ensures bpmTop == if PowerOfTwoSignature(sign) then 96 / sign else 24
    {
      for i := 0 to 6
        invariant forall j :: 0 <= j < i ==> sign != Shl1(j)
      {
        if sign == Shl1(i) {
          ShiftsBelowSix(i);
          bpmTop := (24 * 4) / sign;
          return;
        }
      }
      assert Shl1(5) == 32;
      assert sign != Shl1(0) && sign != Shl1(1) && sign != Shl1(2);
      assert sign != Shl1(3) && sign != Shl1(4) && sign != Shl1(5);
      bpmTop := 24;
    }

    /** getTime: reports and clears the beat flag. */
    method GetTime() returns (r: bool)
      modifies this`tickBpm
      ensures r == old(tickBpm) && !tickBpm
    {
      if tickBpm == false {
        r := false;
      } else {
        tickBpm := false;
        r := true;
      }
    }
  }

  /** Pausing twice restores the interrupt enable. */
  method PauseTwice(m: SoundMachine) returns (first: bool, second: bool)
    modifies m`running
    ensures m.running == old(m.running)
    ensures first == old(m.running) && second == !first
  {
    first := m.Pause();
    second := m.Pause();
  }

  /** Polling the tick twice with no interrupt in between: the second poll
   *  is false. */
  method PollTwice(m: SoundMachine) returns (first: bool, second: bool)
    modifies m`tick
    ensures first == old(m.tick) && !second && !m.tick
  {
    first := m.GetTick();
    second := m.GetTick();
  }

  /** Polling the beat flag twice with no interrupt in between: the second
   *  poll is false. */
  method PollTimeTwice(m: SoundMachine) returns (first: bool, second: bool)
    modifies m`tickBpm
    ensures first == old(m.tickBpm) && !second && !m.tickBpm
  {
    first := m.GetTime();
    second := m.GetTime();
  }

  /** setBpm followed by getBpm returns the argument, even outside
   *  20 .. 239. */
  method SetBpmThenGetBpm(m: SoundMachine, b: u8) returns (r: u8)
    modifies m`bpm, m`tickTop, m`tickCount, m`tick, m`bpmCount
    ensures r == b
  {
    m.SetBpm(b);
    r := m.GetBpm();
  }

  /** The first four-argument play after begin starts, and reports,
   *  channel 1. */
  method FirstNoteAfterBegin(t: Tables) returns (channel: u8)
    ensures channel == 1
  {
    var m := new SoundMachine(t);
    m.Begin();
    channel := m.PlayNote(0, 69, 0, 0);
  }
}
