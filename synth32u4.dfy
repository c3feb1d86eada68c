/** The 32u4 variant of the synthesiser: eight channels, each with a phase
 *  accumulator stepping through a 256-sample waveform and an envelope
 *  accumulator stepping once every eight interrupts through an envelope.
 *  A channel is reused only through setVoice and play; out-of-range channel
 *  numbers select channel 0. */
module Synth32u4 {
  import opened Bits
  import opened Voice
  import Mixer
  import Envelope
  import Allocator
  import Iteration

  const CHANNELS := 8

  /** The read-only flash tables of tables32u4.h, whose contents are not part
   *  of this model. Each waveform is 256 signed samples. An envelope table
   *  holds 128 amplitudes, but the interrupt can index it up to 255 (see
   *  EnvIndex), so each envelope is given as the 256 flash bytes starting at
   *  the table, of which the first 128 are the table itself. */
  datatype TableSet = TableSet(
    wave: WaveTable -> seq<i8>,
    envelope: EnvTable -> seq<u8>,
    pitchInc: seq<u16>,
    lengthInc: seq<u16>)
  {
    predicate WellFormed()
    {
      && (forall w :: |wave(w)| == 0x100)
      && (forall e :: |envelope(e)| == 0x100)
      && |pitchInc| == 128
      && |lengthInc| == 128
    }
  }

  /** Tables of the lengths the code indexes. */
  type Tables = t: TableSet | t.WellFormed()
    witness TableSet(_ => seq(0x100, _ => 0), _ => seq(0x100, _ => 0), seq(128, _ => 0), seq(128, _ => 0))

  /** The state the interrupt reads and writes: the per-channel arrays and
   *  the channel cursor. */
  datatype EngineState = EngineState(
    waveAcc: seq<u16>,
    waveTune: seq<u16>,
    waveAmp: seq<u8>,
    envAcc: seq<u16>,
    envTune: seq<u16>,
    waves: seq<WaveTable>,
    envs: seq<EnvTable>,
    currentChannel: u8)
  {
    predicate Valid()
    {
      && |waveAcc| == |waveTune| == |waveAmp| == CHANNELS
      && |envAcc| == |envTune| == |waves| == |envs| == CHANNELS
    }

    /** The channel whose envelope the next interrupt advances: the cursor
     *  is reduced modulo 8 first and incremented afterwards. */
    function Processed(): (c: u8)
      ensures c < CHANNELS
    {
      currentChannel % CHANNELS
    }
  }

  /** Engine states with eight entries per array. */
  type Engine = e: EngineState | e.Valid()
    witness EngineState(seq(CHANNELS, _ => 0), seq(CHANNELS, _ => 0), seq(CHANNELS, _ => 0), seq(CHANNELS, _ => 0), seq(CHANNELS, _ => 0), seq(CHANNELS, _ => NoWave), seq(CHANNELS, _ => NoEnvelope), 0)

  /** `currentChannel %= 8` keeps a cursor below 8 and sends the 8 left by
   *  the previous interrupt's increment back to channel 0. */
  lemma ProcessedIsReducedCursor(e: Engine)
    ensures e.currentChannel < CHANNELS ==> e.Processed() == e.currentChannel
    ensures e.currentChannel == CHANNELS ==> e.Processed() == 0
  {
  }

  /** The out-of-range rule of setVoice and play: a channel number above 7
   *  selects channel 0 (it is not reduced modulo 8). */
  function Channel(i: u8): (c: u8)
    ensures c < CHANNELS
    ensures i < CHANNELS ==> c == i
    ensures i >= CHANNELS ==> c == 0
  {
    if i > 7 then 0 else i
  }

  /** Every channel number above 7 that is not a multiple of 8 selects a
   *  different channel than reduction modulo 8 would (9 selects 0, not 1). */
  lemma ChannelIsNotModulo(i: u8)
    requires i >= CHANNELS && i % CHANNELS != 0
    ensures Channel(i) != i % CHANNELS
  {
  }

  /** setEnv's switch: an unknown envelope id selects env4. */
  function EnvFor(id: u8): (e: EnvTable)
    ensures id <= 4 ==> e != NoEnvelope && EnvNumber(e) == id
    ensures id > 4 ==> e == Env4
  {
    EnvSelect(id, Env4)
  }

  /** The envelope-table index of the accumulator value just stored: its
   *  high byte (`/256`). It is inside the 128-entry table exactly when the
   *  value is below the sentinel. */
  function EnvIndex(acc: u16): (r: u8)
    ensures r < 128 <==> acc < Envelope.END
  {
    HighByte(acc)
  }

  /** On the turn a note crosses the sentinel the index passes the end of
   *  the table: from 0x7F00 with increment 0x200 the byte read is entry 129. */
  lemma EnvIndexOverrun()
    ensures Envelope.Advance(0x7F00, 0x200) == 0x8100
    ensures EnvIndex(Envelope.Advance(0x7F00, 0x200)) == 129
  {
  }

  /** One channel's envelope step: the new accumulator and amplitude. */
  function EnvelopeStep(acc: u16, tune: u16, table: seq<u8>): (r: (u16, u8))
    requires |table| == 0x100
    ensures r.0 == Envelope.Advance(acc, tune)
    ensures acc >= Envelope.END ==> r.1 == 0
    ensures acc < Envelope.END ==> r.1 == table[EnvIndex(r.0)]
  {
    if acc < Envelope.END then
      var next := Wrap16(acc as int + tune);
      (next, table[EnvIndex(next)])
    else
      (acc, 0)
  }

  /** The waveform sample each channel contributes: the entry at the high
   *  byte of its phase accumulator. */
  function Samples(e: Engine, t: Tables): (s: seq<i8>)
    ensures |s| == CHANNELS
  {
    seq(CHANNELS, k requires 0 <= k < CHANNELS => t.wave(e.waves[k])[HighByte(e.waveAcc[k])])
  }

  /** The sample of channel k is the waveform byte at the high byte of its
   *  phase accumulator; the low byte only carries the fraction. */
  lemma SampleAt(e: Engine, t: Tables, k: nat)
    requires k < CHANNELS
    ensures Samples(e, t)[k] == t.wave(e.waves[k])[e.waveAcc[k] / 0x100]
  {
  }

  /** The value the interrupt writes to OCR4A and OCR4B, computed from the
   *  state it leaves behind. */
  function Output(e: Engine, t: Tables): (r: int)
    ensures -129 <= r <= 379
  {
    Mixer.Output(Samples(e, t), e.waveAmp)
  }

  /** One timer interrupt (synth32u4.cpp:96-125): the envelope of the
   *  channel under the cursor, then the phase of all eight channels. */
  function Step(e: Engine, t: Tables): (r: Engine)
    ensures r.waveTune == e.waveTune && r.envTune == e.envTune
    ensures r.waves == e.waves && r.envs == e.envs
    ensures r.currentChannel == e.Processed() + 1
    ensures forall k :: 0 <= k < CHANNELS ==> r.waveAcc[k] == Wrap16(e.waveAcc[k] as int + e.waveTune[k])
    ensures forall k :: 0 <= k < CHANNELS && k != e.Processed() ==>
      r.envAcc[k] == e.envAcc[k] && r.waveAmp[k] == e.waveAmp[k]
    ensures var c := e.Processed();
      (r.envAcc[c], r.waveAmp[c]) == EnvelopeStep(e.envAcc[c], e.envTune[c], t.envelope(e.envs[c]))
  {
    var c := e.Processed();
    var (acc, amp) := EnvelopeStep(e.envAcc[c], e.envTune[c], t.envelope(e.envs[c]));
    e.(waveAcc := seq(CHANNELS, k requires 0 <= k < CHANNELS => Wrap16(e.waveAcc[k] as int + e.waveTune[k])),
       envAcc := e.envAcc[c := acc],
       waveAmp := e.waveAmp[c := amp],
       currentChannel := c + 1)
  }

  /** The interrupt as a function value, to be iterated. */
  function Interrupt(t: Tables): Engine -> Engine
  {
    (x: Engine) => Step(x, t)
  }

  /** `n` interrupts in a row, with no API call in between. */
  function StepN(e: Engine, t: Tables, n: nat): Engine
  {
    Iteration.Iterate(Interrupt(t), e, n)
  }

  lemma StepNSplit(e: Engine, t: Tables, a: nat, b: nat)
    ensures StepN(e, t, a + b) == StepN(StepN(e, t, a), t, b)
  {
    Iteration.IterateSplit(Interrupt(t), e, a, b);
  }

  lemma StepNLast(e: Engine, t: Tables, n: nat)
    ensures StepN(e, t, n + 1) == Step(StepN(e, t, n), t)
  {
  }

  /** The interrupt never writes the increments or the table selections. */
  lemma {:induction false} StepNKeepsVoices(e: Engine, t: Tables, n: nat)
    ensures var r := StepN(e, t, n);
      && r.waveTune == e.waveTune && r.envTune == e.envTune
      && r.waves == e.waves && r.envs == e.envs
    decreases n
  {
    if n > 0 {
      StepNKeepsVoices(e, t, n - 1);
      StepNLast(e, t, n - 1);
    }
  }

  /** The cursor visits the channels in round-robin order, one per tick. */
  lemma {:induction false} CursorAfter(e: Engine, t: Tables, n: nat)
    ensures StepN(e, t, n).Processed() == (e.Processed() + n) % CHANNELS
    decreases n
  {
    if n > 0 {
      var p := StepN(e, t, n - 1).Processed();
      assert p == (e.Processed() + n - 1) % CHANNELS by {
        CursorAfter(e, t, n - 1);
      }
      var q := StepN(e, t, n).Processed();
      assert q == (p + 1) % CHANNELS by {
        CursorStep(e, t, n);
      }
      RoundRobinSucc(e.Processed() + n - 1, p, q);
    }
  }

  lemma CursorStep(e: Engine, t: Tables, n: nat)
    requires 0 < n
    ensures StepN(e, t, n).Processed() == (StepN(e, t, n - 1).Processed() + 1) % CHANNELS
  {
    StepNLast(e, t, n - 1);
  }

  /** Every phase accumulator advances by its increment on every tick,
   *  modulo 2^16. */
  lemma {:induction false} PhaseAfter(e: Engine, t: Tables, n: nat, k: nat)
    requires k < CHANNELS
    ensures StepN(e, t, n).waveAcc[k] == Wrap16(e.waveAcc[k] as int + n * e.waveTune[k])
    decreases n
  {
    if n > 0 {
      var x := e.waveAcc[k] as int + (n - 1) * e.waveTune[k];
      var a := StepN(e, t, n - 1).waveAcc[k];
      assert a == Wrap16(x) by {
        PhaseAfter(e, t, n - 1, k);
      }
      assert StepN(e, t, n).waveAcc[k] == Wrap16(a as int + e.waveTune[k]) by {
        PhaseStep(e, t, n, k);
      }
      assert Wrap16(a as int + e.waveTune[k]) == Wrap16(x + e.waveTune[k]) by {
        Wrap16Add(x, e.waveTune[k]);
      }
      MulSucc(n - 1, e.waveTune[k]);
    }
  }

  lemma PhaseStep(e: Engine, t: Tables, n: nat, k: nat)
    requires 0 < n && k < CHANNELS
    ensures StepN(e, t, n).waveAcc[k] == Wrap16(StepN(e, t, n - 1).waveAcc[k] as int + e.waveTune[k])
  {
    StepNLast(e, t, n - 1);
    StepNKeepsVoices(e, t, n - 1);
  }

  /** With increment 256 (one table entry per tick) the waveform index
   *  runs through all 256 entries in order. */
  lemma {:induction false} PhaseCycle(e: Engine, t: Tables, n: nat, k: nat)
    requires k < CHANNELS && e.waveTune[k] == 0x100
    ensures HighByte(StepN(e, t, n).waveAcc[k]) == (HighByte(e.waveAcc[k]) + n) % 0x100
    decreases n
  {
    if n > 0 {
      var h := HighByte(e.waveAcc[k]) + n - 1;
      var a := StepN(e, t, n - 1).waveAcc[k];
      assert HighByte(a) == h % 0x100 by {
        PhaseCycle(e, t, n - 1, k);
      }
      var b := StepN(e, t, n).waveAcc[k];
      assert b == Wrap16(a as int + 0x100) by {
        PhaseStep(e, t, n, k);
      }
      HighByteCycle(a, b, h);
    }
  }

  /** ... and the accumulator is back where it started after 256 ticks. */
  lemma PhaseReturns(e: Engine, t: Tables, k: nat, n: nat)
    requires k < CHANNELS && e.waveTune[k] == 0x100
    requires n == 0x100
    ensures StepN(e, t, n).waveAcc[k] == e.waveAcc[k]
  {
    PhaseAfter(e, t, n, k);
    assert n * e.waveTune[k] == 0x1_0000;
  }

  /** The number of ticks before the cursor reaches channel `k`. */
  function Wait(e: Engine, k: nat): (j: nat)
    requires k < CHANNELS
    ensures j < CHANNELS
    ensures (e.Processed() + j) % CHANNELS == k
  {
    (k - e.Processed()) % CHANNELS
  }

  /** Channel k's accumulator and amplitude after n <= 8 ticks: untouched
   *  until the cursor reaches it, stepped exactly once from then on. */
  function ChannelAfter(e: Engine, t: Tables, k: nat, n: nat): (u16, u8)
    requires k < CHANNELS
  {
    if n <= Wait(e, k) then (e.envAcc[k], e.waveAmp[k])
    else EnvelopeStep(e.envAcc[k], e.envTune[k], t.envelope(e.envs[k]))
  }

  lemma {:induction false} EnvelopeTurn(e: Engine, t: Tables, k: nat, n: nat)
    requires k < CHANNELS && n <= CHANNELS
    ensures (StepN(e, t, n).envAcc[k], StepN(e, t, n).waveAmp[k]) == ChannelAfter(e, t, k, n)
    decreases n
  {
    if n > 0 {
      EnvelopeTurn(e, t, k, n - 1);
      TurnStep(e, t, k, n - 1);
    }
  }

  lemma TurnStep(e: Engine, t: Tables, k: nat, m: nat)
    requires k < CHANNELS && m < CHANNELS
    requires (StepN(e, t, m).envAcc[k], StepN(e, t, m).waveAmp[k]) == ChannelAfter(e, t, k, m)
    ensures (StepN(e, t, m + 1).envAcc[k], StepN(e, t, m + 1).waveAmp[k]) == ChannelAfter(e, t, k, m + 1)
  {
    var s := StepN(e, t, m);
    var w := Wait(e, k);
    assert s.Processed() == k <==> m == w by {
      CursorAfter(e, t, m);
      RoundRobinHit(e.Processed(), k, m);
    }
    assert s.envTune == e.envTune && s.envs == e.envs by {
      StepNKeepsVoices(e, t, m);
    }
    assert (StepN(e, t, m + 1).envAcc[k], StepN(e, t, m + 1).waveAmp[k]) == (Step(s, t).envAcc[k], Step(s, t).waveAmp[k]) by {
      StepNLast(e, t, m);
    }
    ChannelStep(s, t, k);
  }

  /** One interrupt changes channel k's envelope only when the cursor
   *  reaches it. */
  lemma ChannelStep(s: Engine, t: Tables, k: nat)
    requires k < CHANNELS
    ensures var r := Step(s, t);
      (r.envAcc[k], r.waveAmp[k]) == if s.Processed() == k then EnvelopeStep(s.envAcc[k], s.envTune[k], t.envelope(s.envs[k])) else (s.envAcc[k], s.waveAmp[k])
  {
  }

  /** Eight ticks advance every channel's envelope exactly once. */
  lemma EightTicks(e: Engine, t: Tables, k: nat, n: nat)
    requires k < CHANNELS && n == CHANNELS
    ensures var r := StepN(e, t, n);
      (r.envAcc[k], r.waveAmp[k]) == EnvelopeStep(e.envAcc[k], e.envTune[k], t.envelope(e.envs[k]))
  {
    EnvelopeTurn(e, t, k, n);
  }

  /** A finished channel (accumulator at or past 0x8000) is silent within
   *  eight ticks and its accumulator is never changed by the interrupt. */
  lemma SilentWithinEightTicks(e: Engine, t: Tables, k: nat, n: nat)
    requires k < CHANNELS && n == CHANNELS
    requires e.envAcc[k] >= Envelope.END
    ensures StepN(e, t, n).envAcc[k] == e.envAcc[k]
    ensures StepN(e, t, n).waveAmp[k] == 0
  {
    EightTicks(e, t, k, n);
  }

  /** The finished, silent state is absorbing under ticks. */
  lemma {:induction false} FinishedIsAbsorbing(e: Engine, t: Tables, k: nat, n: nat)
    requires k < CHANNELS
    requires e.envAcc[k] >= Envelope.END && e.waveAmp[k] == 0
    ensures StepN(e, t, n).envAcc[k] == e.envAcc[k]
    ensures StepN(e, t, n).waveAmp[k] == 0
    decreases n
  {
    if n > 0 {
      FinishedIsAbsorbing(e, t, k, n - 1);
      StepNLast(e, t, n - 1);
    }
  }

  lemma NextTurn(e: Engine, t: Tables, k: nat, before: nat, n: nat)
    requires k < CHANNELS && n == CHANNELS
    ensures StepN(e, t, before + n).envAcc[k]
         == Envelope.Advance(StepN(e, t, before).envAcc[k], e.envTune[k])
  {
    StepNSplit(e, t, before, n);
    EightTicks(StepN(e, t, before), t, k, n);
    StepNKeepsVoices(e, t, before);
  }

  /** After 8m ticks a channel's envelope has taken exactly m turns. */
  lemma {:induction false} EnvelopeAfterTurns(e: Engine, t: Tables, k: nat, m: nat)
    requires k < CHANNELS
    ensures StepN(e, t, CHANNELS * m).envAcc[k] == Envelope.AdvanceN(e.envAcc[k], e.envTune[k], m)
    decreases m
  {
    if m > 0 {
      EnvelopeAfterTurns(e, t, k, m - 1);
      var before := CHANNELS * (m - 1);
      NextTurn(e, t, k, before, CHANNELS);
      assert before + CHANNELS == CHANNELS * m;
    }
  }

  /** A note started by play (accumulator 0) with a nonzero length
   *  increment sounds for Turns(tune) envelope turns, i.e. 8 * Turns(tune)
   *  ticks, and is finished after them. */
  lemma NoteLasts(e: Engine, t: Tables, k: nat, m: nat)
    requires k < CHANNELS
    requires e.envAcc[k] == 0 && e.envTune[k] > 0
    ensures m < Envelope.Turns(e.envTune[k]) ==> StepN(e, t, CHANNELS * m).envAcc[k] < Envelope.END
    ensures StepN(e, t, CHANNELS * Envelope.Turns(e.envTune[k])).envAcc[k] >= Envelope.END
  {
    Envelope.NoteEnds(e.envTune[k]);
    EnvelopeAfterTurns(e, t, k, m);
    EnvelopeAfterTurns(e, t, k, Envelope.Turns(e.envTune[k]));
  }

  /** The globals of synth32u4.cpp, as one object. */
  class Synth {
    const tables: Tables
    const waveAcc: array<u16>
    const waveTune: array<u16>
    const waveAmp: array<u8>
    const envAcc: array<u16>
    const envTune: array<u16>
    const waves: array<WaveTable>
    const envs: array<EnvTable>
    /** `char` in the source: the pitch is stored signed. */
    const pitchs: array<i8>
    const lengths: array<u8>
    var lastPlay: u8
    var currentChannel: u8
    /** The OCIE1A bit of TIMSK1: whether the timer interrupt runs Tick. */
    var running: bool

    ghost predicate Valid()
      reads this
    {
      && waveAcc.Length == waveTune.Length == waveAmp.Length == CHANNELS
      && envAcc.Length == envTune.Length == waves.Length == envs.Length == CHANNELS
      && pitchs.Length == lengths.Length == CHANNELS
      && waveAcc != waveTune && waveAcc != envAcc && waveAcc != envTune
      && waveTune != envAcc && waveTune != envTune && envAcc != envTune
      && waveAmp != lengths
      && lastPlay < CHANNELS
    }

    /** The engine state the interrupt works on. */
    ghost function Snapshot(): (e: Engine)
      reads this, waveAcc, waveTune, waveAmp, envAcc, envTune, waves, envs
      requires Valid()
    {
      EngineState(waveAcc[..], waveTune[..], waveAmp[..], envAcc[..], envTune[..], waves[..], envs[..], currentChannel)
    }

    /** The initial values of the globals: every envelope accumulator at
     *  the sentinel, so all channels are silent; no table selected yet. */
    constructor (t: Tables)
      ensures Valid() && tables == t
      ensures fresh(waveAcc) && fresh(waveTune) && fresh(waveAmp) && fresh(envAcc) && fresh(envTune)
      ensures fresh(waves) && fresh(envs) && fresh(pitchs) && fresh(lengths)
      ensures lastPlay == 0 && currentChannel == 0 && !running
      ensures forall k :: 0 <= k < CHANNELS ==>
        && waveAcc[k] == 0 && waveTune[k] == 0 && waveAmp[k] == 0
        && envAcc[k] == Envelope.END && envTune[k] == 0
        && waves[k] == NoWave && envs[k] == NoEnvelope && lengths[k] == 0
      ensures pitchs[..] == [69, 0, 0, 0, 0, 0, 0, 0]
    {
      tables := t;
      waveAcc := new u16[CHANNELS](_ => 0);
      waveTune := new u16[CHANNELS](_ => 0);
      waveAmp := new u8[CHANNELS](_ => 0);
      envAcc := new u16[CHANNELS](_ => Envelope.END);
      envTune := new u16[CHANNELS](_ => 0);
      waves := new WaveTable[CHANNELS](_ => NoWave);
      envs := new EnvTable[CHANNELS](_ => NoEnvelope);
      pitchs := new i8[CHANNELS](k => if k == 0 then 69 else 0);
      lengths := new u8[CHANNELS](_ => 0);
      lastPlay, currentChannel, running := 0, 0, false;
      new;
      assert pitchs[..] == [69, 0, 0, 0, 0, 0, 0, 0];
    }

    /** What begin leaves in the modelled state: the compare-match interrupt
     *  is enabled. */
    method Begin()
      modifies this`running
      ensures running
    {
      running := true;
    }

    /** The timer interrupt: returns the value written to the PWM
     *  registers. */
    method Tick() returns (out: int)
      requires Valid()
      modifies this`currentChannel, waveAcc, waveAmp, envAcc
      ensures Valid()
      ensures Snapshot() == Step(old(Snapshot()), tables)
      ensures out == Output(Snapshot(), tables)
    {
      ghost var next := Step(Snapshot(), tables);
      currentChannel := currentChannel % CHANNELS;
      AdvanceEnvelope();
      out := MixChannels();
      currentChannel := currentChannel + 1;
      assert waveAcc[..] == next.waveAcc;
    }

    /** The envelope step of the channel under the cursor
     *  (synth32u4.cpp:106-110). */
    method AdvanceEnvelope()
      requires Valid() && currentChannel < CHANNELS
      modifies envAcc, waveAmp
      ensures Valid()
      ensures var c := currentChannel;
        && envAcc[..] == old(envAcc[..])[c := EnvelopeStep(old(envAcc[c]), envTune[c], tables.envelope(envs[c])).0]
        && waveAmp[..] == old(waveAmp[..])[c := EnvelopeStep(old(envAcc[c]), envTune[c], tables.envelope(envs[c])).1]
    {
      var c := currentChannel;
      if envAcc[c] < Envelope.END {
        envAcc[c] := Wrap16(envAcc[c] as int + envTune[c]);
        waveAmp[c] := tables.envelope(envs[c])[EnvIndex(envAcc[c])];
      } else {
        waveAmp[c] := 0;
      }
    }

    /** The eight phase steps and the mix (synth32u4.cpp:112-122); the
     *  source writes the eight terms out, here they are a loop over k. */
    method MixChannels() returns (out: int)
      requires Valid()
      modifies waveAcc
      ensures Valid()
      ensures forall k :: 0 <= k < CHANNELS ==> waveAcc[k] == Wrap16(old(waveAcc[k]) as int + waveTune[k])
      ensures out == Output(Snapshot(), tables)
    {
      ghost var acc, tune, ws := waveAcc[..], waveTune[..], waves[..];
      ghost var final := seq(CHANNELS, k requires 0 <= k < CHANNELS => Wrap16(acc[k] as int + tune[k]));
      ghost var samples := seq(CHANNELS, k requires 0 <= k < CHANNELS => tables.wave(ws[k])[HighByte(final[k])]);
      var sum := 0;
      for k := 0 to CHANNELS
        invariant forall j :: 0 <= j < k ==> waveAcc[j] == final[j]
        invariant forall j :: k <= j < CHANNELS ==> waveAcc[j] == old(waveAcc[j])
        invariant sum == Mixer.MixSum(samples[..k], waveAmp[..k])
      {
        waveAcc[k] := Wrap16(waveAcc[k] as int + waveTune[k]);
        sum := sum + Mixer.Scaled(tables.wave(waves[k])[HighByte(waveAcc[k])], waveAmp[k]);
        assert samples[..k + 1][..k] == samples[..k];
        assert waveAmp[..k + 1][..k] == waveAmp[..k];
      }
      assert samples[..CHANNELS] == samples;
      assert waveAmp[..CHANNELS] == waveAmp[..];
      assert Samples(Snapshot(), tables) == samples;
      out := Mixer.BIAS + CDiv(sum, 4);
    }

    /** setVoice: configures channel Channel(i); the accumulators, and so
     *  whatever the channel is playing, are left alone. */
    method SetVoice(i: u8, wave: u8, pitch: u8, env: u8, length: u8)
      requires Valid()
      requires pitch < |tables.pitchInc| && length < |tables.lengthInc|
      modifies waves, waveTune, pitchs, envs, envTune, lengths
      ensures Valid()
      ensures var c := Channel(i);
        && waves[..] == old(waves[..])[c := WaveFor(wave)]
        && waveTune[..] == old(waveTune[..])[c := tables.pitchInc[pitch]]
        && pitchs[..] == old(pitchs[..])[c := pitch]
        && envs[..] == old(envs[..])[c := EnvFor(env)]
        && envTune[..] == old(envTune[..])[c := tables.lengthInc[length]]
        && lengths[..] == old(lengths[..])[c := length]
      ensures waveAcc[..] == old(waveAcc[..]) && envAcc[..] == old(envAcc[..])
      ensures waveAmp[..] == old(waveAmp[..])
    {
      var ch := i;
      if ch > 7 {
        ch := 0;
      }
      SetWave(ch, wave);
      SetPitch(ch, pitch);
      SetEnv(ch, env);
      SetLength(ch, length);
    }

    method SetWave(i: u8, wave: u8)
      requires Valid() && i < CHANNELS
      modifies waves
      ensures Valid()
      ensures waves[..] == old(waves[..])[i := WaveFor(wave)]
    {
      if wave == TRI {
        waves[i] := Tri;
      } else if wave == SQUARE {
        waves[i] := Square;
      } else if wave == SAW {
        waves[i] := Saw;
      } else if wave == NOISE {
        waves[i] := Noise;
      } else {
        waves[i] := Sin;
      }
    }

    method SetPitch(i: u8, pitch: u8)
      requires Valid() && i < CHANNELS && pitch < |tables.pitchInc|
      modifies pitchs, waveTune
      ensures Valid()
      ensures pitchs[..] == old(pitchs[..])[i := pitch]
      ensures waveTune[..] == old(waveTune[..])[i := tables.pitchInc[pitch]]
    {
      pitchs[i] := pitch;
      waveTune[i] := tables.pitchInc[pitch];
    }

    method SetEnv(i: u8, env: u8)
      requires Valid() && i < CHANNELS
      modifies envs
      ensures Valid()
      ensures envs[..] == old(envs[..])[i := EnvFor(env)]
    {
      if env == 0 {
        envs[i] := Env1;
      } else if env == 1 {
        envs[i] := Env2;
      } else if env == 2 {
        envs[i] := Env3;
      } else if env == 3 {
        envs[i] := Env4;
      } else if env == 4 {
        envs[i] := Env5;
      } else {
        envs[i] := Env4;
      }
    }

    method SetLength(i: u8, length: u8)
      requires Valid() && i < CHANNELS && length < |tables.lengthInc|
      modifies lengths, envTune
      ensures Valid()
      ensures lengths[..] == old(lengths[..])[i := length]
      ensures envTune[..] == old(envTune[..])[i := tables.lengthInc[length]]
    {
      lengths[i] := length;
      envTune[i] := tables.lengthInc[length];
    }

    /** play: restarts the envelope of channel Channel(i) and records it as
     *  the last channel played. The phase accumulator is kept. */
    method Play(i: u8)
      requires Valid()
      modifies this`lastPlay, envAcc
      ensures Valid()
      ensures lastPlay == Channel(i)
      ensures envAcc[..] == old(envAcc[..])[Channel(i) := 0]
      ensures waveAcc[..] == old(waveAcc[..])
    {
      var ch := i;
      if ch > 7 {
        ch := 0;
      }
      lastPlay := ch;
      envAcc[ch] := 0;
    }

    /** getNextPlay: the channel after the last one played, round-robin. */
    function GetNextPlay(): (r: u8)
      reads this
      ensures r < CHANNELS
      ensures lastPlay < CHANNELS ==> r == (lastPlay + 1) % CHANNELS
    {
      if lastPlay > 6 then 0 else lastPlay + 1
    }

    /** getNextChannel: the loop of synth32u4.cpp:309-320. */
    method GetNextChannel() returns (r: u8)
      requires Valid()
      ensures r == Allocator.NextChannel(envAcc[..], waveAmp[..])
      ensures r < CHANNELS
      ensures r != 0 ==> envAcc[r] > Envelope.HALF
      ensures (forall k :: 0 <= k < CHANNELS ==> envAcc[k] <= Envelope.HALF) ==> r == 0
      ensures (exists k :: 0 <= k < CHANNELS && envAcc[k] > Envelope.HALF && waveAmp[k] < 255) ==> envAcc[r] > Envelope.HALF
    {
      var nextChannel: u8 := 0;
      var lastWaveAmp: u8 := 255;
      for i := 0 to CHANNELS
        invariant (nextChannel, lastWaveAmp) == Allocator.Scan(envAcc[..], waveAmp[..], i)
      {
        if envAcc[i] > Envelope.HALF && waveAmp[i] < lastWaveAmp {
          lastWaveAmp := LowByte(envAcc[i]);
          nextChannel := i;
        }
      }
      r := nextChannel;
    }

    /** pause: toggles the interrupt; true when processing is now stopped.
     *  Nothing else changes, so a second call resumes the same notes. */
    method Pause() returns (stopped: bool)
      modifies this`running
      ensures running == !old(running)
      ensures stopped == !running
    {
      if running {
        running := false;
        stopped := true;
      } else {
        running := true;
        stopped := false;
      }
    }
  }

  /** Pausing twice restores the interrupt enable and reports both states. */
  method PauseTwice(s: Synth) returns (first: bool, second: bool)
    modifies s`running
    ensures s.running == old(s.running)
    ensures first == old(s.running) && second == !first
  {
    first := s.Pause();
    second := s.Pause();
  }

  /** A freshly constructed synthesiser that plays channel 3 proposes
   *  channel 4 as the next one to play. */
  method PlayThenNextPlay(t: Tables) returns (next: u8)
    ensures next == 4
  {
    var s := new Synth(t);
    s.Play(3);
    next := s.GetNextPlay();
  }
}
