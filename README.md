# the_synth in Dafny

A model of the two copies of the eight-voice wavetable synthesiser in
badgeek/the_synth, with proofs about it:

- the 32u4 driver, `the_synth/synth32u4/synth32u4.cpp` (module `Synth32u4`, class `Synth`);
- the SoundMachine driver, `soundmachine.cpp` (module `SoundMachine`, class `SoundMachine`).
  It adds a MIDI-tick and beat transport to the same interrupt.

Each channel has:

- a 16-bit phase accumulator and its increment, `waveAcc` and `waveTune`;
- a 16-bit envelope accumulator and its increment, `envAcc` and `envTune`;
- an 8-bit amplitude, `waveAmp`;
- the waveform and envelope tables it reads;
- the pitch and length it was configured with.

The timer interrupt does three things. It advances the envelope of one channel, chosen round-robin by a cursor. It advances all eight phase accumulators. It writes `127 + (Σ (sample·amp) >> 8) / 4` to the PWM register. A note has ended once its envelope accumulator reaches the sentinel 0x8000, which is 128 table entries times 256 fixed-point units.

## How the program is modelled

**The classes**
- Each variant is a class. The per-channel arrays are `array` fields and the scalar globals are `var` fields.
- The interrupt is a `Tick()` method. `Tick` does not require `running`: while `running` is false the timer interrupt does not fire, and a caller of the model does not call `Tick` then.
- The API functions are methods that change the fields their `modifies` clauses name.

**The specification functions**
- The interrupt's effect on the channel arrays is `Step` on an immutable `EngineState`.
- `Tick` is proved to perform `Step` on a snapshot of the arrays, and to return `Output` of the resulting state.
- Many interrupts in a row are `StepN`, which iterates `Step`.
- The lemmas about `StepN` state what the source promises over time:
  - the cursor goes round-robin;
  - phases advance by their increments modulo 2^16;
  - envelopes turn once every eight interrupts;
  - a finished note stays silent;
  - a note lasts `Turns(tune)` envelope turns.

**Shared modules**
- Code written the same way in both variants is modelled once:
  - `Envelope`: the accumulator advance and note length;
  - `Mixer`: one channel's term, the sum, the output range;
  - `Allocator`: getNextChannel's scan;
  - `Voice`: waveform and envelope selection;
  - `Bits`: 8/16-bit wrap-around, the high and low byte, `& 7`, bit 15, C's truncating `/`.
- `Iteration` is the generic n-fold application used for `StepN` and for the transport's `TransportN`.
- The lemmas about `StepN` (`CursorAfter`, `PhaseAfter`, `EightTicks`, `NoteLasts`, …) appear in both variant modules with the same statements. Each variant has its own `Step`, because the cursor rule, the envelope index and the envelope table length differ, and each set of lemmas is proved against its own `Step`.

**Integers, tables and registers**
- AVR `unsigned int` is 16 bits. Every `+=` on an accumulator is written as `Wrap16`.
- SoundMachine's `unsigned char` cursor and `bpmCount` wrap with `Wrap8`. The 32u4 cursor needs no wrap: it is reduced modulo 8 before each increment, so it never exceeds 8.
- The flash tables are a `TableSet` value with fixed-length sequences, plus the `WaveTable` and `EnvTable` enumerations in place of the table addresses.
- The TIMSK1 OCIE1A interrupt-enable bit is the boolean field `running`.

**Where the two variants differ, the model keeps both behaviours**
- Out-of-range channel numbers: 32u4 sends them to channel 0 (`Synth32u4.Channel`). SoundMachine keeps `i & 7`.
- `play`: 32u4 resets only `envAcc`. SoundMachine resets `waveAcc` and `envAcc`.
- Envelope index: `/256` in 32u4, `/1024` in SoundMachine.
- Unknown envelope id: selects env4 in 32u4 and env1 in SoundMachine.
- Cursor: 32u4 reduces it modulo 8, uses it, then increments it. SoundMachine increments it, masks it with `& 7`, then uses it.

**Behaviours of the code stated as written**
- SoundMachine's `stop(i)` writes 0x8000 into `waveAcc[i]`, not into `envAcc[i]`. The envelope goes on and the note keeps sounding: `StopKeepsSounding`.
- The two clamps in `setBpm` assign `bpm`, and the next statement overwrites it, so any argument is stored as given (`SetBpm`, `SetBpmThenGetBpm`). The tempo word is then read at `tickBPM + (bpm - 20)`.
  - For 20..239 that word is inside the table.
  - For any other argument it is some other flash word, modelled by `TableSet.nearTempo` and `TempoWord`.
- getNextChannel sets its threshold `lastWaveAmp` to the low byte of the chosen channel's `envAcc`, not to its amplitude (`Allocator.ThresholdIsLowByteOfAccumulator`). So a quieter eligible channel later in the scan can lose.
- SoundMachine's four-argument `play` starts channel `(lastPlay + 1) & 7` but returns `lastPlay + 1` unmasked: 8 after channel 7 (`PlayNote`).
- In 32u4, the envelope read on the turn a note crosses 0x8000 is at index `newAcc / 256`, which can be 128..255. That is past the 128-entry table (`EnvIndexOverrun`).
  - The model gives each envelope as the 256 flash bytes starting at the table, so the read is defined.
  - What those extra bytes hold is not modelled.
- In SoundMachine, `/1024` keeps every envelope index below 64, inside the 128-entry table. It is below 32 exactly while the accumulator is below 0x8000 (`SoundMachine.EnvIndex`). So a sounding note reads the first quarter of its table, except on the turn that crosses 0x8000: that turn reads one entry from 32..63, and the channel plays at that amplitude until its next envelope turn silences it, 8 interrupts later (`EnvIndexCrossing`).
- In SoundMachine the globals start with every `envAcc` at 0, not 0x8000; only `begin` silences the channels. The cursor starts at 8, so the first channel processed is 1 (`FirstChannelIsOne`).

## Model

| member | source | states |
|---|---|---|
| Bits.Wrap16 | the_synth/synth32u4/synth32u4.cpp:58-63 | the result is the 16-bit `unsigned int` congruent to the input mod 2^16; identity on 0..65535, minus 65536 on 65536..131071 |
| Bits.Wrap8 | soundmachine.cpp:4-6 | the `unsigned char` value of a sum: identity below 256, minus 256 on 256..511 |
| Bits.HighByte | the_synth/synth32u4/synth32u4.cpp:114 | the byte at address +1 of a little-endian word is its quotient by 256: HighByte·256 ≤ x < HighByte·256 + 256 |
| Bits.LowByte | the_synth/synth32u4/synth32u4.cpp:315 | the `byte` a 16-bit value is truncated to on assignment: HighByte·256 + LowByte rebuilds the word |
| Bits.Mask7 | soundmachine.cpp:51-52 | `& 0x07` on a byte: the result is below 8, equals a value below 8, and is congruent to the input mod 8 |
| Bits.Mask7IsBitAnd | soundmachine.cpp:52 | `& 0x07` on a byte equals Mask7, the value modulo 8 |
| Bits.Bit15Clear | soundmachine.cpp:57 | the bit-15 test of the envelope guard holds exactly when the word's high byte is below 0x80 |
| Bits.Bit15ClearIsBitTest | soundmachine.cpp:57 | `!(w & 0x8000)` holds exactly when the word is below 0x8000 |
| Bits.CDiv | the_synth/synth32u4/synth32u4.cpp:112-122 | C's `/` truncates toward zero: quotient and remainder bounds for both signs of the dividend |
| Bits.CDivIsNotEuclidean | the_synth/synth32u4/synth32u4.cpp:122 | for every negative sum that is not a multiple of 4, C's `/4` is one above Dafny's Euclidean quotient (-1 / 4 is 0, not -1) |
| Voice.WaveFor | the_synth/synth32u4/synth32u4.cpp:212-231 | setWave's switch: selectors 0..4 pick the table with that id, anything else picks sine |
| Voice.WaveForWaveId | soundmachine.cpp:195-214 | every waveform table is reached by its own selector value |
| Voice.EnvSelect | the_synth/synth32u4/synth32u4.cpp:246-268 | setEnv's switch: ids 0..4 pick env1..env5 by number, any other id picks the variant's fallback |
| Envelope.Advance | the_synth/synth32u4/synth32u4.cpp:106-107 | below the sentinel the accumulator gains the increment mod 2^16 (exactly, when the increment is at most 0x8000); at or past it, it is unchanged |
| Envelope.Turns | the_synth/synth32u4/synth32u4.cpp:106-107 | the least n with n·tune ≥ 0x8000 |
| Envelope.AdvanceN | the_synth/synth32u4/synth32u4.cpp:106-110 | n envelope turns; a finished accumulator stays finished under any number of turns |
| Envelope.BeforeEnd | the_synth/synth32u4/synth32u4.cpp:106-107 | from 0, fewer than Turns(tune) turns leave the accumulator at m·tune, below the sentinel |
| Envelope.NoteEnds | the_synth/synth32u4/synth32u4.cpp:106-110 | a note started at 0 is below the sentinel for exactly Turns(tune) turns and at or past it afterwards, without wrapping |
| Envelope.SixteenTurns | soundmachine.cpp:57-58 | an envelope increment of 2048 ends a note after 16 turns |
| Mixer.Scaled | the_synth/synth32u4/synth32u4.cpp:114 | `(sample·amp) >> 8` on a 16-bit int is floor division by 256; the product fits 16 bits and the term lies in -128..126 |
| Mixer.MixSum | the_synth/synth32u4/synth32u4.cpp:113-121 | the sum of n channel terms lies in -128n..126n |
| Mixer.Output | the_synth/synth32u4/synth32u4.cpp:112-122 | `127 + sum / 4` lies in -129..379 before the register keeps its low byte |
| Mixer.OutputRangeIsTight | soundmachine.cpp:65-79 | both ends of that range are reached by full-scale samples at full amplitude |
| Mixer.ConstantMix | the_synth/synth32u4/synth32u4.cpp:113-121 | n equal channels sum to n times one term |
| Mixer.MixOfSilence | the_synth/synth32u4/synth32u4.cpp:113-122 | silent channels contribute nothing to the sum |
| Allocator.Scan | the_synth/synth32u4/synth32u4.cpp:311-318 | the running pair is (0, 255) or names a scanned channel past half whose accumulator's low byte is the threshold; (0, 255) when no scanned channel is past half with amplitude below 255; and when some scanned channel is, a past-half channel is chosen |
| Allocator.NextChannel | soundmachine.cpp:308-319 | the result is below 8; a nonzero result is past half; no channel past half gives 0; when some channel is past half with amplitude below 255, the result is a channel past half |
| Allocator.ThresholdIsLowByteOfAccumulator | the_synth/synth32u4/synth32u4.cpp:314-316 | two states showing that the threshold is the low byte of envAcc, so the quieter eligible channel can lose |
| Allocator.DefaultIsChannelZero | soundmachine.cpp:310-318 | with no channel past half, channel 0 is returned even while it sounds at full amplitude |
| Synth32u4.EngineState.Processed | the_synth/synth32u4/synth32u4.cpp:103-124 | the channel the next interrupt processes, the cursor reduced mod 8, is always below 8 |
| Synth32u4.ProcessedIsReducedCursor | the_synth/synth32u4/synth32u4.cpp:103 | a cursor below 8 is processed as itself, and the cursor 8 left by the previous increment as channel 0 |
| Synth32u4.Channel | the_synth/synth32u4/synth32u4.cpp:201 | channels 0..7 are kept, every larger number selects channel 0 |
| Synth32u4.ChannelIsNotModulo | the_synth/synth32u4/synth32u4.cpp:285 | every channel number above 7 that is not a multiple of 8 selects another channel than reduction mod 8 would (9 selects 0, not 1) |
| Synth32u4.EnvFor | the_synth/synth32u4/synth32u4.cpp:264-265 | an unknown envelope id selects env4 |
| Synth32u4.EnvIndex | the_synth/synth32u4/synth32u4.cpp:107 | the `/256` index is inside the 128-entry table exactly when the accumulator is below 0x8000 |
| Synth32u4.EnvIndexOverrun | the_synth/synth32u4/synth32u4.cpp:107 | from 0x7F00 with increment 0x200 the byte read is entry 129 |
| Synth32u4.EnvelopeStep | the_synth/synth32u4/synth32u4.cpp:106-110 | the new accumulator is Envelope.Advance; the amplitude is 0 for a finished note, else the envelope byte at the new index |
| Synth32u4.Samples | the_synth/synth32u4/synth32u4.cpp:114-121 | the eight samples the mix reads, one per channel |
| Synth32u4.SampleAt | the_synth/synth32u4/synth32u4.cpp:114-121 | each channel's sample is the byte of its waveform at the high byte of its phase accumulator (`waveAcc / 256`) |
| Synth32u4.Output | the_synth/synth32u4/synth32u4.cpp:112-122 | the value written to OCR4A/OCR4B from a state lies in -129..379 |
| Synth32u4.Step | the_synth/synth32u4/synth32u4.cpp:96-125 | one interrupt changes only the channel under the cursor's envelope and amplitude, adds every increment to its phase mod 2^16, keeps the voices and moves the cursor to the processed channel + 1 |
| Synth32u4.StepNSplit | the_synth/synth32u4/synth32u4.cpp:96-125 | a + b interrupts in a row are a interrupts followed by b more |
| Synth32u4.StepNLast | the_synth/synth32u4/synth32u4.cpp:96-125 | n + 1 interrupts are n interrupts followed by one Step |
| Synth32u4.StepNKeepsVoices | the_synth/synth32u4/synth32u4.cpp:96-125 | no number of interrupts changes the increments or the table selections |
| Synth32u4.CursorAfter | the_synth/synth32u4/synth32u4.cpp:103-124 | after n interrupts the cursor is n channels further round-robin |
| Synth32u4.PhaseAfter | the_synth/synth32u4/synth32u4.cpp:114-121 | after n interrupts each phase accumulator has gained n times its increment mod 2^16 |
| Synth32u4.PhaseCycle | the_synth/synth32u4/synth32u4.cpp:114-121 | with increment 256 the waveform index runs through all 256 entries one per interrupt |
| Synth32u4.PhaseReturns | the_synth/synth32u4/synth32u4.cpp:114-121 | with increment 256 the accumulator is back after 256 interrupts |
| Synth32u4.Wait | the_synth/synth32u4/synth32u4.cpp:103-124 | the number of interrupts below 8 before the cursor reaches channel k |
| Synth32u4.EnvelopeTurn | the_synth/synth32u4/synth32u4.cpp:103-110 | within 8 interrupts, channel k's envelope is untouched until the cursor reaches it and stepped once after |
| Synth32u4.ChannelStep | the_synth/synth32u4/synth32u4.cpp:106-110 | one interrupt changes channel k's envelope and amplitude only when the cursor is at k |
| Synth32u4.EightTicks | the_synth/synth32u4/synth32u4.cpp:103-124 | every 8 interrupts every channel's envelope steps exactly once |
| Synth32u4.SilentWithinEightTicks | the_synth/synth32u4/synth32u4.cpp:108-110 | a finished channel is silent within 8 interrupts and its accumulator does not move |
| Synth32u4.FinishedIsAbsorbing | the_synth/synth32u4/synth32u4.cpp:106-110 | finished and silent stays finished and silent under any number of interrupts |
| Synth32u4.EnvelopeAfterTurns | the_synth/synth32u4/synth32u4.cpp:103-124 | after 8m interrupts channel k's accumulator has taken exactly m Envelope.Advance turns |
| Synth32u4.NoteLasts | the_synth/synth32u4/synth32u4.cpp:283-289 | a channel played with a nonzero length increment sounds for 8·Turns(tune) interrupts and is finished after them |
| Synth32u4.Synth.constructor | the_synth/synth32u4/synth32u4.cpp:58-72 | the initial globals: every envelope at the sentinel, all else 0, the first pitch 69, every array freshly allocated |
| Synth32u4.Synth.Begin | the_synth/synth32u4/synth32u4.cpp:185 | begin enables the compare-match interrupt |
| Synth32u4.Synth.Tick | the_synth/synth32u4/synth32u4.cpp:96-125 | the arrays after the interrupt are Step of those before, and the value written is Output of the new state |
| Synth32u4.Synth.AdvanceEnvelope | the_synth/synth32u4/synth32u4.cpp:106-110 | only the envelope and amplitude of the cursor's channel change, to EnvelopeStep |
| Synth32u4.Synth.MixChannels | the_synth/synth32u4/synth32u4.cpp:112-122 | each phase gains its increment mod 2^16 and the result is Output of the new phases |
| Synth32u4.Synth.SetVoice | the_synth/synth32u4/synth32u4.cpp:199-207 | channel Channel(i) gets the selected waveform, pitch increment, envelope and length increment; accumulators and amplitudes are untouched |
| Synth32u4.Synth.SetWave | the_synth/synth32u4/synth32u4.cpp:212-231 | only channel i's waveform changes, to WaveFor(wave) |
| Synth32u4.Synth.SetPitch | the_synth/synth32u4/synth32u4.cpp:236-241 | only channel i's pitch and phase increment change, the latter to pitchTable[pitch] |
| Synth32u4.Synth.SetEnv | the_synth/synth32u4/synth32u4.cpp:246-268 | only channel i's envelope changes, to EnvFor(env) |
| Synth32u4.Synth.SetLength | the_synth/synth32u4/synth32u4.cpp:273-278 | only channel i's length and envelope increment change, the latter to EFTWS[length] |
| Synth32u4.Synth.Play | the_synth/synth32u4/synth32u4.cpp:283-289 | lastPlay becomes Channel(i) and only that channel's envelope accumulator is reset; the phase is kept |
| Synth32u4.Synth.GetNextPlay | the_synth/synth32u4/synth32u4.cpp:294-302 | always below 8, and (lastPlay + 1) mod 8 for a valid lastPlay |
| Synth32u4.Synth.GetNextChannel | the_synth/synth32u4/synth32u4.cpp:309-320 | the loop computes Allocator.NextChannel: below 8, a nonzero result past half, 0 when none is past half, a past-half channel whenever one has amplitude below 255 |
| Synth32u4.Synth.Pause | the_synth/synth32u4/synth32u4.cpp:326-336 | the enable bit flips and the result is true exactly when processing is now stopped |
| Synth32u4.PauseTwice | the_synth/synth32u4/synth32u4.cpp:326-336 | two pauses restore the enable bit |
| Synth32u4.PlayThenNextPlay | the_synth/synth32u4/synth32u4.cpp:283-302 | on a newly constructed synthesiser, play(3) followed by getNextPlay gives 4 |
| SoundMachine.TempoWord | soundmachine.cpp:345 | the word at tickBPM + i: the table entry for i in 0..219, another flash word otherwise |
| SoundMachine.ProcessedIsMaskedIncrement | soundmachine.cpp:51-52 | the channel processed is `(current + 1) & 7` on the byte cursor |
| SoundMachine.FirstChannelIsOne | soundmachine.cpp:4-52 | from the initial cursor 8 the first channel processed is 1 |
| SoundMachine.EngineState.Processed | soundmachine.cpp:51-52 | the channel the next interrupt processes, the cursor plus one mod 8, is always below 8 |
| SoundMachine.TransportStep | soundmachine.cpp:39-49 | the tops never change, the flags are only ever raised, Counting is preserved, below the top only tickCount moves |
| SoundMachine.TransportNSplit | soundmachine.cpp:39-49 | a + b interrupts of the transport are a interrupts followed by b more |
| SoundMachine.CountingIsInvariant | soundmachine.cpp:39-49 | with positive tops, both counters stay below their tops under any number of interrupts |
| SoundMachine.CountsUp | soundmachine.cpp:39-40 | below the top each interrupt only adds one to tickCount |
| SoundMachine.TickAfter | soundmachine.cpp:39-49 | the tick flag is raised exactly tickTop - tickCount interrupts later, with bpmCount advanced or wrapped and the beat flag raised on the wrap |
| SoundMachine.BeatsAfter | soundmachine.cpp:39-49 | m whole tick periods from tickCount 0 count m beats |
| SoundMachine.NextBeat | soundmachine.cpp:39-49 | one more tick period adds one beat and raises the tick flag |
| SoundMachine.LastBeat | soundmachine.cpp:45-48 | the period that completes a bar raises both flags and resets bpmCount |
| SoundMachine.BeatPeriod | soundmachine.cpp:39-49 | from both counters at 0 the beat flag is raised after exactly tickTop·bpmTop interrupts, with both counters back at 0 |
| SoundMachine.EnvFor | soundmachine.cpp:247-248 | an unknown envelope id selects env1 |
| SoundMachine.EnvIndex | soundmachine.cpp:58 | the `/1024` index is below 64, and below 32 exactly when the accumulator is below 0x8000 |
| SoundMachine.EnvIndexCrossing | soundmachine.cpp:57-61 | the turn from 0x7F00 with increment 0x200 stores 0x8100 and reads entry 32, the second quarter of the table; the next turn silences the channel |
| SoundMachine.EnvelopeStep | soundmachine.cpp:57-61 | the new accumulator is Envelope.Advance; the amplitude is 0 for a finished note, else the envelope byte at the new index |
| SoundMachine.Samples | soundmachine.cpp:71-78 | the eight samples the mix reads, one per channel |
| SoundMachine.SampleAt | soundmachine.cpp:71-78 | each channel's sample is the byte of its waveform at the high byte of its phase accumulator (`waveAcc / 256`) |
| SoundMachine.Output | soundmachine.cpp:63-79 | the value written to the PWM register from a state lies in -129..379 |
| SoundMachine.Step | soundmachine.cpp:51-79 | one interrupt moves the cursor to the next channel mod 8, changes only that channel's envelope and amplitude, adds every increment to its phase mod 2^16 and keeps the voices |
| SoundMachine.StepNSplit | soundmachine.cpp:51-79 | a + b interrupts in a row are a interrupts followed by b more |
| SoundMachine.StepNLast | soundmachine.cpp:51-79 | n + 1 interrupts are n interrupts followed by one Step |
| SoundMachine.StepNKeepsVoices | soundmachine.cpp:51-79 | no number of interrupts changes the increments or the table selections |
| SoundMachine.CursorAfter | soundmachine.cpp:51-52 | after n interrupts the cursor is n channels further round-robin |
| SoundMachine.PhaseAfter | soundmachine.cpp:71-78 | after n interrupts each phase accumulator has gained n times its increment mod 2^16 |
| SoundMachine.PhaseCycle | soundmachine.cpp:71-78 | with increment 256 the waveform index runs through all 256 entries one per interrupt |
| SoundMachine.PhaseReturns | soundmachine.cpp:71-78 | with increment 256 the accumulator is back after 256 interrupts |
| SoundMachine.Wait | soundmachine.cpp:51-52 | the number of interrupts below 8 before the cursor reaches channel k |
| SoundMachine.EnvelopeTurn | soundmachine.cpp:51-61 | within 8 interrupts, channel k's envelope is untouched until the cursor reaches it and stepped once after |
| SoundMachine.ChannelStep | soundmachine.cpp:57-61 | one interrupt changes channel k's envelope and amplitude only when the cursor reaches k |
| SoundMachine.EightTicks | soundmachine.cpp:51-61 | every 8 interrupts every channel's envelope steps exactly once |
| SoundMachine.SilentWithinEightTicks | soundmachine.cpp:59-61 | a finished channel is silent within 8 interrupts and its accumulator does not move |
| SoundMachine.FinishedIsAbsorbing | soundmachine.cpp:57-61 | finished and silent stays finished and silent under any number of interrupts |
| SoundMachine.EnvelopeAfterTurns | soundmachine.cpp:51-61 | after 8m interrupts channel k's accumulator has taken exactly m Envelope.Advance turns |
| SoundMachine.NoteLasts | soundmachine.cpp:266-276 | a channel played with a nonzero length increment sounds for 8·Turns(tune) interrupts and is finished after them |
| SoundMachine.EnvelopeIgnoresPhase | soundmachine.cpp:51-61 | states differing only in phase accumulators keep equal envelopes, amplitudes, increments, tables and cursor under any number of interrupts |
| SoundMachine.StopKeepsSounding | soundmachine.cpp:292-294 | after stop(k) the envelopes and amplitudes of all channels, k included, evolve as if stop had not been called |
| SoundMachine.Shl1 | soundmachine.cpp:372-373 | `1 << i` as repeated doubling, always positive |
| SoundMachine.ShiftsBelowSix | soundmachine.cpp:372-373 | `1 << i` for i in 0..5 is one of the accepted signatures 1, 2, 4, 8, 16, 32 |
| SoundMachine.SoundMachine.constructor | soundmachine.cpp:4-28 | the initial globals: cursor 8, bpmTop 24, everything else 0, envelope accumulators included, every array freshly allocated |
| SoundMachine.SoundMachine.Clock | soundmachine.cpp:8-14 | the six transport globals as one Transport value, with the two tops as stored |
| SoundMachine.SoundMachine.Begin | soundmachine.cpp:89-96 | every envelope at the sentinel, 60 bpm with its tempo word, counters reset, a quarter-note beat, the interrupt enabled |
| SoundMachine.SoundMachine.Tick | soundmachine.cpp:35-81 | the transport is TransportStep of the old one, the arrays and cursor are Step of the old ones, and the value written is Output of the new state |
| SoundMachine.SoundMachine.CountTick | soundmachine.cpp:39-49 | the counters and flags become TransportStep of the old ones |
| SoundMachine.SoundMachine.AdvanceEnvelope | soundmachine.cpp:57-61 | only the envelope and amplitude of the cursor's channel change, to EnvelopeStep |
| SoundMachine.SoundMachine.MixChannels | soundmachine.cpp:63-79 | each phase gains its increment mod 2^16 and the result is Output of the new phases |
| SoundMachine.SoundMachine.SetVoice | soundmachine.cpp:182-190 | channel i & 7 gets the selected waveform, pitch increment, envelope and length increment; accumulators and amplitudes are untouched |
| SoundMachine.SoundMachine.SetWave | soundmachine.cpp:195-214 | only channel i's waveform changes, to WaveFor(wave) |
| SoundMachine.SoundMachine.SetPitch | soundmachine.cpp:219-224 | only channel i's pitch and phase increment change, the latter to pitchTable[pitch] |
| SoundMachine.SoundMachine.SetEnv | soundmachine.cpp:229-251 | only channel i's envelope changes, to EnvFor(env) |
| SoundMachine.SoundMachine.SetLength | soundmachine.cpp:256-261 | only channel i's length and envelope increment change, the latter to EFTWS[length] |
| SoundMachine.SoundMachine.Play | soundmachine.cpp:266-276 | lastPlay becomes i & 7 and only that channel's phase and envelope accumulators are reset to 0 |
| SoundMachine.SoundMachine.PlayNote | soundmachine.cpp:279-289 | configures and starts channel (lastPlay + 1) & 7, leaves lastPlay there, and returns lastPlay + 1 unmasked (8 after channel 7) |
| SoundMachine.SoundMachine.Stop | soundmachine.cpp:292-294 | only waveAcc[i] changes, to 0x8000; envAcc is untouched |
| SoundMachine.SoundMachine.GetNextPlay | soundmachine.cpp:299-301 | `(lastPlay + 1) & 7` is (lastPlay + 1) mod 8, always below 8 |
| SoundMachine.SoundMachine.GetNextChannel | soundmachine.cpp:308-319 | the loop computes Allocator.NextChannel: below 8, a nonzero result past half, 0 when none is past half, a past-half channel whenever one has amplitude below 255 |
| SoundMachine.SoundMachine.Pause | soundmachine.cpp:325-335 | the enable bit flips and the result is true exactly when processing is now stopped |
| SoundMachine.SoundMachine.SetBpm | soundmachine.cpp:338-351 | bpm is the argument whatever its value, tickTop is the word at tickBPM + (bpm - 20), tickCount, tick and bpmCount are reset |
| SoundMachine.SoundMachine.GetBpm | soundmachine.cpp:354-356 | returns the stored bpm |
| SoundMachine.SoundMachine.GetTick | soundmachine.cpp:359-367 | returns the tick flag and clears it |
| SoundMachine.SoundMachine.SetSignature | soundmachine.cpp:370-381 | bpmTop is 96 / s for s in {1, 2, 4, 8, 16, 32} and 24 for any other s |
| SoundMachine.SoundMachine.GetTime | soundmachine.cpp:384-391 | returns the beat flag and clears it |
| SoundMachine.PauseTwice | soundmachine.cpp:325-335 | two pauses restore the enable bit |
| SoundMachine.PollTwice | soundmachine.cpp:359-367 | a second getTick with no interrupt in between returns false |
| SoundMachine.PollTimeTwice | soundmachine.cpp:384-391 | a second getTime with no interrupt in between returns false |
| SoundMachine.SetBpmThenGetBpm | soundmachine.cpp:338-356 | getBpm after setBpm(b) returns b, even outside 20..239 |
| SoundMachine.FirstNoteAfterBegin | soundmachine.cpp:279-289 | on a newly constructed machine, begin and then the four-argument play start and return channel 1 |

## Left out

- Hardware bring-up is left out: the PLL, the timer and PWM registers, the DDR pins, `cli`/`sei` and `delay` (synth32u4.cpp:138-188, `_isrInit` in soundmachine.cpp:104-154). It is register I/O with no logic. The only part modelled is the OCIE1A bit, as `running`.
- Concurrency between the interrupt and the foreground is left out; the fields are `volatile` because of it. `Tick` is a sequential call between API calls.
- The contents of the flash tables (`tables.h`, `tables32u4.h`) are left out. They are opaque parameters of fixed length.
- The PWM registers keep the low byte of the mixed value, and `#if` selects OCR4A/OCR4B or OCR2A by board. Neither is modelled: `Tick` returns the raw value.
- `SoundMachine::update` is left out: it is empty.
- The headers are left out: they hold declarations and the constants `CHANNELS` and `SIN`..`NOISE`, which are used.
- Synth32u4.Synth.SetPitch, Synth32u4.Synth.SetLength, Synth32u4.Synth.SetVoice: pitch and length ids must be below 128. Larger ids read flash words past pitchTable and EFTWS, which are not modelled.
- SoundMachine.SoundMachine.SetPitch, SoundMachine.SoundMachine.SetLength, SoundMachine.SoundMachine.SetVoice, SoundMachine.SoundMachine.PlayNote: the same restriction to pitch and length ids below 128.
- SoundMachine.SoundMachine.Stop: requires i < 8. The source indexes `waveAcc[i]` with an unmasked `i`, and a larger `i` writes outside the array.
- Synth32u4.Synth.Begin: besides the enable bit, begin writes only hardware registers, so nothing else is stated.
- The pitch and length ids recorded by the setters (`pitchs`, `lengths` / `pitch`, `length`) are never read back by the core. They are stored but appear in no lemma.
