/** Waveform and envelope selection, common to both variants. The source
 *  stores the flash address of the chosen table in a per-channel word; here
 *  a channel holds the name of the table instead. */
module Voice {
  import opened Bits

  // Waveform selector values (src/synth32u4.h, soundmachine.h).
  const SIN := 0
  const TRI := 1
  const SQUARE := 2
  const SAW := 3
  const NOISE := 4

  /** The waveform table a channel reads. `NoWave` is the zero address a
   *  channel holds before its first setVoice. */
  datatype WaveTable = NoWave | Sin | Tri | Square | Saw | Noise

  /** The envelope table a channel reads; `NoEnvelope` as for `NoWave`. */
  datatype EnvTable = NoEnvelope | Env1 | Env2 | Env3 | Env4 | Env5

  /** The selector value that names a waveform table. */
  function WaveId(w: WaveTable): (id: u8)
    requires w != NoWave
    ensures id <= NOISE
  {
    match w
    case Sin => SIN
    case Tri => TRI
    case Square => SQUARE
    case Saw => SAW
    case Noise => NOISE
  }

  /** setWave's switch: the four named selectors pick their table and every
   *  other value, SIN included, picks the sine table. */
  function WaveFor(id: u8): (w: WaveTable)
    ensures w != NoWave
    ensures id <= NOISE ==> WaveId(w) == id
    ensures id > NOISE ==> w == Sin
  {
    if id == TRI then Tri
    else if id == SQUARE then Square
    else if id == SAW then Saw
    else if id == NOISE then Noise
    else Sin
  }

  /** Every table can be selected, by its own selector value. */
  lemma WaveForWaveId(w: WaveTable)
    requires w != NoWave
    ensures WaveFor(WaveId(w)) == w
  {
  }

  /** The case label of setEnv's switch that selects an envelope table. */
  function EnvNumber(e: EnvTable): (n: u8)
    requires e != NoEnvelope
    ensures n <= 4
  {
    match e
    case Env1 => 0
    case Env2 => 1
    case Env3 => 2
    case Env4 => 3
    case Env5 => 4
  }

  /** setEnv's switch with the fallback table for unknown ids as a
   *  parameter: the two variants differ only in that fallback. */
  function EnvSelect(id: u8, fallback: EnvTable): (e: EnvTable)
    ensures id <= 4 ==> e != NoEnvelope && EnvNumber(e) == id
    ensures id > 4 ==> e == fallback
  {
    if id == 0 then Env1
    else if id == 1 then Env2
    else if id == 2 then Env3
    else if id == 3 then Env4
    else if id == 4 then Env5
    else fallback
  }
}
