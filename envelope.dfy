/** The envelope accumulator of one channel, common to both variants.
 *  There is no "note finished" flag: a note is finished once its
 *  accumulator has reached 128 table entries times 256 fixed-point units. */
module Envelope {
  import opened Bits

  /** The sentinel value 0x8000 (128 * 256). */
  const END := 0x8000
  /** Half-way through the envelope, the allocator's threshold. */
  const HALF := 0x4000

  /** One envelope turn of a channel: the accumulator advances modulo 2^16
   *  while it is below the sentinel and is left alone from then on. */
  function Advance(acc: u16, tune: u16): (r: u16)
    ensures acc >= END ==> r == acc
    ensures acc < END && tune <= END ==> r == acc + tune
    ensures acc < END ==> (r - acc - tune) % 0x1_0000 == 0
  {
    if acc < END then Wrap16(acc as int + tune) else acc
  }

  /** The accumulator after `n` turns. A finished note stays finished. */
  function AdvanceN(acc: u16, tune: u16, n: nat): (r: u16)
    ensures acc >= END ==> r == acc
  {
    if n == 0 then acc else Advance(AdvanceN(acc, tune, n - 1), tune)
  }

  /** ceil(END / tune): the number of turns a note started at 0 lasts. */
  function Turns(tune: u16): (n: nat)
    requires 0 < tune
    ensures 1 <= n
    ensures (n - 1) * tune < END <= n * tune
  {
    var n := (END + tune - 1) / tune;
    assert n * tune <= END + tune - 1 < n * tune + tune;
    n
  }

  lemma {:induction false} BeforeEnd(tune: u16, m: nat)
    requires 0 < tune && m < Turns(tune)
    ensures AdvanceN(0, tune, m) == m * tune < END
  {
    var t := Turns(tune);
    assert m * tune <= (t - 1) * tune by {
      MulMono(m, t - 1, tune);
    }
    if m > 0 {
      BeforeEnd(tune, m - 1);
      MulSucc(m - 1, tune);
    }
  }

  /** A note started with the accumulator at 0 and `tune > 0` sounds for
   *  exactly Turns(tune) envelope turns: the accumulator stays below the
   *  sentinel before that and has reached it after it, without wrapping. */
  lemma NoteEnds(tune: u16)
    requires 0 < tune
    ensures forall m :: 0 <= m < Turns(tune) ==> AdvanceN(0, tune, m) < END
    ensures AdvanceN(0, tune, Turns(tune)) == Turns(tune) * tune
    ensures AdvanceN(0, tune, Turns(tune)) >= END
  {
    forall m | 0 <= m < Turns(tune)
      ensures AdvanceN(0, tune, m) < END
    {
      BeforeEnd(tune, m);
    }
    var t := Turns(tune);
    BeforeEnd(tune, t - 1);
    assert (t - 1) * tune + tune == t * tune;
    if tune > END {
      assert t == 1;
    }
  }

  /** An increment of 2048 ends a note after 16 turns. */
  lemma SixteenTurns()
    ensures Turns(2048) == 16
    ensures AdvanceN(0, 2048, 15) < END <= AdvanceN(0, 2048, 16)
  {
    NoteEnds(2048);
  }
}
