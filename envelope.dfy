/**
 * `get_envelope` of the GANSynth demo: an attack/sustain/release gain
 * buffer. The buffer is `sustain + release` samples long (the attack adds
 * no length); it starts as all ones, the attack ramp 0 -> 1 is written over
 * its head and then the release ramp 1 -> 0 over its tail, so where the two
 * overlap the release wins.
 */
module Envelope {
  import opened Numeric

  /** Defaults of `get_envelope`. */
  const DefaultAttack: real := 0.010
  const DefaultRelease: real := 0.3
  const DefaultRate: nat := 16000
  /** Note lengths are capped at this many seconds before sizing the buffer. */
  const MaxNoteLength: real := 3.0

  /** `i_attack`, `i_sustain` and `i_release`: the three section sizes in samples. */
  datatype Sizes = Sizes(attack: int, sustain: int, release: int)
  {
    /** `i_tot`: the attack does not add to the sound length. */
    function Total(): int { sustain + release }

    /**
     * The sizes for which numpy builds the buffer without raising: no negative
     * size, and an attack ramp that fits the buffer (a one-sample ramp is
     * broadcast even into an empty buffer). One more corner that numpy
     * accepts, a sustain of -1 with a one-sample release and an empty buffer,
     * is left out.
     */
    predicate Buildable() {
      0 <= attack && 0 <= sustain && 0 <= release && (attack <= Total() || attack == 1)
    }
  }

  /** `min(t_note_length, 3.0)`. */
  function CappedLength(t: real): real { if t <= MaxNoteLength then t else MaxNoteLength }

  /** How `get_envelope` turns seconds into sample counts. */
  function SizesFor(tNoteLength: real, tAttack: real, tRelease: real, sr: nat): (sz: Sizes)
    ensures 0.0 <= tNoteLength && 0.0 <= tAttack && 0.0 <= tRelease
      ==> 0 <= sz.attack && 0 <= sz.sustain && 0 <= sz.release
    ensures sz.sustain as real <= sr as real * MaxNoteLength
  {
    var t := CappedLength(tNoteLength);
    SampleCountBounds(tAttack, tAttack, sr);
    SampleCountBounds(t, MaxNoteLength, sr);
    SampleCountBounds(tRelease, tRelease, sr);
    Sizes(Trunc(sr as real * tAttack), Trunc(sr as real * t), Trunc(sr as real * tRelease))
  }

  /** `int(sr * x)` is a count when `x` is not negative, and stays within `sr * bound` for `x <= bound` with `bound` not negative. */
  lemma SampleCountBounds(x: real, bound: real, sr: nat)
    requires x <= bound
    ensures 0.0 <= x ==> 0 <= Trunc(sr as real * x)
    ensures 0.0 <= bound ==> Trunc(sr as real * x) as real <= sr as real * bound
  {
    var c := sr as real;
    assert c * x == x * c && c * bound == bound * c;
    if 0.0 <= x {
      ScaleMonotone(0.0, x, c);
      ScaleMonotone(x, bound, c);
      assert 0.0 <= c * x <= c * bound;
    } else {
      ScaleMonotone(x, 0.0, c);
      assert c * x <= 0.0;
      if 0.0 <= bound {
        ScaleMonotone(0.0, bound, c);
        assert 0.0 <= c * bound;
      }
    }
  }

  /** Element `k` of numpy's `linspace(start, stop, n)` (endpoint included). */
  function Linspace(start: real, stop: real, n: nat, k: nat): (v: real)
    requires k < n
    ensures k == 0 ==> v == start
    ensures 2 <= n && k == n - 1 ==> v == stop
  {
    if n == 1 then start else start + (stop - start) * ((k as real) / ((n - 1) as real))
  }

  /** Reference definition of the gain at sample `k`, section by section. */
  function Gain(sz: Sizes, k: nat): real
    requires sz.Buildable() && k < sz.Total()
  {
    if k >= sz.sustain then Linspace(1.0, 0.0, sz.release, k - sz.sustain)
    else if k < sz.attack then Linspace(0.0, 1.0, sz.attack, k)
    else 1.0
  }

  /** The buffer after the ones and the attack ramp, before the release is written. */
  function AttackPhase(sz: Sizes, k: nat): real
    requires sz.Buildable()
  {
    if k < sz.attack then Linspace(0.0, 1.0, sz.attack, k) else 1.0
  }

  /** The whole gain curve. */
  function Curve(sz: Sizes): seq<real>
    requires sz.Buildable()
  {
    seq(sz.Total(), k requires 0 <= k < sz.Total() => Gain(sz, k))
  }

  /** `get_envelope`: size the buffer from the times, then fill it. */
  method GetEnvelope(tNoteLength: real, tAttack: real, tRelease: real, sr: nat) returns (envelope: array<real>)
    requires SizesFor(tNoteLength, tAttack, tRelease, sr).Buildable()
    ensures fresh(envelope)
    ensures envelope[..] == Curve(SizesFor(tNoteLength, tAttack, tRelease, sr))
  {
    var sizes := SizesFor(tNoteLength, tAttack, tRelease, sr);
    envelope := Fill(sizes);
  }

  /** The buffer work of `get_envelope`: ones, then the attack ramp over the head, then the release ramp over the tail. */
  method Fill(sz: Sizes) returns (envelope: array<real>)
    requires sz.Buildable()
    ensures fresh(envelope)
    ensures envelope[..] == Curve(sz)
  {
    var iAttack, iSustain, iRelease := sz.attack, sz.sustain, sz.release;
    var iTot := iSustain + iRelease;
    envelope := new real[iTot](_ => 1.0);
    // Linear attack over envelope[:iAttack].
    var k := 0;
    while k < iAttack && k < iTot
      invariant 0 <= k <= iTot
      invariant k <= iAttack
      invariant forall m :: 0 <= m < k ==> envelope[m] == Linspace(0.0, 1.0, iAttack, m)
      invariant forall m :: k <= m < iTot ==> envelope[m] == 1.0
    {
      envelope[k] := Linspace(0.0, 1.0, iAttack, k);
      k := k + 1;
    }
    assert forall m :: 0 <= m < iTot ==> envelope[m] == AttackPhase(sz, m);
    // Linear release over envelope[iSustain:iTot].
    var j := 0;
    while j < iRelease
      invariant 0 <= j <= iRelease
      invariant forall m :: 0 <= m < iSustain + j ==> envelope[m] == Gain(sz, m)
      invariant forall m :: iSustain + j <= m < iTot ==> envelope[m] == AttackPhase(sz, m)
    {
      envelope[iSustain + j] := Linspace(1.0, 0.0, iRelease, j);
      j := j + 1;
    }
    assert forall m :: 0 <= m < iTot ==> envelope[m] == Curve(sz)[m];
  }

  /** The buffer is `i_sustain + i_release` long, with the note length capped at 3 s. */
  lemma CurveLength(tNoteLength: real, tAttack: real, tRelease: real, sr: nat)
    requires SizesFor(tNoteLength, tAttack, tRelease, sr).Buildable()
    ensures |Curve(SizesFor(tNoteLength, tAttack, tRelease, sr))|
      == Trunc(sr as real * CappedLength(tNoteLength)) + Trunc(sr as real * tRelease)
  {
  }

  /** The attack duration shapes the curve but never changes its length. */
  lemma AttackAddsNoLength(tNoteLength: real, tAttack1: real, tAttack2: real, tRelease: real, sr: nat)
    requires SizesFor(tNoteLength, tAttack1, tRelease, sr).Buildable()
    requires SizesFor(tNoteLength, tAttack2, tRelease, sr).Buildable()
    ensures |Curve(SizesFor(tNoteLength, tAttack1, tRelease, sr))|
      == |Curve(SizesFor(tNoteLength, tAttack2, tRelease, sr))|
  {
  }

  /** Notes of 3 s or longer all get the envelope of a 3 s note. */
  lemma LongNotesCapped(tNoteLength: real, tAttack: real, tRelease: real, sr: nat)
    requires tNoteLength >= MaxNoteLength
    ensures SizesFor(tNoteLength, tAttack, tRelease, sr) == SizesFor(MaxNoteLength, tAttack, tRelease, sr)
  {
  }

  /**
   * Head: before the sustain ends, the first `attack` samples follow the
   * ramp `k / (attack - 1)`; the first is 0 and the last of the ramp is 1.
   */
  lemma CurveAttack(sz: Sizes, k: nat)
    requires sz.Buildable() && sz.attack >= 2
    requires k < sz.attack && k < sz.sustain
    ensures Curve(sz)[k] == (k as real) / ((sz.attack - 1) as real)
    ensures k == 0 ==> Curve(sz)[k] == 0.0
    ensures k == sz.attack - 1 ==> Curve(sz)[k] == 1.0
  {
    assert Curve(sz)[k] == Gain(sz, k) == Linspace(0.0, 1.0, sz.attack, k);
    RampValues(sz.attack, k);
  }

  /** Samples between the attack and the sustain's end keep the gain 1. */
  lemma CurvePlateau(sz: Sizes, k: nat)
    requires sz.Buildable() && sz.attack <= k < sz.sustain
    ensures Curve(sz)[k] == 1.0
  {
  }

  /**
   * Tail: sample `sustain + j` is `1 - j / (release - 1)`, whatever the
   * attack wrote there, so the last sample is 0 when the release has at
   * least two samples.
   */
  lemma CurveRelease(sz: Sizes, j: nat)
    requires sz.Buildable() && sz.release >= 2 && j < sz.release
    ensures Curve(sz)[sz.sustain + j] == 1.0 - (j as real) / ((sz.release - 1) as real)
    ensures j == sz.release - 1 ==> Curve(sz)[sz.sustain + j] == 0.0
  {
    assert Curve(sz)[sz.sustain + j] == Gain(sz, sz.sustain + j) == Linspace(1.0, 0.0, sz.release, j);
    RampValues(sz.release, j);
  }

  /** A one-sample ramp of numpy's `linspace` is its start value. */
  lemma ShortRamps(sz: Sizes)
    requires sz.Buildable()
    ensures sz.attack == 1 && sz.sustain >= 1 ==> Curve(sz)[0] == 0.0
    ensures sz.release == 1 ==> Curve(sz)[sz.sustain] == 1.0
  {
  }

  /** Every gain lies between 0 and 1. */
  lemma CurveIsGain(sz: Sizes)
    requires sz.Buildable()
    ensures forall k :: 0 <= k < |Curve(sz)| ==> 0.0 <= Curve(sz)[k] <= 1.0
  {
    forall k | 0 <= k < sz.Total()
      ensures 0.0 <= Gain(sz, k) <= 1.0
    {
      if k >= sz.sustain {
        RampInUnit(sz.release, k - sz.sustain);
      } else if k < sz.attack {
        RampInUnit(sz.attack, k);
      }
    }
  }

  /** The rising and falling ramps of `linspace` with two or more samples. */
  lemma RampValues(n: nat, k: nat)
    requires 2 <= n && k < n
    ensures Linspace(0.0, 1.0, n, k) == (k as real) / ((n - 1) as real)
    ensures Linspace(1.0, 0.0, n, k) == 1.0 - (k as real) / ((n - 1) as real)
    ensures 0.0 <= (k as real) / ((n - 1) as real) <= 1.0
    ensures k == 0 ==> (k as real) / ((n - 1) as real) == 0.0
    ensures k == n - 1 ==> (k as real) / ((n - 1) as real) == 1.0
  {
    var q := (k as real) / ((n - 1) as real);
    assert q * ((n - 1) as real) == k as real;
  }

  lemma RampInUnit(n: nat, k: nat)
    requires k < n
    ensures 0.0 <= Linspace(0.0, 1.0, n, k) <= 1.0
    ensures 0.0 <= Linspace(1.0, 0.0, n, k) <= 1.0
  {
    if n > 1 {
      RampValues(n, k);
    }
  }

  /**
   * A one-second note with the default attack, release and rate: 160 attack
   * samples, 16000 sustain and 4800 release samples, 20800 in all; it starts
   * at 0, reaches 1 at sample 159 and ends at 0.
   */
  lemma DefaultOneSecondNote()
    ensures SizesFor(1.0, DefaultAttack, DefaultRelease, DefaultRate) == Sizes(160, 16000, 4800)
    ensures |Curve(Sizes(160, 16000, 4800))| == 20800
    ensures Curve(Sizes(160, 16000, 4800))[0] == 0.0
    ensures Curve(Sizes(160, 16000, 4800))[159] == 1.0
    ensures Curve(Sizes(160, 16000, 4800))[20799] == 0.0
  {
    var sz := Sizes(160, 16000, 4800);
    assert 16000.0 * 0.010 == 160.0;
    assert 16000.0 * 0.3 == 4800.0;
    CurveAttack(sz, 0);
    CurveAttack(sz, 159);
    CurveRelease(sz, 4799);
  }
}
