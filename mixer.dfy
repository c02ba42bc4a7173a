/**
 * `combine_notes` of the GANSynth demo: every note's generated audio is cut
 * to the length of its envelope, shaped by it, peak-normalised, scaled by
 * `velocity / 127` and added into a zero-filled clip at the note's start
 * sample; the clip is then peak-normalised and halved.
 */
module Mixer {
  import opened Numeric
  import opened Envelope

  /** Seconds of silence added after the last note end. */
  const ClipTail: real := 3.0
  /** Velocities are divided by this before scaling a note. */
  const VelocityScale: real := 127.0

  /**
   * The inputs of `combine_notes`: one row of audio per note and the
   * note's start and end times (seconds) and MIDI velocity.
   */
  datatype Score = Score(
    audioNotes: seq<seq<real>>,
    startTimes: seq<real>,
    endTimes: seq<real>,
    velocities: seq<int>)
  {
    /** `zip(start_times, end_times, velocities, range(n_notes))` stops at the shortest. */
    function Count(): nat {
      Min(Min(|audioNotes|, |startTimes|), Min(|endTimes|, |velocities|))
    }
  }

  /**
   * `int(end_times.max() + 3.0) * sr`: the seconds are truncated before the
   * rate is applied, so the clip holds a whole number of seconds. For a
   * non-negative last end time that is at least three seconds, and for a
   * positive rate it runs more than 2 s past the last note end.
   */
  function ClipLength(endTimes: seq<real>, sr: nat): (r: int)
    requires |endTimes| > 0
    ensures 0.0 <= SeqMax(endTimes) ==> 3 * sr <= r
    ensures 0.0 <= SeqMax(endTimes) && sr > 0 ==> (SeqMax(endTimes) + 2.0) * (sr as real) < r as real
  {
    WholeSecondsCover(SeqMax(endTimes), sr);
    Trunc(SeqMax(endTimes) + ClipTail) * sr
  }

  /** `int(m + 3.0) * sr` for a non-negative last end `m`: at least three seconds, and more than `m + 2` seconds. */
  lemma WholeSecondsCover(m: real, sr: nat)
    ensures 0.0 <= m ==> 3 * sr <= Trunc(m + ClipTail) * sr
    ensures 0.0 <= m && sr > 0 ==> (m + 2.0) * (sr as real) < (Trunc(m + ClipTail) * sr) as real
  {
    if 0.0 <= m && sr > 0 {
      BelowWholeCount(m + 2.0, Trunc(m + ClipTail), sr);
    }
  }

  /** Sizes of a note's envelope; `get_envelope` is called with its default rate, not `sr`. */
  function NoteSizes(tStart: real, tEnd: real): (sz: Sizes)
    ensures sz.attack == 160 && sz.release == 4800
    ensures tStart <= tEnd ==> 0 <= sz.sustain <= 48000
  {
    assert DefaultRate as real * DefaultAttack == 160.0;
    assert DefaultRate as real * DefaultRelease == 4800.0;
    SizesFor(tEnd - tStart, DefaultAttack, DefaultRelease, DefaultRate)
  }

  /** `clip_start = int(t_start * sr)`. */
  function Offset(tStart: real, sr: nat): (o: int)
    ensures 0.0 <= tStart ==> 0 <= o && o as real <= tStart * sr as real < o as real + 1.0
    ensures tStart < 0.0 ==> o <= 0
  {
    Trunc(tStart * sr as real)
  }

  /**
   * What the loop body needs of a note to run without a numpy error or a
   * division by zero: a buildable, non-empty envelope, audio at least as
   * long as it, and a non-zero peak of the shaped audio.
   */
  predicate Shapeable(audio: seq<real>, tStart: real, tEnd: real) {
    && NoteSizes(tStart, tEnd).Buildable()
    && 0 < NoteSizes(tStart, tEnd).Total() <= |audio|
    && SeqMax(Shaped(audio, tStart, tEnd)) != 0.0
  }

  /** `audio_notes[i, :length] * envelope`. */
  function Shaped(audio: seq<real>, tStart: real, tEnd: real): seq<real>
    requires NoteSizes(tStart, tEnd).Buildable()
    requires NoteSizes(tStart, tEnd).Total() <= |audio|
  {
    var env := Curve(NoteSizes(tStart, tEnd));
    Product(audio[..|env|], env)
  }

  /** A note as it is added to the clip: shaped, peak-normalised, scaled by `velocity / 127`. */
  function NoteAudio(audio: seq<real>, tStart: real, tEnd: real, velocity: int): (r: seq<real>)
    requires Shapeable(audio, tStart, tEnd)
    ensures |r| == NoteSizes(tStart, tEnd).Total()
  {
    var shaped := Shaped(audio, tStart, tEnd);
    Scaled(Divided(shaped, SeqMax(shaped)), velocity as real / VelocityScale)
  }

  /** Note `i` of the score can be shaped, and its window `[clip_start, clip_start + len(envelope))` lies in the clip. */
  predicate Playable(s: Score, i: nat, sr: nat, clipLength: int) {
    && i < s.Count()
    && Shapeable(s.audioNotes[i], s.startTimes[i], s.endTimes[i])
    && 0 <= Offset(s.startTimes[i], sr)
    && Offset(s.startTimes[i], sr) + NoteSizes(s.startTimes[i], s.endTimes[i]).Total() <= clipLength
  }

  /** Note `i` of the score as it is added to the clip. */
  function ScoreNote(s: Score, i: nat): (r: seq<real>)
    requires i < s.Count() && Shapeable(s.audioNotes[i], s.startTimes[i], s.endTimes[i])
    ensures |r| == NoteSizes(s.startTimes[i], s.endTimes[i]).Total()
  {
    NoteAudio(s.audioNotes[i], s.startTimes[i], s.endTimes[i], s.velocities[i])
  }

  /** `clip[offset:offset + len(note)] += note`. */
  function Overlay(clip: seq<real>, offset: nat, note: seq<real>): (r: seq<real>)
    requires offset + |note| <= |clip|
    ensures |r| == |clip|
  {
    clip[..offset] + Added(clip[offset..offset + |note|], note) + clip[offset + |note|..]
  }

  /** Every note, placed at its offset, lies inside a clip of `clipLength` samples. */
  predicate Fits(offsets: seq<int>, notes: seq<seq<real>>, clipLength: nat) {
    && |offsets| == |notes|
    && forall i :: 0 <= i < |notes| ==> 0 <= offsets[i] && offsets[i] + |notes[i]| <= clipLength
  }

  /** The clip after the loop has overlaid the first `n` notes at their offsets. */
  function Mixed(clipLength: nat, offsets: seq<int>, notes: seq<seq<real>>, n: nat): (r: seq<real>)
    requires Fits(offsets, notes, clipLength) && n <= |notes|
    ensures |r| == clipLength
  {
    if n == 0 then Zeros(clipLength)
    else Overlay(Mixed(clipLength, offsets, notes, n - 1), offsets[n - 1], notes[n - 1])
  }

  /** `clip_start` of every visited note. */
  function Offsets(s: Score, sr: nat): (r: seq<int>)
    ensures |r| == s.Count()
  {
    seq(s.Count(), i requires 0 <= i < s.Count() => Offset(s.startTimes[i], sr))
  }

  /** Every visited note as it is added to the clip. */
  function Notes(s: Score, sr: nat, clipLength: int): (r: seq<seq<real>>)
    requires forall i :: 0 <= i < s.Count() ==> Playable(s, i, sr, clipLength)
    ensures |r| == s.Count()
  {
    seq(s.Count(), i requires 0 <= i < s.Count() && Playable(s, i, sr, clipLength) => ScoreNote(s, i))
  }

  /** `note` is the rendered audio of a shapeable note and `offset` its start sample. */
  predicate Rendered(audio: seq<real>, tStart: real, tEnd: real, velocity: int, sr: nat, offset: int, note: seq<real>) {
    && Shapeable(audio, tStart, tEnd)
    && offset == Offset(tStart, sr)
    && note == NoteAudio(audio, tStart, tEnd, velocity)
  }

  /** `notes` and `offsets` are the first notes of the score, rendered and placed. */
  predicate AllRendered(audioNotes: seq<seq<real>>, startTimes: seq<real>, endTimes: seq<real>, velocities: seq<int>,
                        sr: nat, offsets: seq<int>, notes: seq<seq<real>>) {
    && |offsets| == |notes| <= Score(audioNotes, startTimes, endTimes, velocities).Count()
    && forall k {:trigger Rendered(audioNotes[k], startTimes[k], endTimes[k], velocities[k], sr, offsets[k], notes[k])} ::
         0 <= k < |notes| ==> Rendered(audioNotes[k], startTimes[k], endTimes[k], velocities[k], sr, offsets[k], notes[k])
  }

  /** Playable notes, rendered and placed, fit the clip. */
  lemma ScoreRendered(s: Score, sr: nat, clipLength: nat)
    requires forall i :: 0 <= i < s.Count() ==> Playable(s, i, sr, clipLength)
    ensures Fits(Offsets(s, sr), Notes(s, sr, clipLength), clipLength)
    ensures AllRendered(s.audioNotes, s.startTimes, s.endTimes, s.velocities, sr, Offsets(s, sr), Notes(s, sr, clipLength))
  {
    var offsets, notes := Offsets(s, sr), Notes(s, sr, clipLength);
    forall i | 0 <= i < |notes|
      ensures 0 <= offsets[i] && offsets[i] + |notes[i]| <= clipLength
      ensures Rendered(s.audioNotes[i], s.startTimes[i], s.endTimes[i], s.velocities[i], sr, offsets[i], notes[i])
    {
      assert Playable(s, i, sr, clipLength);
      assert |notes[i]| == |ScoreNote(s, i)| == NoteSizes(s.startTimes[i], s.endTimes[i]).Total();
    }
  }

  /** At least one end time, a non-empty clip, and every visited note playable. */
  predicate Placeable(s: Score, sr: nat) {
    && |s.endTimes| > 0
    && ClipLength(s.endTimes, sr) > 0
    && (forall i :: 0 <= i < s.Count() ==> Playable(s, i, sr, ClipLength(s.endTimes, sr)))
  }

  /** The mixed clip before the final normalisation. */
  function RawClip(s: Score, sr: nat): (r: seq<real>)
    requires Placeable(s, sr)
    ensures |r| == ClipLength(s.endTimes, sr)
  {
    var clipLength := ClipLength(s.endTimes, sr);
    ScoreRendered(s, sr, clipLength);
    Mixed(clipLength, Offsets(s, sr), Notes(s, sr, clipLength), s.Count())
  }

  /** What `combine_notes` needs of its inputs: placeable notes and a non-zero peak of the mix. */
  predicate Mixable(s: Score, sr: nat) {
    Placeable(s, sr) && SeqMax(RawClip(s, sr)) != 0.0
  }

  /** The returned clip: the mix divided by its peak, then by 2. */
  function Combined(s: Score, sr: nat): (r: seq<real>)
    requires Mixable(s, sr)
    ensures |r| == ClipLength(s.endTimes, sr)
  {
    var raw := RawClip(s, sr);
    Divided(Divided(raw, SeqMax(raw)), 2.0)
  }

  /** `audio_notes[i, :length] * envelope` into a new array. */
  method ShapeNote(audio: seq<real>, envelope: array<real>) returns (note: array<real>)
    requires envelope.Length <= |audio|
    ensures fresh(note)
    ensures note[..] == Product(audio[..envelope.Length], envelope[..])
  {
    note := new real[envelope.Length];
    var k := 0;
    while k < envelope.Length
      invariant 0 <= k <= envelope.Length
      invariant forall m :: 0 <= m < k ==> note[m] == audio[m] * envelope[m]
    {
      note[k] := audio[k] * envelope[k];
      k := k + 1;
    }
    assert forall m :: 0 <= m < note.Length ==> note[..][m] == Product(audio[..envelope.Length], envelope[..])[m];
  }

  /** `clip[clipStart:clipEnd] += note`, in place. */
  method AddSlice(clip: array<real>, clipStart: nat, clipEnd: nat, note: array<real>)
    requires clipEnd == clipStart + note.Length <= clip.Length
    requires clip != note
    modifies clip
    ensures clip[..] == Overlay(old(clip[..]), clipStart, note[..])
  {
    var k := 0;
    while k < note.Length
      invariant 0 <= k <= note.Length
      invariant forall m :: 0 <= m < clip.Length ==>
        clip[m] == if clipStart <= m < clipStart + k then old(clip[m]) + note[m - clipStart] else old(clip[m])
    {
      clip[clipStart + k] := clip[clipStart + k] + note[k];
      k := k + 1;
    }
    forall m | 0 <= m < clip.Length
      ensures clip[..][m] == Overlay(old(clip[..]), clipStart, note[..])[m]
    {
      OverlayAt(old(clip[..]), clipStart, note[..], m);
    }
  }

  /**
   * The body of `combine_notes`' loop up to the overlay: build the envelope,
   * shape the note's audio with it, divide by the peak, scale by velocity.
   */
  method RenderNote(audio: seq<real>, tStart: real, tEnd: real, velocity: int) returns (audioNote: array<real>)
    requires Shapeable(audio, tStart, tEnd)
    ensures fresh(audioNote)
    ensures audioNote[..] == NoteAudio(audio, tStart, tEnd, velocity)
  {
    // Generate an amplitude envelope.
    var tNoteLength := tEnd - tStart;
    var envelope := GetEnvelope(tNoteLength, DefaultAttack, DefaultRelease, DefaultRate);
    audioNote := ShapeNote(audio, envelope);
    ghost var shaped := audioNote[..];
    assert shaped == Shaped(audio, tStart, tEnd);
    // Normalize.
    var peak := MaxOf(audioNote);
    DivideInPlace(audioNote, peak);
    ScaleInPlace(audioNote, velocity as real / VelocityScale);
    assert audioNote[..] == Scaled(Divided(shaped, SeqMax(shaped)), velocity as real / VelocityScale);
  }

  /**
   * One pass of `combine_notes`' loop, for note `i`: render it and add it
   * into the clip from `clip_start = int(t_start * sr)` on.
   */
  method PlaceNote(audioClip: array<real>, audioNotes: seq<seq<real>>, startTimes: seq<real>, endTimes: seq<real>,
                   velocities: seq<int>, sr: nat, i: nat, ghost offsets: seq<int>, ghost notes: seq<seq<real>>)
    requires AllRendered(audioNotes, startTimes, endTimes, velocities, sr, offsets, notes)
    requires i < |notes| && Fits(offsets, notes, audioClip.Length)
    modifies audioClip
    ensures audioClip[..] == Overlay(old(audioClip[..]), offsets[i], notes[i])
  {
    assert Rendered(audioNotes[i], startTimes[i], endTimes[i], velocities[i], sr, offsets[i], notes[i]);
    var audioNote := RenderNote(audioNotes[i], startTimes[i], endTimes[i], velocities[i]);
    // Add to the clip buffer.
    var clipStart := Offset(startTimes[i], sr);
    var clipEnd := clipStart + audioNote.Length;
    AddSlice(audioClip, clipStart, clipEnd, audioNote);
  }

  /** `audio_clip /= audio_clip.max()` followed by `audio_clip /= 2.0`. */
  method NormaliseClip(audioClip: array<real>)
    requires audioClip.Length > 0 && SeqMax(audioClip[..]) != 0.0
    modifies audioClip
    ensures audioClip[..] == Divided(Divided(old(audioClip[..]), SeqMax(old(audioClip[..]))), 2.0)
  {
    var peak := MaxOf(audioClip);
    DivideInPlace(audioClip, peak);
    DivideInPlace(audioClip, 2.0);
  }

  /** `combine_notes(audio_notes, start_times, end_times, velocities, sr)`. */
  method CombineNotes(audioNotes: seq<seq<real>>, startTimes: seq<real>, endTimes: seq<real>,
                      velocities: seq<int>, sr: nat)
    returns (audioClip: array<real>)
    requires Mixable(Score(audioNotes, startTimes, endTimes, velocities), sr)
    ensures fresh(audioClip)
    ensures audioClip.Length == ClipLength(endTimes, sr)
    ensures audioClip[..] == Combined(Score(audioNotes, startTimes, endTimes, velocities), sr)
  {
    ghost var score := Score(audioNotes, startTimes, endTimes, velocities);
    var clipLength := ClipLength(endTimes, sr);
    audioClip := new real[clipLength](_ => 0.0);
    assert audioClip[..] == Zeros(clipLength);
    ScoreRendered(score, sr, clipLength);
    var n := Score(audioNotes, startTimes, endTimes, velocities).Count();
    AddNotes(audioClip, audioNotes, startTimes, endTimes, velocities, sr, n, Offsets(score, sr), Notes(score, sr, clipLength));
    assert audioClip[..] == RawClip(score, sr);
    // Normalize.
    NormaliseClip(audioClip);
  }

  /** The loop of `combine_notes`: the first `n` notes, rendered one by one and overlaid on the clip in order. */
  method AddNotes(audioClip: array<real>, audioNotes: seq<seq<real>>, startTimes: seq<real>, endTimes: seq<real>,
                  velocities: seq<int>, sr: nat, n: nat, ghost offsets: seq<int>, ghost notes: seq<seq<real>>)
    requires AllRendered(audioNotes, startTimes, endTimes, velocities, sr, offsets, notes)
    requires n == |notes| && Fits(offsets, notes, audioClip.Length)
    requires audioClip[..] == Zeros(audioClip.Length)
    modifies audioClip
    ensures audioClip[..] == Mixed(audioClip.Length, offsets, notes, n)
  {
    var i := 0;
    while i < n
      invariant 0 <= i <= n
      invariant audioClip[..] == Mixed(audioClip.Length, offsets, notes, i)
    {
      PlaceNote(audioClip, audioNotes, startTimes, endTimes, velocities, sr, i, offsets, notes);
      i := i + 1;
    }
  }

  /** A note changes only the samples of its window, and adds to them. */
  lemma OverlayAt(clip: seq<real>, offset: nat, note: seq<real>, j: nat)
    requires offset + |note| <= |clip| && j < |clip|
    ensures Overlay(clip, offset, note)[j]
      == if offset <= j < offset + |note| then clip[j] + note[j - offset] else clip[j]
  {
    var a, b, c := clip[..offset], Added(clip[offset..offset + |note|], note), clip[offset + |note|..];
    assert Overlay(clip, offset, note) == a + b + c;
    if j < offset {
      assert (a + b + c)[j] == a[j];
    } else if j < offset + |note| {
      assert (a + b + c)[j] == b[j - offset];
    } else {
      assert (a + b + c)[j] == c[j - offset - |note|];
    }
  }

  /** Overlapping notes add, so the order in which two notes are overlaid does not matter. */
  lemma OverlaysCommute(clip: seq<real>, o1: nat, n1: seq<real>, o2: nat, n2: seq<real>)
    requires o1 + |n1| <= |clip| && o2 + |n2| <= |clip|
    ensures Overlay(Overlay(clip, o1, n1), o2, n2) == Overlay(Overlay(clip, o2, n2), o1, n1)
  {
    var x, y := Overlay(Overlay(clip, o1, n1), o2, n2), Overlay(Overlay(clip, o2, n2), o1, n1);
    forall j | 0 <= j < |clip|
      ensures x[j] == y[j]
    {
      OverlayAt(clip, o1, n1, j);
      OverlayAt(clip, o2, n2, j);
      OverlayAt(Overlay(clip, o1, n1), o2, n2, j);
      OverlayAt(Overlay(clip, o2, n2), o1, n1, j);
    }
  }

  /** Reference definition: the sum of what the first `n` notes contribute to sample `j`. */
  function Contribution(offsets: seq<int>, notes: seq<seq<real>>, n: nat, j: int): real
    requires n <= |offsets| == |notes|
  {
    if n == 0 then 0.0
    else
      var o, note := offsets[n - 1], notes[n - 1];
      Contribution(offsets, notes, n - 1, j) + (if o <= j < o + |note| then note[j - o] else 0.0)
  }

  /**
   * Before the final normalisation, every clip sample is the sum of what
   * the notes whose windows cover it contribute.
   */
  lemma {:induction false} MixedAt(clipLength: nat, offsets: seq<int>, notes: seq<seq<real>>, n: nat, j: nat)
    requires Fits(offsets, notes, clipLength) && n <= |notes| && j < clipLength
    ensures Mixed(clipLength, offsets, notes, n)[j] == Contribution(offsets, notes, n, j)
  {
    if n > 0 {
      MixedAt(clipLength, offsets, notes, n - 1, j);
      OverlayAt(Mixed(clipLength, offsets, notes, n - 1), offsets[n - 1], notes[n - 1], j);
    }
  }

  /** A sample outside every note's window is still 0 after mixing. */
  lemma {:induction false} UncoveredSampleSilent(clipLength: nat, offsets: seq<int>, notes: seq<seq<real>>, n: nat, j: nat)
    requires Fits(offsets, notes, clipLength) && n <= |notes| && j < clipLength
    requires forall i :: 0 <= i < n ==> !(offsets[i] <= j < offsets[i] + |notes[i]|)
    ensures Mixed(clipLength, offsets, notes, n)[j] == 0.0
  {
    if n > 0 {
      UncoveredSampleSilent(clipLength, offsets, notes, n - 1, j);
      OverlayAt(Mixed(clipLength, offsets, notes, n - 1), offsets[n - 1], notes[n - 1], j);
    }
  }

  /**
   * The envelope's release ends at 0, so the shaped note's last sample is 0
   * and its non-zero peak is positive.
   */
  lemma ShapedPeakPositive(audio: seq<real>, tStart: real, tEnd: real)
    requires Shapeable(audio, tStart, tEnd)
    ensures SeqMax(Shaped(audio, tStart, tEnd)) > 0.0
  {
    var sz := NoteSizes(tStart, tEnd);
    var sh := Shaped(audio, tStart, tEnd);
    CurveRelease(sz, sz.release - 1);
    assert sh[sz.Total() - 1] == audio[sz.Total() - 1] * Curve(sz)[sz.Total() - 1];
    assert sh[sz.Total() - 1] == 0.0;
  }

  /**
   * With a non-negative velocity, a note's loudest sample after
   * normalisation and velocity scaling is `velocity / 127`.
   */
  lemma NotePeak(audio: seq<real>, tStart: real, tEnd: real, velocity: int)
    requires Shapeable(audio, tStart, tEnd) && velocity >= 0
    ensures SeqMax(NoteAudio(audio, tStart, tEnd, velocity)) == velocity as real / VelocityScale
  {
    ShapedPeakPositive(audio, tStart, tEnd);
    PeakNormalisedThenScaled(Shaped(audio, tStart, tEnd), velocity as real / VelocityScale);
  }

  /** With a positive peak before normalisation, the returned clip peaks at exactly 0.5. */
  lemma CombinedPeak(s: Score, sr: nat)
    requires Mixable(s, sr) && SeqMax(RawClip(s, sr)) > 0.0
    ensures SeqMax(Combined(s, sr)) == 0.5
  {
    PeakNormalisedThenHalved(RawClip(s, sr));
  }

  /**
   * At the default rate the clip always has room for a note that starts at
   * or after 0 and ends by the last end time: its window ends at most 0.3 s
   * after the note, and the clip runs more than 2 s past the last end.
   */
  lemma DefaultRateWindowFits(tStart: real, tEnd: real, endTimes: seq<real>)
    requires |endTimes| > 0 && 0.0 <= tStart <= tEnd <= SeqMax(endTimes)
    ensures 0 <= Offset(tStart, DefaultRate)
    ensures Offset(tStart, DefaultRate) + NoteSizes(tStart, tEnd).Total() <= ClipLength(endTimes, DefaultRate)
  {
    var rate := DefaultRate as real;
    assert rate * DefaultRelease == 4800.0;
    var sz := NoteSizes(tStart, tEnd);
    assert sz.release == 4800;
    assert (sz.sustain as real) <= rate * (tEnd - tStart);
    assert (Offset(tStart, DefaultRate) as real) <= tStart * rate;
    var seconds := Trunc(SeqMax(endTimes) + ClipTail);
    assert (seconds as real) > SeqMax(endTimes) + 2.0;
    assert ClipLength(endTimes, DefaultRate) as real == (seconds as real) * rate;
  }

  /**
   * At another rate the envelope, still sized at 16000 samples per second,
   * can outgrow the clip: at 8000 a 3 s note from 0 s needs 52800 samples
   * of a 48000-sample clip, so that note is not playable.
   */
  lemma OtherRateWindowOverflows()
    ensures NoteSizes(0.0, 3.0) == Sizes(160, 48000, 4800)
    ensures ClipLength([3.0], 8000) == 48000
    ensures Offset(0.0, 8000) + NoteSizes(0.0, 3.0).Total() > ClipLength([3.0], 8000)
  {
    assert SeqMax([3.0]) == 3.0;
    assert 16000.0 * DefaultAttack == 160.0;
    assert 16000.0 * DefaultRelease == 4800.0;
  }

  /**
   * The clip length truncates the seconds before applying the rate: a last
   * note ending at 1.5 s gives `int(4.5) * 16000 = 64000` samples, not
   * `int(4.5 * 16000) = 72000`.
   */
  lemma ClipLengthWholeSeconds()
    ensures ClipLength([1.5], 16000) == 64000
    ensures Trunc((1.5 + ClipTail) * 16000.0) == 72000
  {
    assert SeqMax([1.5]) == 1.5;
    assert Trunc(4.5) == 4;
  }
}
