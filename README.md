# GANSynth note mixing and effect fan-out, in Dafny

This project models the parts of two Python scripts that hold logic of their
own.

From the GANSynth demo (`resources/demos/gansynth.py`):

- `load_midi`: the pitch filter that keeps the notes within
  `[min_pitch, max_pitch]` in four parallel arrays.
- `get_envelope`: the attack/sustain/release gain buffer.
- `combine_notes`: shapes every generated note with its envelope,
  peak-normalises it, scales it by `velocity / 127` and adds it into a silent
  clip at `int(t_start * sr)`. It then peak-normalises the clip and halves it.

From the data generator (`experimentations/datagen/fx.py`):

- `_apply_fxs`: calls an effect function once per effect, unless the dry
  sound has no frames.
- `_convolve`: how it chooses between downmix + peak normalisation and
  sum normalisation.

Modules:

- `Numeric`: the numpy and Python arithmetic the mixer uses. It covers
  `int()` truncation, `max()`, element-wise operations and the in-place
  `/=` and `*=` loops. The slice `+=` loop is `Mixer.AddSlice`.
- `NoteFilter`: `load_midi`.
- `Envelope`: `get_envelope`.
- `Mixer`: `combine_notes`.
- `Fx`: `fx.py`.

Samples are exact reals. The in-place numpy operations are methods on
`array<real>`, proved against specification functions on sequences. The
specifications are:

- `Curve`: the envelope, section by section.
- `NoteAudio`: one rendered note.
- `Mixed` with `Contribution`: the mix, built note by note and summed per
  sample.
- `Combined`: the returned clip.

`combine_notes` calls `get_envelope` without passing its own `sr`, so every
envelope is sized at 16000 samples per second whatever `sr` the clip uses.
The model keeps this. `Mixer.DefaultRateWindowFits` shows that at the
default rate the window of every note with `0 <= t_start <= t_end` (ending by
the last end time) fits the clip. `Mixer.OtherRateWindowOverflows` shows that
at another rate it may not.

## Model

| member | source | states |
|---|---|---|
| `Numeric.Trunc` | resources/demos/gansynth.py:64-66 | Python `int()` on a float truncates toward zero: the result is within one of `x` on the side of 0 |
| `Numeric.SeqMax` | resources/demos/gansynth.py:98 | `a.max()` of a non-empty array is one of its elements and bounds every element |
| `Numeric.MaxOf` | resources/demos/gansynth.py:106 | the scan for the maximum of a non-empty array returns `SeqMax` of its contents |
| `Numeric.DivideInPlace` | resources/demos/gansynth.py:106-107 | in-place `a /= d` leaves every element divided by `d` |
| `Numeric.ScaleInPlace` | resources/demos/gansynth.py:99 | in-place `a *= c` leaves every element multiplied by `c` |
| `Numeric.MaxNormalised` | resources/demos/gansynth.py:98 | dividing by a positive maximum puts the maximum at exactly 1 |
| `Numeric.PeakNormalisedThenScaled` | resources/demos/gansynth.py:98-99 | peak normalisation followed by scaling by `c >= 0` leaves the maximum at `c` |
| `Numeric.PeakNormalisedThenHalved` | resources/demos/gansynth.py:106-107 | peak normalisation followed by halving leaves the maximum at 0.5 |
| `NoteFilter.Select` | resources/demos/gansynth.py:55-58 | boolean indexing keeps as many entries as the mask has set bits, all taken from the array |
| `NoteFilter.LoadMidi` | resources/demos/gansynth.py:50-58 | the four filtered arrays have equal length, no longer than the input, and every kept pitch is in range |
| `NoteFilter.LoadMidiKeepsInRangeNotes` | resources/demos/gansynth.py:50-58 | read back index by index, the filtered arrays are exactly the in-range notes, in their original order |
| `NoteFilter.FilterNotesMembership` | resources/demos/gansynth.py:54 | a note is kept if and only if it is in the input with its pitch in range |
| `NoteFilter.FilterNotesKeepsAll` | resources/demos/gansynth.py:54-58 | when every pitch is in range nothing is dropped |
| `Envelope.SizesFor` | resources/demos/gansynth.py:63-66 | non-negative times give non-negative section sizes, and the sustain never exceeds `sr * 3` samples because the note length is capped first |
| `Envelope.Linspace` | resources/demos/gansynth.py:70-72 | `np.linspace(start, stop, n)` starts at `start` and, with two or more samples, ends exactly at `stop`; a one-sample ramp is `start` |
| `Envelope.GetEnvelope` | resources/demos/gansynth.py:61-73 | the returned buffer is a fresh array equal to `Curve` of the sizes computed from the capped note length, attack and release |
| `Envelope.Fill` | resources/demos/gansynth.py:67-72 | ones, then the attack ramp over the head, then the release ramp over the tail, give `Curve`, with the release overriding any overlap |
| `Envelope.CurveLength` | resources/demos/gansynth.py:63-67 | the buffer holds `int(sr * min(t, 3)) + int(sr * t_release)` samples |
| `Envelope.AttackAddsNoLength` | resources/demos/gansynth.py:64-67 | two attack durations give buffers of the same length |
| `Envelope.LongNotesCapped` | resources/demos/gansynth.py:63 | any note of 3 s or more gets the sizes of a 3 s note |
| `Envelope.CurveAttack` | resources/demos/gansynth.py:70 | head sample `k` before the release is `k / (i_attack - 1)`: 0 at the start and 1 at the ramp's last sample |
| `Envelope.CurvePlateau` | resources/demos/gansynth.py:68-72 | samples between the attack ramp and the sustain's end are 1 |
| `Envelope.CurveRelease` | resources/demos/gansynth.py:72 | tail sample `j` is `1 - j / (i_release - 1)` whatever the attack wrote, and the last sample is 0 |
| `Envelope.ShortRamps` | resources/demos/gansynth.py:70-72 | a one-sample `linspace` ramp is its start value: 0 for the attack, 1 for the release |
| `Envelope.CurveIsGain` | resources/demos/gansynth.py:68-72 | every envelope value lies in `[0, 1]` |
| `Envelope.DefaultOneSecondNote` | resources/demos/gansynth.py:61-73 | a 1 s note with the defaults gives 160/16000/4800 samples, 20800 in all, starting at 0, reaching 1 at sample 159, ending at 0 |
| `Mixer.ClipLength` | resources/demos/gansynth.py:88-89 | with a non-negative last end time the clip holds at least `3 * sr` samples and, for a positive rate, more than `(max(end_times) + 2) * sr` |
| `Mixer.WholeSecondsCover` | resources/demos/gansynth.py:88-89 | `int(m + 3.0) * sr` for `m >= 0` is at least three seconds of samples and more than `m + 2` seconds of them |
| `Mixer.NoteSizes` | resources/demos/gansynth.py:93-94 | the envelope is sized at the default 16000 Hz whatever the clip's `sr`: 160 attack and 4800 release samples, and a sustain of 0 to 48000 samples for `t_start <= t_end` |
| `Mixer.Offset` | resources/demos/gansynth.py:101 | `clip_start = int(t_start * sr)` is the whole number of samples at or below `t_start * sr` for a non-negative start, and is at most 0 for a negative one |
| `Mixer.NoteAudio` | resources/demos/gansynth.py:95-99 | a rendered note is exactly as long as its envelope |
| `Mixer.ScoreNote` | resources/demos/gansynth.py:91-99 | note `i` of the inputs is rendered to the length of its envelope |
| `Mixer.Overlay` | resources/demos/gansynth.py:103 | the slice `+=` keeps the clip's length |
| `Mixer.OverlayAt` | resources/demos/gansynth.py:101-103 | the slice `+=` adds the note to the samples of its window `[clip_start, clip_start + len)` and changes no other sample |
| `Mixer.OverlaysCommute` | resources/demos/gansynth.py:103 | overlapping notes add, so the order in which two notes are added does not matter |
| `Mixer.Mixed` | resources/demos/gansynth.py:89-103 | the clip built note by note keeps the length of the zero-filled buffer |
| `Mixer.MixedAt` | resources/demos/gansynth.py:89-103 | every sample of the mix equals the sum of what the notes whose windows cover it contribute |
| `Mixer.UncoveredSampleSilent` | resources/demos/gansynth.py:89-103 | a sample outside every note's window stays 0 |
| `Mixer.ScoreRendered` | resources/demos/gansynth.py:91-103 | each playable note is rendered as `NoteAudio`, placed at `int(t_start * sr)`, and its window lies in the clip |
| `Mixer.RawClip` | resources/demos/gansynth.py:87-104 | the mix before the final normalisation is `int(max(end_times) + 3) * sr` samples long |
| `Mixer.Combined` | resources/demos/gansynth.py:105-108 | the returned clip has the same length as the buffer |
| `Mixer.ShapeNote` | resources/demos/gansynth.py:96 | `audio_notes[i, :length] * envelope` is the element-wise product of the audio's head and the envelope |
| `Mixer.AddSlice` | resources/demos/gansynth.py:101-103 | the in-place slice `+=` leaves the clip equal to `Overlay` of its old contents |
| `Mixer.RenderNote` | resources/demos/gansynth.py:93-99 | envelope, shaping, peak normalisation and velocity scaling produce exactly `NoteAudio` |
| `Mixer.PlaceNote` | resources/demos/gansynth.py:91-103 | one pass of the loop adds note `i`, as rendered, at its offset and changes nothing else |
| `Mixer.AddNotes` | resources/demos/gansynth.py:91-103 | the loop leaves the clip equal to `Mixed` over all visited notes, in order |
| `Mixer.NormaliseClip` | resources/demos/gansynth.py:105-107 | the clip ends up divided by its old maximum and then by 2 |
| `Mixer.CombineNotes` | resources/demos/gansynth.py:75-108 | the result is a fresh array of `int(max(end_times) + 3) * sr` samples equal to `Combined` of the inputs |
| `Mixer.ShapedPeakPositive` | resources/demos/gansynth.py:72-98 | the release ends at 0, so the shaped note's last sample is 0 and a non-zero peak `audio_note.max()` is positive |
| `Mixer.NotePeak` | resources/demos/gansynth.py:98-99 | every shapeable note with a non-negative velocity peaks at exactly `velocity / 127` after normalisation and scaling |
| `Mixer.CombinedPeak` | resources/demos/gansynth.py:106-107 | with a positive peak before normalisation, the returned clip peaks at exactly 0.5 |
| `Mixer.DefaultRateWindowFits` | resources/demos/gansynth.py:88-103 | at sr = 16000, a note with `0 <= t_start <= t_end <= max(end_times)` starts at a non-negative sample and its window fits the clip |
| `Mixer.OtherRateWindowOverflows` | resources/demos/gansynth.py:89-103 | at sr = 8000, a 3 s note from 0 s needs 52800 samples of a 48000-sample clip |
| `Mixer.ClipLengthWholeSeconds` | resources/demos/gansynth.py:88-89 | the seconds are truncated before the rate is applied: 1.5 s gives 64000 samples, not 72000 |
| `Fx.InputTreatment` | experimentations/datagen/fx.py:19-24 | both inputs are downmixed to mono if and only if either is mono, and peak normalisation goes with the mono downmix and sum normalisation with the unchanged layout |
| `Fx.InputTreatmentSymmetric` | experimentations/datagen/fx.py:19-24 | the choice is the same whichever input is the dry one |
| `Fx.OutputNormalization` | experimentations/datagen/fx.py:27 | the convolution is sum-normalised if and only if it is two-dimensional, and peak-normalised otherwise |
| `Fx.Convolve` | experimentations/datagen/fx.py:16-30 | `_convolve`: resample both inputs to `s_rate`, prepare both with the treatment chosen from their mono-ness, convolve with `conv_mod`, normalise by the result's dimensionality, convert to PCM. This is a definition; its properties are the rows of `InputTreatment`, `OutputNormalization` and `ConvolveSymmetric` |
| `Fx.ConvolveSymmetric` | experimentations/datagen/fx.py:16-30 | when the library's convolution is commutative, `_convolve(dry, fx) == _convolve(fx, dry)`, because both inputs are prepared alike |
| `Fx.ApplyFxs` | experimentations/datagen/fx.py:32-41 | with zero frames the result is empty and no call is made. Otherwise there is one result per effect, `result[k] == func(dry, fxs[k])`, and the calls go in order with the same `dry`. An empty `fxs` gives an empty result |
| `Fx.ApplyConvolutions` | experimentations/datagen/fx.py:32-41 | with the default effect function, result `k` is `_convolve(dry, fxs[k])` |

## Left out

- Floating point: samples, times and ratios are exact reals. Rounding in `sr * t`, `linspace` and the divisions is not modelled.
- MIDI parsing (`music.midi_file_to_sequence_proto`) and path expansion. `load_midi` starts from a decoded list of notes, and the `ns` it also returns is that list.
- Model loading, the TensorFlow generation of `audio_notes`, the plotting helpers, WAV writing and the script's top-level flow.
- In `fx.py`, the library internals are parameters (the `Library` record): resampling, channel conversion, the normalisation bodies, scipy's `convolve` and `__float2pcm`. The TOML settings `s_rate` and `conv_mod` are the `Config` record.
- Fx.ApplyFxs: `func` is a pure function value. Effects with side effects, and exceptions raised by `func`, are not modelled. The ghost `calls` log stands for "which calls were made".
- Mixer.CombineNotes: requires at least one end time (`end_times.max()` raises on an empty array) and a positive clip length. `np.zeros` raises on a negative size, and `audio_clip.max()` raises on an empty clip.
- Mixer.CombineNotes: requires every visited note to be playable:
  - its envelope is buildable and non-empty;
  - the audio row is at least as long as the envelope;
  - its window lies inside the clip.

  It also requires the peak of the shaped note and of the mix to be non-zero. Without these, numpy either raises a ValueError or divides by zero (giving NaN/−inf), which the model does not represent. The ValueError comes from a shape mismatch, or from the max of an empty array.
- Mixer.CombineNotes: a negative `clip_start` is excluded. numpy handles it in two ways, and the model represents neither:
  - For `-len(envelope) <= clip_start < 0`, the slice `audio_clip[clip_start:clip_end]` is empty and `+=` raises a shape error.
  - For `-N <= clip_start < -len(envelope)`, where `N` is the clip length, the note is added to a window counted back from the clip's end.
  - For `clip_start < -N`, Python clamps the slice start to 0, so the slice is shorter than the note or empty. `+=` then raises a shape error.
- Mixer.CombineNotes: an audio row of length 1, which numpy would broadcast against a longer envelope, is excluded.
- Mixer.NotePeak: stated for a non-negative velocity only. A negative MIDI velocity does not occur. Scaling by a negative factor would make the maximum come from the note's minimum.
- Mixer.CombinedPeak: stated for a positive peak of the mix only. A mix whose every sample is covered by overlapping notes could in principle peak below 0, and dividing by that peak flips signs.
- Envelope.GetEnvelope: requires sizes numpy accepts:
  - no negative section;
  - an attack ramp that fits the buffer, or is a single sample, which numpy broadcasts even into an empty buffer.

  A negative attack or release, or a sustain of -2 samples or fewer, makes numpy raise, and the model does not represent that. A sustain between -1 and 0 samples, such as `int(-0.16) = 0`, truncates to 0 and is accepted.
- Envelope.GetEnvelope: excludes one corner numpy accepts: a sustain of exactly -1 sample with a one-sample release and an attack of at most one sample. An example is `get_envelope(-1.0, 0.0, 1.0, sr=1)`. numpy then returns an empty buffer, because the release value is broadcast into an empty slice. `combine_notes` never reaches this corner, since its envelopes always have a 4800-sample release.
