/**
 * The pitch-range filter of `load_midi` in the GANSynth demo. The MIDI file
 * is taken as already decoded into a sequence of note records; the filter
 * splits it into four parallel arrays (pitches, velocities, start and end
 * times) and keeps, with one boolean mask, the notes whose pitch lies in
 * `[minPitch, maxPitch]`.
 */
module NoteFilter {

  /** One decoded MIDI note. */
  datatype Note = Note(pitch: int, velocity: int, startTime: real, endTime: real)

  /** The four parallel arrays `load_midi` returns in its `notes` dictionary. */
  datatype NoteArrays = NoteArrays(
    pitches: seq<int>,
    velocities: seq<int>,
    startTimes: seq<real>,
    endTimes: seq<real>)
  {
    predicate Aligned() {
      |velocities| == |pitches| && |startTimes| == |pitches| && |endTimes| == |pitches|
    }
  }

  predicate InRange(n: Note, minPitch: int, maxPitch: int) {
    minPitch <= n.pitch && n.pitch <= maxPitch
  }

  /** `np.array([n.pitch for n in ns.notes])` and its three siblings. */
  function Pitches(ns: seq<Note>): seq<int> { seq(|ns|, i requires 0 <= i < |ns| => ns[i].pitch) }
  function Velocities(ns: seq<Note>): seq<int> { seq(|ns|, i requires 0 <= i < |ns| => ns[i].velocity) }
  function StartTimes(ns: seq<Note>): seq<real> { seq(|ns|, i requires 0 <= i < |ns| => ns[i].startTime) }
  function EndTimes(ns: seq<Note>): seq<real> { seq(|ns|, i requires 0 <= i < |ns| => ns[i].endTime) }

  /** `logical_and(pitches >= minPitch, pitches <= maxPitch)`. */
  function ValidMask(pitches: seq<int>, minPitch: int, maxPitch: int): seq<bool> {
    seq(|pitches|, i requires 0 <= i < |pitches| => minPitch <= pitches[i] && pitches[i] <= maxPitch)
  }

  /** Number of set entries of a mask. */
  function CountTrue(mask: seq<bool>): nat {
    if mask == [] then 0 else (if mask[0] then 1 else 0) + CountTrue(mask[1..])
  }

  /** numpy boolean indexing `xs[mask]`: the entries whose mask bit is set, in order. */
  function Select<T>(xs: seq<T>, mask: seq<bool>): (r: seq<T>)
    requires |xs| == |mask|
    ensures |r| == CountTrue(mask)
    ensures forall x :: x in r ==> x in xs
  {
    if xs == [] then []
    else (if mask[0] then [xs[0]] else []) + Select(xs[1..], mask[1..])
  }

  /** `load_midi` after MIDI decoding: one mask filters the four columns. */
  function LoadMidi(ns: seq<Note>, minPitch: int, maxPitch: int): (r: NoteArrays)
    ensures r.Aligned()
    ensures |r.pitches| <= |ns|
    ensures forall p :: p in r.pitches ==> minPitch <= p <= maxPitch
  {
    var valid := ValidMask(Pitches(ns), minPitch, maxPitch);
    SelectedInRange(Pitches(ns), minPitch, maxPitch);
    CountTrueBound(valid);
    NoteArrays(
      Select(Pitches(ns), valid),
      Select(Velocities(ns), valid),
      Select(StartTimes(ns), valid),
      Select(EndTimes(ns), valid))
  }

  /** Reads the aligned arrays back as note records, index by index. */
  function Zip(a: NoteArrays): seq<Note>
    requires a.Aligned()
  {
    seq(|a.pitches|, i requires 0 <= i < |a.pitches| =>
      Note(a.pitches[i], a.velocities[i], a.startTimes[i], a.endTimes[i]))
  }

  /** Reference definition: the in-range notes of `ns`, in their original order. */
  function FilterNotes(ns: seq<Note>, minPitch: int, maxPitch: int): seq<Note> {
    if ns == [] then []
    else (if InRange(ns[0], minPitch, maxPitch) then [ns[0]] else []) + FilterNotes(ns[1..], minPitch, maxPitch)
  }

  lemma {:induction false} CountTrueBound(mask: seq<bool>)
    ensures CountTrue(mask) <= |mask|
  {
    if mask != [] {
      CountTrueBound(mask[1..]);
    }
  }

  lemma {:induction false} SelectedInRange(pitches: seq<int>, minPitch: int, maxPitch: int)
    ensures forall p :: p in Select(pitches, ValidMask(pitches, minPitch, maxPitch)) ==> minPitch <= p <= maxPitch
  {
    if pitches != [] {
      assert ValidMask(pitches, minPitch, maxPitch)[1..] == ValidMask(pitches[1..], minPitch, maxPitch);
      SelectedInRange(pitches[1..], minPitch, maxPitch);
    }
  }

  /**
   * The four filtered arrays, read back index by index, are exactly the
   * notes of `ns` whose pitch is in range, in their original order.
   */
  lemma {:induction false} LoadMidiKeepsInRangeNotes(ns: seq<Note>, minPitch: int, maxPitch: int)
    ensures Zip(LoadMidi(ns, minPitch, maxPitch)) == FilterNotes(ns, minPitch, maxPitch)
  {
    if ns != [] {
      LoadMidiKeepsInRangeNotes(ns[1..], minPitch, maxPitch);
      LoadMidiFirstNote(ns, minPitch, maxPitch);
    }
  }

  /** Filtering a non-empty list keeps or drops its first note, then filters the rest. */
  lemma LoadMidiFirstNote(ns: seq<Note>, minPitch: int, maxPitch: int)
    requires ns != []
    ensures Zip(LoadMidi(ns, minPitch, maxPitch))
      == (if InRange(ns[0], minPitch, maxPitch) then [ns[0]] else []) + Zip(LoadMidi(ns[1..], minPitch, maxPitch))
  {
    ColumnsOfTail(ns, minPitch, maxPitch);
    var r, rest := LoadMidi(ns, minPitch, maxPitch), LoadMidi(ns[1..], minPitch, maxPitch);
    if InRange(ns[0], minPitch, maxPitch) {
      assert r.pitches == [ns[0].pitch] + rest.pitches;
      assert r.velocities == [ns[0].velocity] + rest.velocities;
      assert r.startTimes == [ns[0].startTime] + rest.startTimes;
      assert r.endTimes == [ns[0].endTime] + rest.endTimes;
      assert Zip(r) == [ns[0]] + Zip(rest);
    } else {
      assert r == rest;
    }
  }

  /** The columns and the mask of `ns[1..]` are those of `ns` without their first entry. */
  lemma ColumnsOfTail(ns: seq<Note>, minPitch: int, maxPitch: int)
    requires ns != []
    ensures ValidMask(Pitches(ns), minPitch, maxPitch)[1..] == ValidMask(Pitches(ns[1..]), minPitch, maxPitch)
    ensures Pitches(ns)[1..] == Pitches(ns[1..])
    ensures Velocities(ns)[1..] == Velocities(ns[1..])
    ensures StartTimes(ns)[1..] == StartTimes(ns[1..])
    ensures EndTimes(ns)[1..] == EndTimes(ns[1..])
  {
  }

  /** A note survives the filter exactly when it occurs in `ns` with its pitch in range. */
  lemma {:induction false} FilterNotesMembership(ns: seq<Note>, minPitch: int, maxPitch: int, n: Note)
    ensures n in FilterNotes(ns, minPitch, maxPitch) <==> n in ns && InRange(n, minPitch, maxPitch)
  {
    if ns != [] {
      FilterNotesMembership(ns[1..], minPitch, maxPitch, n);
      assert ns == [ns[0]] + ns[1..];
    }
  }

  /** When every note is in range nothing is dropped. */
  lemma {:induction false} FilterNotesKeepsAll(ns: seq<Note>, minPitch: int, maxPitch: int)
    requires forall i :: 0 <= i < |ns| ==> InRange(ns[i], minPitch, maxPitch)
    ensures FilterNotes(ns, minPitch, maxPitch) == ns
  {
    if ns != [] {
      FilterNotesKeepsAll(ns[1..], minPitch, maxPitch);
    }
  }
}
