/** Notes as the generators see them, and the two scales melodies are drawn from.
    The sequencer library's Note class is foreign: a note here is a plain value with the
    four attributes the generators set, and transposition is left to the caller. */
module Notes {

  datatype Option<+T> = None | Some(value: T)

  /** A pitch-class name such as "C" or "F#". */
  type Pitch = string

  /** A playable event. `pitch` is None for silence; `velocity` is None when the note is
      built without one and the library's default applies. */
  datatype Note = Note(pitch: Option<Pitch>, octave: int, duration: real, velocity: Option<real>)

  /** The one duration every generator uses: a tenth of a whole note. */
  const TENTH: real := 0.1

  /** The drum hit of the kick and snare tracks: a loud C in octave 3. */
  const DRUM_HIT: Note := Note(Some("C"), 3, TENTH, Some(1.0))

  /** The rest of the drum and melody tracks: no pitch, octave 1, velocity 0. */
  const REST: Note := Note(None, 1, TENTH, Some(0.0))

  /** The two keys of the scale table. */
  datatype Key = CMajor | GMajor

  function Tone(pitch: Pitch, octave: int): Note
  {
    Note(Some(pitch), octave, TENTH, None)
  }

  /** The scale table: one octave of each key, eight entries with the tonic repeated an
      octave higher at the end. */
  function Scale(key: Key): (scale: seq<Note>)
    ensures |scale| == 8
    ensures forall i :: 0 <= i < 8 ==> scale[i].pitch.Some? && scale[i].duration == TENTH
    ensures scale[7].pitch == scale[0].pitch && scale[7].octave == scale[0].octave + 1
  {
    match key
    case CMajor =>
      [Tone("C", 4), Tone("D", 4), Tone("E", 4), Tone("F", 4),
       Tone("G", 4), Tone("A", 4), Tone("B", 4), Tone("C", 5)]
    case GMajor =>
      [Tone("G", 4), Tone("A", 4), Tone("B", 4), Tone("C", 5),
       Tone("D", 5), Tone("E", 5), Tone("F#", 5), Tone("G", 5)]
  }
}
