/** The program's entry point: the rule table, the melody, and chords on the melody's
    pitches, in that order. (The drum tracks it also generates are independent of these
    and are stated by Rhythm.Beat.CreateDrumPattern.) */
module Piece {
  import opened Notes
  import opened Rhythm
  import opened Melody
  import opened Harmony

  /** The pitches of a melody's notes, in order; None where the melody rests. */
  function Pitches(notes: seq<Note>): seq<Option<Pitch>>
  {
    seq(|notes|, i requires 0 <= i < |notes| => notes[i].pitch)
  }

  /** The pitches of the melody, collected note by note. */
  method Roots(notes: seq<Note>) returns (rootsList: seq<Option<Pitch>>)
    ensures rootsList == Pitches(notes)
  {
    rootsList := [];
    for i := 0 to |notes|
      invariant rootsList == Pitches(notes)[..i]
    {
      rootsList := rootsList + [notes[i].pitch];
    }
  }

  /** Generates the melody and its chords on a fresh rule table. The random choices are
      parameters: the key, the draws of the two motifs, and one pick per chord. */
  method Compose(motif: Motif, chord: Chord,
                 key1: Key, draws1: seq<Draw>, draws2: seq<Draw>,
                 picks: seq<bool>, transpose: (Note, int) -> Note)
    requires motif.rules == []
    requires AllValid(RuleTable(), draws1) && |draws1| >= 5
    requires AllValid(RuleTable(), draws2) && |draws2| >= 10
    requires |picks| == 180
    modifies motif, chord
    ensures motif.rules == RuleTable()
    ensures motif.melody == Composition(key1, Drawn(RuleTable(), draws1)[..10], Drawn(RuleTable(), draws2)[..20])
    ensures |chord.voices| == |old(chord.voices)|
    ensures forall k :: 0 <= k < |chord.voices| ==>
              chord.voices[k] == old(chord.voices)[k] + VoicePart(Progression(Pitches(motif.melody), picks), k, transpose)
    ensures forall k :: 0 <= k < |chord.voices| ==> |chord.voices[k]| == |old(chord.voices)[k]| + 180
  {
    motif.InitializeRules();
    assert motif.rules == RuleTable();
    motif.CreateMelody(key1, draws1, draws2);
    assert |motif.melody| == 180 by {
      assert |Drawn(RuleTable(), draws1)| >= 10 && |Drawn(RuleTable(), draws2)| >= 20;
    }

    var rootsList := Roots(motif.melody);
    chord.CreateChords(rootsList, picks, transpose);
  }
}
