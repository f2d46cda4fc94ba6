/** The chord generator: one chord per melody note, its quality chosen by the parity of
    the position where the note's pitch first occurs, played by a fixed number of voices
    that each receive exactly one note per chord. */
module Harmony {
  import opened Notes
  import opened Arith

  /** A chord as a root pitch (None for a rest) followed by the semitone distances of its
      other tones from the root. Element i of the chord tuple is the root for i == 0 and
      `intervals[i - 1]` after that, so the tuple has 1 + |intervals| elements. */
  datatype ChordSpec = ChordSpec(root: Option<Pitch>, intervals: seq<int>)

  /** The silent note that fills a voice the chord has no tone for. */
  const SILENT: Note := Note(None, 3, TENTH, None)

  /** The note that voice `index` plays for a chord: the root in octave 3 for the first
      voice, the root transposed by the matching interval at velocity 0.3 for the next
      voices while the chord has tones left, and a silent note for the voices beyond. */
  function VoiceNote(chord: ChordSpec, index: nat, transpose: (Note, int) -> Note): (note: Note)
    ensures index == 0 ==> note.pitch == chord.root && note.octave == 3 && note.velocity == None
    ensures 0 < index <= |chord.intervals| ==> note.velocity == Some(0.3)
    ensures index > |chord.intervals| ==> note == SILENT
  {
    var rootNote := Note(chord.root, 3, TENTH, None);
    if index == 0 then rootNote
    else if index < 1 + |chord.intervals| then
      transpose(rootNote, chord.intervals[index - 1]).(velocity := Some(0.3))
    else Note(None, 3, rootNote.duration, None)
  }

  /** The notes a voice plays for a list of chords, in order. */
  function VoicePart(chords: seq<ChordSpec>, index: nat, transpose: (Note, int) -> Note): (part: seq<Note>)
    ensures |part| == |chords|
  {
    if |chords| == 0 then []
    else VoicePart(chords[..|chords| - 1], index, transpose) + [VoiceNote(chords[|chords| - 1], index, transpose)]
  }

  /** A voice plays exactly one note per chord: note c is its note for chord c. */
  lemma {:induction false} VoicePartAt(chords: seq<ChordSpec>, index: nat, transpose: (Note, int) -> Note)
    ensures forall c :: 0 <= c < |chords| ==>
              VoicePart(chords, index, transpose)[c] == VoiceNote(chords[c], index, transpose)
    decreases |chords|
  {
    if |chords| > 0 {
      var init := chords[..|chords| - 1];
      VoicePartAt(init, index, transpose);
      forall c | 0 <= c < |init|
        ensures VoicePart(chords, index, transpose)[c] == VoiceNote(chords[c], index, transpose)
      {
        assert chords[c] == init[c];
      }
    }
  }

  /** A voice past the end of a chord is silent for that chord; the first voice always
      plays the chord's root; a voice within the chord plays the root transposed by its
      interval, at velocity 0.3. */
  lemma VoiceRoles(chords: seq<ChordSpec>, index: nat, transpose: (Note, int) -> Note, c: nat)
    requires c < |chords|
    ensures index > |chords[c].intervals| ==> VoicePart(chords, index, transpose)[c] == SILENT
    ensures index == 0 ==> VoicePart(chords, index, transpose)[c].pitch == chords[c].root
    ensures 0 < index <= |chords[c].intervals| ==> VoicePart(chords, index, transpose)[c].velocity == Some(0.3)
    ensures 0 < index <= |chords[c].intervals| ==>
              VoicePart(chords, index, transpose)[c] ==
              transpose(Note(chords[c].root, 3, TENTH, None), chords[c].intervals[index - 1]).(velocity := Some(0.3))
  {
    VoicePartAt(chords, index, transpose);
  }

  // ---------------------------------------------------------------------------
  // Choosing the chords

  /** The position of the first occurrence of a pitch (what a list's `index` returns). */
  function FirstIndex(roots: seq<Option<Pitch>>, root: Option<Pitch>): (first: nat)
    requires root in roots
    ensures first < |roots| && roots[first] == root
    ensures forall j :: 0 <= j < first ==> roots[j] != root
  {
    if roots[0] == root then 0 else 1 + FirstIndex(roots[1..], root)
  }

  /** The two qualities a chord may take when its root first occurs at an even position:
      major (4, 7) or minor (3, 7). */
  predicate EvenFamily(intervals: seq<int>)
  {
    intervals == [4, 7] || intervals == [3, 7]
  }

  /** The two qualities for an odd first position: diminished (3, 6) or seventh (4, 7, 10). */
  predicate OddFamily(intervals: seq<int>)
  {
    intervals == [3, 6] || intervals == [4, 7, 10]
  }

  lemma FamiliesDisjoint()
    ensures !EvenFamily([3, 6]) && !EvenFamily([4, 7, 10])
    ensures !OddFamily([4, 7]) && !OddFamily([3, 7])
  {
    assert [3, 6][0] != [4, 7][0] && [3, 6][1] != [3, 7][1];
    assert [4, 7][0] != [3, 6][0] && [3, 7][1] != [3, 6][1];
  }

  /** The chord for a root: the family by the parity of the root's first position, the
      member of the family by the random pick (false for the first option). */
  function ChordFor(roots: seq<Option<Pitch>>, root: Option<Pitch>, pick: bool): (chord: ChordSpec)
    requires root in roots
    ensures chord.root == root
    ensures |chord.intervals| == 3 <==> FirstIndex(roots, root) % 2 == 1 && pick
  {
    if FirstIndex(roots, root) % 2 == 0 then
      if pick then ChordSpec(root, [3, 7]) else ChordSpec(root, [4, 7])
    else
      if pick then ChordSpec(root, [4, 7, 10]) else ChordSpec(root, [3, 6])
  }

  /** One chord per root, in order. */
  function Progression(roots: seq<Option<Pitch>>, picks: seq<bool>): (chords: seq<ChordSpec>)
    requires |picks| == |roots|
    ensures |chords| == |roots|
    ensures forall i :: 0 <= i < |roots| ==> chords[i].root == roots[i]
  {
    seq(|roots|, i requires 0 <= i < |roots| => ChordFor(roots, roots[i], picks[i]))
  }

  /** The family of chord i follows the parity of the first position of its root, so
      equal pitches always get chords of the same family. */
  lemma ProgressionFamilies(roots: seq<Option<Pitch>>, picks: seq<bool>, i: nat, j: nat)
    requires |picks| == |roots| && i < |roots| && j < |roots|
    ensures EvenFamily(Progression(roots, picks)[i].intervals) <==> FirstIndex(roots, roots[i]) % 2 == 0
    ensures OddFamily(Progression(roots, picks)[i].intervals) <==> FirstIndex(roots, roots[i]) % 2 == 1
    ensures roots[i] == roots[j] ==>
              (EvenFamily(Progression(roots, picks)[i].intervals) <==>
               EvenFamily(Progression(roots, picks)[j].intervals))
  {
    FamiliesDisjoint();
  }

  /** When no pitch repeats, the families alternate with the position itself. */
  lemma DistinctRootsAlternate(roots: seq<Option<Pitch>>, picks: seq<bool>, i: nat)
    requires |picks| == |roots| && i < |roots|
    requires forall a, b :: 0 <= a < b < |roots| ==> roots[a] != roots[b]
    ensures EvenFamily(Progression(roots, picks)[i].intervals) <==> i % 2 == 0
  {
    assert FirstIndex(roots, roots[i]) == i;
    FamiliesDisjoint();
  }

  /** With four voices the last one plays only for a seventh chord and is silent for
      every triad. */
  lemma FourthVoice(roots: seq<Option<Pitch>>, picks: seq<bool>, transpose: (Note, int) -> Note, i: nat)
    requires |picks| == |roots| && i < |roots|
    ensures var chords := Progression(roots, picks);
            chords[i].intervals != [4, 7, 10] ==> VoicePart(chords, 3, transpose)[i] == SILENT
    ensures var chords := Progression(roots, picks);
            chords[i].intervals == [4, 7, 10] ==> VoicePart(chords, 3, transpose)[i].velocity == Some(0.3)
  {
    VoiceRoles(Progression(roots, picks), 3, transpose, i);
  }

  /** The chord voices. `voices[k]` holds the notes of voice k's sequencer. */
  class Chord {
    var voices: seq<seq<Note>>

    /** numSequencers empty voices. */
    constructor(numSequencers: int)
      ensures |voices| == Count(numSequencers)
      ensures forall k :: 0 <= k < |voices| ==> voices[k] == []
    {
      var sequencers: seq<seq<Note>> := [];
      for i := 0 to Count(numSequencers)
        invariant |sequencers| == i
        invariant forall k :: 0 <= k < i ==> sequencers[k] == []
      {
        sequencers := sequencers + [[]];
      }
      voices := sequencers;
    }

    /** Appends a note to one voice. */
    method AddNote(index: nat, newNote: Note)
      requires index < |voices|
      modifies this
      ensures voices == old(voices)[index := old(voices)[index] + [newNote]]
    {
      var currentNotes := voices[index];
      currentNotes := currentNotes + [newNote];
      voices := voices[index := currentNotes];
    }

    /** Gives every voice its note for one chord. */
    method AddChord(chord: ChordSpec, transpose: (Note, int) -> Note)
      modifies this
      ensures |voices| == |old(voices)|
      ensures forall k :: 0 <= k < |voices| ==> voices[k] == old(voices)[k] + [VoiceNote(chord, k, transpose)]
    {
      var rootNote := Note(chord.root, 3, TENTH, None);
      for index := 0 to |voices|
        invariant |voices| == |old(voices)|
        invariant forall k :: 0 <= k < index ==> voices[k] == old(voices)[k] + [VoiceNote(chord, k, transpose)]
        invariant forall k :: index <= k < |voices| ==> voices[k] == old(voices)[k]
      {
        if index == 0 {
          AddNote(index, rootNote);
        } else if index < 1 + |chord.intervals| {
          var semitone := chord.intervals[index - 1];
          var newNote := transpose(rootNote, semitone).(velocity := Some(0.3));
          AddNote(index, newNote);
        } else {
          AddNote(index, Note(None, 3, rootNote.duration, None));
        }
      }
    }

    /** Gives every voice one note per chord, chord by chord, so every voice grows by the
        number of chords. */
    method AddChords(chordsList: seq<ChordSpec>, transpose: (Note, int) -> Note)
      modifies this
      ensures |voices| == |old(voices)|
      ensures forall k :: 0 <= k < |voices| ==>
                voices[k] == old(voices)[k] + VoicePart(chordsList, k, transpose)
    {
      for c := 0 to |chordsList|
        invariant |voices| == |old(voices)|
        invariant forall k :: 0 <= k < |voices| ==>
                    voices[k] == old(voices)[k] + VoicePart(chordsList[..c], k, transpose)
      {
        AddChord(chordsList[c], transpose);
        assert chordsList[..c + 1][..c] == chordsList[..c];
      }
      assert chordsList[..|chordsList|] == chordsList;
    }

    /** Picks a chord for every root and gives them to the voices. */
    method CreateChords(rootsList: seq<Option<Pitch>>, picks: seq<bool>, transpose: (Note, int) -> Note)
      requires |picks| == |rootsList|
      modifies this
      ensures |voices| == |old(voices)|
      ensures forall k :: 0 <= k < |voices| ==>
                voices[k] == old(voices)[k] + VoicePart(Progression(rootsList, picks), k, transpose)
    {
      var chordsList := [];
      for i := 0 to |rootsList|
        invariant chordsList == Progression(rootsList, picks)[..i]
      {
        var root := rootsList[i];
        var chord;
        if FirstIndex(rootsList, root) % 2 == 0 {
          chord := if picks[i] then ChordSpec(root, [3, 7]) else ChordSpec(root, [4, 7]);
        } else {
          chord := if picks[i] then ChordSpec(root, [4, 7, 10]) else ChordSpec(root, [3, 6]);
        }
        chordsList := chordsList + [chord];
      }
      assert chordsList == Progression(rootsList, picks);
      AddChords(chordsList, transpose);
    }
  }
}
