# Music-Programming generative engine in Dafny

A model of the music generator in `main.py`: the program that builds a drum groove, a
melody and a four-voice chord accompaniment from a handful of random choices and plays
them on sequencers. The model covers the three generators and the `main()` glue.

- **Rhythm** (`rhythm.dfy`, the `Beat` class). This is the bracelet construction that
  spreads beats ('X') evenly among rests ('.'), also known as a Euclidean rhythm.
  - `addBeads` pops rests off the end of the unused list and appends each to the bead
    under a wrapping cursor; `substituteBeads` cuts the bracelet there.
  - `generateRhythm` repeats those rounds, strings the beads together and shifts the
    result right (a shift that pads with rests, not a rotation).
  - `createDrumPattern` decodes two kick and two snare patterns into notes laid out A B A B A B B.
  - Each loop is proved against specification functions (`Deal`, `Cursor`, `Round`,
    `Tile`, `Pattern`, `Shift`, `Decodes`). The lemmas show that a round keeps every
    character and shortens the bracelet, and that a pattern holds exactly its beats and rests.
  - Evenness is proved round by round. When every bead is the same, each bracelet bead
    receives ⌊u/n⌋ or ⌈u/n⌉ of the u unused beads. The beads with the extra one come first
    and form the new bracelet. When the beats divide the rests, the pattern is evenly
    spaced beats; for example, 4 beats and 28 rests give one beat every eighth step.
- **Melody** (`melody.dfy`, the `Rule` and `Motif` classes).
  - The rule table has eleven two-step rules, weighted 100, 75 and 50.
  - `getNextRule` is a rejection sampler. Its random draws are a `Draw` value; `FirstAccepted` says where it stops.
  - `generateMotif` takes the degrees of the accepted rules, cut at the requested length.
  - A scale walk moves the position by each degree modulo the scale length. `WalkAt`
    gives its closed form: note k sits at the start plus the first k+1 degrees.
  - The five transformations (normal, sequential, inverted, retrograde,
    sequential-inverted) are variations of that walk.
  - `createMelody` strings six phrases into the song template and closes sections with rests.
- **Harmony** (`harmony.dfy`, the `Chord` class).
  - `createChords` picks a chord family by the parity of the position where the root's
    pitch first occurs in the list (`list.index`), so repeated pitches stay in one family.
  - `addChords` gives every voice exactly one note per chord: the root, a transposed
    tone at velocity 0.3, or a silent note.
- **Notes** (`notes.dfy`): notes as plain values, the rest and drum-hit notes, and the
  two eight-entry scales of the scale table. **Arith** (`arith.dfy`): facts about
  Python's `%` for a positive divisor, which agrees with Dafny's Euclidean `%`.
- **Piece** (`piece.dfy`): `main()` as one method that runs the generators in order on
  the shared rule table.

Random choices are inputs:
- the four `randrange` results of `createDrumPattern`;
- one `Draw` per `getNextRule` call (the rule positions successive `choice` calls return, and the threshold);
- the key chosen for the melody;
- one boolean per chord.

Transposition (`Note.getNote` of the sequencer library) is a function parameter.

## Model

| member | source | states |
|---|---|---|
| Rhythm.CreateList | main.py:82-87 | the list holds numVal copies of val, none when numVal is not positive |
| Rhythm.CopyList | main.py:89-94 | the result is exactly the slice from startIndex to endIndex, empty when the range is empty |
| Rhythm.SubstituteBeads | main.py:96-102 | the two lists are the bracelet cut at index: the front has index beads and front + back is the bracelet |
| Rhythm.AddBeads | main.py:104-118 | one round equals the `Round` specification (deal from the end of the unused list at a wrapping cursor, cut at the cursor); the bracelet gets strictly shorter and no character is gained or lost |
| Rhythm.Deal | main.py:110-115 | the specification of addBeads' loop: popping unused beads off the end onto the bead under a wrapping cursor keeps the number of bracelet beads |
| Rhythm.Round | main.py:104-118 | the two lists of a round together hold as many beads as the old bracelet, and a non-empty bracelet gets strictly shorter, so the loop of generateRhythm ends |
| Rhythm.CursorIsMod | main.py:110-115 | the cursor after dealing c beads from position i stops at (i + c) mod n |
| Rhythm.DealPreserves | main.py:110-115 | dealing moves characters from the unused list to the bracelet without creating or losing any |
| Rhythm.RoundPreserves | main.py:104-118 | a round keeps the multiset of characters of both lists, and the new bracelet length is the number of unused beads modulo the old length |
| Rhythm.TilePreserves | main.py:120-132 | repeated rounds followed by stringing together keep every character |
| Rhythm.Tile | main.py:126-132 | the specification of generateRhythm's loop and its stringing together; its properties are stated by TilePreserves, TileStep, TileDone and PatternDivides |
| Rhythm.TileStep | main.py:126-127 | an unfolding step of `Tile`, used as the loop invariant of generateRhythm: a round leaves the final pattern unchanged |
| Rhythm.TileDone | main.py:126-132 | an unfolding step of `Tile`: when either list is down to one bead the pattern is the two lists strung together |
| Rhythm.Pattern | main.py:120-132 | the unshifted pattern of generateRhythm: the beats and rests tiled by rounds and strung together; its properties are stated by PatternCounts, PatternDivides and PatternFourInThirtyTwo |
| Rhythm.DealUniform | main.py:110-115 | dealing copies of one bead appends to bead j exactly as many copies as the wrapping cursor drops on j |
| Rhythm.DealtShare | main.py:110-115 | dealing u beads from position 0 over n beads puts ⌊u/n⌋ on every bead and one more on each of the first u mod n |
| Rhythm.RoundEven | main.py:104-118 | one round on lists of identical beads gives each bracelet bead ⌊u/n⌋ or ⌈u/n⌉ of the unused beads, and the new bracelet is exactly the u mod n beads with the extra one; both new lists again hold identical beads |
| Rhythm.PatternDivides | main.py:120-132 | when the beats divide the rests, the pattern is numBeats copies of a beat followed by numRests / numBeats rests |
| Rhythm.PatternFourInThirtyTwo | main.py:158 | the first snare pattern before its shift by 2, that is the unshifted `Pattern(4, 28)` of 4 beats among 28 rests, has a beat every eighth step and no two beats next to each other |
| Rhythm.PatternCounts | main.py:120-132 | the unshifted pattern has numBeats + numRests characters, exactly numBeats 'X's and numRests '.'s |
| Rhythm.GenerateRhythm | main.py:120-139 | the result is the shifted `Pattern`; its length is numBeats + numRests; with offset 0 it holds exactly numBeats 'X's and numRests '.'s |
| Rhythm.Shift | main.py:133-138 | the offset loop as a function: the shifted rhythm has the same length and offset 0 leaves it unchanged; ShiftRight and ShiftDrops state where each character goes |
| Rhythm.StringTogether | main.py:128-132 | the rhythm is the bracelet's beads followed by the unused beads, in order |
| Rhythm.ShiftRight | main.py:133-138 | same length; position i is '.' below offset and the character offset places earlier otherwise |
| Rhythm.ShiftDrops | main.py:133-138 | the shift is min(offset, n) rests followed by the rhythm with its last min(offset, n) characters dropped |
| Rhythm.DecodePattern | main.py:141-149 | one note per character: the beat note exactly where the pattern has 'X', the rest note elsewhere |
| Rhythm.Decodes | main.py:143-149 | the specification of decodePattern: one note per character, the beat note for 'X' and the rest note for anything else; DecodePattern and CreateDrumPattern are proved against it |
| Rhythm.Arrange | main.py:160-163 | a track laid out A B A B A B B has 3·|A| + 4·|B| steps |
| Rhythm.KickLength | main.py:156-161 | the kick track has 3·(beats1 + rests1) + 4·(beats2 + rests2) steps |
| Rhythm.SnareLength | main.py:158-163 | the snare track has 160 steps |
| Rhythm.Beat.constructor | main.py:77-80 | the kick and snare tracks start empty |
| Rhythm.Beat.CreateDrumPattern | main.py:151-165 | kick and snare decode the A B A B A B B arrangements of their patterns (the kick unshifted, the snare shifted by 2 and 3) into drum hits and rests |
| Notes.Scale | main.py:373-380 | each key's scale has eight pitched tenth-note entries, the last the first an octave higher |
| Melody.RuleTable | main.py:173-183 | eleven rules: four at weight 100, four at 75, three at 50, each of two degrees |
| Melody.Motif.constructor | main.py:169-171 | the melody track starts empty, and so does the rules list, which the program creates empty before main() runs |
| Melody.Motif.AddRules | main.py:178-183 | one loop of initializeRules: the rules list is extended by one rule per step list, all with the given weight, and the melody is untouched |
| Melody.Motif.InitializeRules | main.py:173-183 | the rule table is appended to the shared rules list and the melody is untouched |
| Melody.FirstAccepted | main.py:185-191 | the sampler stops at the first pick whose rule's weight reaches the threshold; every earlier pick is rejected |
| Melody.Accepted | main.py:185-191 | the returned rule is in the table and its weight is at least the threshold |
| Melody.CommonRulesAccepted | main.py:185-191 | a weight-100 rule is accepted at every threshold the sampler draws, so the sampler stops there at the latest |
| Melody.Motif.GetNextRule | main.py:185-191 | the rejection loop returns the rule of the first accepted pick; it is in the table and its weight is at least the threshold |
| Melody.Motif.GenerateMotif | main.py:193-201 | exactly numNotes degrees (none for a non-positive count), the degrees of the accepted rules in draw order cut at numNotes |
| Melody.Drawn | main.py:196-200 | the degrees generateMotif's loop collects from a list of draws, the accepted rules' degrees in draw order; with two-degree rules, two degrees per draw |
| Melody.DrawnPrefix | main.py:193-201 | fewer draws give a prefix of the degrees |
| Melody.DrawnSnoc | main.py:193-201 | one more draw appends the degrees of its accepted rule |
| Melody.DrawnPairs | main.py:193-201 | with two-degree rules, degrees 2i and 2i+1 are the two degrees of draw i's accepted rule |
| Melody.TakeSnoc | main.py:196-200 | appending one degree to a list capped at n grows it only while it is shorter than n |
| Melody.Walk | main.py:203-215 | a walk emits exactly one note per degree |
| Melody.WalkStep | main.py:209-214 | an unfolding step of `Walk`; the starting note is not emitted: the first note is where the first degree leads; the rest is the walk of the remaining degrees from there |
| Melody.WalkAt | main.py:203-215 | note k of a walk from position s is the scale entry at (s + d0 + … + dk) mod the scale length |
| Melody.CreateMelodyFromMotif | main.py:203-215 | the notes are the walk of the motif over the key's scale from the given position |
| Melody.WalkScale | main.py:205-215 | the loop carrying only the previous position produces the walk |
| Melody.InvertMotif | main.py:224-226 | the inverted motif negates every degree |
| Melody.SumNegate | main.py:224-227 | negating every degree negates their sum |
| Melody.Backwards | main.py:230-232 | the notes collected from the last index down are the notes reversed, element by element |
| Melody.Normal | main.py:220 | the normal transformation, the walk from scale position 0, has one note per degree; TransformAt gives note k |
| Melody.Sequential | main.py:222 | the sequential transformation, the walk from scale position 2, has one note per degree; TransformAt gives note k |
| Melody.Inverted | main.py:224-227 | the inverted transformation, the walk of the negated degrees from position 0, has one note per degree; InversionAt gives note k |
| Melody.Retrograde | main.py:229-233 | the retrograde transformation, the normal walk played backwards, has one note per degree; TransformAt gives note k |
| Melody.SequentialInverted | main.py:235-238 | the sequential-inverted transformation, the walk of the negated degrees from position 3, has one note per degree; InversionAt gives note k |
| Melody.Transform | main.py:217-239 | the dispatch by name: a phrase, when the name is known, has one note per degree; TransformDefined states that exactly the five names are known |
| Melody.GenerateTransformation | main.py:217-239 | the result is the named transformation of the walk over the key's scale; None for any other name |
| Melody.TransformDefined | main.py:217-239 | exactly the five names give a phrase; each phrase has one note per degree, all taken from the scale |
| Melody.TransformAt | main.py:219-233 | with S the sum of the first k+1 degrees, normal note k is at S and sequential at 2+S, modulo the scale length; retrograde note k is normal note n-1-k |
| Melody.InversionAt | main.py:223-238 | inverted note k is at -S and sequential-inverted at 3-S, modulo the scale length |
| Melody.Other | main.py:244-248 | the second key is always the other one |
| Melody.Song | main.py:264-309 | the template has 4·|n1| + 2·|n2| + 3·|n3| + |n4| + 2·|n5| + 2·|n6| notes |
| Melody.SongLayout | main.py:264-309 | with 10- and 20-note phrases the song has 180 notes, rests at 19, 39, 79, 99 and 139, the phrases in template order elsewhere, and ends with n3 followed by n4 |
| Melody.Composition | main.py:241-309 | the melody of motifs of lengths a and b has 10a + 4b notes |
| Melody.CompositionLayout | main.py:241-309 | with motifs of 10 and 20 degrees: 180 notes, the five rests, and the last 40 notes are the inverted and the retrograde walks of the second motif in the first key |
| Melody.Motif.CreateMelody | main.py:241-309 | the melody is the `Composition` of the chosen key and the first 10 and 20 drawn degrees; the rules are untouched |
| Melody.AssembleSong | main.py:264-309 | the note list built by appends and pops equals the song template |
| Melody.Extend | main.py:266-308 | each append loop of createMelody extends the notes by exactly the phrase |
| Melody.AppendDegrees | main.py:198-200 | appending a rule's degrees while the motif is short extends the capped list by those degrees |
| Harmony.VoiceNote | main.py:327-338 | the note a voice plays for a chord: the root in octave 3 without a velocity for voice 0, velocity 0.3 for the voices within the chord, the silent note beyond it |
| Harmony.VoicePart | main.py:324-338 | a voice gets one note per chord |
| Harmony.VoicePartAt | main.py:324-338 | note c of a voice is that voice's note for chord c |
| Harmony.VoiceRoles | main.py:327-338 | the first voice plays the root; a voice within the chord plays the octave-3 root transposed by that voice's interval, at velocity 0.3; voices beyond it are silent |
| Harmony.Chord.constructor | main.py:313-316 | numSequencers empty voices |
| Harmony.Chord.AddNote | main.py:318-322 | the note is appended to one voice and every other voice is unchanged |
| Harmony.Chord.AddChord | main.py:326-338 | every voice gets exactly its note for one chord |
| Harmony.Chord.AddChords | main.py:324-338 | every voice grows by exactly one note per chord, its note for that chord |
| Harmony.FirstIndex | main.py:347 | the position of the first occurrence of a pitch: it holds the pitch and no earlier position does |
| Harmony.ChordFor | main.py:347-350 | the chord keeps its root, and it has three intervals (the (4, 7, 10) seventh chord, the only one the fourth voice sounds for) exactly when the root's first position is odd and the pick is true |
| Harmony.Progression | main.py:340-351 | one chord per root, each with that root |
| Harmony.FamiliesDisjoint | main.py:347-350 | the even family (4,7)/(3,7) and the odd family (3,6)/(4,7,10) share no chord |
| Harmony.ProgressionFamilies | main.py:340-351 | a chord is in the even family exactly when its pitch first occurs at an even position and in the odd family exactly when that position is odd, so equal pitches get the same family |
| Harmony.DistinctRootsAlternate | main.py:340-351 | when no pitch repeats, the families alternate with the position |
| Harmony.FourthVoice | main.py:324-351 | the fourth voice is silent for every triad and plays only for the seventh chord (4,7,10) |
| Harmony.Chord.CreateChords | main.py:340-351 | every voice grows by its part of the `Progression` of the roots and picks |
| Piece.Roots | main.py:37-39 | the roots are the pitches of the melody's notes, in order |
| Piece.Compose | main.py:33-40 | after the run the rules are the table, the melody is the `Composition` of the draws, and every voice has grown by its part of the chords on the melody's 180 pitches |

## Left out

- The graphics and audio side is not modelled: GUI play/pause/volume, the mouse, signal
  and step handlers, the falling letters, the shapes, the background colour and the
  tempo. The sequencer library's `Note` and `Sequencer` types are not part of this model.
  A note is a value with pitch, octave, duration and velocity, and a sequencer's notes are a sequence.
- `Note.getNote` (transposition) is a parameter `transpose`; nothing is assumed about it.
- `randrange` and `choice` are inputs (see above). Their distributions and the bias of
  the rejection sampler are not modelled.
- Durations and velocities (`1/10`, `0.3`, `1`, `0`) are fixed real constants that no contract does arithmetic on. Where a
  Note is built without a velocity, the library default is written `None`.
- Melody.Motif.GetNextRule: requires a draw whose picks contain an accepted one
  (`ValidDraw`). With a finite list of picks and none accepted, the source loop would
  keep drawing, which the model cannot express. `CommonRulesAccepted` shows that any
  weight-100 pick ends it.
- Melody.Motif.GetNextRule: `ValidDraw` also implies a non-empty rule table. With an
  empty table the source's `choice` raises an IndexError.
- Melody.Motif.GenerateMotif: requires draws whose accepted rules supply at least
  numNotes degrees. The source keeps drawing as long as needed.
- Melody.Motif.CreateMelody: requires draws that supply 10 and 20 degrees, as `GenerateMotif` does.
- Rhythm.CopyList: indices are natural numbers. Python's negative indices, which count
  from the end, are not modelled; the generators never pass them.
- Rhythm.CopyList: requires a non-empty range to end within the list. The source raises
  an IndexError there. An empty range, even one past the end, gives the empty list, as in the source.
- Rhythm.AddBeads: works on copies. The source mutates the caller's lists in place, but
  its only caller immediately replaces them with the returned lists.
- Rhythm.AddBeads: requires a non-empty bracelet when there are beads to deal. The
  source would fail with an IndexError there; its caller never does it.
- Rhythm.GenerateRhythm: the offset is a natural number. With a negative offset the
  source reads `rhythm[i + |offset|]`, which raises an IndexError on every non-empty rhythm.
- Rhythm.GenerateRhythm: evenness is proved for each round (`RoundEven`) and for the
  whole pattern when the beats divide the rests (`PatternDivides`). The general spacing
  bound is not proved: that the gaps between successive beats of any pattern differ by
  at most one step.
- Melody.CreateMelodyFromMotif: requires a start position in [-8, 8). The source indexes
  the scale with it and would fail outside that range. The `scaleIndex` attribute the
  source writes onto the shared scale notes is a local variable here: the loop reads
  back only the value it has just written, so this does not change the notes produced.
- Melody.GenerateTransformation: an unknown name leaves `notes` unassigned in the source
  and raises an error on return. Here it gives `None`.
- Several inline loops of the source are separate helper methods here, so that each loop
  has its own invariant:
  - `StringTogether` and `ShiftRight` (generateRhythm);
  - `AppendDegrees` (generateMotif);
  - `WalkScale` (createMelodyFromMotif);
  - `InvertMotif` and `Backwards` (generateTransformation);
  - `AssembleSong` and `Extend` (createMelody);
  - `AddRules` (initializeRules);
  - `AddChord` (addChords);
  - `Roots` (main).
- The application-wide `app.rules` list is the `rules` field of `Melody.Motif`.
  `app.scales` is `Notes.Scale` over the two keys.
- Piece.Compose: does not call the drum generator. The drum tracks do not depend on
  anything else in `main()`, and `Rhythm.Beat.CreateDrumPattern` states them on their own.
- Piece.Compose: requires the rule table to start empty, as it does when the program
  starts. With draws for 5 and 10 rules, the two motifs get their 10 and 20 degrees.
- Harmony.Chord.CreateChords: the code's comment describes the chord qualities in
  positional order. The code picks the family by the parity of the first occurrence of
  the root pitch (`list.index`), and the model follows the code.
