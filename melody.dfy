/** The melody generator: weighted interval rules, motifs drawn from them by a rejection
    sampler, walks of a motif over a scale, the five transformations of such a walk, and
    the song template that strings the transformed phrases together. */
module Melody {
  import opened Notes
  import opened Arith

  /** A rule: the scale steps it contributes to a motif and its acceptance weight, out of 100. */
  datatype Rule = Rule(degrees: seq<int>, probability: int)

  const COMMON_STEPS: seq<seq<int>> := [[1, 1], [-1, -1], [2, -1], [-2, 1]]
  const UNCOMMON_STEPS: seq<seq<int>> := [[2, 2], [-2, -2], [3, 1], [-1, -3]]
  const RARE_STEPS: seq<seq<int>> := [[6, -1], [-6, 1], [7, -7]]

  /** One rule per step list, all with the same weight. */
  function Weighted(steps: seq<seq<int>>, probability: int): seq<Rule>
  {
    seq(|steps|, i requires 0 <= i < |steps| => Rule(steps[i], probability))
  }

  /** The rule table: common steps at weight 100, uncommon at 75, rare at 50. */
  function RuleTable(): (rules: seq<Rule>)
    ensures |rules| == 11
    ensures forall i :: 0 <= i < 4 ==> rules[i].probability == 100
    ensures forall i :: 4 <= i < 8 ==> rules[i].probability == 75
    ensures forall i :: 8 <= i < 11 ==> rules[i].probability == 50
    ensures forall i :: 0 <= i < |rules| ==> |rules[i].degrees| == 2
    ensures forall r :: r in rules ==> |r.degrees| == 2
  {
    Weighted(COMMON_STEPS, 100) + Weighted(UNCOMMON_STEPS, 75) + Weighted(RARE_STEPS, 50)
  }

  // ---------------------------------------------------------------------------
  // The rejection sampler, with its random draws supplied from outside

  /** The random draws of one getNextRule call: the rule positions the successive
      `choice` calls return, and the threshold `randrange(0, 100)` returns. */
  datatype Draw = Draw(picks: seq<nat>, chance: int)

  predicate InRange(rules: seq<Rule>, picks: seq<nat>)
  {
    forall j :: 0 <= j < |picks| ==> picks[j] < |rules|
  }

  /** How many picks the sampler rejects before it accepts one: the first pick whose
      rule is at least as likely as the threshold, or all of them when none is. */
  function FirstAccepted(rules: seq<Rule>, picks: seq<nat>, chance: int): (first: nat)
    requires InRange(rules, picks)
    ensures first <= |picks|
    ensures first < |picks| ==> rules[picks[first]].probability >= chance
    ensures forall j :: 0 <= j < first ==> rules[picks[j]].probability < chance
  {
    if |picks| == 0 then 0
    else if rules[picks[0]].probability >= chance then 0
    else 1 + FirstAccepted(rules, picks[1..], chance)
  }

  /** Draws the sampler can finish with: a threshold in [0, 100) and a pick it accepts. */
  predicate ValidDraw(rules: seq<Rule>, draw: Draw)
  {
    InRange(rules, draw.picks) && 0 <= draw.chance < 100 &&
    FirstAccepted(rules, draw.picks, draw.chance) < |draw.picks|
  }

  predicate AllValid(rules: seq<Rule>, draws: seq<Draw>)
  {
    forall i :: 0 <= i < |draws| ==> ValidDraw(rules, draws[i])
  }

  /** The rule the sampler returns for a draw. */
  function Accepted(rules: seq<Rule>, draw: Draw): (rule: Rule)
    requires ValidDraw(rules, draw)
    ensures rule in rules && rule.probability >= draw.chance
  {
    rules[draw.picks[FirstAccepted(rules, draw.picks, draw.chance)]]
  }

  /** The degrees of the accepted rules of successive draws, in order. */
  function Drawn(rules: seq<Rule>, draws: seq<Draw>): (degrees: seq<int>)
    requires AllValid(rules, draws)
    ensures (forall r :: r in rules ==> |r.degrees| == 2) ==> |degrees| == 2 * |draws|
  {
    if |draws| == 0 then []
    else Drawn(rules, draws[..|draws| - 1]) + Accepted(rules, draws[|draws| - 1]).degrees
  }

  /** The first n elements, or all of them when there are fewer. */
  function Take(s: seq<int>, n: int): seq<int>
  {
    if |s| <= n then s else s[..Count(n)]
  }

  /** Every threshold the sampler can draw accepts the common rules, so a draw that picks
      one of them finishes there at the latest. */
  lemma CommonRulesAccepted(picks: seq<nat>, chance: int, j: nat)
    requires InRange(RuleTable(), picks) && 0 <= chance < 100
    requires j < |picks| && picks[j] < 4
    ensures FirstAccepted(RuleTable(), picks, chance) <= j
  {
  }

  /** Fewer draws contribute a prefix of the degrees. */
  lemma {:induction false} DrawnPrefix(rules: seq<Rule>, draws: seq<Draw>, k: nat)
    requires AllValid(rules, draws) && k <= |draws|
    ensures AllValid(rules, draws[..k])
    ensures Drawn(rules, draws[..k]) <= Drawn(rules, draws)
    decreases |draws|
  {
    if k < |draws| {
      var init := draws[..|draws| - 1];
      assert init[..k] == draws[..k];
      DrawnPrefix(rules, init, k);
    } else {
      assert draws[..k] == draws;
    }
  }

  /** One more draw appends the degrees of its accepted rule. */
  lemma DrawnSnoc(rules: seq<Rule>, draws: seq<Draw>, k: nat)
    requires AllValid(rules, draws) && k < |draws|
    ensures AllValid(rules, draws[..k]) && AllValid(rules, draws[..k + 1])
    ensures Drawn(rules, draws[..k + 1]) == Drawn(rules, draws[..k]) + Accepted(rules, draws[k]).degrees
  {
    assert draws[..k + 1][..k] == draws[..k];
  }

  /** With two-step rules, draw i supplies exactly degrees 2i and 2i+1, in the order of
      its accepted rule. */
  lemma DrawnPairs(rules: seq<Rule>, draws: seq<Draw>, i: nat)
    requires AllValid(rules, draws) && i < |draws|
    requires forall r :: r in rules ==> |r.degrees| == 2
    ensures |Drawn(rules, draws)| == 2 * |draws|
    ensures Drawn(rules, draws)[2 * i] == Accepted(rules, draws[i]).degrees[0]
    ensures Drawn(rules, draws)[2 * i + 1] == Accepted(rules, draws[i]).degrees[1]
  {
    DrawnPrefix(rules, draws, i);
    DrawnPrefix(rules, draws, i + 1);
    assert draws[..i + 1][..i] == draws[..i];
  }

  /** A prefix long enough to cover n elements has the same first n elements. */
  lemma TakePrefix(s: seq<int>, t: seq<int>, n: int)
    requires s <= t && n <= |t| && n <= |Take(s, n)|
    ensures Take(s, n) == t[..Count(n)]
  {
  }

  lemma TakeSnoc(s: seq<int>, x: int, n: int)
    ensures Take(s + [x], n) == if |Take(s, n)| < n then Take(s, n) + [x] else Take(s, n)
  {
    if n < |s| {
      assert (s + [x])[..Count(n)] == s[..Count(n)];
    }
  }

  // ---------------------------------------------------------------------------
  // Walks over a scale and their transformations

  /** The sum of a list of degrees. */
  function Sum(s: seq<int>): int
  {
    if |s| == 0 then 0 else s[0] + Sum(s[1..])
  }

  /** The notes a motif visits: each degree moves the scale position on from the previous
      one, modulo the scale's length. The starting note itself is not emitted. */
  function Walk(motif: seq<int>, scale: seq<Note>, index: int): (notes: seq<Note>)
    requires |scale| > 0
    ensures |notes| == |motif|
  {
    if |motif| == 0 then []
    else
      var next := (motif[0] + index) % |scale|;
      [scale[next]] + Walk(motif[1..], scale, next)
  }

  /** The first k+1 degrees sum to the first degree plus the first k of the rest. */
  lemma SumPrefix(motif: seq<int>, k: nat)
    requires k < |motif|
    ensures Sum(motif[..k + 1]) == motif[0] + Sum(motif[1..][..k])
  {
    var prefix := motif[..k + 1];
    assert prefix[0] == motif[0] && prefix[1..] == motif[1..][..k];
  }

  /** A walk starts with the note the first degree leads to and goes on as the walk of
      the remaining degrees from there. */
  lemma WalkStep(motif: seq<int>, scale: seq<Note>, index: int, k: nat)
    requires |scale| > 0 && k < |motif|
    ensures var next := (motif[0] + index) % |scale|;
            Walk(motif, scale, index)[k] ==
              if k == 0 then scale[next] else Walk(motif[1..], scale, next)[k - 1]
  {
  }

  /** Note k of a walk is the scale entry at the start plus the first k+1 degrees. */
  lemma {:induction false} WalkAt(motif: seq<int>, scale: seq<Note>, index: int, k: nat)
    requires |scale| > 0 && k < |motif|
    ensures Walk(motif, scale, index)[k] == scale[(index + Sum(motif[..k + 1])) % |scale|]
    decreases k
  {
    var n := |scale|;
    var next := (motif[0] + index) % n;
    var total := Sum(motif[..k + 1]);
    if k == 0 {
      assert Walk(motif, scale, index)[k] == scale[next] by { WalkStep(motif, scale, index, k); }
      assert next == (index + total) % n by { SumPrefix(motif, k); }
    } else {
      var rest := Sum(motif[1..][..k]);
      assert Walk(motif, scale, index)[k] == Walk(motif[1..], scale, next)[k - 1] by {
        WalkStep(motif, scale, index, k);
      }
      assert Walk(motif[1..], scale, next)[k - 1] == scale[(next + rest) % n] by {
        WalkAt(motif[1..], scale, next, k - 1);
      }
      assert (next + rest) % n == (index + total) % n by {
        SumPrefix(motif, k);
        StepPosition(index, motif[0], rest, total, n);
      }
    }
  }

  /** Moving by the first degree and then by the rest lands where moving by the total does. */
  lemma StepPosition(index: int, first: int, rest: int, total: int, n: int)
    requires n > 0 && total == first + rest
    ensures ((first + index) % n + rest) % n == (index + total) % n
  {
    ModAdd(first + index, rest, n);
  }

  /** The motif with every degree negated. */
  function Negate(motif: seq<int>): (inverted: seq<int>)
    ensures |inverted| == |motif|
  {
    seq(|motif|, i requires 0 <= i < |motif| => -motif[i])
  }

  lemma {:induction false} SumNegate(s: seq<int>)
    ensures Sum(Negate(s)) == -Sum(s)
  {
    if |s| > 0 {
      assert Negate(s)[1..] == Negate(s[1..]);
      SumNegate(s[1..]);
    }
  }

  /** The elements in the opposite order. */
  function Reverse(s: seq<Note>): (r: seq<Note>)
    ensures |r| == |s|
  {
    seq(|s|, i requires 0 <= i < |s| => s[|s| - 1 - i])
  }

  function Normal(scale: seq<Note>, motif: seq<int>): (notes: seq<Note>)
    requires |scale| > 0
    ensures |notes| == |motif|
  {
    Walk(motif, scale, 0)
  }

  function Sequential(scale: seq<Note>, motif: seq<int>): (notes: seq<Note>)
    requires |scale| > 0
    ensures |notes| == |motif|
  {
    Walk(motif, scale, 2)
  }

  function Inverted(scale: seq<Note>, motif: seq<int>): (notes: seq<Note>)
    requires |scale| > 0
    ensures |notes| == |motif|
  {
    Walk(Negate(motif), scale, 0)
  }

  function Retrograde(scale: seq<Note>, motif: seq<int>): (notes: seq<Note>)
    requires |scale| > 0
    ensures |notes| == |motif|
  {
    Reverse(Normal(scale, motif))
  }

  function SequentialInverted(scale: seq<Note>, motif: seq<int>): (notes: seq<Note>)
    requires |scale| > 0
    ensures |notes| == |motif|
  {
    Walk(Negate(motif), scale, 3)
  }

  /** A transformation by name over a scale; any other name is an error. */
  function Transform(name: string, scale: seq<Note>, motif: seq<int>): (phrase: Option<seq<Note>>)
    requires |scale| > 0
    ensures phrase.Some? ==> |phrase.value| == |motif|
  {
    if name == "normal" then Some(Normal(scale, motif))
    else if name == "sequential" then Some(Sequential(scale, motif))
    else if name == "inverted" then Some(Inverted(scale, motif))
    else if name == "retrograde" then Some(Retrograde(scale, motif))
    else if name == "sequential-inverted" then Some(SequentialInverted(scale, motif))
    else None
  }

  /** Exactly the five names are transformations; each gives one scale note per degree. */
  lemma TransformDefined(name: string, scale: seq<Note>, motif: seq<int>)
    requires |scale| > 0
    ensures Transform(name, scale, motif).Some? <==>
            name in {"normal", "sequential", "inverted", "retrograde", "sequential-inverted"}
    ensures Transform(name, scale, motif).Some? ==>
              |Transform(name, scale, motif).value| == |motif| &&
              forall k :: 0 <= k < |motif| ==> Transform(name, scale, motif).value[k] in scale
  {
    forall k | 0 <= k < |motif|
      ensures Normal(scale, motif)[k] in scale && Sequential(scale, motif)[k] in scale
      ensures Inverted(scale, motif)[k] in scale && SequentialInverted(scale, motif)[k] in scale
      ensures Retrograde(scale, motif)[k] in scale
    {
      WalkAt(motif, scale, 0, k);
      WalkAt(motif, scale, 0, |motif| - 1 - k);
      WalkAt(motif, scale, 2, k);
      WalkAt(Negate(motif), scale, 0, k);
      WalkAt(Negate(motif), scale, 3, k);
    }
  }

  /** Each transformation in closed form: the scale position of note k, from the sum S of
      the first k+1 degrees, is S for normal and 2+S for sequential, modulo the scale
      length; the retrograde plays the normal walk backwards. */
  lemma TransformAt(scale: seq<Note>, motif: seq<int>, k: nat)
    requires |scale| > 0 && k < |motif|
    ensures Normal(scale, motif)[k] == scale[Sum(motif[..k + 1]) % |scale|]
    ensures Sequential(scale, motif)[k] == scale[(2 + Sum(motif[..k + 1])) % |scale|]
    ensures Retrograde(scale, motif)[k] == scale[Sum(motif[..|motif| - k]) % |scale|]
  {
    var n := |scale|;
    assert Normal(scale, motif)[k] == scale[Sum(motif[..k + 1]) % n] by { WalkAt(motif, scale, 0, k); }
    assert Sequential(scale, motif)[k] == scale[(2 + Sum(motif[..k + 1])) % n] by { WalkAt(motif, scale, 2, k); }
    var j := |motif| - 1 - k;
    assert Retrograde(scale, motif)[k] == Normal(scale, motif)[j];
    assert Normal(scale, motif)[j] == scale[Sum(motif[..j + 1]) % n] by { WalkAt(motif, scale, 0, j); }
  }

  /** The inversions in closed form: the walk of the negated degrees, so the scale
      position of note k is -S for inverted and 3-S for sequential-inverted. */
  lemma InversionAt(scale: seq<Note>, motif: seq<int>, k: nat)
    requires |scale| > 0 && k < |motif|
    ensures Inverted(scale, motif)[k] == scale[(-Sum(motif[..k + 1])) % |scale|]
    ensures SequentialInverted(scale, motif)[k] == scale[(3 - Sum(motif[..k + 1])) % |scale|]
  {
    assert Sum(Negate(motif)[..k + 1]) == -Sum(motif[..k + 1]) by {
      assert Negate(motif)[..k + 1] == Negate(motif[..k + 1]);
      SumNegate(motif[..k + 1]);
    }
    WalkAt(Negate(motif), scale, 0, k);
    WalkAt(Negate(motif), scale, 3, k);
  }

  /** Creates a melody from a motif, starting at the given position of the key's scale. */
  method CreateMelodyFromMotif(motif: seq<int>, key: Key, index: int) returns (notes: seq<Note>)
    requires -8 <= index < 8
    ensures notes == Walk(motif, Scale(key), index)
  {
    notes := WalkScale(motif, Scale(key), index);
  }

  /** The walk itself, remembering only the previous scale position. */
  method WalkScale(motif: seq<int>, scaleNotes: seq<Note>, index: int) returns (notes: seq<Note>)
    requires |scaleNotes| > 0
    ensures notes == Walk(motif, scaleNotes, index)
  {
    var prevIndex := index;
    notes := [];
    for i := 0 to |motif|
      invariant notes + Walk(motif[i..], scaleNotes, prevIndex) == Walk(motif, scaleNotes, index)
    {
      var scaleIndex := (motif[i] + prevIndex) % |scaleNotes|;
      assert motif[i..][1..] == motif[i + 1..];
      assert notes + Walk(motif[i..], scaleNotes, prevIndex)
          == (notes + [scaleNotes[scaleIndex]]) + Walk(motif[i + 1..], scaleNotes, scaleIndex);
      notes := notes + [scaleNotes[scaleIndex]];
      prevIndex := scaleIndex;
    }
    assert motif[|motif|..] == [];
  }

  /** The degrees of a motif, negated one by one. */
  method InvertMotif(motif: seq<int>) returns (invertedMotif: seq<int>)
    ensures |invertedMotif| == |motif|
    ensures forall i :: 0 <= i < |motif| ==> invertedMotif[i] == -motif[i]
  {
    invertedMotif := [];
    for i := 0 to |motif|
      invariant |invertedMotif| == i
      invariant forall j :: 0 <= j < i ==> invertedMotif[j] == -motif[j]
    {
      invertedMotif := invertedMotif + [motif[i] * -1];
    }
  }

  /** The notes in the opposite order, collected from the last index down to the first. */
  method Backwards(normalNotes: seq<Note>) returns (retrogradeNotes: seq<Note>)
    ensures |retrogradeNotes| == |normalNotes|
    ensures forall i :: 0 <= i < |normalNotes| ==>
              retrogradeNotes[i] == normalNotes[|normalNotes| - 1 - i]
  {
    retrogradeNotes := [];
    var noteIndex := |normalNotes| - 1;
    while noteIndex > -1
      invariant -1 <= noteIndex < |normalNotes|
      invariant |retrogradeNotes| == |normalNotes| - 1 - noteIndex
      invariant forall i :: 0 <= i < |retrogradeNotes| ==>
                  retrogradeNotes[i] == normalNotes[|normalNotes| - 1 - i]
    {
      retrogradeNotes := retrogradeNotes + [normalNotes[noteIndex]];
      noteIndex := noteIndex - 1;
    }
  }

  /** Transforms a motif by name into a phrase in the given key; None for an unknown name. */
  method GenerateTransformation(transformation: string, key: Key, motif: seq<int>)
    returns (notes: Option<seq<Note>>)
    ensures notes == Transform(transformation, Scale(key), motif)
  {
    notes := None;
    if transformation == "normal" {
      var walk := CreateMelodyFromMotif(motif, key, 0);
      notes := Some(walk);
    } else if transformation == "sequential" {
      var walk := CreateMelodyFromMotif(motif, key, 2);
      notes := Some(walk);
    } else if transformation == "inverted" {
      var invertedMotif := InvertMotif(motif);
      assert invertedMotif == Negate(motif);
      var walk := CreateMelodyFromMotif(invertedMotif, key, 0);
      notes := Some(walk);
    } else if transformation == "retrograde" {
      var normalNotes := CreateMelodyFromMotif(motif, key, 0);
      var retrogradeNotes := Backwards(normalNotes);
      assert retrogradeNotes == Reverse(normalNotes);
      notes := Some(retrogradeNotes);
    }
    if transformation == "sequential-inverted" {
      var invertedMotif := InvertMotif(motif);
      assert invertedMotif == Negate(motif);
      var walk := CreateMelodyFromMotif(invertedMotif, key, 3);
      notes := Some(walk);
    }
  }

  // ---------------------------------------------------------------------------
  // The song template

  /** The other key of the scale table. */
  function Other(key: Key): (other: Key)
    ensures other != key
  {
    match key
    case CMajor => GMajor
    case GMajor => CMajor
  }

  /** Drops the last note of the melody so far and appends a rest in its place. */
  function EndWithRest(notes: seq<Note>): seq<Note>
    requires |notes| > 0
  {
    notes[..|notes| - 1] + [REST]
  }

  /** The song template: verse, chorus, second verse, chorus, bridge and final chorus, each
      section but the last closing on a rest that replaces its last note. */
  function Song(notes1: seq<Note>, notes2: seq<Note>, notes3: seq<Note>, notes4: seq<Note>,
                notes5: seq<Note>, notes6: seq<Note>): (song: seq<Note>)
    requires |notes1| > 0
    ensures |song| == 4 * |notes1| + 2 * |notes2| + 3 * |notes3| + |notes4| + 2 * |notes5| + 2 * |notes6|
  {
    var verse1 := EndWithRest(notes1 + notes1);
    var chorus1 := EndWithRest(verse1 + notes3);
    var verse2 := EndWithRest(chorus1 + notes1 + notes1 + notes2 + notes2);
    var chorus2 := EndWithRest(verse2 + notes3);
    var bridge := EndWithRest(chorus2 + notes5 + notes5 + notes6 + notes6);
    bridge + notes3 + notes4
  }

  /** The melody made from a first key and two motifs: the verse uses the normal and
      sequential walks of the first motif, the choruses the inverted and retrograde walks
      of the second, the bridge the sequential-inverted walk of the first in both keys. */
  function Composition(key1: Key, motif1: seq<int>, motif2: seq<int>): (melody: seq<Note>)
    requires |motif1| > 0
    ensures |melody| == 10 * |motif1| + 4 * |motif2|
  {
    var scale1, scale2 := Scale(key1), Scale(Other(key1));
    Song(Normal(scale1, motif1), Sequential(scale1, motif1),
         Inverted(scale1, motif2), Retrograde(scale1, motif2),
         SequentialInverted(scale1, motif1), SequentialInverted(scale2, motif1))
  }

  /** With ten-note verse and bridge phrases and twenty-note chorus phrases the song has
      180 notes, rests at 19, 39, 79, 99 and 139, and the phrases everywhere else in the
      order of the template. */
  lemma SongLayout(notes1: seq<Note>, notes2: seq<Note>, notes3: seq<Note>, notes4: seq<Note>,
                   notes5: seq<Note>, notes6: seq<Note>)
    requires |notes1| == |notes2| == |notes5| == |notes6| == 10
    requires |notes3| == |notes4| == 20
    ensures var song := Song(notes1, notes2, notes3, notes4, notes5, notes6);
      |song| == 180 &&
      song[19] == REST && song[39] == REST && song[79] == REST && song[99] == REST && song[139] == REST &&
      song[..19] == (notes1 + notes1)[..19] &&
      song[20..39] == notes3[..19] &&
      song[40..79] == (notes1 + notes1 + notes2 + notes2)[..39] &&
      song[80..99] == notes3[..19] &&
      song[100..139] == (notes5 + notes5 + notes6 + notes6)[..39] &&
      song[140..] == notes3 + notes4
  {
    var verse1 := EndWithRest(notes1 + notes1);
    var chorus1 := EndWithRest(verse1 + notes3);
    var verse2 := EndWithRest(chorus1 + notes1 + notes1 + notes2 + notes2);
    var chorus2 := EndWithRest(verse2 + notes3);
    var bridge := EndWithRest(chorus2 + notes5 + notes5 + notes6 + notes6);
    var song := bridge + notes3 + notes4;
    assert verse1[..19] == (notes1 + notes1)[..19] && verse1[19] == REST;
    assert chorus1[..20] == verse1 && chorus1[20..39] == notes3[..19] && chorus1[39] == REST;
    assert verse2[..40] == chorus1 && verse2[40..79] == (notes1 + notes1 + notes2 + notes2)[..39];
    assert verse2[79] == REST;
    assert chorus2[..80] == verse2 && chorus2[80..99] == notes3[..19] && chorus2[99] == REST;
    assert bridge[..100] == chorus2 && bridge[100..139] == (notes5 + notes5 + notes6 + notes6)[..39];
    assert bridge[139] == REST;
    assert song[..140] == bridge && song[140..] == notes3 + notes4;
    assert song[..100] == chorus2 && song[..80] == verse2 && song[..40] == chorus1 && song[..20] == verse1;
  }

  /** The melody made from a ten-degree and a twenty-degree motif has 180 notes, rests at
      19, 39, 79, 99 and 139, and ends with the inverted and the retrograde walks of the
      second motif. */
  lemma CompositionLayout(key1: Key, motif1: seq<int>, motif2: seq<int>)
    requires |motif1| == 10 && |motif2| == 20
    ensures var melody := Composition(key1, motif1, motif2);
      |melody| == 180 &&
      melody[19] == REST && melody[39] == REST && melody[79] == REST && melody[99] == REST &&
      melody[139] == REST &&
      melody[140..] == Inverted(Scale(key1), motif2) + Retrograde(Scale(key1), motif2)
  {
    var scale1, scale2 := Scale(key1), Scale(Other(key1));
    SongLayout(Normal(scale1, motif1), Sequential(scale1, motif1),
               Inverted(scale1, motif2), Retrograde(scale1, motif2),
               SequentialInverted(scale1, motif1), SequentialInverted(scale2, motif1));
  }

  /** The melody generator. `rules` is the application's shared rule table and `melody`
      the notes of the melody track. */
  class Motif {
    var rules: seq<Rule>
    var melody: seq<Note>

    constructor()
      ensures rules == [] && melody == []
    {
      rules := [];
      melody := [];
    }

    /** Appends one rule per step list, with the given weight. */
    method AddRules(steps: seq<seq<int>>, probability: int)
      modifies this
      ensures rules == old(rules) + Weighted(steps, probability)
      ensures melody == old(melody)
    {
      for i := 0 to |steps|
        invariant rules == old(rules) + Weighted(steps, probability)[..i]
        invariant melody == old(melody)
      {
        assert Weighted(steps, probability)[..i + 1]
            == Weighted(steps, probability)[..i] + [Rule(steps[i], probability)];
        rules := rules + [Rule(steps[i], probability)];
      }
    }

    /** Appends the rule table to the rules. */
    method InitializeRules()
      modifies this
      ensures rules == old(rules) + RuleTable()
      ensures melody == old(melody)
    {
      AddRules(COMMON_STEPS, 100);
      AddRules(UNCOMMON_STEPS, 75);
      AddRules(RARE_STEPS, 50);
    }

    /** The rejection sampler: keeps picking rules until one is at least as likely as
        the threshold. */
    method GetNextRule(draw: Draw) returns (nextRule: Rule)
      requires ValidDraw(rules, draw)
      ensures nextRule == Accepted(rules, draw)
      ensures nextRule in rules && nextRule.probability >= draw.chance
    {
      var tries := 0;
      nextRule := rules[draw.picks[0]];
      var chance := draw.chance;
      while nextRule.probability < chance
        invariant tries <= FirstAccepted(rules, draw.picks, chance)
        invariant nextRule == rules[draw.picks[tries]]
        decreases FirstAccepted(rules, draw.picks, chance) - tries
      {
        tries := tries + 1;
        nextRule := rules[draw.picks[tries]];
      }
    }

    /** A motif of numNotes degrees: the degrees of successively accepted rules, the last
        rule cut short when it overshoots. */
    method GenerateMotif(numNotes: int, draws: seq<Draw>) returns (motifDegrees: seq<int>)
      requires AllValid(rules, draws) && |Drawn(rules, draws)| >= numNotes
      ensures |motifDegrees| == Count(numNotes)
      ensures motifDegrees == Drawn(rules, draws)[..Count(numNotes)]
    {
      motifDegrees := [];
      var k := 0;
      while |motifDegrees| < numNotes
        invariant 0 <= k <= |draws|
        invariant AllValid(rules, draws[..k])
        invariant motifDegrees == Take(Drawn(rules, draws[..k]), numNotes)
        invariant k < |draws| || |motifDegrees| >= numNotes
        decreases |draws| - k
      {
        var rule := GetNextRule(draws[k]);
        DrawnSnoc(rules, draws, k);
        motifDegrees := AppendDegrees(motifDegrees, rule.degrees, numNotes, Drawn(rules, draws[..k]));
        k := k + 1;
        if k == |draws| {
          assert draws[..k] == draws;
        }
      }
      DrawnPrefix(rules, draws, k);
      TakePrefix(Drawn(rules, draws[..k]), Drawn(rules, draws), numNotes);
    }

    /** The melody: two motifs, six transformed phrases, and the song template. */
    method CreateMelody(key1: Key, draws1: seq<Draw>, draws2: seq<Draw>)
      modifies this
      requires AllValid(rules, draws1) && |Drawn(rules, draws1)| >= 10
      requires AllValid(rules, draws2) && |Drawn(rules, draws2)| >= 20
      ensures rules == old(rules)
      ensures melody == Composition(key1, Drawn(rules, draws1)[..10], Drawn(rules, draws2)[..20])
    {
      var key2 := Other(key1);
      var motif1 := GenerateMotif(10, draws1);
      var motif2 := GenerateMotif(20, draws2);

      var notes1 := GenerateTransformation("normal", key1, motif1);
      var notes2 := GenerateTransformation("sequential", key1, motif1);
      var notes3 := GenerateTransformation("inverted", key1, motif2);
      var notes4 := GenerateTransformation("retrograde", key1, motif2);
      var notes5 := GenerateTransformation("sequential-inverted", key1, motif1);
      var notes6 := GenerateTransformation("sequential-inverted", key2, motif1);

      assert notes1.value == Normal(Scale(key1), motif1);
      assert notes2.value == Sequential(Scale(key1), motif1);
      assert notes3.value == Inverted(Scale(key1), motif2);
      assert notes4.value == Retrograde(Scale(key1), motif2);
      assert notes5.value == SequentialInverted(Scale(key1), motif1);
      assert notes6.value == SequentialInverted(Scale(key2), motif1);
      var notes := AssembleSong(notes1.value, notes2.value, notes3.value, notes4.value,
                                notes5.value, notes6.value);
      melody := notes;
    }
  }

  /** Appends the degrees of a rule one by one while the motif is short of numNotes
      degrees. */
  method AppendDegrees(motifDegrees: seq<int>, degrees: seq<int>, numNotes: int, ghost drawn: seq<int>)
    returns (extended: seq<int>)
    requires motifDegrees == Take(drawn, numNotes)
    ensures extended == Take(drawn + degrees, numNotes)
  {
    extended := motifDegrees;
    for j := 0 to |degrees|
      invariant extended == Take(drawn + degrees[..j], numNotes)
    {
      TakeSnoc(drawn + degrees[..j], degrees[j], numNotes);
      assert (drawn + degrees[..j]) + [degrees[j]] == drawn + degrees[..j + 1];
      if |extended| < numNotes {
        extended := extended + [degrees[j]];
      }
    }
    assert degrees[..|degrees|] == degrees;
  }

  /** Strings the six phrases together by the song template. */
  method AssembleSong(notes1: seq<Note>, notes2: seq<Note>, notes3: seq<Note>, notes4: seq<Note>,
                      notes5: seq<Note>, notes6: seq<Note>) returns (notes: seq<Note>)
    requires |notes1| > 0
    ensures notes == Song(notes1, notes2, notes3, notes4, notes5, notes6)
  {
    notes := [];
    notes := Extend(notes, notes1);
    assert notes == notes1;
    notes := Extend(notes, notes1);
    notes := notes[..|notes| - 1] + [REST];
    ghost var verse1 := notes;

    notes := Extend(notes, notes3);
    notes := notes[..|notes| - 1] + [REST];
    ghost var chorus1 := notes;

    notes := Extend(notes, notes1);
    notes := Extend(notes, notes1);
    notes := Extend(notes, notes2);
    notes := Extend(notes, notes2);
    notes := notes[..|notes| - 1] + [REST];
    ghost var verse2 := notes;

    notes := Extend(notes, notes3);
    notes := notes[..|notes| - 1] + [REST];
    ghost var chorus2 := notes;

    notes := Extend(notes, notes5);
    notes := Extend(notes, notes5);
    notes := Extend(notes, notes6);
    notes := Extend(notes, notes6);
    notes := notes[..|notes| - 1] + [REST];

    notes := Extend(notes, notes3);
    notes := Extend(notes, notes4);
    assert verse1 == EndWithRest(notes1 + notes1);
    assert chorus1 == EndWithRest(verse1 + notes3);
    assert verse2 == EndWithRest(chorus1 + notes1 + notes1 + notes2 + notes2);
    assert chorus2 == EndWithRest(verse2 + notes3);
  }

  /** Appends the notes of a phrase one by one. */
  method Extend(notes: seq<Note>, phrase: seq<Note>) returns (extended: seq<Note>)
    ensures extended == notes + phrase
  {
    extended := notes;
    for i := 0 to |phrase|
      invariant extended == notes + phrase[..i]
    {
      assert phrase[..i + 1] == phrase[..i] + [phrase[i]];
      extended := extended + [phrase[i]];
    }
    assert phrase[..|phrase|] == phrase;
  }
}
