/** Rhythm tiling: the even-distribution ("Euclidean rhythm") bracelet construction that
    spreads a number of beats among a number of rests, the non-circular offset applied to
    its result, and the kick and snare tracks assembled from such patterns. */
module Rhythm {
  import opened Notes
  import opened Arith

  /** `numVal` copies of `val` (what createList builds). */
  function Beads(val: string, numVal: int): seq<string>
  {
    seq(Count(numVal), _ => val)
  }

  /** The beads of a bracelet strung together, first to last. */
  function Flatten(beads: seq<string>): string
  {
    if |beads| == 0 then "" else Flatten(beads[..|beads| - 1]) + beads[|beads| - 1]
  }

  /** The characters held by a list of beads, counted with multiplicity. */
  function Chars(beads: seq<string>): multiset<char>
  {
    if |beads| == 0 then multiset{} else Chars(beads[..|beads| - 1]) + multiset(beads[|beads| - 1])
  }

  // ---------------------------------------------------------------------------
  // Specification of one round of the construction

  /** The cursor position after the next one: one place on, back to 0 past the end. */
  function Next(index: nat, n: nat): (next: nat)
    requires index < n
    ensures next < n
  {
    if index + 1 == n then 0 else index + 1
  }

  /** The bracelet once every unused bead has been popped off the end of `unused` and
      appended to the bead under the cursor, the cursor starting at `index` and moving
      one place on, wrapping round, after each bead. */
  function Deal(bracelet: seq<string>, unused: seq<string>, index: nat): (dealt: seq<string>)
    requires index < |bracelet|
    ensures |dealt| == |bracelet|
    decreases |unused|
  {
    if |unused| == 0 then bracelet
    else
      var bead := unused[|unused| - 1];
      Deal(bracelet[index := bracelet[index] + bead], unused[..|unused| - 1], Next(index, |bracelet|))
  }

  /** Where the cursor stops after `count` beads have been dealt from `index` on a
      bracelet of `n` beads. */
  function Cursor(n: nat, count: nat, index: nat): (stop: nat)
    requires index < n
    ensures stop < n
  {
    if count == 0 then index else Cursor(n, count - 1, Next(index, n))
  }

  /** One round (addBeads followed by substituteBeads): deal out every unused bead from
      position 0, then cut where the cursor stopped. */
  function Round(bracelet: seq<string>, unusedBeads: seq<string>): (next: (seq<string>, seq<string>))
    requires unusedBeads != [] ==> bracelet != []
    ensures |next.0| + |next.1| == |bracelet|
    ensures bracelet != [] ==> |next.0| < |bracelet|
  {
    if |bracelet| == 0 then ([], [])
    else
      var dealt, cut := Deal(bracelet, unusedBeads, 0), Cursor(|bracelet|, |unusedBeads|, 0);
      (dealt[..cut], dealt[cut..])
  }

  /** The rounds of generateRhythm's loop, repeated while both lists hold more than one
      bead, and the two lists strung together at the end. */
  function Tile(bracelet: seq<string>, unusedBeads: seq<string>): string
    decreases |bracelet|
  {
    if |bracelet| > 1 && |unusedBeads| > 1 then
      var next := Round(bracelet, unusedBeads);
      Tile(next.0, next.1)
    else
      Flatten(bracelet) + Flatten(unusedBeads)
  }

  /** The unshifted pattern for `numBeats` beats ('X') and `numRests` rests ('.'). */
  function Pattern(numBeats: int, numRests: int): string
  {
    Tile(Beads("X", numBeats), Beads(".", numRests))
  }

  /** The pattern moved right by `offset` places: rests come in at the front and as many
      characters fall off the end. This is a shift, not a rotation. */
  function Shift(rhythm: string, offset: nat): (shifted: string)
    ensures |shifted| == |rhythm|
    ensures offset == 0 ==> shifted == rhythm
  {
    seq(|rhythm|, i requires 0 <= i < |rhythm| => if i < offset then '.' else rhythm[i - offset])
  }

  // ---------------------------------------------------------------------------
  // Lemmas about the specification

  /** The cursor's stop is the start plus the number of beads, modulo the length. */
  lemma {:induction false} CursorIsMod(n: nat, count: nat, index: nat)
    requires index < n
    ensures Cursor(n, count, index) == (index + count) % n
    decreases count
  {
    if count == 0 {
      DivModUnique(index, n, 0, index);
    } else {
      var next := Next(index, n);
      CursorIsMod(n, count - 1, next);
      if index + 1 == n {
        assert index + count == (count - 1) + n;
        ModShift(count - 1, n);
      } else {
        assert next + (count - 1) == index + count;
      }
    }
  }

  lemma {:induction false} FlattenAppend(a: seq<string>, b: seq<string>)
    ensures Flatten(a + b) == Flatten(a) + Flatten(b)
    decreases |b|
  {
    if b == [] {
      assert a + b == a;
    } else {
      var n := |b| - 1;
      assert (a + b)[..|a + b| - 1] == a + b[..n];
      FlattenAppend(a, b[..n]);
    }
  }

  lemma FlattenSnoc(beads: seq<string>, i: nat)
    requires i < |beads|
    ensures Flatten(beads[..i + 1]) == Flatten(beads[..i]) + beads[i]
  {
    assert beads[..i + 1][..i] == beads[..i];
  }

  lemma {:induction false} FlattenChars(beads: seq<string>)
    ensures multiset(Flatten(beads)) == Chars(beads)
    decreases |beads|
  {
    if beads != [] {
      FlattenChars(beads[..|beads| - 1]);
    }
  }

  lemma {:induction false} CharsAppend(a: seq<string>, b: seq<string>)
    ensures Chars(a + b) == Chars(a) + Chars(b)
    decreases |b|
  {
    if b == [] {
      assert a + b == a;
    } else {
      var n := |b| - 1;
      assert (a + b)[..|a + b| - 1] == a + b[..n];
      CharsAppend(a, b[..n]);
    }
  }

  /** Appending `x` to one bead adds exactly the characters of `x`. */
  lemma {:induction false} CharsUpdate(beads: seq<string>, i: nat, x: string)
    requires i < |beads|
    ensures Chars(beads[i := beads[i] + x]) == Chars(beads) + multiset(x)
    decreases |beads|
  {
    var n := |beads| - 1;
    var updated := beads[i := beads[i] + x];
    if i == n {
      assert updated[..n] == beads[..n];
      assert multiset(updated[n]) == multiset(beads[n]) + multiset(x);
    } else {
      assert updated[..n] == beads[..n][i := beads[i] + x];
      CharsUpdate(beads[..n], i, x);
    }
  }

  /** Dealing moves beads from the unused list onto the bracelet; it neither creates nor
      destroys a character. */
  lemma {:induction false} DealPreserves(bracelet: seq<string>, unused: seq<string>, index: nat)
    requires index < |bracelet|
    ensures Chars(Deal(bracelet, unused, index)) == Chars(bracelet) + Chars(unused)
    decreases |unused|
  {
    if |unused| > 0 {
      var bead := unused[|unused| - 1];
      CharsUpdate(bracelet, index, bead);
      DealPreserves(bracelet[index := bracelet[index] + bead], unused[..|unused| - 1], Next(index, |bracelet|));
    }
  }

  /** A round keeps every character of the bracelet and of the unused list, and the
      new bracelet is as long as the number of unused beads modulo the old length. */
  lemma RoundPreserves(bracelet: seq<string>, unusedBeads: seq<string>)
    requires unusedBeads != [] ==> bracelet != []
    ensures Chars(Round(bracelet, unusedBeads).0) + Chars(Round(bracelet, unusedBeads).1)
         == Chars(bracelet) + Chars(unusedBeads)
    ensures bracelet != [] ==> |Round(bracelet, unusedBeads).0| == |unusedBeads| % |bracelet|
  {
    var next := Round(bracelet, unusedBeads);
    if bracelet != [] {
      var dealt := Deal(bracelet, unusedBeads, 0);
      assert next.0 + next.1 == dealt;
      CharsAppend(next.0, next.1);
      DealPreserves(bracelet, unusedBeads, 0);
      CursorIsMod(|bracelet|, |unusedBeads|, 0);
    } else {
      assert unusedBeads == [];
    }
  }

  /** The rounds and the final stringing-together keep every character. */
  lemma {:induction false} TilePreserves(bracelet: seq<string>, unusedBeads: seq<string>)
    ensures multiset(Tile(bracelet, unusedBeads)) == Chars(bracelet) + Chars(unusedBeads)
    decreases |bracelet|
  {
    if |bracelet| > 1 && |unusedBeads| > 1 {
      var next := Round(bracelet, unusedBeads);
      RoundPreserves(bracelet, unusedBeads);
      TilePreserves(next.0, next.1);
    } else {
      FlattenAppend(bracelet, unusedBeads);
      FlattenChars(bracelet);
      FlattenChars(unusedBeads);
    }
  }

  /** One round of the loop leaves the final pattern unchanged. */
  lemma TileStep(bracelet: seq<string>, unusedBeads: seq<string>)
    requires |bracelet| > 1 && |unusedBeads| > 1
    ensures Tile(bracelet, unusedBeads)
         == Tile(Round(bracelet, unusedBeads).0, Round(bracelet, unusedBeads).1)
  {
  }

  /** Once either list is down to one bead, the pattern is the two lists strung together. */
  lemma TileDone(bracelet: seq<string>, unusedBeads: seq<string>)
    requires |bracelet| <= 1 || |unusedBeads| <= 1
    ensures Tile(bracelet, unusedBeads) == Flatten(bracelet) + Flatten(unusedBeads)
  {
  }

  lemma {:induction false} BeadsChars(c: char, n: int)
    ensures |Chars(Beads([c], n))| == Count(n)
    ensures forall d :: Chars(Beads([c], n))[d] == if d == c then Count(n) else 0
    decreases Count(n)
  {
    if n > 0 {
      var lst := Beads([c], n);
      assert lst[..|lst| - 1] == Beads([c], n - 1);
      BeadsChars(c, n - 1);
    }
  }

  /** The pattern holds every beat and every rest it was given, and nothing else. */
  lemma PatternCounts(numBeats: int, numRests: int)
    ensures |Pattern(numBeats, numRests)| == Count(numBeats) + Count(numRests)
    ensures multiset(Pattern(numBeats, numRests))['X'] == Count(numBeats)
    ensures multiset(Pattern(numBeats, numRests))['.'] == Count(numRests)
  {
    var beats, rests := Beads("X", numBeats), Beads(".", numRests);
    BeadsChars('X', numBeats);
    BeadsChars('.', numRests);
    TilePreserves(beats, rests);
    var p := Pattern(numBeats, numRests);
    assert multiset(p) == Chars(beats) + Chars(rests);
    assert |p| == |multiset(p)|;
  }

  /** The shift is padding followed by a prefix: min(offset, n) rests, then the rhythm
      with its last min(offset, n) characters dropped. */
  lemma ShiftDrops(rhythm: string, offset: nat)
    ensures var d := if offset < |rhythm| then offset else |rhythm|;
            Shift(rhythm, offset) == seq(d, _ => '.') + rhythm[..|rhythm| - d]
  {
  }

  // ---------------------------------------------------------------------------
  // Even distribution

  /** `k` copies of `s`, one after another. */
  function Copies(s: string, k: nat): string
  {
    if k == 0 then "" else Copies(s, k - 1) + s
  }

  /** How many of `count` beads dealt from cursor position `index` land on bead `j`. */
  function Dealt(n: nat, count: nat, index: nat, j: nat): nat
    requires index < n
    decreases count
  {
    if count == 0 then 0
    else (if index == j then 1 else 0) + Dealt(n, count - 1, Next(index, n), j)
  }

  lemma {:induction false} CopiesCons(s: string, k: nat)
    ensures s + Copies(s, k) == Copies(s, k + 1)
  {
    if k > 0 {
      CopiesCons(s, k - 1);
    }
  }

  /** Dealing copies of one bead appends to bead j as many copies as land on it. */
  lemma {:induction false} DealUniform(bracelet: seq<string>, unused: seq<string>, index: nat, bead: string, j: nat)
    requires index < |bracelet| && j < |bracelet|
    requires forall i :: 0 <= i < |unused| ==> unused[i] == bead
    ensures Deal(bracelet, unused, index)[j] == bracelet[j] + Copies(bead, Dealt(|bracelet|, |unused|, index, j))
    decreases |unused|
  {
    if |unused| > 0 {
      var n := |bracelet|;
      var next := Next(index, n);
      var rest := unused[..|unused| - 1];
      var dealt := bracelet[index := bracelet[index] + bead];
      DealUniform(dealt, rest, next, bead, j);
      var m := Dealt(n, |rest|, next, j);
      if j == index {
        CopiesCons(bead, m);
        assert (bracelet[j] + bead) + Copies(bead, m) == bracelet[j] + (bead + Copies(bead, m));
      }
    }
  }

  /** The last of count + 1 deals lands where the cursor stands after the first count. */
  lemma {:induction false} DealtSnoc(n: nat, count: nat, index: nat, j: nat)
    requires index < n
    ensures Dealt(n, count + 1, index, j)
         == Dealt(n, count, index, j) + (if Cursor(n, count, index) == j then 1 else 0)
    decreases count
  {
    if count > 0 {
      DealtSnoc(n, count - 1, Next(index, n), j);
    }
  }

  /** Dealing `count` beads from position 0 gives every bead count / n of them, and one
      more to the first count % n beads. */
  lemma {:induction false} DealtShare(n: nat, count: nat, j: nat)
    requires j < n
    ensures Dealt(n, count, 0, j) == count / n + (if j < count % n then 1 else 0)
    decreases count
  {
    if count == 0 {
      DivModUnique(0, n, 0, 0);
    } else {
      var c := count - 1;
      DealtShare(n, c, j);
      DealtSnoc(n, c, 0, j);
      CursorIsMod(n, c, 0);
      ShareStep(n, c, j);
    }
  }

  /** One more bead goes to the bead at c % n: the shares of c + 1 beads are those of c
      beads with that one added. */
  lemma ShareStep(n: nat, c: nat, j: nat)
    requires j < n
    ensures (c + 1) / n + (if j < (c + 1) % n then 1 else 0)
         == c / n + (if j < c % n then 1 else 0) + (if c % n == j then 1 else 0)
  {
    var q, r := c / n, c % n;
    assert c == q * n + r;
    if r + 1 == n {
      DivModUnique(c + 1, n, q + 1, 0);
    } else {
      DivModUnique(c + 1, n, q, r + 1);
    }
  }

  /** One round on lists of identical beads: with n bracelet beads `a` and u unused beads
      `b`, every bracelet bead receives u / n or u / n + 1 of the unused beads, those with
      the extra one come first, and the cut puts exactly them in the new bracelet. So the
      rests are spread as evenly as possible, and both new lists again hold identical beads. */
  lemma RoundEven(bracelet: seq<string>, unusedBeads: seq<string>, a: string, b: string)
    requires |bracelet| > 0
    requires forall i :: 0 <= i < |bracelet| ==> bracelet[i] == a
    requires forall i :: 0 <= i < |unusedBeads| ==> unusedBeads[i] == b
    ensures |Round(bracelet, unusedBeads).0| == |unusedBeads| % |bracelet|
    ensures forall i :: 0 <= i < |Round(bracelet, unusedBeads).0| ==>
              Round(bracelet, unusedBeads).0[i] == a + Copies(b, |unusedBeads| / |bracelet| + 1)
    ensures forall i :: 0 <= i < |Round(bracelet, unusedBeads).1| ==>
              Round(bracelet, unusedBeads).1[i] == a + Copies(b, |unusedBeads| / |bracelet|)
  {
    var n, u := |bracelet|, |unusedBeads|;
    var dealt := Deal(bracelet, unusedBeads, 0);
    CursorIsMod(n, u, 0);
    DivModUnique(u, n, u / n, u % n);
    var cut := u % n;
    forall j | 0 <= j < n
      ensures dealt[j] == a + Copies(b, u / n + (if j < cut then 1 else 0))
    {
      DealUniform(bracelet, unusedBeads, 0, b, j);
      DealtShare(n, u, j);
    }
  }

  /** Beads that are all the same string flatten to that many copies of it. */
  lemma {:induction false} FlattenUniform(beads: seq<string>, bead: string)
    requires forall i :: 0 <= i < |beads| ==> beads[i] == bead
    ensures Flatten(beads) == Copies(bead, |beads|)
    decreases |beads|
  {
    if |beads| > 0 {
      FlattenUniform(beads[..|beads| - 1], bead);
    }
  }

  /** When the beats divide the rests, the pattern is the beats evenly spaced: each beat
      followed by numRests / numBeats rests. */
  lemma PatternDivides(numBeats: int, numRests: int)
    requires numBeats > 0 && numRests >= 0 && numRests % numBeats == 0
    ensures Pattern(numBeats, numRests) == Copies("X" + Copies(".", numRests / numBeats), numBeats)
  {
    var beats, rests := Beads("X", numBeats), Beads(".", numRests);
    var q := numRests / numBeats;
    DivModUnique(numRests, numBeats, q, 0);
    if numBeats > 1 && numRests > 1 {
      RoundEven(beats, rests, "X", ".");
      var next := Round(beats, rests);
      assert next.0 == [] && |next.1| == numBeats;
      TileStep(beats, rests);
      TileDone(next.0, next.1);
      FlattenUniform(next.1, "X" + Copies(".", q));
      assert Flatten(next.0) == "";
    } else if numBeats == 1 {
      FlattenUniform(beats, "X");
      FlattenUniform(rests, ".");
      assert Copies("X" + Copies(".", q), 1) == "X" + Copies(".", q);
    } else {
      assert numRests == 0 && rests == [];
      FlattenUniform(beats, "X");
      FlattenUniform(beats, "X" + Copies(".", q));
    }
  }

  lemma CopiesSmall(s: string)
    ensures Copies(s, 4) == s + s + s + s
    ensures Copies(s, 7) == s + s + s + s + s + s + s
  {
    assert Copies(s, 1) == s;
    assert Copies(s, 2) == s + s;
    assert Copies(s, 3) == s + s + s;
    assert Copies(s, 5) == s + s + s + s + s;
    assert Copies(s, 6) == s + s + s + s + s + s;
  }

  lemma EighthSteps()
    ensures Copies("X" + Copies(".", 7), 4) == "X.......X.......X.......X......."
  {
    CopiesSmall(".");
    assert "X" + Copies(".", 7) == "X.......";
    CopiesSmall("X.......");
  }

  /** The first snare pattern: four beats among 28 rests, one every eighth step. */
  lemma PatternFourInThirtyTwo()
    ensures Pattern(4, 28) == "X.......X.......X.......X......."
  {
    PatternDivides(4, 28);
    EighthSteps();
  }

  // ---------------------------------------------------------------------------
  // The list helpers and the loops of generateRhythm

  /** createList: `numVal` copies of `val`, none when numVal is not positive. */
  method CreateList(val: string, numVal: int) returns (lst: seq<string>)
    ensures |lst| == Count(numVal)
    ensures forall i :: 0 <= i < |lst| ==> lst[i] == val
    ensures lst == Beads(val, numVal)
  {
    lst := [];
    var i := 0;
    while i < numVal
      invariant 0 <= i == |lst| <= Count(numVal)
      invariant forall j :: 0 <= j < i ==> lst[j] == val
    {
      lst := lst + [val];
      i := i + 1;
    }
    var beads := Beads(val, numVal);
    assert |lst| == |beads|;
    assert forall j :: 0 <= j < |lst| ==> lst[j] == beads[j];
  }

  /** copyList: the elements at positions startIndex up to (excluding) endIndex, or
      nothing when the range is empty. */
  method CopyList(listToCopy: seq<string>, startIndex: nat, endIndex: nat) returns (newList: seq<string>)
    requires startIndex < endIndex ==> endIndex <= |listToCopy|
    ensures |newList| == Count(endIndex - startIndex)
    ensures startIndex < endIndex ==> newList == listToCopy[startIndex..endIndex]
    ensures endIndex <= startIndex ==> newList == []
  {
    newList := [];
    var index := startIndex;
    while index < endIndex
      invariant startIndex <= index
      invariant startIndex < endIndex ==> index <= endIndex && newList == listToCopy[startIndex..index]
      invariant endIndex <= startIndex ==> newList == []
    {
      newList := newList + [listToCopy[index]];
      index := index + 1;
    }
  }

  /** substituteBeads: cut the bracelet at `index`; the front is the next bracelet and the
      back becomes the next list of unused beads. Nothing is lost or reordered. */
  method SubstituteBeads(bracelet: seq<string>, index: nat)
      returns (newBracelet: seq<string>, newUnusedBeads: seq<string>)
    requires index <= |bracelet|
    ensures newBracelet + newUnusedBeads == bracelet
    ensures |newBracelet| == index
  {
    newBracelet := CopyList(bracelet, 0, index);
    newUnusedBeads := CopyList(bracelet, index, |bracelet|);
    assert bracelet[..index] + bracelet[index..] == bracelet;
  }

  lemma WrapNext(index: nat, n: nat)
    requires index < n
    ensures (index + 1) % n == Next(index, n)
  {
    if index + 1 == n {
      DivModUnique(index + 1, n, 1, 0);
    } else {
      DivModUnique(index + 1, n, 0, index + 1);
    }
  }

  /** addBeads followed by substituteBeads: pop unused beads off the end, append each to
      the bracelet bead at a cursor that wraps round, then cut at the cursor. */
  method AddBeads(bracelet: seq<string>, unusedBeads: seq<string>)
      returns (newBracelet: seq<string>, newUnusedBeads: seq<string>)
    requires unusedBeads != [] ==> bracelet != []
    ensures (newBracelet, newUnusedBeads) == Round(bracelet, unusedBeads)
    ensures bracelet != [] ==> |newBracelet| < |bracelet|
    ensures Chars(newBracelet) + Chars(newUnusedBeads) == Chars(bracelet) + Chars(unusedBeads)
  {
    var beads, unused := bracelet, unusedBeads;
    var index: nat := 0;
    while unused != []
      invariant |beads| == |bracelet|
      invariant bracelet == [] ==> unused == [] && index == 0
      invariant bracelet != [] ==>
                  && index < |bracelet|
                  && Deal(beads, unused, index) == Deal(bracelet, unusedBeads, 0)
                  && Cursor(|bracelet|, |unused|, index) == Cursor(|bracelet|, |unusedBeads|, 0)
      decreases |unused|
    {
      var newRemainder := unused[|unused| - 1];
      unused := unused[..|unused| - 1];
      beads := beads[index := beads[index] + newRemainder];
      WrapNext(index, |beads|);
      index := (index + 1) % |beads|;
    }
    newBracelet, newUnusedBeads := SubstituteBeads(beads, index);
    RoundPreserves(bracelet, unusedBeads);
  }

  /** generateRhythm: run rounds while both lists hold more than one bead, string the two
      lists together, then shift the result right by `offset`. */
  method GenerateRhythm(numBeats: int, numRests: int, offset: nat) returns (offsetRhythm: string)
    ensures offsetRhythm == Shift(Pattern(numBeats, numRests), offset)
    ensures |offsetRhythm| == Count(numBeats) + Count(numRests)
    ensures offset == 0 ==> offsetRhythm == Pattern(numBeats, numRests)
    ensures offset == 0 ==>
              multiset(offsetRhythm)['X'] == Count(numBeats) && multiset(offsetRhythm)['.'] == Count(numRests)
  {
    var bracelet := CreateList("X", numBeats);
    var unusedBeads := CreateList(".", numRests);
    while |bracelet| > 1 && |unusedBeads| > 1
      invariant Tile(bracelet, unusedBeads) == Pattern(numBeats, numRests)
      decreases |bracelet|
    {
      TileStep(bracelet, unusedBeads);
      bracelet, unusedBeads := AddBeads(bracelet, unusedBeads);
    }
    TileDone(bracelet, unusedBeads);
    var rhythm := StringTogether(bracelet, unusedBeads);
    offsetRhythm := ShiftRight(rhythm, offset);
    PatternCounts(numBeats, numRests);
  }

  /** The two loops of generateRhythm that append the bracelet's beads and then the
      unused beads to an empty rhythm. */
  method StringTogether(bracelet: seq<string>, unusedBeads: seq<string>) returns (rhythm: string)
    ensures rhythm == Flatten(bracelet) + Flatten(unusedBeads)
    ensures |rhythm| == |Flatten(bracelet)| + |Flatten(unusedBeads)|
  {
    rhythm := "";
    for i := 0 to |bracelet|
      invariant rhythm == Flatten(bracelet[..i])
    {
      FlattenSnoc(bracelet, i);
      rhythm := rhythm + bracelet[i];
    }
    assert bracelet[..|bracelet|] == bracelet;
    for i := 0 to |unusedBeads|
      invariant rhythm == Flatten(bracelet) + Flatten(unusedBeads[..i])
    {
      FlattenSnoc(unusedBeads, i);
      rhythm := rhythm + unusedBeads[i];
    }
    assert unusedBeads[..|unusedBeads|] == unusedBeads;
  }

  /** The last loop of generateRhythm: a rest for each of the first `offset` positions,
      then the rhythm's characters from its start, as many characters as the rhythm has. */
  method ShiftRight(rhythm: string, offset: nat) returns (offsetRhythm: string)
    ensures |offsetRhythm| == |rhythm|
    ensures forall i :: 0 <= i < |rhythm| ==>
              offsetRhythm[i] == if i < offset then '.' else rhythm[i - offset]
    ensures offsetRhythm == Shift(rhythm, offset)
    ensures offset == 0 ==> offsetRhythm == rhythm
  {
    offsetRhythm := "";
    for i := 0 to |rhythm|
      invariant |offsetRhythm| == i
      invariant forall j :: 0 <= j < i ==> offsetRhythm[j] == if j < offset then '.' else rhythm[j - offset]
    {
      if i < offset {
        offsetRhythm := offsetRhythm + ".";
      } else {
        offsetRhythm := offsetRhythm + [rhythm[i - offset]];
      }
    }
  }

  // ---------------------------------------------------------------------------
  // Drum tracks

  /** `notes` holds one note per character of `pattern`: the beat note for 'X' and the
      rest note for anything else. */
  predicate Decodes(notes: seq<Note>, pattern: string, beatNote: Note, restNote: Note)
  {
    && |notes| == |pattern|
    && forall i :: 0 <= i < |pattern| ==> notes[i] == if pattern[i] == 'X' then beatNote else restNote
  }

  /** decodePattern: translates the pattern character by character. */
  method DecodePattern(pattern: string, beatNote: Note, restNote: Note) returns (notes: seq<Note>)
    ensures Decodes(notes, pattern, beatNote, restNote)
  {
    notes := [];
    for i := 0 to |pattern|
      invariant Decodes(notes, pattern[..i], beatNote, restNote)
    {
      if pattern[i] == 'X' {
        notes := notes + [beatNote];
      } else {
        notes := notes + [restNote];
      }
    }
    assert pattern[..|pattern|] == pattern;
  }

  /** The seven-segment arrangement A B A B A B B of both drum tracks. */
  function Arrange(a: string, b: string): (pattern: string)
    ensures |pattern| == 3 * |a| + 4 * |b|
  {
    a + b + a + b + a + b + b
  }

  /** A kick track is three times its first pattern plus four times its second. */
  lemma KickLength(kickBeats1: int, kickRests1: int, kickBeats2: int, kickRests2: int)
    ensures |Arrange(Pattern(kickBeats1, kickRests1), Pattern(kickBeats2, kickRests2))|
         == 3 * (Count(kickBeats1) + Count(kickRests1)) + 4 * (Count(kickBeats2) + Count(kickRests2))
  {
    PatternCounts(kickBeats1, kickRests1);
    PatternCounts(kickBeats2, kickRests2);
  }

  /** The snare track has 3 * 32 + 4 * 16 = 160 steps. */
  lemma SnareLength()
    ensures |Arrange(Shift(Pattern(4, 28), 2), Shift(Pattern(2, 14), 3))| == 160
  {
    PatternCounts(4, 28);
    PatternCounts(2, 14);
  }

  class Beat {
    var kick: seq<Note>
    var snare: seq<Note>

    constructor ()
      ensures kick == [] && snare == []
    {
      kick, snare := [], [];
    }

    /** createDrumPattern. The four randrange draws for the kick patterns are parameters
        (beats in [5, 10), rests in [20, 30) for the first and [5, 10) for the second);
        the snare patterns are fixed. */
    method CreateDrumPattern(kickBeats1: int, kickRests1: int, kickBeats2: int, kickRests2: int)
      requires 5 <= kickBeats1 < 10 && 20 <= kickRests1 < 30
      requires 5 <= kickBeats2 < 10 && 5 <= kickRests2 < 10
      modifies this
      ensures Decodes(kick, Arrange(Pattern(kickBeats1, kickRests1), Pattern(kickBeats2, kickRests2)), DRUM_HIT, REST)
      ensures Decodes(snare, Arrange(Shift(Pattern(4, 28), 2), Shift(Pattern(2, 14), 3)), DRUM_HIT, REST)
    {
      var kickPattern1 := GenerateRhythm(kickBeats1, kickRests1, 0);
      var kickPattern2 := GenerateRhythm(kickBeats2, kickRests2, 0);
      var snarePattern1 := GenerateRhythm(4, 28, 2);
      var snarePattern2 := GenerateRhythm(2, 14, 3);
      var kickPattern := Arrange(kickPattern1, kickPattern2);
      var snarePattern := Arrange(snarePattern1, snarePattern2);
      kick := DecodePattern(kickPattern, DRUM_HIT, REST);
      snare := DecodePattern(snarePattern, DRUM_HIT, REST);
    }
  }
}
