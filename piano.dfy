/** The two-octave piano keyboard (keys 0..23, starting on C). White keys sit
    side by side; each black key is placed absolutely, centred on the right
    edge of the white keys laid out before it. */
module PianoKeyboard {
  import opened PitchNames

  const KEY_COUNT: nat := 24
  /** Widths in rem. */
  const WHITE_KEY_WIDTH: real := 3.5
  const BLACK_KEY_WIDTH: real := 2.0

  /** One rendered key: its position in the loop, its name, whether it is lit
      and, for a black key, its absolute left offset. */
  datatype Key =
    | WhiteKey(index: nat, name: string, active: bool)
    | BlackKey(index: nat, name: string, active: bool, left: real)

  /** `noteName.includes('#')`. */
  predicate IsSharp(name: string)
    // among the pitch names, the sharp ones are exactly the two-letter ones
    ensures name in NOTES ==> (IsSharp(name) <==> |name| == 2)
  {
    '#' in name
  }

  /** The octave positions that hold a sharp name. */
  predicate BlackPosition(p: int) {
    p == 1 || p == 3 || p == 6 || p == 8 || p == 10
  }

  /** The five sharp names sit at positions 1, 3, 6, 8 and 10 of the octave. */
  lemma SharpPositions(k: nat)
    requires k < |NOTES|
    ensures IsSharp(NOTES[k]) <==> BlackPosition(k)
  {
    assert NOTES[k] == ["C", "C#", "D", "D#", "E", "F", "F#", "G", "G#", "A", "A#", "B"][k];
    assert "C"[0] == 'C' && "D"[0] == 'D' && "E"[0] == 'E' && "F"[0] == 'F';
    assert "G"[0] == 'G' && "A"[0] == 'A' && "B"[0] == 'B';
    assert "C#"[1] == '#' && "D#"[1] == '#' && "F#"[1] == '#' && "G#"[1] == '#' && "A#"[1] == '#';
  }

  /** What key `k` adds to `whiteKeyCount`: one for a white key, none for a
      black one (`WhiteCountMeansWhite` ties this to the key's name). */
  function WhiteCount(k: nat): (d: nat)
    ensures d <= 1
  {
    if BlackPosition(k % 12) then 0 else 1
  }

  /** A key counts as white exactly when its name has no sharp. */
  lemma WhiteCountMeansWhite(k: nat)
    ensures WhiteCount(k) == 1 <==> !IsSharp(NOTES[k % 12])
  {
    SharpPositions(k % 12);
  }

  /** The value of `whiteKeyCount` when the loop reaches key `i`: the number
      of white keys among keys 0..i-1. */
  function WhiteKeysBefore(i: nat): (n: nat)
    ensures n <= i
  {
    if i == 0 then 0
    else WhiteKeysBefore(i - 1) + WhiteCount(i - 1)
  }

  /** The key the loop renders at position `i`. */
  function KeyAt(highlightedNotes: seq<string>, i: nat): (k: Key)
    ensures k.index == i && k.name == NOTES[i % 12]
    ensures k.active == IsHighlighted(highlightedNotes, NOTES[i % 12])
    ensures k.BlackKey? <==> IsSharp(NOTES[i % 12])
    ensures k.BlackKey? ==> k.left + BLACK_KEY_WIDTH / 2.0 == WhiteKeysBefore(i) as real * WHITE_KEY_WIDTH
  {
    var name := NOTES[i % 12];
    var active := IsHighlighted(highlightedNotes, name);
    if IsSharp(name) then
      BlackKey(i, name, active, WhiteKeysBefore(i) as real * WHITE_KEY_WIDTH - BLACK_KEY_WIDTH / 2.0)
    else
      WhiteKey(i, name, active)
  }

  /** The render loop of the keyboard. */
  method Layout(highlightedNotes: seq<string>) returns (keys: seq<Key>)
    ensures |keys| == KEY_COUNT
    ensures forall i :: 0 <= i < |keys| ==> keys[i] == KeyAt(highlightedNotes, i)
  {
    keys := [];
    var whiteKeyCount: nat := 0;
    for i := 0 to KEY_COUNT
      invariant |keys| == i
      invariant whiteKeyCount == WhiteKeysBefore(i)
      invariant forall j :: 0 <= j < i ==> keys[j] == KeyAt(highlightedNotes, j)
    {
      var noteIndex := i % 12;
      var noteName := NOTES[noteIndex];
      var isSharp := IsSharp(noteName);
      var isActive := IsHighlighted(highlightedNotes, noteName);
      WhiteCountMeansWhite(i);
      if !isSharp {
        keys := keys + [WhiteKey(i, noteName, isActive)];
        whiteKeyCount := whiteKeyCount + 1;
      } else {
        var leftPos := whiteKeyCount as real * WHITE_KEY_WIDTH - BLACK_KEY_WIDTH / 2.0;
        keys := keys + [BlackKey(i, noteName, isActive, leftPos)];
      }
    }
  }

  /** Seven of the twelve keys of the first octave are white. */
  lemma FirstOctaveWhiteKeys()
    ensures WhiteKeysBefore(12) == 7
  {
    assert WhiteCount(0) == 1 && WhiteCount(1) == 0 && WhiteCount(2) == 1 && WhiteCount(3) == 0;
    assert WhiteCount(4) == 1 && WhiteCount(5) == 1 && WhiteCount(6) == 0 && WhiteCount(7) == 1;
    assert WhiteCount(8) == 0 && WhiteCount(9) == 1 && WhiteCount(10) == 0 && WhiteCount(11) == 1;
    assert WhiteKeysBefore(1) == 1;
    assert WhiteKeysBefore(2) == 1;
    assert WhiteKeysBefore(3) == 2;
    assert WhiteKeysBefore(4) == 2;
    assert WhiteKeysBefore(5) == 3;
    assert WhiteKeysBefore(6) == 4;
    assert WhiteKeysBefore(7) == 4;
    assert WhiteKeysBefore(8) == 5;
    assert WhiteKeysBefore(9) == 5;
    assert WhiteKeysBefore(10) == 6;
    assert WhiteKeysBefore(11) == 6;
  }

  /** Every octave adds seven white keys. */
  lemma {:induction false} WhiteKeysPerOctave(i: nat)
    ensures WhiteKeysBefore(i + 12) == WhiteKeysBefore(i) + 7
  {
    if i == 0 {
      FirstOctaveWhiteKeys();
    } else {
      WhiteKeysPerOctave(i - 1);
      assert (i - 1 + 12) % 12 == (i - 1) % 12;
    }
  }

  /** The two octaves hold 14 white keys and hence 10 black ones. */
  lemma WhiteKeyTotal()
    ensures WhiteKeysBefore(KEY_COUNT) == 14
  {
    WhiteKeysPerOctave(12);
    FirstOctaveWhiteKeys();
  }

  /** `whiteKeyCount` never decreases and grows by at most one per key. */
  lemma {:induction false} WhiteKeysMonotone(i: nat, j: nat)
    requires i <= j
    ensures WhiteKeysBefore(i) <= WhiteKeysBefore(j) <= WhiteKeysBefore(i) + (j - i)
    decreases j - i
  {
    if i < j {
      WhiteKeysMonotone(i, j - 1);
    }
  }

  /** The position in the octave of key `n`, from any quotient and remainder. */
  lemma OctaveRemainder(n: int, q: int, r: int)
    requires n == 12 * q + r && 0 <= r < 12
    ensures n % 12 == r
  {
  }

  /** A black position has white positions on both sides, so the white key
      count does not move across it, and it grows across the next one. */
  lemma BlackNeighbours(i: nat)
    requires BlackPosition(i % 12)
    ensures i > 0 && !BlackPosition((i - 1) % 12) && !BlackPosition((i + 1) % 12)
    ensures WhiteKeysBefore(i + 1) == WhiteKeysBefore(i) >= 1
    ensures WhiteKeysBefore(i + 2) == WhiteKeysBefore(i) + 1
  {
    var p, q := i % 12, i / 12;
    assert i == 12 * q + p;
    OctaveRemainder(i - 1, q, p - 1);
    OctaveRemainder(i + 1, q, p + 1);
    assert WhiteCount(i - 1) == 1 && WhiteCount(i + 1) == 1;
  }

  /** Between two black positions the white key count grows by at least one. */
  lemma BlacksApart(i: nat, j: nat)
    requires i < j && BlackPosition(i % 12) && BlackPosition(j % 12)
    ensures WhiteKeysBefore(i) + 1 <= WhiteKeysBefore(j)
  {
    BlackNeighbours(i);
    assert j != i + 1;
    WhiteKeysMonotone(i + 2, j);
  }

  /** A black key has a white neighbour on each side (within the keyboard),
      does not start the keyboard, and is centred on the boundary between the
      white key before it and the one after it, so it lies wholly right of
      the left edge. */
  lemma BlackKeyBetweenWhiteKeys(highlightedNotes: seq<string>, i: nat)
    requires i < KEY_COUNT && KeyAt(highlightedNotes, i).BlackKey?
    ensures 0 < i && KeyAt(highlightedNotes, i - 1).WhiteKey?
    ensures i + 1 < KEY_COUNT ==> KeyAt(highlightedNotes, i + 1).WhiteKey?
    ensures WhiteKeysBefore(i + 1) == WhiteKeysBefore(i) >= 1
    ensures KeyAt(highlightedNotes, i).left >= WHITE_KEY_WIDTH - BLACK_KEY_WIDTH / 2.0
  {
    SharpPositions(i % 12);
    BlackNeighbours(i);
    SharpPositions((i - 1) % 12);
    SharpPositions((i + 1) % 12);
    var w := WhiteKeysBefore(i) as real;
    assert w >= 1.0;
  }

  /** Black keys never overlap: a later black key starts a full white-key
      width or more to the right of an earlier one, which exceeds the black
      key width. */
  lemma BlackKeysDoNotOverlap(highlightedNotes: seq<string>, i: nat, j: nat)
    requires i < j < KEY_COUNT
    requires KeyAt(highlightedNotes, i).BlackKey? && KeyAt(highlightedNotes, j).BlackKey?
    ensures KeyAt(highlightedNotes, i).left + WHITE_KEY_WIDTH <= KeyAt(highlightedNotes, j).left
    ensures KeyAt(highlightedNotes, i).left + BLACK_KEY_WIDTH < KeyAt(highlightedNotes, j).left
  {
    SharpPositions(i % 12);
    SharpPositions(j % 12);
    BlacksApart(i, j);
    var a := WhiteKeysBefore(i) as real;
    var b := WhiteKeysBefore(j) as real;
    assert a + 1.0 <= b;
  }

  /** The second octave repeats the first: same names, same lighting, same
      colours, and each black key exactly seven white keys further right. */
  lemma SecondOctaveRepeatsFirst(highlightedNotes: seq<string>, i: nat)
    requires i < 12
    ensures KeyAt(highlightedNotes, i + 12).name == KeyAt(highlightedNotes, i).name
    ensures KeyAt(highlightedNotes, i + 12).active == KeyAt(highlightedNotes, i).active
    ensures KeyAt(highlightedNotes, i + 12).BlackKey? == KeyAt(highlightedNotes, i).BlackKey?
    ensures KeyAt(highlightedNotes, i).BlackKey? ==>
      KeyAt(highlightedNotes, i + 12).left == KeyAt(highlightedNotes, i).left + 7.0 * WHITE_KEY_WIDTH
  {
    assert (i + 12) % 12 == i % 12;
    WhiteKeysPerOctave(i);
  }
}
