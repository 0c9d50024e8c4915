/** The guitar fretboard: six strings in standard tuning, frets 0 to 12. */
module GuitarFretboard {
  import opened Wrappers
  import opened PitchNames

  /** Open-string notes, high E first as drawn. */
  const STRINGS: seq<string> := ["E", "B", "G", "D", "A", "E"]
  const FRETS: nat := 12

  /** `xs.indexOf(x)`: an index holding `x`, or -1 when there is none;
      `IndexOfIsFirst` shows the index is the first one. */
  function IndexOf(xs: seq<string>, x: string): (r: int)
    ensures -1 <= r < |xs|
    ensures r == -1 <==> x !in xs
    ensures 0 <= r ==> xs[r] == x
  {
    IndexFrom(xs, x, 0)
  }

  /** The search of `indexOf`, from position `from` on. */
  function IndexFrom(xs: seq<string>, x: string, from: nat): (r: int)
    requires from <= |xs|
    requires forall j :: 0 <= j < from ==> xs[j] != x
    ensures -1 <= r < |xs|
    ensures r == -1 <==> x !in xs
    ensures 0 <= r ==> from <= r && xs[r] == x
    decreases |xs| - from
  {
    if from == |xs| then -1
    else if xs[from] == x then from
    else IndexFrom(xs, x, from + 1)
  }

  /** Nothing before the index the search from `from` finds holds `x`. */
  lemma {:induction false} IndexFromIsFirst(xs: seq<string>, x: string, from: nat)
    requires from <= |xs|
    requires forall j :: 0 <= j < from ==> xs[j] != x
    ensures forall j :: 0 <= j < IndexFrom(xs, x, from) ==> xs[j] != x
    decreases |xs| - from
  {
    if from < |xs| && xs[from] != x {
      IndexFromIsFirst(xs, x, from + 1);
    }
  }

  /** `indexOf` finds the first occurrence. */
  lemma IndexOfIsFirst(xs: seq<string>, x: string)
    ensures forall j :: 0 <= j < IndexOf(xs, x) ==> xs[j] != x
  {
    IndexFromIsFirst(xs, x, 0);
  }

  /** `NOTES[(startIndex + fret) % 12]` for the `startIndex` that `indexOf`
      found. JavaScript's `%` keeps the sign of the dividend, so the only
      dividend below zero here, -1, gives index -1, which reads as
      `undefined` (`None`); every other dividend is reduced as usual. */
  function NoteFromIndex(startIndex: int, fret: nat): (r: Option<string>)
    requires -1 <= startIndex < |NOTES|
    ensures startIndex >= 0 ==> r == Some(NOTES[(startIndex + fret) % 12])
    ensures startIndex == -1 ==> r == (if fret == 0 then None else Some(NOTES[(fret - 1) % 12]))
  {
    var dividend := startIndex + fret;
    if dividend < 0 then None else Some(NOTES[dividend % 12])
  }

  /** `getNoteAtFret`. An open note missing from `NOTES` has index -1: its
      fret 0 reads as `undefined` and every higher fret as if the string were
      tuned one semitone below C. */
  function NoteAtFret(open: string, fret: nat): (r: Option<string>)
    ensures r.None? <==> open !in NOTES && fret == 0
  {
    NoteFromIndex(IndexOf(NOTES, open), fret)
  }

  /** The pitch names are pairwise distinct, so `indexOf` finds each at its
      own position. */
  lemma IndexOfNotes(k: nat)
    requires k < |NOTES|
    ensures IndexOf(NOTES, NOTES[k]) == k
  {
    assert forall i, j :: 0 <= i < j < |NOTES| ==> NOTES[i] != NOTES[j];
  }

  lemma PitchArithmetic(a: nat)
    ensures ((a % 12) + 1) % 12 == (a + 1) % 12
    ensures (a + 12) % 12 == a % 12
  {
  }

  /** On a string whose open note is one of the twelve names, fret `f` sounds
      the name `f` places further along `NOTES`, cyclically. */
  lemma PitchAtFret(open: string, fret: nat)
    requires open in NOTES
    ensures NoteAtFret(open, fret).Some?
    ensures IndexOf(NOTES, NoteAtFret(open, fret).value) == (IndexOf(NOTES, open) + fret) % 12
  {
    IndexOfNotes((IndexOf(NOTES, open) + fret) % 12);
  }

  /** One fret higher is one semitone higher: the next name in `NOTES`,
      wrapping from B to C. */
  lemma NextFretIsSuccessor(open: string, fret: nat)
    requires open in NOTES
    ensures NoteAtFret(open, fret).Some? && NoteAtFret(open, fret + 1).Some?
    ensures IndexOf(NOTES, NoteAtFret(open, fret + 1).value)
         == (IndexOf(NOTES, NoteAtFret(open, fret).value) + 1) % 12
  {
    PitchAtFret(open, fret);
    PitchAtFret(open, fret + 1);
    PitchArithmetic(IndexOf(NOTES, open) + fret);
  }

  /** Twelve frets up is the same note again: fret 12 repeats the open string. */
  lemma OctaveRepeats(open: string, fret: nat)
    requires open in NOTES
    ensures NoteAtFret(open, fret + 12) == NoteAtFret(open, fret)
  {
    PitchArithmetic(IndexOf(NOTES, open) + fret);
  }

  /** Every open string of the standard tuning is one of the twelve names. */
  lemma StringsAreNotes(s: nat)
    requires s < |STRINGS|
    ensures STRINGS[s] in NOTES
  {
    assert STRINGS[s] == NOTES[[4, 11, 7, 2, 9, 4][s]];
    IndexOfNotes([4, 11, 7, 2, 9, 4][s]);
  }

  /** What one fret position shows: its note and whether it is lit. */
  datatype Position = Position(note: string, active: bool)

  /** The board as rendered: for each string, the 13 positions 0..12. */
  function Fretboard(highlightedNotes: seq<string>): (board: seq<seq<Position>>)
    ensures |board| == |STRINGS| == 6
    ensures forall s :: 0 <= s < |board| ==> |board[s]| == FRETS + 1
    ensures forall s, f :: 0 <= s < |board| && 0 <= f < |board[s]| ==>
      board[s][f].note in NOTES
      && NoteAtFret(STRINGS[s], f) == Some(board[s][f].note)
      && board[s][f].active == IsHighlighted(highlightedNotes, board[s][f].note)
  {
    forall s | 0 <= s < |STRINGS| ensures STRINGS[s] in NOTES {
      StringsAreNotes(s);
    }
    seq(|STRINGS|, s requires 0 <= s < |STRINGS| =>
      seq(FRETS + 1, f requires 0 <= f < FRETS + 1 =>
        var note := NoteAtFret(STRINGS[s], f).value;
        Position(note, IsHighlighted(highlightedNotes, note))))
  }
}
