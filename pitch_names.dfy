/** The twelve sharp-spelled pitch names both instrument views lay out, and
    the rule by which a name shown on an instrument is highlighted. */
module PitchNames {
  import opened JsText

  const NOTES: seq<string> := ["C", "C#", "D", "D#", "E", "F", "F#", "G", "G#", "A", "A#", "B"]

  /** `highlightedNotes.some(n => n.replace(/[0-9]/g, '') === note)`. */
  predicate IsHighlighted(highlightedNotes: seq<string>, note: string)
    // a name containing a digit is never lit, whatever the list holds
    ensures IsHighlighted(highlightedNotes, note) ==> forall k :: 0 <= k < |note| ==> !IsDigit(note[k])
  {
    exists i :: 0 <= i < |highlightedNotes| && StripDigits(highlightedNotes[i]) == note
  }

  /** No pitch name contains a digit or a 'b'. */
  lemma NotesSpelling(k: nat)
    requires k < |NOTES|
    ensures forall i :: 0 <= i < |NOTES[k]| ==> !IsDigit(NOTES[k][i])
    ensures 'b' !in NOTES[k]
  {
  }

  /** A name spelled with a flat ("Bb", "Eb4") never lights any pitch name
      of the views, even one it is enharmonic to. */
  lemma FlatSpellingNeverMatches(n: string, k: nat)
    requires 'b' in n && k < |NOTES|
    ensures StripDigits(n) != NOTES[k]
  {
    StripDigitsKeeps(n, 'b');
    NotesSpelling(k);
  }

  /** Adding flat-spelled names to the highlight list changes nothing. */
  lemma FlatEntriesIgnored(highlighted: seq<string>, flats: seq<string>, k: nat)
    requires k < |NOTES|
    requires forall i :: 0 <= i < |flats| ==> 'b' in flats[i]
    ensures IsHighlighted(highlighted + flats, NOTES[k]) <==> IsHighlighted(highlighted, NOTES[k])
  {
    var all := highlighted + flats;
    if IsHighlighted(all, NOTES[k]) {
      var i :| 0 <= i < |all| && StripDigits(all[i]) == NOTES[k];
      if i >= |highlighted| {
        FlatSpellingNeverMatches(flats[i - |highlighted|], k);
        assert false;
      }
      assert highlighted[i] == all[i];
    }
    if IsHighlighted(highlighted, NOTES[k]) {
      var i :| 0 <= i < |highlighted| && StripDigits(highlighted[i]) == NOTES[k];
      assert all[i] == highlighted[i];
    }
  }

  /** An octave number after a name is ignored: "C#4" lights "C#". */
  lemma OctaveNumberIgnored(highlighted: seq<string>, k: nat, octave: string)
    requires k < |NOTES|
    requires forall i :: 0 <= i < |octave| ==> IsDigit(octave[i])
    ensures IsHighlighted(highlighted + [NOTES[k] + octave], NOTES[k])
  {
    NotesSpelling(k);
    StripOctave(NOTES[k], octave);
    assert (highlighted + [NOTES[k] + octave])[|highlighted|] == NOTES[k] + octave;
  }
}
