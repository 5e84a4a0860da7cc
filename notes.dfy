/** Note names and MIDI pitch numbers (multimodal_equilibrium.py, "chord analysis
    functions"): `parse_note`, `note_to_midi` and `midi_to_note`. */
module Notes {
  import opened Wrappers
  import opened Text

  /** The pitch class of a note name, the `NOTE_TO_MIDI` table: sharps and flats. */
  function ClassOf(name: string): (r: Option<int>)
    ensures r.Some? ==> 0 <= r.value < 12
    ensures r.Some? ==> 1 <= |name| <= 2 && 'A' <= name[0] <= 'G'
    ensures r.Some? && |name| == 2 ==> name[1] == '#' || name[1] == 'b'
  {
    if name == "C" then Some(0)
    else if name == "C#" || name == "Db" then Some(1)
    else if name == "D" then Some(2)
    else if name == "D#" || name == "Eb" then Some(3)
    else if name == "E" then Some(4)
    else if name == "F" then Some(5)
    else if name == "F#" || name == "Gb" then Some(6)
    else if name == "G" then Some(7)
    else if name == "G#" || name == "Ab" then Some(8)
    else if name == "A" then Some(9)
    else if name == "A#" || name == "Bb" then Some(10)
    else if name == "B" then Some(11)
    else None
  }

  /** The `MIDI_TO_NOTE` table: one sharp-spelled name per pitch class. */
  const SharpNames: seq<string> := ["C", "C#", "D", "D#", "E", "F", "F#", "G", "G#", "A", "A#", "B"]

  /** `note_to_midi`: the last character is the octave, the rest the pitch class.
      An empty string, a non-digit last character and an unknown class raise. */
  function NoteToMidi(note: string): Result<int>
  {
    if |note| == 0 then Err(IndexError)
    else if !IsDigit(note[|note| - 1]) then Err(ValueError)
    else match ClassOf(note[..|note| - 1])
      case None => Err(KeyError)
      case Some(pc) => Ok(pc + (DigitValue(note[|note| - 1]) + 1) * 12)
  }

  /** `midi_to_note`: octave `midi // 12 - 1` and the sharp name of `midi % 12`
      (Python's floor division and modulo agree with Dafny's for divisor 12). */
  function MidiToNote(midi: int): string
  {
    SharpNames[midi % 12] + IntToString(midi / 12 - 1)
  }

  /** `parse_note`: `re.match(r"([A-G]#?)(\d)", s)`, a match at the start of `s`
      that ignores whatever follows; no match raises `ValueError`. */
  function ParseNote(s: string): (r: Result<(string, nat)>)
    ensures r.Ok? <==> |s| >= 2 && 'A' <= s[0] <= 'G' && (IsDigit(s[1]) || (|s| >= 3 && s[1] == '#' && IsDigit(s[2])))
    ensures r.Ok? ==> var n := |r.value.0|;
      (n == 1 || (n == 2 && s[1] == '#')) && n < |s| && r.value.0 == s[..n]
      && IsDigit(s[n]) && r.value.1 == DigitValue(s[n]) && r.value.1 < 10
    ensures r.Err? ==> r.fault == ValueError
  {
    if |s| >= 2 && 'A' <= s[0] <= 'G' && s[1] == '#' then
      if |s| >= 3 && IsDigit(s[2]) then Ok((s[..2], DigitValue(s[2]))) else Err(ValueError)
    else if |s| >= 2 && 'A' <= s[0] <= 'G' && IsDigit(s[1]) then Ok((s[..1], DigitValue(s[1])))
    else Err(ValueError)
  }

  /** `note_to_midi(n) = class + 12 * (octave + 1)` for every known class and digit. */
  lemma NoteToMidiFormula(name: string, d: nat)
    requires ClassOf(name).Some? && d < 10
    ensures NoteToMidi(name + [DigitChar(d)]) == Ok(ClassOf(name).value + 12 * (d + 1))
  {
    assert (name + [DigitChar(d)])[..|name|] == name;
  }

  /** Every spelling of a pitch class, flats included, gives the same number as the
      sharp spelling `midi_to_note` uses for that class. */
  lemma SpellingIrrelevant(name: string, d: nat)
    requires ClassOf(name).Some? && d < 10
    ensures NoteToMidi(name + [DigitChar(d)]) == NoteToMidi(SharpNames[ClassOf(name).value] + [DigitChar(d)])
  {
    SharpNamesAreClasses(ClassOf(name).value);
    NoteToMidiFormula(name, d);
    NoteToMidiFormula(SharpNames[ClassOf(name).value], d);
  }

  lemma SharpNamesAreClasses(pc: int)
    requires 0 <= pc < 12
    ensures ClassOf(SharpNames[pc]) == Some(pc)
    ensures 'b' !in SharpNames[pc] && 1 <= |SharpNames[pc]| <= 2
  {
  }

  /** Writing a pitch number as a note and reading it back returns the number exactly
      when the octave is a single digit, 12 <= midi <= 131; outside that range the
      written name ("C-1", "C10") is not one `note_to_midi` accepts. */
  lemma MidiRoundTrip(midi: int)
    ensures NoteToMidi(MidiToNote(midi)) == Ok(midi) <==> 12 <= midi <= 131
  {
    var pc, oct := midi % 12, midi / 12 - 1;
    var name := SharpNames[pc];
    SharpNamesAreClasses(pc);
    var s := MidiToNote(midi);
    if 0 <= oct < 10 {
      assert IntToString(oct) == [DigitChar(oct)];
      NoteToMidiFormula(name, oct);
    } else if oct < 0 {
      var t := NatToString(-oct);
      assert s == name + "-" + t;
      assert s[..|s| - 1][|name|] == '-';
      assert ClassOf(s[..|s| - 1]).None?;
    } else {
      var t := NatToString(oct);
      assert s == name + t && |t| >= 2;
      assert s[..|s| - 1][|name|] == t[0];
      assert ClassOf(s[..|s| - 1]).None?;
    }
  }

  /** `midi_to_note` spells with sharps only. */
  lemma MidiToNoteNeverFlat(midi: int)
    ensures 'b' !in MidiToNote(midi)
  {
    var pc, oct := midi % 12, midi / 12 - 1;
    SharpNamesAreClasses(pc);
    var t := if oct < 0 then NatToString(-oct) else NatToString(oct);
    assert IntToString(oct) == if oct < 0 then "-" + t else t;
    assert forall i :: 0 <= i < |t| ==> t[i] != 'b';
  }

  /** `parse_note` accepts every sharp-or-natural name followed by an octave digit,
      whatever text comes after it, and agrees with `note_to_midi` on the name and
      digit. */
  lemma ParseNoteAgrees(name: string, d: nat, rest: string)
    requires d < 10 && ClassOf(name).Some? && (|name| == 2 ==> name[1] == '#')
    ensures ParseNote(name + [DigitChar(d)] + rest) == Ok((name, d))
    ensures NoteToMidi(name + [DigitChar(d)]) == Ok(ClassOf(name).value + 12 * (d + 1))
  {
    var s := name + [DigitChar(d)] + rest;
    assert s[|name|] == DigitChar(d);
    if |name| == 2 {
      assert s[..2] == name;
    } else {
      assert s[..1] == name;
    }
    NoteToMidiFormula(name, d);
  }
}
