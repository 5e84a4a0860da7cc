/** `analyze_midi_movements` (analyze_midi_mvt_func.py): for every part that is
    not a drum part, the notes are taken in ascending onset order and every note
    after the first gets one report line naming the part, its program, the note's
    pitch, its measure and how the pitch moved from the note before. Printing is
    modelled as the sequence of lines the report prints, in order. */
module MovementReport {
  import opened Wrappers
  import opened Text
  import opened Score
  import ChordSearch

  /** The phrase the report prints for a pitch step of `diff` semitones. */
  function MovementPhrase(diff: int): string
  {
    if diff == 0 then "stays the same"
    else if diff == 1 then "moves up a half step"
    else if diff == 2 then "moves up a whole step"
    else if diff == -1 then "moves down a half step"
    else if diff == -2 then "moves down a whole step"
    else "moves irregularly"
  }

  /** The phrase for each of the robot's movement labels. */
  function Phrase(m: Movement): (text: string)
    ensures text != []
  {
    match m
    case Stay => "stays the same"
    case UpHalf => "moves up a half step"
    case UpWhole => "moves up a whole step"
    case DownHalf => "moves down a half step"
    case DownWhole => "moves down a whole step"
    case Irregular => "moves irregularly"
  }

  /** The report and the robot instructions classify a step alike: the printed
      phrase is the phrase of the movement label the robot would get, and the
      phrase tells the label apart. */
  lemma PhraseIsMovement(diff: int)
    ensures MovementPhrase(diff) == Phrase(DetermineRobotMovement(diff))
  {
  }

  /** Different movements print different phrases. */
  lemma PhraseInjective(a: Movement, b: Movement)
    ensures Phrase(a) == Phrase(b) ==> a == b
  {
  }

  /** Only a step of more than two semitones is reported as irregular; every other
      phrase names the step exactly. */
  lemma MovementPhraseSpec(diff: int)
    ensures MovementPhrase(diff) == "moves irregularly" <==> diff < -2 || diff > 2
    ensures forall other: int :: -2 <= diff <= 2 && MovementPhrase(other) == MovementPhrase(diff) ==> other == diff
  {
  }

  /** The labels of `execute_chord_movements` agree with the robot's labels for
      steps of up to two semitones; beyond that the robot says "irregular" while
      the chord code still names a half step in the direction of the move. */
  lemma ChordLabelsAgree(diff: int)
    ensures -2 <= diff <= 2 ==> ChordSearch.MovementLabel(diff) == Label(DetermineRobotMovement(diff))
    ensures diff > 2 ==> ChordSearch.MovementLabel(diff) == "up half" && DetermineRobotMovement(diff) == Irregular
    ensures diff < -2 ==> ChordSearch.MovementLabel(diff) == "down half" && DetermineRobotMovement(diff) == Irregular
  {
  }

  /** One report line: the part's name and program, the note's pitch, its 1-based
      measure and the movement phrase. */
  datatype Line = Line(name: string, program: nat, pitch: int, measure: nat, phrase: string)

  /** The text of a report line. */
  function Render(l: Line): (text: string)
    ensures |text| > |l.name| && text[..|l.name|] == l.name
    ensures |text| > |l.phrase| + 2 && text[|text| - |l.phrase| - 2..] == ": " + l.phrase
  {
    l.name + " (Program " + NatToString(l.program) + "), Note pitch: " + IntToString(l.pitch)
    + ", Measure: " + NatToString(l.measure) + ": " + l.phrase
  }

  /** The line for note `i` of a part's sorted notes, stepping from note `i - 1`. */
  function LineAt(p: Part, notes: seq<ScoreNote>, i: nat): Line
    requires 1 <= i < |notes|
  {
    Line(p.name, p.program, notes[i].pitch, MeasureOf(notes[i].start), MovementPhrase(notes[i].pitch - notes[i - 1].pitch))
  }

  /** The lines printed for the first `n` of a part's sorted notes. */
  function LinesUpTo(p: Part, notes: seq<ScoreNote>, n: nat): seq<Line>
    requires n <= |notes|
  {
    if n <= 1 then [] else LinesUpTo(p, notes, n - 1) + [LineAt(p, notes, n - 1)]
  }

  /** The lines printed for one part: none for a drum part. */
  function LinesOf(p: Part): seq<Line>
  {
    if p.isDrum then []
    else
      var notes := ByStart(p.notes);
      LinesUpTo(p, notes, |notes|)
  }

  /** The lines printed for the first `p` parts. */
  function ReportUpTo(parts: seq<Part>, p: nat): seq<Line>
    requires p <= |parts|
    decreases p, 0
  {
    if p == 0 then [] else ReportAfterPart(parts, p - 1)
  }

  function ReportAfterPart(parts: seq<Part>, q: nat): seq<Line>
    requires q < |parts|
    decreases q, 1
  {
    ReportUpTo(parts, q) + LinesOf(parts[q])
  }

  /** Every note after the first gets exactly one line, and line `i` is the one for
      note `i + 1`. */
  lemma {:induction false} LinesUpToSpec(p: Part, notes: seq<ScoreNote>, n: nat)
    requires n <= |notes|
    ensures |LinesUpTo(p, notes, n)| == if n <= 1 then 0 else n - 1
    ensures forall i :: 0 <= i < |LinesUpTo(p, notes, n)| ==> LinesUpTo(p, notes, n)[i] == LineAt(p, notes, i + 1)
  {
    if n > 1 {
      LinesUpToSpec(p, notes, n - 1);
    }
  }

  /** A part prints one line per note but its first; a drum part prints none. Each
      line reports a note of the part, in the part's measure for that note. */
  lemma LinesOfSpec(p: Part)
    ensures |LinesOf(p)| == if p.isDrum || |p.notes| <= 1 then 0 else |p.notes| - 1
    ensures forall l :: l in LinesOf(p) ==>
      l.name == p.name && l.program == p.program &&
      exists n :: n in p.notes && n.pitch == l.pitch && MeasureOf(n.start) == l.measure
  {
    if !p.isDrum {
      var notes := ByStart(p.notes);
      ByStartSorted(p.notes);
      LinesUpToSpec(p, notes, |notes|);
      forall l | l in LinesOf(p)
        ensures exists n :: n in p.notes && n.pitch == l.pitch && MeasureOf(n.start) == l.measure
      {
        var i :| 0 <= i < |LinesOf(p)| && LinesOf(p)[i] == l;
        assert notes[i + 1] in multiset(notes);
      }
    }
  }

  /** Within a part the lines come in ascending measure order. */
  lemma LinesInMeasureOrder(p: Part)
    ensures forall i, j :: 0 <= i < j < |LinesOf(p)| ==> LinesOf(p)[i].measure <= LinesOf(p)[j].measure
  {
    if !p.isDrum {
      var notes := ByStart(p.notes);
      ByStartSorted(p.notes);
      LinesUpToSpec(p, notes, |notes|);
      forall i, j | 0 <= i < j < |LinesOf(p)|
        ensures LinesOf(p)[i].measure <= LinesOf(p)[j].measure
      {
        MeasureOfSpec(notes[i + 1].start, notes[j + 1].start);
      }
    }
  }

  /** The report is the parts' lines one part after another. */
  lemma {:induction false} ReportUpToSpec(parts: seq<Part>, p: nat)
    requires p <= |parts|
    ensures |ReportUpTo(parts, p)| == LineCount(parts, p)
    decreases p
  {
    if p > 0 {
      ReportUpToSpec(parts, p - 1);
      LinesOfSpec(parts[p - 1]);
    }
  }

  /** Line `i` is in a different measure from the line before it. */
  predicate OpensMeasure(lines: seq<Line>, i: int)
  {
    1 <= i < |lines| && lines[i].measure != lines[i - 1].measure
  }

  /** A transition among a part's sorted notes is printed as the line of the note
      that makes it. */
  lemma TransitionIsLine(p: Part, name: string, notes: seq<ScoreNote>, tr: Transition)
    requires tr in TransitionsUpTo(name, notes, |notes|)
    ensures exists l :: l in LinesUpTo(p, notes, |notes|) && l.measure == tr.measure && l.phrase == Phrase(tr.movement)
  {
    TransitionsUpToSpec(name, notes, |notes|, tr);
    var i :| 1 <= i < |notes| && tr in TransitionAt(name, notes, i);
    PhraseIsMovement(notes[i].pitch - notes[i - 1].pitch);
    LinesUpToSpec(p, notes, |notes|);
    var l := LinesUpTo(p, notes, |notes|)[i - 1];
    assert l == LineAt(p, notes, i);
    assert l in LinesUpTo(p, notes, |notes|);
  }

  /** A line in a new measure is printed for a note that makes a transition. */
  lemma LineIsTransition(p: Part, name: string, notes: seq<ScoreNote>, i: int)
    requires OpensMeasure(LinesUpTo(p, notes, |notes|), i)
    ensures exists u :: u in TransitionsUpTo(name, notes, |notes|) && u.measure == LinesUpTo(p, notes, |notes|)[i].measure && Phrase(u.movement) == LinesUpTo(p, notes, |notes|)[i].phrase
  {
    LinesUpToSpec(p, notes, |notes|);
    var k := i + 1;
    assert LinesUpTo(p, notes, |notes|)[i] == LineAt(p, notes, k);
    assert LinesUpTo(p, notes, |notes|)[i - 1] == LineAt(p, notes, k - 1);
    var entering := TransitionAt(name, notes, k)[0];
    PhraseIsMovement(notes[k].pitch - notes[k - 1].pitch);
    TransitionsUpToSpec(name, notes, |notes|, entering);
  }

  /** The robot's instructions for a part are the report's lines at which the
      measure changes: each transition is printed as a line in its measure with
      its movement's phrase, and each line after the first whose measure differs
      from the line before it is a transition. */
  lemma TransitionsAreReportedChanges(p: Part)
    ensures forall tr :: tr in TransitionsOf(p) ==>
      exists l :: l in LinesOf(p) && l.measure == tr.measure && l.phrase == Phrase(tr.movement)
    ensures forall i :: OpensMeasure(LinesOf(p), i) ==>
      exists u :: u in TransitionsOf(p) && u.measure == LinesOf(p)[i].measure && Phrase(u.movement) == LinesOf(p)[i].phrase
  {
    if !p.isDrum {
      var notes := ByStart(p.notes);
      forall tr | tr in TransitionsOf(p)
        ensures exists l :: l in LinesOf(p) && l.measure == tr.measure && l.phrase == Phrase(tr.movement)
      {
        TransitionIsLine(p, PartName(p), notes, tr);
      }
      forall i | OpensMeasure(LinesOf(p), i)
        ensures exists u :: u in TransitionsOf(p) && u.measure == LinesOf(p)[i].measure && Phrase(u.movement) == LinesOf(p)[i].phrase
      {
        LineIsTransition(p, PartName(p), notes, i);
      }
    }
  }

  /** The number of lines the first `p` parts print. */
  function LineCount(parts: seq<Part>, p: nat): nat
    requires p <= |parts|
  {
    if p == 0 then 0
    else LineCount(parts, p - 1) + (if parts[p - 1].isDrum || |parts[p - 1].notes| <= 1 then 0 else |parts[p - 1].notes| - 1)
  }

  /** The lines of one part, printed in onset order. */
  method ReportPart(p: Part) returns (lines: seq<Line>)
    requires !p.isDrum
    ensures lines == LinesOf(p)
  {
    var notes := ByStart(p.notes);
    lines := [];
    var previousPitch: Option<int> := None;
    for i := 0 to |notes|
      invariant lines == LinesUpTo(p, notes, i)
      invariant i == 0 ==> previousPitch.None?
      invariant i > 0 ==> previousPitch == Some(notes[i - 1].pitch)
    {
      var note := notes[i];
      var measureNumber := MeasureOf(note.start);
      if previousPitch.Some? {
        var movement := MovementPhrase(note.pitch - previousPitch.value);
        lines := lines + [Line(p.name, p.program, note.pitch, measureNumber, movement)];
      }
      previousPitch := Some(note.pitch);
    }
  }

  /** The whole report, part by part, skipping drum parts. */
  method AnalyzeMidiMovements(parts: seq<Part>) returns (lines: seq<Line>)
    ensures lines == ReportUpTo(parts, |parts|)
  {
    lines := [];
    for p := 0 to |parts|
      invariant lines == ReportUpTo(parts, p)
    {
      var instrument := parts[p];
      if !instrument.isDrum {
        var partLines := ReportPart(instrument);
        lines := lines + partLines;
      }
    }
  }
}
