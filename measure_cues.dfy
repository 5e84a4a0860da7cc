/** Cueing one measure: the camera goes home, pans to the leftmost musician, gives
    each musician in turn the nod for their movement, pans right between them, and
    (in most versions) ends with a "slam" cue. Five versions exist:
    - `simple_execute_one_measure` (demo_movements.py) and
      Archive/execute_one_measure.py nod with a return to level;
    - execute_one_measure.py nods without returning, and ends without a slam;
    - `execute_chord_movements` (multimodal_equilibrium.py) visits the notes of a
      chord instead of the four string players;
    - `execute_one_measure` of robot_conductor.py pans to each musician's detected
      position instead of one step to the right.
    The pauses between commands are not modelled. */
module MeasureCues {
  import opened Wrappers
  import opened Score
  import InstructionList
  import InstructionDict
  import Gestures
  import opened Camera
  import opened Cues

  /** The string quartet from left to right. */
  const InstrumentOrder: seq<string> := ["Violin I", "Violin II", "Viola", "Violoncello"]

  /** The quartet's names are different, so testing for the last name is testing
      for the last place. */
  lemma InstrumentOrderIsLastOnlyAtEnd(i: nat)
    requires i < |InstrumentOrder|
    ensures InstrumentOrder[i] != InstrumentOrder[|InstrumentOrder| - 1] <==> i < |InstrumentOrder| - 1
  {
  }

  /** The entry's movements as the texts the scripts compare. */
  function LabelMap(entry: map<string, Movement>): (texts: map<string, string>)
    ensures texts.Keys == entry.Keys
    ensures forall name :: name in entry ==> texts[name] == Label(entry[name])
  {
    map name | name in entry :: Label(entry[name])
  }

  /** What `dict.get` finds for each name in turn. */
  function Lookups(entry: map<string, string>, names: seq<string>): (found: seq<Option<string>>)
    ensures |found| == |names|
    ensures forall i :: 0 <= i < |names| ==> (found[i].Some? <==> names[i] in entry)
    ensures forall i :: 0 <= i < |names| && names[i] in entry ==> found[i] == Some(entry[names[i]])
  {
    seq(|names|, i requires 0 <= i < |names| => if names[i] in entry then Some(entry[names[i]]) else None)
  }

  /** The nod for what the lookup found: nothing when it found nothing or an empty
      text, otherwise the nod of the label, with or without the return to level. */
  function Cue(levelled: bool, movement: Option<string>): seq<Cmd>
  {
    if movement.Some? && movement.value != [] then
      (if levelled then Levelled(movement.value) else Unlevelled(movement.value))
    else []
  }

  /** The cues for what was found for each visit. */
  function CueList(levelled: bool, movements: seq<Option<string>>): (cues: seq<seq<Cmd>>)
    ensures |cues| == |movements|
    ensures forall i :: 0 <= i < |movements| ==> cues[i] == Cue(levelled, movements[i])
  {
    seq(|movements|, i requires 0 <= i < |movements| => Cue(levelled, movements[i]))
  }

  /** A cue that leaves the camera settled and never pans. */
  predicate InPlace(cue: seq<Cmd>)
  {
    Settled(cue) && Count(Left, cue) == 0 && Count(Right, cue) == 0
  }

  /** Every cue stays in place. */
  lemma CueListInPlace(levelled: bool, movements: seq<Option<string>>)
    ensures forall i :: 0 <= i < |movements| ==> InPlace(CueList(levelled, movements)[i])
  {
    forall i | 0 <= i < |movements|
      ensures InPlace(CueList(levelled, movements)[i])
    {
      var movement := movements[i];
      if movement.Some? {
        LevelledSpec(movement.value);
        UnlevelledSpec(movement.value);
      }
    }
  }

  /** The first `k` visits of a sweep: each cue, followed by a pan to the right for
      the visits before position `pans`. */
  function Sweep(cues: seq<seq<Cmd>>, pans: int, k: nat): seq<Cmd>
    requires k <= |cues|
  {
    if k == 0 then []
    else
      Sweep(cues, pans, k - 1) + cues[k - 1] + (if k - 1 < pans then [Right, PtzStop] else [])
  }

  /** A sweep of cues that settle the camera settles it too. */
  lemma {:induction false} SweepSettled(cues: seq<seq<Cmd>>, pans: int, k: nat)
    requires k <= |cues|
    requires forall i :: 0 <= i < |cues| ==> InPlace(cues[i])
    ensures Settled(Sweep(cues, pans, k))
  {
    if k > 0 {
      var before := Sweep(cues, pans, k - 1);
      SweepSettled(cues, pans, k - 1);
      assert InPlace(cues[k - 1]);
      SettledAppend(before, cues[k - 1]);
      if k - 1 < pans {
        assert Settled([Right, PtzStop]);
        SettledAppend(before + cues[k - 1], [Right, PtzStop]);
      } else {
        assert before + cues[k - 1] + [] == before + cues[k - 1];
      }
    }
  }

  lemma CountPan(c: Cmd)
    ensures Count(c, [Right, PtzStop]) == if c == Right || c == PtzStop then 1 else 0
  {
    assert [Right, PtzStop][..1] == [Right];
  }

  /** A sweep of cues in place never pans left. */
  lemma {:induction false} SweepNeverLeft(cues: seq<seq<Cmd>>, pans: int, k: nat)
    requires k <= |cues|
    requires forall i :: 0 <= i < |cues| ==> InPlace(cues[i])
    ensures Count(Left, Sweep(cues, pans, k)) == 0
  {
    if k > 0 {
      var before := Sweep(cues, pans, k - 1);
      var cue := cues[k - 1];
      SweepNeverLeft(cues, pans, k - 1);
      assert InPlace(cue);
      CountAppend(Left, before, cue);
      if k - 1 < pans {
        CountAppend(Left, before + cue, [Right, PtzStop]);
        CountPan(Left);
      } else {
        assert before + cue + [] == before + cue;
      }
    }
  }

  /** A sweep of cues in place pans right once after each visit before position
      `pans`. */
  lemma {:induction false} SweepRights(cues: seq<seq<Cmd>>, pans: int, k: nat)
    requires k <= |cues|
    requires forall i :: 0 <= i < |cues| ==> InPlace(cues[i])
    ensures Count(Right, Sweep(cues, pans, k)) == if pans <= 0 then 0 else if k <= pans then k else pans
  {
    if k > 0 {
      var before := Sweep(cues, pans, k - 1);
      var cue := cues[k - 1];
      SweepRights(cues, pans, k - 1);
      assert InPlace(cue);
      CountAppend(Right, before, cue);
      if k - 1 < pans {
        CountAppend(Right, before + cue, [Right, PtzStop]);
        CountPan(Right);
      } else {
        assert before + cue + [] == before + cue;
      }
    }
  }

  /** Camera home, then a pan to the leftmost musician. */
  const Opening: seq<Cmd> := [Home, Left, PtzStop]

  /** The slam of `simple_execute_one_measure` and `execute_chord_movements`: home,
      a nod up and down, and home again. */
  const Slam: seq<Cmd> := [Home, PtzStop, Up, Down, PtzStop, Home]

  /** The slam of Archive/execute_one_measure.py and robot_conductor.py, which
      stops after "down" is sent. */
  const CutSlam: seq<Cmd> := [Home, PtzStop, Up, Down]

  /** A cued measure: the opening, the sweep over the cues with a pan after each
      before position `pans`, and the closing. */
  function Measure(cues: seq<seq<Cmd>>, pans: int, closing: seq<Cmd>): seq<Cmd>
  {
    Opening + Sweep(cues, pans, |cues|) + closing
  }

  /** The opening pans left once, never right, and stops the pan. */
  lemma OpeningSpec()
    ensures Count(Left, Opening) == 1 && Count(Right, Opening) == 0 && Settled(Opening)
  {
    assert Opening[..2] == [Home, Left] && Opening[..1] == [Home];
  }

  /** A measure starts with the opening and ends with the closing; up to the
      closing, every motion is stopped at once. */
  lemma MeasureShape(cues: seq<seq<Cmd>>, pans: int, closing: seq<Cmd>)
    requires forall i :: 0 <= i < |cues| ==> InPlace(cues[i])
    ensures var trace := Measure(cues, pans, closing);
      && trace[..|Opening|] == Opening && trace[|trace| - |closing|..] == closing
      && Settled(trace[..|trace| - |closing|])
      && (closing != [] ==> trace[|trace| - 1] == closing[|closing| - 1])
  {
    var sweep := Sweep(cues, pans, |cues|);
    var trace := Measure(cues, pans, closing);
    SweepSettled(cues, pans, |cues|);
    OpeningSpec();
    SettledAppend(Opening, sweep);
    assert trace[..|trace| - |closing|] == Opening + sweep;
  }

  /** A measure whose closing neither pans left nor right pans left once, in the
      opening, and right as often as the sweep does. */
  lemma MeasurePans(cues: seq<seq<Cmd>>, pans: int, closing: seq<Cmd>)
    requires forall i :: 0 <= i < |cues| ==> InPlace(cues[i])
    requires Left !in closing && Right !in closing
    ensures Count(Left, Measure(cues, pans, closing)) == 1
    ensures Count(Right, Measure(cues, pans, closing)) == Count(Right, Sweep(cues, pans, |cues|))
  {
    var sweep := Sweep(cues, pans, |cues|);
    SweepNeverLeft(cues, pans, |cues|);
    OpeningSpec();
    CountAppend(Left, Opening, sweep);
    CountAppend(Left, Opening + sweep, closing);
    CountAppend(Right, Opening, sweep);
    CountAppend(Right, Opening + sweep, closing);
    CountZero(Left, closing);
    CountZero(Right, closing);
  }

  /** With a pan between each two cues, a measure pans left exactly once and right
      once fewer than there are cues, so every cue gets a position of its own; up to
      the closing, every motion is stopped at once. */
  lemma MeasureSpec(cues: seq<seq<Cmd>>, closing: seq<Cmd>)
    requires |cues| >= 1
    requires forall i :: 0 <= i < |cues| ==> InPlace(cues[i])
    requires Left !in closing && Right !in closing
    ensures var trace := Measure(cues, |cues| - 1, closing);
      && trace[..|Opening|] == Opening && trace[|trace| - |closing|..] == closing
      && Settled(trace[..|trace| - |closing|])
      && (closing != [] ==> trace[|trace| - 1] == closing[|closing| - 1])
      && Count(Left, trace) == 1 && Count(Right, trace) == |cues| - 1
  {
    MeasureShape(cues, |cues| - 1, closing);
    MeasurePans(cues, |cues| - 1, closing);
    SweepRights(cues, |cues| - 1, |cues|);
  }

  /** The cues of the quartet for a measure's entry. */
  function QuartetCues(levelled: bool, entry: map<string, string>): (cues: seq<seq<Cmd>>)
    ensures |cues| == |InstrumentOrder|
  {
    CueList(levelled, Lookups(entry, InstrumentOrder))
  }

  /** A quartet measure pans left once and right three times, every motion of the
      sweep is stopped at once, and the closing comes last. */
  lemma QuartetMeasureSpec(levelled: bool, entry: map<string, string>, closing: seq<Cmd>)
    requires Left !in closing && Right !in closing
    ensures var trace := Measure(QuartetCues(levelled, entry), |InstrumentOrder| - 1, closing);
      && trace[..|Opening|] == Opening && trace[|trace| - |closing|..] == closing
      && Settled(trace[..|trace| - |closing|])
      && Count(Left, trace) == 1 && Count(Right, trace) == |InstrumentOrder| - 1
  {
    CueListInPlace(levelled, Lookups(entry, InstrumentOrder));
    MeasureSpec(QuartetCues(levelled, entry), closing);
  }

  /** What `simple_execute_one_measure` sends for a measure: nothing when it is out
      of range of the instruction list, otherwise the quartet with levelled nods and
      the full slam. */
  function DemoMeasure(instructions: seq<InstructionList.Entry>, measure: int): seq<Cmd>
  {
    if measure < 1 || measure > |instructions| then []
    else Measure(QuartetCues(true, LabelMap(instructions[measure - 1])), |InstrumentOrder| - 1, Slam)
  }

  /** The entry read for measure `m` holds the movements into measure `m + 1`: the
      list starts with the transitions into measure 2. */
  lemma EntryReadIsNextMeasure(parts: seq<Part>, measure: int)
    requires 1 <= measure <= |InstructionList.Compile(parts)|
    ensures InstructionList.Compile(parts)[measure - 1] == EntryFor(Transitions(parts), measure + 1)
  {
    InstructionList.CompileSpec(parts);
  }

  /** Every measure of the list is cued: the demo pans left once and right three
      times, stops every pan and nod at once, and ends with the camera at home. */
  lemma DemoMeasureSpec(instructions: seq<InstructionList.Entry>, measure: int)
    ensures DemoMeasure(instructions, measure) == [] <==> measure < 1 || measure > |instructions|
    ensures 1 <= measure <= |instructions| ==> var trace := DemoMeasure(instructions, measure);
      && trace[..|Opening|] == Opening && Settled(trace[..|trace| - |Slam|])
      && Count(Left, trace) == 1 && Count(Right, trace) == |InstrumentOrder| - 1
      && trace[|trace| - 1] == Home
  {
    if 1 <= measure <= |instructions| {
      var trace := DemoMeasure(instructions, measure);
      QuartetMeasureSpec(true, LabelMap(instructions[measure - 1]), Slam);
      assert trace[|trace| - 1] == trace[|trace| - |Slam|..][|Slam| - 1];
    }
  }

  /** One visit of `simple_execute_one_measure` and of the Archive version: the
      levelled nod for what the entry holds, then the pan to the next musician. */
  method VisitLevelled(cam: Camera, entry: map<string, string>, i: nat)
    requires i < |InstrumentOrder|
    modifies cam
    ensures cam.sent == old(cam.sent) + QuartetCues(true, entry)[i]
      + (if i < |InstrumentOrder| - 1 then [Right, PtzStop] else [])
  {
    var instrument := InstrumentOrder[i];
    ghost var start := cam.sent;
    if instrument in entry {
      var movement := entry[instrument];
      if movement != [] {
        ExecuteMovementForInstrument(cam, movement);
      }
    }
    assert cam.sent == start + QuartetCues(true, entry)[i];
    InstrumentOrderIsLastOnlyAtEnd(i);
    if instrument != InstrumentOrder[|InstrumentOrder| - 1] {
      Nudge(cam, Right);
    }
  }

  /** Regrouping a trace. */
  lemma Regroup(a: seq<Cmd>, b: seq<Cmd>, c: seq<Cmd>, d: seq<Cmd>)
    ensures a + ((b + c) + d) == ((a + b) + c) + d
  {
  }

  lemma Regroup3(a: seq<Cmd>, b: seq<Cmd>, c: seq<Cmd>)
    ensures a + (b + c) == (a + b) + c
  {
  }

  /** Home, then the pan to the leftmost musician. */
  method SendOpening(cam: Camera)
    modifies cam
    ensures cam.sent == old(cam.sent) + Opening
  {
    cam.Send(Home);
    Nudge(cam, Left);
  }

  /** The full slam. */
  method SendSlam(cam: Camera)
    modifies cam
    ensures cam.sent == old(cam.sent) + Slam
  {
    cam.Send(Home);
    cam.Send(PtzStop);
    cam.Send(Up);
    cam.Send(Down);
    cam.Send(PtzStop);
    cam.Send(Home);
  }

  /** The slam that stops after "down". */
  method SendCutSlam(cam: Camera)
    modifies cam
    ensures cam.sent == old(cam.sent) + CutSlam
  {
    cam.Send(Home);
    cam.Send(PtzStop);
    cam.Send(Up);
    cam.Send(Down);
  }

  /** The sweep over the quartet with levelled nods. */
  method SweepLevelled(cam: Camera, entry: map<string, string>)
    modifies cam
    ensures cam.sent == old(cam.sent) + Sweep(QuartetCues(true, entry), |InstrumentOrder| - 1, |InstrumentOrder|)
  {
    ghost var start := cam.sent;
    ghost var cues := QuartetCues(true, entry);
    for i := 0 to |InstrumentOrder|
      invariant cam.sent == start + Sweep(cues, |InstrumentOrder| - 1, i)
    {
      VisitLevelled(cam, entry, i);
      Regroup(start, Sweep(cues, |InstrumentOrder| - 1, i), cues[i], if i < |InstrumentOrder| - 1 then [Right, PtzStop] else []);
    }
  }

  /** `simple_execute_one_measure`. */
  method SimpleExecuteOneMeasure(cam: Camera, parts: seq<Part>, measure: int)
    modifies cam
    ensures cam.sent == old(cam.sent) + DemoMeasure(InstructionList.Compile(parts), measure)
  {
    var instructionsByMeasure := InstructionList.RobotInstructions(parts);
    if measure < 1 || measure > |instructionsByMeasure| {
      return;
    }
    var measureInstructions := LabelMap(instructionsByMeasure[measure - 1]);
    ghost var start := cam.sent;
    SendOpening(cam);
    SweepLevelled(cam, measureInstructions);
    SendSlam(cam);
    Regroup(start, Opening, Sweep(QuartetCues(true, measureInstructions), |InstrumentOrder| - 1, |InstrumentOrder|), Slam);
  }

  /** What Archive/execute_one_measure.py sends for a measure of its instruction
      list: the quartet with levelled nods and the cut slam. */
  function ArchiveMeasure(instructions: seq<map<string, string>>, measure: int): seq<Cmd>
  {
    if measure < 1 || measure > |instructions| then []
    else Measure(QuartetCues(true, instructions[measure - 1]), |InstrumentOrder| - 1, CutSlam)
  }

  /** The Archive version visits every musician as the demo does, but its cut slam
      leaves the camera moving down at the end. */
  lemma ArchiveMeasureSpec(instructions: seq<map<string, string>>, measure: int)
    requires 1 <= measure <= |instructions|
    ensures var trace := ArchiveMeasure(instructions, measure);
      && trace[..|Opening|] == Opening && Settled(trace[..|trace| - |CutSlam|])
      && Count(Left, trace) == 1 && Count(Right, trace) == |InstrumentOrder| - 1
      && trace[|trace| - 1] == Down && !Settled(trace)
  {
    var trace := ArchiveMeasure(instructions, measure);
    QuartetMeasureSpec(true, instructions[measure - 1], CutSlam);
    assert trace[|trace| - 1] == trace[|trace| - |CutSlam|..][|CutSlam| - 1];
    assert IsMotion(trace[|trace| - 1]);
  }

  /** Archive/execute_one_measure.py, given the instruction list its missing
      `Archive.robot_instructions` would compute. */
  method ArchiveExecuteOneMeasure(cam: Camera, instructionsByMeasure: seq<map<string, string>>, measure: int)
    modifies cam
    ensures cam.sent == old(cam.sent) + ArchiveMeasure(instructionsByMeasure, measure)
  {
    if measure < 1 || measure > |instructionsByMeasure| {
      return;
    }
    var measureInstructions := instructionsByMeasure[measure - 1];
    ghost var start := cam.sent;
    SendOpening(cam);
    SweepLevelled(cam, measureInstructions);
    SendCutSlam(cam);
    Regroup(start, Opening, Sweep(QuartetCues(true, measureInstructions), |InstrumentOrder| - 1, |InstrumentOrder|), CutSlam);
  }

  /** What execute_one_measure.py does when its dictionary `instructions` is
      indexed as a list: a measure out of range of the dictionary's size returns
      quietly, and any other measure looks up the integer `measure - 1` among keys
      that are all strings "Measure n", which raises a `KeyError` before anything is
      sent. */
  function OneMeasureFault(instructions: InstructionDict.Table, measure: int): (fault: Option<Fault>)
    ensures fault.None? <==> measure < 1 || measure > |instructions|
  {
    if measure < 1 || measure > |instructions| then None else Some(KeyError)
  }

  /** execute_one_measure.py as written: it builds the dictionary, then fails on
      every measure it does not reject as out of range. Nothing is sent either way. */
  method ExecuteOneMeasureAsWritten(parts: seq<Part>, measure: int) returns (fault: Option<Fault>)
    ensures fault == OneMeasureFault(InstructionDict.ByMeasure(parts), measure)
  {
    var instructionsByMeasure := InstructionDict.RobotInstructions(parts);
    if measure < 1 || measure > |instructionsByMeasure| {
      return None;
    }
    return Some(KeyError);
  }

  /** Any score with a note in a non-drum part has a key for that note's measure,
      so as written measure 1 already fails: the script never cues a measure of a
      score that has anything to cue. */
  lemma AsWrittenFailsOnFirstMeasure(parts: seq<Part>, p: nat, n: ScoreNote)
    requires p < |parts| && !parts[p].isDrum && n in parts[p].notes
    ensures OneMeasureFault(InstructionDict.ByMeasure(parts), 1) == Some(KeyError)
  {
    var table := InstructionDict.ByMeasure(parts);
    InstructionDict.ByMeasureSpec(parts, MeasureOf(n.start));
    var key := InstructionDict.MeasureKey(MeasureOf(n.start));
    assert key in table.Keys;
    assert |table.Keys| >= 1 by {
      NonEmptyHasSize(table.Keys, key);
    }
  }

  lemma NonEmptyHasSize<T>(s: set<T>, x: T)
    requires x in s
    ensures |s| >= 1
  {
    assert s == (s - {x}) + {x};
  }

  /** The concrete case: one violin note at the start of the piece. */
  lemma AsWrittenFailsOnOneNote()
    ensures OneMeasureFault(InstructionDict.ByMeasure([Part(false, "Violin I", 40, [ScoreNote(0, 60)])]), 1) == Some(KeyError)
  {
    AsWrittenFailsOnFirstMeasure([Part(false, "Violin I", 40, [ScoreNote(0, 60)])], 0, ScoreNote(0, 60));
  }

  /** What execute_one_measure.py sends once it indexes the instruction list of
      robot_conductor.py: the quartet with nods that do not return to level and no
      slam. */
  function OneMeasure(instructions: seq<InstructionList.Entry>, measure: int): seq<Cmd>
  {
    if measure < 1 || measure > |instructions| then []
    else Measure(QuartetCues(false, LabelMap(instructions[measure - 1])), |InstrumentOrder| - 1, [])
  }

  /** With the list every measure of it is cued: each musician in turn, with
      every pan and nod stopped at once. */
  lemma OneMeasureSpec(instructions: seq<InstructionList.Entry>, measure: int)
    ensures OneMeasure(instructions, measure) == [] <==> measure < 1 || measure > |instructions|
    ensures 1 <= measure <= |instructions| ==> var trace := OneMeasure(instructions, measure);
      && trace[..|Opening|] == Opening && Settled(trace)
      && Count(Left, trace) == 1 && Count(Right, trace) == |InstrumentOrder| - 1
  {
    if 1 <= measure <= |instructions| {
      var trace := OneMeasure(instructions, measure);
      QuartetMeasureSpec(false, LabelMap(instructions[measure - 1]), []);
      assert trace[..|trace| - 0] == trace;
    }
  }

  /** One visit of execute_one_measure.py: the nod without return, then the pan. */
  method VisitUnlevelled(cam: Camera, entry: map<string, string>, i: nat)
    requires i < |InstrumentOrder|
    modifies cam
    ensures cam.sent == old(cam.sent) + QuartetCues(false, entry)[i]
      + (if i < |InstrumentOrder| - 1 then [Right, PtzStop] else [])
  {
    var instrument := InstrumentOrder[i];
    ghost var start := cam.sent;
    if instrument in entry {
      var movement := entry[instrument];
      if movement != [] {
        ExecuteMovementNoReturn(cam, movement);
      }
    }
    assert cam.sent == start + QuartetCues(false, entry)[i];
    InstrumentOrderIsLastOnlyAtEnd(i);
    if instrument != InstrumentOrder[|InstrumentOrder| - 1] {
      Nudge(cam, Right);
    }
  }

  /** execute_one_measure.py reading the instruction list. */
  method ExecuteOneMeasure(cam: Camera, parts: seq<Part>, measure: int)
    modifies cam
    ensures cam.sent == old(cam.sent) + OneMeasure(InstructionList.Compile(parts), measure)
  {
    var instructionsByMeasure := InstructionList.RobotInstructions(parts);
    if measure < 1 || measure > |instructionsByMeasure| {
      return;
    }
    var measureInstructions := LabelMap(instructionsByMeasure[measure - 1]);
    ghost var s0 := cam.sent;
    SendOpening(cam);
    ghost var start := cam.sent;
    ghost var cues := QuartetCues(false, measureInstructions);
    for i := 0 to |InstrumentOrder|
      invariant cam.sent == start + Sweep(cues, |InstrumentOrder| - 1, i)
    {
      VisitUnlevelled(cam, measureInstructions, i);
      Regroup(start, Sweep(cues, |InstrumentOrder| - 1, i), cues[i], if i < |InstrumentOrder| - 1 then [Right, PtzStop] else []);
    }
    ghost var sweep := Sweep(cues, |InstrumentOrder| - 1, |InstrumentOrder|);
    Regroup(s0, Opening, sweep, []);
    assert s0 + Opening + sweep + [] == s0 + Opening + sweep;
  }

  /** What `zip` pairs each note of a chord with: the movements, up to the shorter
      of the two. */
  function ChordMovements(chord: seq<string>, movements: seq<string>): (found: seq<Option<string>>)
    ensures |found| == if |chord| <= |movements| then |chord| else |movements|
    ensures forall i :: 0 <= i < |found| ==> found[i] == Some(movements[i])
  {
    var n := if |chord| <= |movements| then |chord| else |movements|;
    seq(n, i requires 0 <= i < n => Some(movements[i]))
  }

  /** What `execute_chord_movements` sends: a pan follows every note but the
      chord's last. */
  function ChordCue(chord: seq<string>, movements: seq<string>): seq<Cmd>
  {
    Measure(CueList(true, ChordMovements(chord, movements)), |chord| - 1, Slam)
  }

  /** For a chord with a movement per note, the camera pans right once between
      each two notes and never left after the opening, stops every pan and nod at
      once, and ends at home. */
  lemma ChordCueSpec(chord: seq<string>, movements: seq<string>)
    requires 1 <= |chord| <= |movements|
    ensures var trace := ChordCue(chord, movements);
      && trace[..|Opening|] == Opening && Settled(trace[..|trace| - |Slam|])
      && Count(Left, trace) == 1 && Count(Right, trace) == |chord| - 1
      && trace[|trace| - 1] == Home
  {
    var found := ChordMovements(chord, movements);
    var trace := ChordCue(chord, movements);
    CueListInPlace(true, found);
    MeasureSpec(CueList(true, found), Slam);
  }

  /** One note of `execute_chord_movements`: the levelled nod for its movement,
      then the pan to the next note. */
  method VisitNote(cam: Camera, chord: seq<string>, movements: seq<string>, i: nat)
    requires i < |chord| && i < |movements|
    modifies cam
    ensures cam.sent == old(cam.sent) + CueList(true, ChordMovements(chord, movements))[i]
      + (if i < |chord| - 1 then [Right, PtzStop] else [])
  {
    ExecuteMovementForInstrument(cam, movements[i]);
    assert movements[i] == [] ==> Levelled(movements[i]) == [];
    if i < |chord| - 1 {
      Nudge(cam, Right);
    }
  }

  /** `execute_chord_movements`. */
  method ExecuteChordMovements(cam: Camera, chord: seq<string>, movements: seq<string>)
    modifies cam
    ensures cam.sent == old(cam.sent) + ChordCue(chord, movements)
  {
    var found := ChordMovements(chord, movements);
    ghost var cues := CueList(true, found);
    ghost var s0 := cam.sent;
    SendOpening(cam);
    ghost var start := cam.sent;
    for i := 0 to |found|
      invariant cam.sent == start + Sweep(cues, |chord| - 1, i)
    {
      VisitNote(cam, chord, movements, i);
      Regroup(start, Sweep(cues, |chord| - 1, i), cues[i], if i < |chord| - 1 then [Right, PtzStop] else []);
    }
    SendSlam(cam);
    Regroup(s0, Opening, Sweep(cues, |chord| - 1, |found|), Slam);
  }

  /** The pan `time_for_turn_by_proportion_of_range` chooses for a musician's nose:
      right of the middle of the 1920-pixel frame pans right, otherwise left. */
  function PanCmd(noseX: real): (c: Cmd)
    ensures c == Right || c == Left
  {
    if noseX > 1920.0 / 2.0 then Right else Left
  }

  /** It agrees with the tracking camera's choice of direction. */
  lemma PanCmdIsPanDirection(noseX: real)
    ensures CommandText(PanCmd(noseX)) == Gestures.PanDirection(noseX)
  {
  }

  /** The visit of the musician at `i` in robot_conductor.py: when they have a
      position, a pan toward it, the nod for what the entry holds followed by home,
      and a pan toward the next musician when there is one with a position. */
  function Visit(movements: seq<Option<string>>, positions: map<string, real>, i: nat): seq<Cmd>
    requires |movements| == |InstrumentOrder| && i < |InstrumentOrder|
  {
    var instrument := InstrumentOrder[i];
    if instrument !in positions then []
    else
      [PanCmd(positions[instrument]), PtzStop]
      + (if movements[i].Some? && movements[i].value != [] then Unlevelled(movements[i].value) + [Home] else [])
      + (if i < |InstrumentOrder| - 1 && InstrumentOrder[i + 1] in positions
         then [PanCmd(positions[InstrumentOrder[i + 1]]), PtzStop] else [])
  }

  function VisitsUpTo(movements: seq<Option<string>>, positions: map<string, real>, k: nat): seq<Cmd>
    requires |movements| == |InstrumentOrder| && k <= |InstrumentOrder|
  {
    if k == 0 then []
    else VisitsUpTo(movements, positions, k - 1) + Visit(movements, positions, k - 1)
  }

  /** A visit leaves the camera settled. */
  lemma VisitSettled(movements: seq<Option<string>>, positions: map<string, real>, i: nat)
    requires |movements| == |InstrumentOrder| && i < |InstrumentOrder|
    ensures Settled(Visit(movements, positions, i))
  {
    var instrument := InstrumentOrder[i];
    if instrument in positions {
      var pan := [PanCmd(positions[instrument]), PtzStop];
      var cue: seq<Cmd> := if movements[i].Some? && movements[i].value != [] then Unlevelled(movements[i].value) + [Home] else [];
      var next: seq<Cmd> := if i < |InstrumentOrder| - 1 && InstrumentOrder[i + 1] in positions
        then [PanCmd(positions[InstrumentOrder[i + 1]]), PtzStop] else [];
      assert Settled(pan) && Settled(next);
      if movements[i].Some? && movements[i].value != [] {
        UnlevelledSpec(movements[i].value);
        assert Settled([Home]);
        SettledAppend(Unlevelled(movements[i].value), [Home]);
      }
      SettledAppend(pan, cue);
      SettledAppend(pan + cue, next);
    }
  }

  /** Musicians without a position are skipped, and every visit leaves the camera
      settled. */
  lemma {:induction false} VisitsUpToSettled(movements: seq<Option<string>>, positions: map<string, real>, k: nat)
    requires |movements| == |InstrumentOrder| && k <= |InstrumentOrder|
    ensures Settled(VisitsUpTo(movements, positions, k))
    ensures (forall i :: 0 <= i < k ==> InstrumentOrder[i] !in positions) ==> VisitsUpTo(movements, positions, k) == []
  {
    if k > 0 {
      VisitsUpToSettled(movements, positions, k - 1);
      VisitSettled(movements, positions, k - 1);
      SettledAppend(VisitsUpTo(movements, positions, k - 1), Visit(movements, positions, k - 1));
    }
  }

  /** The visits of all four musicians. */
  function Conducted(movements: seq<Option<string>>, positions: map<string, real>): seq<Cmd>
    requires |movements| == |InstrumentOrder|
  {
    VisitsUpTo(movements, positions, |movements|)
  }

  /** Home, the visits, and the cut slam. */
  function ConductorTrace(movements: seq<Option<string>>, positions: map<string, real>): seq<Cmd>
    requires |movements| == |InstrumentOrder|
  {
    [Home] + Conducted(movements, positions) + CutSlam
  }

  /** What `execute_one_measure` of robot_conductor.py sends for a measure. */
  function ConductorMeasure(instructions: seq<InstructionList.Entry>, measure: int, positions: map<string, real>): seq<Cmd>
  {
    if measure < 1 || measure > |instructions| then []
    else ConductorTrace(Lookups(LabelMap(instructions[measure - 1]), InstrumentOrder), positions)
  }

  /** The visits leave the camera settled, but the cut slam leaves it moving down;
      when no musician of the quartet has a position the camera only goes home and
      slams. */
  lemma ConductorTraceSpec(movements: seq<Option<string>>, positions: map<string, real>)
    requires |movements| == |InstrumentOrder|
    ensures var trace := ConductorTrace(movements, positions);
      && trace[0] == Home && Settled(trace[1..|trace| - |CutSlam|])
      && trace[|trace| - 1] == Down && !Settled(trace)
    ensures (forall name :: name in InstrumentOrder ==> name !in positions) ==>
      ConductorTrace(movements, positions) == [Home] + CutSlam
  {
    var visits := Conducted(movements, positions);
    var trace := ConductorTrace(movements, positions);
    VisitsUpToSettled(movements, positions, |movements|);
    assert trace[1..|trace| - |CutSlam|] == visits;
    assert trace[|trace| - 1] == CutSlam[3];
    assert IsMotion(trace[|trace| - 1]);
  }

  /** Every measure of the list is cued, the camera's pans and nods stopped at once
      until the slam, which leaves it moving down. */
  lemma ConductorMeasureSpec(instructions: seq<InstructionList.Entry>, measure: int, positions: map<string, real>)
    ensures ConductorMeasure(instructions, measure, positions) == [] <==> measure < 1 || measure > |instructions|
    ensures 1 <= measure <= |instructions| ==> var trace := ConductorMeasure(instructions, measure, positions);
      && trace[0] == Home && Settled(trace[1..|trace| - |CutSlam|])
      && trace[|trace| - 1] == Down && !Settled(trace)
  {
    if 1 <= measure <= |instructions| {
      ConductorTraceSpec(Lookups(LabelMap(instructions[measure - 1]), InstrumentOrder), positions);
    }
  }

  /** One visit of robot_conductor.py's `execute_one_measure`. */
  method ConductorVisit(cam: Camera, entry: map<string, string>, positions: map<string, real>, i: nat)
    requires i < |InstrumentOrder|
    modifies cam
    ensures cam.sent == old(cam.sent) + Visit(Lookups(entry, InstrumentOrder), positions, i)
  {
    var instrument := InstrumentOrder[i];
    ghost var movements := Lookups(entry, InstrumentOrder);
    if instrument in positions {
      ghost var s0 := cam.sent;
      var xPos := positions[instrument];
      var direction := PanCmd(xPos);
      Nudge(cam, direction);
      ghost var s1 := cam.sent;
      ghost var cue: seq<Cmd> := if movements[i].Some? && movements[i].value != [] then Unlevelled(movements[i].value) + [Home] else [];
      if instrument in entry {
        var movement := entry[instrument];
        if movement != [] {
          ExecuteMovement(cam, movement);
          Regroup3(s1, Unlevelled(movement), [Home]);
        }
      }
      assert cam.sent == s1 + cue;
      ghost var s2 := cam.sent;
      InstrumentOrderIsLastOnlyAtEnd(i);
      if instrument != InstrumentOrder[|InstrumentOrder| - 1] {
        var nextInstrument := InstrumentOrder[i + 1];
        if nextInstrument in positions {
          var nextXPos := positions[nextInstrument];
          var nextDirection := PanCmd(nextXPos);
          Nudge(cam, nextDirection);
        }
      }
      ghost var next: seq<Cmd> := if i < |InstrumentOrder| - 1 && InstrumentOrder[i + 1] in positions
        then [PanCmd(positions[InstrumentOrder[i + 1]]), PtzStop] else [];
      assert cam.sent == s2 + next;
      Regroup(s0, [PanCmd(positions[instrument]), PtzStop], cue, next);
    }
  }

  /** `execute_one_measure` of robot_conductor.py; `positions` maps a musician's
      name to the x coordinate of their nose. */
  method ConductorExecuteOneMeasure(cam: Camera, parts: seq<Part>, measure: int, positions: map<string, real>)
    modifies cam
    ensures cam.sent == old(cam.sent) + ConductorMeasure(InstructionList.Compile(parts), measure, positions)
  {
    var instructionsByMeasure := InstructionList.RobotInstructions(parts);
    if measure < 1 || measure > |instructionsByMeasure| {
      return;
    }
    var measureInstructions := LabelMap(instructionsByMeasure[measure - 1]);
    ghost var movements := Lookups(measureInstructions, InstrumentOrder);
    ghost var s0 := cam.sent;
    cam.Send(Home);
    ghost var start := cam.sent;
    for i := 0 to |InstrumentOrder|
      invariant cam.sent == start + VisitsUpTo(movements, positions, i)
    {
      ConductorVisit(cam, measureInstructions, positions, i);
      Regroup3(start, VisitsUpTo(movements, positions, i), Visit(movements, positions, i));
    }
    SendCutSlam(cam);
    Regroup(s0, [Home], Conducted(movements, positions), CutSlam);
    assert cam.sent == s0 + ConductorTrace(movements, positions);
  }
}
