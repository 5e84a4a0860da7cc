/** `robot_instructions` of robot_conductor.py (the same code appears in
    demo_movements.py): a list of per-measure dictionaries, padded with empty ones,
    where the transition into measure `m` is written at index `m - 2`. */
module InstructionList {
  import opened Wrappers
  import opened Score

  /** One measure's dictionary from part name to movement. */
  type Entry = map<string, Movement>

  /** Every transition of `ts` enters measure 2 or later, so it has a slot. */
  ghost predicate FromSecond(ts: seq<Transition>)
  {
    forall t :: t in ts ==> t.measure >= 2
  }

  /** Appends empty dictionaries until the list holds at least `n` entries. */
  function Pad(instrs: seq<Entry>, n: int): seq<Entry>
    decreases n - |instrs|
  {
    if |instrs| >= n then instrs else Pad(instrs + [map[]], n)
  }

  /** Padding reaches `n` entries, keeps the existing ones and adds only empty
      dictionaries. */
  lemma {:induction false} PadSpec(instrs: seq<Entry>, n: int)
    ensures |Pad(instrs, n)| == if |instrs| < n then n else |instrs|
    ensures Pad(instrs, n)[..|instrs|] == instrs
    ensures forall i :: |instrs| <= i < |Pad(instrs, n)| ==> Pad(instrs, n)[i] == map[]
    decreases n - |instrs|
  {
    if |instrs| < n {
      var next := instrs + [map[]];
      PadSpec(next, n);
      assert Pad(instrs, n)[..|instrs|] == Pad(instrs, n)[..|next|][..|instrs|];
    }
  }

  /** Pads to `m - 1` entries, then sets the part's movement at index `m - 2`. A
      transition into measure 1 has no slot and leaves the list as it is; the
      sorted loop never makes one (`Score.TransitionsFromSecond`). */
  function Record(instrs: seq<Entry>, t: Transition): seq<Entry>
  {
    if t.measure < 2 then instrs
    else
      PadSpec(instrs, t.measure - 1);
      var p := Pad(instrs, t.measure - 1);
      p[t.measure - 2 := p[t.measure - 2][t.name := t.movement]]
  }

  /** The list `instrs` after recording the transitions `ts` in order. */
  function Build(instrs: seq<Entry>, ts: seq<Transition>): seq<Entry>
  {
    if ts == [] then instrs else Record(Build(instrs, ts[..|ts| - 1]), ts[|ts| - 1])
  }

  /** The list after the first `p` parts of the score. */
  function CompileUpTo(parts: seq<Part>, p: nat): seq<Entry>
    requires p <= |parts|
    decreases p, 0
  {
    if p == 0 then [] else AfterPart(parts, p - 1)
  }

  /** The list after part `q` is recorded on top of the parts before it. */
  function AfterPart(parts: seq<Part>, q: nat): seq<Entry>
    requires q < |parts|
    decreases q, 1
  {
    Build(CompileUpTo(parts, q), TransitionsOf(parts[q]))
  }

  /** Compiling part by part records the score's transitions in order. */
  lemma {:induction false} CompileUpToIsBuild(parts: seq<Part>, p: nat)
    requires p <= |parts|
    ensures CompileUpTo(parts, p) == Build([], Transitions(parts[..p]))
  {
    if p > 0 {
      CompileUpToIsBuild(parts, p - 1);
      assert parts[..p][..p - 1] == parts[..p - 1];
      BuildAppend([], Transitions(parts[..p - 1]), TransitionsOf(parts[p - 1]));
    }
  }

  /** The result of `robot_instructions` for the score `parts`. */
  function Compile(parts: seq<Part>): seq<Entry>
  {
    CompileUpTo(parts, |parts|)
  }

  /** Recording `a` and then `b` is recording `a + b`. */
  lemma {:induction false} BuildAppend(instrs: seq<Entry>, a: seq<Transition>, b: seq<Transition>)
    ensures Build(Build(instrs, a), b) == Build(instrs, a + b)
  {
    if b == [] {
      assert a + b == a;
    } else {
      var init := b[..|b| - 1];
      BuildAppend(instrs, a, init);
      assert (a + b)[..|a + b| - 1] == a + init;
    }
  }

  /** The largest `m - 1` over the transitions into measures `m`, or 0. */
  function MaxSlot(ts: seq<Transition>): nat
  {
    if ts == [] then 0
    else
      var s := MaxSlot(ts[..|ts| - 1]);
      var m := ts[|ts| - 1].measure;
      if m > s + 1 then m - 1 else s
  }

  /** `MaxSlot` bounds every transition's slot and is reached by one of them. */
  lemma {:induction false} MaxSlotSpec(ts: seq<Transition>)
    ensures forall t :: t in ts ==> t.measure <= MaxSlot(ts) + 1
    ensures ts != [] && FromSecond(ts) ==> exists t :: t in ts && t.measure == MaxSlot(ts) + 1
  {
    if ts != [] {
      var init := ts[..|ts| - 1];
      MaxSlotSpec(init);
      assert ts == init + [ts[|ts| - 1]];
      if init != [] && ts[|ts| - 1].measure <= MaxSlot(init) + 1 && FromSecond(ts) {
        var t :| t in init && t.measure == MaxSlot(init) + 1;
        assert t in ts;
      }
    }
  }

  /** Recording one more transition keeps the list's length at `MaxSlot` and each
      entry equal to `EntryFor` its measure. */
  lemma RecordStep(b: seq<Entry>, init: seq<Transition>, t: Transition)
    requires t.measure >= 2
    requires |b| == MaxSlot(init) && forall i :: 0 <= i < |b| ==> b[i] == EntryFor(init, i + 2)
    requires forall u :: u in init ==> u.measure <= MaxSlot(init) + 1
    ensures |Record(b, t)| == MaxSlot(init + [t])
    ensures forall i :: 0 <= i < |Record(b, t)| ==> Record(b, t)[i] == EntryFor(init + [t], i + 2)
  {
    var ts := init + [t];
    assert ts[..|ts| - 1] == init;
    var p := Pad(b, t.measure - 1);
    PadSpec(b, t.measure - 1);
    forall i | 0 <= i < |p| && i != t.measure - 2
      ensures p[i] == EntryFor(ts, i + 2)
    {
      if i >= |b| {
        EntryForUnreached(init, i + 2);
      }
    }
    if t.measure - 2 >= |b| {
      EntryForUnreached(init, t.measure);
    }
  }

  /** The list has one entry per measure up to the last one entered, and the entry
      at index `i` holds exactly the movements into measure `i + 2`. */
  lemma {:induction false} BuildSpec(ts: seq<Transition>)
    requires FromSecond(ts)
    ensures |Build([], ts)| == MaxSlot(ts)
    ensures forall i :: 0 <= i < |Build([], ts)| ==> Build([], ts)[i] == EntryFor(ts, i + 2)
  {
    if ts != [] {
      var init := ts[..|ts| - 1];
      var t := ts[|ts| - 1];
      assert ts == init + [t];
      assert FromSecond(init) by {
        forall u | u in init
          ensures u.measure >= 2
        {
          assert u in ts;
        }
      }
      BuildSpec(init);
      MaxSlotSpec(init);
      RecordStep(Build([], init), init, t);
    }
  }

  /** The compiled list in terms of the score: as long as the last measure any
      part enters, minus one, and its entry `i` holds, for each part entering
      measure `i + 2`, the movement of the last such entry. */
  lemma CompileSpec(parts: seq<Part>)
    ensures |Compile(parts)| == MaxSlot(Transitions(parts))
    ensures forall i :: 0 <= i < |Compile(parts)| ==> Compile(parts)[i] == EntryFor(Transitions(parts), i + 2)
  {
    CompileUpToIsBuild(parts, |parts|);
    assert parts[..|parts|] == parts;
    TransitionsFromSecond(parts);
    BuildSpec(Transitions(parts));
  }

  /** The padding loop. */
  method PadTo(instrs: seq<Entry>, n: int) returns (r: seq<Entry>)
    ensures r == Pad(instrs, n)
  {
    r := instrs;
    while |r| < n
      invariant Pad(r, n) == Pad(instrs, n)
      decreases n - |r|
    {
      r := r + [map[]];
    }
  }

  /** Pads the list to `measure - 1` entries and writes the part's movement at
      index `measure - 2`. */
  method RecordMovement(instrs: seq<Entry>, measure: nat, name: string, movement: Movement)
    returns (r: seq<Entry>)
    requires measure >= 2
    ensures r == Record(instrs, Transition(measure, name, movement))
  {
    r := PadTo(instrs, measure - 1);
    PadSpec(instrs, measure - 1);
    r := r[measure - 2 := r[measure - 2][name := movement]];
  }

  /** The list after walking the first `n` notes of a part: each note records the
      transition it makes, if any. */
  function RecordUpTo(instrs: seq<Entry>, name: string, notes: seq<ScoreNote>, n: nat): seq<Entry>
    requires n <= |notes|
  {
    if n <= 1 then instrs
    else
      var r := RecordUpTo(instrs, name, notes, n - 1);
      var ts := TransitionAt(name, notes, n - 1);
      if ts == [] then r else Record(r, ts[0])
  }

  /** Walking the notes one by one records the part's transitions in order. */
  lemma {:induction false} RecordUpToIsBuild(instrs: seq<Entry>, name: string, notes: seq<ScoreNote>, n: nat)
    requires n <= |notes|
    ensures RecordUpTo(instrs, name, notes, n) == Build(instrs, TransitionsUpTo(name, notes, n))
  {
    if n > 1 {
      var before := TransitionsUpTo(name, notes, n - 1);
      var ts := TransitionAt(name, notes, n - 1);
      RecordUpToIsBuild(instrs, name, notes, n - 1);
      BuildAppend(instrs, before, ts);
      if ts != [] {
        assert ts == [ts[0]] && ts[..0] == [];
      }
    }
  }

  /** The loop over one part's notes in onset order, with `previous_pitch` and
      `previous_measure`. */
  method RecordPart(instrs: seq<Entry>, name: string, notes: seq<ScoreNote>) returns (r: seq<Entry>)
    requires FromSecond(TransitionsUpTo(name, notes, |notes|))
    ensures r == Build(instrs, TransitionsUpTo(name, notes, |notes|))
  {
    r := instrs;
    var previousPitch: Option<int> := None;
    var previousMeasure: Option<nat> := None;
    var i := 0;
    while i < |notes|
      invariant i <= |notes|
      invariant r == RecordUpTo(instrs, name, notes, i)
      invariant i == 0 ==> previousPitch.None? && previousMeasure.None?
      invariant i > 0 ==> previousPitch == Some(notes[i - 1].pitch)
      invariant i > 0 ==> previousMeasure == Some(MeasureOf(notes[i - 1].start))
    {
      var note := notes[i];
      var measureNumber := MeasureOf(note.start);
      if previousPitch.Some? && previousMeasure.Some? && measureNumber != previousMeasure.value {
        var movement := DetermineRobotMovement(note.pitch - previousPitch.value);
        ChangedMeasure(instrs, name, notes, i);
        r := RecordMovement(r, measureNumber, name, movement);
      } else {
        SameMeasure(instrs, name, notes, i);
      }
      previousPitch := Some(note.pitch);
      previousMeasure := Some(measureNumber);
      i := i + 1;
    }
    RecordUpToIsBuild(instrs, name, notes, |notes|);
  }

  /** A note that changes measure enters a measure from the second on, and the
      walk records its transition. */
  lemma ChangedMeasure(instrs: seq<Entry>, name: string, notes: seq<ScoreNote>, i: nat)
    requires FromSecond(TransitionsUpTo(name, notes, |notes|)) && 1 <= i < |notes|
    requires MeasureOf(notes[i].start) != MeasureOf(notes[i - 1].start)
    ensures MeasureOf(notes[i].start) >= 2
    ensures RecordUpTo(instrs, name, notes, i + 1) ==
      Record(RecordUpTo(instrs, name, notes, i),
        Transition(MeasureOf(notes[i].start), name, DetermineRobotMovement(notes[i].pitch - notes[i - 1].pitch)))
  {
    var t := TransitionAt(name, notes, i)[0];
    TransitionsUpToSpec(name, notes, |notes|, t);
  }

  /** The first note, or one in the same measure as the note before it, records
      nothing. */
  lemma SameMeasure(instrs: seq<Entry>, name: string, notes: seq<ScoreNote>, i: nat)
    requires i < |notes|
    requires i > 0 ==> MeasureOf(notes[i].start) == MeasureOf(notes[i - 1].start)
    ensures RecordUpTo(instrs, name, notes, i + 1) == RecordUpTo(instrs, name, notes, i)
  {
  }

  /** One pass of the loop over the parts, for part `p`: a drum part is skipped,
      any other has its notes walked in onset order under its name. */
  method RecordScorePart(instrs: seq<Entry>, parts: seq<Part>, p: nat) returns (r: seq<Entry>)
    requires p < |parts| && instrs == CompileUpTo(parts, p)
    ensures r == CompileUpTo(parts, p + 1)
  {
    var part := parts[p];
    if part.isDrum {
      return instrs;
    }
    PartFromSecond(parts, p);
    var sorted := ByStart(part.notes);
    r := RecordPart(instrs, PartName(part), sorted);
  }

  /** `robot_instructions`: the loop over the parts. */
  method RobotInstructions(parts: seq<Part>) returns (instructions: seq<Entry>)
    ensures instructions == Compile(parts)
  {
    instructions := [];
    var p := 0;
    while p < |parts|
      invariant p <= |parts|
      invariant instructions == CompileUpTo(parts, p)
    {
      instructions := RecordScorePart(instructions, parts, p);
      p := p + 1;
    }
  }

  /** Every transition of a part of the score enters measure 2 or later. */
  lemma PartFromSecond(parts: seq<Part>, p: nat)
    requires p < |parts|
    ensures FromSecond(TransitionsOf(parts[p]))
  {
    TransitionsFromSecond(parts);
    forall t | t in TransitionsOf(parts[p])
      ensures t.measure >= 2
    {
      TransitionsOfParts(parts, p, t);
    }
  }
}
