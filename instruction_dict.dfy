/** `robot_instructions` of robot_instructions.py: the same walk over the score as
    the list version, but the directives go into a dictionary keyed "Measure N",
    and every measure holding a note of a non-drum part gets a key, possibly with
    an empty dictionary. */
module InstructionDict {
  import opened Wrappers
  import opened Text
  import opened Score
  import InstructionList

  /** One measure's dictionary from part name to movement. */
  type Entry = map<string, Movement>

  /** The dictionary from measure keys to the measures' dictionaries. */
  type Table = map<string, Entry>

  /** The key of measure `m`: "Measure " followed by its decimal digits. */
  function MeasureKey(m: nat): string
  {
    "Measure " + NatToString(m)
  }

  /** Different measures have different keys. */
  lemma MeasureKeyInjective(a: nat, b: nat)
    ensures MeasureKey(a) == MeasureKey(b) <==> a == b
  {
    if MeasureKey(a) == MeasureKey(b) {
      assert MeasureKey(a)[8..] == NatToString(a);
      assert MeasureKey(b)[8..] == NatToString(b);
      NatToStringInjective(a, b);
    }
  }

  /** The dictionary with the key of measure `m` present, created empty if it was
      missing. */
  function Touch(table: Table, m: nat): (r: Table)
    ensures MeasureKey(m) in r
  {
    if MeasureKey(m) in table then table else table[MeasureKey(m) := map[]]
  }

  /** The dictionary with the movement of `t` written under its part's name in the
      entry of the measure it enters. */
  function Write(table: Table, t: Transition): Table
    requires MeasureKey(t.measure) in table
  {
    var key := MeasureKey(t.measure);
    table[key := table[key][t.name := t.movement]]
  }

  /** One note `notes[i]` of a part: the key of its measure is created if missing,
      and the transition the note makes, if any, is written under that key. */
  function NoteStep(table: Table, name: string, notes: seq<ScoreNote>, i: nat): Table
    requires i < |notes|
  {
    var created := Touch(table, MeasureOf(notes[i].start));
    if i == 0 then created
    else
      var ts := TransitionAt(name, notes, i);
      if ts == [] then created else Write(created, ts[0])
  }

  /** The transition the note `notes[i]` makes: none for the first note. */
  function NoteTransitions(name: string, notes: seq<ScoreNote>, i: nat): (ts: seq<Transition>)
    requires i < |notes|
    ensures forall t :: t in ts ==> t.measure == MeasureOf(notes[i].start) && t.name == name
    ensures TransitionsUpTo(name, notes, i + 1) == TransitionsUpTo(name, notes, i) + ts
  {
    if i == 0 then [] else TransitionAt(name, notes, i)
  }

  /** The dictionary after the first `n` notes of a part. */
  function TableUpTo(table: Table, name: string, notes: seq<ScoreNote>, n: nat): Table
    requires n <= |notes|
    decreases n, 0
  {
    if n == 0 then table else TableAfterNote(table, name, notes, n - 1)
  }

  /** The dictionary after the notes before `notes[i]` and then `notes[i]`. */
  function TableAfterNote(table: Table, name: string, notes: seq<ScoreNote>, i: nat): Table
    requires i < |notes|
    decreases i, 1
  {
    NoteStep(TableUpTo(table, name, notes, i), name, notes, i)
  }

  /** The dictionary after the first `p` parts of the score. */
  function TableUpToPart(parts: seq<Part>, p: nat): Table
    requires p <= |parts|
    decreases p, 0
  {
    if p == 0 then map[] else TableAfterPart(parts, p - 1)
  }

  /** The dictionary after part `q`: a drum part adds nothing, any other has its
      notes walked in onset order under its name. */
  function TableAfterPart(parts: seq<Part>, q: nat): Table
    requires q < |parts|
    decreases q, 1
  {
    var before := TableUpToPart(parts, q);
    if parts[q].isDrum then before
    else
      var notes := ByStart(parts[q].notes);
      TableUpTo(before, PartName(parts[q]), notes, |notes|)
  }

  /** The result of `robot_instructions` for the score `parts`. */
  function ByMeasure(parts: seq<Part>): Table
  {
    TableUpToPart(parts, |parts|)
  }

  /** Some note among the first `n` of `notes` falls in measure `m`. */
  predicate NoteIn(notes: seq<ScoreNote>, n: nat, m: nat)
    requires n <= |notes|
  {
    n > 0 && (NoteIn(notes, n - 1, m) || MeasureOf(notes[n - 1].start) == m)
  }

  lemma {:induction false} NoteInSpec(notes: seq<ScoreNote>, n: nat, m: nat)
    requires n <= |notes|
    ensures NoteIn(notes, n, m) <==> exists j :: 0 <= j < n && MeasureOf(notes[j].start) == m
  {
    if n > 0 {
      NoteInSpec(notes, n - 1, m);
    }
  }

  /** Some note of one of the first `q` parts, not a drum part, falls in measure
      `m`. */
  predicate ScoreNoteIn(parts: seq<Part>, q: nat, m: nat)
    requires q <= |parts|
  {
    q > 0 && (ScoreNoteIn(parts, q - 1, m) ||
      (!parts[q - 1].isDrum && NoteIn(parts[q - 1].notes, |parts[q - 1].notes|, m)))
  }

  lemma {:induction false} ScoreNoteInSpec(parts: seq<Part>, q: nat, m: nat)
    requires q <= |parts|
    ensures ScoreNoteIn(parts, q, m) <==>
      exists p, n :: 0 <= p < q && !parts[p].isDrum && n in parts[p].notes && MeasureOf(n.start) == m
  {
    if q > 0 {
      ScoreNoteInSpec(parts, q - 1, m);
      var last := parts[q - 1];
      NoteInSpec(last.notes, |last.notes|, m);
      if !last.isDrum && NoteIn(last.notes, |last.notes|, m) {
        var j :| 0 <= j < |last.notes| && MeasureOf(last.notes[j].start) == m;
        assert last.notes[j] in last.notes;
      }
      if exists p, n :: 0 <= p < q && !parts[p].isDrum && n in parts[p].notes && MeasureOf(n.start) == m {
        var p, n :| 0 <= p < q && !parts[p].isDrum && n in parts[p].notes && MeasureOf(n.start) == m;
        if p == q - 1 {
          var j :| 0 <= j < |last.notes| && last.notes[j] == n;
        }
      }
    }
  }

  /** Sorting a part's notes keeps the measures they fall in. */
  lemma ByStartNoteIn(notes: seq<ScoreNote>, m: nat)
    ensures NoteIn(ByStart(notes), |ByStart(notes)|, m) == NoteIn(notes, |notes|, m)
  {
    ByStartSorted(notes);
    var sorted := ByStart(notes);
    NoteInSpec(sorted, |sorted|, m);
    NoteInSpec(notes, |notes|, m);
    if NoteIn(sorted, |sorted|, m) {
      var j :| 0 <= j < |sorted| && MeasureOf(sorted[j].start) == m;
      assert sorted[j] in multiset(notes);
      var k :| 0 <= k < |notes| && notes[k] == sorted[j];
    }
    if NoteIn(notes, |notes|, m) {
      var j :| 0 <= j < |notes| && MeasureOf(notes[j].start) == m;
      assert notes[j] in multiset(sorted);
      var k :| 0 <= k < |sorted| && sorted[k] == notes[j];
    }
  }

  /** Measure `m` has a key in `table` exactly when `has`, and then the key holds
      the entry the transitions `ts` give it; a measure without a key is entered
      by none of `ts`. */
  ghost predicate TabulatesAt(table: Table, has: bool, ts: seq<Transition>, m: nat)
  {
    && (MeasureKey(m) in table <==> has)
    && (MeasureKey(m) in table ==> table[MeasureKey(m)] == EntryFor(ts, m))
    && (MeasureKey(m) !in table ==> EntryFor(ts, m) == map[])
  }

  /** Creating the key of measure `m0` gives `m` a key if it is `m0`. */
  lemma TouchTabulates(table: Table, has: bool, ts: seq<Transition>, m0: nat, m: nat)
    requires TabulatesAt(table, has, ts, m)
    ensures TabulatesAt(Touch(table, m0), has || m0 == m, ts, m)
  {
    MeasureKeyInjective(m, m0);
  }

  /** Writing a transition into a measure with a key records it. */
  lemma WriteTabulates(table: Table, has: bool, ts: seq<Transition>, t: Transition, m: nat)
    requires TabulatesAt(table, has, ts, m) && MeasureKey(t.measure) in table
    ensures TabulatesAt(Write(table, t), has, ts + [t], m)
  {
    MeasureKeyInjective(m, t.measure);
    EntryForSnoc(ts, t, m);
  }

  /** One note gives its measure a key and records the transition it makes, if
      any. */
  lemma NoteStepTabulates(table: Table, has: bool, ts: seq<Transition>, name: string, notes: seq<ScoreNote>, i: nat, m: nat)
    requires i < |notes| && TabulatesAt(table, has, ts, m)
    ensures TabulatesAt(NoteStep(table, name, notes, i), has || MeasureOf(notes[i].start) == m,
      ts + NoteTransitions(name, notes, i), m)
  {
    var m0 := MeasureOf(notes[i].start);
    var added := NoteTransitions(name, notes, i);
    TouchTabulates(table, has, ts, m0, m);
    if added == [] {
      assert ts + added == ts;
    } else {
      assert added == [added[0]];
      WriteTabulates(Touch(table, m0), has || m0 == m, ts, added[0], m);
    }
  }

  lemma AppendAssociates(a: seq<Transition>, b: seq<Transition>, c: seq<Transition>)
    ensures (a + b) + c == a + (b + c)
  {
  }

  /** The walk's invariant is kept by one more note, `notes[n - 1]`. */
  lemma TableUpToStep(table: Table, has: bool, ts: seq<Transition>, name: string, notes: seq<ScoreNote>, n: nat, m: nat)
    requires 0 < n <= |notes|
    requires TabulatesAt(TableUpTo(table, name, notes, n - 1), has || NoteIn(notes, n - 1, m),
      ts + TransitionsUpTo(name, notes, n - 1), m)
    ensures TabulatesAt(TableUpTo(table, name, notes, n), has || NoteIn(notes, n, m),
      ts + TransitionsUpTo(name, notes, n), m)
  {
    var i := n - 1;
    NoteStepTabulates(TableUpTo(table, name, notes, i), has || NoteIn(notes, i, m),
      ts + TransitionsUpTo(name, notes, i), name, notes, i, m);
    AppendAssociates(ts, TransitionsUpTo(name, notes, i), NoteTransitions(name, notes, i));
  }

  /** Walking the first `n` notes of a part gives their measures keys and records
      the transitions they make. */
  lemma {:induction false} TableUpToTabulates(table: Table, has: bool, ts: seq<Transition>, name: string, notes: seq<ScoreNote>, n: nat, m: nat)
    requires n <= |notes| && TabulatesAt(table, has, ts, m)
    ensures TabulatesAt(TableUpTo(table, name, notes, n), has || NoteIn(notes, n, m),
      ts + TransitionsUpTo(name, notes, n), m)
  {
    if n == 0 {
      assert ts + [] == ts;
    } else {
      TableUpToTabulates(table, has, ts, name, notes, n - 1, m);
      TableUpToStep(table, has, ts, name, notes, n, m);
    }
  }

  /** The score's transitions are the first parts' ones, then those of the next. */
  lemma TransitionsSnoc(parts: seq<Part>, q: nat)
    requires q < |parts|
    ensures Transitions(parts[..q + 1]) == Transitions(parts[..q]) + TransitionsOf(parts[q])
  {
    assert parts[..q + 1][..q] == parts[..q];
  }

  /** The dictionary after the first `p` parts gives keys to the measures of their
      notes and records their transitions. */
  lemma {:induction false} TableUpToPartTabulates(parts: seq<Part>, p: nat, m: nat)
    requires p <= |parts|
    ensures TabulatesAt(TableUpToPart(parts, p), ScoreNoteIn(parts, p, m), Transitions(parts[..p]), m)
  {
    if p == 0 {
      assert Transitions(parts[..0]) == [];
    } else {
      var q := p - 1;
      TableUpToPartTabulates(parts, q, m);
      TransitionsSnoc(parts, q);
      var before := Transitions(parts[..q]);
      if parts[q].isDrum {
        assert before + [] == before;
      } else {
        var notes := ByStart(parts[q].notes);
        TableUpToTabulates(TableUpToPart(parts, q), ScoreNoteIn(parts, q, m), before, PartName(parts[q]), notes, |notes|, m);
        ByStartNoteIn(parts[q].notes, m);
      }
    }
  }

  /** The dictionary of the whole score has a key for exactly the measures holding
      a note of a non-drum part, and under each the movement of the last
      transition of each part into that measure. */
  lemma ByMeasureSpec(parts: seq<Part>, m: nat)
    ensures MeasureKey(m) in ByMeasure(parts) <==>
      exists p, n :: 0 <= p < |parts| && !parts[p].isDrum && n in parts[p].notes && MeasureOf(n.start) == m
    ensures MeasureKey(m) in ByMeasure(parts) ==> ByMeasure(parts)[MeasureKey(m)] == EntryFor(Transitions(parts), m)
    ensures MeasureKey(m) !in ByMeasure(parts) ==> EntryFor(Transitions(parts), m) == map[]
  {
    TableUpToPartTabulates(parts, |parts|, m);
    ScoreNoteInSpec(parts, |parts|, m);
    assert parts[..|parts|] == parts;
  }

  /** Every transition of the score enters a measure with a key. */
  lemma TransitionsHaveKeys(parts: seq<Part>, t: Transition)
    requires t in Transitions(parts)
    ensures MeasureKey(t.measure) in ByMeasure(parts)
  {
    ByMeasureSpec(parts, t.measure);
    var j :| 0 <= j < |Transitions(parts)| && Transitions(parts)[j] == t;
    EntryForSpec(Transitions(parts), t.measure, t.name);
  }

  /** With onsets never negative, no part enters measure 1, so its entry, if the
      score has one, is empty. */
  lemma MeasureOneEmpty(parts: seq<Part>)
    ensures MeasureKey(1) in ByMeasure(parts) ==> ByMeasure(parts)[MeasureKey(1)] == map[]
  {
    ByMeasureSpec(parts, 1);
    TransitionsFromSecond(parts);
    EntryForUnreached(Transitions(parts), 1);
  }

  /** The list of robot_conductor.py and the dictionary agree: the list entry at
      index `m - 2` is the dictionary's entry for measure `m`, the measures past the
      end of the list have empty entries, and a non-empty list entry has a key. */
  lemma ListAndDictAgree(parts: seq<Part>, m: nat)
    requires m >= 2
    ensures var list := InstructionList.Compile(parts); var dict := ByMeasure(parts);
      && (m - 2 < |list| && MeasureKey(m) in dict ==> list[m - 2] == dict[MeasureKey(m)])
      && (m - 2 >= |list| && MeasureKey(m) in dict ==> dict[MeasureKey(m)] == map[])
      && (m - 2 < |list| && list[m - 2] != map[] ==> MeasureKey(m) in dict)
  {
    var ts := Transitions(parts);
    InstructionList.CompileSpec(parts);
    InstructionList.MaxSlotSpec(ts);
    ByMeasureSpec(parts, m);
    if m - 2 >= |InstructionList.Compile(parts)| {
      EntryForUnreached(ts, m);
    }
  }

  /** The loop over one part's notes in onset order, with `previous_pitch` and
      `previous_measure`. */
  method RecordPart(table: Table, name: string, notes: seq<ScoreNote>) returns (r: Table)
    ensures r == TableUpTo(table, name, notes, |notes|)
  {
    r := table;
    var previousPitch: Option<int> := None;
    var previousMeasure: Option<nat> := None;
    var i := 0;
    while i < |notes|
      invariant i <= |notes|
      invariant r == TableUpTo(table, name, notes, i)
      invariant i == 0 ==> previousPitch.None? && previousMeasure.None?
      invariant i > 0 ==> previousPitch == Some(notes[i - 1].pitch)
      invariant i > 0 ==> previousMeasure == Some(MeasureOf(notes[i - 1].start))
    {
      ghost var before := r;
      var note := notes[i];
      var measureNumber := MeasureOf(note.start);
      var measureKey := MeasureKey(measureNumber);
      if measureKey !in r {
        r := r[measureKey := map[]];
      }
      assert r == Touch(before, measureNumber);
      if previousPitch.Some? && previousMeasure.Some? && measureNumber != previousMeasure.value {
        var movement := DetermineRobotMovement(note.pitch - previousPitch.value);
        r := r[measureKey := r[measureKey][name := movement]];
        NoteStepChanged(table, name, notes, i);
      } else {
        NoteStepSame(table, name, notes, i);
      }
      previousPitch := Some(note.pitch);
      previousMeasure := Some(measureNumber);
      i := i + 1;
    }
  }

  /** A note entering a new measure writes its movement under the measure's key. */
  lemma NoteStepChanged(table: Table, name: string, notes: seq<ScoreNote>, i: nat)
    requires 1 <= i < |notes| && MeasureOf(notes[i].start) != MeasureOf(notes[i - 1].start)
    ensures TableUpTo(table, name, notes, i + 1) ==
      Write(Touch(TableUpTo(table, name, notes, i), MeasureOf(notes[i].start)),
        Transition(MeasureOf(notes[i].start), name, DetermineRobotMovement(notes[i].pitch - notes[i - 1].pitch)))
  {
  }

  /** The first note, or one in the measure of the note before it, only creates
      its measure's key. */
  lemma NoteStepSame(table: Table, name: string, notes: seq<ScoreNote>, i: nat)
    requires i < |notes| && (i == 0 || MeasureOf(notes[i].start) == MeasureOf(notes[i - 1].start))
    ensures TableUpTo(table, name, notes, i + 1) == Touch(TableUpTo(table, name, notes, i), MeasureOf(notes[i].start))
  {
  }

  /** One pass of the loop over the parts, for part `p`: a drum part is skipped,
      any other has its notes walked in onset order under its name. */
  method RecordScorePart(table: Table, parts: seq<Part>, p: nat) returns (r: Table)
    requires p < |parts| && table == TableUpToPart(parts, p)
    ensures r == TableUpToPart(parts, p + 1)
  {
    var part := parts[p];
    if part.isDrum {
      return table;
    }
    var sorted := ByStart(part.notes);
    r := RecordPart(table, PartName(part), sorted);
  }

  /** `robot_instructions`: the loop over the parts, building the dictionary. */
  method RobotInstructions(parts: seq<Part>) returns (instructions: Table)
    ensures instructions == ByMeasure(parts)
  {
    instructions := map[];
    var p := 0;
    while p < |parts|
      invariant p <= |parts|
      invariant instructions == TableUpToPart(parts, p)
    {
      instructions := RecordScorePart(instructions, parts, p);
      p := p + 1;
    }
  }
}
