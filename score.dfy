/** The score as the directive compilers see it (robot_conductor.py,
    demo_movements.py, robot_instructions.py): parts with their notes, the measure
    of an onset in 4/4 at 120 bpm, the part name, the label of a pitch step, and the
    transitions a part makes from one measure into the next. */
module Score {
  import opened Wrappers
  import opened Text
  import StableSort

  /** A note's onset, in milliseconds, and its MIDI pitch. */
  datatype ScoreNote = ScoreNote(start: nat, pitch: int)

  /** An instrument track: drum flag, name (possibly empty), program and notes. */
  datatype Part = Part(isDrum: bool, name: string, program: nat, notes: seq<ScoreNote>)

  /** The 1-based measure of an onset: at 120 beats per minute in 4/4 a measure
      lasts two seconds. */
  function MeasureOf(start: nat): (m: nat)
    ensures m >= 1
  {
    if start < 2000 then 1 else MeasureOf(start - 2000) + 1
  }

  lemma {:induction false} MeasureOfDiv(start: nat)
    ensures MeasureOf(start) == start / 2000 + 1
  {
    if start >= 2000 {
      MeasureOfDiv(start - 2000);
    }
  }

  /** The measure of an onset is the two-second window that holds it, so later
      onsets never fall in earlier measures. */
  lemma MeasureOfSpec(start: nat, later: nat)
    ensures 2000 * (MeasureOf(start) - 1) <= start < 2000 * MeasureOf(start)
    ensures start <= later ==> MeasureOf(start) <= MeasureOf(later)
  {
    MeasureOfDiv(start);
    MeasureOfDiv(later);
  }

  function StartKey(n: ScoreNote): real { n.start as real }

  /** A part's notes ordered by onset, as an insertion sort; `ByStartIsStableSort`
      shows it is the stable sort keyed on the onset. */
  function ByStart(notes: seq<ScoreNote>): seq<ScoreNote>
    decreases |notes|, 1
  {
    if notes == [] then [] else ByStartNonEmpty(notes)
  }

  /** Sorting a non-empty list inserts its first note into its sorted rest. */
  function ByStartNonEmpty(notes: seq<ScoreNote>): seq<ScoreNote>
    requires notes != []
    decreases |notes|, 0
  {
    InsertByStart(notes[0], ByStart(notes[1..]))
  }

  function InsertByStart(x: ScoreNote, s: seq<ScoreNote>): seq<ScoreNote>
  {
    if s == [] || x.start <= s[0].start then [x] + s
    else [s[0]] + InsertByStart(x, s[1..])
  }

  lemma {:induction false} InsertByStartIsInsert(x: ScoreNote, s: seq<ScoreNote>)
    ensures InsertByStart(x, s) == StableSort.Insert(x, s, StartKey)
  {
    if s != [] && x.start > s[0].start {
      InsertByStartIsInsert(x, s[1..]);
    }
  }

  /** Sorting by onset is Python's stable sort with the onset as key. */
  lemma {:induction false} ByStartIsStableSort(notes: seq<ScoreNote>)
    ensures ByStart(notes) == StableSort.Sort(notes, StartKey)
  {
    if notes != [] {
      ByStartIsStableSort(notes[1..]);
      InsertByStartIsInsert(notes[0], ByStart(notes[1..]));
    }
  }

  ghost predicate NotesSorted(notes: seq<ScoreNote>)
  {
    forall i, j :: 0 <= i < j < |notes| ==> notes[i].start <= notes[j].start
  }

  /** The sorted notes are the part's notes, in ascending onset order. */
  lemma ByStartSorted(notes: seq<ScoreNote>)
    ensures NotesSorted(ByStart(notes))
    ensures multiset(ByStart(notes)) == multiset(notes)
    ensures |ByStart(notes)| == |notes|
  {
    StableSort.SortIsSortedPermutation(notes, StartKey);
    ByStartIsStableSort(notes);
    var s := ByStart(notes);
    forall i, j | 0 <= i < j < |s|
      ensures s[i].start <= s[j].start
    {
      assert StartKey(s[i]) <= StartKey(s[j]);
    }
  }

  /** The part's name, or "Program" and its program number when the name is empty. */
  function PartName(p: Part): (name: string)
    ensures name != []
    ensures p.name != [] ==> name == p.name
  {
    if p.name == [] then "Program " + NatToString(p.program) else p.name
  }

  /** The six labels `determine_robot_movement` hands out; `Label` gives the text
      the instruction dictionaries carry. */
  datatype Movement = Stay | UpHalf | UpWhole | DownHalf | DownWhole | Irregular

  function Label(m: Movement): (text: string)
    ensures text != []
  {
    match m
    case Stay => "stay"
    case UpHalf => "up half"
    case UpWhole => "up whole"
    case DownHalf => "down half"
    case DownWhole => "down whole"
    case Irregular => "irregular"
  }

  /** Different movements carry different texts, so the text identifies the label. */
  lemma LabelInjective(a: Movement, b: Movement)
    ensures Label(a) == Label(b) ==> a == b
  {
  }

  /** The movement for a pitch step of `diff` semitones between consecutive notes. */
  function DetermineRobotMovement(diff: int): Movement
  {
    if diff == 0 then Stay
    else if diff == 1 then UpHalf
    else if diff == 2 then UpWhole
    else if diff == -1 then DownHalf
    else if diff == -2 then DownWhole
    else Irregular
  }

  /** The pitch step a movement label stands for. */
  function LabelDelta(m: Movement): Option<int>
  {
    match m
    case Stay => Some(0)
    case UpHalf => Some(1)
    case UpWhole => Some(2)
    case DownHalf => Some(-1)
    case DownWhole => Some(-2)
    case Irregular => None
  }

  /** Steps of at most two semitones each get their own label, which names the step
      exactly; every larger step is "irregular". */
  lemma MovementLabels(diff: int)
    ensures DetermineRobotMovement(diff) == Irregular <==> diff < -2 || diff > 2
    ensures -2 <= diff <= 2 ==> LabelDelta(DetermineRobotMovement(diff)) == Some(diff)
    ensures diff < -2 || diff > 2 ==> LabelDelta(DetermineRobotMovement(diff)) == None
  {
  }

  /** Each of the five step labels is produced by exactly its own step. */
  lemma LabelsAreProduced(m: Movement)
    ensures LabelDelta(m).Some? ==> DetermineRobotMovement(LabelDelta(m).value) == m
    ensures LabelDelta(m).None? <==> m == Irregular
  {
  }

  /** A part entering measure `measure` with the movement `movement`. */
  datatype Transition = Transition(measure: nat, name: string, movement: Movement)

  /** The transition the note `notes[i]` makes, if any: one exactly when its measure
      differs from that of the note just before it, labelled by the pitch step from
      that note. */
  function TransitionAt(name: string, notes: seq<ScoreNote>, i: nat): seq<Transition>
    requires 1 <= i < |notes|
  {
    var m := MeasureOf(notes[i].start);
    if m != MeasureOf(notes[i - 1].start)
    then [Transition(m, name, DetermineRobotMovement(notes[i].pitch - notes[i - 1].pitch))]
    else []
  }

  /** The transitions made by the first `n` of a part's notes, in note order. The
      first note has no note before it and never makes one. */
  function TransitionsUpTo(name: string, notes: seq<ScoreNote>, n: nat): seq<Transition>
    requires n <= |notes|
  {
    if n <= 1 then [] else TransitionsUpTo(name, notes, n - 1) + TransitionAt(name, notes, n - 1)
  }

  /** The transitions of one part: none for a drum part, otherwise those of its
      notes in ascending onset order under its name. */
  function TransitionsOf(p: Part): seq<Transition>
  {
    if p.isDrum then []
    else
      var notes := ByStart(p.notes);
      TransitionsUpTo(PartName(p), notes, |notes|)
  }

  /** The transitions of all parts, in part order. */
  function Transitions(parts: seq<Part>): seq<Transition>
  {
    if parts == [] then []
    else Transitions(parts[..|parts| - 1]) + TransitionsOf(parts[|parts| - 1])
  }

  /** A transition of a part is the step into note `i` (never the first note) from
      note `i - 1` when the two fall in different measures, and every such step
      is one. */
  lemma {:induction false} TransitionsUpToSpec(name: string, notes: seq<ScoreNote>, n: nat, t: Transition)
    requires n <= |notes|
    ensures t in TransitionsUpTo(name, notes, n) <==> exists i :: 1 <= i < n && t in TransitionAt(name, notes, i)
  {
    if n > 1 {
      TransitionsUpToSpec(name, notes, n - 1, t);
    }
  }

  /** In ascending onset order a part only ever moves forward, so each transition
      enters a measure after the one the part starts in; in particular, never
      measure 1. */
  lemma {:induction false} TransitionsMoveForward(name: string, notes: seq<ScoreNote>, n: nat)
    requires NotesSorted(notes) && 0 < n <= |notes|
    ensures forall t :: t in TransitionsUpTo(name, notes, n) ==> t.measure > MeasureOf(notes[0].start)
  {
    if n > 1 {
      TransitionsMoveForward(name, notes, n - 1);
      var i := n - 1;
      MeasureOfSpec(notes[0].start, notes[i - 1].start);
      MeasureOfSpec(notes[i - 1].start, notes[i].start);
    }
  }

  /** Every transition of the score is one of some part's transitions. */
  lemma {:induction false} TransitionsFromParts(parts: seq<Part>, t: Transition)
    requires t in Transitions(parts)
    ensures exists p :: 0 <= p < |parts| && t in TransitionsOf(parts[p])
  {
    var init := parts[..|parts| - 1];
    if t in Transitions(init) {
      TransitionsFromParts(init, t);
      var p :| 0 <= p < |init| && t in TransitionsOf(init[p]);
      assert init[p] == parts[p];
    }
  }

  /** Every transition of every part is a transition of the score. */
  lemma {:induction false} TransitionsOfParts(parts: seq<Part>, p: nat, t: Transition)
    requires p < |parts| && t in TransitionsOf(parts[p])
    ensures t in Transitions(parts)
  {
    var init := parts[..|parts| - 1];
    if p < |parts| - 1 {
      assert init[p] == parts[p];
      TransitionsOfParts(init, p, t);
    }
  }

  /** The transitions of the score are exactly those of its parts; drum parts,
      by `TransitionsOf`, make none. */
  lemma TransitionsSpec(parts: seq<Part>, t: Transition)
    ensures t in Transitions(parts) <==> exists p :: 0 <= p < |parts| && t in TransitionsOf(parts[p])
  {
    if t in Transitions(parts) {
      TransitionsFromParts(parts, t);
    }
    if p :| 0 <= p < |parts| && t in TransitionsOf(parts[p]) {
      TransitionsOfParts(parts, p, t);
    }
  }

  /** No transition of the score enters measure 1. */
  lemma {:induction false} TransitionsFromSecond(parts: seq<Part>)
    ensures forall t :: t in Transitions(parts) ==> t.measure >= 2
  {
    if parts != [] {
      TransitionsFromSecond(parts[..|parts| - 1]);
      var last := parts[|parts| - 1];
      if !last.isDrum && |last.notes| > 0 {
        ByStartSorted(last.notes);
        TransitionsMoveForward(PartName(last), ByStart(last.notes), |last.notes|);
      }
    }
  }

  /** The movements a measure's entry holds after the transitions `ts` are applied
      in order: a later transition of the same name into the same measure replaces
      an earlier one. */
  function EntryFor(ts: seq<Transition>, m: nat): map<string, Movement>
  {
    if ts == [] then map[]
    else
      var e := EntryFor(ts[..|ts| - 1], m);
      var t := ts[|ts| - 1];
      if t.measure == m then e[t.name := t.movement] else e
  }

  /** One more transition changes only the entry of the measure it enters. */
  lemma EntryForSnoc(ts: seq<Transition>, t: Transition, m: nat)
    ensures EntryFor(ts + [t], m) ==
      if t.measure == m then EntryFor(ts, m)[t.name := t.movement] else EntryFor(ts, m)
  {
    assert (ts + [t])[..|ts|] == ts;
  }

  /** The entry of measure `m` names exactly the parts with a transition into `m`,
      and gives each the movement of its last such transition. */
  lemma EntryForSpec(ts: seq<Transition>, m: nat, name: string)
    ensures name in EntryFor(ts, m) <==>
      exists j :: 0 <= j < |ts| && ts[j].measure == m && ts[j].name == name
    ensures name in EntryFor(ts, m) ==>
      exists j :: 0 <= j < |ts| && ts[j].measure == m && ts[j].name == name
        && EntryFor(ts, m)[name] == ts[j].movement
        && forall l :: j < l < |ts| ==> !(ts[l].measure == m && ts[l].name == name)
  {
    EntryForLast(ts, m, name);
    if j :| 0 <= j < |ts| && ts[j].measure == m && ts[j].name == name {
      EntryForHas(ts, m, name, j);
    }
  }

  /** A named part's movement is that of its last transition into the measure. */
  lemma {:induction false} EntryForLast(ts: seq<Transition>, m: nat, name: string)
    ensures name in EntryFor(ts, m) ==>
      exists j :: 0 <= j < |ts| && ts[j].measure == m && ts[j].name == name
        && EntryFor(ts, m)[name] == ts[j].movement
        && forall l :: j < l < |ts| ==> !(ts[l].measure == m && ts[l].name == name)
  {
    if ts != [] && name in EntryFor(ts, m) {
      var init := ts[..|ts| - 1];
      var last := |ts| - 1;
      if !(ts[last].measure == m && ts[last].name == name) {
        EntryForLast(init, m, name);
        var j :| 0 <= j < |init| && init[j].measure == m && init[j].name == name
          && EntryFor(init, m)[name] == init[j].movement
          && forall l :: j < l < |init| ==> !(init[l].measure == m && init[l].name == name);
        assert ts[j] == init[j];
        forall l | j < l < |ts|
          ensures !(ts[l].measure == m && ts[l].name == name)
        {
          if l < last {
            assert ts[l] == init[l];
          }
        }
      }
    }
  }

  /** Each transition into the measure puts its part in the entry. */
  lemma {:induction false} EntryForHas(ts: seq<Transition>, m: nat, name: string, j: nat)
    requires j < |ts| && ts[j].measure == m && ts[j].name == name
    ensures name in EntryFor(ts, m)
  {
    var init := ts[..|ts| - 1];
    if j < |ts| - 1 {
      assert init[j] == ts[j];
      EntryForHas(init, m, name, j);
    }
  }

  /** A measure no transition enters has an empty entry. */
  lemma EntryForUnreached(ts: seq<Transition>, m: nat)
    requires forall t :: t in ts ==> t.measure != m
    ensures EntryFor(ts, m) == map[]
  {
    if EntryFor(ts, m) != map[] {
      var name :| name in EntryFor(ts, m);
      EntryForSpec(ts, m, name);
    }
  }
}
