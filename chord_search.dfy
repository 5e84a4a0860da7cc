/** `find_closest_constrained_chord` (multimodal_equilibrium.py): every movement
    vector in `[-k, k]^n`, in `itertools.product` order, is tried against the base
    pitches; the first vector of strictly smallest total movement whose pitch classes
    are exactly C major `{0, 4, 7}` (or C minor `{0, 3, 7}`) wins. */
module ChordSearch {
  import opened Wrappers
  import Notes
  import Chords

  /** Python's `range(lo, hi)`. */
  function Interval(lo: int, hi: int): (r: seq<int>)
    ensures |r| == if lo < hi then hi - lo else 0
    ensures forall i :: 0 <= i < |r| ==> r[i] == lo + i
    decreases hi - lo
  {
    if lo >= hi then [] else [lo] + Interval(lo + 1, hi)
  }

  /** `range(-max_movement, max_movement + 1)`. */
  function Range(k: int): seq<int>
  {
    Interval(-k, k + 1)
  }

  /** `[(d,) + v for v in vs]`. */
  function Prepend(d: int, vs: seq<seq<int>>): (r: seq<seq<int>>)
    ensures |r| == |vs|
    ensures forall i :: 0 <= i < |vs| ==> r[i] == [d] + vs[i]
  {
    if vs == [] then [] else [[d] + vs[0]] + Prepend(d, vs[1..])
  }

  /** Every `d` of `ds` in turn, each followed by all of `vs`. */
  function Spread(ds: seq<int>, vs: seq<seq<int>>): (r: seq<seq<int>>)
    ensures |r| == |ds| * |vs|
  {
    if ds == [] then [] else Prepend(ds[0], vs) + Spread(ds[1..], vs)
  }

  /** `itertools.product(ds, repeat=n)`: the first position varies slowest. */
  function Product(ds: seq<int>, n: nat): seq<seq<int>>
  {
    if n == 0 then [[]] else Spread(ds, Product(ds, n - 1))
  }

  /** `list(product(range(-k, k + 1), repeat=n))`. */
  function Movements(k: int, n: nat): seq<seq<int>>
  {
    Product(Range(k), n)
  }

  /** A vector of `n` moves, each between `-k` and `k`. */
  ghost predicate InBox(v: seq<int>, k: int, n: nat)
  {
    |v| == n && forall i :: 0 <= i < |v| ==> -k <= v[i] <= k
  }

  /** `base_pitches + np.array(movement)`. */
  function Add(base: seq<int>, m: seq<int>): (r: seq<int>)
    requires |m| == |base|
    ensures |r| == |base|
    ensures forall i :: 0 <= i < |base| ==> r[i] == base[i] + m[i]
  {
    if base == [] then [] else [base[0] + m[0]] + Add(base[1..], m[1..])
  }

  function Abs(x: int): nat { if x < 0 then -x else x }

  /** `sum(abs(m) for m in movement)`. */
  function Cost(m: seq<int>): nat
  {
    if m == [] then 0 else Abs(m[0]) + Cost(m[1..])
  }

  /** `set(new_pitches % 12)`, built one pitch at a time. */
  function ClassesOf(ps: seq<int>): set<int>
  {
    if ps == [] then {} else {ps[0] % 12} + ClassesOf(ps[1..])
  }

  /** The pitch classes of C major and C minor the search accepts. */
  const MajorTarget: set<int> := {0, 4, 7}
  const MinorTarget: set<int> := {0, 3, 7}

  /** The quality test of the loop body: "Major" asks for the classes of C major,
      "Minor" for those of C minor, and any other quality accepts nothing. */
  predicate Qualifies(base: seq<int>, m: seq<int>, quality: string)
    requires |m| == |base|
  {
    if quality == "Major" then ClassesOf(Add(base, m)) == MajorTarget
    else if quality == "Minor" then ClassesOf(Add(base, m)) == MinorTarget
    else false
  }

  /** `min_cost`: a number, or `float('inf')` before anything qualifies. */
  datatype Bound = Finite(n: nat) | Infinite

  predicate Below(c: nat, b: Bound) { b.Infinite? || c < b.n }

  /** The pair `(best_match, min_cost)` the loop carries. */
  datatype Best = Best(best: Option<seq<int>>, minCost: Bound)

  /** What the loop body finds out about one movement: whether it qualifies, its
      cost and the moved pitches. */
  datatype Trial = Trial(qualifies: bool, cost: nat, pitches: seq<int>)

  function Try(base: seq<int>, quality: string, m: seq<int>): Trial
    requires |m| == |base|
  {
    Trial(Qualifies(base, m, quality), Cost(m), Add(base, m))
  }

  ghost predicate SameLengths(base: seq<int>, ms: seq<seq<int>>)
  {
    forall j :: 0 <= j < |ms| ==> |ms[j]| == |base|
  }

  /** The trials of all movements, in order. */
  function Trials(base: seq<int>, quality: string, ms: seq<seq<int>>): (ts: seq<Trial>)
    requires SameLengths(base, ms)
    ensures |ts| == |ms|
    ensures forall j :: 0 <= j < |ms| ==> ts[j] == Try(base, quality, ms[j])
  {
    if ms == [] then [] else [Try(base, quality, ms[0])] + Trials(base, quality, ms[1..])
  }

  /** One iteration of the loop: a qualifying trial replaces the kept one only when
      it is strictly cheaper. */
  function Step(st: Best, t: Trial): Best
  {
    if t.qualifies && Below(t.cost, st.minCost) then Best(Some(t.pitches), Finite(t.cost)) else st
  }

  /** The loop state after the first `i` trials. */
  function SearchUpTo(ts: seq<Trial>, i: nat): Best
    requires i <= |ts|
  {
    if i == 0 then Best(None, Infinite) else Step(SearchUpTo(ts, i - 1), ts[i - 1])
  }

  /** `ts[j]` is the trial the loop keeps after `i` steps: it qualifies, nothing
      among the first `i` that qualifies costs less, and everything before it that
      qualifies costs strictly more. */
  ghost predicate Winner(ts: seq<Trial>, i: nat, j: nat)
    requires i <= |ts|
  {
    && j < i
    && ts[j].qualifies
    && (forall l :: 0 <= l < i && ts[l].qualifies ==> ts[j].cost <= ts[l].cost)
    && (forall l :: 0 <= l < j && ts[l].qualifies ==> ts[j].cost < ts[l].cost)
  }

  /** The loop state, completely: nothing is kept exactly when nothing qualified,
      and otherwise what is kept is the winner's pitches and cost. */
  lemma {:induction false} SearchUpToSpec(ts: seq<Trial>, i: nat)
    requires i <= |ts|
    ensures SearchUpTo(ts, i).best.None? <==> forall l :: 0 <= l < i ==> !ts[l].qualifies
    ensures SearchUpTo(ts, i).best.None? <==> SearchUpTo(ts, i).minCost.Infinite?
    ensures SearchUpTo(ts, i).best.Some? ==>
      exists j: nat :: Winner(ts, i, j) && SearchUpTo(ts, i) == Best(Some(ts[j].pitches), Finite(ts[j].cost))
  {
    if i > 0 {
      var prev := SearchUpTo(ts, i - 1);
      SearchUpToSpec(ts, i - 1);
      var t := ts[i - 1];
      if t.qualifies && Below(t.cost, prev.minCost) {
        assert Winner(ts, i, i - 1) by {
          if prev.best.Some? {
            var j: nat :| Winner(ts, i - 1, j) && prev == Best(Some(ts[j].pitches), Finite(ts[j].cost));
          }
        }
      } else if prev.best.Some? {
        var j: nat :| Winner(ts, i - 1, j) && prev == Best(Some(ts[j].pitches), Finite(ts[j].cost));
        assert Winner(ts, i, j);
      }
    }
  }

  /** The `for movement in movements` loop. */
  method SearchMovements(base: seq<int>, quality: string, ms: seq<seq<int>>)
    returns (bestMatch: Option<seq<int>>, minCost: Bound)
    requires SameLengths(base, ms)
    ensures Best(bestMatch, minCost) == SearchUpTo(Trials(base, quality, ms), |ms|)
  {
    ghost var ts := Trials(base, quality, ms);
    bestMatch, minCost := None, Infinite;
    var i := 0;
    while i < |ms|
      invariant i <= |ms|
      invariant Best(bestMatch, minCost) == SearchUpTo(ts, i)
    {
      var movement := ms[i];
      assert ts[i] == Try(base, quality, movement);
      var newPitches := Add(base, movement);
      var normalized := ClassesOf(newPitches);
      if quality == "Major" {
        if normalized == MajorTarget {
          var cost := Cost(movement);
          if Below(cost, minCost) {
            minCost := Finite(cost);
            bestMatch := Some(newPitches);
          }
        }
      } else if quality == "Minor" {
        if normalized == MinorTarget {
          var cost := Cost(movement);
          if Below(cost, minCost) {
            minCost := Finite(cost);
            bestMatch := Some(newPitches);
          }
        }
      }
      i := i + 1;
    }
  }

  /** `[midi_to_note(pitch) for pitch in best_match]`. */
  function NoteNames(pitches: seq<int>): (names: seq<string>)
    ensures |names| == |pitches|
    ensures forall i :: 0 <= i < |pitches| ==> names[i] == Notes.MidiToNote(pitches[i])
  {
    seq(|pitches|, i requires 0 <= i < |pitches| => Notes.MidiToNote(pitches[i]))
  }

  /** The loop's final state for the base pitches `base`. */
  function Closest(base: seq<int>, quality: string, k: int): Best
  {
    ProductLengths(Range(k), |base|);
    SearchUpTo(Trials(base, quality, Movements(k, |base|)), |Movements(k, |base|)|)
  }

  /** What `find_closest_constrained_chord` returns: a raised error from
      `note_to_midi`, `(None, inf)` as `None`, or the chord's names and cost. */
  function Outcome(base: seq<int>, quality: string, k: int): Option<(seq<string>, nat)>
  {
    var st := Closest(base, quality, k);
    if st.best.Some? && st.minCost.Finite? then Some((NoteNames(st.best.value), st.minCost.n)) else None
  }

  method FindClosestConstrainedChord(notes: seq<string>, desiredQuality: string, maxMovement: int)
    returns (r: Result<Option<(seq<string>, nat)>>)
    ensures Chords.NotesToMidi(notes).Err? ==> r == Err(Chords.NotesToMidi(notes).fault)
    ensures Chords.NotesToMidi(notes).Ok? ==>
      r == Ok(Outcome(Chords.NotesToMidi(notes).value, desiredQuality, maxMovement))
  {
    var pitches := Chords.NotesToMidi(notes);
    if pitches.Err? {
      return Err(pitches.fault);
    }
    var base := pitches.value;
    var movements := Movements(maxMovement, |base|);
    ProductLengths(Range(maxMovement), |base|);
    var bestMatch, minCost := SearchMovements(base, desiredQuality, movements);
    if bestMatch.Some? {
      SearchUpToSpec(Trials(base, desiredQuality, movements), |movements|);
      r := Ok(Some((NoteNames(bestMatch.value), minCost.n)));
    } else {
      r := Ok(None);
    }
  }

  /** Nothing is found exactly when no vector in the box `[-k, k]^n` qualifies. */
  lemma NoneIffNoneQualifies(base: seq<int>, quality: string, k: int)
    ensures Closest(base, quality, k).best.None? <==>
      forall v :: InBox(v, k, |base|) ==> !Qualifies(base, v, quality)
  {
    var ms := Movements(k, |base|);
    ProductLengths(Range(k), |base|);
    var ts := Trials(base, quality, ms);
    SearchUpToSpec(ts, |ms|);
    if Closest(base, quality, k).best.None? {
      forall v | InBox(v, k, |base|)
        ensures !Qualifies(base, v, quality)
      {
        MovementsAreBox(k, |base|, v);
        var l :| 0 <= l < |ms| && ms[l] == v;
        assert ts[l] == Try(base, quality, v);
      }
    } else {
      var l :| 0 <= l < |ms| && ts[l].qualifies;
      assert ts[l] == Try(base, quality, ms[l]);
      MovementsAreBox(k, |base|, ms[l]);
    }
  }

  /** `v` qualifies, lies in the box, and no qualifying vector of the box is
      cheaper. */
  ghost predicate Cheapest(base: seq<int>, quality: string, k: int, v: seq<int>)
  {
    && InBox(v, k, |base|) && Qualifies(base, v, quality)
    && forall w :: InBox(w, k, |base|) && Qualifies(base, w, quality) ==> Cost(v) <= Cost(w)
  }

  /** What is found is a qualifying vector of the box, with its pitches and cost,
      and no qualifying vector in the box is cheaper. */
  lemma ClosestIsCheapest(base: seq<int>, quality: string, k: int)
    requires Closest(base, quality, k).best.Some?
    ensures exists v :: (Cheapest(base, quality, k, v)
      && Closest(base, quality, k) == Best(Some(Add(base, v)), Finite(Cost(v))))
  {
    var ms := Movements(k, |base|);
    ProductLengths(Range(k), |base|);
    var ts := Trials(base, quality, ms);
    SearchUpToSpec(ts, |ms|);
    var j: nat :| Winner(ts, |ms|, j) && SearchUpTo(ts, |ms|) == Best(Some(ts[j].pitches), Finite(ts[j].cost));
    var v := ms[j];
    MovementsAreBox(k, |base|, v);
    assert ts[j] == Try(base, quality, v);
    forall w | InBox(w, k, |base|) && Qualifies(base, w, quality)
      ensures Cost(v) <= Cost(w)
    {
      MovementsAreBox(k, |base|, w);
      var l :| 0 <= l < |ms| && ms[l] == w;
      assert ts[l] == Try(base, quality, w);
    }
    assert Cheapest(base, quality, k, v);
  }

  /** The tie-break: the result comes from the first movement in product order
      among those of least cost; every earlier qualifying movement costs more. */
  lemma ClosestIsFirst(base: seq<int>, quality: string, k: int)
    ensures Closest(base, quality, k).best.Some? ==>
      exists j :: 0 <= j < |Movements(k, |base|)| && |Movements(k, |base|)[j]| == |base|
        && Qualifies(base, Movements(k, |base|)[j], quality)
        && Closest(base, quality, k).best == Some(Add(base, Movements(k, |base|)[j]))
        && forall l :: 0 <= l < j && |Movements(k, |base|)[l]| == |base|
             && Qualifies(base, Movements(k, |base|)[l], quality)
             ==> Cost(Movements(k, |base|)[j]) < Cost(Movements(k, |base|)[l])
  {
    var ms := Movements(k, |base|);
    ProductLengths(Range(k), |base|);
    var ts := Trials(base, quality, ms);
    SearchUpToSpec(ts, |ms|);
    if Closest(base, quality, k).best.Some? {
      var j: nat :| Winner(ts, |ms|, j) && SearchUpTo(ts, |ms|) == Best(Some(ts[j].pitches), Finite(ts[j].cost));
      forall l | 0 <= l < j && |ms[l]| == |base| && Qualifies(base, ms[l], quality)
        ensures Cost(ms[j]) < Cost(ms[l])
      {
        assert ts[l] == Try(base, quality, ms[l]);
      }
      assert ts[j] == Try(base, quality, ms[j]);
    }
  }

  /** A chord that is found has one pitch per input note, each within `k` semitones
      of its original, and exactly the pitch classes of C major or C minor. */
  lemma FoundChord(base: seq<int>, quality: string, k: int)
    requires Closest(base, quality, k).best.Some?
    ensures var p := Closest(base, quality, k).best.value;
      && |p| == |base|
      && (forall i :: 0 <= i < |p| ==> -k <= p[i] - base[i] <= k)
      && (quality == "Major" || quality == "Minor")
      && ClassesOf(p) == (if quality == "Major" then MajorTarget else MinorTarget)
  {
    ClosestIsCheapest(base, quality, k);
    var v :| Cheapest(base, quality, k, v)
      && Closest(base, quality, k) == Best(Some(Add(base, v)), Finite(Cost(v)));
    var p := Add(base, v);
    assert forall i :: 0 <= i < |p| ==> p[i] - base[i] == v[i];
  }

  /** Building the set one pitch at a time gives `set(p % 12 for p in ps)`. */
  lemma {:induction false} ClassesOfIsPitchClasses(ps: seq<int>)
    ensures ClassesOf(ps) == Chords.PitchClasses(ps)
  {
    if ps != [] {
      ClassesOfIsPitchClasses(ps[1..]);
      forall x
        ensures x in Chords.PitchClasses(ps) <==> x == ps[0] % 12 || x in Chords.PitchClasses(ps[1..])
      {
        if x in Chords.PitchClasses(ps) {
          var p :| p in ps && x == p % 12;
          if p != ps[0] {
            var i :| 0 <= i < |ps| && ps[i] == p;
            assert ps[1..][i - 1] == p;
            assert p in ps[1..];
          }
        }
        if x in Chords.PitchClasses(ps[1..]) {
          var p :| p in ps[1..] && x == p % 12;
          assert p in ps;
        }
        if x == ps[0] % 12 {
          assert ps[0] in ps;
        }
      }
    }
  }

  /** There are no more classes than pitches. */
  lemma {:induction false} ClassCount(ps: seq<int>)
    ensures |ClassesOf(ps)| <= |ps|
  {
    if ps != [] {
      ClassCount(ps[1..]);
    }
  }

  /** Fewer than three pitches have fewer than three classes, so no quality test
      passes; a quality other than "Major" or "Minor" passes nothing. */
  lemma NeverQualifies(base: seq<int>, v: seq<int>, quality: string)
    requires |v| == |base|
    requires |base| < 3 || (quality != "Major" && quality != "Minor")
    ensures !Qualifies(base, v, quality)
  {
    ClassCount(Add(base, v));
    assert |MajorTarget| == 3 && |MinorTarget| == 3;
  }

  /** With fewer than three notes, or a quality other than "Major" and "Minor",
      the search returns `(None, inf)`. */
  lemma NothingFound(base: seq<int>, quality: string, k: int)
    requires |base| < 3 || (quality != "Major" && quality != "Minor")
    ensures Closest(base, quality, k) == Best(None, Infinite)
  {
    forall v | InBox(v, k, |base|)
      ensures !Qualifies(base, v, quality)
    {
      NeverQualifies(base, v, quality);
    }
    NoneIffNoneQualifies(base, quality, k);
    ProductLengths(Range(k), |base|);
    SearchUpToSpec(Trials(base, quality, Movements(k, |base|)), |Movements(k, |base|)|);
  }

  /** The returned names read back as the found pitches whenever those lie in the
      octaves `note_to_midi` reads, 12 to 131. */
  lemma NamesReadBack(pitches: seq<int>, i: int)
    requires 0 <= i < |pitches| && 12 <= pitches[i] <= 131
    ensures Notes.NoteToMidi(NoteNames(pitches)[i]) == Ok(pitches[i])
  {
    Notes.MidiRoundTrip(pitches[i]);
  }

  /** The label `main` gives each note for its semitone difference. */
  function MovementLabel(diff: int): string
  {
    if diff == 0 then "stay"
    else if diff > 0 then (if diff == 2 then "up whole" else "up half")
    else (if diff == -2 then "down whole" else "down half")
  }

  /** The `note_movements` loop: `zip` stops at the shorter list and a name
      `note_to_midi` rejects raises. */
  function NoteMovements(original: seq<string>, closest: seq<string>): (r: Result<seq<string>>)
    ensures r.Ok? ==> |r.value| == if |original| < |closest| then |original| else |closest|
  {
    if original == [] || closest == [] then Ok([])
    else match (Notes.NoteToMidi(closest[0]), Notes.NoteToMidi(original[0]))
      case (Err(f), _) => Err(f)
      case (_, Err(f)) => Err(f)
      case (Ok(n), Ok(o)) =>
        match NoteMovements(original[1..], closest[1..])
        case Err(f) => Err(f)
        case Ok(rest) => Ok([MovementLabel(n - o)] + rest)
  }

  /** The label is determined by the sign of the difference, and names the step
      size exactly for moves of one or two semitones. */
  lemma MovementLabelSpec(diff: int)
    ensures MovementLabel(diff) == "stay" <==> diff == 0
    ensures MovementLabel(diff) in {"up half", "up whole"} <==> diff > 0
    ensures MovementLabel(diff) in {"down half", "down whole"} <==> diff < 0
    ensures MovementLabel(diff) == "up whole" <==> diff == 2
    ensures MovementLabel(diff) == "down whole" <==> diff == -2
  {
  }

  /** When every original name reads as its base pitch and every new name as its
      pitch, the labels are those of the semitone moves between them. */
  lemma {:induction false} NoteMovementsOfReadings(original: seq<string>, closest: seq<string>, base: seq<int>, pitches: seq<int>)
    requires |original| == |closest| == |base| == |pitches|
    requires forall i :: 0 <= i < |original| ==> Notes.NoteToMidi(original[i]) == Ok(base[i])
    requires forall i :: 0 <= i < |closest| ==> Notes.NoteToMidi(closest[i]) == Ok(pitches[i])
    ensures NoteMovements(original, closest).Ok?
    ensures |NoteMovements(original, closest).value| == |base|
    ensures forall i :: 0 <= i < |base| ==>
      NoteMovements(original, closest).value[i] == MovementLabel(pitches[i] - base[i])
  {
    if original != [] {
      assert Notes.NoteToMidi(original[0]) == Ok(base[0]) && Notes.NoteToMidi(closest[0]) == Ok(pitches[0]);
      forall i | 0 <= i < |original| - 1
        ensures Notes.NoteToMidi(original[1..][i]) == Ok(base[1..][i])
        ensures Notes.NoteToMidi(closest[1..][i]) == Ok(pitches[1..][i])
      {
        assert original[1..][i] == original[i + 1] && closest[1..][i] == closest[i + 1];
      }
      NoteMovementsOfReadings(original[1..], closest[1..], base[1..], pitches[1..]);
      var rest := NoteMovements(original[1..], closest[1..]).value;
      NoteMovementsCons(original, closest, base[0], pitches[0]);
      LabelsCons(NoteMovements(original, closest).value, rest, base, pitches);
    }
  }

  /** For the chord the search returns, the labels are those of the semitone moves
      from the original notes. */
  lemma NoteMovementsOfChord(original: seq<string>, base: seq<int>, pitches: seq<int>)
    requires Chords.NotesToMidi(original) == Ok(base) && |pitches| == |base|
    requires forall i :: 0 <= i < |pitches| ==> 12 <= pitches[i] <= 131
    ensures NoteMovements(original, NoteNames(pitches)).Ok?
    ensures |NoteMovements(original, NoteNames(pitches)).value| == |base|
    ensures forall i :: 0 <= i < |base| ==>
      NoteMovements(original, NoteNames(pitches)).value[i] == MovementLabel(pitches[i] - base[i])
  {
    var names := NoteNames(pitches);
    forall i | 0 <= i < |names|
      ensures Notes.NoteToMidi(names[i]) == Ok(pitches[i])
    {
      NamesReadBack(pitches, i);
    }
    NoteMovementsOfReadings(original, names, base, pitches);
  }

  /** When both first names read, the first label is that of their difference and
      the rest are the labels of the rest. */
  lemma NoteMovementsCons(original: seq<string>, closest: seq<string>, o: int, n: int)
    requires original != [] && closest != []
    requires Notes.NoteToMidi(original[0]) == Ok(o) && Notes.NoteToMidi(closest[0]) == Ok(n)
    requires NoteMovements(original[1..], closest[1..]).Ok?
    ensures NoteMovements(original, closest) == Ok([MovementLabel(n - o)] + NoteMovements(original[1..], closest[1..]).value)
  {
  }

  /** The labels of the first note followed by those of the rest are the labels of
      all notes. */
  lemma LabelsCons(labels: seq<string>, rest: seq<string>, base: seq<int>, pitches: seq<int>)
    requires |pitches| == |base| >= 1 && |rest| == |base| - 1
    requires labels == [MovementLabel(pitches[0] - base[0])] + rest
    requires forall j :: 0 <= j < |rest| ==> rest[j] == MovementLabel(pitches[1..][j] - base[1..][j])
    ensures forall i :: 0 <= i < |base| ==> labels[i] == MovementLabel(pitches[i] - base[i])
  {
    forall i | 0 < i < |base|
      ensures labels[i] == MovementLabel(pitches[i] - base[i])
    {
      assert labels[i] == rest[i - 1];
      assert pitches[i] == pitches[1..][i - 1] && base[i] == base[1..][i - 1];
    }
  }

  // Enumeration order and membership

  lemma {:induction false} PrependMembers(d: int, vs: seq<seq<int>>, v: seq<int>)
    ensures v in Prepend(d, vs) <==> |v| >= 1 && v[0] == d && v[1..] in vs
  {
    if v in Prepend(d, vs) {
      var i :| 0 <= i < |vs| && Prepend(d, vs)[i] == v;
      assert v[1..] == vs[i];
    }
    if |v| >= 1 && v[0] == d && v[1..] in vs {
      var i :| 0 <= i < |vs| && vs[i] == v[1..];
      assert Prepend(d, vs)[i] == v;
    }
  }

  lemma {:induction false} SpreadMembers(ds: seq<int>, vs: seq<seq<int>>, v: seq<int>)
    ensures v in Spread(ds, vs) <==> |v| >= 1 && v[0] in ds && v[1..] in vs
  {
    if ds != [] {
      PrependMembers(ds[0], vs, v);
      SpreadMembers(ds[1..], vs, v);
      assert ds == [ds[0]] + ds[1..];
    }
  }

  lemma {:induction false} SpreadLengths(ds: seq<int>, vs: seq<seq<int>>, n: nat)
    requires forall j :: 0 <= j < |vs| ==> |vs[j]| == n
    ensures forall j :: 0 <= j < |Spread(ds, vs)| ==> |Spread(ds, vs)[j]| == n + 1
  {
    if ds != [] {
      SpreadLengths(ds[1..], vs, n);
      var p := Prepend(ds[0], vs);
      assert forall j :: 0 <= j < |p| ==> |p[j]| == n + 1;
    }
  }

  /** Every vector of the product has `n` entries. */
  lemma {:induction false} ProductLengths(ds: seq<int>, n: nat)
    ensures forall j :: 0 <= j < |Product(ds, n)| ==> |Product(ds, n)[j]| == n
  {
    if n > 0 {
      ProductLengths(ds, n - 1);
      SpreadLengths(ds, Product(ds, n - 1), n - 1);
    }
  }

  /** The product holds exactly the length-`n` vectors drawn from `ds`. */
  lemma {:induction false} ProductMembers(ds: seq<int>, n: nat, v: seq<int>)
    ensures v in Product(ds, n) <==> |v| == n && forall i :: 0 <= i < |v| ==> v[i] in ds
  {
    if n > 0 {
      SpreadMembers(ds, Product(ds, n - 1), v);
      if |v| >= 1 {
        ProductMembers(ds, n - 1, v[1..]);
        assert forall i :: 1 <= i < |v| ==> v[i] == v[1..][i - 1];
      }
    }
  }

  /** The search space is the box `[-k, k]^n`, nothing more and nothing less. */
  lemma MovementsAreBox(k: int, n: nat, v: seq<int>)
    ensures v in Movements(k, n) <==> InBox(v, k, n)
  {
    ProductMembers(Range(k), n, v);
    var r := Range(k);
    if |v| == n {
      forall i | 0 <= i < |v|
        ensures v[i] in r <==> -k <= v[i] <= k
      {
        if -k <= v[i] <= k {
          assert r[v[i] + k] == v[i];
        }
      }
    }
  }

  /** There are `(2k + 1)^n` movement vectors. */
  lemma {:induction false} MovementsCount(k: nat, n: nat)
    ensures |Movements(k, n)| == Pow(2 * k + 1, n)
  {
    if n > 0 {
      MovementsCount(k, n - 1);
    }
  }

  function Pow(b: nat, e: nat): nat
  {
    if e == 0 then 1 else b * Pow(b, e - 1)
  }
}
