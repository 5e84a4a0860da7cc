/** `identify_chord` (multimodal_equilibrium.py): the triad quality of a chord, read
    from the sorted distinct pitch classes of its notes and the gaps between them. */
module Chords {
  import opened Wrappers
  import Notes

  datatype Quality = Major | Minor | Neither | Underdetermined

  /** The string `identify_chord` returns for each outcome. */
  function QualityText(q: Quality): string
  {
    match q
    case Major => "Major"
    case Minor => "Minor"
    case Neither => "Neither major nor minor triad"
    case Underdetermined => "Not enough unique pitches for a triad"
  }

  /** `[note_to_midi(note) for note in notes]`: the first note that fails raises. */
  function NotesToMidi(notes: seq<string>): (r: Result<seq<int>>)
    ensures r.Ok? ==> |r.value| == |notes|
    ensures r.Ok? ==> forall i :: 0 <= i < |notes| ==> Notes.NoteToMidi(notes[i]) == Ok(r.value[i])
    ensures r.Err? <==> exists i :: 0 <= i < |notes| && Notes.NoteToMidi(notes[i]).Err?
  {
    if notes == [] then Ok([])
    else match Notes.NoteToMidi(notes[0])
      case Err(f) => Err(f)
      case Ok(p) =>
        match NotesToMidi(notes[1..])
        case Err(f) =>
          assert forall i :: 1 <= i < |notes| ==> notes[i] == notes[1..][i - 1];
          Err(f)
        case Ok(ps) =>
          assert forall i :: 1 <= i < |notes| ==> notes[i] == notes[1..][i - 1];
          Ok([p] + ps)
  }

  /** `set(p % 12 for p in pitches)`. */
  function PitchClasses(pitches: seq<int>): (s: set<int>)
    ensures forall x :: x in s ==> 0 <= x < 12
  {
    set p | p in pitches :: p % 12
  }

  ghost predicate IsClassSet(s: set<int>) { forall x :: x in s ==> 0 <= x < 12 }

  /** The classes of `s` from `i` up to 11, in ascending order. */
  function UpFrom(s: set<int>, i: nat): seq<int>
    decreases 12 - i
  {
    if i >= 12 then [] else (if i in s then [i] else []) + UpFrom(s, i + 1)
  }

  /** `sorted(set(...))` for a set of pitch classes. */
  function SortedClasses(s: set<int>): seq<int>
  {
    UpFrom(s, 0)
  }

  /** `np.diff`: the gaps between neighbours. */
  function Gaps(u: seq<int>): (g: seq<int>)
    ensures |u| >= 1 ==> |g| == |u| - 1
  {
    if |u| <= 1 then [] else [u[1] - u[0]] + Gaps(u[1..])
  }

  /** The comparisons of the gaps against the three major and three minor shapes. */
  function ClassifyGaps(g: seq<int>): Quality
  {
    if g == [4, 3] || g == [3, 5] || g == [5, 4] then Major
    else if g == [3, 4] || g == [4, 5] || g == [5, 3] then Minor
    else Neither
  }

  /** The answer for the sorted distinct classes `u`. */
  function ClassifySorted(u: seq<int>): Quality
  {
    if |u| < 3 then Underdetermined else ClassifyGaps(Gaps(u))
  }

  function Classify(s: set<int>): Quality
  {
    ClassifySorted(SortedClasses(s))
  }

  function IdentifyChord(notes: seq<string>): Result<Quality>
  {
    match NotesToMidi(notes)
    case Err(f) => Err(f)
    case Ok(pitches) => Ok(Classify(PitchClasses(pitches)))
  }

  /** The major triad rooted at pitch class `t`. */
  function MajorAt(t: int): set<int> { {t % 12, (t + 4) % 12, (t + 7) % 12} }

  /** The minor triad rooted at pitch class `t`. */
  function MinorAt(t: int): set<int> { {t % 12, (t + 3) % 12, (t + 7) % 12} }

  ghost predicate IsMajorTriad(s: set<int>) { exists t :: 0 <= t < 12 && s == MajorAt(t) }

  ghost predicate IsMinorTriad(s: set<int>) { exists t :: 0 <= t < 12 && s == MinorAt(t) }

  ghost predicate StrictlyIncreasing(u: seq<int>)
  {
    forall i, j :: 0 <= i < j < |u| ==> u[i] < u[j]
  }

  lemma {:induction false} UpFromMembers(s: set<int>, i: nat)
    ensures forall x :: x in UpFrom(s, i) <==> x in s && i <= x < 12
    decreases 12 - i
  {
    if i < 12 {
      UpFromMembers(s, i + 1);
    }
  }

  lemma {:induction false} UpFromIncreasing(s: set<int>, i: nat)
    ensures StrictlyIncreasing(UpFrom(s, i))
    decreases 12 - i
  {
    if i < 12 {
      UpFromIncreasing(s, i + 1);
      UpFromMembers(s, i + 1);
      var rest := UpFrom(s, i + 1);
      if i in s {
        forall j | 0 <= j < |rest| ensures i < rest[j] {
          assert rest[j] in rest;
        }
      }
    }
  }

  function Window(s: set<int>, i: nat): set<int>
  {
    set x | x in s && i <= x < 12
  }

  lemma {:induction false} UpFromSize(s: set<int>, i: nat)
    ensures |UpFrom(s, i)| == |Window(s, i)|
    decreases 12 - i
  {
    if i < 12 {
      UpFromSize(s, i + 1);
      if i in s {
        assert Window(s, i) == {i} + Window(s, i + 1);
        assert i !in Window(s, i + 1);
      } else {
        assert Window(s, i) == Window(s, i + 1);
      }
    } else {
      assert Window(s, i) == {};
    }
  }

  /** The sorted distinct classes of a class set list it exactly, in ascending order. */
  lemma SortedClassesFacts(s: set<int>)
    requires IsClassSet(s)
    ensures StrictlyIncreasing(SortedClasses(s))
    ensures forall x :: x in SortedClasses(s) <==> x in s
    ensures |SortedClasses(s)| == |s|
  {
    UpFromMembers(s, 0);
    UpFromIncreasing(s, 0);
    UpFromSize(s, 0);
    assert Window(s, 0) == s;
  }

  lemma ThreeInOrder(u: seq<int>, a: int, b: int, c: int)
    requires |u| == 3 && StrictlyIncreasing(u) && a < b < c
    requires forall x :: x in u <==> x == a || x == b || x == c
    ensures u == [a, b, c]
  {
    assert u[0] in u && u[1] in u && u[2] in u;
    assert a in u && b in u && c in u;
  }

  /** `s` holds exactly the classes `a`, `b` and `c`. */
  ghost predicate Holds3(s: set<int>, a: int, b: int, c: int)
  {
    forall x :: x in s <==> x == a || x == b || x == c
  }

  lemma Card3(s: set<int>, a: int, b: int, c: int)
    requires a < b < c && Holds3(s, a, b, c)
    ensures |s| == 3
  {
    forall x ensures x in s <==> x in {a, b, c} {}
    assert s == {a, b, c};
  }

  lemma SortedTriple(s: set<int>, a: int, b: int, c: int)
    requires 0 <= a < b < c < 12 && Holds3(s, a, b, c)
    ensures SortedClasses(s) == [a, b, c]
  {
    Card3(s, a, b, c);
    SortedClassesFacts(s);
    ThreeInOrder(SortedClasses(s), a, b, c);
  }

  lemma MajorMembers(t: int)
    requires 0 <= t < 12
    ensures Holds3(MajorAt(t), t, (t + 4) % 12, (t + 7) % 12)
  {
  }

  lemma MinorMembers(t: int)
    requires 0 <= t < 12
    ensures Holds3(MinorAt(t), t, (t + 3) % 12, (t + 7) % 12)
  {
  }

  /** The major triad rooted at `t`, as the ascending classes it is made of. */
  function MajorSpelled(t: int): seq<int>
  {
    if t <= 4 then [t, t + 4, t + 7]
    else if t <= 7 then [t - 5, t, t + 4]
    else [t - 8, t - 5, t]
  }

  /** Which sorted triple a major triad rooted at `t` becomes. */
  lemma MajorSorted(s: set<int>, t: int)
    requires 0 <= t < 12 && Holds3(s, t, (t + 4) % 12, (t + 7) % 12)
    ensures SortedClasses(s) == MajorSpelled(t)
  {
    if t <= 4 {
      SortedTriple(s, t, t + 4, t + 7);
    } else if t <= 7 {
      assert (t + 7) % 12 == t - 5;
      SortedTriple(s, t - 5, t, t + 4);
    } else {
      assert (t + 7) % 12 == t - 5 && (t + 4) % 12 == t - 8;
      SortedTriple(s, t - 8, t - 5, t);
    }
  }

  /** The minor triad rooted at `t`, as the ascending classes it is made of. */
  function MinorSpelled(t: int): seq<int>
  {
    if t <= 4 then [t, t + 3, t + 7]
    else if t <= 8 then [t - 5, t, t + 3]
    else [t - 9, t - 5, t]
  }

  /** Which sorted triple a minor triad rooted at `t` becomes. */
  lemma MinorSorted(s: set<int>, t: int)
    requires 0 <= t < 12 && Holds3(s, t, (t + 3) % 12, (t + 7) % 12)
    ensures SortedClasses(s) == MinorSpelled(t)
  {
    if t <= 4 {
      SortedTriple(s, t, t + 3, t + 7);
    } else if t <= 8 {
      assert (t + 7) % 12 == t - 5;
      SortedTriple(s, t - 5, t, t + 3);
    } else {
      assert (t + 7) % 12 == t - 5 && (t + 3) % 12 == t - 9;
      SortedTriple(s, t - 9, t - 5, t);
    }
  }

  lemma TripleSet(u: seq<int>, s: set<int>)
    requires |u| == 3 && forall x :: x in s <==> x == u[0] || x == u[1] || x == u[2]
    ensures s == {u[0], u[1], u[2]}
  {
    forall x ensures x in s <==> x in {u[0], u[1], u[2]} {}
  }

  /** Three ascending classes whose gaps have the shape of a triad are that triad
      transposed (the root is wherever the shape puts it). */
  lemma GapsGiveTriad(u: seq<int>, s: set<int>)
    requires |u| == 3 && 0 <= u[0] < u[1] < u[2] < 12
    requires forall x :: x in s <==> x == u[0] || x == u[1] || x == u[2]
    ensures var g := [u[1] - u[0], u[2] - u[1]];
      && (g == [4, 3] ==> s == MajorAt(u[0]))
      && (g == [3, 5] ==> s == MajorAt(u[2]))
      && (g == [5, 4] ==> s == MajorAt(u[1]))
      && (g == [3, 4] ==> s == MinorAt(u[0]))
      && (g == [4, 5] ==> s == MinorAt(u[2]))
      && (g == [5, 3] ==> s == MinorAt(u[1]))
  {
    TripleSet(u, s);
  }

  lemma Gaps3(u: seq<int>)
    requires |u| == 3
    ensures Gaps(u) == [u[1] - u[0], u[2] - u[1]]
  {
    assert u[1..][1..] == [u[2]];
  }

  lemma ThreeListed(u: seq<int>, s: set<int>)
    requires IsClassSet(s) && |u| == 3 && StrictlyIncreasing(u)
    requires forall x :: x in u <==> x in s
    ensures 0 <= u[0] < u[1] < u[2] < 12
    ensures forall x :: x in s <==> x == u[0] || x == u[1] || x == u[2]
  {
    assert u[0] in u && u[2] in u;
    forall x ensures x in s <==> x == u[0] || x == u[1] || x == u[2] {
      assert x in u <==> x == u[0] || x == u[1] || x == u[2];
    }
  }

  /** Exactly three sorted classes: ascending, in range, and listing the set. */
  lemma ThreeClasses(s: set<int>)
    requires IsClassSet(s) && |SortedClasses(s)| == 3
    ensures var u := SortedClasses(s);
      && 0 <= u[0] < u[1] < u[2] < 12
      && forall x :: x in s <==> x == u[0] || x == u[1] || x == u[2]
  {
    SortedClassesFacts(s);
    ThreeListed(SortedClasses(s), s);
  }

  /** A list is named a triad only when it has exactly three classes, and then by the
      shape of its two gaps. */
  lemma NamedByGaps(u: seq<int>)
    requires ClassifySorted(u) in {Major, Minor}
    ensures |u| == 3 && ClassifySorted(u) == ClassifyGaps([u[1] - u[0], u[2] - u[1]])
  {
    assert |Gaps(u)| == |u| - 1;
    Gaps3(u);
  }

  lemma ShapeIsMajor(u: seq<int>, s: set<int>)
    requires |u| == 3 && 0 <= u[0] < u[1] < u[2] < 12
    requires forall x :: x in s <==> x == u[0] || x == u[1] || x == u[2]
    requires ClassifyGaps([u[1] - u[0], u[2] - u[1]]) == Major
    ensures IsMajorTriad(s)
  {
    GapsGiveTriad(u, s);
  }

  /** A chord answered "Major" is a transposed major triad. */
  lemma MajorIsTriad(s: set<int>)
    requires IsClassSet(s) && Classify(s) == Major
    ensures IsMajorTriad(s)
  {
    var u := SortedClasses(s);
    NamedByGaps(u);
    ThreeClasses(s);
    ShapeIsMajor(u, s);
  }

  /** The ascending spelling of a major triad has a major shape. */
  lemma SpelledIsMajor(u: seq<int>, t: int)
    requires 0 <= t < 12 && u == MajorSpelled(t)
    ensures ClassifySorted(u) == Major
  {
    Gaps3(u);
  }

  /** Every transposed major triad is answered "Major". */
  lemma TriadIsMajor(s: set<int>, t: int)
    requires 0 <= t < 12 && Holds3(s, t, (t + 4) % 12, (t + 7) % 12)
    ensures Classify(s) == Major
  {
    MajorSorted(s, t);
    SpelledIsMajor(SortedClasses(s), t);
  }

  /** "Major" is answered exactly for the transposed major triads. */
  lemma ClassifyMajor(s: set<int>)
    requires IsClassSet(s)
    ensures Classify(s) == Major <==> IsMajorTriad(s)
  {
    if Classify(s) == Major {
      MajorIsTriad(s);
    }
    if t :| 0 <= t < 12 && s == MajorAt(t) {
      MajorMembers(t);
      TriadIsMajor(s, t);
    }
  }

  lemma ShapeIsMinor(u: seq<int>, s: set<int>)
    requires |u| == 3 && 0 <= u[0] < u[1] < u[2] < 12
    requires forall x :: x in s <==> x == u[0] || x == u[1] || x == u[2]
    requires ClassifyGaps([u[1] - u[0], u[2] - u[1]]) == Minor
    ensures IsMinorTriad(s)
  {
    GapsGiveTriad(u, s);
  }

  /** A chord answered "Minor" is a transposed minor triad. */
  lemma MinorIsTriad(s: set<int>)
    requires IsClassSet(s) && Classify(s) == Minor
    ensures IsMinorTriad(s)
  {
    var u := SortedClasses(s);
    NamedByGaps(u);
    ThreeClasses(s);
    ShapeIsMinor(u, s);
  }

  /** The ascending spelling of a minor triad has a minor shape. */
  lemma SpelledIsMinor(u: seq<int>, t: int)
    requires 0 <= t < 12 && u == MinorSpelled(t)
    ensures ClassifySorted(u) == Minor
  {
    Gaps3(u);
  }

  /** Every transposed minor triad is answered "Minor". */
  lemma TriadIsMinor(s: set<int>, t: int)
    requires 0 <= t < 12 && Holds3(s, t, (t + 3) % 12, (t + 7) % 12)
    ensures Classify(s) == Minor
  {
    MinorSorted(s, t);
    SpelledIsMinor(SortedClasses(s), t);
  }

  /** "Minor" is answered exactly for the transposed minor triads. */
  lemma ClassifyMinor(s: set<int>)
    requires IsClassSet(s)
    ensures Classify(s) == Minor <==> IsMinorTriad(s)
  {
    if Classify(s) == Minor {
      MinorIsTriad(s);
    }
    if t :| 0 <= t < 12 && s == MinorAt(t) {
      MinorMembers(t);
      TriadIsMinor(s, t);
    }
  }

  /** The classifier, completely: fewer than three distinct classes is
      "not enough", a transposed major or minor triad is named as such, and every
      other set (in particular any with more than three classes) is "neither". */
  lemma ClassifySpec(s: set<int>)
    requires IsClassSet(s)
    ensures Classify(s) == Underdetermined <==> |s| < 3
    ensures Classify(s) == Major <==> IsMajorTriad(s)
    ensures Classify(s) == Minor <==> IsMinorTriad(s)
    ensures |s| > 3 ==> Classify(s) == Neither
  {
    SortedClassesFacts(s);
    ClassifyMajor(s);
    ClassifyMinor(s);
    if Classify(s) in {Major, Minor} {
      NamedByGaps(SortedClasses(s));
    }
  }

  /** Only the set of pitch classes matters: reordering, doubling or moving notes by
      octaves does not change the answer. */
  lemma DependsOnClassesOnly(a: seq<string>, b: seq<string>)
    requires NotesToMidi(a).Ok? && NotesToMidi(b).Ok?
    requires PitchClasses(NotesToMidi(a).value) == PitchClasses(NotesToMidi(b).value)
    ensures IdentifyChord(a) == IdentifyChord(b)
  {
  }
}
