/** `parse_and_sort_detected_notes` (multimodal_equilibrium.py): every
    `<note><octave> (<digits>.<digits> Hz)` item of a detected-notes payload, as
    `re.findall` finds them, sorted stably by frequency; only the note names are kept. */
module DetectedNotes {
  import opened Wrappers
  import opened Text
  import StableSort

  /** One item of the payload: the note name and the two digit strings of its frequency. */
  datatype Detected = Detected(note: string, whole: string, frac: string)

  /** Number of decimal digits from position `i` on (a greedy `\d+`, or 0 when there
      are none). */
  function DigitRun(s: string, i: nat): (n: nat)
    requires i <= |s|
    ensures i + n <= |s|
    ensures forall j :: i <= j < i + n ==> IsDigit(s[j])
    ensures i + n < |s| ==> !IsDigit(s[i + n])
    decreases |s| - i
  {
    if i == |s| || !IsDigit(s[i]) then 0 else 1 + DigitRun(s, i + 1)
  }

  /** Length of a `[A-G]#?\d` at the start of `s`, or 0 when there is none. The
      optional `#` cannot be given back: a `#` must then be followed by a digit. */
  function NameLength(s: string): (n: nat)
    ensures n == 0 || n == 2 || n == 3
    ensures n <= |s|
    ensures n > 0 ==> 'A' <= s[0] <= 'G' && IsDigit(s[n - 1]) && (n == 3 ==> s[1] == '#')
  {
    if |s| >= 2 && 'A' <= s[0] <= 'G' then
      if s[1] == '#' then (if |s| >= 3 && IsDigit(s[2]) then 3 else 0)
      else if IsDigit(s[1]) then 2
      else 0
    else 0
  }

  /** `\d+\.\d+` from position `i`: the two digit strings and the length consumed. */
  function MatchNumber(s: string, i: nat): (r: Option<(string, string, nat)>)
    requires i <= |s|
    ensures r.Some? ==> var (whole, frac, len) := r.value;
      && |whole| >= 1 && |frac| >= 1 && len == |whole| + 1 + |frac| && i + len <= |s|
  {
    var a := DigitRun(s, i);
    if a == 0 || i + a == |s| || s[i + a] != '.' then None
    else
      var b := DigitRun(s, i + a + 1);
      if b == 0 then None
      else Some((s[i..i + a], s[i + a + 1..i + a + 1 + b], a + 1 + b))
  }

  /** The pattern `([A-G]#?\d) \((\d+\.\d+) Hz\)` matched at the start of `s`, with
      the length it consumes. Each `\d+` is followed by a non-digit in the pattern, so
      the greedy match is the only one. */
  function MatchPrefix(s: string): (r: Option<(Detected, nat)>)
    ensures r.Some? ==> 0 < r.value.1 <= |s|
  {
    var n := NameLength(s);
    if n == 0 || |s| < n + 2 || s[n] != ' ' || s[n + 1] != '(' then None
    else match MatchNumber(s, n + 2)
      case None => None
      case Some((whole, frac, len)) =>
        var end := n + 2 + len;
        if |s| >= end + 4 && s[end] == ' ' && s[end + 1] == 'H' && s[end + 2] == 'z' && s[end + 3] == ')'
        then Some((Detected(s[..n], whole, frac), end + 4))
        else None
  }

  /** `re.findall`: try the pattern at each position, and after a match go on from
      where it ended. */
  function FindAll(s: string): seq<Detected>
    decreases |s|
  {
    if s == [] then []
    else match MatchPrefix(s)
      case Some((d, len)) => [d] + FindAll(s[len..])
      case None => FindAll(s[1..])
  }

  function Pow10(n: nat): (p: nat)
    ensures p >= 1
  {
    if n == 0 then 1 else 10 * Pow10(n - 1)
  }

  /** `float(x[1])`, taken exactly. */
  function Frequency(d: Detected): real
  {
    if AllDigits(d.whole) && AllDigits(d.frac)
    then ParseNat(d.whole) as real + ParseNat(d.frac) as real / Pow10(|d.frac|) as real
    else 0.0
  }

  function Names(ds: seq<Detected>): (r: seq<string>)
    ensures |r| == |ds| && forall i :: 0 <= i < |ds| ==> r[i] == ds[i].note
  {
    seq(|ds|, i requires 0 <= i < |ds| => ds[i].note)
  }

  function ParseAndSortDetectedNotes(text: string): seq<string>
  {
    Names(StableSort.Sort(FindAll(text), Frequency))
  }

  /** A detected item of the shape the pattern describes. */
  predicate WellFormed(d: Detected)
  {
    && |d.whole| >= 1 && AllDigits(d.whole)
    && |d.frac| >= 1 && AllDigits(d.frac)
    && 2 <= |d.note| <= 3 && 'A' <= d.note[0] <= 'G' && IsDigit(d.note[|d.note| - 1])
    && (|d.note| == 3 ==> d.note[1] == '#')
  }

  /** How the pitch detector writes one item, followed by whatever comes after it. */
  function Line(d: Detected, rest: string): string
  {
    d.note + (" (" + (d.whole + ("." + (d.frac + (" Hz)" + rest)))))
  }

  /** The number of characters one written item takes. */
  function LineLength(d: Detected): nat
  {
    |d.note| + 2 + |d.whole| + 1 + |d.frac| + 4
  }

  /** A payload of items, one per line. */
  function Render(ds: seq<Detected>): string
  {
    if ds == [] then "" else Line(ds[0], "\n" + Render(ds[1..]))
  }

  /** A run of exactly `k` digits at `i` is measured as such. */
  lemma {:induction false} DigitRunOf(s: string, i: nat, k: nat)
    requires i + k <= |s|
    requires forall j :: i <= j < i + k ==> IsDigit(s[j])
    requires i + k == |s| || !IsDigit(s[i + k])
    ensures DigitRun(s, i) == k
    decreases k
  {
    if k > 0 {
      DigitRunOf(s, i + 1, k - 1);
    }
  }

  /** The two digit strings `MatchNumber` cuts out are digits only. */
  lemma MatchNumberDigits(s: string, i: nat)
    requires i <= |s|
    ensures MatchNumber(s, i).Some? ==>
      AllDigits(MatchNumber(s, i).value.0) && AllDigits(MatchNumber(s, i).value.1)
  {
  }

  /** A matched item fits the pattern. */
  lemma MatchPrefixWellFormed(s: string)
    ensures MatchPrefix(s).Some? ==> WellFormed(MatchPrefix(s).value.0)
  {
    var n := NameLength(s);
    if n > 0 && |s| >= n + 2 {
      MatchNumberDigits(s, n + 2);
    }
  }

  /** Every item found fits the pattern. */
  lemma {:induction false} FoundItemsWellFormed(s: string)
    ensures forall d :: d in FindAll(s) ==> WellFormed(d)
    decreases |s|
  {
    if s != [] {
      MatchPrefixWellFormed(s);
      match MatchPrefix(s)
      case Some((d, len)) => FoundItemsWellFormed(s[len..]);
      case None => FoundItemsWellFormed(s[1..]);
    }
  }

  /** How `MatchNumber` reads two digit runs around a point. */
  lemma MatchNumberOf(s: string, i: nat, whole: string, frac: string)
    requires i + |whole| + 1 + |frac| <= |s| && |whole| > 0 && |frac| > 0
    requires DigitRun(s, i) == |whole| && s[i + |whole|] == '.'
    requires DigitRun(s, i + |whole| + 1) == |frac|
    requires s[i..i + |whole|] == whole
    requires s[i + |whole| + 1..i + |whole| + 1 + |frac|] == frac
    ensures MatchNumber(s, i) == Some((whole, frac, |whole| + 1 + |frac|))
  {
  }

  /** How `MatchPrefix` reads a name, a number and the fixed text around them. */
  lemma MatchPrefixOf(s: string, n: nat, whole: string, frac: string, len: nat, end: nat)
    requires n > 0 && NameLength(s) == n && |s| >= n + 2 && s[n] == ' ' && s[n + 1] == '('
    requires MatchNumber(s, n + 2) == Some((whole, frac, len))
    requires end == n + 2 + len && |s| >= end + 4
    requires s[end] == ' ' && s[end + 1] == 'H' && s[end + 2] == 'z' && s[end + 3] == ')'
    ensures MatchPrefix(s) == Some((Detected(s[..n], whole, frac), end + 4))
  {
  }

  /** `s` starts with the item `d` written out: each character where `Line` puts it. */
  ghost predicate LaidOut(s: string, d: Detected)
  {
    var w := |d.note| + 2;
    var f := w + |d.whole| + 1;
    var e := f + |d.frac|;
    && |s| >= LineLength(d) && e + 4 == LineLength(d)
    && s[..|d.note|] == d.note
    && s[|d.note|] == ' ' && s[|d.note| + 1] == '('
    && s[w..w + |d.whole|] == d.whole
    && s[w + |d.whole|] == '.'
    && s[f..f + |d.frac|] == d.frac
    && s[e] == ' ' && s[e + 1] == 'H' && s[e + 2] == 'z' && s[e + 3] == ')'
  }

  lemma LineLaidOut(d: Detected, rest: string)
    ensures LaidOut(Line(d, rest), d)
    ensures Line(d, rest)[LineLength(d)..] == rest
  {
    var s := Line(d, rest);
    assert forall j :: LineLength(d) <= j < |s| ==> s[j] == rest[j - LineLength(d)];
  }

  lemma LaidOutName(s: string, d: Detected)
    requires WellFormed(d) && LaidOut(s, d)
    ensures NameLength(s) == |d.note|
  {
    assert s[0] == d.note[0] && s[1] == d.note[1] && s[|d.note| - 1] == d.note[|d.note| - 1];
  }

  lemma LaidOutWholeRun(s: string, d: Detected)
    requires WellFormed(d) && LaidOut(s, d)
    ensures DigitRun(s, |d.note| + 2) == |d.whole|
  {
    var w := |d.note| + 2;
    forall j | w <= j < w + |d.whole| ensures IsDigit(s[j]) {
      assert s[w + (j - w)] == d.whole[j - w];
    }
    DigitRunOf(s, w, |d.whole|);
  }

  lemma LaidOutFracRun(s: string, d: Detected)
    requires WellFormed(d) && LaidOut(s, d)
    ensures DigitRun(s, |d.note| + 2 + |d.whole| + 1) == |d.frac|
  {
    var f := |d.note| + 2 + |d.whole| + 1;
    forall j | f <= j < f + |d.frac| ensures IsDigit(s[j]) {
      assert s[f + (j - f)] == d.frac[j - f];
    }
    DigitRunOf(s, f, |d.frac|);
  }

  lemma LaidOutNumber(s: string, d: Detected)
    requires LaidOut(s, d) && |d.whole| > 0 && |d.frac| > 0
    requires DigitRun(s, |d.note| + 2) == |d.whole|
    requires DigitRun(s, |d.note| + 2 + |d.whole| + 1) == |d.frac|
    ensures MatchNumber(s, |d.note| + 2) == Some((d.whole, d.frac, |d.whole| + 1 + |d.frac|))
  {
    MatchNumberOf(s, |d.note| + 2, d.whole, d.frac);
  }

  /** A laid-out well-formed item is matched, and no further than its end. */
  lemma LaidOutMatches(s: string, d: Detected)
    requires WellFormed(d) && LaidOut(s, d)
    ensures MatchPrefix(s) == Some((d, LineLength(d)))
  {
    LaidOutName(s, d);
    LaidOutWholeRun(s, d);
    LaidOutFracRun(s, d);
    LaidOutNumber(s, d);
    LaidOutItem(s, d);
  }

  /** A laid-out item whose name and number are read as such is matched whole. */
  lemma LaidOutItem(s: string, d: Detected)
    requires LaidOut(s, d) && |d.note| > 0 && NameLength(s) == |d.note|
    requires MatchNumber(s, |d.note| + 2) == Some((d.whole, d.frac, |d.whole| + 1 + |d.frac|))
    ensures MatchPrefix(s) == Some((d, LineLength(d)))
  {
    MatchPrefixOf(s, |d.note|, d.whole, d.frac, |d.whole| + 1 + |d.frac|, LineLength(d) - 4);
  }

  /** A well-formed item is matched whole, whatever follows it. */
  lemma LineMatches(d: Detected, rest: string)
    requires WellFormed(d)
    ensures MatchPrefix(Line(d, rest)) == Some((d, LineLength(d)))
    ensures Line(d, rest)[LineLength(d)..] == rest
  {
    LineLaidOut(d, rest);
    LaidOutMatches(Line(d, rest), d);
  }

  /** After a match, `re.findall` goes on from the end of the match. */
  lemma FindAllAfterMatch(s: string, d: Detected, len: nat)
    requires s != [] && MatchPrefix(s) == Some((d, len))
    ensures FindAll(s) == [d] + FindAll(s[len..])
  {
  }

  /** Without a match, `re.findall` moves on by one character. */
  lemma FindAllSkip(s: string)
    requires s != [] && MatchPrefix(s).None?
    ensures FindAll(s) == FindAll(s[1..])
  {
  }

  /** Reading a rendered payload gives back its items, in order. */
  lemma {:induction false} FindAllRender(ds: seq<Detected>)
    requires forall i :: 0 <= i < |ds| ==> WellFormed(ds[i])
    ensures FindAll(Render(ds)) == ds
    decreases |ds|
  {
    if ds != [] {
      var rest := Render(ds[1..]);
      var tail := "\n" + rest;
      var s := Line(ds[0], tail);
      assert Render(ds) == s;
      LineMatches(ds[0], tail);
      FindAllAfterMatch(s, ds[0], LineLength(ds[0]));
      assert NameLength(tail) == 0;
      FindAllSkip(tail);
      assert tail[1..] == rest;
      FindAllRender(ds[1..]);
      assert ds == [ds[0]] + ds[1..];
    }
  }

  /** The result is the names of the found items, reordered by ascending frequency;
      nothing is added or lost, and items of equal frequency keep their input order. */
  lemma ParseAndSortSpec(text: string)
    ensures var found := FindAll(text);
            var sorted := StableSort.Sort(found, Frequency);
            && ParseAndSortDetectedNotes(text) == Names(sorted)
            && StableSort.SortedBy(sorted, Frequency)
            && multiset(sorted) == multiset(found)
            && (forall d :: d in sorted ==> WellFormed(d))
            && forall f :: StableSort.WithKey(sorted, Frequency, f) == StableSort.WithKey(found, Frequency, f)
  {
    var found := FindAll(text);
    var sorted := StableSort.Sort(found, Frequency);
    StableSort.SortIsSortedPermutation(found, Frequency);
    FoundItemsWellFormed(text);
    forall d | d in sorted ensures WellFormed(d) {
      assert d in multiset(found);
    }
    forall f ensures StableSort.WithKey(sorted, Frequency, f) == StableSort.WithKey(found, Frequency, f) {
      StableSort.SortIsStable(found, Frequency, f);
    }
  }

  /** A payload whose lines are already in frequency order yields its note names as written. */
  lemma ParseRenderedSorted(ds: seq<Detected>)
    requires forall i :: 0 <= i < |ds| ==> WellFormed(ds[i])
    requires StableSort.SortedBy(ds, Frequency)
    ensures ParseAndSortDetectedNotes(Render(ds)) == Names(ds)
  {
    FindAllRender(ds);
    StableSort.SortOfSorted(ds, Frequency);
  }
}
