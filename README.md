# ImproVision robot conductor: a Dafny model of its symbolic core

ImproVision conducts a string quartet with a pan-tilt-zoom camera. The camera
"nods" at each musician to tell them how to move their pitch. This project models
the symbolic side of that system:

- **Notes and pitches.** Note names are turned into MIDI pitch numbers and back. A
  detected-notes payload is parsed and sorted by frequency.
- **Chords.** A triad classifier, and the exhaustive search for the closest C-major
  or C-minor chord a gesture asks for.
- **Score compilers.** A score is compiled into per-measure movement directives in
  three forms: a padded list (`robot_conductor.py`, `demo_movements.py`), a
  dictionary keyed "Measure N" (`robot_instructions.py`), and the printed
  per-note report (`analyze_midi_mvt_func.py`).
- **Cue sequences.** The camera-command sequences that cue one measure or one
  chord. There are five versions, which differ in their nods, their pans and their
  closing "slam".
- **Camera and gestures.** The camera's CGI URL builders and status mapping, and
  the gesture tests on pose keypoints.

The model is in plain Dafny, one module per concern:

| module | file | concern |
|---|---|---|
| `Wrappers` | wrappers.dfy | `Option`, `Result` and the Python exceptions the code can raise |
| `Text` | text.dfy | `str()` of integers, `int()` of digit strings, ASCII `str.lower()` |
| `StableSort` | stable_sort.dfy | `sorted(xs, key=k)` as a stable insertion sort |
| `Notes` | notes.dfy | `parse_note`, `note_to_midi`, `midi_to_note` |
| `DetectedNotes` | detected_notes.dfy | `parse_and_sort_detected_notes` and its regular expression |
| `Chords` | chords.dfy | `identify_chord` |
| `ChordSearch` | chord_search.dfy | `find_closest_constrained_chord`, and the movement labels of `main` |
| `Score` | score.dfy | parts, notes, measures, `determine_robot_movement`, transitions between measures |
| `InstructionList` | instruction_list.dfy | the list-building `robot_instructions` |
| `InstructionDict` | instruction_dict.dfy | the dictionary-building `robot_instructions` |
| `MovementReport` | movement_report.dfy | `analyze_midi_movements` |
| `CameraUrl` | camera_url.dfy | `build_cgi_url`/`buildCgiUrl`, `send_camera_control`/`sendCameraControl`, `post` |
| `Camera` | camera.dfy | the camera as a class holding the commands sent to it |
| `Cues` | cues.dfy | the per-musician nods (`execute_movement_for_instrument`, `execute_movement`) |
| `MeasureCues` | measure_cues.dfy | the measure and chord cue sequences |
| `Gestures` | gestures.dfy | `detect_gestures`, `is_hand_above_head`, landmark selection, pan direction |

Code that works step by step is modelled by methods:

- the loops of the compilers;
- the search loop of `find_closest_constrained_chord`;
- the cue sequences, which send commands to a `Camera` object.

Each method is proved equal to a recursive specification function, and the
properties the code promises are proved about that function. A cue trace is the
sequence of commands sent, in order. `Settled(trace)` says that every pan or tilt
is followed at once by `ptzstop`. `Count(c, trace)` counts how often a command
occurs.

Points where the code departs from what its names and comments suggest; the model
follows the code:

- `execute_one_measure(measure_number)` suggests cueing that measure. But the
  compiled list holds the transition into measure `m` at index `m - 2`
  (robot_conductor.py:41-45), and the cue scripts read index `measure - 1`
  (robot_conductor.py:113, demo_movements.py:109). So cueing measure `m` plays the
  movements into measure `m + 1` (`MeasureCues.EntryReadIsNextMeasure`).
- A "stay" movement only pauses (multimodal_equilibrium.py:272) and makes no nod.
  robot_conductor.py's `execute_movement` still sends the camera home after it, as
  it does after every label (robot_conductor.py:100-101). Pauses are not modelled.
- An out-of-range measure prints a message and returns (robot_conductor.py:109-111).
  It is modelled as an empty trace, not as an error.
- The comments "Major triad" and "Minor triad" at multimodal_equilibrium.py:178-184
  suggest any major or minor triad. But the code compares the pitch classes with
  `{0, 4, 7}` and `{0, 3, 7}` as they stand, so the search only finds C major or
  C minor.
- The chord labels of `main` (multimodal_equilibrium.py:377-382) name a move of more
  than two semitones as a half step. `determine_robot_movement`
  (robot_conductor.py:64-65) calls such a move "irregular"
  (`MovementReport.ChordLabelsAgree`).
- The comment "Final slam cue" heads a sequence that stops right after "down" in
  robot_conductor.py:144-152 and Archive/execute_one_measure.py:54-62, which leaves
  the camera tilting. execute_one_measure.py has no slam at all.

## Model

| member | source | states |
|---|---|---|
| Text.ParseNatToString | robot_instructions.py:26 | the decimal digits written for a measure number read back as that number |
| Text.NatToStringInjective | robot_instructions.py:26 | different measure numbers are written with different digit strings |
| Text.Lower | multimodal_equilibrium.py:208 | lower-casing keeps the length and maps each character on its own (ASCII letters only) |
| Text.LowerIdempotent | multimodal_equilibrium.py:208 | lower-casing an already lower-cased command changes nothing |
| StableSort.SortIsSortedPermutation | multimodal_equilibrium.py:119 | `sorted` returns its input, as a multiset, in ascending key order |
| StableSort.SortIsStable | multimodal_equilibrium.py:119 | for every key value, the items with that key come out in their input order |
| StableSort.SortOfSorted | multimodal_equilibrium.py:119 | input already in key order comes back unchanged |
| Notes.ClassOf | multimodal_equilibrium.py:125-128 | a known class name is a letter A-G with an optional sharp or flat; its class lies in 0..11 |
| Notes.ParseNote | multimodal_equilibrium.py:107-112 | the match succeeds exactly when the text starts with a letter A-G, an optional `#` and a digit, whatever follows; it then returns that name and the digit's value, and every other text raises `ValueError` |
| Notes.NoteToMidiFormula | multimodal_equilibrium.py:135-139 | `note_to_midi(name + digit) = class + 12 * (digit + 1)` for every known class |
| Notes.SpellingIrrelevant | multimodal_equilibrium.py:125-139 | flat and sharp spellings of a class give the same pitch number as its sharp name |
| Notes.SharpNamesAreClasses | multimodal_equilibrium.py:125-133 | each name of `MIDI_TO_NOTE` is a known class name for its own class, and holds no flat |
| Notes.MidiRoundTrip | multimodal_equilibrium.py:135-145 | `note_to_midi(midi_to_note(m)) == m` exactly when 12 <= m <= 131 |
| Notes.MidiToNoteNeverFlat | multimodal_equilibrium.py:141-145 | `midi_to_note` never writes a flat |
| Notes.ParseNoteAgrees | multimodal_equilibrium.py:107-139 | `parse_note` accepts every natural or sharp name with an octave digit, followed by any text, and returns that name and digit; `note_to_midi` reads the name and digit by the formula |
| DetectedNotes.DigitRun | multimodal_equilibrium.py:115 | the greedy `\d+`: every counted character is a digit and the next one is not |
| DetectedNotes.NameLength | multimodal_equilibrium.py:115 | a matched `[A-G]#?\d` has length 2 or 3, starts with A-G, ends with a digit and has `#` in the middle when it is 3 long |
| DetectedNotes.MatchNumber | multimodal_equilibrium.py:115 | a matched `\d+\.\d+` is two non-empty digit strings around a point, and the length consumed covers exactly those |
| DetectedNotes.MatchPrefix | multimodal_equilibrium.py:115-116 | a match consumes at least one character and no more than the text |
| DetectedNotes.Names | multimodal_equilibrium.py:122 | the result keeps one name per item, in order |
| DetectedNotes.MatchPrefixWellFormed | multimodal_equilibrium.py:115-116 | whatever the pattern matches has the shape the pattern describes |
| DetectedNotes.FoundItemsWellFormed | multimodal_equilibrium.py:115-116 | every item `re.findall` returns has that shape |
| DetectedNotes.LaidOutMatches | multimodal_equilibrium.py:115-116 | an item written out at the start of a text is matched as that item and ends where it ends |
| DetectedNotes.LineMatches | multimodal_equilibrium.py:115-116 | a well-formed item is matched whole whatever text follows it |
| DetectedNotes.FindAllAfterMatch | multimodal_equilibrium.py:116 | after a match, the search resumes at the end of the match |
| DetectedNotes.FindAllSkip | multimodal_equilibrium.py:116 | text where the pattern does not match is skipped one character at a time |
| DetectedNotes.FindAllRender | multimodal_equilibrium.py:114-116 | parsing a payload written from well-formed items gives back exactly those items, in order |
| DetectedNotes.ParseAndSortSpec | multimodal_equilibrium.py:114-122 | the result is the names of the matched items in ascending frequency; nothing is added or lost, and equal frequencies keep their input order |
| DetectedNotes.ParseRenderedSorted | multimodal_equilibrium.py:114-122 | a payload already in frequency order yields its note names as written |
| Chords.NotesToMidi | multimodal_equilibrium.py:148 | converting a chord fails exactly when one of its notes fails, and otherwise gives one pitch per note |
| Chords.PitchClasses | multimodal_equilibrium.py:148-149 | every pitch class lies in 0..11 |
| Chords.Gaps | multimodal_equilibrium.py:154 | `np.diff` of `n` classes has `n - 1` gaps |
| Chords.SortedClassesFacts | multimodal_equilibrium.py:149 | `sorted(set(...))` lists exactly the set's classes, strictly ascending, one entry per class |
| Chords.NamedByGaps | multimodal_equilibrium.py:151-162 | a chord is named a triad only with exactly three classes, and then by the shape of its two gaps |
| Chords.GapsGiveTriad | multimodal_equilibrium.py:156-160 | three ascending classes with a major (minor) gap shape form a transposed major (minor) triad |
| Chords.ShapeIsMajor | multimodal_equilibrium.py:156-157 | a major gap shape means the classes form a transposed major triad |
| Chords.SpelledIsMajor | multimodal_equilibrium.py:156-157 | every transposed major triad, in ascending order, has one of the three major gap shapes |
| Chords.MajorIsTriad | multimodal_equilibrium.py:156-157 | a chord answered "Major" is a transposed major triad |
| Chords.TriadIsMajor | multimodal_equilibrium.py:156-157 | every transposed major triad is answered "Major" |
| Chords.ClassifyMajor | multimodal_equilibrium.py:147-157 | "Major" is answered exactly for the transposed major triads |
| Chords.ShapeIsMinor | multimodal_equilibrium.py:159-160 | a minor gap shape means the classes form a transposed minor triad |
| Chords.SpelledIsMinor | multimodal_equilibrium.py:159-160 | every transposed minor triad, in ascending order, has one of the three minor gap shapes |
| Chords.MinorIsTriad | multimodal_equilibrium.py:159-160 | a chord answered "Minor" is a transposed minor triad |
| Chords.TriadIsMinor | multimodal_equilibrium.py:159-160 | every transposed minor triad is answered "Minor" |
| Chords.ClassifyMinor | multimodal_equilibrium.py:147-160 | "Minor" is answered exactly for the transposed minor triads |
| Chords.ClassifySpec | multimodal_equilibrium.py:147-162 | fewer than three classes is "not enough"; "Major" and "Minor" exactly for the transposed triads; more than three is "neither" |
| Chords.DependsOnClassesOnly | multimodal_equilibrium.py:147-162 | two chords with the same set of pitch classes get the same answer, whatever their order, doubling or octaves |
| ChordSearch.Interval | multimodal_equilibrium.py:171 | `range(lo, hi)` is `lo, lo + 1, ...`, `hi - lo` values long |
| ChordSearch.ProductLengths | multimodal_equilibrium.py:171 | every vector of `itertools.product(..., repeat=n)` has `n` entries |
| ChordSearch.ProductMembers | multimodal_equilibrium.py:171 | the product holds exactly the length-`n` vectors drawn from the range |
| ChordSearch.MovementsAreBox | multimodal_equilibrium.py:171 | the movements tried are exactly the vectors of the box `[-k, k]^n` |
| ChordSearch.MovementsCount | multimodal_equilibrium.py:171 | there are `(2k + 1)^n` movement vectors |
| ChordSearch.Add | multimodal_equilibrium.py:174 | the new pitches add the movement to the base pitches position by position |
| ChordSearch.Trials | multimodal_equilibrium.py:173-179 | the loop looks at every movement once, in order |
| ChordSearch.SearchUpToSpec | multimodal_equilibrium.py:173-188 | after `i` movements nothing is kept exactly when none qualified (and the cost is still infinite); otherwise the kept one qualifies, nothing earlier is cheaper, and earlier qualifying ones cost strictly more |
| ChordSearch.SearchMovements | multimodal_equilibrium.py:173-188 | the loop ends with the state the specification of the search gives |
| ChordSearch.NoteNames | multimodal_equilibrium.py:191 | the chord is returned as one `midi_to_note` name per pitch |
| ChordSearch.FindClosestConstrainedChord | multimodal_equilibrium.py:164-193 | a note `note_to_midi` rejects raises its error; otherwise the result is the search's outcome |
| ChordSearch.NoneIffNoneQualifies | multimodal_equilibrium.py:173-193 | `(None, inf)` is returned exactly when no vector of the box qualifies |
| ChordSearch.ClosestIsCheapest | multimodal_equilibrium.py:173-191 | the result comes from a qualifying vector of the box, its cost is that vector's total movement, and no qualifying vector costs less |
| ChordSearch.ClosestIsFirst | multimodal_equilibrium.py:173-191 | ties go to the first vector in product order: every earlier qualifying vector costs strictly more |
| ChordSearch.FoundChord | multimodal_equilibrium.py:174-191 | a found chord has one pitch per note, each within `k` semitones of its original, and exactly the classes of C major or C minor |
| ChordSearch.ClassesOfIsPitchClasses | multimodal_equilibrium.py:175-178 | the set of normalised pitches is the set of pitch classes |
| ChordSearch.ClassCount | multimodal_equilibrium.py:175-178 | a chord has no more classes than pitches |
| ChordSearch.NeverQualifies | multimodal_equilibrium.py:177-188 | with fewer than three notes, or a quality other than "Major"/"Minor", no movement qualifies |
| ChordSearch.NothingFound | multimodal_equilibrium.py:177-193 | in those cases the search returns `(None, inf)` |
| ChordSearch.NamesReadBack | multimodal_equilibrium.py:141-145 | a returned name reads back as its pitch when the pitch lies in 12..131 |
| ChordSearch.NoteMovements | multimodal_equilibrium.py:374-383 | the labels stop at the shorter of the two chords, as `zip` does |
| ChordSearch.MovementLabelSpec | multimodal_equilibrium.py:377-382 | "stay" exactly for 0; an up label exactly for a rise and a down label exactly for a fall; "whole" exactly for a move of 2 |
| ChordSearch.NoteMovementsOfReadings | multimodal_equilibrium.py:374-383 | when every name reads as its pitch, the labels are those of the semitone moves between the two chords |
| ChordSearch.NoteMovementsOfChord | multimodal_equilibrium.py:374-383 | for a chord the search returns, the labels are those of the semitone moves from the original notes |
| Score.MeasureOf | robot_conductor.py:35 | measures are numbered from 1 |
| Score.MeasureOfDiv | robot_conductor.py:35 | the measure of an onset is `onset // 2 s + 1` |
| Score.MeasureOfSpec | robot_conductor.py:33-35 | an onset lies in the two-second window of its measure, and later onsets never fall in earlier measures |
| Score.ByStartIsStableSort | robot_conductor.py:33 | the notes are ordered by Python's stable sort keyed on the onset |
| Score.ByStartSorted | robot_conductor.py:33 | the sorted notes are the part's notes in ascending onset order |
| Score.PartName | robot_conductor.py:44 | the part's own name when it has one, otherwise a non-empty fallback name |
| Score.Label | robot_conductor.py:52-65 | every directive text is non-empty |
| Score.LabelInjective | robot_conductor.py:52-65 | different directives have different texts |
| Score.MovementLabels | robot_conductor.py:52-65 | steps from -2 to 2 get the label that names them exactly; every other step is "irregular" |
| Score.LabelsAreProduced | robot_conductor.py:52-65 | each of the five step labels comes from its own step, and only "irregular" names no step |
| Score.TransitionsUpToSpec | robot_conductor.py:37-39 | a part makes a transition exactly at a note, never the first, whose measure differs from the note before it |
| Score.TransitionsMoveForward | robot_conductor.py:33-39 | in onset order a part only enters measures after the one it starts in |
| Score.TransitionsFromParts | robot_conductor.py:28-48 | every transition of the score comes from one of its parts |
| Score.TransitionsOfParts | robot_conductor.py:28-48 | every transition of every part is a transition of the score |
| Score.TransitionsSpec | robot_conductor.py:28-48 | the score's transitions are exactly its parts' transitions |
| Score.TransitionsFromSecond | robot_conductor.py:35-45 | no transition enters measure 1 |
| Score.EntryForSnoc | robot_conductor.py:45 | one more transition changes only the entry of the measure it enters |
| Score.EntryForSpec | robot_conductor.py:44-45 | a measure's entry names exactly the parts that enter it, each with the movement of its last such transition |
| Score.EntryForLast | robot_conductor.py:45 | a later transition of the same part into the same measure overwrites an earlier one |
| Score.EntryForHas | robot_conductor.py:45 | each transition into a measure puts its part in that measure's entry |
| Score.EntryForUnreached | robot_conductor.py:41-42 | a measure no transition enters has an empty entry |
| InstructionList.PadSpec | robot_conductor.py:41-42 | padding reaches the wanted length, keeps the existing entries and adds only empty ones |
| InstructionList.PadTo | robot_conductor.py:41-42 | the padding loop pads as specified |
| InstructionList.RecordMovement | robot_conductor.py:41-45 | one directive pads the list and writes the part's movement at index `m - 2` |
| InstructionList.MaxSlotSpec | robot_conductor.py:41-42 | `MaxSlot` is at least every transition's measure minus one, and some transition reaches it |
| InstructionList.RecordStep | robot_conductor.py:41-45 | one more directive keeps the list one entry per measure up to the last one entered |
| InstructionList.BuildSpec | robot_conductor.py:37-45 | the list is as long as the largest measure entered minus one, and entry `i` holds exactly the movements into measure `i + 2` |
| InstructionList.CompileUpToIsBuild | robot_conductor.py:28-48 | compiling part by part records the score's transitions in order |
| InstructionList.CompileSpec | robot_conductor.py:14-50 | the same, for the whole score: length and every entry in terms of the score's transitions |
| InstructionList.RecordUpToIsBuild | robot_conductor.py:33-48 | walking a part's notes records that part's transitions in order |
| InstructionList.ChangedMeasure | robot_conductor.py:37-45 | a note that changes measure enters measure 2 or later and records its movement |
| InstructionList.SameMeasure | robot_conductor.py:37-48 | the first note, or one in the measure of the note before it, records nothing |
| InstructionList.RecordPart | robot_conductor.py:30-48 | the loop over a part's notes, with its two running variables, records the part's transitions |
| InstructionList.PartFromSecond | robot_conductor.py:33-45 | no part's transition enters measure 1, so index `m - 2` always exists |
| InstructionList.RecordScorePart | robot_conductor.py:28-48 | one pass of the loop over the parts skips a drum part and records any other under its name |
| InstructionList.RobotInstructions | robot_conductor.py:14-50 | the method computes the compiled list; demo_movements.py:20-56 is the same code |
| InstructionDict.MeasureKeyInjective | robot_instructions.py:26 | different measures have different keys |
| InstructionDict.Touch | robot_instructions.py:28-29 | after a note the key of its measure is present |
| InstructionDict.NoteTransitions | robot_instructions.py:31-35 | a note's directive, if any, is for its own measure and its own part, and the walk's transitions grow by exactly it |
| InstructionDict.NoteInSpec | robot_instructions.py:23-29 | the measures reached by a part's notes are the measures of those notes |
| InstructionDict.ScoreNoteInSpec | robot_instructions.py:18-29 | the measures reached by the score are those of the notes of its non-drum parts |
| InstructionDict.ByStartNoteIn | robot_instructions.py:23 | sorting a part's notes keeps the measures they fall in |
| InstructionDict.TouchTabulates | robot_instructions.py:28-29 | creating a key keeps every other measure's entry |
| InstructionDict.WriteTabulates | robot_instructions.py:35 | writing a directive under its key records that transition |
| InstructionDict.NoteStepTabulates | robot_instructions.py:26-38 | one note gives its measure a key and records the transition it makes, if any |
| InstructionDict.TableUpToTabulates | robot_instructions.py:23-38 | walking a part's notes gives their measures keys and records the transitions they make |
| InstructionDict.TableUpToPartTabulates | robot_instructions.py:18-38 | after the first parts, the dictionary has keys for their notes' measures and holds their transitions |
| InstructionDict.ByMeasureSpec | robot_instructions.py:3-40 | a measure has a key exactly when a non-drum note falls in it, and the key holds, for each part entering it, the movement of its last transition into it |
| InstructionDict.TransitionsHaveKeys | robot_instructions.py:28-35 | every directive is stored under a key that exists |
| InstructionDict.MeasureOneEmpty | robot_instructions.py:23-38 | "Measure 1", when present, is always empty |
| InstructionDict.ListAndDictAgree | robot_instructions.py:26-35 | the list's entry at index `m - 2` is the dictionary's entry for measure `m`; measures past the list's end are empty; a non-empty list entry has a key |
| InstructionDict.NoteStepChanged | robot_instructions.py:31-35 | a note entering a new measure writes its movement under that measure's key |
| InstructionDict.NoteStepSame | robot_instructions.py:28-31 | the first note, or one in the same measure as the note before it, only creates its key |
| InstructionDict.RecordPart | robot_instructions.py:20-38 | the loop over a part's notes builds the dictionary the walk specifies |
| InstructionDict.RecordScorePart | robot_instructions.py:18-38 | one pass of the loop over the parts skips a drum part and walks any other |
| InstructionDict.RobotInstructions | robot_instructions.py:3-40 | the method builds the dictionary of the whole score |
| MovementReport.Phrase | analyze_midi_mvt_func.py:35-46 | every phrase is non-empty |
| MovementReport.PhraseIsMovement | analyze_midi_mvt_func.py:34-46 | the report phrase of a step is the phrase of the robot's directive for the same step |
| MovementReport.PhraseInjective | analyze_midi_mvt_func.py:35-46 | different directives print different phrases |
| MovementReport.MovementPhraseSpec | analyze_midi_mvt_func.py:34-46 | "moves irregularly" exactly for steps beyond two semitones; every other phrase names its step exactly |
| MovementReport.ChordLabelsAgree | multimodal_equilibrium.py:376-382 | the chord labels agree with the robot's for steps up to two semitones; beyond that the chord code says "half" where the robot says "irregular" |
| MovementReport.Render | analyze_midi_mvt_func.py:48 | a printed line starts with the part's name and ends with ": " and the phrase |
| MovementReport.LinesUpToSpec | analyze_midi_mvt_func.py:29-49 | every note after the first gets exactly one line, and line `i` reports note `i + 1` |
| MovementReport.LinesOfSpec | analyze_midi_mvt_func.py:24-49 | a part prints one line per note but its first, a drum part none; each line reports one of the part's notes and its measure |
| MovementReport.LinesInMeasureOrder | analyze_midi_mvt_func.py:29-31 | within a part the lines come in ascending measure order |
| MovementReport.ReportUpToSpec | analyze_midi_mvt_func.py:24-49 | the report has as many lines as the non-drum parts have notes after their first |
| MovementReport.TransitionIsLine | analyze_midi_mvt_func.py:29-48 | each transition of a part is printed as a line in its measure with its movement's phrase |
| MovementReport.LineIsTransition | analyze_midi_mvt_func.py:29-48 | a line in a different measure from the line before it is the line of a transition |
| MovementReport.TransitionsAreReportedChanges | analyze_midi_mvt_func.py:29-48 | the robot's directives for a part are exactly the report's lines where the measure changes |
| MovementReport.ReportPart | analyze_midi_mvt_func.py:26-49 | the loop over one part's notes prints that part's lines |
| MovementReport.AnalyzeMidiMovements | analyze_midi_mvt_func.py:6-49 | the loop over the parts prints the whole report, part by part |
| Gestures.SquaredDistance | multimodal_equilibrium.py:55-56 | the squared distance is never negative |
| Gestures.DecideSpec | multimodal_equilibrium.py:90-95 | "Hand Raised" exactly when raised and not at the head, "Hand to Head" exactly the other way round, nothing when both or neither |
| Gestures.RaisedClearOfHead | multimodal_equilibrium.py:42-58 | a wrist more than 100 pixels above the nose, with the other wrist away from the head, is a "Hand Raised" |
| Gestures.FrameGesture | multimodal_equilibrium.py:83-95 | a frame yields nothing exactly when no person decides a gesture, and otherwise the gesture of the first person who does |
| Gestures.DesiredQuality | multimodal_equilibrium.py:333 | "Major" exactly for "Hand Raised", "Minor" for anything else |
| Gestures.RaisedIsAboveHead | robot_conductor.py:182-189 | a raised hand of `detect_gestures` is a hand above the head (track_person.py:64-68 is the same test) |
| Gestures.AboveHeadNotRaised | robot_conductor.py:182-189 | a wrist slightly above the nose is above the head without being raised |
| Gestures.ExtractLandmarks | control_camera_with_mmpose.py:40-48 | one landmark record per person, in order, from CrowdPose keypoints 12, 4 and 5 |
| Gestures.ExtractedHandAboveHead | control_camera_with_mmpose.py:52-56 | a person's hand is above their head exactly when keypoint 4 or 5 lies above keypoint 12 |
| Gestures.PanDirection | track_person.py:198-205 | a nose right of x = 960 pans right; anything else, 960 included, pans left |
| CameraUrl.BuildCgiUrlAction | multimodal_equilibrium.py:204-218 | the URL asks the camera for the lower-cased command when the camera knows it, and for "home" otherwise (demo_movements.py:77-91 is the same code) |
| CameraUrl.BuildCgiUrlIgnoresCase | multimodal_equilibrium.py:208 | spellings that differ only in case give the same URL |
| CameraUrl.BuildersAgree | control_camera.py:26-49 | with the default speeds the fixed builder agrees with the nested one on every lower-case command except focus and zoom, where it fails (same code in track_person.py:96-119, control_camera_with_mmpose.py:70-93, Archive/control_camera.py:157-180) |
| CameraUrl.FixedBuilderIsCaseSensitive | control_camera.py:33 | "UP" sends the camera home under the fixed builder and up under the nested one |
| CameraUrl.SendCameraControl | multimodal_equilibrium.py:223-228 | "success" exactly when the status is 200, "failure" otherwise (demo_movements.py:95-100 is the same code) |
| CameraUrl.SendCameraControlAlwaysSucceeds | control_camera.py:15-22 | "success" whatever the status (same in track_person.py:71-78, control_camera_with_mmpose.py:59-66, Archive/control_camera.py:146-153) |
| CameraUrl.Post | control_camera.py:54-55 | `post` fails exactly on focus and zoom commands and otherwise reports "success" (Archive/control_camera.py:185-186 is the same) |
| Camera.CommandText | robot_conductor.py:67-76 | every command has a non-empty text |
| Camera.CommandTextInjective | robot_conductor.py:67-76 | different commands have different texts |
| Camera.CommandsAreKnown | execute_one_measure.py:27-33 | every command the cue scripts send is one the camera knows; both builders ask for exactly it, and `post` never fails on it |
| Camera.Camera.Send | robot_conductor.py:67-76 | sending a command appends it to what the camera has received |
| Cues.TiltOfLabel | demo_movements.py:162-205 | a robot directive asks for a nod exactly for steps of one or two semitones, in the step's direction, one tilt per semitone |
| Cues.TiltOfChordLabel | multimodal_equilibrium.py:230-271 | a chord label asks for a nod for every non-zero move: two tilts for exactly two semitones, one otherwise |
| Cues.LevelledSpec | multimodal_equilibrium.py:230-275 | a nod with return settles the camera, tilts once per half step, once back, and never pans; "stay" and unknown labels send nothing |
| Cues.UnlevelledSpec | execute_one_measure.py:56-86 | a nod without return settles the camera, tilts once per half step, never back and never sideways |
| Cues.LevelledOf | demo_movements.py:155-205 | the four nods with return, command by command (same in Archive/execute_one_measure.py:65-115) |
| Cues.UnlevelledOf | execute_one_measure.py:63-86 | the four nods without return, command by command |
| Cues.ExecuteMovementForInstrument | multimodal_equilibrium.py:230-275 | the method sends the nod with return for the label |
| Cues.ExecuteMovementNoReturn | execute_one_measure.py:56-86 | the method sends the nod without return for the label |
| Cues.ExecuteMovement | robot_conductor.py:78-102 | the method sends the nod without return, then "home", for every label |
| MeasureCues.InstrumentOrderIsLastOnlyAtEnd | robot_conductor.py:135 | comparing with the last name is comparing with the last place |
| MeasureCues.LabelMap | robot_conductor.py:126 | the entry's movements as the texts compared, for the same names |
| MeasureCues.Lookups | robot_conductor.py:126 | `dict.get` finds a value exactly for the names present, and then their value |
| MeasureCues.CueList | demo_movements.py:122-131 | one cue per musician, each the nod for what was found |
| MeasureCues.CueListInPlace | demo_movements.py:122-131 | every musician's cue settles the camera and never pans |
| MeasureCues.SweepSettled | demo_movements.py:122-139 | a sweep of such cues settles the camera |
| MeasureCues.SweepNeverLeft | demo_movements.py:122-139 | a sweep never pans left |
| MeasureCues.SweepRights | demo_movements.py:134-139 | a sweep pans right once after each musician but the last |
| MeasureCues.OpeningSpec | demo_movements.py:111-119 | the opening pans left once, never right, and stops |
| MeasureCues.MeasureShape | demo_movements.py:111-153 | a measure begins with the opening, ends with the closing, and stops every motion at once before the closing |
| MeasureCues.MeasurePans | demo_movements.py:116-139 | a measure pans left once, and right as often as its sweep does |
| MeasureCues.MeasureSpec | demo_movements.py:111-153 | with `n` cues a measure pans left once and right `n - 1` times, so each cue gets a position of its own |
| MeasureCues.QuartetMeasureSpec | demo_movements.py:109-153 | a quartet measure pans left once and right three times, stops every motion of the sweep at once, and the closing comes last |
| MeasureCues.EntryReadIsNextMeasure | demo_movements.py:109 | the entry read for measure `m` holds the movements into measure `m + 1` (robot_conductor.py:113 reads the same index) |
| MeasureCues.DemoMeasureSpec | demo_movements.py:102-153 | nothing is sent exactly for a measure out of range; otherwise one left pan, three right pans, every motion stopped before the slam, and the camera ends at home |
| MeasureCues.SendOpening | demo_movements.py:111-119 | the method sends the opening |
| MeasureCues.SendSlam | demo_movements.py:141-153 | the method sends the full slam |
| MeasureCues.SendCutSlam | Archive/execute_one_measure.py:54-62 | the method sends the slam that stops after "down" |
| MeasureCues.VisitLevelled | demo_movements.py:122-139 | one visit sends the musician's cue with return and the pan to the next musician |
| MeasureCues.SweepLevelled | demo_movements.py:122-139 | the loop over the quartet sends the sweep |
| MeasureCues.SimpleExecuteOneMeasure | demo_movements.py:102-153 | the method sends exactly the demo's trace for the compiled score |
| MeasureCues.ArchiveMeasureSpec | Archive/execute_one_measure.py:20-62 | the Archive version cues the quartet as the demo does, but its slam leaves the camera moving down |
| MeasureCues.ArchiveExecuteOneMeasure | Archive/execute_one_measure.py:9-62 | the method sends exactly the Archive trace for the instruction list it is given |
| MeasureCues.OneMeasureFault | execute_one_measure.py:18-24 | the script returns quietly exactly for a measure out of range of the dictionary's size |
| MeasureCues.ExecuteOneMeasureAsWritten | execute_one_measure.py:9-24 | as written the script sends nothing and ends with the fault its dictionary gives |
| MeasureCues.AsWrittenFailsOnFirstMeasure | execute_one_measure.py:18-24 | any score with a non-drum note fails on measure 1 with a `KeyError` |
| MeasureCues.AsWrittenFailsOnOneNote | execute_one_measure.py:18-24 | a score of one violin note fails on measure 1 |
| MeasureCues.OneMeasureSpec | execute_one_measure.py:20-53 | nothing is sent exactly out of range; otherwise one left pan, three right pans, every motion stopped at once, no slam |
| MeasureCues.VisitUnlevelled | execute_one_measure.py:36-53 | one visit sends the musician's nod without return and the pan to the next musician |
| MeasureCues.ExecuteOneMeasure | execute_one_measure.py:9-53 | reading the instruction list, the method sends exactly that trace |
| MeasureCues.ChordMovements | multimodal_equilibrium.py:288 | `zip` pairs each note with its movement, up to the shorter list |
| MeasureCues.ChordCueSpec | multimodal_equilibrium.py:277-313 | with a movement for every note, one left pan, `len(chord) - 1` right pans, every motion stopped before the slam, and the camera ends at home |
| MeasureCues.VisitNote | multimodal_equilibrium.py:288-299 | one note sends its nod with return and the pan to the next note |
| MeasureCues.ExecuteChordMovements | multimodal_equilibrium.py:277-313 | the method sends exactly the chord's trace |
| MeasureCues.PanCmd | robot_conductor.py:165-170 | the pan toward a musician is left or right |
| MeasureCues.PanCmdIsPanDirection | robot_conductor.py:165-170 | it is the direction the tracking camera picks for the same nose |
| MeasureCues.VisitSettled | robot_conductor.py:117-142 | a musician's visit settles the camera |
| MeasureCues.VisitsUpToSettled | robot_conductor.py:117-142 | the visits settle the camera, and musicians without a position are skipped |
| MeasureCues.ConductorTraceSpec | robot_conductor.py:114-152 | the measure starts at home and every motion is stopped until the slam, which leaves the camera moving down; when no name of the quartet is a key of the positions, only home and the slam are sent |
| MeasureCues.ConductorMeasureSpec | robot_conductor.py:104-152 | nothing is sent exactly out of range; otherwise the trace just described |
| MeasureCues.ConductorVisit | robot_conductor.py:117-142 | one visit sends the pan to the musician, their nod and "home", and the pan to the next musician with a position |
| MeasureCues.ConductorExecuteOneMeasure | robot_conductor.py:104-152 | the method sends exactly the conductor's trace for the compiled score and positions |

## Left out

- Pauses: every `time.sleep` is dropped, so a trace records only the commands and their order.
- HTTP: `requests.get` is not modelled. The response status is a parameter of the status mapping. `Camera.Camera.Send` records the command, and its response is not modelled.
- Camera.Camera.Send: the URL that robot_conductor.py:67-76 sends (the command appended to the endpoint, no speeds) is not built; the URL builders are modelled in `CameraUrl`.
- Pose estimation and video: the pose models, frame capture, drawing and reconnection loops are left out. `detect_gestures` works on keypoints given as input, and `Gestures.FrameGesture` models one frame of `process_video_stream`. The three-second warm-up and the loop over frames are not modelled.
- Gestures.SquaredDistance: the `np.linalg.norm` test is compared through squares, which is exact over reals. Floating-point rounding is not modelled anywhere: coordinates and frequencies are exact reals.
- DetectedNotes.DigitRun: `\d` is taken as the ASCII digits 0-9; Python also accepts other Unicode digits.
- Notes.NoteToMidi: the octave is an ASCII digit 0-9. Python's `int(note[-1])` (multimodal_equilibrium.py:137) accepts any Unicode decimal digit, and so does the `(\d)` of `parse_note` (multimodal_equilibrium.py:108), which `Notes.ParseNote` also reads as ASCII only.
- Text.Lower: only ASCII letters are lower-cased.
- MIDI parsing: `pretty_midi` is not modelled. A score is given as parts of notes, with onsets as whole milliseconds.
- Score.MeasureOf: onsets are whole milliseconds, so `int(start / 2 + 1)` and `int(start / 0.5 / 4) + 1` become integer division; sub-millisecond onsets are not modelled.
- Pan timing: `time_for_turn_by_proportion_of_range` is only modelled for the direction it picks (`MeasureCues.PanCmd`). The move time is floating-point arithmetic feeding a pause.
- Musician positions: `get_musician_positions` is not modelled. The positions are a parameter, mapping a musician's name to their nose's x coordinate. As the source wires it, `get_musician_positions` keys the map on a bounding-box coordinate, `person['bbox'][0][0]` (robot_conductor.py:204), not on a name. So no name of the quartet is ever a key, and robot_conductor.py's `execute_one_measure` sends only home and the cut slam. That is the no-position case of `MeasureCues.ConductorTraceSpec`.
- The socket client and the `full_data` buffer of `main` in multimodal_equilibrium.py are not modelled; the label mapping of `main` is.
- The pitch-detection client in the ImproVision Equilibrium directory is not part of this model.
- Printing: the messages the scripts print are not modelled, except the report lines of `analyze_midi_movements`.
- Module-level example calls, `__main__` blocks and the tracking loop of track_person.py are left out. That loop's choice of direction is `Gestures.PanDirection`, and the pan with its stop is not modelled.
- MeasureCues.ArchiveExecuteOneMeasure: Archive/robot_instructions.py is not part of this model, so the instruction list is a parameter.
- the_next_right_thing.py and improv_harmony.py hold no code.

## Findings

| source | as written | input that shows it | evidently intended | confidence | as-written member | corrected member |
|---|---|---|---|---|---|---|
| execute_one_measure.py:18-24 | `robot_instructions` is imported from robot_instructions.py and returns a dictionary keyed "Measure N"; the script indexes it with the integer `measure_number - 1` | a score with one "Violin I" note at onset 0, measure 1: the dictionary is `{"Measure 1": {}}`, so measure 1 is in range and the lookup of key 0 raises `KeyError` before any command is sent | the list of per-measure entries built by the `robot_instructions` of robot_conductor.py, indexed as the other cue scripts do | not executed | MeasureCues.AsWrittenFailsOnOneNote | MeasureCues.OneMeasureSpec |
