# Ear-training for the B-flat horn: a verified model

The application is a browser ear-training tool for horn players. It has four parts, all modelled here:

- An **interval exercise**. The user hears two notes, picks the interval's name among four buttons, or sings both notes to be scored by pitch detection.
- **Scales**, played up and down from a chosen tonic and drawn on a staff.
- **Arpeggios**, played up and down from a chosen tonic.
- A **harmonics view**. It plays the natural harmonic series of each valve combination of a B-flat horn, alone or as a progression through the combinations, and draws it on a staff.

The model covers the discrete logic under the audio and drawing calls. This README and the Dafny comments keep the source's own Spanish names where they help the reader, e.g. `mezclarArray` (the shuffle) and `combosValvulas` (the valve table).

Five modules:

- `Wrappers` has `Option` and `IndexOf`, the `indexOf`/`findIndex` of the source, which returns -1 when nothing matches.
- `Pitch` covers the shared note arithmetic:
  - the twelve sharp note names and their reference frequencies;
  - transposition with `getNoteName`;
  - the split of a semitone offset into pitch class and octave, using JavaScript's truncating `%`;
  - the staff keys `Name/octave` and their decimal octave text, with a parser proving that the text round-trips;
  - the key-signature respelling `fixKeySignature`.
- `Scales` covers the step tables and the arpeggio offsets, the ascending and descending offsets, the staff keys of `generateKeys` and `renderScaleStaff`, and the scale player. The player is a class whose pending timers are a list of handles.
- `Intervals` covers:
  - the tier catalogs;
  - `getClosestNoteName` as a loop;
  - the Fisher–Yates shuffle on an array, with the random draws as a parameter;
  - the multiple-choice options;
  - the scoring of a sung attempt;
  - the session class with its four counters and its current exercise.
- `Harmonics` covers:
  - the harmonic series (over exact reals);
  - the combinations ordered by fundamental and the "arriba"/"abajo" progressions;
  - the concatenated series;
  - the staff keys and key signature;
  - the harmonics player class.

Frequencies of scale and arpeggio notes are modelled as integer semitone offsets above the root. The staff keys of the harmonics view are modelled from the rounded semitone offset above C4.

## Model

| member | source | states |
|---|---|---|
| Wrappers.IndexOf | js/script.js:155-156 | -1 exactly when the element is absent; otherwise the index of its first occurrence |
| Wrappers.IndexOfDistinct | js/script.js:155 | in a list without repeats, the index of the k-th element is k |
| Pitch.NoteNamesFacts | js/script.js:154 | there are twelve note names, all distinct, none containing '/' |
| Pitch.NoteIndex | js/script.js:155 | the index is -1 or one of the twelve positions of the sharp alphabet |
| Pitch.NoteNameShape | js/script.js:154 | a string is one of the twelve names exactly when it is a natural letter C to B, or one of C, D, F, G, A followed by '#' |
| Pitch.NoteIndexSpec | js/script.js:154-155 | -1 exactly for a string that is not one of the twelve names; otherwise the name sits at that index |
| Pitch.NoteIndexOfName | js/script.js:154-155 | looking up the k-th name gives k back |
| Pitch.ReferenceNotesFacts | js/script.js:45-58 | the reference table lists the twelve names in order, each with a positive frequency |
| Pitch.ReferenceFrequency | js/script.js:484 | a known note gets its table frequency; anything else falls back to 261.63 Hz |
| Pitch.GetNoteName | js/script.js:153-159 | an unknown base gives ""; for a known base the result's index is (base index + semitones) mod 12 |
| Pitch.GetNoteNameSpec | js/script.js:153-159 | an unknown base gives ""; a known base gives the name whose index is (base index + semitones) mod 12 |
| Pitch.TransposeExamples | js/script.js:153-159 | C up 7 is G, B up 1 is C, an unknown name gives "" |
| Pitch.TransposeOctave | js/script.js:157 | transposing by 12 more semitones gives the same name |
| Pitch.TransposeCompose | js/script.js:153-159 | for any base, known or not, transposing by s then by t equals transposing by s + t |
| Pitch.TransposeWhole | js/script.js:157 | transposing by any whole number of octaves gives the base name back |
| Pitch.TransposeBack | js/script.js:157 | transposing by s and then by any t with s + t a whole number of octaves returns the base name |
| Pitch.SameIndexSameName | js/script.js:154-155 | two note names with the same index are the same name |
| Pitch.JsRem12 | js/armonicos.js:78 | JavaScript's `% 12`: congruent to its argument, below 12 in magnitude, with the sign of the dividend |
| Pitch.PitchClass | js/armonicos.js:78 | `((s % 12) + 12) % 12` lies in 0..11 and is s modulo 12 |
| Pitch.Octave | js/armonicos.js:77 | `4 + floor(s / 12)`: s lies in the twelve semitones of that octave |
| Pitch.OffsetSplit | js/armonicos.js:76-79 | 12 * (octave - 4) + pitch class == s for every integer offset |
| Pitch.NatTextRoundTrip | js/armonicos.js:79 | the decimal text of a natural number parses back to it |
| Pitch.IntTextRoundTrip | js/armonicos.js:79 | the decimal text of an integer octave, negative included, parses back to it |
| Pitch.KeyAt | js/script.js:173-175 | the key for a semitone offset names that offset: pitch class and octave recombine to it |
| Pitch.NameHasNoSlash | js/script.js:154 | no name of the sharp alphabet contains a slash |
| Pitch.KeyText | js/armonicos.js:79 | a note key is written "name/octave", as also at js/script.js line 175; KeyTextRoundTrip states that it reads back to its offset |
| Pitch.BeforeSlash | js/script.js:164 | `split("/")[0]`, also used at js/script.js line 622 and js/armonicos.js line 111: the longest prefix without a slash; a slash follows it unless it is the whole text |
| Pitch.ParseKeyText | js/armonicos.js:79 | "name/octave" reads back as 12 * (octave - 4) + the name's index |
| Pitch.SlashAfterName | js/armonicos.js:111 | the first '/' of "name/rest" is the one right after the name |
| Pitch.KeyTextRoundTrip | js/armonicos.js:76-80 | the text "Name/octave" of any note key reads back as 12 * (octave - 4) + pitch class |
| Pitch.FreqToNote | js/armonicos.js:73-80 | reading the key text "Name/octave" back gives the semitone offset it was made from |
| Pitch.FreqToNoteInjective | js/armonicos.js:73-80 | two different offsets never get the same key text |
| Pitch.FixKeySignature | js/armonicos.js:92-102 | only the six listed keys are respelt; the respelling keeps the pitch class; every sharp note name becomes a standard key signature |
| Pitch.SpellingOfName | js/script.js:154 | the pitch class read from a note name's spelling is its index among the twelve names |
| Pitch.FixKeySignatureIdempotent | js/armonicos.js:92-102 | respelling twice is the same as respelling once |
| Scales.ScaleSteps | js/script.js:434-451 | the pentatonic table has 5 steps and every other 7; "menor" gets the natural minor and an unknown kind the major steps |
| Scales.ScaleStepsSum | js/script.js:434-451 | every step table, the fallback included, spans exactly one octave: its steps sum to 12 |
| Scales.ScaleStepsPositive | js/script.js:434-451 | every step of every table is at least one semitone |
| Scales.ArpeggioOffsets | js/script.js:550-559 | the three known arpeggios start at 0 and rise through four notes, major and minor ending on 12; any other kind is empty |
| Scales.SumAppend | js/script.js:494-495 | the running total after one more step adds that step |
| Scales.Reverse | js/script.js:515 | `.reverse()`, also used at js/armonicos.js line 228: same length; ReverseAt states element k is element len - 1 - k |
| Scales.ReverseAt | js/script.js:517 | element k of a reversed list is element len - 1 - k of the list |
| Scales.Mirror | js/script.js:517 | `slice(0, length - 1).reverse()`: one element fewer; MirrorAt states it element by element |
| Scales.MirrorAt | js/script.js:517 | the way back down is the list without its top, read backwards |
| Scales.Ascending | js/script.js:485-503 | the root and then the running total after each step: one more offset than steps; its meaning is stated by AscendingSteps |
| Scales.AscendingSteps | js/script.js:485-503 | the ascending offsets start at 0, end at the sum of the steps, and consecutive offsets differ by the step between them |
| Scales.AscendingIncreasing | js/script.js:494-497 | with positive steps the ascending offsets rise strictly |
| Scales.UpDownShape | js/script.js:485-518 | an ascent followed by the mirrored ascent of as many steps starts and ends at 0 and reaches the sum of the steps in the middle |
| Scales.DescentSteps | js/script.js:476-481 | `secDesc`: the natural-minor steps for the melodic minor, the scale's own otherwise; used by Descending and DescentKeys |
| Scales.Descending | js/script.js:505-518 | the way down: the running totals of the descent steps without the top one, reversed; DescendingTotals computes it and ScaleShape states its shape |
| Scales.ScaleOffsets | js/script.js:485-530 | every offset a performance plays, up and then down; ScaleShape and ScalePalindrome state what it is |
| Scales.ScaleShape | js/script.js:485-518 | the ascent has len(steps)+1 notes and the descent len(steps); the scale runs from 0 up to the octave and back to 0 |
| Scales.MirrorPalindrome | js/script.js:587 | a list followed by its way back down reads the same both ways |
| Scales.ScalePalindrome | js/script.js:517 | every scale except the melodic minor is a palindrome |
| Scales.MelodicDescent | js/script.js:506-515 | the melodic minor climbs 0,2,3,5,7,9,11,12 and descends 10,8,7,5,3,2,0, which is not its ascent mirrored |
| Scales.RunningTotals | js/script.js:507-513 | the accumulator loop yields the root and then the running total after each step |
| Scales.DescendingTotals | js/script.js:505-518 | the descending offsets are the natural-minor ascent mirrored for the melodic minor and the ascent itself mirrored for every other kind |
| Scales.ArpeggioCues | js/script.js:575-593 | note k of the arpeggio is played 1000 * k ms after the start, up and then back down without the top |
| Scales.ArpeggioShape | js/script.js:578-593 | a known arpeggio plays seven notes from the root back to the root, a palindrome; an unknown kind plays nothing |
| Scales.Display | js/script.js:163 | the tonic as written always carries an octave after a slash ("/4" appended when it has none) |
| Scales.DisplayName | js/script.js:163-164 | appending "/4" does not change the name before the slash |
| Scales.TonicIndex | js/script.js:164-166 | the base index is a pitch class below 12; TonicIndexName says which |
| Scales.TonicIndexName | js/script.js:164-167 | the base index is the tonic's index among the twelve names, or 0 for an unknown tonic |
| Scales.StepKeys | js/script.js:170-176 | key i names the offset base index + running total after step i |
| Scales.GenerateKeys | js/script.js:162-178 | len(steps)+1 keys; the first is the tonic as written (with "/4" when no octave is given); key i names base index + ascending offset i |
| Scales.TonicSignature | js/script.js:620-622 | the staff's key signature keeps the tonic's pitch class, is standard for every sharp tonic name, and is the tonic's own name unless that is one of the six respelt keys |
| Scales.DescentKeys | js/script.js:627-633 | the descent keys are generated from the natural-minor steps for the melodic minor and reuse the ascent keys otherwise |
| Scales.MirrorJoin | js/script.js:632-634 | joining the ascent keys with the descent keys mirrored names the joined offsets and begins and ends on the tonic |
| Scales.ScaleStaffKeys | js/script.js:618-634 | the staff shows one key per scale note; the first and last are the tonic as written; every other key names tonic index + scale offset |
| Scales.ScalePlayer.constructor | js/script.js:111-113 | nothing is playing and no timer is pending |
| Scales.ScalePlayer.Stop | js/script.js:700-705 | all pending timers are cancelled and the playing flag is cleared |
| Scales.ScalePlayer.EndTimerFires | js/script.js:534-536 | the end-of-scale timer clears the flag and touches nothing else |
| Scales.ScalePlayer.PushTimers | js/script.js:520-526 | appends one timer per offset with fresh handles, 900 ms apart from the given start, keeping the earlier timers |
| Scales.ScalePlayer.PushClimb | js/script.js:494-503 | schedules ascending note k + 1 at 900 * (k + 1) ms and returns the ascending offsets |
| Scales.ScalePlayer.ScheduleScale | js/script.js:491-527 | from an empty list, every scale note after the root gets a timer with a fresh handle, note k + 1 at 900 * (k + 1) ms, up and then down |
| Scales.ScalePlayer.Play | js/script.js:461-537 | does nothing while a scale plays; otherwise the root sounds at once, every later scale note gets a timer 900 ms after the previous one, and no earlier note timer remains pending |
| Intervals.TierCatalog | js/script.js:184-189 | "facil" gets the easy catalog, "dificil" the hard one and every other tier the medium one; each catalog has 5 to 16 intervals of distinct sizes between 1 and 16 semitones; every tier holds the easy intervals and every tier but "facil" (unknown ones included) holds the medium ones |
| Intervals.CatalogSizes | js/script.js:61-101 | the catalogs hold 5, 12 and 16 intervals; the medium and hard ones list sizes 1, 2, 3, ... in order; the easy sizes are distinct |
| Intervals.TiersNested | js/script.js:61-101 | easy ⊆ medium ⊆ hard |
| Intervals.ClosestUnique | js/script.js:140-151 | at most one reference note is nearest with no earlier note as near |
| Intervals.ReferenceIsClosest | js/script.js:140-151 | a reference frequency is closest to its own note |
| Intervals.ClosestNoteName | js/script.js:140-151 | returns a note name whose reference frequency is nearest, the first one on a tie |
| Intervals.Swap | js/script.js:34 | the destructuring swap: same length; SwapPermutes states it keeps the multiset |
| Intervals.SwapPermutes | js/script.js:34 | a swap rearranges the elements |
| Intervals.SwapKeepsDistinct | js/script.js:34 | a swap keeps the interval sizes distinct |
| Intervals.ShuffleDown | js/script.js:32-35 | the swaps of the loop from position n - 1 down to 1, each with the drawn partner; keeps the length; ShuffleDownPermutes and ShuffleDownDistinct state what it keeps |
| Intervals.Shuffled | js/script.js:31-37 | `mezclarArray` on a copy: the whole descending swap loop; keeps the length; ShuffledPermutes and ShuffledDistinct state what it keeps |
| Intervals.ShuffleDownPermutes | js/script.js:32-35 | the descending swap loop rearranges the elements |
| Intervals.ShuffleDownDistinct | js/script.js:32-35 | the descending swap loop keeps interval sizes distinct |
| Intervals.ShuffledPermutes | js/script.js:31-37 | a shuffle is a permutation: same multiset and same members |
| Intervals.ShuffledDistinct | js/script.js:31-37 | a shuffle of intervals with distinct sizes keeps them distinct |
| Intervals.Shuffle | js/script.js:31-37 | the array ends as the shuffle of its old contents under the given draws, each draw j in 0..i |
| Intervals.Others | js/script.js:227 | keeps exactly the catalog intervals whose size differs from the correct one |
| Intervals.TailDistinct | js/script.js:227 | the tail of a list of distinct sizes has distinct sizes, none equal to the head's |
| Intervals.OthersDistinct | js/script.js:227 | the remaining intervals have distinct sizes |
| Intervals.OthersDropsOne | js/script.js:227 | when the correct size occurs in the catalog, exactly one interval is dropped |
| Intervals.OthersKeepsAll | js/script.js:227 | when the correct size does not occur, nothing is dropped |
| Intervals.Options | js/script.js:222-230 | the buttons: the correct interval and the first min(3, others) shuffled intervals of another size, shuffled again; OptionsSound and FourOptions state what they are |
| Intervals.OptionsBeforeShuffle | js/script.js:224-228 | before the final shuffle the options are the correct interval and up to three other catalog intervals, of other sizes and no two of the same size |
| Intervals.OptionsSound | js/script.js:222-230 | the options are the correct interval plus min(3, remaining) distractors from the catalog with a different size, all sizes distinct, and only the correct option has the correct size |
| Intervals.FourOptions | js/script.js:225-228 | for an interval of its tier's catalog there are always three distractors, so four buttons |
| Intervals.Missing | js/script.js:378-390 | `!pitch`: no detection or 0 Hz; HitExactly states that a missing pitch never scores a hit |
| Intervals.SungOutcome | js/script.js:372-419 | the verdict of a sung attempt: a miss when a pitch is missing, unscored without an exercise or when its size is 0 semitones, a hit within half a semitone, a miss otherwise; HitExactly states both directions |
| Intervals.HitExactly | js/script.js:377-419 | a sung attempt is a hit iff both notes were heard, an exercise is in progress, and the detected size is within 0.5 semitone; it is unscored iff both were heard and there is no exercise (or one of size 0, which the source treats as none) |
| Intervals.DescendingAttemptMisses | js/script.js:399-417 | a detected interval of zero or fewer semitones never scores a hit, whatever the exercise |
| Intervals.ToleranceOverlap | js/script.js:408-409 | a detected size within tolerance of two different interval sizes is exactly halfway between adjacent ones |
| Intervals.PickOptions | js/script.js:222-228 | the shuffle of the filtered catalog in a fresh array, cut to three, and the shuffle of the correct interval with those produce exactly `Options` |
| Intervals.BaseRange | js/script.js:202-204 | the base-frequency range: [110, 800) Hz for "dificil", [220, 700) Hz otherwise; DrawBase states the draw lies in it |
| Intervals.DrawBase | js/script.js:196-207 | "facil" takes the drawn reference note and its frequency; other tiers draw a frequency in [110, 800) for "dificil" or [220, 700) otherwise and name it by its closest reference note, always one of the twelve names |
| Intervals.IntervalSession.constructor | js/script.js:104-108 | no exercise and all four counters at zero |
| Intervals.IntervalSession.NewExercise | js/script.js:191-212 | the exercise is the drawn catalog interval; "facil" draws a reference note, other tiers a frequency in the tier's range named by its closest note; no counter changes |
| Intervals.IntervalSession.ShowOptions | js/script.js:222-238 | the buttons shown are exactly the options for the current exercise |
| Intervals.IntervalSession.CheckAnswer | js/script.js:240-254 | a same-size answer adds one hit and a different-size one adds one miss, never both; the exercise is consumed; the sung counters do not change |
| Intervals.IntervalSession.EvaluateSung | js/script.js:372-423 | adds one sung hit or one sung miss as the scoring says, or nothing when unscored; the exercise and the choice counters do not change |
| Intervals.IntervalSession.ChangeTier | js/script.js:710-714 | changing the tier discards the exercise and keeps every counter |
| Harmonics.HarmonicCount | js/armonicos.js:25-29 | "facil" plays 4 harmonics, "medio" 6 and "dificil" 8 |
| Harmonics.Fundamental | js/armonicos.js:203 | `combosValvulas[position]`: the fundamental the table lists for that combination |
| Harmonics.Series | js/armonicos.js:61-67 | the first n harmonics f, 2f, 3f, ...; HarmonicSeries, SeriesIncreasing, SeriesOctave and SeriesPrefix state what it is |
| Harmonics.HarmonicSeries | js/armonicos.js:61-67 | the series has max(n, 0) elements and element k is fundamental * (k + 1) |
| Harmonics.SeriesSnoc | js/armonicos.js:63-65 | each loop round appends fundamental * i |
| Harmonics.SeriesIncreasing | js/armonicos.js:61-67 | with a positive fundamental the series rises strictly |
| Harmonics.SeriesOctave | js/armonicos.js:61-67 | harmonic 2(k+1) is twice harmonic k+1 |
| Harmonics.SeriesPrefix | js/armonicos.js:61-67 | a lower level plays the first harmonics of a higher level |
| Harmonics.ReversePermutes | js/armonicos.js:228 | reversing a list rearranges it |
| Harmonics.SortedPositionsReverse | js/armonicos.js:213-214 | the combinations sorted by fundamental are the valve table read backwards |
| Harmonics.SortedPositionsAscending | js/armonicos.js:213-214 | the sorted order rises strictly by fundamental |
| Harmonics.SortedPositionsPermutes | js/armonicos.js:213-214 | the sorted order is a rearrangement of the valve table |
| Harmonics.SortedHead | js/armonicos.js:213-214 | two strictly ascending arrangements of the same entries start with the same entry |
| Harmonics.MultisetTail | js/armonicos.js:213-214 | removing a shared first entry leaves equal multisets |
| Harmonics.SortedUnique | js/armonicos.js:213-214 | any two strictly ascending arrangements of the same entries are equal, so the sort has a single outcome |
| Harmonics.PositionIndex | js/armonicos.js:218-219 | the start index is a valid index into the sorted order: the position's own place there, or 0 for an unknown position |
| Harmonics.Progression | js/armonicos.js:217-229 | "arriba" plays the sorted order from the start index on, any other mode the sorted order up to it, reversed; ProgressionStart, ProgressionUp, ProgressionDown and the PlaysAll lemmas state what it is |
| Harmonics.SortedNames | js/armonicos.js:218 | a name occurs in the sorted order exactly when it is a combination of the table |
| Harmonics.ProgressionStart | js/armonicos.js:217-229 | a progression holds 1 to 8 combinations and starts at the chosen one, or at the lowest when the position is unknown |
| Harmonics.SortedInTable | js/armonicos.js:213-214 | every entry of the sorted order is an entry of the valve table |
| Harmonics.ProgressionInTable | js/armonicos.js:222-229 | a progression plays only combinations of the valve table |
| Harmonics.ProgressionUp | js/armonicos.js:223-225 | "arriba" rises strictly by fundamental and ends at the highest |
| Harmonics.ProgressionUpPlaysAll | js/armonicos.js:223-225 | "arriba" plays exactly the combinations of the table whose fundamental is at least the first one's |
| Harmonics.ProgressionDown | js/armonicos.js:226-229 | any other mode, read backwards, is the sorted order up to the start; it falls strictly and ends at the lowest |
| Harmonics.ProgressionDownPlaysAll | js/armonicos.js:226-229 | any other mode plays exactly the combinations of the table whose fundamental is at most the first one's |
| Harmonics.ReverseInvolutive | js/armonicos.js:228 | reversing twice gives the list back |
| Harmonics.MegaSeries | js/armonicos.js:233-249 | the series of each combination of a progression, one after the other; MegaSeriesLength and MegaSeriesAt state what it is |
| Harmonics.MegaSeriesLength | js/armonicos.js:233-249 | the concatenated series has (positions played) * (harmonics per level) notes |
| Harmonics.MegaSeriesAt | js/armonicos.js:233-249 | note i * n + k of the concatenated series is harmonic k + 1 of the i-th combination played |
| Harmonics.ConcatenateSeries | js/armonicos.js:233-249 | the loop concatenates the series of every combination in play order |
| Harmonics.SeriesKeys | js/armonicos.js:83-85 | one key per frequency |
| Harmonics.SeriesKeysRoundTrip | js/armonicos.js:83-85 | every key reads back to the offset it was made from |
| Harmonics.StaffSignature | js/armonicos.js:108-111 | the signature drawn: the first key's name, respelt by fixKeySignature; StaffSignatureSound states what it is |
| Harmonics.StaffSignatureSound | js/armonicos.js:108-112 | the signature drawn is the first note's sharp name, respelt only if it is one of the six; so it is a standard key whose pitch class is the first note's |
| Harmonics.HarmonicsPlayer.constructor | js/armonicos.js:32-33 | not in progress and no timer pending |
| Harmonics.HarmonicsPlayer.Stop | js/armonicos.js:150-154 | all pending timers are cancelled and the flag is cleared |
| Harmonics.HarmonicsPlayer.FinishFires | js/armonicos.js:172-174 | the end-of-series timer clears the flag and touches nothing else |
| Harmonics.HarmonicsPlayer.PlaySeries | js/armonicos.js:157-176 | earlier timers are all cancelled; exactly len(s) + 1 fresh timers are pending, note k at 1000 * k ms and the end marker at 1000 * len(s) ms; the flag is set |
| Harmonics.HarmonicsPlayer.Start | js/armonicos.js:195-260 | "ninguno" plays and draws the chosen combination's series; a progression plays the concatenated series of its combinations and draws the last one's |
| Harmonics.HarmonicsPlayer.PressStart | js/armonicos.js:299-303 | the button does nothing while a series is in progress and starts one otherwise |
| Harmonics.HarmonicsPlayer.RefreshView | js/armonicos.js:276-285 | playback stops and the chosen combination's series is drawn |

## Left out

- Audio output (`reproducirNota`, `reproducirNotaArmonicos`) and the Web Audio timing are external I/O. Only which note each timer plays, and when, is modelled.
- Pitch detection (`startPitchDetection`, `autoCorrelate`) is floating-point signal processing over microphone buffers. Its result enters as an optional real. The detected interval `12 * log2(p2 / p1)` is an input of `EvaluateSung`.
- `Math.pow` and `Math.log2` are left out:
  - scale and arpeggio notes are semitone offsets above the root (`calcularFrecuencia` is not modelled);
  - the harmonics staff starts from the rounded semitone offset above C4;
  - the exercise's second frequency (`segundaFrecuencia`) is not stored.
- `Math.random` is replaced by parameters: the shuffle draws, the catalog index, the reference-note index and a real in [0, 1) for the base frequency.
- Real timers are out of scope: `setTimeout`, `clearTimeout`, their firing order and the float arithmetic of the 0.9-second step are modelled as a logical list of pending timers with increasing handles and millisecond offsets.
- The arpeggio's own timers and its `isArpeggioPlaying` flag are left out. The source never records those timers, so they cannot be cancelled. `ArpeggioCues` models only their schedule.
- VexFlow drawing, the DOM, tab switching and event wiring are UI. Staff keys are modelled as (pitch class, octave) pairs or as the tonic's written text, and the drawing itself is not.
- Pitch.GetNoteName and Pitch.GetNoteNameSpec: the semitone count is a natural number. JavaScript's `%` on a negative sum would give a negative index and `undefined`, and no caller passes a negative count.
- Lookups such as `notasBase[name]` or `mapping[key]` also find inherited object properties (for instance "constructor"). The model treats only the listed keys as present.
- Harmonics.HarmonicsPlayer.Start requires a known level and, in mode "ninguno", a known position. With an unknown level the source draws an empty series and fails at `claves[0]`; with an unknown position it draws the key "undefined/NaN" and, if the drawing does not fail, plays `NaN` frequencies.
- Harmonics.HarmonicsPlayer.PressStart inherits the same requirement from Start.
- Harmonics.HarmonicsPlayer.RefreshView requires a known level and position for the same reasons.
- Scales.ScalePlayer.Play: the end-of-scale timer that clears `isScalePlaying` is never added to `scaleTimeouts`, so it is never tracked and survives Stop. A scale stopped and started again can have its flag cleared by the first scale's timer while the second still sounds. The model represents that timer only as `EndTimerFires`, which may happen at any moment; Play promises nothing about it.
- Frequencies are exact reals, not IEEE doubles. The harmonic series, the reference table and the distances compared by `ClosestNoteName` are computed without rounding, so ties and near-ties between two reference notes may fall differently than in the browser.
- Intervals.IntervalSession.ShowOptions and Intervals.IntervalSession.CheckAnswer require an exercise in progress. The source dereferences `currentInterval` and throws when there is none.
- `Array.prototype.sort` in `iniciarArmonicos` is modelled by its result `Harmonics.SortedPositions`. `SortedUnique` shows that any sort of the table by fundamental gives that result.
- `elegirNotaBaseFacil` and `reproducirIntervaloActual` appear only as the reference-note draw inside `NewExercise`. The replay is audio only.
