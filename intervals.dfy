/** The interval exercises: the three tier catalogs, the nearest reference note of a frequency,
    the Fisher-Yates shuffle, the multiple-choice options and the session counters of the
    multiple-choice and the sung (auto-evaluated) exercises. */
module Intervals {
  import opened Wrappers
  import opened Pitch

  /** An interval of the catalogs: its Spanish name and its size in semitones. */
  datatype Interval = Interval(name: string, semitones: nat)

  const Easy: seq<Interval> := [
    Interval("Segunda menor", 1), Interval("Segunda mayor", 2), Interval("Cuarta justa", 5),
    Interval("Quinta justa", 7), Interval("Octava", 12)]

  const Medium: seq<Interval> := [
    Interval("Segunda menor", 1), Interval("Segunda mayor", 2), Interval("Tercera menor", 3),
    Interval("Tercera mayor", 4), Interval("Cuarta justa", 5), Interval("Tritono", 6),
    Interval("Quinta justa", 7), Interval("Sexta menor", 8), Interval("Sexta mayor", 9),
    Interval("Séptima menor", 10), Interval("Séptima mayor", 11), Interval("Octava", 12)]

  const Hard: seq<Interval> := Medium + [
    Interval("Novena menor", 13), Interval("Novena mayor", 14), Interval("Décima menor", 15),
    Interval("Décima mayor", 16)]

  /** No two entries of `s` have the same number of semitones. */
  predicate DistinctSemitones(s: seq<Interval>)
  {
    forall i, j :: 0 <= i < |s| && 0 <= j < |s| && i != j ==> s[i].semitones != s[j].semitones
  }

  /** The medium and hard catalogs list every size from one semitone up, in order. */
  lemma CatalogSizes()
    ensures |Easy| == 5 && |Medium| == 12 && |Hard| == 16
    ensures forall k :: 0 <= k < |Medium| ==> Medium[k].semitones == k + 1
    ensures forall k :: 0 <= k < |Hard| ==> Hard[k].semitones == k + 1
    ensures DistinctSemitones(Easy)
  {
    MediumSizes();
    HardSizes();
    EasyDistinct();
  }

  lemma EasyDistinct()
    ensures |Easy| == 5 && DistinctSemitones(Easy)
  {
    assert Easy[0].semitones == 1 && Easy[1].semitones == 2 && Easy[2].semitones == 5;
    assert Easy[3].semitones == 7 && Easy[4].semitones == 12;
  }

  lemma MediumSizes()
    ensures |Medium| == 12 && forall k :: 0 <= k < |Medium| ==> Medium[k].semitones == k + 1
  {
  }

  lemma HardSizes()
    ensures |Hard| == 16 && forall k :: 0 <= k < |Hard| ==> Hard[k].semitones == k + 1
  {
    MediumSizes();
    forall k | 0 <= k < |Hard|
      ensures Hard[k].semitones == k + 1
    {
      if k < 12 {
        assert Hard[k] == Medium[k];
      }
    }
  }

  /** The tiers are nested: what an easier tier asks, every harder tier asks too. */
  lemma TiersNested()
    ensures forall x :: x in Easy ==> x in Medium
    ensures forall x :: x in Medium ==> x in Hard
  {
    assert Easy == [Medium[0], Medium[1], Medium[4], Medium[6], Medium[11]];
    assert Hard[..12] == Medium;
  }

  /** `obtenerIntervalosNivel`: the catalog of a difficulty tier; any tier other than "facil"
      and "dificil" gets the medium one. */
  function TierCatalog(tier: string): (r: seq<Interval>)
    ensures 5 <= |r| <= 16
    ensures DistinctSemitones(r)
    ensures forall k :: 0 <= k < |r| ==> 1 <= r[k].semitones <= 16
    ensures forall x :: x in Easy ==> x in r
    ensures tier != "facil" ==> forall x :: x in Medium ==> x in r
    ensures tier == "facil" ==> r == Easy
    ensures tier == "dificil" ==> r == Hard
    ensures tier != "facil" && tier != "dificil" ==> r == Medium
  {
    CatalogSizes();
    TiersNested();
    if tier == "facil" then Easy
    else if tier == "dificil" then Hard
    else Medium
  }

  // ---------------------------------------------------------------------------
  // Nearest reference note (getClosestNoteName)
  // ---------------------------------------------------------------------------

  function Abs(x: real): real
  {
    if x < 0.0 then -x else x
  }

  /** The distance in Hz from `freq` to the `k`-th reference note. */
  function Distance(freq: real, k: nat): real
    requires k < |ReferenceNotes|
  {
    Abs(ReferenceNotes[k].1 - freq)
  }

  /** Reference note `i` is the nearest one to `freq`, and no earlier note is as near. */
  predicate Closest(freq: real, i: int)
  {
    0 <= i < |ReferenceNotes| &&
    (forall k :: 0 <= k < |ReferenceNotes| ==> Distance(freq, i) <= Distance(freq, k)) &&
    (forall k :: 0 <= k < i ==> Distance(freq, i) < Distance(freq, k))
  }

  /** At most one note is the nearest one in this sense. */
  lemma ClosestUnique(freq: real, i: int, j: int)
    requires Closest(freq, i) && Closest(freq, j)
    ensures Distance(freq, i) == Distance(freq, j)
    ensures i == j
  {
  }

  /** The reference frequency of a note has that note as its nearest one: the table is
      strictly increasing, so every other note is farther away. */
  lemma ReferenceIsClosest(i: nat)
    requires i < |ReferenceNotes|
    ensures Closest(ReferenceNotes[i].1, i)
  {
    var f := ReferenceNotes[i].1;
    forall k | 0 <= k < |ReferenceNotes| && k != i
      ensures Distance(f, i) < Distance(f, k)
    {
      assert ReferenceNotes[k].1 != f;
    }
  }

  /** `getClosestNoteName`: scans the table in order and keeps the first note at the least
      distance from `freq`. */
  method ClosestNoteName(freq: real) returns (name: string)
    ensures name in NoteNames && Closest(freq, NoteIndex(name))
  {
    ReferenceNotesFacts();
    var closest: Option<string> := None;
    var minDiff := 0.0;
    ghost var at := 0;
    for i := 0 to |ReferenceNotes|
      invariant closest.None? <==> i == 0
      invariant 0 <= at < |ReferenceNotes| && at <= i
      invariant closest.Some? ==> 0 <= at < i && closest.value == ReferenceNotes[at].0 && minDiff == Distance(freq, at)
      invariant forall k :: 0 <= k < i ==> minDiff <= Distance(freq, k)
      invariant forall k :: 0 <= k < at ==> minDiff < Distance(freq, k)
    {
      var diff := Distance(freq, i);
      if closest.None? || diff < minDiff {
        minDiff := diff;
        closest := Some(ReferenceNotes[i].0);
        at := i;
      }
    }
    name := closest.value;
    NoteIndexOfName(at);
  }

  // ---------------------------------------------------------------------------
  // Fisher-Yates shuffle (mezclarArray)
  // ---------------------------------------------------------------------------

  /** `draws[i]` is the position the shuffle swaps with position `i`, one of `0..i`. */
  predicate ValidDraws(draws: seq<nat>, n: nat)
  {
    |draws| == n && forall i :: 0 <= i < n ==> draws[i] <= i
  }

  function Swap<T>(s: seq<T>, i: nat, j: nat): (r: seq<T>)
    requires i < |s| && j < |s|
    ensures |r| == |s|
  {
    s[i := s[j]][j := s[i]]
  }

  /** The shuffle of positions `n - 1` down to 1 of `s`: position `i` swaps with `draws[i]`. */
  function ShuffleDown<T>(s: seq<T>, draws: seq<nat>, n: nat): (r: seq<T>)
    requires n <= |s| && ValidDraws(draws, |s|)
    ensures |r| == |s|
    decreases n
  {
    if n <= 1 then s else ShuffleDown(Swap(s, n - 1, draws[n - 1]), draws, n - 1)
  }

  /** The order `mezclarArray` leaves `s` in, given its random draws. */
  function Shuffled<T>(s: seq<T>, draws: seq<nat>): (r: seq<T>)
    requires ValidDraws(draws, |s|)
    ensures |r| == |s|
  {
    ShuffleDown(s, draws, |s|)
  }

  lemma SwapPermutes<T>(s: seq<T>, i: nat, j: nat)
    requires i < |s| && j < |s|
    ensures multiset(Swap(s, i, j)) == multiset(s)
  {
  }

  lemma SwapKeepsDistinct(s: seq<Interval>, i: nat, j: nat)
    requires i < |s| && j < |s| && DistinctSemitones(s)
    ensures DistinctSemitones(Swap(s, i, j))
  {
    var t := Swap(s, i, j);
    forall p, q | 0 <= p < |t| && 0 <= q < |t| && p != q
      ensures t[p].semitones != t[q].semitones
    {
      var p' := if p == i then j else if p == j then i else p;
      var q' := if q == i then j else if q == j then i else q;
      assert t[p] == s[p'] && t[q] == s[q'];
    }
  }

  /** The shuffle is a permutation of its input, whatever the draws. */
  lemma {:induction false} ShuffleDownPermutes<T>(s: seq<T>, draws: seq<nat>, n: nat)
    requires n <= |s| && ValidDraws(draws, |s|)
    ensures multiset(ShuffleDown(s, draws, n)) == multiset(s)
    decreases n
  {
    if n > 1 {
      SwapPermutes(s, n - 1, draws[n - 1]);
      ShuffleDownPermutes(Swap(s, n - 1, draws[n - 1]), draws, n - 1);
    }
  }

  lemma {:induction false} ShuffleDownDistinct(s: seq<Interval>, draws: seq<nat>, n: nat)
    requires n <= |s| && ValidDraws(draws, |s|) && DistinctSemitones(s)
    ensures DistinctSemitones(ShuffleDown(s, draws, n))
    decreases n
  {
    if n > 1 {
      SwapKeepsDistinct(s, n - 1, draws[n - 1]);
      ShuffleDownDistinct(Swap(s, n - 1, draws[n - 1]), draws, n - 1);
    }
  }

  /** `mezclarArray` permutes its array and keeps the semitones of intervals distinct. */
  lemma ShuffledPermutes<T>(s: seq<T>, draws: seq<nat>)
    requires ValidDraws(draws, |s|)
    ensures multiset(Shuffled(s, draws)) == multiset(s)
    ensures forall x :: x in Shuffled(s, draws) <==> x in s
  {
    ShuffleDownPermutes(s, draws, |s|);
    forall x
      ensures x in Shuffled(s, draws) <==> x in s
    {
      assert x in Shuffled(s, draws) <==> x in multiset(Shuffled(s, draws));
      assert x in s <==> x in multiset(s);
    }
  }

  lemma ShuffledDistinct(s: seq<Interval>, draws: seq<nat>)
    requires ValidDraws(draws, |s|) && DistinctSemitones(s)
    ensures DistinctSemitones(Shuffled(s, draws))
  {
    ShuffleDownDistinct(s, draws, |s|);
  }

  /** `mezclarArray`: from the last position down to the second, swaps each element with the
      one at its draw. */
  method Shuffle<T>(a: array<T>, draws: seq<nat>)
    requires ValidDraws(draws, a.Length)
    modifies a
    ensures a[..] == Shuffled(old(a[..]), draws)
  {
    var i := a.Length - 1;
    while i > 0
      invariant -1 <= i < a.Length
      invariant ShuffleDown(a[..], draws, i + 1) == Shuffled(old(a[..]), draws)
    {
      var j := draws[i];
      a[i], a[j] := a[j], a[i];
      i := i - 1;
    }
  }

  // ---------------------------------------------------------------------------
  // Multiple-choice options (mostrarOpcionesIntervalo)
  // ---------------------------------------------------------------------------

  function Min(a: int, b: int): int
  {
    if a <= b then a else b
  }

  /** `disponibles.filter(i => i.semitonos !== semitones)`: the catalog entries of another size,
      in catalog order. */
  function Others(catalog: seq<Interval>, semitones: nat): (r: seq<Interval>)
    ensures |r| <= |catalog|
    ensures forall x :: x in r <==> x in catalog && x.semitones != semitones
  {
    if |catalog| == 0 then []
    else (if catalog[0].semitones != semitones then [catalog[0]] else []) + Others(catalog[1..], semitones)
  }

  lemma TailDistinct(s: seq<Interval>)
    requires |s| > 0 && DistinctSemitones(s)
    ensures DistinctSemitones(s[1..])
    ensures forall x :: x in s[1..] ==> x.semitones != s[0].semitones
  {
    var tail := s[1..];
    forall i, j | 0 <= i < |tail| && 0 <= j < |tail| && i != j
      ensures tail[i].semitones != tail[j].semitones
    {
      assert tail[i] == s[i + 1] && tail[j] == s[j + 1];
    }
    forall x | x in tail
      ensures x.semitones != s[0].semitones
    {
      var k :| 0 <= k < |tail| && tail[k] == x;
      assert s[k + 1] == x;
    }
  }

  /** Filtering keeps the semitones distinct. */
  lemma {:induction false} OthersDistinct(catalog: seq<Interval>, semitones: nat)
    requires DistinctSemitones(catalog)
    ensures DistinctSemitones(Others(catalog, semitones))
  {
    if |catalog| > 0 {
      TailDistinct(catalog);
      OthersDistinct(catalog[1..], semitones);
      var rest := Others(catalog[1..], semitones);
      if catalog[0].semitones != semitones {
        assert Others(catalog, semitones) == [catalog[0]] + rest;
        DistinctCons(catalog[0], rest);
      } else {
        assert Others(catalog, semitones) == rest;
      }
    }
  }

  /** An entry of a size none of a distinct sequence has can go in front of it. */
  lemma DistinctCons(x: Interval, rest: seq<Interval>)
    requires DistinctSemitones(rest) && forall y :: y in rest ==> y.semitones != x.semitones
    ensures DistinctSemitones([x] + rest)
  {
    var r := [x] + rest;
    forall i, j | 0 <= i < |r| && 0 <= j < |r| && i != j
      ensures r[i].semitones != r[j].semitones
    {
      if i == 0 {
        assert r[j] == rest[j - 1] && r[j] in rest;
      } else if j == 0 {
        assert r[i] == rest[i - 1] && r[i] in rest;
      } else {
        assert r[i] == rest[i - 1] && r[j] == rest[j - 1];
      }
    }
  }

  /** When the catalog holds an interval of that size, filtering drops exactly that one. */
  lemma {:induction false} OthersDropsOne(catalog: seq<Interval>, semitones: nat, k: nat)
    requires DistinctSemitones(catalog)
    requires k < |catalog| && catalog[k].semitones == semitones
    ensures |Others(catalog, semitones)| == |catalog| - 1
  {
    TailDistinct(catalog);
    if k == 0 {
      OthersKeepsAll(catalog[1..], semitones);
    } else {
      OthersDropsOne(catalog[1..], semitones, k - 1);
    }
  }

  /** When no interval of the catalog has that size, filtering keeps the whole catalog. */
  lemma {:induction false} OthersKeepsAll(catalog: seq<Interval>, semitones: nat)
    requires forall x :: x in catalog ==> x.semitones != semitones
    ensures Others(catalog, semitones) == catalog
  {
    if |catalog| > 0 {
      OthersKeepsAll(catalog[1..], semitones);
      assert catalog == [catalog[0]] + catalog[1..];
    }
  }

  /** The distractor draws fit the other intervals, and the final draws fit the options. */
  predicate ValidOptionDraws(catalog: seq<Interval>, correct: Interval, d1: seq<nat>, d2: seq<nat>)
  {
    ValidDraws(d1, |Others(catalog, correct.semitones)|) &&
    ValidDraws(d2, 1 + Min(3, |Others(catalog, correct.semitones)|))
  }

  /** The options shown: the correct interval and the first three of the shuffled intervals of
      another size (fewer if there are fewer), shuffled again. */
  function Options(catalog: seq<Interval>, correct: Interval, d1: seq<nat>, d2: seq<nat>): seq<Interval>
    requires ValidOptionDraws(catalog, correct, d1, d2)
  {
    var rest := Others(catalog, correct.semitones);
    Shuffled([correct] + Shuffled(rest, d1)[..Min(3, |rest|)], d2)
  }

  /** Draws the options in place: the intervals of another size are shuffled, the first three
      join the correct one, and those are shuffled again. */
  method PickOptions(catalog: seq<Interval>, correct: Interval, d1: seq<nat>, d2: seq<nat>) returns (options: seq<Interval>)
    requires ValidOptionDraws(catalog, correct, d1, d2)
    ensures options == Options(catalog, correct, d1, d2)
  {
    var rest := Others(catalog, correct.semitones);
    var restArray := new Interval[|rest|](k requires 0 <= k < |rest| => rest[k]);
    assert restArray[..] == rest;
    Shuffle(restArray, d1);
    var extra := restArray[..Min(3, restArray.Length)];
    var all := [correct] + extra;
    var optionArray := new Interval[|all|](k requires 0 <= k < |all| => all[k]);
    assert optionArray[..] == all;
    Shuffle(optionArray, d2);
    options := optionArray[..];
  }

  /** The options hold the correct interval once, up to three distractors from the catalog,
      each of another size, and no two options of the same size. */
  lemma OptionsSound(catalog: seq<Interval>, correct: Interval, d1: seq<nat>, d2: seq<nat>)
    requires DistinctSemitones(catalog) && ValidOptionDraws(catalog, correct, d1, d2)
    ensures var opts := Options(catalog, correct, d1, d2);
      |opts| == 1 + Min(3, |Others(catalog, correct.semitones)|) &&
      correct in opts &&
      (forall x :: x in opts ==> x == correct || (x in catalog && x.semitones != correct.semitones)) &&
      (forall k :: 0 <= k < |opts| && opts[k].semitones == correct.semitones ==> opts[k] == correct) &&
      DistinctSemitones(opts)
  {
    var rest := Others(catalog, correct.semitones);
    var before := [correct] + Shuffled(rest, d1)[..Min(3, |rest|)];
    OptionsBeforeShuffle(catalog, correct, d1);
    ShuffledPermutes(before, d2);
    ShuffledDistinct(before, d2);
    assert correct in before;
  }

  /** Before the final shuffle the options are the correct interval and up to three others
      of the catalog, each of another size, no two of the same size. */
  lemma OptionsBeforeShuffle(catalog: seq<Interval>, correct: Interval, d1: seq<nat>)
    requires DistinctSemitones(catalog) && ValidDraws(d1, |Others(catalog, correct.semitones)|)
    ensures var rest := Others(catalog, correct.semitones);
      var before := [correct] + Shuffled(rest, d1)[..Min(3, |rest|)];
      DistinctSemitones(before) &&
      forall x :: x in before ==> x == correct || (x in catalog && x.semitones != correct.semitones)
  {
    var rest := Others(catalog, correct.semitones);
    OthersDistinct(catalog, correct.semitones);
    ShuffledPermutes(rest, d1);
    ShuffledDistinct(rest, d1);
    var shuffled := Shuffled(rest, d1);
    var extra := shuffled[..Min(3, |rest|)];
    PrefixDistinct(shuffled, Min(3, |rest|));
    assert forall x :: x in extra ==> x in rest;
    DistinctCons(correct, extra);
    var before := [correct] + extra;
    forall x | x in before
      ensures x == correct || (x in catalog && x.semitones != correct.semitones)
    {
      if x != correct {
        assert x in extra;
      }
    }
  }

  /** A prefix of a sequence without repeated sizes has none either, and takes its entries
      from the sequence. */
  lemma PrefixDistinct(s: seq<Interval>, n: nat)
    requires DistinctSemitones(s) && n <= |s|
    ensures DistinctSemitones(s[..n]) && forall x :: x in s[..n] ==> x in s
  {
    var p := s[..n];
    forall i, j | 0 <= i < |p| && 0 <= j < |p| && i != j
      ensures p[i].semitones != p[j].semitones
    {
      assert p[i] == s[i] && p[j] == s[j];
    }
    forall x | x in p
      ensures x in s
    {
      var k :| 0 <= k < |p| && p[k] == x;
      assert s[k] == x;
    }
  }

  /** Every tier offers four options: its catalog holds at least four intervals besides the
      correct one. */
  lemma FourOptions(tier: string, correct: Interval)
    requires correct in TierCatalog(tier)
    ensures Min(3, |Others(TierCatalog(tier), correct.semitones)|) == 3
  {
    var catalog := TierCatalog(tier);
    var k :| 0 <= k < |catalog| && catalog[k] == correct;
    OthersDropsOne(catalog, correct.semitones, k);
  }

  // ---------------------------------------------------------------------------
  // The sung interval (evaluateIntervalAuto)
  // ---------------------------------------------------------------------------

  /** The exercise in progress: the interval to recognise, the frequency of its lower note and
      the name of the nearest reference note. */
  datatype Exercise = Exercise(correct: Interval, baseFrequency: real, baseName: string)

  /** How a sung attempt is scored: a hit, a miss, or not scored at all. */
  datatype Outcome = Hit | Miss | Unscored

  /** A detection that produced nothing (`null`) or 0 Hz, both falsy in `!pitch`. */
  predicate Missing(pitch: Option<real>)
  {
    pitch.None? || pitch.value == 0.0
  }

  /** The allowed error, in semitones, of a sung interval. */
  const Tolerance: real := 0.5

  /** The scoring of `evaluateIntervalAuto`: a failed detection of either note is a miss; with no
      exercise (or a zero-size one, which is falsy) nothing is scored; otherwise the detected
      size must lie within half a semitone of the expected one. */
  function SungOutcome(current: Option<Exercise>, pitch1: Option<real>, pitch2: Option<real>, detected: real): Outcome
  {
    if Missing(pitch1) || Missing(pitch2) then Miss
    else if current.None? || current.value.correct.semitones == 0 then Unscored
    else if Abs(detected - current.value.correct.semitones as real) <= Tolerance then Hit
    else Miss
  }

  /** An attempt is a hit exactly when both notes were heard, an exercise of some size is in
      progress, and the detected size is at most half a semitone off. */
  lemma HitExactly(current: Option<Exercise>, pitch1: Option<real>, pitch2: Option<real>, detected: real)
    ensures SungOutcome(current, pitch1, pitch2, detected) == Hit <==>
      !Missing(pitch1) && !Missing(pitch2) && current.Some? && current.value.correct.semitones > 0 &&
      current.value.correct.semitones as real - 0.5 <= detected <= current.value.correct.semitones as real + 0.5
    ensures SungOutcome(current, pitch1, pitch2, detected) == Unscored <==>
      !Missing(pitch1) && !Missing(pitch2) && (current.None? || current.value.correct.semitones == 0)
  {
  }

  /** Singing the interval downwards, or not moving at all, never scores a hit. */
  lemma DescendingAttemptMisses(current: Option<Exercise>, pitch1: Option<real>, pitch2: Option<real>, detected: real)
    requires detected <= 0.0
    ensures SungOutcome(current, pitch1, pitch2, detected) != Hit
  {
  }

  /** The tolerance windows of two different sizes touch only at the half-semitone between
      neighbours: a detected size accepted for both lies exactly halfway between them. */
  lemma ToleranceOverlap(detected: real, e1: nat, e2: nat)
    requires e1 < e2
    requires Abs(detected - e1 as real) <= Tolerance && Abs(detected - e2 as real) <= Tolerance
    ensures e2 == e1 + 1 && detected == e1 as real + 0.5
  {
  }

  // ---------------------------------------------------------------------------
  // The exercise session
  // ---------------------------------------------------------------------------

  /** The lowest and highest base frequency drawn for a tier other than "facil". */
  function BaseRange(tier: string): (real, real)
  {
    if tier == "dificil" then (110.0, 800.0) else (220.0, 700.0)
  }

  /** The base note of a new exercise: a reference note of the table in the easy tier, else a
      frequency drawn uniformly in the tier's range, named after its nearest reference note. */
  method DrawBase(tier: string, notePick: nat, r: real) returns (baseFrequency: real, baseName: string)
    requires notePick < |ReferenceNotes| && 0.0 <= r < 1.0
    ensures baseName in NoteNames
    ensures tier == "facil" ==> baseName == NoteNames[notePick] && baseFrequency == ReferenceNotes[notePick].1
    ensures tier != "facil" ==>
      var (lo, hi) := BaseRange(tier);
      baseFrequency == lo + r * (hi - lo) && lo <= baseFrequency < hi && Closest(baseFrequency, NoteIndex(baseName))
  {
    ReferenceNotesFacts();
    if tier == "facil" {
      baseName := ReferenceNotes[notePick].0;
      baseFrequency := ReferenceNotes[notePick].1;
    } else {
      var (lo, hi) := BaseRange(tier);
      baseFrequency := lo + r * (hi - lo);
      assert r * (hi - lo) < hi - lo;
      baseName := ClosestNoteName(baseFrequency);
    }
  }

  /** The interval view's state: the exercise in progress (`currentInterval`) and the hit and
      miss counters of the multiple-choice and the sung exercises. */
  class IntervalSession {
    var current: Option<Exercise>
    var hitsChoice: nat
    var missesChoice: nat
    var hitsSung: nat
    var missesSung: nat

    constructor ()
      ensures current.None? && hitsChoice == 0 && missesChoice == 0 && hitsSung == 0 && missesSung == 0
    {
      current := None;
      hitsChoice, missesChoice, hitsSung, missesSung := 0, 0, 0, 0;
    }

    /** `manejarReproduccionIntervalo` / `generarNuevoIntervalo`: draws a new exercise of the tier.
        `pick` is the drawn catalog position, `notePick` the drawn reference note of the easy
        tier and `r` the uniform draw in [0, 1) of the other tiers' base frequency. */
    method NewExercise(tier: string, pick: nat, notePick: nat, r: real)
      requires pick < |TierCatalog(tier)| && notePick < |ReferenceNotes| && 0.0 <= r < 1.0
      modifies this
      ensures current.Some? && current.value.correct == TierCatalog(tier)[pick]
      ensures current.value.baseName in NoteNames
      ensures tier == "facil" ==>
        current.value.baseName == NoteNames[notePick] && current.value.baseFrequency == ReferenceNotes[notePick].1
      ensures tier != "facil" ==>
        var (lo, hi) := BaseRange(tier);
        current.value.baseFrequency == lo + r * (hi - lo) &&
        lo <= current.value.baseFrequency < hi &&
        Closest(current.value.baseFrequency, NoteIndex(current.value.baseName))
      ensures hitsChoice == old(hitsChoice) && missesChoice == old(missesChoice)
      ensures hitsSung == old(hitsSung) && missesSung == old(missesSung)
    {
      current := None;
      var correct := TierCatalog(tier)[pick];
      var baseFrequency, baseName := DrawBase(tier, notePick, r);
      current := Some(Exercise(correct, baseFrequency, baseName));
    }

    /** `mostrarOpcionesIntervalo`: the buttons offered for the exercise in progress, built
        with two in-place shuffles of fresh arrays. */
    method ShowOptions(tier: string, d1: seq<nat>, d2: seq<nat>) returns (options: seq<Interval>)
      requires current.Some?
      requires ValidOptionDraws(TierCatalog(tier), current.value.correct, d1, d2)
      ensures options == Options(TierCatalog(tier), current.value.correct, d1, d2)
    {
      options := PickOptions(TierCatalog(tier), current.value.correct, d1, d2);
    }

    /** `verificarRespuestaIntervalo`: scores the chosen option by its size, then drops the
        exercise; the sung counters stay as they are. */
    method CheckAnswer(chosen: Interval) returns (right: bool)
      requires current.Some?
      modifies this
      ensures right <==> chosen.semitones == old(current).value.correct.semitones
      ensures right ==> hitsChoice == old(hitsChoice) + 1 && missesChoice == old(missesChoice)
      ensures !right ==> missesChoice == old(missesChoice) + 1 && hitsChoice == old(hitsChoice)
      ensures current.None?
      ensures hitsSung == old(hitsSung) && missesSung == old(missesSung)
    {
      right := chosen.semitones == current.value.correct.semitones;
      if right {
        hitsChoice := hitsChoice + 1;
      } else {
        missesChoice := missesChoice + 1;
      }
      current := None;
    }

    /** `evaluateIntervalAuto`: scores a sung attempt from the two detected pitches and the
        detected size in semitones; the exercise stays in progress. */
    method EvaluateSung(pitch1: Option<real>, pitch2: Option<real>, detected: real)
      modifies this
      ensures var outcome := SungOutcome(old(current), pitch1, pitch2, detected);
        hitsSung == old(hitsSung) + (if outcome == Hit then 1 else 0) &&
        missesSung == old(missesSung) + (if outcome == Miss then 1 else 0)
      ensures current == old(current)
      ensures hitsChoice == old(hitsChoice) && missesChoice == old(missesChoice)
    {
      if Missing(pitch1) {
        missesSung := missesSung + 1;
        return;
      }
      if Missing(pitch2) {
        missesSung := missesSung + 1;
        return;
      }
      if current.None? || current.value.correct.semitones == 0 {
        return;
      }
      var expected := current.value.correct.semitones as real;
      if Abs(detected - expected) <= Tolerance {
        hitsSung := hitsSung + 1;
      } else {
        missesSung := missesSung + 1;
      }
    }

    /** Changing the tier drops the exercise in progress. */
    method ChangeTier()
      modifies this
      ensures current.None?
      ensures hitsChoice == old(hitsChoice) && missesChoice == old(missesChoice)
      ensures hitsSung == old(hitsSung) && missesSung == old(missesSung)
    {
      current := None;
    }
  }
}
