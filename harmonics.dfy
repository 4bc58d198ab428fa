/** The harmonics view of the B-flat horn: the harmonic series of each valve combination, the
    progressions through the combinations ordered by fundamental, the keys the staff is drawn
    from, and the playback timers. */
module Harmonics {
  import opened Wrappers
  import opened Pitch
  import opened Scales

  /** `combosValvulas`: each valve combination and its approximate fundamental in Hz, in the
      order the table lists them (open horn first). */
  const ValveCombos: seq<(string, real)> := [
    ("0", 116.54), ("1", 110.00), ("2", 103.83), ("3", 98.00),
    ("1-2", 92.50), ("2-3", 87.31), ("1-3", 82.41), ("1-2-3", 77.78)]

  /** The levels of `nivelesArmonicos`. */
  const Levels: set<string> := {"facil", "medio", "dificil"}

  /** `nivelesArmonicos[level]`: how many harmonics a level plays. */
  function HarmonicCount(level: string): (n: nat)
    requires level in Levels
    ensures 4 <= n <= 8
    ensures level == "facil" ==> n == 4
    ensures level == "medio" ==> n == 6
    ensures level == "dificil" ==> n == 8
  {
    if level == "facil" then 4 else if level == "medio" then 6 else 8
  }

  /** The names of a list of combinations. */
  function Names(entries: seq<(string, real)>): (r: seq<string>)
    ensures |r| == |entries|
  {
    seq(|entries|, k requires 0 <= k < |entries| => entries[k].0)
  }

  /** `combosValvulas[position]` for a combination of the table. */
  function Fundamental(position: string): (f: real)
    requires position in Names(ValveCombos)
    ensures (position, f) in ValveCombos
  {
    var i := IndexOf(Names(ValveCombos), position);
    assert ValveCombos[i].0 == Names(ValveCombos)[i];
    ValveCombos[i].1
  }

  // ---------------------------------------------------------------------------
  // Harmonic series (generarSerieArmonica)
  // ---------------------------------------------------------------------------

  /** The first `n` harmonics of `f`: f, 2f, 3f, ... */
  function Series(f: real, n: nat): seq<real>
  {
    seq(n, k => f * (k + 1) as real)
  }

  /** `generarSerieArmonica`: pushes `fundamental * i` for i from 1 to `count`; a count below 1
      gives the empty series. */
  method HarmonicSeries(fundamental: real, count: int) returns (series: seq<real>)
    ensures series == Series(fundamental, if count < 0 then 0 else count)
  {
    series := [];
    var i := 1;
    while i <= count
      invariant 1 <= i && (count >= 0 ==> i <= count + 1) && (count < 0 ==> i == 1)
      invariant series == Series(fundamental, i - 1)
    {
      SeriesSnoc(fundamental, i);
      series := series + [fundamental * i as real];
      i := i + 1;
    }
  }

  lemma SeriesSnoc(f: real, n: nat)
    requires n >= 1
    ensures Series(f, n) == Series(f, n - 1) + [f * n as real]
  {
    var longer := Series(f, n);
    var shorter := Series(f, n - 1) + [f * n as real];
    forall k | 0 <= k < n
      ensures longer[k] == shorter[k]
    {
    }
  }

  /** With a positive fundamental the series rises strictly. */
  lemma SeriesIncreasing(f: real, n: nat, i: nat, j: nat)
    requires f > 0.0 && i < j < n
    ensures Series(f, n)[i] < Series(f, n)[j]
  {
    var s := Series(f, n);
    assert s[j] - s[i] == f * (j - i) as real;
  }

  /** Harmonic 2(k + 1) is the octave of harmonic k + 1. */
  lemma SeriesOctave(f: real, n: nat, k: nat)
    requires 2 * k + 1 < n
    ensures Series(f, n)[2 * k + 1] == 2.0 * Series(f, n)[k]
  {
  }

  /** A lower level plays the beginning of a higher level's series. */
  lemma SeriesPrefix(f: real, m: nat, n: nat)
    requires m <= n
    ensures Series(f, m) == Series(f, n)[..m]
  {
  }

  // ---------------------------------------------------------------------------
  // Progressions through the combinations (iniciarArmonicos)
  // ---------------------------------------------------------------------------

  /** Entries ordered by strictly rising fundamental. */
  predicate StrictlyAscending(entries: seq<(string, real)>)
  {
    forall i, j :: 0 <= i < j < |entries| ==> entries[i].1 < entries[j].1
  }

  /** `Object.entries(combosValvulas).sort((a, b) => a[1] - b[1])`: the combinations from the
      lowest fundamental to the highest (see `SortedPositionsAscending`, `SortedPositionsPermutes` and `SortedUnique`). */
  const SortedPositions: seq<(string, real)> := [
    ("1-2-3", 77.78), ("1-3", 82.41), ("2-3", 87.31), ("1-2", 92.50),
    ("3", 98.00), ("2", 103.83), ("1", 110.00), ("0", 116.54)]

  lemma {:induction false} ReversePermutes<T>(s: seq<T>)
    ensures multiset(Reverse(s)) == multiset(s)
  {
    if |s| > 0 {
      ReversePermutes(s[..|s| - 1]);
      assert s == s[..|s| - 1] + [s[|s| - 1]];
    }
  }

  /** The table lists the combinations from the highest fundamental down, so sorting them by
      rising fundamental reverses it. */
  lemma SortedPositionsReverse()
    ensures SortedPositions == Reverse(ValveCombos)
  {
    var r := Reverse(ValveCombos);
    forall k | 0 <= k < |r|
      ensures r[k] == SortedPositions[k]
    {
      ReverseAt(ValveCombos, k);
    }
  }

  /** The sorted order rises strictly by fundamental. */
  lemma SortedPositionsAscending()
    ensures StrictlyAscending(SortedPositions)
  {
  }

  /** The sorted order is a rearrangement of the table. */
  lemma SortedPositionsPermutes()
    ensures multiset(SortedPositions) == multiset(ValveCombos)
  {
    SortedPositionsReverse();
    ReversePermutes(ValveCombos);
  }

  /** Two strictly ascending arrangements of the same entries begin with the same one. */
  lemma SortedHead(a: seq<(string, real)>, b: seq<(string, real)>)
    requires StrictlyAscending(a) && StrictlyAscending(b) && multiset(a) == multiset(b)
    requires |a| > 0
    ensures |b| > 0 && a[0] == b[0]
  {
    assert a[0] in multiset(b);
    assert b[0] in multiset(a);
    var i :| 0 <= i < |b| && b[i] == a[0];
    var j :| 0 <= j < |a| && a[j] == b[0];
    assert a[0].1 <= a[j].1;
    assert b[0].1 <= b[i].1;
    assert i == 0;
  }

  /** Removing a shared first entry leaves the same multiset of entries. */
  lemma MultisetTail(a: seq<(string, real)>, b: seq<(string, real)>)
    requires multiset(a) == multiset(b) && |a| > 0 && |b| > 0 && a[0] == b[0]
    ensures multiset(a[1..]) == multiset(b[1..])
  {
    assert a == [a[0]] + a[1..];
    assert b == [b[0]] + b[1..];
    assert multiset(a[1..]) == multiset(a) - multiset{a[0]};
    assert multiset(b[1..]) == multiset(b) - multiset{b[0]};
  }

  /** Sorting by a fundamental no two entries share has only one possible outcome, so any
      sort of the table gives `SortedPositions`. */
  lemma {:induction false} SortedUnique(a: seq<(string, real)>, b: seq<(string, real)>)
    requires StrictlyAscending(a) && StrictlyAscending(b) && multiset(a) == multiset(b)
    ensures a == b
    decreases |a|
  {
    if |a| > 0 {
      SortedHead(a, b);
      MultisetTail(a, b);
      SortedUnique(a[1..], b[1..]);
      assert a == [a[0]] + a[1..] && b == [b[0]] + b[1..];
    } else {
      assert |multiset(b)| == 0;
    }
  }

  /** `findIndex` of the position in the sorted order, with 0 (the lowest) for an unknown one. */
  function PositionIndex(position: string): (r: nat)
    ensures r < |ValveCombos|
    ensures position !in Names(SortedPositions) ==> r == 0
    ensures position in Names(SortedPositions) ==> SortedPositions[r].0 == position
  {
    var i := IndexOf(Names(SortedPositions), position);
    if i < 0 then 0 else i
  }

  /** The combinations a progression plays: "arriba" from the position up to the highest
      fundamental, any other mode from the position down to the lowest. */
  function Progression(mode: string, position: string): seq<(string, real)>
  {
    var sorted := SortedPositions;
    var i := PositionIndex(position);
    if mode == "arriba" then sorted[i..] else Reverse(sorted[..i + 1])
  }

  /** The sorted order names the same combinations as the table. */
  lemma SortedNames(position: string)
    ensures position in Names(SortedPositions) <==> position in Names(ValveCombos)
  {
    SortedPositionsReverse();
    var n := |ValveCombos|;
    if position in Names(SortedPositions) {
      var k :| 0 <= k < n && Names(SortedPositions)[k] == position;
      ReverseAt(ValveCombos, k);
      assert Names(ValveCombos)[n - 1 - k] == position;
    }
    if position in Names(ValveCombos) {
      var m :| 0 <= m < n && Names(ValveCombos)[m] == position;
      ReverseAt(ValveCombos, n - 1 - m);
      assert Names(SortedPositions)[n - 1 - m] == position;
    }
  }

  /** A progression starts at the chosen combination, or at the lowest fundamental when the
      position names none. */
  lemma ProgressionStart(mode: string, position: string)
    ensures var p := Progression(mode, position);
      1 <= |p| <= |ValveCombos| &&
      (position in Names(ValveCombos) ==> p[0].0 == position) &&
      (position !in Names(ValveCombos) ==> p[0] == SortedPositions[0])
  {
    var i := PositionIndex(position);
    SortedNames(position);
    if mode != "arriba" {
      ReverseAt(SortedPositions[..i + 1], 0);
    }
    assert Progression(mode, position)[0] == SortedPositions[i];
    if position in Names(ValveCombos) {
      assert Names(SortedPositions)[i] == position;
    }
  }

  /** Every combination of the sorted order is one of the table. */
  lemma SortedInTable(x: (string, real))
    requires x in SortedPositions
    ensures x in ValveCombos
  {
    SortedPositionsPermutes();
    assert x in multiset(SortedPositions);
  }

  /** A progression plays only combinations of the table. */
  lemma ProgressionInTable(mode: string, position: string)
    ensures forall x :: x in Progression(mode, position) ==> x in ValveCombos
  {
    var p := Progression(mode, position);
    var i := PositionIndex(position);
    forall x | x in p
      ensures x in ValveCombos
    {
      var k :| 0 <= k < |p| && p[k] == x;
      if mode != "arriba" {
        ReverseAt(SortedPositions[..i + 1], k);
      }
      SortedInTable(x);
    }
  }

  /** "arriba" climbs by strictly rising fundamental to the highest one. */
  lemma ProgressionUp(position: string)
    ensures var p := Progression("arriba", position);
      StrictlyAscending(p) && p[|p| - 1] == SortedPositions[|SortedPositions| - 1]
  {
    SortedPositionsAscending();
    var i := PositionIndex(position);
    var p := Progression("arriba", position);
    assert p == SortedPositions[i..];
  }

  /** "arriba" plays every combination of the table from the chosen one up, and no other. */
  lemma ProgressionUpPlaysAll(position: string)
    ensures var p := Progression("arriba", position);
      forall x :: x in p <==> x in ValveCombos && p[0].1 <= x.1
  {
    SortedPositionsAscending();
    SortedPositionsPermutes();
    var i := PositionIndex(position);
    assert Progression("arriba", position) == SortedPositions[i..];
    SuffixMembers(SortedPositions, ValveCombos, i);
  }

  /** Any other mode descends by strictly falling fundamental to the lowest one: read
      backwards it is the sorted order up to the chosen combination. */
  lemma ProgressionDown(mode: string, position: string)
    requires mode != "arriba"
    ensures var p := Progression(mode, position);
      Reverse(p) == SortedPositions[..PositionIndex(position) + 1] &&
      StrictlyAscending(Reverse(p)) && p[|p| - 1] == SortedPositions[0]
  {
    SortedPositionsAscending();
    var i := PositionIndex(position);
    var down := SortedPositions[..i + 1];
    ReverseInvolutive(down);
    ReverseAt(down, i);
  }

  /** Any other mode plays every combination of the table from the chosen one down, and no other. */
  lemma ProgressionDownPlaysAll(mode: string, position: string)
    requires mode != "arriba"
    ensures var p := Progression(mode, position);
      forall x :: x in p <==> x in ValveCombos && x.1 <= p[0].1
  {
    SortedPositionsAscending();
    SortedPositionsPermutes();
    var i := PositionIndex(position);
    assert Progression(mode, position) == Reverse(SortedPositions[..i + 1]);
    PrefixMembers(SortedPositions, ValveCombos, i);
  }

  /** In a strictly ascending arrangement of `t`, the entries from position i on are exactly
      the entries of `t` at least as high as entry i. */
  lemma SuffixMembers(s: seq<(string, real)>, t: seq<(string, real)>, i: nat)
    requires StrictlyAscending(s) && multiset(s) == multiset(t) && i < |s|
    ensures var p := s[i..]; p[0] == s[i] && forall x :: x in p <==> x in t && p[0].1 <= x.1
  {
    forall x
      ensures x in s[i..] <==> x in t && s[i].1 <= x.1
    {
      assert x in s <==> x in multiset(s);
      assert x in t <==> x in multiset(t);
      if x in s[i..] {
        var k :| 0 <= k < |s| - i && s[i..][k] == x;
        assert s[i + k] == x;
      }
      if x in s && s[i].1 <= x.1 {
        var k :| 0 <= k < |s| && s[k] == x;
        assert s[i..][k - i] == x;
      }
    }
  }

  /** In a strictly ascending arrangement of `t`, the entries up to position i, read backwards,
      start at entry i and are exactly the entries of `t` at most as high as it. */
  lemma PrefixMembers(s: seq<(string, real)>, t: seq<(string, real)>, i: nat)
    requires StrictlyAscending(s) && multiset(s) == multiset(t) && i < |s|
    ensures var p := Reverse(s[..i + 1]);
      p[0] == s[i] && forall x :: x in p <==> x in t && x.1 <= s[i].1
  {
    var down := s[..i + 1];
    var p := Reverse(down);
    ReverseAt(down, 0);
    ReversePermutes(down);
    forall x
      ensures x in p <==> x in t && x.1 <= s[i].1
    {
      assert x in p <==> x in multiset(p);
      assert x in down <==> x in multiset(down);
      assert x in s <==> x in multiset(s);
      assert x in t <==> x in multiset(t);
      if x in down {
        var k :| 0 <= k <= i && down[k] == x;
        assert s[k] == x;
      }
      if x in s && x.1 <= s[i].1 {
        var k :| 0 <= k < |s| && s[k] == x;
        assert down[k] == x;
      }
    }
  }

  lemma {:induction false} ReverseInvolutive<T>(s: seq<T>)
    ensures Reverse(Reverse(s)) == s
  {
    var r := Reverse(Reverse(s));
    forall k | 0 <= k < |s|
      ensures r[k] == s[k]
    {
      ReverseAt(Reverse(s), k);
      ReverseAt(s, |s| - 1 - k);
    }
  }

  /** The series a progression plays: the series of each of its combinations, one after the other. */
  function MegaSeries(entries: seq<(string, real)>, n: nat): (r: seq<real>)
  {
    if |entries| == 0 then []
    else MegaSeries(entries[..|entries| - 1], n) + Series(entries[|entries| - 1].1, n)
  }

  lemma {:induction false} MulStep(i: nat, m: nat, n: nat)
    requires i < m
    ensures i * n + n <= m * n
  {
    assert m * n == (m - i - 1) * n + i * n + n;
  }

  /** A progression of `p` combinations plays `p` times the level's harmonics, and note
      `i * n + k` is harmonic k + 1 of the i-th combination. */
  lemma {:induction false} MegaSeriesAt(entries: seq<(string, real)>, n: nat, i: nat, k: nat)
    requires i < |entries| && k < n
    ensures |MegaSeries(entries, n)| == |entries| * n
    ensures i * n + k < |entries| * n
    ensures MegaSeries(entries, n)[i * n + k] == entries[i].1 * (k + 1) as real
    decreases |entries|
  {
    var last := |entries| - 1;
    var front := entries[..last];
    var prefix := MegaSeries(front, n);
    var tail := Series(entries[last].1, n);
    assert MegaSeries(entries, n) == prefix + tail;
    MegaSeriesLength(front, n);
    MulSucc(last, n);
    MulStep(i, |entries|, n);
    if i == last {
      assert (prefix + tail)[i * n + k] == tail[k];
    } else {
      MegaSeriesAt(front, n, i, k);
      assert (prefix + tail)[i * n + k] == prefix[i * n + k];
    }
  }

  lemma MulSucc(m: nat, n: nat)
    ensures (m + 1) * n == m * n + n
  {
  }

  lemma {:induction false} MegaSeriesLength(entries: seq<(string, real)>, n: nat)
    ensures |MegaSeries(entries, n)| == |entries| * n
    decreases |entries|
  {
    if |entries| > 0 {
      MegaSeriesLength(entries[..|entries| - 1], n);
      MulSucc(|entries| - 1, n);
    }
  }

  /** The loop of `iniciarArmonicos` that concatenates the series of every combination of
      the progression. */
  method ConcatenateSeries(entries: seq<(string, real)>, count: nat) returns (mega: seq<real>)
    ensures mega == MegaSeries(entries, count)
  {
    mega := [];
    for i := 0 to |entries|
      invariant mega == MegaSeries(entries[..i], count)
    {
      var series := HarmonicSeries(entries[i].1, count);
      assert entries[..i + 1][..i] == entries[..i];
      mega := mega + series;
    }
    assert entries[..|entries|] == entries;
  }

  // ---------------------------------------------------------------------------
  // The staff (generarClavesSerie, renderArmonicos)
  // ---------------------------------------------------------------------------

  /** `generarClavesSerie`, from the offsets in semitones above C4 that the frequencies round to. */
  function SeriesKeys(offsets: seq<int>): (r: seq<string>)
    ensures |r| == |offsets|
  {
    seq(|offsets|, k requires 0 <= k < |offsets| => FreqToNote(offsets[k]))
  }

  /** Every key names its own offset: reading the keys back gives the offsets. */
  lemma SeriesKeysRoundTrip(offsets: seq<int>, k: nat)
    requires k < |offsets|
    ensures ParseKey(SeriesKeys(offsets)[k]) == Some(offsets[k])
  {
    assert SeriesKeys(offsets)[k] == FreqToNote(offsets[k]);
  }

  /** The key signature `renderArmonicos` draws: that of the first note's name, respelt. */
  function StaffSignature(offsets: seq<int>): string
    requires |offsets| > 0
  {
    FixKeySignature(BeforeSlash(SeriesKeys(offsets)[0]))
  }

  /** The signature is always one of the fifteen standard keys, and it is a spelling of the
      first note's pitch class. */
  lemma StaffSignatureSound(offsets: seq<int>)
    requires |offsets| > 0
    ensures StaffSignature(offsets) in StandardKeys
    ensures SpellingClass(StaffSignature(offsets)) == Some(PitchClass(offsets[0]))
    ensures StaffSignature(offsets) == FixKeySignature(NoteNames[PitchClass(offsets[0])])
  {
    var s := offsets[0];
    var name := NoteNames[PitchClass(s)];
    NoteNamesFacts();
    SlashAfterName(name, IntText(Octave(s)));
    assert BeforeSlash(SeriesKeys(offsets)[0]) == name;
    NoteIndexOfName(PitchClass(s));
    SpellingOfName(name);
  }

  // ---------------------------------------------------------------------------
  // Playback (detenerReproduccionArmonicos, reproducirSerieArmonicos, iniciarArmonicos)
  // ---------------------------------------------------------------------------

  /** What a pending timer does when it fires: sound a harmonic, or end the series. */
  datatype Action = Sound(freq: real) | Finish

  /** A pending `setTimeout`: its handle, its delay in ms and its action. */
  datatype Timer = Timer(id: nat, atMs: nat, action: Action)

  /** The harmonics view's playback state. */
  class HarmonicsPlayer {
    var inProgress: bool
    var timeouts: seq<Timer>
    /** The handle the next `setTimeout` returns; handles are never reused. */
    var nextId: nat

    ghost predicate Valid()
      reads this
    {
      forall t :: t in timeouts ==> t.id < nextId
    }

    /** The pending timers play `series` one note a second from now, with handles from `first`
        on, and then end the series. */
    predicate Schedules(series: seq<real>, first: nat)
      reads this
    {
      |timeouts| == |series| + 1 &&
      (forall k :: 0 <= k < |series| ==> timeouts[k] == Timer(first + k, 1000 * k, Sound(series[k]))) &&
      timeouts[|series|] == Timer(first + |series|, 1000 * |series|, Finish)
    }

    constructor ()
      ensures Valid() && !inProgress && timeouts == []
    {
      inProgress := false;
      timeouts := [];
      nextId := 1;
    }

    /** `detenerReproduccionArmonicos`: cancels every pending timer and clears the flag. */
    method Stop()
      requires Valid()
      modifies this
      ensures Valid() && !inProgress && timeouts == [] && nextId == old(nextId)
    {
      timeouts := [];
      inProgress := false;
    }

    /** The end-of-series timer has fired. */
    method FinishFires()
      requires Valid()
      modifies this
      ensures Valid() && !inProgress && timeouts == old(timeouts) && nextId == old(nextId)
    {
      inProgress := false;
    }

    /** `reproducirSerieArmonicos`: cancels what was pending, then schedules the series one
        note a second and the end of the series after the last note. */
    method PlaySeries(series: seq<real>)
      requires Valid()
      modifies this
      ensures Valid() && inProgress
      ensures Schedules(series, old(nextId))
      ensures nextId == old(nextId) + |series| + 1
      ensures forall t :: t in old(timeouts) ==> t !in timeouts
    {
      Stop();
      inProgress := true;
      ghost var first := nextId;
      var at := 0;
      for k := 0 to |series|
        invariant inProgress && nextId == first + k && at == 1000 * k && |timeouts| == k
        invariant forall m :: 0 <= m < k ==> timeouts[m] == Timer(first + m, 1000 * m, Sound(series[m]))
      {
        timeouts := timeouts + [Timer(nextId, at, Sound(series[k]))];
        nextId := nextId + 1;
        at := at + 1000;
      }
      timeouts := timeouts + [Timer(nextId, at, Finish)];
      nextId := nextId + 1;
    }

    /** `iniciarArmonicos`: in mode "ninguno" plays and draws the series of the chosen
        combination; in a progression plays the series of every combination of the
        progression, one after the other, and draws the last one. */
    method Start(position: string, level: string, mode: string) returns (rendered: seq<real>, played: seq<real>)
      requires Valid() && level in Levels
      requires mode == "ninguno" ==> position in Names(ValveCombos)
      modifies this
      ensures Valid() && inProgress && Schedules(played, old(nextId))
      ensures mode == "ninguno" ==>
        rendered == played && played == Series(Fundamental(position), HarmonicCount(level))
      ensures mode != "ninguno" ==>
        var p := Progression(mode, position);
        played == MegaSeries(p, HarmonicCount(level)) &&
        rendered == Series(p[|p| - 1].1, HarmonicCount(level))
    {
      Stop();
      var count := HarmonicCount(level);
      if mode == "ninguno" {
        var series := HarmonicSeries(Fundamental(position), count);
        rendered, played := series, series;
      } else {
        var progression := Progression(mode, position);
        ProgressionStart(mode, position);
        played := ConcatenateSeries(progression, count);
        rendered := HarmonicSeries(progression[|progression| - 1].1, count);
      }
      PlaySeries(played);
    }

    /** The start button: does nothing while a series is playing. */
    method PressStart(position: string, level: string, mode: string) returns (started: bool, played: seq<real>)
      requires Valid() && level in Levels
      requires mode == "ninguno" ==> position in Names(ValveCombos)
      modifies this
      ensures Valid()
      ensures started == !old(inProgress)
      ensures !started ==> inProgress && timeouts == old(timeouts) && nextId == old(nextId) && played == []
      ensures started ==> inProgress && Schedules(played, old(nextId))
    {
      started := !inProgress;
      played := [];
      if started {
        var rendered;
        rendered, played := Start(position, level, mode);
      }
    }

    /** `actualizarArmonicosVista`: stops playback and draws the chosen combination's series. */
    method RefreshView(position: string, level: string) returns (rendered: seq<real>)
      requires Valid() && level in Levels && position in Names(ValveCombos)
      modifies this
      ensures Valid() && !inProgress && timeouts == [] && nextId == old(nextId)
      ensures rendered == Series(Fundamental(position), HarmonicCount(level))
    {
      Stop();
      rendered := HarmonicSeries(Fundamental(position), HarmonicCount(level));
    }
  }
}
