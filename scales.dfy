/** The scale and arpeggio views: step tables, the ascending and descending offset sequences
    they are played and written as, the staff keys of a scale and the scale playback timers.
    An offset is a number of semitones above the chosen tonic; the frequency played for it is
    the tonic's frequency times 2^(offset/12). */
module Scales {
  import opened Wrappers
  import opened Pitch

  // ---------------------------------------------------------------------------
  // Sequences
  // ---------------------------------------------------------------------------

  function Sum(s: seq<int>): int
  {
    if |s| == 0 then 0 else s[0] + Sum(s[1..])
  }

  lemma {:induction false} SumAppend(s: seq<int>, x: int)
    ensures Sum(s + [x]) == Sum(s) + x
  {
    if |s| > 0 {
      assert (s + [x])[1..] == s[1..] + [x];
      SumAppend(s[1..], x);
    }
  }

  /** JavaScript's `reverse()` of a copy. */
  function Reverse<T>(s: seq<T>): (r: seq<T>)
    ensures |r| == |s|
  {
    if |s| == 0 then [] else [s[|s| - 1]] + Reverse(s[..|s| - 1])
  }

  lemma {:induction false} ReverseAt<T>(s: seq<T>, k: nat)
    requires k < |s|
    ensures Reverse(s)[k] == s[|s| - 1 - k]
  {
    if k > 0 {
      ReverseAt(s[..|s| - 1], k - 1);
    }
  }

  /** `s.slice(0, s.length - 1).reverse()`: the way back down, without repeating the top. */
  function Mirror<T>(s: seq<T>): (r: seq<T>)
    ensures |r| == if |s| == 0 then 0 else |s| - 1
  {
    if |s| == 0 then [] else Reverse(s[..|s| - 1])
  }

  lemma MirrorAt<T>(s: seq<T>, k: nat)
    requires k + 1 < |s|
    ensures Mirror(s)[k] == s[|s| - 2 - k]
  {
    ReverseAt(s[..|s| - 1], k);
  }

  ghost predicate Palindrome<T>(s: seq<T>)
  {
    forall k :: 0 <= k < |s| ==> s[k] == s[|s| - 1 - k]
  }

  // ---------------------------------------------------------------------------
  // Step tables (obtenerSecuenciaEscala, obtenerSecuenciaArpegio)
  // ---------------------------------------------------------------------------

  const MajorSteps: seq<nat> := [2, 2, 1, 2, 2, 2, 1]
  const MinorSteps: seq<nat> := [2, 1, 2, 2, 1, 2, 2]
  const KnownScaleKinds: set<string> := {"mayor", "menor", "armonica", "melodica", "oriental", "pentatonica"}

  /** The steps between consecutive notes of a scale; every table closes the octave. */
  function ScaleSteps(kind: string): (r: seq<nat>)
    ensures |r| == if kind == "pentatonica" then 5 else 7
    ensures kind !in KnownScaleKinds ==> r == MajorSteps
    ensures kind == "menor" ==> r == MinorSteps
  {
    match kind
    case "mayor" => [2, 2, 1, 2, 2, 2, 1]
    case "menor" => [2, 1, 2, 2, 1, 2, 2]
    case "armonica" => [2, 1, 2, 2, 1, 3, 1]
    case "melodica" => [2, 1, 2, 2, 2, 2, 1]
    case "oriental" => [1, 3, 1, 2, 1, 2, 2]
    case "pentatonica" => [2, 2, 3, 2, 3]
    case _ => [2, 2, 1, 2, 2, 2, 1]
  }

  /** Every step table closes the octave: its steps add up to twelve semitones. */
  lemma ScaleStepsSum(kind: string)
    ensures Sum(ScaleSteps(kind)) == 12
  {
    match kind
    case "mayor" => SumOfSeven(2, 2, 1, 2, 2, 2, 1);
    case "menor" => SumOfSeven(2, 1, 2, 2, 1, 2, 2);
    case "armonica" => SumOfSeven(2, 1, 2, 2, 1, 3, 1);
    case "melodica" => SumOfSeven(2, 1, 2, 2, 2, 2, 1);
    case "oriental" => SumOfSeven(1, 3, 1, 2, 1, 2, 2);
    case "pentatonica" => SumOfFive(2, 2, 3, 2, 3);
    case _ => SumOfSeven(2, 2, 1, 2, 2, 2, 1);
  }

  lemma SumCons(x: int, s: seq<int>)
    ensures Sum([x] + s) == x + Sum(s)
  {
    assert ([x] + s)[1..] == s;
  }

  lemma SumOfFive(c: int, d: int, e: int, f: int, g: int)
    ensures Sum([c, d, e, f, g]) == c + d + e + f + g
  {
    SumCons(g, []);
    SumCons(f, [g]);
    SumCons(e, [f, g]);
    SumCons(d, [e, f, g]);
    SumCons(c, [d, e, f, g]);
    assert [c] + [d, e, f, g] == [c, d, e, f, g];
    assert [d] + [e, f, g] == [d, e, f, g];
    assert [e] + [f, g] == [e, f, g];
    assert [f] + [g] == [f, g];
    assert [g] + [] == [g];
  }

  lemma SumOfSeven(a: int, b: int, c: int, d: int, e: int, f: int, g: int)
    ensures Sum([a, b, c, d, e, f, g]) == a + b + c + d + e + f + g
  {
    SumOfFive(c, d, e, f, g);
    SumCons(b, [c, d, e, f, g]);
    SumCons(a, [b, c, d, e, f, g]);
    assert [b] + [c, d, e, f, g] == [b, c, d, e, f, g];
    assert [a] + [b, c, d, e, f, g] == [a, b, c, d, e, f, g];
  }

  /** Every step of every table goes up. */
  lemma ScaleStepsPositive(kind: string)
    ensures forall k :: 0 <= k < |ScaleSteps(kind)| ==> ScaleSteps(kind)[k] > 0
  {
  }

  /** The offsets of an arpeggio from its root; an unknown kind has none. */
  function ArpeggioOffsets(kind: string): (r: seq<int>)
    ensures kind in {"mayor", "menor", "dominante"} ==>
      |r| == 4 && r[0] == 0 && forall k :: 0 < k < |r| ==> r[k - 1] < r[k]
    ensures kind !in {"mayor", "menor", "dominante"} ==> r == []
    ensures kind in {"mayor", "menor"} ==> r[3] == 12
  {
    if kind == "mayor" then [0, 4, 7, 12]
    else if kind == "menor" then [0, 3, 7, 12]
    else if kind == "dominante" then [0, 4, 7, 10]
    else []
  }

  // ---------------------------------------------------------------------------
  // Offset sequences
  // ---------------------------------------------------------------------------

  /** The running totals of the `acumulador` loops: the root, then each step added on. */
  function Ascending(steps: seq<nat>): (r: seq<int>)
    ensures |r| == |steps| + 1
  {
    seq(|steps| + 1, k requires 0 <= k <= |steps| => Sum(steps[..k]))
  }

  lemma SumPrefix(steps: seq<nat>, k: nat)
    requires k < |steps|
    ensures Sum(steps[..k + 1]) == Sum(steps[..k]) + steps[k]
  {
    assert steps[..k + 1] == steps[..k] + [steps[k]];
    SumAppend(steps[..k], steps[k]);
  }

  /** Consecutive ascending offsets differ by the steps, so the steps can be read back from them;
      the sequence starts at the root and ends at the total of the steps. */
  lemma AscendingSteps(steps: seq<nat>)
    ensures Ascending(steps)[0] == 0
    ensures Ascending(steps)[|steps|] == Sum(steps)
    ensures forall k :: 0 <= k < |steps| ==> Ascending(steps)[k + 1] - Ascending(steps)[k] == steps[k]
  {
    assert steps[..|steps|] == steps;
    forall k | 0 <= k < |steps|
      ensures Ascending(steps)[k + 1] - Ascending(steps)[k] == steps[k]
    {
      SumPrefix(steps, k);
    }
  }

  /** With positive steps every note is higher than the one before. */
  lemma AscendingIncreasing(steps: seq<nat>, i: nat, j: nat)
    requires forall k :: 0 <= k < |steps| ==> steps[k] > 0
    requires i < j <= |steps|
    ensures Ascending(steps)[i] < Ascending(steps)[j]
    decreases j - i
  {
    AscendingSteps(steps);
    if i + 1 < j {
      AscendingIncreasing(steps, i + 1, j);
    }
  }

  /** The offsets of the way down: the natural minor for the melodic minor, the ascending
      scale without its top otherwise. */
  function Descending(kind: string): seq<int>
  {
    Mirror(Ascending(DescentSteps(kind)))
  }

  /** The steps the way down is built from (`secDesc`): the natural minor's for the melodic
      minor, the scale's own otherwise. */
  function DescentSteps(kind: string): seq<nat>
  {
    if kind == "melodica" then ScaleSteps("menor") else ScaleSteps(kind)
  }

  /** Every offset a scale performance plays, up and down. */
  function ScaleOffsets(kind: string): seq<int>
  {
    Ascending(ScaleSteps(kind)) + Descending(kind)
  }

  /** Each scale climbs from the root to the octave above and comes back to the root,
      one note fewer on the way down. */
  lemma ScaleShape(kind: string)
    ensures |Ascending(ScaleSteps(kind))| == |ScaleSteps(kind)| + 1
    ensures |Descending(kind)| == |ScaleSteps(kind)|
    ensures |ScaleOffsets(kind)| == 2 * |ScaleSteps(kind)| + 1
    ensures ScaleOffsets(kind)[0] == 0
    ensures ScaleOffsets(kind)[|ScaleSteps(kind)|] == 12
    ensures ScaleOffsets(kind)[|ScaleOffsets(kind)| - 1] == 0
  {
    ScaleStepsSum(kind);
    UpDownShape(ScaleSteps(kind), DescentSteps(kind));
  }

  /** Climbing by `up` and coming down the mirror of a climb by `down`, as many steps, starts
      and ends at the root and turns at the total of `up`. */
  lemma UpDownShape(up: seq<nat>, down: seq<nat>)
    requires |up| == |down| > 0
    ensures var all := Ascending(up) + Mirror(Ascending(down));
      |all| == 2 * |up| + 1 && all[0] == 0 && all[|up|] == Sum(up) && all[|all| - 1] == 0
  {
    AscendingSteps(up);
    AscendingSteps(down);
    MirrorAt(Ascending(down), |down| - 1);
  }

  /** Going up a sequence and back down its mirror reads the same both ways. */
  lemma MirrorPalindrome<T>(up: seq<T>)
    requires |up| > 0
    ensures Palindrome(up + Mirror(up))
  {
    var all := up + Mirror(up);
    var n := |up|;
    forall k | 0 <= k < |all|
      ensures all[k] == all[|all| - 1 - k]
    {
      if k < n - 1 {
        MirrorAt(up, n - 2 - k);
      } else if k > n - 1 {
        MirrorAt(up, k - n);
      }
    }
  }

  /** Except for the melodic minor the way down is the way up backwards. */
  lemma ScalePalindrome(kind: string)
    requires kind != "melodica"
    ensures Palindrome(ScaleOffsets(kind))
  {
    MirrorPalindrome(Ascending(ScaleSteps(kind)));
  }

  /** The melodic minor goes down by the natural minor, so it comes down a different way
      from the one it went up. */
  lemma MelodicDescent()
    ensures Ascending(ScaleSteps("melodica")) == [0, 2, 3, 5, 7, 9, 11, 12]
    ensures Descending("melodica") == [10, 8, 7, 5, 3, 2, 0]
    ensures Descending("melodica") != Mirror(Ascending(ScaleSteps("melodica")))
  {
    var melodic := ScaleSteps("melodica");
    assert melodic == [2, 1, 2, 2, 2, 2, 1];
    AscendingOfSeven(melodic);
    var up := Ascending(melodic);
    var minor := Ascending(MinorSteps);
    AscendingOfSeven(MinorSteps);
    assert minor == [0, 2, 3, 5, 7, 8, 10, 12];
    MirrorOfEight(minor);
    MirrorAt(up, 0);
  }

  /** The running totals of seven steps, written out. */
  lemma AscendingOfSeven(s: seq<nat>)
    requires |s| == 7
    ensures Ascending(s) == [0, s[0], s[0] + s[1], s[0] + s[1] + s[2], s[0] + s[1] + s[2] + s[3],
      s[0] + s[1] + s[2] + s[3] + s[4], s[0] + s[1] + s[2] + s[3] + s[4] + s[5],
      s[0] + s[1] + s[2] + s[3] + s[4] + s[5] + s[6]]
  {
    AscendingSteps(s);
  }

  /** The mirror of eight values, written out. */
  lemma MirrorOfEight(s: seq<int>)
    requires |s| == 8
    ensures Mirror(s) == [s[6], s[5], s[4], s[3], s[2], s[1], s[0]]
  {
    forall k | 0 <= k < 7 ensures Mirror(s)[k] == s[6 - k] {
      MirrorAt(s, k);
    }
  }

  /** The `acumulador` loop: the root, then the running total after each step. */
  method RunningTotals(steps: seq<nat>) returns (offsets: seq<int>)
    ensures offsets == Ascending(steps)
    ensures forall k :: 0 <= k < |offsets| ==> offsets[k] >= 0
  {
    offsets := [0];
    var acc := 0;
    for i := 0 to |steps|
      invariant |offsets| == i + 1
      invariant acc == Sum(steps[..i]) && acc >= 0
      invariant forall k :: 0 <= k <= i ==> offsets[k] == Sum(steps[..k]) && offsets[k] >= 0
    {
      SumPrefix(steps, i);
      acc := acc + steps[i];
      offsets := offsets + [acc];
    }
  }

  // ---------------------------------------------------------------------------
  // Arpeggio playback (reproducirArpegio)
  // ---------------------------------------------------------------------------

  /** A note to be played `atMs` milliseconds after the start, `offset` semitones above the root. */
  datatype Cue = Cue(atMs: nat, offset: int)

  /** An arpeggio plays its offsets up and then back down without the top, one note a second,
      the first at once. */
  method ArpeggioCues(kind: string) returns (cues: seq<Cue>)
    ensures var notes := ArpeggioOffsets(kind) + Mirror(ArpeggioOffsets(kind));
      |cues| == |notes| && forall k :: 0 <= k < |cues| ==> cues[k] == Cue(1000 * k, notes[k])
  {
    var up := ArpeggioOffsets(kind);
    cues := [];
    var at := 0;
    for i := 0 to |up|
      invariant |cues| == i && at == 1000 * i
      invariant forall k :: 0 <= k < i ==> cues[k] == Cue(1000 * k, up[k])
    {
      cues := cues + [Cue(at, up[i])];
      at := at + 1000;
    }
    var down := Mirror(up);
    for i := 0 to |down|
      invariant |cues| == |up| + i && at == 1000 * (|up| + i)
      invariant forall k :: 0 <= k < |up| ==> cues[k] == Cue(1000 * k, up[k])
      invariant forall k :: 0 <= k < i ==> cues[|up| + k] == Cue(1000 * (|up| + k), down[k])
    {
      cues := cues + [Cue(at, down[i])];
      at := at + 1000;
    }
  }

  /** The three arpeggios are seven notes from the root back to the root, the same both ways;
      an unknown kind plays nothing. */
  lemma ArpeggioShape(kind: string)
    ensures var notes := ArpeggioOffsets(kind) + Mirror(ArpeggioOffsets(kind));
      if kind in {"mayor", "menor", "dominante"} then
        |notes| == 7 && notes[0] == 0 && notes[6] == 0 && Palindrome(notes)
      else notes == []
  {
    var up := ArpeggioOffsets(kind);
    if kind in {"mayor", "menor", "dominante"} {
      MirrorPalindrome(up);
    }
  }

  // ---------------------------------------------------------------------------
  // Staff keys of a scale (generateKeys, renderScaleStaff)
  // ---------------------------------------------------------------------------

  /** The tonic as written on the staff: with "/4" appended when it names no octave. */
  function Display(tonicRaw: string): (r: string)
    ensures '/' in r
  {
    if '/' in tonicRaw then tonicRaw
    else
      var shown := tonicRaw + "/4";
      assert shown[|tonicRaw|] == '/';
      shown
  }

  /** Appending "/4" keeps the tonic's name. */
  lemma DisplayName(tonicRaw: string)
    ensures BeforeSlash(Display(tonicRaw)) == BeforeSlash(tonicRaw)
  {
    if '/' !in tonicRaw {
      SlashAfterName(tonicRaw, "4");
    }
  }

  /** The position of the tonic's name in the sharp alphabet; C for an unknown name. */
  function TonicIndex(tonicRaw: string): (r: nat)
    ensures r < 12
  {
    var i := NoteIndex(BeforeSlash(Display(tonicRaw)));
    if i == -1 then 0 else i
  }

  lemma TonicIndexName(tonicRaw: string)
    ensures TonicIndex(tonicRaw) < 12
    ensures BeforeSlash(tonicRaw) in NoteNames ==> NoteNames[TonicIndex(tonicRaw)] == BeforeSlash(tonicRaw)
    ensures BeforeSlash(tonicRaw) !in NoteNames ==> TonicIndex(tonicRaw) == 0
  {
    DisplayName(tonicRaw);
    NoteIndexSpec(BeforeSlash(tonicRaw));
  }

  /** The loop of `generateKeys`: one key per step, for the note `baseIndex` plus the running
      total semitones above C4. */
  method StepKeys(baseIndex: nat, steps: seq<nat>) returns (keys: seq<StaffKey>)
    ensures |keys| == |steps|
    ensures forall i :: 0 <= i < |keys| ==> keys[i] == KeyAt(baseIndex + Ascending(steps)[i + 1])
  {
    keys := [];
    var acc := 0;
    ghost var offsets := Ascending(steps);
    for i := 0 to |steps|
      invariant |keys| == i
      invariant acc == offsets[i] && acc >= 0
      invariant forall j :: 0 <= j < i ==> keys[j] == KeyAt(baseIndex + offsets[j + 1])
    {
      SumPrefix(steps, i);
      acc := acc + steps[i];
      var newIndex := (baseIndex + acc) % 12;
      var octaveShift := (baseIndex + acc) / 12;
      keys := keys + [Pitched(newIndex, 4 + octaveShift)];
    }
  }

  /** `keys` are the staff keys of a step sequence: the tonic as written, then one key per step,
      naming the tonic's position plus the running total of the steps above C4. */
  ghost predicate KeysOf(keys: seq<StaffKey>, tonicRaw: string, steps: seq<nat>)
  {
    |keys| == |steps| + 1 &&
    keys[0] == Written(Display(tonicRaw)) &&
    forall i :: 1 <= i < |keys| ==> KeyNames(keys[i], TonicIndex(tonicRaw) + Ascending(steps)[i])
  }

  /** The staff keys of a step sequence: the tonic as written, then one key per step, for the
      note the tonic's position plus the running total of the steps above C4. */
  method GenerateKeys(tonicRaw: string, steps: seq<nat>) returns (keys: seq<StaffKey>)
    ensures KeysOf(keys, tonicRaw, steps)
  {
    var display := Display(tonicRaw);
    var baseIndex := TonicIndex(tonicRaw);
    var rest := StepKeys(baseIndex, steps);
    keys := [Written(display)] + rest;
    PrependTonic(Written(display), baseIndex, rest, steps);
  }

  /** Putting the tonic before the keys of the steps shifts each step key up one place. */
  lemma PrependTonic(tonic: StaffKey, baseIndex: int, rest: seq<StaffKey>, steps: seq<nat>)
    requires |rest| == |steps|
    requires forall i :: 0 <= i < |rest| ==> rest[i] == KeyAt(baseIndex + Ascending(steps)[i + 1])
    ensures var keys := [tonic] + rest;
      |keys| == |steps| + 1 && keys[0] == tonic &&
      forall i :: 1 <= i < |keys| ==> KeyNames(keys[i], baseIndex + Ascending(steps)[i])
  {
    var keys := [tonic] + rest;
    forall i | 1 <= i < |keys|
      ensures KeyNames(keys[i], baseIndex + Ascending(steps)[i])
    {
      assert keys[i] == rest[i - 1] == KeyAt(baseIndex + Ascending(steps)[i]);
    }
  }

  /** The key signature of the scale staff: the tonic's name, respelt where the standard
      signatures have no such key. */
  function TonicSignature(tonicRaw: string): (r: string)
    ensures SpellingClass(r) == SpellingClass(BeforeSlash(tonicRaw))
    ensures BeforeSlash(tonicRaw) in NoteNames ==> r in StandardKeys
    ensures BeforeSlash(tonicRaw) !in {"D#", "G#", "A#", "Fb", "Cb", "E#"} ==> r == BeforeSlash(tonicRaw)
  {
    DisplayName(tonicRaw);
    FixKeySignature(BeforeSlash(Display(tonicRaw)))
  }

  /** The keys of the scale staff (`renderScaleStaff`): the whole performance, which begins and
      ends on the tonic as written and in between names exactly the offsets `ScaleOffsets`
      plays. */
  method ScaleStaffKeys(tonicRaw: string, kind: string) returns (keys: seq<StaffKey>)
    ensures |keys| == |ScaleOffsets(kind)|
    ensures keys[0] == Written(Display(tonicRaw)) && keys[|keys| - 1] == Written(Display(tonicRaw))
    ensures forall i :: 0 < i < |keys| - 1 ==> KeyNames(keys[i], TonicIndex(tonicRaw) + ScaleOffsets(kind)[i])
  {
    var steps := ScaleSteps(kind);
    var up := GenerateKeys(tonicRaw, steps);
    var downKeys := DescentKeys(tonicRaw, kind, up);
    keys := up + Mirror(downKeys);
    MirrorJoin(up, downKeys, TonicIndex(tonicRaw), Ascending(steps), Ascending(DescentSteps(kind)), Written(Display(tonicRaw)));
  }

  /** The keys the way down is mirrored from: those of the natural minor for the melodic minor,
      the way up's own otherwise. */
  method DescentKeys(tonicRaw: string, kind: string, up: seq<StaffKey>) returns (downKeys: seq<StaffKey>)
    requires KeysOf(up, tonicRaw, ScaleSteps(kind))
    ensures KeysOf(downKeys, tonicRaw, DescentSteps(kind))
  {
    if kind == "melodica" {
      downKeys := GenerateKeys(tonicRaw, ScaleSteps("menor"));
    } else {
      downKeys := up;
    }
  }

  /** Keys for the way up joined to the mirror of keys for the way down name the offsets of the
      way up joined to the mirror of the offsets of the way down; both end on the written tonic. */
  lemma MirrorJoin(up: seq<StaffKey>, down: seq<StaffKey>, base: int, upOffsets: seq<int>, downOffsets: seq<int>, tonic: StaffKey)
    requires |up| == |upOffsets| == |down| == |downOffsets| >= 2
    requires up[0] == tonic && down[0] == tonic
    requires forall i :: 1 <= i < |up| ==> KeyNames(up[i], base + upOffsets[i])
    requires forall i :: 1 <= i < |down| ==> KeyNames(down[i], base + downOffsets[i])
    ensures var keys := up + Mirror(down); var offsets := upOffsets + Mirror(downOffsets);
      |keys| == |offsets| && keys[0] == tonic && keys[|keys| - 1] == tonic &&
      forall i :: 0 < i < |keys| - 1 ==> KeyNames(keys[i], base + offsets[i])
  {
    var m := Mirror(down);
    var mo := Mirror(downOffsets);
    MirrorAt(down, |down| - 2);
    forall j | 0 <= j < |m| - 1
      ensures KeyNames(m[j], base + mo[j])
    {
      MirrorKeyAt(down, downOffsets, base, j);
    }
    JoinKeys(up, m, upOffsets, mo, base);
  }

  /** Keys naming their offsets after the first, followed by keys naming their offsets up to
      the last, name their offsets everywhere in between. */
  lemma JoinKeys(up: seq<StaffKey>, m: seq<StaffKey>, upOffsets: seq<int>, mo: seq<int>, base: int)
    requires |up| == |upOffsets| && |m| == |mo|
    requires forall i :: 1 <= i < |up| ==> KeyNames(up[i], base + upOffsets[i])
    requires forall j :: 0 <= j < |m| - 1 ==> KeyNames(m[j], base + mo[j])
    ensures forall i :: 0 < i < |up| + |m| - 1 ==> KeyNames((up + m)[i], base + (upOffsets + mo)[i])
  {
    var keys := up + m;
    var offsets := upOffsets + mo;
    var n := |up|;
    forall i | 0 < i < |keys| - 1
      ensures KeyNames(keys[i], base + offsets[i])
    {
      if i < n {
        assert keys[i] == up[i] && offsets[i] == upOffsets[i];
        assert KeyNames(up[i], base + upOffsets[i]);
      } else {
        assert keys[i] == m[i - n] && offsets[i] == mo[i - n];
        assert KeyNames(m[i - n], base + mo[i - n]);
      }
    }
  }

  /** On the way down, key j names the offset in the same position. */
  lemma MirrorKeyAt(down: seq<StaffKey>, downOffsets: seq<int>, base: int, j: nat)
    requires |down| == |downOffsets| && j + 2 < |down|
    requires forall i :: 1 <= i < |down| ==> KeyNames(down[i], base + downOffsets[i])
    ensures KeyNames(Mirror(down)[j], base + Mirror(downOffsets)[j])
  {
    var i := |down| - 2 - j;
    assert KeyNames(down[i], base + downOffsets[i]);
    MirrorAt(down, j);
    MirrorAt(downOffsets, j);
  }

  // ---------------------------------------------------------------------------
  // Scale playback (reproducirEscala, stopScalePlayback)
  // ---------------------------------------------------------------------------

  /** The way down of a scale performance, from the running totals of the way up: the totals of
      the natural minor for the melodic minor, the way up itself otherwise, each without its top
      note and reversed. */
  method DescendingTotals(kind: string, ascending: seq<int>) returns (descending: seq<int>)
    requires ascending == Ascending(ScaleSteps(kind))
    ensures descending == Descending(kind)
  {
    if kind == "melodica" {
      var downTotals := RunningTotals(ScaleSteps("menor"));
      descending := Reverse(downTotals[..|downTotals| - 1]);
      assert descending == Mirror(downTotals);
    } else {
      descending := Reverse(ascending[..|ascending| - 1]);
      assert descending == Mirror(ascending);
    }
  }

  /** A pending `setTimeout`: its handle and the note it will play. */
  datatype NoteTimer = NoteTimer(id: nat, cue: Cue)

  /** The timers of the way up followed by those of the way down, 0.9 s apart throughout,
      cue the whole run of offsets in order. */
  lemma JoinTimers(ts: seq<NoteTimer>, upTimers: seq<NoteTimer>, first: nat, up: seq<int>, down: seq<int>)
    requires |up| >= 1 && |ts| == |up| - 1 + |down|
    requires |upTimers| == |up| - 1 && ts[..|upTimers|] == upTimers
    requires forall k :: 0 <= k < |upTimers| ==> upTimers[k] == NoteTimer(first + k, Cue(900 * (k + 1), up[k + 1]))
    requires forall k :: 0 <= k < |down| ==>
      ts[|upTimers| + k] == NoteTimer(first + |upTimers| + k, Cue(900 * |up| + 900 * k, down[k]))
    ensures forall k :: 0 <= k < |ts| ==> ts[k] == NoteTimer(first + k, Cue(900 * (k + 1), (up + down)[k + 1]))
  {
    var n := |upTimers|;
    forall k | 0 <= k < |ts|
      ensures ts[k] == NoteTimer(first + k, Cue(900 * (k + 1), (up + down)[k + 1]))
    {
      if k < n {
        assert ts[k] == ts[..n][k] == upTimers[k];
      } else {
        assert ts[n + (k - n)] == NoteTimer(first + n + (k - n), Cue(900 * |up| + 900 * (k - n), down[k - n]));
      }
    }
  }

  /** The scale view's playback state: whether a scale is playing and the timers of the notes
      still to come. */
  class ScalePlayer {
    var playing: bool
    var timeouts: seq<NoteTimer>
    /** The handle the next `setTimeout` returns; handles are never reused. */
    var nextId: nat

    ghost predicate Valid()
      reads this
    {
      forall t :: t in timeouts ==> t.id < nextId
    }

    constructor ()
      ensures Valid() && !playing && timeouts == []
    {
      playing := false;
      timeouts := [];
      nextId := 1;
    }

    /** Cancels every pending note and clears the playing flag. */
    method Stop()
      requires Valid()
      modifies this
      ensures Valid() && !playing && timeouts == [] && nextId == old(nextId)
    {
      timeouts := [];
      playing := false;
    }

    /** The timer that clears the flag when the scale is over has fired. */
    method EndTimerFires()
      requires Valid()
      modifies this
      ensures Valid() && !playing && timeouts == old(timeouts) && nextId == old(nextId)
    {
      playing := false;
    }

    /** Gives every offset of `offsets` a timer, 0.9 s apart from `startMs` on, after the
        timers already pending. */
    method PushTimers(offsets: seq<int>, startMs: nat)
      requires Valid()
      modifies this
      ensures Valid() && playing == old(playing)
      ensures nextId == old(nextId) + |offsets|
      ensures |timeouts| == |old(timeouts)| + |offsets|
      ensures timeouts[..|old(timeouts)|] == old(timeouts)
      ensures forall k :: 0 <= k < |offsets| ==>
        timeouts[|old(timeouts)| + k] == NoteTimer(old(nextId) + k, Cue(startMs + 900 * k, offsets[k]))
    {
      ghost var before := timeouts;
      ghost var first := nextId;
      var at := startMs;
      for i := 0 to |offsets|
        invariant Valid() && playing == old(playing)
        invariant nextId == first + i && at == startMs + 900 * i
        invariant |timeouts| == |before| + i && timeouts[..|before|] == before
        invariant forall k :: 0 <= k < i ==> timeouts[|before| + k] == NoteTimer(first + k, Cue(startMs + 900 * k, offsets[k]))
      {
        timeouts := timeouts + [NoteTimer(nextId, Cue(at, offsets[i]))];
        nextId := nextId + 1;
        at := at + 900;
      }
    }

    /** The way up of a scale: the root sounds at once, and every running total of `steps` gets a
        timer, 0.9 s apart, after the timers already pending; `ascending` is the root and the
        running totals. */
    method PushClimb(steps: seq<nat>) returns (ascending: seq<int>)
      requires Valid() && timeouts == []
      modifies this
      ensures Valid() && playing == old(playing)
      ensures ascending == Ascending(steps)
      ensures nextId == old(nextId) + |steps| && |timeouts| == |steps|
      ensures forall k :: 0 <= k < |steps| ==>
        timeouts[k] == NoteTimer(old(nextId) + k, Cue(900 * (k + 1), ascending[k + 1]))
    {
      ghost var first := nextId;
      ascending := [0];
      var acc := 0;
      var at := 900;
      for i := 0 to |steps|
        invariant |ascending| == i + 1 && acc == Sum(steps[..i]) && acc == ascending[i]
        invariant forall k :: 0 <= k <= i ==> ascending[k] == Sum(steps[..k])
        invariant Valid() && playing == old(playing)
        invariant |timeouts| == i && nextId == first + i && at == 900 * (i + 1)
        invariant forall k :: 0 <= k < i ==> timeouts[k] == NoteTimer(first + k, Cue(900 * (k + 1), ascending[k + 1]))
      {
        SumPrefix(steps, i);
        acc := acc + steps[i];
        ascending := ascending + [acc];
        timeouts := timeouts + [NoteTimer(nextId, Cue(at, acc))];
        nextId := nextId + 1;
        at := at + 900;
      }
    }

    /** Starts a scale unless one is playing: the root sounds at once (`root` is its frequency)
        and every other note of `ScaleOffsets(kind)` gets a timer, 0.9 s apart, replacing all
        previously pending timers. */
    method Play(tonicRaw: string, kind: string) returns (started: bool, root: real)
      requires Valid()
      modifies this
      ensures Valid()
      ensures started == !old(playing)
      ensures !started ==> playing && timeouts == old(timeouts) && nextId == old(nextId)
      ensures started ==> playing && root == ReferenceFrequency(BeforeSlash(tonicRaw))
      ensures started ==> |timeouts| == |ScaleOffsets(kind)| - 1
      ensures started ==> forall k :: 0 <= k < |timeouts| ==>
        timeouts[k] == NoteTimer(old(nextId) + k, Cue(900 * (k + 1), ScaleOffsets(kind)[k + 1]))
      ensures started ==> forall t :: t in old(timeouts) ==> t !in timeouts
    {
      if playing {
        started, root := false, 0.0;
        return;
      }
      started := true;
      playing := true;
      timeouts := [];

      var display := Display(tonicRaw);
      var tonic := BeforeSlash(display);
      DisplayName(tonicRaw);
      root := ReferenceFrequency(tonic);
      ScheduleScale(kind);
      // The timer that clears `playing` at the end takes a handle but is not kept.
      nextId := nextId + 1;
    }

    /** Gives every note of the scale after the root a timer, 0.9 s apart: the way up, then the
        way down. */
    method ScheduleScale(kind: string)
      requires Valid() && timeouts == []
      modifies this
      ensures Valid() && playing == old(playing)
      ensures |timeouts| == |ScaleOffsets(kind)| - 1 && nextId == old(nextId) + |timeouts|
      ensures forall k :: 0 <= k < |timeouts| ==>
        timeouts[k] == NoteTimer(old(nextId) + k, Cue(900 * (k + 1), ScaleOffsets(kind)[k + 1]))
    {
      var up := ScaleSteps(kind);
      ghost var first := nextId;
      var ascending := PushClimb(up);
      var descending := DescendingTotals(kind, ascending);
      ghost var upTimers := timeouts;
      var at := 900 * (|up| + 1);
      PushTimers(descending, at);
      JoinTimers(timeouts, upTimers, first, ascending, descending);
      assert ascending + descending == ScaleOffsets(kind);
    }
  }
}
