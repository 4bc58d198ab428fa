/** Note names, staff keys of the form "Name/octave" and key signatures:
    the integer note arithmetic shared by the scale, interval and harmonics views. */
module Pitch {
  import opened Wrappers

  /** The twelve pitch classes from C, spelt with sharps only (the `notes` / `notesArr` /
      `noteNames` tables of the widget). */
  const NoteNames: seq<string> := ["C", "C#", "D", "D#", "E", "F", "F#", "G", "G#", "A", "A#", "B"]

  lemma NoteNamesFacts()
    ensures |NoteNames| == 12
    ensures forall i, j :: 0 <= i < j < |NoteNames| ==> NoteNames[i] != NoteNames[j]
    ensures forall i :: 0 <= i < |NoteNames| ==> '/' !in NoteNames[i]
  {
  }

  /** The pitch class of a natural note letter, or -1 for any other character. */
  function LetterClass(c: char): (r: int)
    ensures -1 <= r < 12
  {
    match c
    case 'C' => 0
    case 'D' => 2
    case 'E' => 4
    case 'F' => 5
    case 'G' => 7
    case 'A' => 9
    case 'B' => 11
    case _ => -1
  }

  /** The names of the sharp alphabet are exactly the natural letters and the five sharpened ones. */
  lemma NoteNameShape(name: string)
    ensures name in NoteNames <==>
      (|name| == 1 && LetterClass(name[0]) >= 0) ||
      (|name| == 2 && name[1] == '#' && name[0] in "CDFGA")
  {
    if name in NoteNames {
      var i :| 0 <= i < |NoteNames| && NoteNames[i] == name;
      assert i in {0, 1, 2, 3, 4, 5, 6, 7, 8, 9, 10, 11};
    } else if |name| == 1 {
      assert name == [name[0]];
    } else if |name| == 2 && name[1] == '#' {
      assert name == [name[0], '#'];
    }
  }

  /** `notes.indexOf(name)`: the position of `name` in the sharp alphabet, or -1.
      A name is a letter, optionally followed by '#' when the letter has a sharp. */
  function NoteIndex(name: string): (r: int)
    ensures -1 <= r < 12
  {
    if |name| == 1 then LetterClass(name[0])
    else if |name| == 2 && name[1] == '#' && name[0] in "CDFGA" then LetterClass(name[0]) + 1
    else -1
  }

  /** `NoteIndex` finds exactly the names of the sharp alphabet, at their own position. */
  lemma NoteIndexSpec(name: string)
    ensures NoteIndex(name) == -1 <==> name !in NoteNames
    ensures 0 <= NoteIndex(name) ==> NoteNames[NoteIndex(name)] == name
  {
    NoteNameShape(name);
  }

  lemma NoteIndexOfName(k: nat)
    requires k < 12
    ensures NoteIndex(NoteNames[k]) == k
  {
    NoteNamesFacts();
  }

  /** The reference frequencies of octave 4 in Hz (`notasBase`), in the order the widget lists them. */
  const ReferenceNotes: seq<(string, real)> := [
    ("C", 261.63), ("C#", 277.18), ("D", 293.66), ("D#", 311.13), ("E", 329.63), ("F", 349.23),
    ("F#", 369.99), ("G", 392.00), ("G#", 415.30), ("A", 440.00), ("A#", 466.16), ("B", 493.88)]

  lemma ReferenceNotesFacts()
    ensures |ReferenceNotes| == 12
    ensures forall k :: 0 <= k < 12 ==> ReferenceNotes[k].0 == NoteNames[k] && ReferenceNotes[k].1 > 0.0
  {
  }

  /** `notasBase[name] || 261.63`: the octave-4 frequency of a note name, C4 for any other text. */
  function ReferenceFrequency(name: string): (r: real)
    ensures name in NoteNames ==> r == ReferenceNotes[NoteIndex(name)].1
    ensures name !in NoteNames ==> r == 261.63
  {
    ReferenceNotesFacts();
    NoteIndexSpec(name);
    var i := NoteIndex(name);
    if i < 0 then 261.63 else ReferenceNotes[i].1
  }

  // ---------------------------------------------------------------------------
  // Transposition of a note name (getNoteName)
  // ---------------------------------------------------------------------------

  /** The name `semitones` above `baseName` on the sharp alphabet, or "" for a name outside it. */
  function GetNoteName(baseName: string, semitones: nat): (r: string)
    ensures NoteIndex(baseName) == -1 ==> r == ""
    ensures 0 <= NoteIndex(baseName) ==> NoteIndex(r) == (NoteIndex(baseName) + semitones) % 12
  {
    var baseIndex := NoteIndex(baseName);
    if baseIndex == -1 then ""
    else
      var k := (baseIndex + semitones) % 12;
      NoteIndexOfName(k);
      NoteNames[k]
  }

  /** An unknown base gives the empty name; a known one gives the name `semitones` further
      round the circle of twelve. */
  lemma GetNoteNameSpec(baseName: string, semitones: nat)
    ensures baseName !in NoteNames ==> GetNoteName(baseName, semitones) == ""
    ensures baseName in NoteNames ==>
      GetNoteName(baseName, semitones) in NoteNames &&
      NoteIndex(GetNoteName(baseName, semitones)) == (NoteIndex(baseName) + semitones) % 12
  {
    NoteIndexSpec(baseName);
    if baseName in NoteNames {
      NoteIndexOfName((NoteIndex(baseName) + semitones) % 12);
    }
  }

  lemma TransposeExamples()
    ensures GetNoteName("C", 7) == "G"
    ensures GetNoteName("B", 1) == "C"
    ensures GetNoteName("H", 3) == ""
  {
    assert NoteIndex("C") == 0 && GetNoteName("C", 7) == NoteNames[7];
    assert NoteIndex("B") == 11 && GetNoteName("B", 1) == NoteNames[0];
    assert NoteIndex("H") == -1;
  }

  /** A transposition by a whole octave does not change the name. */
  lemma TransposeOctave(baseName: string, semitones: nat)
    ensures GetNoteName(baseName, semitones + 12) == GetNoteName(baseName, semitones)
  {
    NoteIndexSpec(baseName);
    ModOctaves(NoteIndex(baseName) + semitones, 12);
  }

  /** Two transpositions in a row are one transposition by the sum. */
  lemma TransposeCompose(baseName: string, s: nat, t: nat)
    ensures GetNoteName(GetNoteName(baseName, s), t) == GetNoteName(baseName, s + t)
  {
    var i := NoteIndex(baseName);
    if 0 <= i {
      var j := (i + s) % 12;
      NameAfter(baseName, s);
      NameAfterName(j, t);
      ModCompose(i, s, t);
      NameAfter(baseName, s + t);
      assert GetNoteName(GetNoteName(baseName, s), t) == NoteNames[(j + t) % 12];
    } else {
      assert GetNoteName(baseName, s) == "" && NoteIndex("") == -1;
    }
  }

  lemma NameAfterName(j: nat, t: nat)
    requires j < 12
    ensures GetNoteName(NoteNames[j], t) == NoteNames[(j + t) % 12]
  {
    NoteIndexOfName(j);
    NameAfter(NoteNames[j], t);
  }

  lemma NameAfter(baseName: string, semitones: nat)
    requires 0 <= NoteIndex(baseName)
    ensures GetNoteName(baseName, semitones) == NoteNames[(NoteIndex(baseName) + semitones) % 12]
  {
  }

  lemma ModCompose(i: int, s: int, t: int)
    ensures ((i + s) % 12 + t) % 12 == (i + (s + t)) % 12
  {
  }

  /** Transposing up by a complement of an interval (the two adding up to whole octaves)
      returns to the starting name. */
  lemma TransposeBack(baseName: string, s: nat, t: nat)
    requires baseName in NoteNames && (s + t) % 12 == 0
    ensures GetNoteName(GetNoteName(baseName, s), t) == baseName
  {
    TransposeCompose(baseName, s, t);
    TransposeWhole(baseName, s + t);
  }

  /** Transposing by whole octaves gives the same name. */
  lemma TransposeWhole(baseName: string, semitones: nat)
    requires baseName in NoteNames && semitones % 12 == 0
    ensures GetNoteName(baseName, semitones) == baseName
  {
    NoteIndexSpec(baseName);
    WholeAt(baseName, semitones);
  }

  lemma WholeAt(baseName: string, semitones: nat)
    requires 0 <= NoteIndex(baseName) && NoteNames[NoteIndex(baseName)] == baseName
    requires semitones % 12 == 0
    ensures GetNoteName(baseName, semitones) == baseName
  {
    NameAfter(baseName, semitones);
    WholeIndex(NoteIndex(baseName), semitones);
  }

  lemma WholeIndex(i: int, x: int)
    requires 0 <= i < 12 && x % 12 == 0
    ensures (i + x) % 12 == i
  {
    ModOctaves(i, x);
  }

  /** A note name is determined by its index. */
  lemma SameIndexSameName(a: string, b: string)
    requires a in NoteNames && b in NoteNames && NoteIndex(a) == NoteIndex(b)
    ensures a == b
  {
    NoteIndexSpec(a);
    NoteIndexSpec(b);
  }

  lemma ModOctaves(i: int, x: int)
    requires x % 12 == 0
    ensures (i + x) % 12 == i % 12
  {
  }

  // ---------------------------------------------------------------------------
  // Splitting a semitone offset from C4 into pitch class and octave
  // ---------------------------------------------------------------------------

  /** JavaScript's `a % 12`, whose sign follows the dividend (truncating division). */
  function JsRem12(a: int): (r: int)
    ensures -12 < r < 12
    ensures (a - r) % 12 == 0
    ensures a >= 0 ==> r >= 0
    ensures a <= 0 ==> r <= 0
  {
    if a >= 0 then a % 12 else -((-a) % 12)
  }

  /** `((s % 12) + 12) % 12`: the pitch class of an offset of `s` semitones from C. */
  function PitchClass(s: int): (r: nat)
    ensures r < 12
    ensures r == s % 12
  {
    JsRem12(JsRem12(s) + 12)
  }

  /** `4 + Math.floor(s / 12)`: the octave number of an offset of `s` semitones from C4
      (Dafny's `/` by a positive divisor rounds down, as `Math.floor` does). */
  function Octave(s: int): (r: int)
    ensures 12 * (r - 4) <= s < 12 * (r - 4) + 12
  {
    4 + s / 12
  }

  /** Pitch class and octave together determine the offset again. */
  lemma OffsetSplit(s: int)
    ensures 12 * (Octave(s) - 4) + PitchClass(s) == s
  {
  }

  // ---------------------------------------------------------------------------
  // Decimal text, as JavaScript writes an integer into a string
  // ---------------------------------------------------------------------------

  function DigitChar(d: nat): char
    requires d < 10
  {
    (48 + d) as char
  }

  function DigitValue(c: char): int
  {
    if '0' <= c <= '9' then c as int - 48 else -1
  }

  function NatText(n: nat): (r: string)
    ensures |r| >= 1
  {
    if n < 10 then [DigitChar(n)] else NatText(n / 10) + [DigitChar(n % 10)]
  }

  /** `String(i)`. */
  function IntText(i: int): (r: string)
    ensures |r| >= 1
  {
    if i < 0 then "-" + NatText(-i) else NatText(i)
  }

  function ParseNat(s: string): Option<nat>
  {
    if |s| == 0 then None
    else
      var d := DigitValue(s[|s| - 1]);
      if d < 0 then None
      else if |s| == 1 then Some(d)
      else match ParseNat(s[..|s| - 1])
        case None => None
        case Some(n) => Some(10 * n + d)
  }

  function ParseInt(s: string): Option<int>
  {
    if |s| > 0 && s[0] == '-' then
      match ParseNat(s[1..])
      case None => None
      case Some(n) => Some(-(n as int))
    else
      match ParseNat(s)
      case None => None
      case Some(n) => Some(n)
  }

  lemma {:induction false} NatTextRoundTrip(n: nat)
    ensures ParseNat(NatText(n)) == Some(n)
    ensures NatText(n)[0] != '-'
  {
    if n >= 10 {
      NatTextRoundTrip(n / 10);
      var t := NatText(n);
      assert t[..|t| - 1] == NatText(n / 10);
    }
  }

  /** Reading back the text of an integer gives the integer. */
  lemma IntTextRoundTrip(i: int)
    ensures ParseInt(IntText(i)) == Some(i)
  {
    if i < 0 {
      NatTextRoundTrip(-i);
      ParseMinus(NatText(-i), -i);
    } else {
      NatTextRoundTrip(i);
      ParsePlain(NatText(i), i);
    }
  }

  lemma ParseMinus(t: string, n: nat)
    requires ParseNat(t) == Some(n)
    ensures ParseInt("-" + t) == Some(-(n as int))
  {
    assert ("-" + t)[1..] == t;
  }

  lemma ParsePlain(t: string, n: nat)
    requires ParseNat(t) == Some(n) && t[0] != '-'
    ensures ParseInt(t) == Some(n)
  {
  }

  // ---------------------------------------------------------------------------
  // Staff keys "Name/octave"
  // ---------------------------------------------------------------------------

  type PitchIndex = p: nat | p < 12

  /** A key as the staff is given it: a tonic exactly as the user wrote it, or a note name of
      the sharp alphabet with its octave. */
  datatype StaffKey = Written(text: string) | Pitched(pitchClass: PitchIndex, octave: int)

  /** The key of the note `s` semitones above C4. */
  function KeyAt(s: int): (k: StaffKey)
    ensures KeyNames(k, s)
  {
    Pitched(PitchClass(s), Octave(s))
  }

  /** `k` is the key of the note `s` semitones above C4: 12 per octave above the fourth, plus
      the position of its name. */
  predicate KeyNames(k: StaffKey, s: int)
  {
    k.Pitched? && 12 * (k.octave - 4) + k.pitchClass == s
  }

  /** The text of a key: "Name/octave" for a note. */
  function KeyText(k: StaffKey): string
  {
    match k
    case Written(t) => t
    case Pitched(p, o) => NoteNames[p] + "/" + IntText(o)
  }

  /** `freqToNoteArmonicos`, from the offset its frequency rounds to (in semitones from C4). */
  function FreqToNote(s: int): (r: string)
    ensures ParseKey(r) == Some(s)
  {
    var k := KeyAt(s);
    KeyTextRoundTrip(k);
    KeyText(k)
  }

  /** `s.split("/")[0]`: the text before the first slash, or all of it. */
  function BeforeSlash(s: string): (r: string)
    ensures r <= s && '/' !in r
    ensures |r| < |s| ==> s[|r|] == '/'
    ensures '/' !in s ==> r == s
  {
    var i := IndexOf(s, '/');
    if i < 0 then s else s[..i]
  }

  /** How a staff key is read back as a semitone offset from C4: the note name before the
      slash and the octave number after it. */
  function ParseKey(k: string): Option<int>
  {
    var i := IndexOf(k, '/');
    if i < 0 then None
    else
      var idx := NoteIndex(k[..i]);
      if idx < 0 then None
      else match ParseInt(k[i + 1..])
        case None => None
        case Some(octave) => Some(12 * (octave - 4) + idx)
  }

  lemma SlashAfterName(name: string, rest: string)
    requires '/' !in name
    ensures IndexOf(name + "/" + rest, '/') == |name|
  {
    var s := name + "/" + rest;
    var i := IndexOf(s, '/');
    assert s[|name|] == '/';
  }

  lemma NameHasNoSlash(k: nat)
    requires k < 12
    ensures '/' !in NoteNames[k]
  {
  }

  /** "name/octave" reads back as the offset of that name in that octave. */
  lemma ParseKeyText(name: string, octave: int)
    requires '/' !in name && NoteIndex(name) >= 0
    ensures ParseKey(name + "/" + IntText(octave)) == Some(12 * (octave - 4) + NoteIndex(name))
  {
    IntTextRoundTrip(octave);
    ParseKeySplit(name, IntText(octave), octave);
  }

  /** A key with a slash after a note name is read as that name and the number after the slash. */
  lemma ParseKeySplit(name: string, rest: string, octave: int)
    requires '/' !in name && NoteIndex(name) >= 0 && ParseInt(rest) == Some(octave)
    ensures ParseKey(name + "/" + rest) == Some(12 * (octave - 4) + NoteIndex(name))
  {
    var k := name + "/" + rest;
    SlashAfterName(name, rest);
    assert k[..|name|] == name;
    assert k[|name| + 1..] == rest;
  }

  /** The text of a note's key reads back as its offset. */
  lemma KeyTextRoundTrip(k: StaffKey)
    requires k.Pitched?
    ensures ParseKey(KeyText(k)) == Some(12 * (k.octave - 4) + k.pitchClass)
  {
    var p := k.pitchClass;
    NoteIndexOfName(p);
    NameHasNoSlash(p);
    assert KeyText(k) == NoteNames[p] + "/" + IntText(k.octave);
    ParseKeyText(NoteNames[p], k.octave);
  }

  lemma FreqToNoteInjective(s: int, t: int)
    requires FreqToNote(s) == FreqToNote(t)
    ensures s == t
  {
    assert ParseKey(FreqToNote(s)) == Some(s) && ParseKey(FreqToNote(t)) == Some(t);
  }

  // ---------------------------------------------------------------------------
  // Key signatures (fixKeySignature)
  // ---------------------------------------------------------------------------

  /** The fifteen major key signatures, from seven flats to seven sharps. */
  const StandardKeys: set<string> :=
    {"Cb", "Gb", "Db", "Ab", "Eb", "Bb", "F", "C", "G", "D", "A", "E", "B", "F#", "C#"}

  /** The pitch class a spelling "Letter", "Letter#" or "Letterb" sounds, or None for any other text. */
  function SpellingClass(name: string): Option<nat>
  {
    if |name| == 0 || |name| > 2 || LetterClass(name[0]) < 0 then None
    else
      var letter := LetterClass(name[0]);
      if |name| == 1 then Some(letter)
      else if name[1] == '#' then Some((letter + 1) % 12)
      else if name[1] == 'b' then Some((letter + 11) % 12)
      else None
  }

  /** Respells the six keys that have no standard signature as their enharmonic equivalents
      and leaves every other key as it is. */
  function FixKeySignature(key: string): (r: string)
    ensures SpellingClass(r) == SpellingClass(key)
    ensures r != key <==> key in {"D#", "G#", "A#", "Fb", "Cb", "E#"}
    ensures key in {"D#", "G#", "A#", "Fb", "Cb", "E#"} ==> r in StandardKeys
    ensures key in NoteNames ==> r in StandardKeys
  {
    match key
    case "D#" => "Eb"
    case "G#" => "Ab"
    case "A#" => "Bb"
    case "Fb" => "E"
    case "Cb" => "B"
    case "E#" => "F"
    case _ => key
  }

  /** Every name of the sharp alphabet is a spelling of its own pitch class. */
  lemma SpellingOfName(name: string)
    requires name in NoteNames
    ensures SpellingClass(name) == Some(NoteIndex(name))
  {
    NoteNameShape(name);
  }

  lemma FixKeySignatureIdempotent(key: string)
    ensures FixKeySignature(FixKeySignature(key)) == FixKeySignature(key)
  {
  }
}
