/**
 * Musical-note conversion and four-character codes (XvAudioSystem/Private/Utils.swift).
 *
 * A note name such as "A#4" is split into a letter part ("A#") and an octave part ("4");
 * the letter part is looked up in a 17-entry semitone table and the note's MIDI-style
 * number is (octave + 1) * 12 + semitone, so "C3" is 48 and "A4" is 69.  Cents and
 * varispeed rates are semitone deltas from a base note, "C3" by default.
 */
module Utils {
  import opened Wrappers

  /** Largest value of Swift's 64-bit `Int`: `Int(String)` is nil above it. */
  const IntMax: int := 0x7FFF_FFFF_FFFF_FFFF

  /** Base note of pitchShiftCents and varispeedRate when the caller gives none. */
  const DefaultBase: string := "C3"

  /** The note table of midiNoteNumber: letter part to semitone within the octave. */
  const NoteMap: map<string, nat> := map[
    "C" := 0, "C#" := 1, "Db" := 1, "D" := 2, "D#" := 3, "Eb" := 3,
    "E" := 4, "F" := 5, "F#" := 6, "Gb" := 6, "G" := 7, "G#" := 8,
    "Ab" := 8, "A" := 9, "A#" := 10, "Bb" := 10, "B" := 11
  ]

  // ---------------------------------------------------------------------------
  // Character classes (Swift's Character.isLetter / isNumber, restricted to ASCII)
  // ---------------------------------------------------------------------------

  predicate IsLetter(c: char) { 'A' <= c <= 'Z' || 'a' <= c <= 'z' }

  /** The characters midiNoteNumber appends to its letter part. */
  predicate KeptAsLetter(c: char) { IsLetter(c) || c == '#' || c == 'b' }

  predicate IsDigit(c: char) { '0' <= c <= '9' }

  predicate AllKeptAsLetters(s: string) { forall k :: 0 <= k < |s| ==> KeptAsLetter(s[k]) }

  predicate AllDigits(s: string) { forall k :: 0 <= k < |s| ==> IsDigit(s[k]) }

  // ---------------------------------------------------------------------------
  // Splitting a note name
  // ---------------------------------------------------------------------------

  /** The letter part midiNoteNumber collects: every letter, '#' and 'b', in order. */
  function LetterPart(note: string): (r: string)
    ensures AllKeptAsLetters(r) && |r| <= |note|
  {
    if note == [] then []
    else
      var c := note[|note| - 1];
      LetterPart(note[..|note| - 1]) + (if KeptAsLetter(c) then [c] else [])
  }

  /** The octave part midiNoteNumber collects: every digit that is not a letter, in order. */
  function OctavePart(note: string): (r: string)
    ensures AllDigits(r) && |r| <= |note|
  {
    if note == [] then []
    else
      var c := note[|note| - 1];
      OctavePart(note[..|note| - 1]) + (if !KeptAsLetter(c) && IsDigit(c) then [c] else [])
  }

  function DigitValue(c: char): nat
    requires IsDigit(c)
  {
    (c as int) - ('0' as int)
  }

  /** The number a string of decimal digits denotes. */
  function DecimalValue(digits: string): nat
    requires AllDigits(digits)
  {
    if digits == [] then 0
    else DecimalValue(digits[..|digits| - 1]) * 10 + DigitValue(digits[|digits| - 1])
  }

  /** Swift's `Int(String)` on a string of digits: nil when empty or above Int.max. */
  function ParseDigits(digits: string): Option<int>
    requires AllDigits(digits)
  {
    if digits == [] || DecimalValue(digits) > IntMax then None else Some(DecimalValue(digits))
  }

  /**
   * The number a split note denotes: nil unless the letter part is a key of the note
   * table and the octave part parses, otherwise (octave + 1) * 12 + semitone.  The
   * number determines the table entry (its remainder by 12) and the octave.
   */
  function NoteNumber(letters: string, octave: string): (r: Option<int>)
    requires AllDigits(octave)
    ensures r.Some? <==> letters in NoteMap && octave != [] && DecimalValue(octave) <= IntMax
    ensures r.Some? ==> r.value >= 12
                        && r.value % 12 == NoteMap[letters]
                        && r.value / 12 == DecimalValue(octave) + 1
  {
    var parsed := ParseDigits(octave);
    if letters in NoteMap && parsed.Some? then
      NoteMapRange();
      Some((parsed.value + 1) * 12 + NoteMap[letters])
    else
      None
  }

  /** The value midiNoteNumber(from:) returns for a note name. */
  function MidiNumber(note: string): Option<int>
  {
    NoteNumber(LetterPart(note), OctavePart(note))
  }

  /** midiNoteNumber(from:): one pass over the characters building both parts. */
  method MidiNoteNumber(note: string) returns (r: Option<int>)
    ensures r == MidiNumber(note)
  {
    var letterPart := "";
    var octavePart := "";
    for i := 0 to |note|
      invariant letterPart == LetterPart(note[..i])
      invariant octavePart == OctavePart(note[..i])
    {
      var c := note[i];
      if KeptAsLetter(c) {
        letterPart := letterPart + [c];
      } else if IsDigit(c) {
        octavePart := octavePart + [c];
      }
      assert note[..i + 1][..i] == note[..i];
    }
    assert note[..|note|] == note;
    var octave := ParseDigits(octavePart);
    if letterPart in NoteMap && octave.Some? {
      r := Some((octave.value + 1) * 12 + NoteMap[letterPart]);
    } else {
      r := None;
    }
  }

  // ---------------------------------------------------------------------------
  // The note table
  // ---------------------------------------------------------------------------

  /** Every table entry is a semitone within the octave. */
  lemma NoteMapRange()
    ensures forall name :: name in NoteMap ==> NoteMap[name] < 12
  {
  }

  /** The sharp spelling of each of the twelve semitones. */
  const SharpNames: seq<string> := ["C", "C#", "D", "D#", "E", "F", "F#", "G", "G#", "A", "A#", "B"]

  /** Every semitone 0..11 has a sharp spelling in the table. */
  lemma SharpNamesInTable()
    ensures |SharpNames| == 12
    ensures forall k :: 0 <= k < 12 ==> SharpNames[k] in NoteMap && NoteMap[SharpNames[k]] == k
    ensures forall k :: 0 <= k < 12 ==> AllKeptAsLetters(SharpNames[k])
  {
  }

  /** The enharmonic pairs of the table name the same semitone. */
  lemma EnharmonicTable()
    ensures NoteMap["C#"] == NoteMap["Db"] && NoteMap["D#"] == NoteMap["Eb"]
    ensures NoteMap["F#"] == NoteMap["Gb"] && NoteMap["G#"] == NoteMap["Ab"]
    ensures NoteMap["A#"] == NoteMap["Bb"]
  {
  }

  // ---------------------------------------------------------------------------
  // Properties of the split
  // ---------------------------------------------------------------------------

  lemma {:induction false} LetterPartAppend(a: string, b: string)
    ensures LetterPart(a + b) == LetterPart(a) + LetterPart(b)
    ensures OctavePart(a + b) == OctavePart(a) + OctavePart(b)
    decreases |b|
  {
    if b == [] {
      assert a + b == a;
    } else {
      var b' := b[..|b| - 1];
      assert (a + b)[..|a + b| - 1] == a + b';
      assert (a + b)[|a + b| - 1] == b[|b| - 1];
      LetterPartAppend(a, b');
    }
  }

  lemma {:induction false} LettersOnly(s: string)
    requires AllKeptAsLetters(s)
    ensures LetterPart(s) == s && OctavePart(s) == []
  {
    if s != [] {
      LettersOnly(s[..|s| - 1]);
      assert s[..|s| - 1] + [s[|s| - 1]] == s;
    }
  }

  lemma {:induction false} DigitsOnly(s: string)
    requires AllDigits(s)
    ensures LetterPart(s) == [] && OctavePart(s) == s
  {
    if s != [] {
      DigitsOnly(s[..|s| - 1]);
      assert s[..|s| - 1] + [s[|s| - 1]] == s;
    }
  }

  /**
   * A character that is neither a letter, '#', 'b' nor a digit is dropped: it changes
   * neither part, so "C-1" reads as "C1".
   */
  lemma DroppedCharacter(a: string, c: char, b: string)
    requires !KeptAsLetter(c) && !IsDigit(c)
    ensures MidiNumber(a + [c] + b) == MidiNumber(a + b)
  {
    LetterPartAppend(a + [c], b);
    LetterPartAppend(a, [c]);
    LetterPartAppend(a, b);
    assert [c][..0] == [];
    assert LetterPart([c]) == [] && OctavePart([c]) == [];
    assert LetterPart(a + [c]) == LetterPart(a) + [] == LetterPart(a);
    assert OctavePart(a + [c]) == OctavePart(a) + [] == OctavePart(a);
    assert LetterPart(a + [c] + b) == LetterPart(a + b);
    assert OctavePart(a + [c] + b) == OctavePart(a + b);
  }

  /** A name made of letters followed by digits splits into exactly those two parts. */
  lemma NoteWithOctave(name: string, digits: string)
    requires AllKeptAsLetters(name) && AllDigits(digits)
    ensures MidiNumber(name + digits) == NoteNumber(name, digits)
  {
    LetterPartAppend(name, digits);
    LettersOnly(name);
    DigitsOnly(digits);
    assert LetterPart(name + digits) == name + [] == name;
    assert OctavePart(name + digits) == [] + digits == digits;
  }

  /** A name followed by a single octave digit. */
  lemma OneOctaveDigit(name: string, c: char)
    requires AllKeptAsLetters(name) && IsDigit(c)
    ensures AllDigits([c]) && DecimalValue([c]) == DigitValue(c)
    ensures MidiNumber(name + [c]) == NoteNumber(name, [c])
  {
    assert [c][..0] == [];
    NoteWithOctave(name, [c]);
  }

  /** C3, the default base note, is 48. */
  lemma MidiOfC3()
    ensures MidiNumber("C3") == Some(48)
  {
    OneOctaveDigit("C", '3');
    assert "C" + ['3'] == "C3";
    assert "C" in NoteMap && NoteMap["C"] == 0;
    assert ParseDigits("3") == Some(3);
  }

  /** C4 is 60. */
  lemma MidiOfC4()
    ensures MidiNumber("C4") == Some(60)
  {
    OneOctaveDigit("C", '4');
    assert "C" + ['4'] == "C4";
    assert "C" in NoteMap && NoteMap["C"] == 0;
    assert ParseDigits("4") == Some(4);
  }

  /** A4 is 69. */
  lemma MidiOfA4()
    ensures MidiNumber("A4") == Some(69)
  {
    OneOctaveDigit("A", '4');
    assert "A" + ['4'] == "A4";
    assert "A" in NoteMap && NoteMap["A"] == 9;
    assert ParseDigits("4") == Some(4);
  }

  /** C2 is 36. */
  lemma MidiOfC2()
    ensures MidiNumber("C2") == Some(36)
  {
    OneOctaveDigit("C", '2');
    assert "C" + ['2'] == "C2";
    assert "C" in NoteMap && NoteMap["C"] == 0;
    assert ParseDigits("2") == Some(2);
  }

  /** A letter part outside the table gives nil, whatever octave digits follow. */
  lemma UnlistedLetters(name: string, digits: string)
    requires AllKeptAsLetters(name) && AllDigits(digits) && name !in NoteMap
    ensures MidiNumber(name + digits) == None
  {
    NoteWithOctave(name, digits);
  }

  /**
   * "H" is no note name, "E#" is not listed although it names the pitch of "F", and
   * the letter 'x' of "Cx" joins the letter part: all three give nil.
   */
  lemma MidiOfUnlisted()
    ensures MidiNumber("H3") == None
    ensures MidiNumber("E#3") == None
    ensures MidiNumber("Cx3") == None
  {
    assert "H" !in NoteMap && "E#" !in NoteMap && "Cx" !in NoteMap;
    assert AllDigits("3");
    UnlistedLetters("H", "3");
    assert "H" + "3" == "H3";
    UnlistedLetters("E#", "3");
    assert "E#" + "3" == "E#3";
    UnlistedLetters("Cx", "3");
    assert "Cx" + "3" == "Cx3";
  }

  /** A name without octave digits gives nil. */
  lemma MidiOfNoOctave()
    ensures MidiNumber("C") == None
  {
    NoteWithOctave("C", "");
    assert "C" + "" == "C";
  }

  /** The minus sign of "C-1" is dropped: it is note C1, number 24. */
  lemma MinusSignDropped()
    ensures MidiNumber("C-1") == MidiNumber("C1") == Some(24)
  {
    DroppedCharacter("C", '-', "1");
    assert "C" + ['-'] + "1" == "C-1";
    assert "C" + "1" == "C1";
    MidiOfC1();
  }

  /** C1 is 24. */
  lemma MidiOfC1()
    ensures MidiNumber("C1") == Some(24)
  {
    OneOctaveDigit("C", '1');
    assert "C" + ['1'] == "C1";
    assert "C" in NoteMap && NoteMap["C"] == 0;
    assert ParseDigits("1") == Some(1);
  }

  /** Two spellings of the same semitone give the same number with any octave digits. */
  lemma SameSemitone(a: string, b: string, digits: string)
    requires AllKeptAsLetters(a) && AllKeptAsLetters(b) && AllDigits(digits)
    requires a in NoteMap && b in NoteMap && NoteMap[a] == NoteMap[b]
    ensures MidiNumber(a + digits) == MidiNumber(b + digits)
  {
    NoteWithOctave(a, digits);
    NoteWithOctave(b, digits);
  }

  // ---------------------------------------------------------------------------
  // The inverse: naming a MIDI number
  // ---------------------------------------------------------------------------

  /** Decimal digits of n, most significant first; the inverse of DecimalValue. */
  function DecimalString(n: nat): (r: string)
    ensures r != [] && AllDigits(r) && DecimalValue(r) == n
  {
    if n < 10 then
      [('0' as int + n) as char]
    else
      var prefix := DecimalString(n / 10);
      var r := prefix + [('0' as int + n % 10) as char];
      assert r[..|r| - 1] == prefix;
      r
  }

  /** The sharp spelling of a MIDI number of octave 0 or above, as in "A#4". */
  function NoteName(midi: int): string
    requires midi >= 12
  {
    SharpNames[midi % 12] + DecimalString(midi / 12 - 1)
  }

  /** Naming a number and reading the name back gives the number again. */
  lemma NoteNameRoundTrip(midi: int)
    requires midi >= 12 && midi / 12 - 1 <= IntMax
    ensures MidiNumber(NoteName(midi)) == Some(midi)
  {
    SharpNamesInTable();
    var k := midi % 12;
    NoteWithOctave(SharpNames[k], DecimalString(midi / 12 - 1));
  }

  /** Every note that parses has the canonical sharp name of its number. */
  lemma ParsedNoteHasName(note: string)
    requires MidiNumber(note).Some?
    ensures MidiNumber(NoteName(MidiNumber(note).value)) == MidiNumber(note)
  {
    NoteNameRoundTrip(MidiNumber(note).value);
  }

  // ---------------------------------------------------------------------------
  // Cents and varispeed
  // ---------------------------------------------------------------------------

  /** pitchShiftCents(target:base:): the semitone delta times 100, nil if either note fails. */
  function PitchShiftCents(target: string, base: string): (r: Option<int>)
    ensures r.None? <==> MidiNumber(target).None? || MidiNumber(base).None?
    ensures r.Some? ==> r.value % 100 == 0
  {
    match (MidiNumber(target), MidiNumber(base))
    case (Some(t), Some(b)) => Some((t - b) * 100)
    case _ => None
  }

  function Negated(x: Option<int>): Option<int> {
    match x
    case Some(v) => Some(-v)
    case None => None
  }

  /** Swapping target and base negates the cents. */
  lemma CentsAntisymmetric(a: string, b: string)
    ensures PitchShiftCents(a, b) == Negated(PitchShiftCents(b, a))
  {
  }

  /** A note is 0 cents from itself. */
  lemma CentsOfSelf(a: string)
    requires MidiNumber(a).Some?
    ensures PitchShiftCents(a, a) == Some(0)
  {
  }

  /** Cents add up along a chain of notes that all parse. */
  lemma CentsChain(a: string, b: string, c: string)
    requires MidiNumber(a).Some? && MidiNumber(b).Some? && MidiNumber(c).Some?
    ensures PitchShiftCents(a, c).value == PitchShiftCents(a, b).value + PitchShiftCents(b, c).value
  {
  }

  lemma CentsExamples()
    ensures PitchShiftCents("C3", DefaultBase) == Some(0)
    ensures PitchShiftCents("C4", DefaultBase) == Some(1200)
  {
    MidiOfC3();
    MidiOfC4();
  }

  /**
   * The exponent numerator of varispeedRate(target:base:): the rate is
   * 2^(semitones / 12); nil if either note fails.
   */
  function VarispeedSemitones(target: string, base: string): (r: Option<int>)
    ensures r.None? <==> MidiNumber(target).None? || MidiNumber(base).None?
  {
    match (MidiNumber(target), MidiNumber(base))
    case (Some(t), Some(b)) => Some(t - b)
    case _ => None
  }

  /** varispeedRate is nil exactly when pitchShiftCents is, and uses the same delta. */
  lemma VarispeedMatchesCents(target: string, base: string)
    ensures VarispeedSemitones(target, base).None? <==> PitchShiftCents(target, base).None?
    ensures VarispeedSemitones(target, base).Some? ==>
              PitchShiftCents(target, base).value == 100 * VarispeedSemitones(target, base).value
  {
  }

  /** 2 to an integer power, exactly. */
  function Pow2(k: int): (r: real)
    ensures r > 0.0
    decreases if k < 0 then -k else k
  {
    if k == 0 then 1.0 else if k > 0 then 2.0 * Pow2(k - 1) else Pow2(k + 1) / 2.0
  }

  /** The rate 2^(semitones / 12) for a delta of whole octaves. */
  function OctaveRate(semitones: int): real
    requires semitones % 12 == 0
  {
    Pow2(semitones / 12)
  }

  /** One octave up doubles the rate, one octave down halves it. */
  lemma VarispeedExamples()
    ensures VarispeedSemitones("C4", DefaultBase) == Some(12) && OctaveRate(12) == 2.0
    ensures VarispeedSemitones("C2", DefaultBase) == Some(-12) && OctaveRate(-12) == 0.5
  {
    MidiOfC3();
    MidiOfC4();
    MidiOfC2();
    assert Pow2(1) == 2.0 * Pow2(0);
    assert Pow2(-1) == Pow2(0) / 2.0;
  }

  // ---------------------------------------------------------------------------
  // Four-character codes
  // ---------------------------------------------------------------------------

  /** The characters as base-256 digits, first character most significant. */
  function Packed(s: seq<char>): nat
  {
    if s == [] then 0 else Packed(s[..|s| - 1]) * 256 + (s[|s| - 1] as int)
  }

  /** 256^n. */
  function ByteBound(n: nat): nat
  {
    if n == 0 then 1 else 256 * ByteBound(n - 1)
  }

  lemma {:induction false} ByteBoundMonotone(i: nat, j: nat)
    requires i <= j
    ensures ByteBound(i) <= ByteBound(j)
    decreases j
  {
    if i < j {
      ByteBoundMonotone(i, j - 1);
    }
  }

  predicate ByteChars(s: seq<char>) { forall k :: 0 <= k < |s| ==> (s[k] as int) < 256 }

  lemma PackedFour(s: seq<char>)
    requires |s| == 4
    ensures Packed(s) == (s[0] as int) * 0x100_0000 + (s[1] as int) * 0x1_0000
                         + (s[2] as int) * 0x100 + (s[3] as int)
  {
    assert s[..1][..0] == [];
    assert Packed(s[..1]) == s[0] as int;
    assert s[..2][..1] == s[..1];
    assert Packed(s[..2]) == Packed(s[..1]) * 256 + (s[1] as int);
    assert s[..3][..2] == s[..2];
    assert Packed(s[..3]) == Packed(s[..2]) * 256 + (s[2] as int);
    assert s[..3] == s[..|s| - 1];
  }

  /**
   * fourCharCodeFrom(string:): a UInt32 shifted left by 8 bits (dropping overflow)
   * plus the next UTF-16 code unit, for each of the four characters.
   */
  method FourCharCodeFrom(s: string) returns (code: nat)
    requires |s| == 4 && ByteChars(s)
    ensures code == (s[0] as int) * 0x100_0000 + (s[1] as int) * 0x1_0000
                    + (s[2] as int) * 0x100 + (s[3] as int)
    ensures code < 0x1_0000_0000
  {
    code := 0;
    for i := 0 to |s|
      invariant code == Packed(s[..i])
      invariant code < ByteBound(i)
    {
      ByteBoundMonotone(i, 3);
      assert ByteBound(3) == 0x100_0000;
      code := (code * 256) % 0x1_0000_0000 + (s[i] as int);
      assert s[..i + 1][..i] == s[..i];
    }
    assert s[..4] == s;
    PackedFour(s);
  }

  /** The four characters of a code, most significant byte first. */
  function UnpackFourCharCode(code: nat): (s: string)
    requires code < 0x1_0000_0000
    ensures |s| == 4 && ByteChars(s)
  {
    var r1 := code / 256;
    var r2 := r1 / 256;
    [(r2 / 256) as char, (r2 % 256) as char, (r1 % 256) as char, (code % 256) as char]
  }

  lemma ByteDivMod(x: nat, b: nat)
    requires b < 256
    ensures (x * 256 + b) / 256 == x && (x * 256 + b) % 256 == b
  {
  }

  /** Unpacking a packed code gives the characters back. */
  lemma UnpackPacked(s: string)
    requires |s| == 4 && ByteChars(s)
    ensures Packed(s) < 0x1_0000_0000 && UnpackFourCharCode(Packed(s)) == s
  {
    PackedFour(s);
    var c0, c1, c2, c3 := s[0] as int, s[1] as int, s[2] as int, s[3] as int;
    var x2 := c0 * 256 + c1;
    var x1 := x2 * 256 + c2;
    ByteDivMod(x1, c3);
    ByteDivMod(x2, c2);
    ByteDivMod(c0, c1);
    assert Packed(s) == x1 * 256 + c3;
  }

  /** Packing the unpacked characters gives the code back. */
  lemma PackUnpacked(code: nat)
    requires code < 0x1_0000_0000
    ensures Packed(UnpackFourCharCode(code)) == code
  {
    var s := UnpackFourCharCode(code);
    PackedFour(s);
    var r1 := code / 256;
    var r2 := r1 / 256;
    assert code == r1 * 256 + code % 256;
    assert r1 == r2 * 256 + r1 % 256;
    assert r2 == (r2 / 256) * 256 + r2 % 256;
  }
}
