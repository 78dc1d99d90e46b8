/** Scale construction, chord-quality classification and note naming
    (src/audio_engine.py: get_scale, the quality if-chain of chord_player,
    the integer half of find_note). */
module ScaleTheory {
  import opened Wrappers

  /** MIDI number of C3, the note a root index of 0 stands for. */
  const C3: int := 48
  /** Four octaves of seven degrees. */
  const ScaleSize: nat := 28

  // ---------------------------------------------------------------------------
  // Interval tables and scales
  // ---------------------------------------------------------------------------

  /** Seven offsets, starting at 0, strictly increasing, inside one octave. */
  predicate IntervalsWellFormed(iv: seq<int>) {
    && |iv| == 7
    && iv[0] == 0
    && iv[6] < 12
    && forall j :: 0 <= j < 6 ==> iv[j] < iv[j + 1]
  }

  /** The interval table selected by the scale_type string; only "Major" and
      "Minor" have one. */
  function IntervalTable(scaleType: string): (r: Option<seq<int>>)
    ensures r.Some? <==> scaleType == "Major" || scaleType == "Minor"
    ensures r.Some? ==> IntervalsWellFormed(r.value)
  {
    if scaleType == "Major" then Some([0, 2, 4, 5, 7, 9, 11])
    else if scaleType == "Minor" then Some([0, 2, 3, 5, 7, 8, 10])
    else None
  }

  /** Specification of the scale: position i lies in octave i / 7 at degree i % 7. */
  function Scale(rootIndex: int, iv: seq<int>): seq<int>
    requires |iv| == 7
  {
    seq(ScaleSize, i requires 0 <= i < ScaleSize => C3 + rootIndex + 12 * (i / 7) + iv[i % 7])
  }

  /** get_scale: nested loops over four octaves and the seven intervals. */
  method GetScale(rootIndex: int, scaleType: string) returns (r: Result<seq<int>>)
    ensures IntervalTable(scaleType).None? ==> r == Err(UnknownScaleType)
    ensures IntervalTable(scaleType).Some? ==> r == Ok(Scale(rootIndex, IntervalTable(scaleType).value))
  {
    var startNote := C3 + rootIndex;
    var intervals: seq<int>;
    if scaleType == "Major" {
      intervals := [0, 2, 4, 5, 7, 9, 11];
    } else if scaleType == "Minor" {
      intervals := [0, 2, 3, 5, 7, 8, 10];
    } else {
      // `intervals` stays unbound and the first use of it raises
      return Err(UnknownScaleType);
    }
    var scale: seq<int> := [];
    for octave := 0 to 4
      invariant |scale| == 7 * octave
      invariant ScalePrefix(scale, startNote, intervals)
    {
      for j := 0 to 7
        invariant |scale| == 7 * octave + j
        invariant ScalePrefix(scale, startNote, intervals)
      {
        var note := startNote + octave * 12 + intervals[j];
        ScalePrefixGrows(scale, startNote, intervals, octave, j);
        scale := scale + [note];
      }
    }
    assert IntervalTable(scaleType).value == intervals;
    assert forall m :: 0 <= m < ScaleSize ==> scale[m] == Scale(rootIndex, intervals)[m];
    assert scale == Scale(rootIndex, intervals);
    return Ok(scale);
  }

  /** The notes get_scale has appended so far: position m is degree m % 7 of
      octave m / 7 above the start note. */
  ghost predicate ScalePrefix(scale: seq<int>, startNote: int, intervals: seq<int>)
    requires |intervals| == 7
  {
    forall m :: 0 <= m < |scale| ==> scale[m] == startNote + 12 * (m / 7) + intervals[m % 7]
  }

  /** Appending degree j of octave k after 7 * k + j notes keeps the prefix right. */
  lemma ScalePrefixGrows(scale: seq<int>, startNote: int, intervals: seq<int>, k: nat, j: nat)
    requires |intervals| == 7 && j < 7 && |scale| == 7 * k + j
    requires ScalePrefix(scale, startNote, intervals)
    ensures ScalePrefix(scale + [startNote + k * 12 + intervals[j]], startNote, intervals)
  {
    var m := |scale|;
    assert m / 7 == k && m % 7 == j;
  }

  /** Entry 7 * k + j of the scale is degree j of octave k. */
  lemma ScaleEntry(rootIndex: int, iv: seq<int>, k: nat, j: nat)
    requires |iv| == 7 && k < 4 && j < 7
    ensures 7 * k + j < |Scale(rootIndex, iv)|
    ensures Scale(rootIndex, iv)[7 * k + j] == C3 + rootIndex + 12 * k + iv[j]
  {
    assert (7 * k + j) / 7 == k && (7 * k + j) % 7 == j;
  }

  /** One position up in the scale is one degree up. */
  lemma ScaleStep(rootIndex: int, iv: seq<int>, i: nat)
    requires IntervalsWellFormed(iv) && i + 1 < ScaleSize
    ensures Scale(rootIndex, iv)[i] < Scale(rootIndex, iv)[i + 1]
  {
    if i % 7 == 6 {
      assert (i + 1) / 7 == i / 7 + 1 && (i + 1) % 7 == 0;
    } else {
      assert (i + 1) / 7 == i / 7 && (i + 1) % 7 == i % 7 + 1;
    }
  }

  /** The scale is strictly increasing. */
  lemma {:induction false} ScaleStrictlyIncreasing(rootIndex: int, iv: seq<int>, i: nat, j: nat)
    requires IntervalsWellFormed(iv) && i < j < ScaleSize
    ensures Scale(rootIndex, iv)[i] < Scale(rootIndex, iv)[j]
    decreases j - i
  {
    ScaleStep(rootIndex, iv, i);
    if i + 1 < j {
      ScaleStrictlyIncreasing(rootIndex, iv, i + 1, j);
    }
  }

  /** Seven positions up is one octave (12 semitones) up. */
  lemma ScaleOctave(rootIndex: int, iv: seq<int>, i: nat)
    requires |iv| == 7 && i + 7 < ScaleSize
    ensures Scale(rootIndex, iv)[i + 7] == Scale(rootIndex, iv)[i] + 12
  {
    assert (i + 7) / 7 == i / 7 + 1 && (i + 7) % 7 == i % 7;
  }

  // ---------------------------------------------------------------------------
  // Chord quality
  // ---------------------------------------------------------------------------

  /** The labels "Maj", "Min", "Dim", "Aug" and "???". */
  datatype Quality = Maj | Min | Dim | Aug | Unclassified {
    function Label(): string {
      match this
      case Maj => "Maj"
      case Min => "Min"
      case Dim => "Dim"
      case Aug => "Aug"
      case Unclassified => "???"
    }
  }

  /** Quality from the semitone distances of the third and the fifth above the root. */
  function Classify(distanceThird: int, distanceFifth: int): (q: Quality)
    ensures q == Maj <==> distanceThird == 4 && distanceFifth == 7
    ensures q == Min <==> distanceThird == 3 && distanceFifth == 7
    ensures q == Dim <==> distanceThird == 3 && distanceFifth == 6
    ensures q == Aug <==> distanceThird == 4 && distanceFifth == 8
    ensures q == Unclassified <==>
      !((distanceThird == 4 && (distanceFifth == 7 || distanceFifth == 8)) ||
        (distanceThird == 3 && (distanceFifth == 7 || distanceFifth == 6)))
  {
    if distanceThird == 4 && distanceFifth == 7 then Maj
    else if distanceThird == 3 && distanceFifth == 7 then Min
    else if distanceThird == 3 && distanceFifth == 6 then Dim
    else if distanceThird == 4 && distanceFifth == 8 then Aug
    else Unclassified
  }

  /** Textbook triad qualities on each degree of the major and the natural minor scale. */
  function DiatonicTriad(scaleType: string, degree: nat): (q: Quality)
    requires degree < 7
    ensures q != Aug && q != Unclassified
  {
    if scaleType == "Major" then [Maj, Min, Min, Maj, Maj, Min, Dim][degree]
    else [Min, Dim, Maj, Min, Min, Maj, Maj][degree]
  }

  /** Semitones from degree j up k scale positions, in a scale built from iv. */
  function Span(iv: seq<int>, j: nat, k: nat): int
    requires |iv| == 7 && j < 7 && k < 7
  {
    if j + k < 7 then iv[j + k] - iv[j] else 12 + iv[j + k - 7] - iv[j]
  }

  /** The distances of a triad depend only on the degree of its root. */
  lemma TriadSpans(rootIndex: int, iv: seq<int>, r: nat)
    requires |iv| == 7 && r < ScaleSize - 5
    ensures Scale(rootIndex, iv)[r + 2] - Scale(rootIndex, iv)[r] == Span(iv, r % 7, 2)
    ensures Scale(rootIndex, iv)[r + 4] - Scale(rootIndex, iv)[r] == Span(iv, r % 7, 4)
  {
    var j := r % 7;
    assert (r + 2) / 7 == r / 7 + (j + 2) / 7 && (r + 2) % 7 == (j + 2) % 7;
    assert (r + 4) / 7 == r / 7 + (j + 4) / 7 && (r + 4) % 7 == (j + 4) % 7;
  }

  /** The triad table of both modes, degree by degree. */
  lemma DiatonicDegree(scaleType: string, j: nat)
    requires IntervalTable(scaleType).Some? && j < 7
    ensures var iv := IntervalTable(scaleType).value;
            Classify(Span(iv, j, 2), Span(iv, j, 4)) == DiatonicTriad(scaleType, j)
  {
    if j == 0 {} else if j == 1 {} else if j == 2 {} else if j == 3 {}
    else if j == 4 {} else if j == 5 {} else {}
  }

  /** Stacking the scale positions +2 and +4 on a playable root (0 .. 22) yields the
      diatonic triad of that degree: never "Aug" and never "???". */
  lemma DiatonicQuality(rootIndex: int, scaleType: string, r: nat)
    requires IntervalTable(scaleType).Some? && r < ScaleSize - 5
    ensures var s := Scale(rootIndex, IntervalTable(scaleType).value);
            Classify(s[r + 2] - s[r], s[r + 4] - s[r]) == DiatonicTriad(scaleType, r % 7)
    ensures var s := Scale(rootIndex, IntervalTable(scaleType).value);
            Classify(s[r + 2] - s[r], s[r + 4] - s[r]) !in {Aug, Unclassified}
  {
    var iv := IntervalTable(scaleType).value;
    TriadSpans(rootIndex, iv, r);
    DiatonicDegree(scaleType, r % 7);
    assert DiatonicTriad(scaleType, r % 7) != Aug;
  }

  // ---------------------------------------------------------------------------
  // Note names
  // ---------------------------------------------------------------------------

  const NoteNames: seq<string> := ["C", "C#", "D", "D#", "E", "F", "F#", "G", "G#", "A", "A#", "B"]

  /** The name of a MIDI number: its letter cycles with midi mod 12 and its octave is
      midi // 12 - 1 (Python's floor division; with divisor 12 Dafny's `/` agrees). */
  function NoteName(midi: int): (r: string)
    ensures |r| >= 2 && 'A' <= r[0] <= 'G'
  {
    NoteNameShape(midi % 12);
    NoteNames[midi % 12] + IntToString(midi / 12 - 1)
  }

  /** find_note, given the MIDI number after rounding; `None` stands for frequency 0. */
  function FindNote(pitch: Option<int>): (r: string)
    ensures r == "???" <==> pitch.None?
  {
    match pitch
    case None => "???"
    case Some(midi) => NoteName(midi)
  }

  /** Reads a name written by FindNote back: the inverse that shows FindNote loses nothing. */
  function ParseNote(s: string): Option<int> {
    var split := if |s| >= 2 && s[1] == '#' then 2 else 1;
    if |s| < split then None
    else
      match NameIndex(s[..split], 0)
      case None => None
      case Some(k) =>
        match ParseInt(s[split..])
        case None => None
        case Some(octave) => Some((octave + 1) * 12 + k)
  }

  /** The position of `name` among NoteNames at or after `from`. */
  function NameIndex(name: string, from: nat): (r: Option<nat>)
    requires from <= 12
    ensures r.Some? ==> from <= r.value < 12 && NoteNames[r.value] == name
    ensures forall k :: from <= k < 12 && NoteNames[k] == name ==> r == Some(k)
    decreases 12 - from
  {
    if from == 12 then None
    else if NoteNames[from] == name then Some(from)
    else NameIndex(name, from + 1)
  }

  /** Every note name is a letter, possibly followed by '#'. */
  lemma NoteNameShape(k: nat)
    requires k < 12
    ensures |NoteNames[k]| == 1 || (|NoteNames[k]| == 2 && NoteNames[k][1] == '#')
    ensures 'A' <= NoteNames[k][0] <= 'G'
  {
  }

  /** Distinct MIDI numbers get distinct names, and "???" is no note's name. */
  lemma FindNoteRoundTrip(pitch: Option<int>)
    ensures ParseNote(FindNote(pitch)) == pitch
  {
    match pitch
    case None =>
      assert NameIndex("?", 0).None? by { NameIndexMisses("?", 0); }
      assert "???"[..1] == "?";
    case Some(midi) =>
      NoteNameParses(midi);
  }

  /** A lone '?' is no name in the table. */
  lemma NameIndexMisses(name: string, from: nat)
    requires from <= 12 && |name| == 1 && name[0] == '?'
    ensures NameIndex(name, from).None?
  {
    if from < 12 {
      NoteNameShape(from);
    }
  }

  lemma NoteNameParses(midi: int)
    ensures ParseNote(NoteName(midi)) == Some(midi)
  {
    var k, octave := midi % 12, midi / 12 - 1;
    assert NoteName(midi) == NoteNames[k] + IntToString(octave);
    ParseNameAndOctave(k, octave);
    assert midi == 12 * (midi / 12) + k;
  }

  /** A name followed by an octave number splits back into the two. */
  lemma ParseNameAndOctave(k: nat, octave: int)
    requires k < 12
    ensures ParseNote(NoteNames[k] + IntToString(octave)) == Some((octave + 1) * 12 + k)
  {
    var name, digits := NoteNames[k], IntToString(octave);
    var s := name + digits;
    NoteNameShape(k);
    IntToStringParses(octave);
    var split := |name|;
    assert s[..split] == name;
    assert s[split..] == digits;
    assert split == 1 ==> s[1] == digits[0];
    assert (if |s| >= 2 && s[1] == '#' then 2 else 1) == split;
    assert NameIndex(name, 0) == Some(k);
  }

  /** MIDI 69 (440 Hz) is A4, and MIDI 48 is C3. */
  lemma A4IsNamed()
    ensures FindNote(Some(69)) == "A4"
    ensures NoteName(C3) == "C3"
  {
    assert IntToString(4) == "4" && IntToString(3) == "3";
  }

  // ---------------------------------------------------------------------------
  // Decimal text of integers (Python's f"{octave}")
  // ---------------------------------------------------------------------------

  predicate IsDigit(c: char) {
    '0' <= c <= '9'
  }

  function DigitChar(d: nat): (c: char)
    requires d < 10
    ensures IsDigit(c) && c as int - '0' as int == d
  {
    ('0' as int + d) as char
  }

  function NatToString(n: nat): (s: string)
    ensures |s| >= 1
    ensures forall k :: 0 <= k < |s| ==> IsDigit(s[k])
  {
    if n < 10 then [DigitChar(n)] else NatToString(n / 10) + [DigitChar(n % 10)]
  }

  function IntToString(i: int): (s: string)
    ensures |s| >= 1
    ensures s[0] == '-' <==> i < 0
    ensures s[0] == '-' || IsDigit(s[0])
  {
    if i < 0 then "-" + NatToString(-i) else NatToString(i)
  }

  /** Decimal digits, most significant first; None unless every character is a digit. */
  function ParseNat(s: string): Option<nat> {
    if |s| == 0 || !IsDigit(s[|s| - 1]) then None
    else
      var last := s[|s| - 1] as int - '0' as int;
      if |s| == 1 then Some(last)
      else
        match ParseNat(s[..|s| - 1])
        case None => None
        case Some(p) => Some(10 * p + last)
  }

  function ParseInt(s: string): Option<int> {
    if |s| > 0 && s[0] == '-' then
      match ParseNat(s[1..])
      case None => None
      case Some(p) => Some(-(p as int))
    else
      match ParseNat(s)
      case None => None
      case Some(p) => Some(p)
  }

  lemma {:induction false} NatToStringParses(n: nat)
    ensures ParseNat(NatToString(n)) == Some(n)
  {
    if n >= 10 {
      NatToStringParses(n / 10);
      var s := NatToString(n);
      assert s[..|s| - 1] == NatToString(n / 10);
    }
  }

  lemma IntToStringParses(i: int)
    ensures ParseInt(IntToString(i)) == Some(i)
  {
    var s := IntToString(i);
    if i < 0 {
      var digits := NatToString(-i);
      NatToStringParses(-i);
      assert s == "-" + digits;
      assert s[1..] == digits;
    } else {
      NatToStringParses(i);
      assert s == NatToString(i) && s[0] != '-';
    }
  }
}
