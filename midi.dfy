/** MIDI utilities: note names and octaves of MIDI note numbers, the scale
    table, conversions between notes and 1 V/octave voltages, and three
    quantizers that move a note onto the pitch classes of a scale. */
module Midi {
  import opened Wrappers
  import opened Numeric

  /** Note names of the twelve pitch classes, flats for the black keys. */
  const Notes: seq<string> := ["C", "Db", "D", "Eb", "E", "F", "Gb", "G", "Ab", "A", "Bb", "B"]
  const NotesInOctave: int := 12
  /** Middle C (MIDI note 60) is in octave 4. */
  const MiddleCOctave: int := 4
  const VoltsPerSemitone: real := 1.0 / 12.0

  /** The pitch-class list the quantizers use when they are given no scale. */
  const Chromatic: seq<int> := [0, 1, 2, 3, 4, 5, 6, 7, 8, 9, 10, 11]

  datatype Scale = Scale(name: string, pitchClasses: seq<int>)

  const Scales: seq<Scale> := [
    Scale("chromatic", Chromatic),
    Scale("major", [0, 2, 4, 5, 7, 9, 11]),
    Scale("major-pentatonic", [0, 2, 4, 7, 9]),
    Scale("minor", [0, 2, 3, 5, 7, 8, 10]),
    Scale("minor-pentatonic", [0, 3, 5, 7, 10])
  ]

  /** The scale names, in table order. */
  function ScalesNames(): (names: seq<string>)
    ensures |names| == |Scales|
    ensures forall i :: 0 <= i < |Scales| ==> names[i] == Scales[i].name
  {
    seq(|Scales|, i requires 0 <= i < |Scales| => Scales[i].name)
  }

  // ---------------------------------------------------------------------------
  // Scale lookup

  /** The pitch classes of the first scale in `scales` called `name`, or [] if none is. */
  function FindPitchClasses(scales: seq<Scale>, name: string): (c: seq<int>)
    ensures (forall i :: 0 <= i < |scales| ==> scales[i].name != name) ==> c == []
    ensures forall i :: (0 <= i < |scales| && scales[i].name == name &&
                         forall j :: 0 <= j < i ==> scales[j].name != name) ==> c == scales[i].pitchClasses
  {
    if scales == [] then []
    else if scales[0].name == name then scales[0].pitchClasses
    else
      var rest := scales[1..];
      var c := FindPitchClasses(rest, name);
      assert (forall i :: 0 <= i < |scales| ==> scales[i].name != name) ==> c == [] by {
        if forall i :: 0 <= i < |scales| ==> scales[i].name != name {
          forall i | 0 <= i < |rest| ensures rest[i].name != name {
            assert rest[i] == scales[i + 1];
          }
        }
      }
      assert forall i :: (0 <= i < |scales| && scales[i].name == name &&
                          forall j :: 0 <= j < i ==> scales[j].name != name) ==> c == scales[i].pitchClasses by {
        forall i | 0 <= i < |scales| && scales[i].name == name && forall j :: 0 <= j < i ==> scales[j].name != name
          ensures c == scales[i].pitchClasses
        {
          assert i >= 1 && rest[i - 1] == scales[i];
          forall j | 0 <= j < i - 1 ensures rest[j].name != name {
            assert rest[j] == scales[j + 1];
          }
        }
      }
      c
  }

  lemma ScaleNamesDistinct()
    ensures forall i, j :: 0 <= i < j < |Scales| ==> Scales[i].name != Scales[j].name
  {
  }

  /** `pitch_classes(name)`: the classes of the scale called `name`, [] for an unknown name. */
  function PitchClasses(name: string): (c: seq<int>)
    ensures (forall i :: 0 <= i < |Scales| ==> Scales[i].name != name) ==> c == []
    ensures forall i :: 0 <= i < |Scales| && Scales[i].name == name ==> c == Scales[i].pitchClasses
  {
    ScaleNamesDistinct();
    FindPitchClasses(Scales, name)
  }

  /** Looking a scale up by the name `SCALES_NAMES` lists for it gives that scale back. */
  lemma PitchClassesOfListedName(i: nat)
    requires i < |ScalesNames()|
    ensures ScalesNames()[i] == Scales[i].name
    ensures PitchClasses(ScalesNames()[i]) == Scales[i].pitchClasses
  {
  }

  // ---------------------------------------------------------------------------
  // Clamping and voltage conversion

  /** `clamp`: `max(min(value, high), low)`. */
  function Clamp(value: int, low: int, high: int): (r: int)
    ensures low <= high ==> low <= r <= high
    ensures low <= value <= high ==> r == value
    ensures low <= high && value < low ==> r == low
    ensures low <= high && high < value ==> r == high
    ensures high < low ==> r == low
  {
    var m := if value < high then value else high;
    if m < low then low else m
  }

  /** 1 V per octave: a note number to volts. */
  function MidiToV(number: int): (v: real)
    ensures v * 12.0 == number as real
  {
    number as real * VoltsPerSemitone
  }

  /** Volts to the nearest note number (ties to even), clamped to 0..127. */
  function VToMidi(v: real): (n: int)
    ensures 0 <= n <= 127
    ensures 0.0 <= v * 12.0 <= 127.0 ==> v * 12.0 - 0.5 <= n as real <= v * 12.0 + 0.5
    ensures v * 12.0 < 0.0 ==> n == 0
    ensures 127.0 < v * 12.0 ==> n == 127
  {
    assert v / VoltsPerSemitone == v * 12.0;
    Clamp(RoundHalfEven(v / VoltsPerSemitone), 0, 127)
  }

  /** Every MIDI note survives the trip to volts and back. */
  lemma MidiVoltRoundTrip(n: int)
    requires 0 <= n <= 127
    ensures VToMidi(MidiToV(n)) == n
  {
    var v := MidiToV(n);
    assert v / VoltsPerSemitone == n as real;
    assert (n as real).Floor == n;
  }

  // ---------------------------------------------------------------------------
  // Note names and octaves

  function NoteIndex(number: int): (k: nat)
    ensures k < NotesInOctave
  {
    Clamp(number, 0, 127) % NotesInOctave
  }

  /** `note`: the name of the (clamped) note's pitch class. */
  function Note(number: int): (name: string)
    ensures name == Notes[NoteIndex(number)]
    ensures name in Notes
  {
    Notes[Clamp(number, 0, 127) % NotesInOctave]
  }

  /** `octave`: the scientific-pitch octave of the (clamped) note, middle C in octave 4. */
  function Octave(number: int): (o: int)
    ensures -1 <= o <= 9
  {
    Clamp(number, 0, 127) / NotesInOctave - 5 + MiddleCOctave
  }

  /** Octave and pitch class recompose the clamped note number; middle C is C4. */
  lemma NoteAndOctaveRecompose(number: int)
    ensures (Octave(number) + 1) * 12 + NoteIndex(number) == Clamp(number, 0, 127)
    ensures Octave(60) == MiddleCOctave && Note(60) == "C"
  {
  }

  function DigitChar(d: nat): (c: char)
    requires d < 10
    ensures '0' <= c <= '9'
  {
    ['0', '1', '2', '3', '4', '5', '6', '7', '8', '9'][d]
  }

  /** Python's `str` on a natural number. */
  function NatToString(k: nat): (s: string)
    ensures |s| >= 1 && forall i :: 0 <= i < |s| ==> '0' <= s[i] <= '9'
    decreases k
  {
    if k < 10 then [DigitChar(k)] else NatToString(k / 10) + [DigitChar(k % 10)]
  }

  /** Python's `str` on an integer. */
  function IntToString(i: int): (s: string)
    ensures |s| >= 1 && s[0] != 'b'
  {
    if i < 0 then "-" + NatToString(-i) else NatToString(i)
  }

  /** `note_octave`: the note name followed by the octave number, e.g. "Db4". */
  function NoteOctave(number: int): (s: string)
  {
    Note(number) + IntToString(Octave(number))
  }

  // Reading a string from `NoteOctave` back, to show that it loses nothing
  // but the clamping.

  function IndexOf(names: seq<string>, name: string): (r: Option<nat>)
    ensures r.Some? ==> r.value < |names| && names[r.value] == name &&
                        forall j :: 0 <= j < r.value ==> names[j] != name
    ensures r.None? ==> name !in names
  {
    if names == [] then None
    else if names[0] == name then Some(0)
    else match IndexOf(names[1..], name)
      case None => None
      case Some(k) => Some(k + 1)
  }

  function ParseOctave(t: string): (r: Option<int>)
  {
    if t == "-1" then Some(-1)
    else if |t| == 1 && '0' <= t[0] <= '9' then Some(t[0] as int - '0' as int)
    else None
  }

  /** A note name is one letter, or a letter and 'b'. */
  function ParseNoteOctave(s: string): (r: Option<int>)
  {
    ParseNamedOctave(Notes, s)
  }

  /** The same, with the note names as a parameter. */
  function ParseNamedOctave(names: seq<string>, s: string): (r: Option<int>)
  {
    if |s| == 0 then None
    else
      var len := if |s| >= 2 && s[1] == 'b' then 2 else 1;
      match IndexOf(names, s[..len])
      case None => None
      case Some(k) =>
        match ParseOctave(s[len..])
        case None => None
        case Some(o) => Some((o + 1) * 12 + k)
  }

  lemma ParseOctaveOfString(o: int)
    requires -1 <= o <= 9
    ensures ParseOctave(IntToString(o)) == Some(o)
  {
    if o >= 0 {
      assert IntToString(o) == [DigitChar(o)];
    }
  }

  /** Each note name is found at its own index. */
  lemma IndexOfNote(k: nat)
    requires k < |Notes|
    ensures IndexOf(Notes, Notes[k]) == Some(k)
  {
    assert forall i, j :: 0 <= i < j < |Notes| ==> Notes[i] != Notes[j];
  }

  lemma NoteNameSplits(k: nat, t: string)
    requires k < |Notes| && |t| >= 1 && t[0] != 'b'
    ensures var s := Notes[k] + t;
            var len := if |s| >= 2 && s[1] == 'b' then 2 else 1;
            len == |Notes[k]| && s[..len] == Notes[k] && s[len..] == t
  {
  }

  lemma ParseNoteOctaveParts(names: seq<string>, s: string, len: nat, k: nat, o: int)
    requires |s| > 0 && len == (if |s| >= 2 && s[1] == 'b' then 2 else 1)
    requires IndexOf(names, s[..len]) == Some(k) && ParseOctave(s[len..]) == Some(o)
    ensures ParseNamedOctave(names, s) == Some((o + 1) * 12 + k)
  {
  }

  lemma ParseNoteAndOctave(k: nat, o: int)
    requires k < |Notes| && -1 <= o <= 9
    ensures ParseNoteOctave(Notes[k] + IntToString(o)) == Some((o + 1) * 12 + k)
  {
    var t := IntToString(o);
    var s := Notes[k] + t;
    var len := if |s| >= 2 && s[1] == 'b' then 2 else 1;
    assert s[..len] == Notes[k] && s[len..] == t by {
      NoteNameSplits(k, t);
    }
    assert IndexOf(Notes, s[..len]) == Some(k) by {
      IndexOfNote(k);
    }
    assert ParseOctave(s[len..]) == Some(o) by {
      ParseOctaveOfString(o);
    }
    ParseNoteOctaveParts(Notes, s, len, k, o);
  }

  /** `NoteOctave` can be read back: the string names the clamped note exactly. */
  lemma NoteOctaveParses(number: int)
    ensures ParseNoteOctave(NoteOctave(number)) == Some(Clamp(number, 0, 127))
  {
    ParseNoteAndOctave(NoteIndex(number), Octave(number));
    NoteAndOctaveRecompose(number);
  }

  // ---------------------------------------------------------------------------
  // Quantizers

  /** The note's pitch class and the C at the bottom of its octave. */
  function PitchClass(midiNote: int): (n: int)
    ensures 0 <= n < 12
  {
    midiNote % 12
  }

  function OctaveBase(midiNote: int): (base: int)
    ensures base % 12 == 0 && base + PitchClass(midiNote) == midiNote
  {
    midiNote - midiNote % 12
  }

  /** `quantize_down`: step the pitch class down until it is in the scale. The
      loop does not terminate when no class of `scale` lies at or below the
      note's pitch class, so this is required. */
  method QuantizeDown(midiNote: int, scale: seq<int> := Chromatic) returns (r: int)
    requires exists c :: c in scale && c <= PitchClass(midiNote)
    ensures r - OctaveBase(midiNote) in scale
    ensures r <= midiNote
    ensures forall c :: c in scale && c <= PitchClass(midiNote) ==> c <= r - OctaveBase(midiNote)
    ensures (forall c :: c in scale ==> 0 <= c) ==> midiNote - 12 < r
  {
    var n := midiNote % 12;
    var base := midiNote - n;
    ghost var lo :| lo in scale && lo <= n;
    while n !in scale
      invariant lo <= n <= PitchClass(midiNote)
      invariant forall c :: c in scale && c <= PitchClass(midiNote) ==> c <= n
      decreases n - lo
    {
      n := n - 1;
    }
    r := n + base;
  }

  /** `quantize_up`, as written: step the pitch class up until it is in the
      scale. It never wraps to the next octave, so it does not terminate when
      no class of `scale` lies at or above the note's pitch class. */
  method QuantizeUp(midiNote: int, scale: seq<int> := Chromatic) returns (r: int)
    requires exists c :: c in scale && c >= PitchClass(midiNote)
    ensures r - OctaveBase(midiNote) in scale
    ensures r >= midiNote
    ensures forall c :: c in scale && c >= PitchClass(midiNote) ==> c >= r - OctaveBase(midiNote)
  {
    var n := midiNote % 12;
    var base := midiNote - n;
    ghost var hi :| hi in scale && hi >= n;
    while n !in scale
      invariant PitchClass(midiNote) <= n <= hi
      invariant forall c :: c in scale && c >= PitchClass(midiNote) ==> c >= n
      decreases hi - n
    {
      n := n + 1;
    }
    r := n + base;
  }

  /** With the minor pentatonic scale, `quantize_up` of any B (pitch class 11)
      has no class to stop at: every value its loop can reach is missing from
      the scale, so the as-written loop runs forever. */
  lemma QuantizeUpStuckOnMinorPentatonic(midiNote: int)
    requires PitchClass(midiNote) == 11
    ensures !(exists c :: c in PitchClasses("minor-pentatonic") && c >= PitchClass(midiNote))
    ensures forall n :: n >= PitchClass(midiNote) ==> n !in PitchClasses("minor-pentatonic")
  {
    assert PitchClasses("minor-pentatonic") == Scales[4].pitchClasses;
  }

  /** `quantize_up` as evidently intended: the lowest note at or above
      `midiNote` whose pitch class is in the scale, going on into the next
      octave when the current one has none. */
  method QuantizeUpWrapping(midiNote: int, scale: seq<int> := Chromatic) returns (r: int)
    requires exists c :: c in scale && 0 <= c < 12
    ensures midiNote <= r < midiNote + 12
    ensures r % 12 in scale
    ensures forall m :: midiNote <= m < r ==> m % 12 !in scale
  {
    var n := midiNote % 12;
    var base := midiNote - n;
    ghost var q := midiNote / 12;
    assert base == 12 * q;
    ghost var n0 := n;
    ghost var c :| c in scale && 0 <= c < 12;
    ghost var hit := n0 + (c - n0) % 12;
    assert hit == c + 12 * ((c - n0) / 12 * -1) by {
      assert (c - n0) % 12 == (c - n0) - 12 * ((c - n0) / 12);
    }
    ModShift(c, (c - n0) / 12 * -1);
    while n % 12 !in scale
      invariant n0 <= n <= hit
      invariant forall m :: n0 <= m < n ==> m % 12 !in scale
      decreases hit - n
    {
      n := n + 1;
    }
    r := n + base;
    forall m | midiNote <= m < r ensures m % 12 !in scale {
      ModShift(m - base, q);
    }
    ModShift(n, q);
  }

  lemma ModShift(x: int, k: int)
    ensures (x + 12 * k) % 12 == x % 12
  {
  }

  /** `s` is the first element of `scale` at the least distance from `n`. */
  ghost predicate FirstNearest(n: int, scale: seq<int>, k: nat)
  {
    && k < |scale|
    && (forall j :: 0 <= j < |scale| ==> Abs(n - scale[k]) <= Abs(n - scale[j]))
    && (forall j :: 0 <= j < k ==> Abs(n - scale[k]) < Abs(n - scale[j]))
  }

  /** What `quantize_nearest` returns: the octave base plus the first nearest
      class when one is closer than 12, else the note itself. */
  ghost predicate QuantizedToNearest(midiNote: int, scale: seq<int>, r: int)
  {
    var n := PitchClass(midiNote);
    if exists j :: 0 <= j < |scale| && Abs(n - scale[j]) < 12 then
      exists k: nat :: FirstNearest(n, scale, k) && r == OctaveBase(midiNote) + scale[k]
    else
      r == midiNote
  }

  /** `quantize_nearest`: scan the scale for the class closest to the note's
      pitch class, keeping the first on ties. */
  method QuantizeNearest(midiNote: int, scale: seq<int> := Chromatic) returns (r: int)
    ensures QuantizedToNearest(midiNote, scale, r)
  {
    var n := midiNote % 12;
    var base := midiNote - n;
    var d := 12;
    var s := n;
    ghost var best: nat := 0;
    for idx := 0 to |scale|
      invariant d < 12 ==> best < idx && s == scale[best] && d == Abs(n - scale[best])
      invariant d < 12 ==> forall j :: 0 <= j < idx ==> d <= Abs(n - scale[j])
      invariant d < 12 ==> forall j :: 0 <= j < best ==> d < Abs(n - scale[j])
      invariant d >= 12 ==> d == 12 && s == n && forall j :: 0 <= j < idx ==> Abs(n - scale[j]) >= 12
    {
      var i := scale[idx];
      if Abs(n - i) < d {
        d := Abs(n - i);
        s := i;
        best := idx;
      }
    }
    r := s + base;
    if d < 12 {
      assert FirstNearest(n, scale, best);
    }
  }

  /** With real pitch classes (0..11) and a non-empty scale, the nearest class
      is always closer than 12, so the result is always on the scale. */
  lemma NearestAlwaysFound(midiNote: int, scale: seq<int>, r: int)
    requires |scale| > 0 && forall j :: 0 <= j < |scale| ==> 0 <= scale[j] < 12
    requires QuantizedToNearest(midiNote, scale, r)
    ensures r - OctaveBase(midiNote) in scale
  {
    assert Abs(PitchClass(midiNote) - scale[0]) < 12;
    var k: nat :| FirstNearest(PitchClass(midiNote), scale, k) && r == OctaveBase(midiNote) + scale[k];
    assert r - OctaveBase(midiNote) == scale[k];
  }

  /** `quantize` is `quantize_nearest`. */
  method Quantize(midiNote: int, scale: seq<int> := Chromatic) returns (r: int)
    ensures QuantizedToNearest(midiNote, scale, r)
  {
    r := QuantizeNearest(midiNote, scale);
  }
}
