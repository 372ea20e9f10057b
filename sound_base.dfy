/** The backend-independent part of a PsychoPy sound, psychopy/sound/_base.py:
    the note table, how `setSound` classifies the value it is given, the
    search for a sound file, the duration rule for a synthesised tone and
    the size of the smoothing window. */
module SoundBase {
  import opened Wrappers
  import opened Text

  /** A numpy sample array: one sample per frame, or one row of channel
      samples per frame. Samples are integers so that sums are exact. */
  datatype SoundArray = Mono(samples: seq<int>) | Frames(rows: seq<seq<int>>)

  /** `shape[0]`: the number of frames. */
  function Length(a: SoundArray): nat {
    match a
    case Mono(s) => |s|
    case Frames(rows) => |rows|
  }

  /** Semitones from A to each note of the same octave; "sh" is sharp and
      "fl" flat. */
  const StepsFromA: map<string, int> := map[
    "C" := -9, "Csh" := -8,
    "Dfl" := -8, "D" := -7, "Dsh" := -6,
    "Efl" := -6, "E" := -5,
    "F" := -4, "Fsh" := -3,
    "Gfl" := -3, "G" := -2, "Gsh" := -1,
    "Afl" := -1, "A" := 0, "Ash" := 1,
    "Bfl" := 1, "B" := 2, "Bsh" := 2]

  /** The note names in the order Python's `sorted` puts the table's keys. */
  const KnownNoteNames: seq<string> :=
    ["A", "Afl", "Ash", "B", "Bfl", "Bsh", "C", "Csh", "D", "Dfl", "Dsh",
     "E", "Efl", "F", "Fsh", "G", "Gfl", "Gsh"]

  /** Python's ordering of strings: by code point, a proper prefix first. */
  predicate StrLess(a: string, b: string) {
    if a == [] then b != []
    else if b == [] then false
    else if a[0] != b[0] then a[0] < b[0]
    else StrLess(a[1..], b[1..])
  }

  /** The list of known names is exactly the table's keys, in strictly
      increasing order. */
  lemma KnownNoteNamesAreSortedKeys()
    ensures forall n :: n in KnownNoteNames <==> n in StepsFromA
    ensures forall i, j :: 0 <= i < j < |KnownNoteNames| ==> StrLess(KnownNoteNames[i], KnownNoteNames[j])
  {
  }

  /** Enharmonic spellings name the same pitch; B sharp is not raised to C
      but kept at B's offset. */
  lemma EnharmonicPairs()
    ensures StepsFromA["Csh"] == StepsFromA["Dfl"] == -8
    ensures StepsFromA["Dsh"] == StepsFromA["Efl"] == -6
    ensures StepsFromA["Fsh"] == StepsFromA["Gfl"] == -3
    ensures StepsFromA["Gsh"] == StepsFromA["Afl"] == -1
    ensures StepsFromA["Ash"] == StepsFromA["Bfl"] == 1
    ensures StepsFromA["B"] == StepsFromA["Bsh"] == 2
  {
  }

  /** The power of two, relative to A = 440 Hz, that `_setSndFromNote`
      multiplies by: semitones over twelve plus the octave above the fourth. */
  function PitchExponent(note: string, octave: int): real
    requires note in StepsFromA
  {
    StepsFromA[note] as real / 12.0 + (octave - 4) as real
  }

  /** A in the fourth octave is 440 Hz itself; each octave doubles the
      frequency; the natural notes rise from C to B, and B lies below the C
      of the next octave. */
  lemma PitchExponentFacts(octave: int)
    ensures PitchExponent("A", 4) == 0.0
    ensures PitchExponent("A", octave + 1) == PitchExponent("A", octave) + 1.0
    ensures PitchExponent("C", octave) < PitchExponent("D", octave) < PitchExponent("E", octave)
         < PitchExponent("F", octave) < PitchExponent("G", octave) < PitchExponent("A", octave)
         < PitchExponent("B", octave) < PitchExponent("C", octave + 1)
  {
  }

  /** The values `setSound` accepts: a number, a string, a Python list, a
      numpy array, or anything else. */
  datatype Value = Number(x: real) | Str(s: string) | ListOf(list: SoundArray)
                 | NdArray(arr: SoundArray) | OtherValue

  /** `float(value)`: numbers convert, text converts when it is decimal, and
      a numpy array converts when it holds exactly one sample; a list or any
      other value raises TypeError (None here). */
  function AsNumber(v: Value): (r: Option<real>)
    ensures v.ListOf? || v.OtherValue? ==> r.None?
  {
    match v
    case Number(x) => Some(x)
    case Str(s) => ParseDecimal(s)
    case NdArray(Mono(s)) => if |s| == 1 then Some(s[0] as real) else None
    case NdArray(Frames(rows)) => if |rows| == 1 && |rows[0]| == 1 then Some(rows[0][0] as real) else None
    case _ => None
  }

  /** `path.join(directory, name)` with POSIX rules. */
  function Join(directory: string, name: string): (p: string)
    ensures directory == [] ==> p == name
    ensures |p| >= |name|
  {
    if directory == [] || (|name| > 0 && name[0] == '/') then name
    else if directory[|directory| - 1] == '/' then directory + name
    else directory + "/" + name
  }

  /** The paths the search in `setSound` tries, in order: the name in the
      current directory, with ".wav" added, then both under `mediaLocation`. */
  function Candidates(name: string, media: string): (c: seq<string>)
    ensures |c| == 4 && c[0] == name && c[1] == name + ".wav"
    ensures c[2] == Join(media, name) && c[3] == Join(media, name) + ".wav"
  {
    [Join("", name), Join("", name) + ".wav", Join(media, name), Join(media, name) + ".wav"]
  }

  /** The index of the first path that exists. */
  function FirstExisting(paths: seq<string>, isFile: string -> bool): (r: Option<nat>)
    ensures r.Some? ==> r.value < |paths| && isFile(paths[r.value])
    ensures r.Some? ==> forall j :: 0 <= j < r.value ==> !isFile(paths[j])
    ensures r.None? ==> forall j :: 0 <= j < |paths| ==> !isFile(paths[j])
    decreases |paths|
  {
    if paths == [] then None
    else if isFile(paths[0]) then Some(0)
    else
      match FirstExisting(paths[1..], isFile)
      case None => None
      case Some(i) => Some(i + 1)
  }

  /** The loop of `setSound` over the directories '' and `mediaLocation`.
      `fileName` is the first path that exists; `toOpen` is the loop variable
      `p` as the loop leaves it, the path that is then handed to the file
      reader: the name without ".wav" even when only the ".wav" path exists. */
  method FindSoundFile(name: string, media: string, isFile: string -> bool)
    returns (fileName: Option<string>, toOpen: string)
    ensures var c := Candidates(name, media);
      match FirstExisting(c, isFile)
      case None => fileName.None? && toOpen == c[2]
      case Some(i) => fileName == Some(c[i]) && toOpen == c[i / 2 * 2]
  {
    var directories := ["", media];
    fileName := None;
    toOpen := "";
    var k := 0;
    while k < 2
      invariant 0 <= k <= 2
      invariant fileName.None?
      invariant forall j :: 0 <= j < 2 * k ==> !isFile(Candidates(name, media)[j])
      invariant k == 0 || toOpen == Candidates(name, media)[2 * k - 2]
    {
      var p := Join(directories[k], name);
      toOpen := p;
      if isFile(p) {
        fileName := Some(p);
        break;
      } else if isFile(p + ".wav") {
        fileName := Some(p + ".wav");
        break;
      }
      k := k + 1;
    }
  }

  /** The kind of sound `setSound` makes of a value, with the path it found
      and the path it opens for a file. */
  datatype SoundKind = ToneKind(hz: real) | NoteKind(note: string)
                     | FileKind(found: string, toOpen: string) | ArrayKind(array: SoundArray)
                     | NoKind

  /** The classification in `_SoundBase.setSound`. A value that converts to a
      number is a tone, refused with ValueError outside [37, 20000] Hz. Text
      whose capitalised form is a note name is that note. Other text is a
      file name, searched for only where `mediaLocation` is defined (NameError
      elsewhere) and refused with ValueError when no path exists. A list or
      an array is an array sound, and any other value makes no sound. */
  function Classify(v: Value, media: Option<string>, isFile: string -> bool): (r: Result<SoundKind>)
    ensures r.Ok? && r.value.ToneKind? ==> 37.0 <= r.value.hz <= 20000.0
    ensures r.Ok? && r.value.NoteKind? ==> r.value.note in StepsFromA
    ensures r.Ok? && r.value.FileKind? ==> isFile(r.value.found)
  {
    KnownNoteNamesAreSortedKeys();
    match AsNumber(v)
    case Some(x) => if x < 37.0 || x > 20000.0 then Err(ValueError) else Ok(ToneKind(x))
    case None =>
      match v
      case Str(s) =>
        if Capitalize(s) in KnownNoteNames then Ok(NoteKind(Capitalize(s)))
        else if media.None? then Err(NameError)
        else
          var c := Candidates(s, media.value);
          (match FirstExisting(c, isFile)
           case None => Err(ValueError)
           case Some(i) => Ok(FileKind(c[i], c[i / 2 * 2])))
      case ListOf(a) => Ok(ArrayKind(a))
      case NdArray(a) => Ok(ArrayKind(a))
      case _ => Ok(NoKind)
  }

  /** Whatever converts to a number is a tone exactly when it lies in
      [37, 20000] Hz, and refused with ValueError otherwise. */
  lemma ClassifyNumber(v: Value, media: Option<string>, isFile: string -> bool)
    requires AsNumber(v).Some?
    ensures Classify(v, media, isFile) == Err(ValueError) <==> !(37.0 <= AsNumber(v).value <= 20000.0)
    ensures Classify(v, media, isFile).Ok? ==> Classify(v, media, isFile) == Ok(ToneKind(AsNumber(v).value))
  {
  }

  /** Digits in a string are read as a frequency: "440" is a 440 Hz tone. */
  lemma DigitTextIsTone(s: string, media: Option<string>, isFile: string -> bool)
    requires |s| > 0 && AllDigits(s) && 37 <= ParseNat(s) <= 20000
    ensures Classify(Str(s), media, isFile) == Ok(ToneKind(ParseNat(s) as real))
  {
    ParseDecimalOfDigits(s);
  }

  /** Text made only of letters never converts to a number. */
  lemma LettersAreNotNumbers(s: string)
    requires |s| > 0 && forall i :: 0 <= i < |s| ==> IsUpper(s[i]) || IsLower(s[i])
    ensures ParseDecimal(s).None?
  {
    assert s[0] != '-' && s[0] != '+';
    var parts := Split(s, '.');
    assert forall i :: 0 <= i < |s| ==> s[i] != '.';
    SplitNoSeparator(s, '.');
    assert !IsDigit(parts[0][0]);
  }

  /** Every known name is capitalised and made of letters only. */
  lemma KnownNoteNameShape(n: string)
    requires n in KnownNoteNames
    ensures |n| > 0 && Capitalize(n) == n
    ensures forall i :: 0 <= i < |n| ==> IsUpper(n[i]) || IsLower(n[i])
  {
    assert |n| > 0 && IsUpper(n[0]) && forall i :: 1 <= i < |n| ==> IsLower(n[i]);
    CapitalizedText(n);
  }

  /** A note name in any mix of cases is that note, wherever the files are. */
  lemma ClassifyNoteIgnoresCase(s: string, n: string, media: Option<string>, isFile: string -> bool)
    requires n in KnownNoteNames && Lower(s) == Lower(n)
    ensures Classify(Str(s), media, isFile) == Ok(NoteKind(n))
  {
    KnownNoteNameShape(n);
    CapitalizeIgnoresCase(s, n);
    assert |s| == |Lower(s)| == |n| > 0;
    forall i | 0 <= i < |s| ensures IsUpper(s[i]) || IsLower(s[i]) {
      assert LowerChar(s[i]) == Lower(n)[i];
    }
    LettersAreNotNumbers(s);
  }

  /** For text that is neither a number nor a note, the file search decides:
      without `mediaLocation` it is a NameError, with no existing candidate a
      ValueError, and otherwise the first existing candidate in the order
      name, name.wav, media/name, media/name.wav is the file found. */
  lemma ClassifyFile(s: string, media: Option<string>, isFile: string -> bool)
    requires ParseDecimal(s).None? && Capitalize(s) !in KnownNoteNames
    ensures media.None? <==> Classify(Str(s), media, isFile) == Err(NameError)
    ensures media.Some? ==>
      (Classify(Str(s), media, isFile) == Err(ValueError) <==> forall j :: 0 <= j < 4 ==> !isFile(Candidates(s, media.value)[j]))
    ensures media.Some? && Classify(Str(s), media, isFile).Ok? ==>
      exists i :: 0 <= i < 4 &&
        Classify(Str(s), media, isFile) == Ok(FileKind(Candidates(s, media.value)[i], Candidates(s, media.value)[i / 2 * 2])) &&
        forall j :: 0 <= j < i ==> !isFile(Candidates(s, media.value)[j])
  {
    if media.Some? {
      var c := Candidates(s, media.value);
      match FirstExisting(c, isFile)
      case None =>
      case Some(i) =>
        assert Classify(Str(s), media, isFile) == Ok(FileKind(c[i], c[i / 2 * 2]));
    }
  }

  /** A file found only under its ".wav" name is toOpen under the name
      without it, which does not exist. */
  lemma OpensNameWithoutWav()
    ensures var isFile := (p: string) => p == "ding.wav";
      Classify(Str("ding"), Some("/m"), isFile) == Ok(FileKind("ding.wav", "ding")) && !isFile("ding")
  {
    var isFile := (p: string) => p == "ding.wav";
    var s := "ding";
    LettersAreNotNumbers(s);
    assert Capitalize(s) == "Ding";
    assert Capitalize(s) !in KnownNoteNames;
    assert FirstExisting(Candidates(s, "/m"), isFile) == Some(1);
  }

  /** `int(x)` on a float: truncation toward zero. */
  function Truncate(x: real): (n: int)
    ensures x >= 0.0 ==> n as real <= x < n as real + 1.0
    ensures x < 0.0 ==> n as real - 1.0 < x <= n as real
  {
    if x >= 0.0 then x.Floor else -((-x).Floor)
  }

  /** The tone parameters `_SoundBase._setSndFromFreq` settles on. */
  datatype ToneSetup = ToneSetup(secs: real, loops: int, nSamples: int, smoothed: bool)

  /** `_SoundBase._setSndFromFreq` before the waveform is computed: a
      negative duration stands for "forever" and becomes a 10 s tone looped
      without end (loops -1); the sample count truncates secs * rate; a count
      of zero makes the step 1.0 / nSamples divide by zero; the onset and
      offset are smoothed only when asked and the tone has over 30 samples. */
  function BaseToneSetup(secs: real, loops: int, sampleRate: int, hamming: bool): (r: Result<ToneSetup>)
    ensures secs < 0.0 ==>
      (|| r == Ok(ToneSetup(10.0, -1, Truncate(10.0 * sampleRate as real), hamming && Truncate(10.0 * sampleRate as real) > 30))
       || (r == Err(ZeroDivisionError) && Truncate(10.0 * sampleRate as real) == 0))
    ensures r.Ok? ==> r.value.secs >= 0.0 && r.value.nSamples != 0
    ensures r.Ok? && secs >= 0.0 ==> r.value.secs == secs && r.value.loops == loops
    ensures r.Ok? ==> (r.value.smoothed <==> hamming && r.value.nSamples > 30)
    ensures r.Err? <==> Truncate((if secs < 0.0 then 10.0 else secs) * sampleRate as real) == 0
  {
    var s := if secs < 0.0 then 10.0 else secs;
    var l := if secs < 0.0 then -1 else loops;
    var n := Truncate(s * sampleRate as real);
    if n == 0 then Err(ZeroDivisionError)
    else Ok(ToneSetup(s, l, n, hamming && n > 30))
  }

  /** `apodize`'s half-window: `min(sampleRate // 200, len // 15)`, the
      largest whole number h with 200 h <= sampleRate and 15 h <= length. */
  function HalfWindow(sampleRate: int, length: int): (h: int)
    ensures 200 * h <= sampleRate && 15 * h <= length
    ensures 200 * (h + 1) > sampleRate || 15 * (h + 1) > length
  {
    var a := sampleRate / 200;
    var b := length / 15;
    if a < b then a else b
  }

  /** A 5 ms half-window at 44.1 kHz is 220 samples, once the tone is long
      enough; the whole window of 2 h + 1 samples never exceeds a smoothed
      tone. */
  lemma HalfWindowFacts(sampleRate: int, length: int)
    ensures length >= 3300 ==> HalfWindow(44100, length) == 220
    ensures length > 30 ==> 2 * HalfWindow(sampleRate, length) + 1 <= length
  {
  }
}
