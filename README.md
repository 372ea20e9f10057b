# PsychoPy sound core in Dafny

A model of the sound package of PsychoPy (`psychopy/sound`), together with
proofs about it. It covers three parts:

- **The sounddevice backend** (`backend_sounddevice.py`):
  - the table of open audio streams (`_StreamsDict`), keyed by a
    `rate_channels_blockSize` label, with its exact and wildcard lookups;
  - each stream's ordered list of playing sounds (`_SoundStream`) and the
    mixing callback that adds every sound's next block into the output
    buffer;
  - the playback state machine of a sound (`SoundDeviceSound`): status,
    cursor, loop count, membership in its stream's list, and the fallback
    to a similar stream in `setSound`.
- **The backend-independent base** (`_base.py`):
  - the note table;
  - how `setSound` classifies a value as a tone, a note, a file or an array;
  - the file search;
  - the duration rule for synthesised tones;
  - the size of the smoothing half-window.
- **Start-up selection** (`__init__.py`):
  - the choice of audio library in preference order;
  - `_bestDriver`, which picks an output device by driver name.

Files and modules:

| file | module | contents |
|---|---|---|
| `wrappers.dfy` | `Wrappers` | `Option`, `Result`, `Outcome`, and the Python exceptions the code raises, as values |
| `text.dfy` | `Text` | ASCII `lower`/`capitalize`, substring search, `split`, `str(int)` and decimal `float(str)` |
| `stream_keys.dfy` | `StreamKeys` | stream labels, key matching, lookups in the table |
| `sound_base.dfy` | `SoundBase` | `_base.py` |
| `mixing.dfy` | `Mixing` | list removal, numpy slicing, a sound's next block, adding blocks into the buffer |
| `sound_device.dfy` | `SoundDevice` | classes `SoundStream`, `StreamRegistry` and `Sound` |
| `sound_lib.dfy` | `SoundLib` | `__init__.py` |

Modelling choices:

- **Objects are classes.** Objects whose fields the code updates are
  classes, and their methods change those fields in place: open streams,
  the stream table, sounds. The output buffer is an `array2<int>` that the
  callback zeroes and adds into in place.
- **Samples and time are integers.** Samples are integers, so sums are
  exact. Times are counted in frames, not seconds.
- **The environment is parameters.** These enter as parameters: the file
  system (`isFile`), the sound-file reader (`decode`), `mediaLocation`
  (`None` where the platform leaves it undefined), the platform rule of a
  single stream (`singleStream`, for win32), the preference lists, and
  importing a backend module (`load`).
- **An unset attribute is a flag.** The cursor `t` exists only once something sets it, so a sound carries `hasT` next to `t`.
- **Exceptions are values.** Exceptions are returned as `Err`/`Fail`
  values, carrying the exception the code raises.

The callback comes in two forms:

- `SoundDevice.SoundStream.Callback` walks a fixed copy of the list of
  playing sounds with an explicit index, so every playing sound is mixed
  once.
- `Mixing.VisitedWhileRemoving` is what the code's loop visits as written:
  it iterates the list it removes from (see Findings).

Where the docstrings and the code disagree, the model follows the code:

- The tone range is [37, 20000] Hz, as `_base.py:91` checks, not the
  32767 Hz of the docstring.
- `_EOS` never rewinds a looping sound for another pass. It always takes
  the sound out of its stream's list and leaves it FINISHED
  (`backend_sounddevice.py:403-413`).

Where a finding below shows the code wrong, the operations of the model
use the corrected behaviour, and a separate member keeps the code as
written:

- the callback iterates over a copy of the list
  (`SoundDevice.SoundStream.Callback`; as written:
  `Mixing.VisitedWhileRemoving`);
- `_nextBlock` reads a stop time that is not positive as "to the end"
  (`Mixing.NextBlockOf` and `SoundDevice.Sound.NextBlock`, so also the
  blocks that `MixSound`, `MixAll` and `Callback` mix; as written:
  `Mixing.NextBlockAsWritten`);
- `setSound` opens the file it found (`SoundDevice.Sound.SetSource`; as
  written: the `toOpen` path of `SoundBase.FindSoundFile`).

## Model

| member | source | states |
|---|---|---|
| `StreamKeys.StreamLabelRoundTrip` | psychopy/sound/backend_sounddevice.py:27-30 | the label `getStreamLabel` builds reads back to the three fields it was built from |
| `StreamKeys.StreamLabelInjective` | psychopy/sound/backend_sounddevice.py:27-30 | two formats have the same label exactly when they are the same format |
| `StreamKeys.StreamLabelSplits` | psychopy/sound/backend_sounddevice.py:27-30 | the label splits at its underscores into exactly the three field texts, with None written "None", because no field text contains an underscore |
| `StreamKeys.IndexOfKey` | psychopy/sound/backend_sounddevice.py:70 | the position it gives holds the key, with none before it; no position means the key is absent |
| `StreamKeys.IndexOfLabelIsIndexOfKey` | psychopy/sound/backend_sounddevice.py:68-70 | looking a format up by its label string finds the same entry as looking up the format itself |
| `StreamKeys.IndexOfKeyStable` | psychopy/sound/backend_sounddevice.py:79-82 | adding entries never moves a key already in the table, so a label keeps naming the same stream |
| `StreamKeys.FirstMatch` | psychopy/sound/backend_sounddevice.py:52-57 | the entry found is the first in table order whose format the request matches; none found means no entry matches (the table order is insertion order, see Left out) |
| `StreamKeys.KeyMatches` | psychopy/sound/backend_sounddevice.py:52-57 | every format matches itself, and a request matches a different format only through a -1 field |
| `StreamKeys.ConcreteMatchIsEquality` | psychopy/sound/backend_sounddevice.py:52-61 | a request with every field given (no -1, no None) matches exactly the format equal to it |
| `StreamKeys.Concrete` | psychopy/sound/backend_sounddevice.py:59-61 | a request that may create a stream has all three fields given as integers, none of them -1 |
| `StreamKeys.SimilarRequest` | psychopy/sound/backend_sounddevice.py:267-269 | the fallback request (same rate, any channels and block size) never qualifies for creating a stream |
| `SoundDevice.StreamRegistry.constructor` | psychopy/sound/backend_sounddevice.py:85 | the table starts empty |
| `SoundDevice.StreamRegistry.GetStream` | psychopy/sound/backend_sounddevice.py:64-82 | a known label returns that label and its stream, table unchanged; a new label on a single-stream platform with a stream open raises SoundFormatError, table unchanged; otherwise exactly one new entry, a new empty stream of that format, is added at the end; entries stay unique and match their streams, and a single-stream platform never holds more than one |
| `SoundDevice.StreamRegistry.GetSimilar` | psychopy/sound/backend_sounddevice.py:39-62 | returns the first entry in table order that the request matches, table unchanged; with no match, a request with every field given behaves as `GetStream`, and any other returns None with the table unchanged |
| `SoundDevice.SoundStream.constructor` | psychopy/sound/backend_sounddevice.py:89-113 | a new stream has the given format, no sounds, and frame counter 1 |
| `SoundDevice.SoundStream.Add` | psychopy/sound/backend_sounddevice.py:157-160 | the sound is appended to the end of the list |
| `SoundDevice.SoundStream.Remove` | psychopy/sound/backend_sounddevice.py:162-164 | the first occurrence of the sound leaves the list; removing an absent sound changes nothing |
| `SoundDevice.SoundStream.MixSound` | psychopy/sound/backend_sounddevice.py:135-143 | one sound's turn: it raises what its block raises, or ValueError when numpy cannot broadcast the block into the clamped slice `toSpk[:len(dat)]`; otherwise the buffer holds the sum so far plus this block, the cursor moves on, and a short block takes the sound out of the list and runs `_EOS` |
| `SoundDevice.SoundStream.Retire` | psychopy/sound/backend_sounddevice.py:141-143 | a sound that has just given a short block leaves the list at its own place, the others keeping their order, and its bookkeeping becomes `AfterEos` |
| `SoundDevice.SoundStream.Turn` | psychopy/sound/backend_sounddevice.py:134-143 | one pass of the loop keeps the loop's invariant: earlier sounds mixed as recorded, later ones untouched, buffer the sum of the blocks so far, list the unfinished earlier sounds followed by all later ones |
| `SoundDevice.SoundStream.MixAll` | psychopy/sound/backend_sounddevice.py:134-143 | starting from a silent buffer: the first sound whose block raises ends the loop with that exception, after every earlier sound was mixed; otherwise every sound is mixed in order, the buffer is the element-wise sum of all blocks, and exactly the sounds with short blocks have left the list, the rest keeping their order |
| `SoundDevice.SoundStream.Callback` | psychopy/sound/backend_sounddevice.py:115-143 | frame counter up by one; buffer zeroed and then the element-wise sum of every sound's block (column 0 only on a stream that is not two-channel); each sound mixed once, in list order; exactly the sounds whose block is shorter than the buffer leave the list and run `_EOS`; the first failing block raises its exception, and no earlier one failed |
| `SoundDevice.AllMixedAt` | psychopy/sound/backend_sounddevice.py:134-143 | the record of a callback states each sound's own turn: its block raised nothing and fit, and its bookkeeping became the cursor moved on, then `_EOS` if the block was short |
| `SoundDevice.AllMixedRaisesNothing` | psychopy/sound/backend_sounddevice.py:134-143 | no sound mixed before the failing one raised |
| `Mixing.MixSumSwap` | psychopy/sound/backend_sounddevice.py:133-139 | the order in which sounds are mixed does not change the output |
| `Mixing.MixSumAppend` | psychopy/sound/backend_sounddevice.py:133-139 | the buffer after two groups of blocks is the sum of what each group adds |
| `Mixing.MixSumBeyondBlocks` | psychopy/sound/backend_sounddevice.py:137-139 | rows that no block reaches stay silent |
| `Mixing.MixSumMonoColumn` | psychopy/sound/backend_sounddevice.py:138-139 | an output that is not two-channel gets samples only in column 0 |
| `Mixing.AccumulateSum` | psychopy/sound/backend_sounddevice.py:136-139 | adding one more block to a buffer holding the sum of the earlier blocks leaves it holding the sum of them all, the new block last |
| `Mixing.ZeroBuffer` | psychopy/sound/backend_sounddevice.py:133 | every cell of the buffer is 0 |
| `Mixing.Accumulate` | psychopy/sound/backend_sounddevice.py:136-139 | each cell gains exactly that block's sample for it: the whole frame on a two-channel output, column 0 otherwise, nothing past the block's length or the buffer's rows, a one-frame block spread across its row |
| `Mixing.Fits` | psychopy/sound/backend_sounddevice.py:136-139 | numpy adds a block into the clamped slice exactly when it broadcasts: a block longer than the buffer fits only as one frame or as a 1-D pair on a two-channel output, and an output that is not two-channel takes only 1-D blocks |
| `Mixing.SampleFacts` | psychopy/sound/backend_sounddevice.py:136-139 | a block adds nothing outside its own frames, nothing outside column 0 of an output that is not two-channel, and a one-frame block sounds in every channel of its row |
| `Mixing.RemoveFirst` | psychopy/sound/backend_sounddevice.py:162-164 | a present value shortens the list by one; an absent value leaves it unchanged; nothing new appears |
| `Mixing.RemoveFirstMultiset` | psychopy/sound/backend_sounddevice.py:162-164 | exactly one copy of a present value is removed |
| `Mixing.RemoveFirstAt` | psychopy/sound/backend_sounddevice.py:142 | removing a sound removes it at its own position when it does not occur earlier |
| `Mixing.VisitedWhileRemovingSkips` | psychopy/sound/backend_sounddevice.py:134-143 | with the loop as written, when the first of three sounds finishes, the second is never visited in that callback |
| `Mixing.ClampIndex` | psychopy/sound/backend_sounddevice.py:373-375 | a slice bound counts from the end when negative and is clamped to the array |
| `Mixing.PySlice` | psychopy/sound/backend_sounddevice.py:373-375 | a slice holds the elements between the clamped bounds, in order |
| `Mixing.StereoSlice` | psychopy/sound/backend_sounddevice.py:371-375 | only stereo 0 or 1 gives a block; the block is never longer than the array |
| `Mixing.SliceEndAsWritten` | psychopy/sound/backend_sounddevice.py:361-362 | the slice end as written is at most a block past the cursor, and a stop time at least one frame below zero makes it negative, so that it counts back from the array's end |
| `Mixing.NextBlockAsWritten` | psychopy/sound/backend_sounddevice.py:360-395 | `_nextBlock` as written: an unset cursor raises AttributeError; a stereo setting other than 0 or 1 raises UnboundLocalError with the cursor moved on, whether or not there is an array; a block comes only from an array source and moves the cursor on by one block; with a positive stop time the result is exactly the corrected `NextBlockOf` |
| `Mixing.NextBlockOf` | psychopy/sound/backend_sounddevice.py:360-395 | the corrected `_nextBlock` of the third finding, which reads a stop time that is not positive as "to the end": a sound whose cursor was never set raises AttributeError; the stereo setting is tested before the array, so a setting other than 0 or 1 raises UnboundLocalError with the cursor moved on, and TypeError comes exactly from an array source with stereo 0 or 1 and no array; a block comes only from an array source and moves the cursor on by one block |
| `Mixing.SliceLength` | psychopy/sound/backend_sounddevice.py:371-375 | a slice with bounds that are not negative keeps the frames between the bounds, capped at the array's end |
| `Mixing.NextBlockLength` | psychopy/sound/backend_sounddevice.py:360-375 | a block is never longer than the block size; with no positive stop time it holds exactly the frames left, up to a block, so a block is short exactly when fewer frames remain |
| `Mixing.DefaultStopTimeOverrunsBlock` | psychopy/sound/backend_sounddevice.py:361-375 | with the default stop time of -1 the code as written returns a first block longer than the block size |
| `SoundDevice.AfterEos` | psychopy/sound/backend_sounddevice.py:403-413 | `_EOS` adds exactly one finished pass and leaves the sound FINISHED; it rewinds to 0 only when the sound plays once or its positive loop budget is spent, and never when it loops forever |
| `SoundDevice.PauseUndoesPlay` | psychopy/sound/backend_sounddevice.py:337-351 | pausing a sound just started restores its stream's list |
| `SoundDevice.RemovedOnce` | psychopy/sound/backend_sounddevice.py:162-164 | a sound in the list at most once is gone after one removal; a second removal changes nothing |
| `SoundDevice.Sound.Init` | psychopy/sound/backend_sounddevice.py:205-230 | the fields are set from the arguments: status NOT_STARTED, no finished pass, frame number 0, no channels, no stream, unknown source type, and no cursor at all, since `__init__` never sets `t` |
| `SoundDevice.Sound.Seek` | psychopy/sound/backend_sounddevice.py:397-401 | the cursor exists and it and the frame number go to the given frame |
| `SoundDevice.Sound.Play` | psychopy/sound/backend_sounddevice.py:337-345 | a loop count other than the sound's own raises AttributeError, changing nothing; otherwise the sound is PLAYING and appended to its stream's list |
| `SoundDevice.Sound.Pause` | psychopy/sound/backend_sounddevice.py:347-351 | PAUSED and out of the stream's list, with the cursor and frame number unchanged |
| `SoundDevice.Sound.Stop` | psychopy/sound/backend_sounddevice.py:353-358 | out of the stream's list, cursor and frame number 0, STOPPED |
| `SoundDevice.Sound.Eos` | psychopy/sound/backend_sounddevice.py:403-413 | the bookkeeping becomes `AfterEos`; the sound is removed once, or twice when `stop` runs as well; a sound listed at most once is no longer listed |
| `SoundDevice.Sound.NextBlock` | psychopy/sound/backend_sounddevice.py:360-395 | the block and the new cursor are those the corrected `NextBlockOf` (third finding) gives for the sound's state before the call, including UnboundLocalError with the cursor moved on for a stereo setting other than 0 or 1, tested before the array |
| `SoundDevice.Sound.SetSndFromArray` | psychopy/sound/backend_sounddevice.py:323-335 | the array is stored as `StoredArray` gives for the stereo setting, the sample count is the array's frame count, the sound rewinds to 0, and the source type is left as it was |
| `SoundDevice.StoredArray` | psychopy/sound/backend_sounddevice.py:328-332 | with stereo set, a 1-D array becomes two equal channels frame for frame; any other array is kept; the frame count never changes |
| `SoundDevice.Sound.SetSndFromFreq` | psychopy/sound/backend_sounddevice.py:312-321 | the tone and duration are kept as given, source 'freq', cursor 0 |
| `SoundDevice.Sound.BaseSetSndFromFreq` | psychopy/sound/_base.py:135-147 | a negative duration sets the loop count to -1 even when the sample count then divides by zero; the result is `BaseToneSetup` |
| `SoundDevice.Sound.SetSndFromNote` | psychopy/sound/_base.py:127-133 | the tone is the note's pitch exponent relative to 440 Hz, for the given octave |
| `SoundDevice.Sound.SetSndFromFile` | psychopy/sound/backend_sounddevice.py:280-310 | a file the reader cannot open raises RuntimeError and changes nothing; otherwise rate and channels come from the file, source 'file', cursor 0, and with the default buffering (-1) the frames read are stored as `_setSndFromArray` stores them, with their count; other buffering leaves the array alone |
| `SoundDevice.Sound.SetSource` | psychopy/sound/_base.py:80-118 | `setSound`'s classification decides the result: refused values raise the classification's error; a found file the reader cannot open raises RuntimeError; the new source state is `SourceSetUp`: tones and notes become 'freq' sources with the given duration at cursor 0; a found file is opened from the path that was found, which exists (the corrected form of the second finding), with the file's rate, channels and stored frames; arrays are stored as `StoredArray` gives; any other value changes neither the source nor the cursor, leaving an unset cursor unset; only a file changes the rate and channels |
| `SoundDevice.Sound.SetSourceFromName` | psychopy/sound/_base.py:96-118 | the text branch of `setSound`, for text that is not a number, with the same contract as `SetSource`: a note name, NameError without `mediaLocation`, ValueError when no candidate exists, otherwise the file found |
| `SoundDevice.Sound.ResolveStream` | psychopy/sound/backend_sounddevice.py:258-278 | the choice is `StreamChosen` for the sound's format: the stream already kept for it, with the table unchanged; or a new stream with no sounds, added at the end of the table; or, when it is refused, the table holds exactly one stream, and that stream is used if it has the same rate, the sound taking on its rate, channels and block size; with none, SoundFormatError; on success the sound's format and label are those of its stream, which is in the table |
| `SoundDevice.Sound.SetSound` | psychopy/sound/backend_sounddevice.py:232-278 | a refused value, or a found file the reader cannot open, raises before any stream is looked up, table unchanged; the source is set up as `SourceSetUp` states; the format looked up (the ghost `k`) is the file's rate and channels for a file and the sound's own otherwise, with the sound's block size; the stream is then chosen for it as `StreamChosen` states; an accepted sound ends on a stream in the table whose format is the sound's own |
| `SoundDevice.Sound.SetSoundOnce` | psychopy/sound/backend_sounddevice.py:229 | the call `setSound(value)` in `__init__`, with 0.5 s and octave 4: a refused value raises; success puts the sound on a stream, a tone lasts 0.5 s, and an unclassified value leaves no cursor and an unknown source |
| `SoundDevice.Sound.Create` | psychopy/sound/backend_sounddevice.py:177-230 | a refused value raises; a new sound is NOT_STARTED with no finished pass, on a stream, a tone gets `setSound`'s default 0.5 s rather than the `secs` given, and a value `setSound` does not classify leaves the sound with an unknown source and no cursor |
| `SoundBase.KnownNoteNamesAreSortedKeys` | psychopy/sound/_base.py:19-27 | the known note names are exactly the table's keys, in strictly increasing order |
| `SoundBase.EnharmonicPairs` | psychopy/sound/_base.py:19-26 | enharmonic spellings share an offset: C#/Db -8, D#/Eb -6, F#/Gb -3, G#/Ab -1, A#/Bb +1; B and B# are both +2 |
| `SoundBase.PitchExponentFacts` | psychopy/sound/_base.py:127-133 | A4 has exponent 0; each octave adds 1; the natural notes rise from C to B, and B lies below the next C |
| `SoundBase.AsNumber` | psychopy/sound/_base.py:83-88 | lists and other values never convert to a number |
| `SoundBase.Join` | psychopy/sound/_base.py:104 | `path.join` with an empty directory is the name itself, and a joined path is never shorter than the name |
| `SoundBase.Candidates` | psychopy/sound/_base.py:103-110 | the search order is the name, the name + ".wav", then both under `mediaLocation` |
| `SoundBase.FirstExisting` | psychopy/sound/_base.py:103-110 | the path found exists and no earlier candidate does; none found means no candidate exists |
| `SoundBase.FindSoundFile` | psychopy/sound/_base.py:101-115 | the file name is the first existing candidate, or none; the path later opened is the loop variable as the loop left it |
| `SoundBase.Classify` | psychopy/sound/_base.py:83-118 | a tone lies in [37, 20000] Hz; a note is in the table; a file found exists |
| `SoundBase.ClassifyNumber` | psychopy/sound/_base.py:83-94 | a value that converts to a number raises ValueError exactly when it is outside [37, 20000], and is otherwise that tone |
| `SoundBase.DigitTextIsTone` | psychopy/sound/_base.py:84-94 | digit text such as "440" becomes a tone of that frequency |
| `SoundBase.ClassifyNoteIgnoresCase` | psychopy/sound/_base.py:96-99 | a note name in any mix of cases is that note |
| `SoundBase.ClassifyFile` | psychopy/sound/_base.py:100-113 | for other text: NameError exactly when `mediaLocation` is undefined; ValueError exactly when no candidate exists; otherwise the first existing candidate, in search order, is the file found |
| `SoundBase.OpensNameWithoutWav` | psychopy/sound/_base.py:103-115 | a file found only as "ding.wav" is opened as "ding", which does not exist |
| `SoundBase.Truncate` | psychopy/sound/_base.py:141 | `int()` truncates toward zero |
| `SoundBase.BaseToneSetup` | psychopy/sound/_base.py:135-146 | a negative duration becomes a 10 s tone looped forever (-1); otherwise the duration and loop count are kept; a sample count of zero raises ZeroDivisionError; smoothing happens exactly when asked for and the tone has over 30 samples |
| `SoundBase.HalfWindow` | psychopy/sound/_base.py:33 | the half-window is the largest h with 200 h ≤ sampleRate and 15 h ≤ length |
| `SoundBase.HalfWindowFacts` | psychopy/sound/_base.py:30-38 | 5 ms at 44.1 kHz is 220 samples; the whole window of 2 h + 1 samples never exceeds a smoothed tone |
| `SoundLib.BackendNamed` | psychopy/sound/__init__.py:59-74 | a name selects a backend exactly when it is that backend's own name, compared case-sensitively |
| `SoundLib.SelectAudioLib` | psychopy/sound/__init__.py:56-89 | the loop with its `break` returns what `SelectionOf` specifies |
| `SoundLib.SelectionOf` | psychopy/sound/__init__.py:56-89 | a selection names a listed library whose backend is the one that name selects and imported; DependencyError comes only when every listed name was passed over |
| `SoundLib.SelectionAtFirstAttempt` | psychopy/sound/__init__.py:56-83 | the first name not passed over decides: ValueError for an unknown name, that backend when it imports, and the import's own exception otherwise |
| `SoundLib.SelectionWhenAllPassedOver` | psychopy/sound/__init__.py:85-89 | when every backend raises DependencyError, including when none is listed, the result is DependencyError (the converse is stated by `SelectionOf`) |
| `SoundLib.BestDriver` | psychopy/sound/__init__.py:91-118 | the nested loops with their early return give what `BestDriverOf` specifies |
| `SoundLib.BestDriverOf` | psychopy/sound/__init__.py:91-118 | the only exception the search lets through is IndexError; names that do not decode are skipped, not raised |
| `SoundLib.DeviceMatches` | psychopy/sound/__init__.py:100-108 | a name that does not decode never matches, and a name equal to the preference, ignoring case, always does |
| `SoundLib.BestDriverAtFirstMatch` | psychopy/sound/__init__.py:98-112 | preference-major search: the first preference with a matching device, and its first such device, give that device's name and ID, or IndexError when `devIDs` is shorter |
| `SoundLib.BestDriverWithoutMatch` | psychopy/sound/__init__.py:113-118 | with no match, including an empty preference list or only undecodable names, the result is (None, None) |
| `SoundLib.BestDriverChosenMatches` | psychopy/sound/__init__.py:105-112 | a chosen device matches a preference, and its ID is the one at the device's own index |
| `SoundLib.ScanDevicesAtFirst` | psychopy/sound/__init__.py:103-112 | within one preference, the first matching device decides |
| `SoundLib.DirectSoundAlias` | psychopy/sound/__init__.py:100-101 | 'directsound' in any case searches for devices whose name contains 'primary sound' |

## Left out

- Hardware and library calls are not modelled: `sd.OutputStream`, `sf.SoundFile`/`sf.info` and `os.path.isfile`. The file system and the sound-file reader are parameters.
- Timing and logging are not modelled: `time.time`, `frameTimes`, `takeTimeStamp`, `_tSoundRequestPlay`, the `logging` calls, and the `__del__` teardown.
- `SoundDevice.SoundStream.Callback`: models the callback without the time-stamp logging of `backend_sounddevice.py:126-130`. As written, that block raises TypeError after any `play`, so the contract holds only for the callback with those lines removed (see Notes on the code).
- Threads are not modelled: the driver calls the callback on its own thread, and the model makes the callback an ordinary sequential method.
- Floating-point numerics are not modelled: sine generation for tones, the Hamming multiply in `apodize`, and the float end-of-tone test in `_nextBlock`. Note pitches are kept as exponents relative to 440 Hz.
- `_nextBlock` for a 'freq' source, and for a file streamed from disk (preBuffer 0), is not modelled. `Mixing.Modelled` excludes these sources, and `SoundDevice.Sound.NextBlock` requires it.
- Numpy slicing with float bounds is not modelled: `nFrames` is a float, and recent numpy versions raise TypeError for a float slice bound. The model truncates the bound, as older numpy did.
- `_setSndFromFile` uses `startTime` and `stopTime` for durations in seconds, `sndFile.seek`, and `durationFrames`. These are not modelled: the model loads all frames the reader returns and starts at frame 0.
- Array shape is not enforced: a `Frames` array may have rows of different lengths, and `Frames([])` has no width. Numpy arrays are rectangular, and numpy may refuse to broadcast an empty 2-D array whose width differs from the output's; the model does not enforce the shape and adds such blocks as their samples give.
- `float(str)` is modelled only for plain decimals: signs, digits and one point. Exponents, "inf", "nan" and surrounding white space are not.
- The table of streams keeps its entries in insertion order, and `getSimilar` scans them in that order. The code is Python 2, where `self.keys()` of a dictionary comes in hash order. This matters only when several entries match, and `setSound` calls `getSimilar` only after `getStream` refused a stream, which happens only on a single-stream platform whose table holds exactly one entry (`SoundDevice.Sound.ResolveStream` states this).
- The regular expression in `getSimilar` is not modelled. It is replaced by a field-by-field comparison; its prefix-only anchoring and the rewriting of a "-1" inside a longer number are not modelled.
- `path.join` follows POSIX rules. The Windows rules (`ntpath`) are not modelled.
- `str.lower` and `str.capitalize` are ASCII only. Unicode case mapping is not modelled.
- The globals `Sound`, `audioLib` and `init`: `SoundLib.SelectAudioLib` returns them as a value rather than assigning module globals. `prefs` lookups and dynamic imports enter as parameters.
- `SoundDevice.SoundStream.Callback`:
  - It requires that the list holds no sound twice, that every sound in it belongs to this stream, and that the sounds are array-backed. The code demands none of these.
  - A list with a sound twice is reachable: `play` appends without checking, so a sound played twice without a pause in between is listed twice. The code then fetches two consecutive blocks of that sound in one callback and mixes both. The model does not cover this list, because its record of each turn reads every sound's state as it was when the callback began, and the second turn of a repeated sound starts from the state the first one left.
  - Ghost parameters supply the sounds' sources and bookkeeping at the start of the call.
  - When a block raises, it states the exception and that no earlier sound raised. It does not state the buffer, the list, or the already-mixed sounds' state at that point.
  - Each sound's turn is stated through `AllMixed`, and `SoundDevice.AllMixedAt` gives each index.
- `SoundDevice.SoundStream.MixAll`: the same preconditions and ghost snapshots as `Callback`. When a block raises, it states the exception and that every earlier sound was mixed without raising; it does not state the buffer, the list or the failing sound's cursor at that point.
- `SoundDevice.Sound.Play`: requires that the sound holds its stream. The code looks the stream up by label, which raises KeyError when the label is missing. That cannot happen after a successful `setSound`, because table entries are never removed.
- `SoundDevice.Sound.Pause`, `SoundDevice.Sound.Stop`, `SoundDevice.Sound.Eos`: the same requirement that the sound holds its stream.
- `SoundDevice.Sound.Seek`: takes a frame rather than a time in seconds, so `frameN == t`. Seeking in an open sound file is not modelled.
- `SoundDevice.Sound.SetSource`: the `numpy.array(value)` conversion of a list is taken as given: the list is already an array of integer samples.
- `SoundDevice.Sound.Create`: does not state the whole state of the new sound, only its status, loops, octave, stream, and the tone duration.

## Notes on the code

- `play(loops)` with a loop count other than the sound's own calls `setLoops`, which no class here defines, so it raises AttributeError. The model states this.
- `SoundDeviceSound._setSndFromArray` never sets `sourceType` to 'array'. A raw array given to `setSound` therefore has the source type 'unknown', and its `_nextBlock` fails: `block` is unbound. The model keeps this.
- With the default `stereo=-1`, `_nextBlock` for an array source assigns no block and raises UnboundLocalError. The model keeps this.
- This backend overrides `_setSndFromFreq`, so the base class's negative-duration rule never runs here. `SoundDevice.Sound.BaseSetSndFromFreq` models the base version separately.
- The constructor calls `setSound(value)` without its `secs` and `octave`, so tones use 0.5 s and notes octave 4. `SoundDevice.Sound.Create` states the duration.
- `__init__` never sets the cursor `t`. A value that `setSound` does not classify, such as None, leaves it unset, so the first `_nextBlock` raises AttributeError. `SoundDevice.Sound.Create` states that such a sound has no cursor, and `Mixing.NextBlockOf` raises AttributeError for it.
- `play` sets `takeTimeStamp` on the sound's stream (`backend_sounddevice.py:344`) and the time stamp on the sound itself. The callback then logs `time.time()-self._tSoundRequestPlay` with the stream's own attribute (line 130), which the stream's constructor sets to None (line 113) and nothing changes. So every callback after a `play` raises TypeError before `frameN += 1`, and the flag is never reset (line 155). The first and third findings are masked by this as written: they show only once those logging lines go.
- `_SoundBase.setSound` sets `status` only when `_snd` is set, and this backend never sets `_snd`. Only the constructor sets the status to NOT_STARTED, and the model keeps this.

## Findings

| source | as written | input that shows it | evidently intended | confidence | as-written member | corrected member |
|---|---|---|---|---|---|---|
| psychopy/sound/backend_sounddevice.py:134-143 | the callback iterates over the list it removes finished sounds from, so the sound after a finished one slides into the freed place and is skipped | three playing sounds where the first one's block is short: the second is neither mixed nor advanced in that callback | every playing sound is mixed once per callback, as when iterating over a copy of the list | high (not executed) | `Mixing.VisitedWhileRemovingSkips` | `SoundDevice.SoundStream.Callback` |
| psychopy/sound/_base.py:103-115 | after the search finds `p + '.wav'`, the file opened is `p`, the name without ".wav" | the value "ding" where only "ding.wav" exists: "ding" is opened, and it does not exist | open the file that was found (`self.fileName`) | high (not executed) | `SoundBase.OpensNameWithoutWav`, `SoundBase.FindSoundFile` | `SoundDevice.Sound.SetSource` |
| psychopy/sound/backend_sounddevice.py:361-375 | the block's end is computed from `stopTime` even when it is the default -1, which gives a negative slice bound that counts back from the end of the array | a 2 s mono array at 4 Hz, block size 2, stop time -1: the first block has 4 frames, more than the block size of 2 | a stop time that is not positive means "play to the end", as `_setSndFromFile` reads it (lines 294-299) | medium (not executed) | `Mixing.DefaultStopTimeOverrunsBlock`, `Mixing.NextBlockAsWritten` | `Mixing.NextBlockOf`, `Mixing.NextBlockLength`, `SoundDevice.Sound.NextBlock` |
