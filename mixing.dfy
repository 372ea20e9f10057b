/** The value-level rules behind `_SoundStream.callback` and the array branch
    of `SoundDeviceSound._nextBlock` in psychopy/sound/backend_sounddevice.py:
    Python list removal and list iteration while removing, numpy slicing,
    the block a sound hands to the stream, whether that block can be added
    into the output buffer, and the sum the buffer ends up holding. Time is
    counted in frames: a time of t seconds at rate r is frame t * r. */
module Mixing {
  import opened Wrappers
  import opened SoundBase

  function Min(a: int, b: int): int { if a < b then a else b }
  function Max(a: int, b: int): int { if a < b then b else a }

  // ----- Python lists -------------------------------------------------------

  /** `l.remove(x)` after an `x in l` test: the first occurrence goes, and a
      value that is absent leaves the list as it was. */
  function RemoveFirst<T(==)>(l: seq<T>, x: T): (r: seq<T>)
    ensures x in l ==> |r| == |l| - 1
    ensures x !in l ==> r == l
    ensures forall z :: z in r ==> z in l
    decreases |l|
  {
    if l == [] then []
    else
      assert l == [l[0]] + l[1..];
      if l[0] == x then l[1..] else [l[0]] + RemoveFirst(l[1..], x)
  }

  /** Removal takes out exactly one copy of a value that is present. */
  lemma {:induction false} RemoveFirstMultiset<T>(l: seq<T>, x: T)
    ensures x in l ==> multiset(RemoveFirst(l, x)) == multiset(l) - multiset{x}
    decreases |l|
  {
    if l != [] {
      assert l == [l[0]] + l[1..];
      if l[0] != x { RemoveFirstMultiset(l[1..], x); }
    }
  }

  /** Removing a value that does not occur changes nothing. */
  lemma {:induction false} RemoveFirstAbsent<T>(l: seq<T>, x: T)
    requires x !in l
    ensures RemoveFirst(l, x) == l
    decreases |l|
  {
    if l != [] {
      RemoveFirstAbsent(l[1..], x);
    }
  }

  /** Removing a value that does not occur before position |a| takes out
      exactly the element at that position. */
  lemma {:induction false} RemoveFirstAt<T>(a: seq<T>, x: T, b: seq<T>)
    requires x !in a
    ensures RemoveFirst(a + [x] + b, x) == a + b
    decreases |a|
  {
    if a == [] {
      assert a + [x] + b == [x] + b;
    } else {
      var tail := a[1..] + [x] + b;
      assert a + [x] + b == [a[0]] + tail;
      assert a[0] != x;
      RemoveFirstAt(a[1..], x, b);
      assert a + b == [a[0]] + (a[1..] + b);
    }
  }

  /** No element occurs twice. */
  predicate NoDup<T(==)>(l: seq<T>) {
    forall i, j :: 0 <= i < j < |l| ==> l[i] != l[j]
  }

  /** The elements of `l` whose flag is false, in order. */
  function Keep<T>(l: seq<T>, drop: seq<bool>): (r: seq<T>)
    requires |drop| == |l|
    ensures |r| <= |l|
    decreases |l|
  {
    if l == [] then []
    else Keep(l[..|l| - 1], drop[..|l| - 1]) + (if drop[|l| - 1] then [] else [l[|l| - 1]])
  }

  /** One more element considered: it is kept unless its flag drops it. */
  lemma KeepStep<T>(l: seq<T>, i: nat, drop: seq<bool>, d: bool)
    requires i < |l| && |drop| == i
    ensures Keep(l[..i + 1], drop + [d]) == Keep(l[..i], drop) + (if d then [] else [l[i]])
  {
    assert l[..i + 1] == l[..i] + [l[i]];
    KeepSnoc(l[..i], drop, l[i], d);
  }

  /** A list without duplicates splits around any of its elements into
      parts that do not contain it. */
  lemma NoDupSplit<T>(l: seq<T>, i: nat)
    requires NoDup(l) && i < |l|
    ensures l[i..] == [l[i]] + l[i + 1..]
    ensures l[i] !in l[..i] && l[i] !in l[i + 1..]
  {
    assert l[i..] == [l[i]] + l[i + 1..];
  }

  /** Keeping only removes elements: whatever is kept was in the list. */
  lemma {:induction false} KeepSubset<T>(l: seq<T>, drop: seq<bool>, x: T)
    requires |drop| == |l| && x in Keep(l, drop)
    ensures x in l
    decreases |l|
  {
    if x !in Keep(l[..|l| - 1], drop[..|l| - 1]) {
      assert x == l[|l| - 1];
    } else {
      KeepSubset(l[..|l| - 1], drop[..|l| - 1], x);
    }
  }

  lemma KeepSnoc<T>(l: seq<T>, drop: seq<bool>, x: T, d: bool)
    requires |drop| == |l|
    ensures Keep(l + [x], drop + [d]) == Keep(l, drop) + (if d then [] else [x])
  {
    assert (l + [x])[..|l|] == l;
    assert (drop + [d])[..|l|] == drop;
  }

  /** What a Python `for` loop over a list visits when the body removes the
      current element whenever `finished` holds of it: the iterator moves to
      the next index of the shortened list, so the element that slid into the
      freed place is never visited. */
  function VisitedWhileRemoving<T(==)>(l: seq<T>, i: nat, finished: T -> bool): (r: seq<T>)
    ensures forall x :: x in r ==> x in l
    decreases |l| - i
  {
    if i >= |l| then []
    else if finished(l[i]) then
      [l[i]] + VisitedWhileRemoving(RemoveFirst(l, l[i]), i + 1, finished)
    else
      [l[i]] + VisitedWhileRemoving(l, i + 1, finished)
  }

  /** Of three playing sounds, when the first one finishes, the second is
      skipped in that callback; it is neither mixed nor advanced. */
  lemma VisitedWhileRemovingSkips<T>(a: T, b: T, c: T, finished: T -> bool)
    requires a != b && a != c && b != c
    requires finished(a) && !finished(c)
    ensures VisitedWhileRemoving([a, b, c], 0, finished) == [a, c]
  {
    assert RemoveFirst([a, b, c], a) == [b, c];
    assert VisitedWhileRemoving([b, c], 2, finished) == [];
    assert VisitedWhileRemoving([b, c], 1, finished) == [c];
  }

  // ----- numpy slicing ------------------------------------------------------

  /** Where a Python slice bound lands in a sequence of length `len`: a
      negative bound counts from the end, and both are clamped to [0, len]. */
  function ClampIndex(x: int, len: nat): (r: nat)
    ensures r <= len
    ensures 0 <= x ==> r == Min(x, len)
    ensures x < 0 ==> r == Max(0, len + x)
  {
    if x < 0 then (if len + x < 0 then 0 else len + x)
    else if x > len then len else x
  }

  /** `s[start:stop]` with Python's rules for negative and large bounds. */
  function PySlice<T>(s: seq<T>, start: int, stop: int): (r: seq<T>)
    ensures |r| <= |s|
    ensures var lo, hi := ClampIndex(start, |s|), ClampIndex(stop, |s|);
      |r| == Max(0, hi - lo) && forall k :: 0 <= k < |r| ==> r[k] == s[lo + k]
  {
    var lo, hi := ClampIndex(start, |s|), ClampIndex(stop, |s|);
    if hi <= lo then [] else s[lo..hi]
  }

  /** `arr[start:stop]` on the first axis of a numpy array. */
  function SliceArray(a: SoundArray, start: int, stop: int): (r: SoundArray)
    ensures r.Mono? == a.Mono?
    ensures Length(r) <= Length(a)
  {
    match a
    case Mono(s) => Mono(PySlice(s, start, stop))
    case Frames(rows) => Frames(PySlice(rows, start, stop))
  }

  // ----- the block of one sound ---------------------------------------------

  /** `sourceType`: 'unknown', 'file', 'freq' or 'array'. */
  datatype SourceType = UnknownSource | FileSource | FreqSource | ArraySource

  /** What `_nextBlock` reads of a sound: the source type and buffering, the
      array, the stereo setting, whether the attribute `t` exists yet, the
      cursor in frames, the block size, the stop time in seconds and the
      sample rate. */
  datatype SoundSource = SoundSource(kind: SourceType, preBuffer: int, arr: Option<SoundArray>,
                                     stereo: int, hasT: bool, t: int, blockSize: int, stopTime: real,
                                     sampleRate: int)

  /** The branches this model covers: all but the synthesised tone and the
      file streamed block by block from disk. */
  predicate Modelled(src: SoundSource) {
    src.kind != FreqSource && !(src.kind == FileSource && src.preBuffer == 0)
  }

  /** A file loaded whole into an array, or an array. */
  predicate FromArray(src: SoundSource) {
    (src.kind == FileSource && src.preBuffer == -1) || src.kind == ArraySource
  }

  /** A block, or the exception `_nextBlock` raises, and the cursor the sound
      is left with (the cursor moves on before `return block` fails). */
  datatype Step = Step(block: Result<SoundArray>, t: int)

  /** The slice of frames [start, stop) under the stereo setting: a 2-D
      slice for stereo 1 (an IndexError on a 1-D array), a plain slice for
      stereo 0, and no block at all for any other setting, such as the
      default -1. */
  function StereoSlice(a: SoundArray, stereo: int, start: int, stop: int): (r: Result<SoundArray>)
    ensures r.Ok? ==> stereo == 0 || stereo == 1
    ensures r.Ok? ==> Length(r.value) <= Length(a)
  {
    if stereo == 1 then
      match a
      case Mono(_) => Err(IndexError)
      case Frames(rows) => Ok(Frames(PySlice(rows, start, stop)))
    else if stereo == 0 then Ok(SliceArray(a, start, stop))
    else Err(UnboundLocalError)
  }

  /** The end of the slice as the source computes it:
      `t + min(blockSize, (stopTime - t) * sampleRate)`, truncated as a
      slice bound. With a stop time of -1 (the default) this is negative and
      Python counts it back from the end of the array. */
  function SliceEndAsWritten(src: SoundSource): (stop: int)
    ensures stop <= src.t + src.blockSize
    ensures src.stopTime * src.sampleRate as real <= -1.0 ==> stop < 0
  {
    Min(src.t + src.blockSize, Truncate(src.stopTime * src.sampleRate as real))
  }

  /** The end of the slice when a stop time that is not positive means "to
      the end of the sound", as `_setSndFromFile` reads it. */
  function SliceEnd(src: SoundSource): int {
    if src.stopTime > 0.0 then SliceEndAsWritten(src) else src.t + src.blockSize
  }

  /** A block and the new cursor, given where the slice ends. The stereo
      setting is tested before the array is touched: with a setting other
      than 0 or 1 no block is assigned, whether or not there is an array,
      and the cursor still moves on. A missing array raises TypeError only
      when it is sliced. */
  function BlockFrom(src: SoundSource, stop: int): (s: Step)
    requires Modelled(src)
  {
    if !src.hasT then Step(Err(AttributeError), src.t)
    else if FromArray(src) && (src.stereo == 0 || src.stereo == 1) then
      match src.arr
      case None => Step(Err(TypeError), src.t)
      case Some(a) =>
        var b := StereoSlice(a, src.stereo, src.t, stop);
        if b == Err(IndexError) then Step(b, src.t) else Step(b, src.t + src.blockSize)
    else
      Step(Err(UnboundLocalError), src.t + src.blockSize)
  }

  /** `_nextBlock` for an array source as written. A sound whose cursor was
      never set raises AttributeError before anything else. Given a positive
      stop time it agrees with `NextBlockOf`. */
  function NextBlockAsWritten(src: SoundSource): (s: Step)
    requires Modelled(src)
    ensures !src.hasT ==> s == Step(Err(AttributeError), src.t)
    ensures s.block.Ok? ==> FromArray(src) && src.hasT && s.t == src.t + src.blockSize
    ensures src.hasT && !(src.stereo in {0, 1}) ==> s == Step(Err(UnboundLocalError), src.t + src.blockSize)
    ensures src.stopTime > 0.0 ==> s == NextBlockOf(src)
  {
    BlockFrom(src, SliceEndAsWritten(src))
  }

  /** `_nextBlock` for an array source, reading a stop time that is not
      positive as "play to the end". */
  function NextBlockOf(src: SoundSource): (s: Step)
    requires Modelled(src)
    ensures !src.hasT ==> s == Step(Err(AttributeError), src.t)
    ensures s.block.Ok? ==> FromArray(src) && src.hasT && s.t == src.t + src.blockSize
    ensures s.block.Err? && s.block.error !in {IndexError, TypeError, AttributeError} ==> s.t == src.t + src.blockSize
    ensures s.block == Err(TypeError) <==> src.hasT && FromArray(src) && src.arr.None? && src.stereo in {0, 1}
    ensures src.hasT && !(src.stereo in {0, 1}) ==> s == Step(Err(UnboundLocalError), src.t + src.blockSize)
  {
    BlockFrom(src, SliceEnd(src))
  }

  /** With the default stop time of -1 s, the first block of a 2 s array at
      a 4 Hz rate and a block size of 2 is the whole array but its last
      second: four frames where the buffer holds two. */
  lemma DefaultStopTimeOverrunsBlock()
    ensures var src := SoundSource(FileSource, -1, Some(Mono([0, 0, 0, 0, 0, 0, 0, 0])), 0, true, 0, 2, -1.0, 4);
      NextBlockAsWritten(src).block.Ok? && Length(NextBlockAsWritten(src).block.value) == 4 > src.blockSize
  {
    var src := SoundSource(FileSource, -1, Some(Mono([0, 0, 0, 0, 0, 0, 0, 0])), 0, true, 0, 2, -1.0, 4);
    assert Truncate(-1.0 * 4 as real) == -4;
    assert SliceEndAsWritten(src) == -4;
  }

  /** The number of frames a slice with bounds that are not negative keeps. */
  lemma SliceLength(a: SoundArray, stereo: int, start: int, stop: int)
    requires 0 <= start && 0 <= stop
    requires StereoSlice(a, stereo, start, stop).Ok?
    ensures Length(StereoSlice(a, stereo, start, stop).value) == Max(0, Min(stop, Length(a)) - Min(start, Length(a)))
  {
  }

  /** From a cursor inside the array, a block is never longer than the
      block size; with no positive stop time it is exactly the frames left,
      up to the block size, so a block is short exactly when fewer frames are
      left than a block holds. */
  lemma NextBlockLength(src: SoundSource)
    requires Modelled(src) && FromArray(src) && src.arr.Some?
    requires 0 <= src.t && 0 <= src.blockSize && 0 < src.sampleRate
    requires NextBlockOf(src).block.Ok?
    ensures Length(NextBlockOf(src).block.value) <= src.blockSize
    ensures src.stopTime <= 0.0 ==>
      Length(NextBlockOf(src).block.value) == Max(0, Min(src.blockSize, Length(src.arr.value) - src.t))
  {
    var a := src.arr.value;
    var stop := SliceEnd(src);
    if src.stopTime > 0.0 {
      assert src.stopTime * src.sampleRate as real > 0.0;
      assert Truncate(src.stopTime * src.sampleRate as real) >= 0;
    }
    assert 0 <= stop <= src.t + src.blockSize;
    SliceLength(a, src.stereo, src.t, stop);
  }

  // ----- adding a block into the output buffer --------------------------------

  /** Whether numpy can add a block into `toSpk[:len(dat)]` of an output
      buffer with `rows` rows. The slice is clamped to the buffer, so it has
      min(len(dat), rows) rows, and the block must broadcast to its shape:
      on a two-channel output, frames of width 1 or 2, numbering at most
      `rows` or exactly one, or a 1-D block of one or two samples, which
      spreads across the channels of every row of the slice; on any other
      output, a 1-D block of at most `rows` samples, or of exactly one, into
      column 0. */
  predicate Fits(b: SoundArray, stereoOut: bool, rows: nat)
    ensures Fits(b, stereoOut, rows) && Length(b) > rows ==>
      Length(b) == 1 || (stereoOut && b.Mono? && Length(b) == 2)
    ensures Fits(b, stereoOut, rows) && !stereoOut ==> b.Mono?
  {
    if stereoOut then
      match b
      case Frames(rs) => (|rs| <= rows || |rs| == 1) && forall k :: 0 <= k < |rs| ==> (|rs[k]| == 1 || |rs[k]| == 2)
      case Mono(s) => |s| == 1 || |s| == 2
    else b.Mono? && (|b.samples| <= rows || |b.samples| == 1)
  }

  /** What adding a fitting block contributes to row `r`, column `c` of the
      output. */
  function Sample(b: SoundArray, stereoOut: bool, r: int, c: int): int {
    if r < 0 || r >= Length(b) then 0
    else
      match b
      case Frames(rs) =>
        if !stereoOut then 0
        else if |rs[r]| == 1 then rs[r][0]
        else if |rs[r]| == 2 && 0 <= c < 2 then rs[r][c]
        else 0
      case Mono(s) =>
        if !stereoOut then (if c == 0 then s[r] else 0)
        else if |s| == 1 then s[0]
        else if 0 <= c < |s| then s[c]
        else 0
  }

  /** A block adds nothing outside its own frames, nothing outside column 0
      of an output that is not two-channel, and a one-frame block sounds in
      every channel of the first row: a 1-D single sample, or a frame of
      width 1, spreads across the row. */
  lemma SampleFacts(b: SoundArray, stereoOut: bool, r: int, c: int)
    ensures !(0 <= r < Length(b)) ==> Sample(b, stereoOut, r, c) == 0
    ensures !stereoOut && c != 0 ==> Sample(b, stereoOut, r, c) == 0
    ensures stereoOut && b.Mono? && |b.samples| == 1 && r == 0 ==> Sample(b, stereoOut, r, c) == b.samples[0]
    ensures stereoOut && b.Frames? && 0 <= r < |b.rows| && |b.rows[r]| == 1 ==> Sample(b, stereoOut, r, c) == b.rows[r][0]
  {
  }

  /** The buffer after adding every block in turn into a zeroed buffer. */
  function MixSum(blocks: seq<SoundArray>, stereoOut: bool, r: int, c: int): int
    decreases |blocks|
  {
    if r < 0 || blocks == [] then 0
    else MixSum(blocks[..|blocks| - 1], stereoOut, r, c) + Sample(blocks[|blocks| - 1], stereoOut, r, c)
  }

  /** Adding one more block adds its samples. */
  lemma MixSumSnoc(blocks: seq<SoundArray>, b: SoundArray, stereoOut: bool, r: int, c: int)
    requires 0 <= r
    ensures MixSum(blocks + [b], stereoOut, r, c) == MixSum(blocks, stereoOut, r, c) + Sample(b, stereoOut, r, c)
  {
    assert (blocks + [b])[..|blocks|] == blocks;
  }

  /** Rows that no block reaches stay silent. */
  lemma {:induction false} MixSumBeyondBlocks(blocks: seq<SoundArray>, stereoOut: bool, r: int, c: int)
    requires forall i :: 0 <= i < |blocks| ==> Length(blocks[i]) <= r
    ensures MixSum(blocks, stereoOut, r, c) == 0
    decreases |blocks|
  {
    if r >= 0 && blocks != [] {
      MixSumBeyondBlocks(blocks[..|blocks| - 1], stereoOut, r, c);
    }
  }

  /** A mono output is written only in column 0. */
  lemma {:induction false} MixSumMonoColumn(blocks: seq<SoundArray>, r: int, c: int)
    requires c != 0
    ensures MixSum(blocks, false, r, c) == 0
    decreases |blocks|
  {
    if r >= 0 && blocks != [] {
      MixSumMonoColumn(blocks[..|blocks| - 1], r, c);
    }
  }

  /** The sum over two groups of blocks is the sum of their sums. */
  lemma {:induction false} MixSumAppend(a: seq<SoundArray>, b: seq<SoundArray>, stereoOut: bool, r: int, c: int)
    ensures MixSum(a + b, stereoOut, r, c) == MixSum(a, stereoOut, r, c) + MixSum(b, stereoOut, r, c)
    decreases |b|
  {
    if b == [] {
      assert a + b == a;
    } else if r >= 0 {
      assert (a + b)[..|a + b| - 1] == a + b[..|b| - 1];
      assert (a + b)[|a + b| - 1] == b[|b| - 1];
      MixSumAppend(a, b[..|b| - 1], stereoOut, r, c);
    }
  }

  /** The order in which sounds are mixed does not change the output: two
      neighbouring blocks may trade places. */
  lemma MixSumSwap(a: seq<SoundArray>, x: SoundArray, y: SoundArray, b: seq<SoundArray>, stereoOut: bool, r: int, c: int)
    ensures MixSum(a + [x, y] + b, stereoOut, r, c) == MixSum(a + [y, x] + b, stereoOut, r, c)
  {
    MixSumAppend(a + [x, y], b, stereoOut, r, c);
    MixSumAppend(a + [y, x], b, stereoOut, r, c);
    MixSumAppend(a, [x, y], stereoOut, r, c);
    MixSumAppend(a, [y, x], stereoOut, r, c);
    assert [x, y][..1] == [x] && [y, x][..1] == [y];
  }

  /** `toSpk *= 0`. */
  method ZeroBuffer(toSpk: array2<int>)
    modifies toSpk
    ensures forall r, c :: 0 <= r < toSpk.Length0 && 0 <= c < toSpk.Length1 ==> toSpk[r, c] == 0
  {
    var r := 0;
    while r < toSpk.Length0
      invariant 0 <= r <= toSpk.Length0
      invariant forall i, j :: 0 <= i < r && 0 <= j < toSpk.Length1 ==> toSpk[i, j] == 0
    {
      var c := 0;
      while c < toSpk.Length1
        invariant 0 <= c <= toSpk.Length1
        invariant forall i, j :: 0 <= i < r && 0 <= j < toSpk.Length1 ==> toSpk[i, j] == 0
        invariant forall j :: 0 <= j < c ==> toSpk[r, j] == 0
      {
        toSpk[r, c] := 0;
        c := c + 1;
      }
      r := r + 1;
    }
  }

  /** Adding one more block into a buffer that holds the sum of the blocks
      so far leaves the sum of all of them. */
  method AccumulateSum(toSpk: array2<int>, ghost blocks: seq<SoundArray>, dat: SoundArray, stereoOut: bool)
    requires Fits(dat, stereoOut, toSpk.Length0)
    requires stereoOut ==> toSpk.Length1 == 2
    requires toSpk.Length1 >= 1
    requires forall r, c :: 0 <= r < toSpk.Length0 && 0 <= c < toSpk.Length1 ==>
      toSpk[r, c] == MixSum(blocks, stereoOut, r, c)
    modifies toSpk
    ensures forall r, c :: 0 <= r < toSpk.Length0 && 0 <= c < toSpk.Length1 ==>
      toSpk[r, c] == MixSum(blocks + [dat], stereoOut, r, c)
  {
    Accumulate(toSpk, dat, stereoOut);
    forall r, c | 0 <= r < toSpk.Length0 && 0 <= c < toSpk.Length1
      ensures toSpk[r, c] == MixSum(blocks + [dat], stereoOut, r, c)
    {
      MixSumSnoc(blocks, dat, stereoOut, r, c);
    }
  }

  /** `toSpk[:len(dat), :] += dat` on a two-channel output, or
      `toSpk[:len(dat), 0] += dat` on any other. */
  method Accumulate(toSpk: array2<int>, dat: SoundArray, stereoOut: bool)
    requires Fits(dat, stereoOut, toSpk.Length0)
    requires stereoOut ==> toSpk.Length1 == 2
    requires toSpk.Length1 >= 1
    modifies toSpk
    ensures forall r, c :: 0 <= r < toSpk.Length0 && 0 <= c < toSpk.Length1 ==>
      toSpk[r, c] == old(toSpk[r, c]) + Sample(dat, stereoOut, r, c)
  {
    var n := Min(Length(dat), toSpk.Length0);
    var r := 0;
    while r < n
      invariant 0 <= r <= n
      invariant forall i, j :: 0 <= i < toSpk.Length0 && 0 <= j < toSpk.Length1 ==>
        toSpk[i, j] == old(toSpk[i, j]) + (if i < r then Sample(dat, stereoOut, i, j) else 0)
    {
      if stereoOut {
        toSpk[r, 0] := toSpk[r, 0] + Sample(dat, true, r, 0);
        toSpk[r, 1] := toSpk[r, 1] + Sample(dat, true, r, 1);
      } else {
        toSpk[r, 0] := toSpk[r, 0] + dat.samples[r];
      }
      r := r + 1;
    }
  }
}
