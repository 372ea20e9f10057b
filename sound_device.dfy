/** The sounddevice backend, psychopy/sound/backend_sounddevice.py: the
    table of open audio streams, each stream's list of playing sounds and its
    mixing callback, and the playback state of a sound.

    A sound keeps a reference to its stream next to the stream's label. The
    table never drops or replaces an entry, so the label always looks up
    that same stream object (`IndexOfKeyStable`). Times are in frames. */
module SoundDevice {
  import opened Wrappers
  import opened Text
  import opened StreamKeys
  import opened SoundBase
  import opened Mixing

  /** NOT_STARTED, PLAYING, PAUSED, STOPPED and FINISHED. */
  datatype Status = NotStarted | Playing | Paused | Stopped | Finished

  /** The playback bookkeeping of a sound: status, cursor, frame number and
      the count of finished passes. */
  datatype PlayState = PlayState(status: Status, t: int, frameN: int, loopsFinished: int)

  /** Whether `_EOS` stops (and rewinds) the sound: it plays once, or it has
      used up a positive loop budget. A sound looping forever (-1) is never
      rewound. */
  predicate EosStops(loops: int, loopsFinished: int) {
    loops == 0 || (loops > 0 && loopsFinished >= loops)
  }

  /** The bookkeeping after `_EOS`: one more finished pass and always
      FINISHED; the sound is rewound only when it plays once or its positive
      loop budget is spent, so a sound looping forever (-1) keeps its place. */
  function AfterEos(p: PlayState, loops: int): (q: PlayState)
    ensures q.status == Finished && q.loopsFinished == p.loopsFinished + 1
    ensures EosStops(loops, p.loopsFinished + 1) ==> q.t == 0 && q.frameN == 0
    ensures !EosStops(loops, p.loopsFinished + 1) ==> q.t == p.t && q.frameN == p.frameN
    ensures loops < 0 ==> q.t == p.t && q.frameN == p.frameN
  {
    var n := p.loopsFinished + 1;
    if EosStops(loops, n) then PlayState(Finished, 0, 0, n) else PlayState(Finished, p.t, p.frameN, n)
  }

  /** The exception a sound's turn in the callback raises, if any: its block
      fails, or numpy cannot add the block into the output. */
  function BlockError(src: SoundSource, stereoOut: bool, rows: nat): Option<Exception>
    requires Modelled(src)
  {
    var step := NextBlockOf(src);
    if step.block.Err? then Some(step.block.error)
    else if !Fits(step.block.value, stereoOut, rows) then Some(ValueError)
    else None
  }

  /** A sound's bookkeeping after a callback in which its block was mixed: the
      cursor moves on, and a short block ends the pass through `_EOS`. */
  function AfterBlock(p: PlayState, src: SoundSource, loops: int, rows: nat): PlayState
    requires Modelled(src) && NextBlockOf(src).block.Ok?
  {
    var step := NextBlockOf(src);
    var moved := p.(t := step.t);
    if Length(step.block.value) < rows then AfterEos(moved, loops) else moved
  }

  /** A sound's turn in a callback that went through: its block raised
      nothing and fit the buffer, `b` is that block, and `after` is the
      bookkeeping it left behind. */
  predicate MixedTurn(src: SoundSource, stereoOut: bool, rows: nat, b: SoundArray,
                      before: PlayState, loops: int, after: PlayState)
    requires Modelled(src)
  {
    && BlockError(src, stereoOut, rows).None?
    && NextBlockOf(src).block == Ok(b)
    && after == AfterBlock(before, src, loops, rows)
  }

  /** Every sound of a callback had the turn `MixedTurn` describes: the
      sounds' sources `srcs`, their loop counts, and the blocks and
      bookkeeping before and after, listed in the order they were mixed. */
  predicate AllMixed(srcs: seq<SoundSource>, stereoOut: bool, rows: nat, blocks: seq<SoundArray>,
                     befores: seq<PlayState>, loopCounts: seq<int>, afters: seq<PlayState>)
    requires |srcs| == |blocks| == |befores| == |loopCounts| == |afters|
    requires forall j :: 0 <= j < |srcs| ==> Modelled(srcs[j])
    decreases |srcs|
  {
    |srcs| == 0 ||
    var n := |srcs| - 1;
    && AllMixed(srcs[..n], stereoOut, rows, blocks[..n], befores[..n], loopCounts[..n], afters[..n])
    && MixedTurn(srcs[n], stereoOut, rows, blocks[n], befores[n], loopCounts[n], afters[n])
  }

  /** One more turn extends the record of the turns before it. */
  lemma AllMixedStep(srcs: seq<SoundSource>, stereoOut: bool, rows: nat, blocks: seq<SoundArray>,
                     befores: seq<PlayState>, loopCounts: seq<int>, afters: seq<PlayState>,
                     i: nat, b: SoundArray, after: PlayState)
    requires i < |srcs| == |befores| == |loopCounts| && |blocks| == |afters| == i
    requires forall j :: 0 <= j < |srcs| ==> Modelled(srcs[j])
    requires AllMixed(srcs[..i], stereoOut, rows, blocks, befores[..i], loopCounts[..i], afters)
    requires MixedTurn(srcs[i], stereoOut, rows, b, befores[i], loopCounts[i], after)
    ensures AllMixed(srcs[..i + 1], stereoOut, rows, blocks + [b], befores[..i + 1], loopCounts[..i + 1], afters + [after])
  {
    assert srcs[..i + 1][..i] == srcs[..i];
    assert befores[..i + 1][..i] == befores[..i];
    assert loopCounts[..i + 1][..i] == loopCounts[..i];
    assert (blocks + [b])[..i] == blocks;
    assert (afters + [after])[..i] == afters;
  }

  /** The record says of each sound what its own turn was. */
  lemma {:induction false} AllMixedAt(srcs: seq<SoundSource>, stereoOut: bool, rows: nat, blocks: seq<SoundArray>,
                                      befores: seq<PlayState>, loopCounts: seq<int>, afters: seq<PlayState>, k: nat)
    requires |srcs| == |blocks| == |befores| == |loopCounts| == |afters|
    requires forall j :: 0 <= j < |srcs| ==> Modelled(srcs[j])
    requires AllMixed(srcs, stereoOut, rows, blocks, befores, loopCounts, afters)
    requires k < |srcs|
    ensures MixedTurn(srcs[k], stereoOut, rows, blocks[k], befores[k], loopCounts[k], afters[k])
    decreases |srcs|
  {
    var n := |srcs| - 1;
    if k < n {
      AllMixedAt(srcs[..n], stereoOut, rows, blocks[..n], befores[..n], loopCounts[..n], afters[..n], k);
    }
  }

  /** No sound in the record of the first `k` turns raised. */
  lemma AllMixedRaisesNothing(srcs: seq<SoundSource>, stereoOut: bool, rows: nat, blocks: seq<SoundArray>,
                              befores: seq<PlayState>, loopCounts: seq<int>, afters: seq<PlayState>, k: nat)
    requires k <= |srcs| == |befores| == |loopCounts| && |blocks| == |afters| == k
    requires forall j :: 0 <= j < |srcs| ==> Modelled(srcs[j])
    requires AllMixed(srcs[..k], stereoOut, rows, blocks, befores[..k], loopCounts[..k], afters)
    ensures forall i :: 0 <= i < k ==> BlockError(srcs[i], stereoOut, rows).None?
  {
    forall i | 0 <= i < k
      ensures BlockError(srcs[i], stereoOut, rows).None?
    {
      AllMixedAt(srcs[..k], stereoOut, rows, blocks, befores[..k], loopCounts[..k], afters, i);
      assert srcs[..k][i] == srcs[i];
    }
  }

  /** The part of the state of `callback`'s loop at index `i` that does not
      depend on the heap: the first `i` sounds of the snapshot `playing` were
      mixed as `AllMixed` records, and `kept` lists those of them whose
      block was not short, in order. */
  ghost predicate MixedSoFar(playing: seq<Sound>, i: nat, stereoOut: bool, rows: nat, srcs: seq<SoundSource>,
                             befores: seq<PlayState>, loopCounts: seq<int>, blocks: seq<SoundArray>,
                             afters: seq<PlayState>, kept: seq<Sound>)
  {
    && i <= |playing| == |srcs| == |befores| == |loopCounts| && |blocks| == |afters| == i && NoDup(playing)
    && (forall j :: 0 <= j < |srcs| ==> Modelled(srcs[j]))
    && AllMixed(srcs[..i], stereoOut, rows, blocks, befores[..i], loopCounts[..i], afters)
    && kept == Keep(playing[..i], ShortFlags(blocks, rows))
  }

  /** One more turn, as `MixedTurn` describes it, extends that state. */
  lemma MixedSoFarStep(playing: seq<Sound>, i: nat, stereoOut: bool, rows: nat, srcs: seq<SoundSource>,
                       befores: seq<PlayState>, loopCounts: seq<int>, blocks: seq<SoundArray>,
                       afters: seq<PlayState>, kept: seq<Sound>, b: SoundArray, after: PlayState)
    requires i < |playing| && MixedSoFar(playing, i, stereoOut, rows, srcs, befores, loopCounts, blocks, afters, kept)
    requires MixedTurn(srcs[i], stereoOut, rows, b, befores[i], loopCounts[i], after)
    ensures MixedSoFar(playing, i + 1, stereoOut, rows, srcs, befores, loopCounts, blocks + [b], afters + [after],
                       kept + (if Short(b, rows) then [] else [playing[i]]))
  {
    ShortFlagsSnoc(blocks, b, rows);
    KeepStep(playing, i, ShortFlags(blocks, rows), Short(b, rows));
    AllMixedStep(srcs, stereoOut, rows, blocks, befores, loopCounts, afters, i, b, after);
  }

  /** Whether a block is short: fewer frames than the output buffer has rows. */
  predicate Short(b: SoundArray, rows: nat) {
    Length(b) < rows
  }

  /** The flags saying which blocks are short. */
  function ShortFlags(blocks: seq<SoundArray>, rows: nat): (flags: seq<bool>)
    ensures |flags| == |blocks|
    ensures forall i :: 0 <= i < |blocks| ==> flags[i] == Short(blocks[i], rows)
  {
    seq(|blocks|, i requires 0 <= i < |blocks| => Short(blocks[i], rows))
  }

  lemma ShortFlagsSnoc(blocks: seq<SoundArray>, b: SoundArray, rows: nat)
    ensures ShortFlags(blocks + [b], rows) == ShortFlags(blocks, rows) + [Short(b, rows)]
  {
    assert ShortFlags(blocks + [b], rows)[|blocks|] == Short(b, rows);
  }

  /** A playing sound that is paused straight after it was started leaves
      its stream's list as it was. */
  lemma PauseUndoesPlay(l: seq<Sound>, s: Sound)
    requires s !in l
    ensures RemoveFirst(l + [s], s) == l
  {
    RemoveFirstAt(l, s, []);
    assert l + [s] + [] == l + [s];
  }

  /** A value that occurs at most once is gone after one removal, and a
      second removal changes nothing. */
  lemma RemovedOnce<T>(l: seq<T>, x: T)
    requires multiset(l)[x] <= 1
    ensures x !in RemoveFirst(l, x)
    ensures RemoveFirst(RemoveFirst(l, x), x) == RemoveFirst(l, x)
  {
    RemoveFirstMultiset(l, x);
    if x in l {
      assert multiset(RemoveFirst(l, x))[x] == 0;
    }
  }

  /** An audio stream and the sounds it is playing (`_SoundStream`). */
  class SoundStream {
    const sampleRate: Field
    const channels: Field
    const blockSize: Field
    /** The sounds currently playing, in the order they were added. */
    var sounds: seq<Sound>
    /** The callbacks run so far, plus one. */
    var frameN: int

    function Key(): StreamKey {
      StreamKey(sampleRate, channels, blockSize)
    }

    constructor (sampleRate: Field, channels: Field, blockSize: Field)
      ensures Key() == StreamKey(sampleRate, channels, blockSize)
      ensures sounds == [] && frameN == 1
    {
      this.sampleRate := sampleRate;
      this.channels := channels;
      this.blockSize := blockSize;
      sounds := [];
      frameN := 1;
    }

    /** `add`: the sound goes to the end of the list. */
    method Add(sound: Sound)
      modifies this`sounds
      ensures sounds == old(sounds) + [sound]
    {
      sounds := sounds + [sound];
    }

    /** `remove`: the first occurrence of the sound goes; a sound that is not
      in the list leaves it as it was. */
    method Remove(sound: Sound)
      modifies this`sounds
      ensures sounds == RemoveFirst(old(sounds), sound)
      ensures sound !in old(sounds) ==> sounds == old(sounds)
    {
      if sound in sounds {
        sounds := RemoveFirst(sounds, sound);
      }
    }

    /** One sound's turn in `callback`: its next block is read and, when
      numpy can add it, added into the buffer; a short block takes the sound
      out of the list and ends its pass through `_EOS`. */
    method MixSound(s: Sound, toSpk: array2<int>, ghost blocks: seq<SoundArray>,
                    ghost kept: seq<Sound>, ghost rest: seq<Sound>)
      returns (err: Option<Exception>, ghost dat: SoundArray)
      requires s.stream == this && Modelled(s.Source())
      requires sounds == kept + [s] + rest && s !in kept && s !in rest
      requires toSpk.Length1 >= 1 && (channels == Some(2) ==> toSpk.Length1 == 2)
      requires forall row, c :: 0 <= row < toSpk.Length0 && 0 <= c < toSpk.Length1 ==>
        toSpk[row, c] == MixSum(blocks, channels == Some(2), row, c)
      modifies this`sounds, toSpk, s`t, s`hasT, s`frameN, s`status, s`loopsFinished
      ensures err == BlockError(old(s.Source()), channels == Some(2), toSpk.Length0)
      ensures err.None? ==>
        MixedTurn(old(s.Source()), channels == Some(2), toSpk.Length0, dat, old(s.Playback()), s.loops, s.Playback())
      ensures err.None? ==> forall row, c :: 0 <= row < toSpk.Length0 && 0 <= c < toSpk.Length1 ==>
        toSpk[row, c] == MixSum(blocks + [dat], channels == Some(2), row, c)
      ensures err.None? ==> sounds == kept + (if Short(dat, toSpk.Length0) then [] else [s]) + rest
    {
      var stereoOut := channels == Some(2);
      var rows := toSpk.Length0;
      var block := s.NextBlock();
      if block.Err? {
        err, dat := Some(block.error), Mono([]);
        return;
      }
      var b := block.value;
      dat := b;
      if !Fits(b, stereoOut, rows) {
        err := Some(ValueError);
        return;
      }
      err := None;
      AccumulateSum(toSpk, blocks, b, stereoOut);
      if Length(b) < rows {
        Retire(s, kept, rest);
      }
    }

    /** `callback` on a short block: the sound leaves the list, and `_EOS`
      ends its pass. */
    method Retire(s: Sound, ghost kept: seq<Sound>, ghost rest: seq<Sound>)
      requires s.stream == this
      requires sounds == kept + [s] + rest && s !in kept && s !in rest
      modifies this`sounds, s`t, s`hasT, s`frameN, s`status, s`loopsFinished
      ensures sounds == kept + rest
      ensures s.Playback() == AfterEos(old(s.Playback()), s.loops)
    {
      RemoveFirstAt(kept, s, rest);
      RemoveFirstAbsent(kept + rest, s);
      sounds := RemoveFirst(sounds, s);
      s.Eos();
    }

    /** What holds when `callback`'s loop over the snapshot `playing` comes
      to index `i`: the sounds before `i` were mixed as `AllMixed` records
      (`blocks` their blocks, `afters` their bookkeeping now), the others
      are untouched (`srcs` and `befores` are every sound's source and
      bookkeeping when the loop began, `loopCounts` their loop counts), the
      buffer holds the sum of the blocks so far, and the list holds the
      earlier sounds that are not finished (`kept`) and then all the later
      ones. */
    ghost predicate MixingState(playing: seq<Sound>, i: nat, toSpk: array2<int>, srcs: seq<SoundSource>,
                           befores: seq<PlayState>, loopCounts: seq<int>, blocks: seq<SoundArray>,
                           afters: seq<PlayState>, kept: seq<Sound>)
      reads this, toSpk, set s | s in playing
    {
      && MixedSoFar(playing, i, channels == Some(2), toSpk.Length0, srcs, befores, loopCounts, blocks, afters, kept)
      && (forall j :: 0 <= j < |playing| ==> playing[j].stream == this && playing[j].loops == loopCounts[j])
      && (forall j :: 0 <= j < i ==> playing[j].Playback() == afters[j])
      && (forall j :: i <= j < |playing| ==> playing[j].Source() == srcs[j] && playing[j].Playback() == befores[j])
      && toSpk.Length1 >= 1 && (channels == Some(2) ==> toSpk.Length1 == 2)
      && (forall row, c :: 0 <= row < toSpk.Length0 && 0 <= c < toSpk.Length1 ==>
            toSpk[row, c] == MixSum(blocks, channels == Some(2), row, c))
      && sounds == kept + playing[i..]
    }

    /** What `MixingState` says of the sounds mixed so far. */
    lemma MixingSoFar(playing: seq<Sound>, i: nat, toSpk: array2<int>, srcs: seq<SoundSource>,
                      befores: seq<PlayState>, loopCounts: seq<int>, blocks: seq<SoundArray>,
                      afters: seq<PlayState>, kept: seq<Sound>)
      requires MixingState(playing, i, toSpk, srcs, befores, loopCounts, blocks, afters, kept)
      ensures i <= |srcs| == |befores| == |loopCounts| && |blocks| == |afters| == i
      ensures forall j :: 0 <= j < |srcs| ==> Modelled(srcs[j])
      ensures AllMixed(srcs[..i], channels == Some(2), toSpk.Length0, blocks, befores[..i], loopCounts[..i], afters)
    {
    }

    /** What `MixingState` says of the turns once every sound has been mixed. */
    lemma MixingDoneTurns(playing: seq<Sound>, toSpk: array2<int>, srcs: seq<SoundSource>,
                          befores: seq<PlayState>, loopCounts: seq<int>, blocks: seq<SoundArray>,
                          afters: seq<PlayState>, kept: seq<Sound>)
      requires MixingState(playing, |playing|, toSpk, srcs, befores, loopCounts, blocks, afters, kept)
      ensures |blocks| == |afters| == |srcs| == |befores| == |loopCounts|
      ensures forall j :: 0 <= j < |srcs| ==> Modelled(srcs[j])
      ensures AllMixed(srcs, channels == Some(2), toSpk.Length0, blocks, befores, loopCounts, afters)
    {
      var n := |playing|;
      assert srcs[..n] == srcs && befores[..n] == befores && loopCounts[..n] == loopCounts;
    }

    /** What `MixingState` says of the sounds, the buffer and the list once every
      sound has been mixed. */
    lemma MixingDoneState(playing: seq<Sound>, toSpk: array2<int>, srcs: seq<SoundSource>,
                          befores: seq<PlayState>, loopCounts: seq<int>, blocks: seq<SoundArray>,
                          afters: seq<PlayState>, kept: seq<Sound>)
      requires MixingState(playing, |playing|, toSpk, srcs, befores, loopCounts, blocks, afters, kept)
      ensures forall i :: 0 <= i < |playing| ==> playing[i].Playback() == afters[i]
      ensures forall row, c :: 0 <= row < toSpk.Length0 && 0 <= c < toSpk.Length1 ==>
        toSpk[row, c] == MixSum(blocks, channels == Some(2), row, c)
      ensures sounds == Keep(playing, ShortFlags(blocks, toSpk.Length0))
    {
      var n := |playing|;
      assert playing[..n] == playing && playing[n..] == [];
    }

    /** The pass of `callback`'s loop at index `i`: it raises what the
      sound's block raises, and otherwise leaves what the next pass needs. */
    method Turn(playing: seq<Sound>, i: nat, toSpk: array2<int>, ghost srcs: seq<SoundSource>,
                ghost befores: seq<PlayState>, ghost loopCounts: seq<int>, ghost blocks: seq<SoundArray>,
                ghost afters: seq<PlayState>, ghost kept: seq<Sound>)
      returns (err: Option<Exception>, ghost dat: SoundArray, ghost after: PlayState, ghost kept': seq<Sound>)
      requires i < |playing| && MixingState(playing, i, toSpk, srcs, befores, loopCounts, blocks, afters, kept)
      modifies this`sounds, toSpk, {playing[i]}`t, {playing[i]}`hasT, {playing[i]}`frameN
      modifies {playing[i]}`status, {playing[i]}`loopsFinished
      ensures err == BlockError(srcs[i], channels == Some(2), toSpk.Length0)
      ensures err.None? ==>
        MixingState(playing, i + 1, toSpk, srcs, befores, loopCounts, blocks + [dat], afters + [after], kept')
    {
      var rows := toSpk.Length0;
      var s := playing[i];
      NoDupSplit(playing, i);
      assert s !in kept by {
        if s in kept {
          KeepSubset(playing[..i], ShortFlags(blocks, rows), s);
        }
      }
      assert playing[i..] == [s] + playing[i + 1..];
      err, dat := MixSound(s, toSpk, blocks, kept, playing[i + 1..]);
      after := s.Playback();
      kept' := kept + (if Short(dat, rows) then [] else [s]);
      if err.None? {
        forall j | 0 <= j < |playing|
          ensures playing[j].stream == old(playing[j].stream) && playing[j].loops == old(playing[j].loops)
          ensures j != i ==> playing[j].Source() == old(playing[j].Source()) && playing[j].Playback() == old(playing[j].Playback())
        {
          if j != i {
            assert playing[j] != s;
          }
        }
        MixedSoFarStep(playing, i, channels == Some(2), rows, srcs, befores, loopCounts, blocks, afters, kept, dat, after);
        assert forall j :: 0 <= j < i + 1 ==> playing[j].Playback() == (afters + [after])[j];
      }
    }

    /** The loop of `callback` over the snapshot of the playing sounds,
      starting from a silent buffer; `srcs`, `befores` and `loopCounts` are what
      the sounds' blocks are read from, their bookkeeping and their loop
      counts at the start, and `afters` their bookkeeping at the end. */
    method MixAll(toSpk: array2<int>, ghost srcs: seq<SoundSource>, ghost befores: seq<PlayState>,
                  ghost loopCounts: seq<int>)
      returns (r: Outcome, ghost blocks: seq<SoundArray>, ghost afters: seq<PlayState>, ghost k: nat)
      requires NoDup(sounds) && |srcs| == |befores| == |loopCounts| == |sounds|
      requires forall j :: 0 <= j < |sounds| ==>
        sounds[j].stream == this && Modelled(srcs[j]) && sounds[j].loops == loopCounts[j]
      requires forall j :: 0 <= j < |sounds| ==> sounds[j].Source() == srcs[j] && sounds[j].Playback() == befores[j]
      requires toSpk.Length1 >= 1 && (channels == Some(2) ==> toSpk.Length1 == 2)
      requires forall row, c :: 0 <= row < toSpk.Length0 && 0 <= c < toSpk.Length1 ==> toSpk[row, c] == 0
      modifies this`sounds, toSpk
      modifies (set s | s in sounds)`t, (set s | s in sounds)`hasT, (set s | s in sounds)`frameN
      modifies (set s | s in sounds)`status, (set s | s in sounds)`loopsFinished
      ensures r.Fail? ==> k < |srcs| && |blocks| == |afters| == k
      ensures r.Fail? ==> BlockError(srcs[k], channels == Some(2), toSpk.Length0) == Some(r.error)
      ensures r.Fail? ==>
        AllMixed(srcs[..k], channels == Some(2), toSpk.Length0, blocks, befores[..k], loopCounts[..k], afters)
      ensures r.Pass? ==> |blocks| == |afters| == |srcs|
      ensures r.Pass? ==> AllMixed(srcs, channels == Some(2), toSpk.Length0, blocks, befores, loopCounts, afters)
      ensures r.Pass? ==> forall i :: 0 <= i < |srcs| ==> old(sounds)[i].Playback() == afters[i]
      ensures r.Pass? ==> forall row, c :: 0 <= row < toSpk.Length0 && 0 <= c < toSpk.Length1 ==>
        toSpk[row, c] == MixSum(blocks, channels == Some(2), row, c)
      ensures r.Pass? ==> sounds == Keep(old(sounds), ShortFlags(blocks, toSpk.Length0))
    {
      var rows := toSpk.Length0;
      var playing := sounds;
      blocks, afters := [], [];
      ghost var kept: seq<Sound> := [];
      var i := 0;
      while i < |playing|
        invariant playing == old(sounds)
        invariant MixingState(playing, i, toSpk, srcs, befores, loopCounts, blocks, afters, kept)
      {
        var err;
        ghost var dat, after;
        MixingSoFar(playing, i, toSpk, srcs, befores, loopCounts, blocks, afters, kept);
        err, dat, after, kept := Turn(playing, i, toSpk, srcs, befores, loopCounts, blocks, afters, kept);
        if err.Some? {
          r, k := Fail(err.value), i;
          return;
        }
        blocks, afters := blocks + [dat], afters + [after];
        i := i + 1;
      }
      MixingDoneTurns(playing, toSpk, srcs, befores, loopCounts, blocks, afters, kept);
      MixingDoneState(playing, toSpk, srcs, befores, loopCounts, blocks, afters, kept);
      r, k := Pass, i;
    }

    /** `callback`, iterating over a copy of the list of playing sounds so
      that every sound is mixed. The frame count goes up by one and the
      buffer is zeroed; each sound's block is then added into the first rows
      of the buffer (column 0 only, unless the stream has two channels), and
      a sound whose block is shorter than the buffer leaves the list and
      finishes its pass. The first block that raises, or that numpy cannot
      add, ends the callback with that exception. */
    method Callback(toSpk: array2<int>, ghost srcs: seq<SoundSource>, ghost befores: seq<PlayState>,
                    ghost loopCounts: seq<int>)
      returns (r: Outcome, ghost blocks: seq<SoundArray>, ghost afters: seq<PlayState>, ghost k: nat)
      requires NoDup(sounds) && |srcs| == |befores| == |loopCounts| == |sounds|
      requires forall j :: 0 <= j < |sounds| ==>
        sounds[j].stream == this && Modelled(srcs[j]) && sounds[j].loops == loopCounts[j]
      requires forall j :: 0 <= j < |sounds| ==> sounds[j].Source() == srcs[j] && sounds[j].Playback() == befores[j]
      requires toSpk.Length1 >= 1 && (channels == Some(2) ==> toSpk.Length1 == 2)
      modifies this`frameN, this`sounds, toSpk
      modifies (set s | s in sounds)`t, (set s | s in sounds)`hasT, (set s | s in sounds)`frameN
      modifies (set s | s in sounds)`status, (set s | s in sounds)`loopsFinished
      ensures frameN == old(frameN) + 1
      ensures r.Fail? ==> k < |srcs| && BlockError(srcs[k], channels == Some(2), toSpk.Length0) == Some(r.error)
      ensures r.Fail? ==> forall i :: 0 <= i < k ==> BlockError(srcs[i], channels == Some(2), toSpk.Length0).None?
      ensures r.Pass? ==> |blocks| == |afters| == |srcs|
      ensures r.Pass? ==> forall i :: 0 <= i < |srcs| ==> old(sounds)[i].Playback() == afters[i]
      ensures r.Pass? ==> AllMixed(srcs, channels == Some(2), toSpk.Length0, blocks, befores, loopCounts, afters)
      ensures r.Pass? ==> forall row, c :: 0 <= row < toSpk.Length0 && 0 <= c < toSpk.Length1 ==>
        toSpk[row, c] == MixSum(blocks, channels == Some(2), row, c)
      ensures r.Pass? ==> sounds == Keep(old(sounds), ShortFlags(blocks, toSpk.Length0))
    {
      frameN := frameN + 1;
      ZeroBuffer(toSpk);
      r, blocks, afters, k := MixAll(toSpk, srcs, befores, loopCounts);
      if r.Fail? {
        AllMixedRaisesNothing(srcs, channels == Some(2), toSpk.Length0, blocks, befores, loopCounts, afters, k);
      }
    }
  }

  /** The table of open streams (`_StreamsDict`), in the order the entries
      were made. Only one stream may exist where the platform allows only
      one (win32), so there the table never holds more than one entry. */
  class StreamRegistry {
    const singleStream: bool
    var entries: seq<(StreamKey, SoundStream)>

    /** No key twice, each entry's stream has that entry's format, and a
      single-stream platform has at most one entry. */
    ghost predicate Valid()
      reads this
    {
      && UniqueKeys(entries)
      && (forall i :: 0 <= i < |entries| ==> entries[i].1.Key() == entries[i].0)
      && (singleStream ==> |entries| <= 1)
    }

    constructor (singleStream: bool)
      ensures Valid() && entries == [] && this.singleStream == singleStream
    {
      this.singleStream := singleStream;
      entries := [];
    }

    /** `getStream`: the stream under the exact label, made when new (unless
      only one stream is allowed and one exists, a SoundFormatError). An
      existing label, or a refusal, leaves the table as it was; a new one adds
      one entry at the end and nothing else. */
    method GetStream(k: StreamKey) returns (r: Result<(string, SoundStream)>)
      requires Valid()
      modifies this`entries
      ensures Valid()
      ensures match ExactLookupOf(old(entries), k, singleStream)
        case Existing(i) => r == Ok((StreamLabel(k), old(entries)[i].1)) && entries == old(entries)
        case Refused => r == Err(SoundFormatError) && entries == old(entries)
        case Created =>
          && r.Ok? && r.value.0 == StreamLabel(k) && fresh(r.value.1)
          && entries == old(entries) + [(k, r.value.1)]
          && r.value.1.Key() == k && r.value.1.sounds == [] && r.value.1.frameN == 1
    {
      var name := StreamLabel(k);
      var found := IndexOfLabel(entries, name);
      IndexOfLabelIsIndexOfKey(entries, k);
      if found.Some? {
        r := Ok((name, entries[found.value].1));
      } else if singleStream && |entries| > 0 {
        r := Err(SoundFormatError);
      } else {
        var s := new SoundStream(k.sampleRate, k.channels, k.blockSize);
        entries := entries + [(k, s)];
        r := Ok((name, s));
      }
    }

    /** `getSimilar`: the first entry, in table order, whose format the
      request matches (-1 meaning any integer). With no match, a request
      whose every field is given goes to `getStream`; any other gives None. */
    method GetSimilar(k: StreamKey) returns (r: Result<Option<(string, SoundStream)>>)
      requires Valid()
      modifies this`entries
      ensures Valid()
      ensures match FirstMatch(old(entries), k)
        case Some(i) =>
          r == Ok(Some((StreamLabel(old(entries)[i].0), old(entries)[i].1))) && entries == old(entries)
        case None =>
          if !Concrete(k) then r == Ok(None) && entries == old(entries)
          else if singleStream && |old(entries)| > 0 then r == Err(SoundFormatError) && entries == old(entries)
          else
            && r.Ok? && r.value.Some? && r.value.value.0 == StreamLabel(k) && fresh(r.value.value.1)
            && entries == old(entries) + [(k, r.value.value.1)]
            && r.value.value.1.Key() == k && r.value.value.1.sounds == []
    {
      var i := 0;
      while i < |entries|
        invariant 0 <= i <= |entries|
        invariant forall j :: 0 <= j < i ==> !KeyMatches(k, entries[j].0)
      {
        if KeyMatches(k, entries[i].0) {
          return Ok(Some((StreamLabel(entries[i].0), entries[i].1)));
        }
        i := i + 1;
      }
      if Concrete(k) {
        forall j | 0 <= j < |entries| ensures entries[j].0 != k {
          ConcreteMatchIsEquality(k, entries[j].0);
        }
        var g := GetStream(k);
        if g.Err? {
          r := Err(g.error);
        } else {
          r := Ok(Some(g.value));
        }
      } else {
        r := Ok(None);
      }
    }
  }

  /** Whether `setSound` gets as far as looking up a stream: the value was
      classified, and a file it names can be opened. */
  predicate Accepted(c: Result<SoundKind>, decode: string -> Option<Decoded>) {
    c.Ok? && (c.value.FileKind? ==> decode(c.value.found).Some?)
  }

  /** The array `_setSndFromArray` keeps: with stereo set (any value but 0)
      a 1-D array becomes two equal channels, frame for frame, as
      `np.resize(a, [2, len(a)]).T` makes it; any other array is kept as it
      is. The frame count never changes. */
  function StoredArray(a: SoundArray, stereo: int): (r: SoundArray)
    ensures Length(r) == Length(a)
    ensures stereo != 0 && a.Mono? ==>
      r.Frames? && forall i :: 0 <= i < Length(a) ==> r.rows[i] == [a.samples[i], a.samples[i]]
    ensures stereo == 0 || a.Frames? ==> r == a
  {
    if stereo != 0 && a.Mono? then Frames(seq(|a.samples|, i requires 0 <= i < |a.samples| => [a.samples[i], a.samples[i]]))
    else a
  }

  /** The parts of a sound file that the model uses: its rate, its channel
      count and the frames read from it. */
  datatype Decoded = Decoded(sampleRate: int, channels: int, frames: SoundArray)

  /** What a tone is set from: a frequency in Hz, or a note given as the
      power of two it lies above or below 440 Hz. */
  datatype Tone = Hz(hz: real) | FromA(exponent: real)

  /** A sound played through sounddevice (`SoundDeviceSound`). */
  class Sound {
    var status: Status
    /** Whether the attribute `t` exists: `__init__` does not set it, and
      only the methods that set up a source or seek do. */
    var hasT: bool
    /** The playback cursor, in frames. */
    var t: int
    var frameN: int
    var loops: int
    var loopsFinished: int
    var sampleRate: int
    var channels: Field
    var blockSize: int
    var stereo: int
    /** The stop time, in seconds. */
    var stopTime: real
    var preBuffer: int
    var secs: real
    var octave: int
    var sourceType: SourceType
    var sndArr: Option<SoundArray>
    var nSamples: int
    var tone: Option<Tone>
    var fileName: Option<string>
    var streamLabel: string
    var stream: SoundStream?

    function Playback(): PlayState
      reads this`status, this`t, this`frameN, this`loopsFinished
    {
      PlayState(status, t, frameN, loopsFinished)
    }

    function Source(): SoundSource
      reads this`sourceType, this`preBuffer, this`sndArr, this`stereo, this`hasT, this`t, this`blockSize,
            this`stopTime, this`sampleRate
    {
      SoundSource(sourceType, preBuffer, sndArr, stereo, hasT, t, blockSize, stopTime, sampleRate)
    }

    /** The fields `__init__` sets before it calls `setSound`. It does not
      set the cursor `t`, so it leaves it undefined; its value here is
      arbitrary. */
    constructor Init(secs: real, octave: int, stereo: int, loops: int, sampleRate: int,
                     blockSize: int, preBuffer: int, stopTime: real)
      ensures status == NotStarted && frameN == 0 && loopsFinished == 0 && !hasT
      ensures this.secs == secs && this.octave == octave && this.stereo == stereo && this.loops == loops
      ensures this.sampleRate == sampleRate && this.blockSize == blockSize && this.preBuffer == preBuffer
      ensures this.stopTime == stopTime && channels == None && streamLabel == "" && stream == null
      ensures sourceType == UnknownSource && sndArr == None && tone == None && fileName == None
    {
      status := NotStarted;
      hasT := false;
      frameN := 0;
      this.loops := loops;
      loopsFinished := 0;
      this.sampleRate := sampleRate;
      channels := None;
      this.blockSize := blockSize;
      this.stereo := stereo;
      this.stopTime := stopTime;
      this.preBuffer := preBuffer;
      this.secs := secs;
      this.octave := octave;
      sourceType := UnknownSource;
      sndArr := None;
      nSamples := 0;
      tone := None;
      fileName := None;
      streamLabel := "";
      stream := null;
    }

    /** `seek`: the cursor and the frame number go to the given frame. */
    method Seek(frame: int)
      modifies this`hasT, this`t, this`frameN
      ensures hasT && t == frame && frameN == frame
    {
      hasT := true;
      t := frame;
      frameN := frame;
    }

    /** `play`: a loop count other than the sound's own calls `setLoops`,
      which the class does not define (AttributeError, nothing changes);
      otherwise the sound is PLAYING and appended to its stream's list. */
    method Play(loops: Option<int>) returns (r: Outcome)
      requires stream != null
      modifies this`status, stream`sounds
      ensures loops.Some? && loops.value != this.loops ==>
        r == Fail(AttributeError) && status == old(status) && stream.sounds == old(stream.sounds)
      ensures loops.None? || loops.value == this.loops ==>
        r == Pass && status == Playing && stream.sounds == old(stream.sounds) + [this]
    {
      if loops.Some? && this.loops != loops.value {
        return Fail(AttributeError);
      }
      status := Playing;
      stream.Add(this);
      r := Pass;
    }

    /** `pause`: PAUSED, out of the stream's list, the cursor where it was. */
    method Pause()
      requires stream != null
      modifies this`status, stream`sounds
      ensures status == Paused && t == old(t) && frameN == old(frameN)
      ensures stream.sounds == RemoveFirst(old(stream.sounds), this)
    {
      status := Paused;
      stream.Remove(this);
    }

    /** `stop`: out of the stream's list, back to the start, STOPPED. */
    method Stop()
      requires stream != null
      modifies this`status, this`hasT, this`t, this`frameN, stream`sounds
      ensures status == Stopped && hasT && t == 0 && frameN == 0
      ensures stream.sounds == RemoveFirst(old(stream.sounds), this)
    {
      stream.Remove(this);
      Seek(0);
      status := Stopped;
    }

    /** `_EOS`: one more pass finished; `stop` when the sound plays once or
      its loop budget is spent; then out of the stream's list and FINISHED,
      whatever the loop count. A sound that was in the list at most once is
      no longer in it. */
    method Eos()
      requires stream != null
      modifies this`status, this`hasT, this`t, this`frameN, this`loopsFinished, stream`sounds
      ensures Playback() == AfterEos(old(Playback()), loops)
      ensures hasT == (old(hasT) || EosStops(loops, loopsFinished))
      ensures stream.sounds == if EosStops(loops, loopsFinished)
                               then RemoveFirst(RemoveFirst(old(stream.sounds), this), this)
                               else RemoveFirst(old(stream.sounds), this)
      ensures old(multiset(stream.sounds)[this]) <= 1 ==> this !in stream.sounds
    {
      ghost var before := stream.sounds;
      ghost var count := multiset(stream.sounds)[this];
      loopsFinished := loopsFinished + 1;
      if loops == 0 || (loops > 0 && loopsFinished >= loops) {
        Stop();
      }
      stream.Remove(this);
      status := Finished;
      if count <= 1 { RemovedOnce(before, this); }
    }

    /** `_nextBlock` for a sound whose samples are held in an array: the next
      block, and the cursor moved on by a block. */
    method NextBlock() returns (r: Result<SoundArray>)
      requires Modelled(Source())
      modifies this`t
      ensures r == NextBlockOf(old(Source())).block && t == NextBlockOf(old(Source())).t
    {
      if !hasT {
        return Err(AttributeError);
      }
      if ((sourceType == FileSource && preBuffer == -1) || sourceType == ArraySource) && (stereo == 0 || stereo == 1) {
        if sndArr.None? {
          return Err(TypeError);
        }
        var stop := SliceEnd(Source());
        var block := StereoSlice(sndArr.value, stereo, t, stop);
        if block == Err(IndexError) {
          return block;
        }
        t := t + blockSize;
        r := block;
      } else {
        t := t + blockSize;
        r := Err(UnboundLocalError);
      }
    }

    /** `_setSndFromArray`: a 1-D array is made into two equal channels
      unless stereo is 0 (false); the sample count is the array's frame
      count; the sound goes back to the start. The source type is left as it
      was. */
    method SetSndFromArray(a: SoundArray)
      modifies this`sndArr, this`nSamples, this`hasT, this`t, this`frameN
      ensures sndArr == Some(StoredArray(a, stereo)) && nSamples == Length(a)
      ensures hasT && t == 0 && frameN == 0
    {
      if stereo != 0 && a.Mono? {
        var s := a.samples;
        sndArr := Some(Frames(seq(|s|, i requires 0 <= i < |s| => [s[i], s[i]])));
      } else {
        sndArr := Some(a);
      }
      nSamples := Length(a);
      Seek(0);
    }

    /** `_setSndFromFreq` of this backend: the tone and its duration are kept
      and the sound is a 'freq' source from the start. It overrides the base
      class's version, so the negative-duration rule does not apply here. */
    method SetSndFromFreq(thisTone: Tone, secs: real)
      modifies this`tone, this`secs, this`sourceType, this`hasT, this`t
      ensures tone == Some(thisTone) && this.secs == secs && sourceType == FreqSource && hasT && t == 0
    {
      tone := Some(thisTone);
      this.secs := secs;
      sourceType := FreqSource;
      hasT := true;
      t := 0;
    }

    /** `_SoundBase._setSndFromFreq`, the version this class overrides: a
      negative duration makes the sound loop forever before the sample count
      is taken, so the loop count changes even when that count then divides
      by zero. The waveform it computes is not modelled. */
    method BaseSetSndFromFreq(secs: real, hamming: bool) returns (r: Result<ToneSetup>)
      modifies this`loops
      ensures r == BaseToneSetup(secs, old(loops), sampleRate, hamming)
      ensures loops == if secs < 0.0 then -1 else old(loops)
    {
      var s := secs;
      if s < 0.0 {
        s := 10.0;
        loops := -1;
      }
      var nSamples := Truncate(s * sampleRate as real);
      assert nSamples == Truncate((if secs < 0.0 then 10.0 else secs) * sampleRate as real);
      if nSamples == 0 {
        return Err(ZeroDivisionError);
      }
      r := Ok(ToneSetup(s, loops, nSamples, hamming && nSamples > 30));
    }

    /** `_setSndFromNote`: the note's pitch relative to 440 Hz, as a tone. */
    method SetSndFromNote(note: string, secs: real, octave: int)
      requires note in StepsFromA
      modifies this`tone, this`secs, this`sourceType, this`hasT, this`t
      ensures tone == Some(FromA(PitchExponent(note, octave))) && this.secs == secs
      ensures sourceType == FreqSource && hasT && t == 0
    {
      SetSndFromFreq(FromA(PitchExponent(note, octave)), secs);
    }

    /** `_setSndFromFile`: the file's rate and channel count become the
      sound's, it is a 'file' source starting at frame 0, and with the
      default buffering (-1) the frames the reader returns are stored as the
      sound's array, as `_setSndFromArray` stores an array. A file the
      reader cannot open raises RuntimeError before anything is set. */
    method SetSndFromFile(path: string, decode: string -> Option<Decoded>) returns (r: Outcome)
      modifies this`sourceType, this`sampleRate, this`channels, this`hasT, this`t, this`frameN,
               this`sndArr, this`nSamples
      ensures r == if decode(path).None? then Fail(RuntimeError) else Pass
      ensures r.Fail? ==> && sourceType == old(sourceType) && sampleRate == old(sampleRate)
                          && channels == old(channels) && hasT == old(hasT) && t == old(t)
                          && frameN == old(frameN) && sndArr == old(sndArr) && nSamples == old(nSamples)
      ensures r.Pass? ==> sourceType == FileSource && sampleRate == decode(path).value.sampleRate
                          && channels == Some(decode(path).value.channels) && hasT && t == 0
      ensures r.Pass? && preBuffer == -1 ==>
        && sndArr == Some(StoredArray(decode(path).value.frames, stereo))
        && nSamples == Length(decode(path).value.frames) && frameN == 0
      ensures r.Pass? && preBuffer != -1 ==>
        sndArr == old(sndArr) && nSamples == old(nSamples) && frameN == old(frameN)
    {
      var f := decode(path);
      if f.None? {
        return Fail(RuntimeError);
      }
      sourceType := FileSource;
      sampleRate := f.value.sampleRate;
      channels := Some(f.value.channels);
      hasT := true;
      t := 0;
      if preBuffer == -1 {
        SetSndFromArray(f.value.frames);
      }
      r := Pass;
    }

    /** The state of the source once `setSound` has set it up from a value
      of the given kind; the parameters ending in 0 are the fields before.
      A tone or a note becomes a 'freq' source at cursor 0. A file found by
      the search is remembered and opened: when the reader cannot open it,
      nothing else changes; otherwise it is a 'file' source at cursor 0, and
      with the default buffering (-1) its frames are stored as
      `_setSndFromArray` stores them. An array is stored, with its count and
      cursor 0, and the source type is left as it was. Any other value
      changes nothing. */
    ghost predicate SourceSetUp(kind: SoundKind, secs: real, octave: int, decode: string -> Option<Decoded>,
                                sourceType0: SourceType, tone0: Option<Tone>, sndArr0: Option<SoundArray>,
                                nSamples0: int, frameN0: int, hasT0: bool, t0: int)
      reads this`tone, this`secs, this`sourceType, this`hasT, this`t, this`frameN, this`sndArr, this`nSamples,
            this`fileName, this`preBuffer, this`stereo
    {
      match kind
      case ToneKind(hz) => tone == Some(Hz(hz)) && this.secs == secs && sourceType == FreqSource && hasT && t == 0
      case NoteKind(note) =>
        && note in StepsFromA && tone == Some(FromA(PitchExponent(note, octave))) && this.secs == secs
        && sourceType == FreqSource && hasT && t == 0
      case FileKind(found, _) =>
        && fileName == Some(found)
        && (decode(found).None? ==>
              && sourceType == sourceType0 && sndArr == sndArr0 && nSamples == nSamples0
              && frameN == frameN0 && hasT == hasT0 && t == t0)
        && (decode(found).Some? ==> sourceType == FileSource && hasT && t == 0)
        && (decode(found).Some? && preBuffer == -1 ==>
              && sndArr == Some(StoredArray(decode(found).value.frames, stereo))
              && nSamples == Length(decode(found).value.frames) && frameN == 0)
        && (decode(found).Some? && preBuffer != -1 ==>
              sndArr == sndArr0 && nSamples == nSamples0 && frameN == frameN0)
      case ArrayKind(a) =>
        && sndArr == Some(StoredArray(a, stereo)) && nSamples == Length(a)
        && hasT && t == 0 && frameN == 0 && sourceType == sourceType0
      case NoKind =>
        sourceType == sourceType0 && sndArr == sndArr0 && tone == tone0 && hasT == hasT0 && t == t0
    }

    /** The string branch of `setSound`, for a string that is not a number:
      a note name, or else a file to search for under `mediaLocation`. */
    method SetSourceFromName(value: Value, secs: real, octave: int, media: Option<string>,
                             isFile: string -> bool, decode: string -> Option<Decoded>) returns (r: Outcome)
      requires value.Str? && AsNumber(value).None?
      modifies this`tone, this`secs, this`sourceType, this`hasT, this`t, this`frameN, this`sampleRate,
               this`channels, this`sndArr, this`nSamples, this`fileName
      ensures Classify(value, media, isFile).Err? ==> r == Fail(Classify(value, media, isFile).error)
      ensures Classify(value, media, isFile).Ok? ==>
        r == if Accepted(Classify(value, media, isFile), decode) then Pass else Fail(RuntimeError)
      ensures Classify(value, media, isFile).Ok? ==>
        SourceSetUp(Classify(value, media, isFile).value, secs, octave, decode, old(sourceType), old(tone),
                    old(sndArr), old(nSamples), old(frameN), old(hasT), old(t))
      ensures Classify(value, media, isFile).Ok? && Classify(value, media, isFile).value.FileKind? ==>
        isFile(Classify(value, media, isFile).value.found)
      ensures Accepted(Classify(value, media, isFile), decode) && Classify(value, media, isFile).value.FileKind? ==>
        && sampleRate == decode(Classify(value, media, isFile).value.found).value.sampleRate
        && channels == Some(decode(Classify(value, media, isFile).value.found).value.channels)
      ensures Classify(value, media, isFile).Ok? && !Classify(value, media, isFile).value.FileKind? ==>
        sampleRate == old(sampleRate) && channels == old(channels)
    {
      KnownNoteNamesAreSortedKeys();
      var name := Capitalize(value.s);
      if name in KnownNoteNames {
        SetSndFromNote(name, secs, octave);
        return Pass;
      }
      fileName := None;
      if media.None? {
        return Fail(NameError);
      }
      var found, toOpen := FindSoundFile(value.s, media.value, isFile);
      fileName := found;
      if found.None? {
        return Fail(ValueError);
      }
      assert Classify(value, media, isFile) == Ok(FileKind(found.value, toOpen));
      r := SetSndFromFile(found.value, decode);
    }

    /** The part of `setSound` inherited from `_SoundBase`: classify the value
      and set the sound from it. The file branch runs the search loop and
      opens the path that was found. */
    method SetSource(value: Value, secs: real, octave: int, media: Option<string>,
                     isFile: string -> bool, decode: string -> Option<Decoded>) returns (r: Outcome)
      modifies this`tone, this`secs, this`sourceType, this`hasT, this`t, this`frameN, this`sampleRate,
               this`channels, this`sndArr, this`nSamples, this`fileName
      ensures Classify(value, media, isFile).Err? ==> r == Fail(Classify(value, media, isFile).error)
      ensures Classify(value, media, isFile).Ok? ==>
        r == if Accepted(Classify(value, media, isFile), decode) then Pass else Fail(RuntimeError)
      ensures Classify(value, media, isFile).Ok? ==>
        SourceSetUp(Classify(value, media, isFile).value, secs, octave, decode, old(sourceType), old(tone),
                    old(sndArr), old(nSamples), old(frameN), old(hasT), old(t))
      ensures Classify(value, media, isFile).Ok? && Classify(value, media, isFile).value.FileKind? ==>
        isFile(Classify(value, media, isFile).value.found)
      ensures Accepted(Classify(value, media, isFile), decode) && Classify(value, media, isFile).value.FileKind? ==>
        && sampleRate == decode(Classify(value, media, isFile).value.found).value.sampleRate
        && channels == Some(decode(Classify(value, media, isFile).value.found).value.channels)
      ensures Classify(value, media, isFile).Ok? && !Classify(value, media, isFile).value.FileKind? ==>
        sampleRate == old(sampleRate) && channels == old(channels)
    {
      KnownNoteNamesAreSortedKeys();
      var x := AsNumber(value);
      if x.Some? {
        if x.value < 37.0 || x.value > 20000.0 {
          return Fail(ValueError);
        }
        SetSndFromFreq(Hz(x.value), secs);
        return Pass;
      }
      match value
      case Str(_) =>
        r := SetSourceFromName(value, secs, octave, media, isFile, decode);
      case ListOf(a) =>
        SetSndFromArray(a);
        r := Pass;
      case NdArray(a) =>
        SetSndFromArray(a);
        r := Pass;
      case _ =>
        r := Pass;
    }

    /** The stream `setSound` settles on for the format `k`, given the table
      before (`entries0`) and after (`entries`): the stream already kept for
      `k`; or a new one, added to the table with no sounds; or, when the
      platform refuses a second stream, the first stream of the same rate,
      whose format the sound takes on, and a SoundFormatError when there is
      none. In the first two cases the sound keeps the format `k`. */
    ghost predicate StreamChosen(entries0: seq<(StreamKey, SoundStream)>, k: StreamKey, singleStream: bool,
                                 r: Outcome, entries: seq<(StreamKey, SoundStream)>)
      reads this`stream, this`streamLabel, this`sampleRate, this`channels, this`blockSize, stream
    {
      match ExactLookupOf(entries0, k, singleStream)
      case Existing(i) =>
        && r == Pass && stream == entries0[i].1 && streamLabel == StreamLabel(k)
        && entries == entries0 && StreamKey(Some(sampleRate), channels, Some(blockSize)) == k
      case Created =>
        && r == Pass && stream != null && streamLabel == StreamLabel(k)
        && entries == entries0 + [(k, stream)] && stream.sounds == []
        && StreamKey(Some(sampleRate), channels, Some(blockSize)) == k
      case Refused =>
        |entries0| == 1 &&
        match FirstMatch(entries0, SimilarRequest(k.sampleRate))
        case None => r == Fail(SoundFormatError) && entries == entries0
        case Some(j) =>
          && r == Pass && stream == entries0[j].1 && streamLabel == StreamLabel(entries0[j].0)
          && entries == entries0
          && Some(sampleRate) == stream.sampleRate && channels == stream.channels
          && Some(blockSize) == stream.blockSize
    }

    /** The stream lookup at the end of `setSound`: the exact stream for the
      sound's format; if that is refused, the first open stream with the same
      rate, whose format the sound then takes on; if there is none, a
      SoundFormatError. */
    method ResolveStream(reg: StreamRegistry) returns (r: Outcome)
      requires reg.Valid()
      modifies this`sampleRate, this`channels, this`blockSize, this`streamLabel, this`stream, reg`entries
      ensures reg.Valid()
      ensures StreamChosen(old(reg.entries), StreamKey(Some(old(sampleRate)), old(channels), Some(old(blockSize))),
                           reg.singleStream, r, reg.entries)
      ensures var k := StreamKey(Some(old(sampleRate)), old(channels), Some(old(blockSize)));
        ExactLookupOf(old(reg.entries), k, reg.singleStream).Created? ==> fresh(stream)
      ensures r.Pass? ==> stream != null && StreamKey(Some(sampleRate), channels, Some(blockSize)) == stream.Key()
      ensures r.Pass? ==> streamLabel == StreamLabel(stream.Key())
      ensures r.Pass? ==> exists i :: 0 <= i < |reg.entries| && reg.entries[i].1 == stream
    {
      var k := StreamKey(Some(sampleRate), channels, Some(blockSize));
      var found := reg.GetStream(k);
      if found.Err? {
        var altern := reg.GetSimilar(SimilarRequest(Some(sampleRate)));
        if altern.Err? || altern.value.None? {
          return Fail(SoundFormatError);
        }
        var s := altern.value.value.1;
        ghost var j := FirstMatch(reg.entries, SimilarRequest(Some(sampleRate))).value;
        assert reg.entries[j].1.Key() == reg.entries[j].0;
        assert reg.entries[j].1 == s;
        streamLabel := altern.value.value.0;
        stream := s;
        sampleRate := s.sampleRate.value;
        channels := s.channels;
        blockSize := s.blockSize.value;
      } else {
        streamLabel := found.value.0;
        stream := found.value.1;
        ghost var i := if IndexOfKey(old(reg.entries), k).Some? then IndexOfKey(old(reg.entries), k).value else |reg.entries| - 1;
        assert reg.entries[i].1 == stream && reg.entries[i].0 == k;
      }
      r := Pass;
    }

    /** `setSound`: set the sound from the value, then find its stream. A
      value that is refused, or a file the reader cannot open, raises before
      any stream is looked up. Otherwise `k` is the format the sound asks
      for (the file's rate and channels for a file, its own format for
      anything else), and the stream is chosen for `k` as `ResolveStream`
      chooses it: the exact stream, one created for it, or, only after a
      refusal, the first stream of the same rate. The set-up of the source
      is kept as `SetSource` leaves it. */
    method SetSound(value: Value, secs: real, octave: int, reg: StreamRegistry, media: Option<string>,
                    isFile: string -> bool, decode: string -> Option<Decoded>) returns (r: Outcome, ghost k: StreamKey)
      requires reg.Valid()
      modifies this`tone, this`secs, this`sourceType, this`hasT, this`t, this`frameN, this`sampleRate,
               this`channels, this`blockSize, this`sndArr, this`nSamples, this`fileName,
               this`streamLabel, this`stream, reg`entries
      ensures reg.Valid()
      ensures Classify(value, media, isFile).Err? ==>
        r == Fail(Classify(value, media, isFile).error) && reg.entries == old(reg.entries)
      ensures Classify(value, media, isFile).Ok? ==>
        SourceSetUp(Classify(value, media, isFile).value, secs, octave, decode, old(sourceType), old(tone),
                    old(sndArr), old(nSamples), old(frameN), old(hasT), old(t))
      ensures Classify(value, media, isFile).Ok? && Classify(value, media, isFile).value.FileKind? ==>
        isFile(Classify(value, media, isFile).value.found)
      ensures Classify(value, media, isFile).Ok? && !Accepted(Classify(value, media, isFile), decode) ==>
        r == Fail(RuntimeError) && reg.entries == old(reg.entries)
      ensures Accepted(Classify(value, media, isFile), decode) && Classify(value, media, isFile).value.FileKind? ==>
        k == StreamKey(Some(decode(Classify(value, media, isFile).value.found).value.sampleRate),
                       Some(decode(Classify(value, media, isFile).value.found).value.channels), Some(old(blockSize)))
      ensures Classify(value, media, isFile).Ok? && !Classify(value, media, isFile).value.FileKind? ==>
        k == StreamKey(Some(old(sampleRate)), old(channels), Some(old(blockSize)))
      ensures Accepted(Classify(value, media, isFile), decode) ==>
        StreamChosen(old(reg.entries), k, reg.singleStream, r, reg.entries)
      ensures Accepted(Classify(value, media, isFile), decode)
        ==> (ExactLookupOf(old(reg.entries), k, reg.singleStream).Created? ==> fresh(stream))
      ensures r.Pass? ==> stream != null && StreamKey(Some(sampleRate), channels, Some(blockSize)) == stream.Key()
      ensures r.Pass? ==> streamLabel == StreamLabel(stream.Key())
      ensures r.Pass? ==> exists i :: 0 <= i < |reg.entries| && reg.entries[i].1 == stream
    {
      r := SetSource(value, secs, octave, media, isFile, decode);
      k := StreamKey(Some(sampleRate), channels, Some(blockSize));
      if r.Fail? {
        return;
      }
      assert reg.entries == old(reg.entries);
      ghost var setUp := SourceSetUp(Classify(value, media, isFile).value, secs, octave, decode, old(sourceType),
                                     old(tone), old(sndArr), old(nSamples), old(frameN), old(hasT), old(t));
      assert setUp;
      r := ResolveStream(reg);
      assert setUp == SourceSetUp(Classify(value, media, isFile).value, secs, octave, decode, old(sourceType),
                                  old(tone), old(sndArr), old(nSamples), old(frameN), old(hasT), old(t));
    }

    /** The call `setSound(value)` in `__init__`, which leaves `secs` and
      `octave` at `setSound`'s defaults of 0.5 s and octave 4, on a sound
      with no cursor and no source type yet. */
    method SetSoundOnce(value: Value, reg: StreamRegistry, media: Option<string>,
                        isFile: string -> bool, decode: string -> Option<Decoded>) returns (r: Outcome)
      requires reg.Valid() && !hasT && sourceType == UnknownSource
      modifies this`tone, this`secs, this`sourceType, this`hasT, this`t, this`frameN, this`sampleRate,
               this`channels, this`blockSize, this`sndArr, this`nSamples, this`fileName,
               this`streamLabel, this`stream, reg`entries
      ensures reg.Valid()
      ensures Classify(value, media, isFile).Err? ==> r == Fail(Classify(value, media, isFile).error)
      ensures r.Pass? ==> Classify(value, media, isFile).Ok? && stream != null
      ensures r.Pass? && Classify(value, media, isFile).value.ToneKind? ==> secs == 0.5
      ensures r.Pass? && Classify(value, media, isFile).value.NoKind? ==> !hasT && sourceType == UnknownSource
    {
      ghost var k;
      r, k := SetSound(value, 0.5, 4, reg, media, isFile, decode);
    }

    /** `SoundDeviceSound(value, ...)`: the fields are set, then `setSound` is
      called with the value alone, so it uses its own defaults (0.5 s, octave
      4) rather than the `secs` and `octave` given here. */
    static method Create(value: Value, secs: real, octave: int, stereo: int, loops: int,
                         sampleRate: int, blockSize: int, preBuffer: int, stopTime: real,
                         reg: StreamRegistry, media: Option<string>,
                         isFile: string -> bool, decode: string -> Option<Decoded>) returns (r: Result<Sound>)
      requires reg.Valid()
      modifies reg`entries
      ensures reg.Valid()
      ensures Classify(value, media, isFile).Err? ==> r == Err(Classify(value, media, isFile).error)
      ensures r.Ok? ==> fresh(r.value) && r.value.Playback() == PlayState(NotStarted, r.value.t, r.value.frameN, 0)
      ensures r.Ok? ==> r.value.loops == loops && r.value.stream != null && r.value.octave == octave
      ensures r.Ok? && Classify(value, media, isFile).value.ToneKind? ==> r.value.secs == 0.5
      ensures r.Ok? && Classify(value, media, isFile).value.NoKind? ==>
        !r.value.hasT && r.value.sourceType == UnknownSource
    {
      var s := new Sound.Init(secs, octave, stereo, loops, sampleRate, blockSize, preBuffer, stopTime);
      var o := s.SetSoundOnce(value, reg, media, isFile, decode);
      if o.Fail? {
        return Err(o.error);
      }
      s.status := NotStarted;
      r := Ok(s);
    }
  }
}
