/**
 * Decoded media streams (the `media` module of src/main.rs): per-stream frame
 * lists with a cursor, the cursor's "no frame yet" sentinel `usize::MAX`, the
 * compaction that drops old frames, the interleaving of two audio planes, and
 * the selection of the n-th stream of a type.
 *
 * Decoding itself (packets, decoders, resampling) is not part of this model:
 * a stream's frames arrive through `Push`, which is what the end of
 * `send_packet` does.
 */
module Media {
  import opened Common

  datatype StreamType = Video | Audio

  /** Number of data-plane pointers in a libav frame. */
  const AV_NUM_DATA_POINTERS: nat := 8

  /** The bytes of a libav frame's fixed array of data planes (unused planes empty). */
  type Planes = d: seq<seq<bv8>> | |d| == AV_NUM_DATA_POINTERS
    witness [[], [], [], [], [], [], [], []]

  /** How many of a frame's plane pointers are in use (`planes()`, the leading non-zero line sizes). */
  type PlaneCount = n: nat | n <= AV_NUM_DATA_POINTERS

  /** A decoded RGBA video frame: its size, how many planes it uses, and its data planes. */
  datatype VFrame = VFrame(width: nat, height: nat, planes: PlaneCount, data: Planes)

  /**
   * A decoded audio frame in stereo planar `f32`: its sample count, channel
   * count, the bytes of each data plane, and the samples of the two planes.
   */
  datatype AFrame = AFrame(samples: nat, channels: nat, data: Planes, plane0: seq<real>, plane1: seq<real>)

  /**
   * `gc`: once the cursor is past frame 100 (and is not the sentinel), the 50
   * oldest frames are dropped and the cursor moves back with them; draining
   * 50 frames from a shorter list panics.
   */
  function Gc<F>(frames: seq<F>, index: nat): (r: Outcome<(seq<F>, nat)>)
    ensures r.Panic? <==> 100 < index != USIZE_MAX && |frames| < 50
  {
    if index > 100 && index != USIZE_MAX then
      if |frames| < 50 then Panic else Ok((frames[50..], index - 50))
    else Ok((frames, index))
  }

  /**
   * The cursor move of `next` after `gc`: from the sentinel to frame 0 when
   * there is a frame, otherwise one step while the cursor is below the
   * number of frames. The second component says whether it moved.
   */
  function NextIndex(len: nat, index: nat): (nat, bool)
  {
    if len > 0 && index == USIZE_MAX then (0, true)
    else if index < len then (index + 1, true)
    else (index, false)
  }

  /** The cursor move of `prev`: one step down whenever the cursor is above 0. */
  function PrevIndex(index: nat): (nat, bool)
  {
    if index > 0 then (index - 1, true) else (index, false)
  }

  /** Compaction keeps the frame under the cursor and never moves the cursor forward. */
  lemma GcKeepsCursorFrame<F>(frames: seq<F>, index: nat)
    requires index < |frames| && Gc(frames, index).Ok?
    ensures var (fs, i) := Gc(frames, index).value;
      i <= index && i < |fs| && fs[i] == frames[index] && |frames| - |fs| == index - i
  {
  }

  /** From the sentinel, `next` moves to frame 0 exactly when there is a frame. */
  lemma NextFromSentinel(len: nat)
    ensures NextIndex(len, USIZE_MAX) == if len > 0 then (0, true) else (USIZE_MAX, false)
  {
  }

  /**
   * Below the sentinel, `next` moves while the cursor is below the frame
   * count, so the cursor can stop at the frame count, one past the last frame.
   */
  lemma NextStopsPastLast(len: nat, index: nat)
    requires index < USIZE_MAX && len < USIZE_MAX
    ensures NextIndex(len, index).1 <==> index < len
    ensures index < len ==> NextIndex(len, index).0 <= len
    ensures len > 0 ==> NextIndex(len, len - 1) == (len, true)
  {
  }

  /** `prev` from the sentinel does not reset it but moves it to `usize::MAX - 1`. */
  lemma PrevFromSentinel()
    ensures PrevIndex(USIZE_MAX) == (USIZE_MAX - 1, true)
    ensures forall frames: seq<VFrame> | |frames| < 50 :: Gc(frames, USIZE_MAX - 1).Panic?
  {
  }

  /**
   * The samples `audio_buffer` takes from one frame: plane 0 and plane 1
   * alternately, starting with plane 0 and stopping as soon as the plane
   * whose turn it is has no sample left.
   */
  function Interleave(p0: seq<real>, p1: seq<real>): seq<real>
  {
    InterleaveFrom(p0, p1, 0)
  }

  /** What the interleaving yields from sample `i` of both planes on, plane 0's turn. */
  function InterleaveFrom(p0: seq<real>, p1: seq<real>, i: nat): seq<real>
    decreases |p0| - i
  {
    if i >= |p0| then []
    else if i >= |p1| then [p0[i]]
    else [p0[i], p1[i]] + InterleaveFrom(p0, p1, i + 1)
  }

  /** What the interleaving yields from sample `j` of plane 1 on, plane 1's turn. */
  function InterleaveFromSecond(p0: seq<real>, p1: seq<real>, j: nat): seq<real>
  {
    if j >= |p1| then [] else [p1[j]] + InterleaveFrom(p0, p1, j + 1)
  }

  lemma {:induction false} InterleaveFromAt(p0: seq<real>, p1: seq<real>, i: nat)
    requires i <= |p0|
    ensures var n0, n1 := |p0| - i, if |p1| >= i then |p1| - i else 0;
      |InterleaveFrom(p0, p1, i)| == if n0 <= n1 then 2 * n0 else 2 * n1 + 1
    ensures forall k :: 0 <= k < |InterleaveFrom(p0, p1, i)| ==>
      (k % 2 == 0 ==> i + k / 2 < |p0| && InterleaveFrom(p0, p1, i)[k] == p0[i + k / 2]) &&
      (k % 2 == 1 ==> i + k / 2 < |p1| && InterleaveFrom(p0, p1, i)[k] == p1[i + k / 2])
    decreases |p0| - i
  {
    if i < |p0| && i < |p1| {
      InterleaveFromAt(p0, p1, i + 1);
      var r := InterleaveFrom(p0, p1, i);
      var t := InterleaveFrom(p0, p1, i + 1);
      assert r == [p0[i], p1[i]] + t;
      forall k | 2 <= k < |r|
        ensures (k % 2 == 0 ==> i + k / 2 < |p0| && r[k] == p0[i + k / 2]) &&
                (k % 2 == 1 ==> i + k / 2 < |p1| && r[k] == p1[i + k / 2])
      {
        assert r[k] == t[k - 2];
        assert (k - 2) / 2 == k / 2 - 1 && (k - 2) % 2 == k % 2;
      }
    }
  }

  /** The interleaving alternates the planes sample by sample and has the length the shorter turn allows. */
  lemma InterleaveAt(p0: seq<real>, p1: seq<real>)
    ensures |Interleave(p0, p1)| == if |p0| <= |p1| then 2 * |p0| else 2 * |p1| + 1
    ensures forall k :: 0 <= k < |Interleave(p0, p1)| ==>
      (k % 2 == 0 ==> Interleave(p0, p1)[k] == p0[k / 2]) &&
      (k % 2 == 1 ==> Interleave(p0, p1)[k] == p1[k / 2])
  {
    InterleaveFromAt(p0, p1, 0);
  }

  /** On plane 0's turn with a sample left, that sample comes first, then plane 1's turn. */
  lemma FirstTurn(p0: seq<real>, p1: seq<real>, i: nat)
    requires i < |p0|
    ensures InterleaveFrom(p0, p1, i) == [p0[i]] + InterleaveFromSecond(p0, p1, i)
  {
    if i < |p1| {
      assert [p0[i], p1[i]] + InterleaveFrom(p0, p1, i + 1) == [p0[i]] + ([p1[i]] + InterleaveFrom(p0, p1, i + 1));
    }
  }

  lemma Shift(out: seq<real>, x: real, rest: seq<real>)
    ensures out + ([x] + rest) == (out + [x]) + rest
  {
  }

  /** The iterator loop of `audio_buffer` for one frame, with its turn flag. */
  method InterleavePlanes(p0: seq<real>, p1: seq<real>) returns (out: seq<real>)
    ensures out == Interleave(p0, p1)
  {
    out := [];
    var i, j := 0, 0;
    var state := true;
    while true
      invariant j <= i <= |p0| && j <= |p1|
      invariant state ==> i == j && Interleave(p0, p1) == out + InterleaveFrom(p0, p1, i)
      invariant !state ==> i == j + 1 && Interleave(p0, p1) == out + InterleaveFromSecond(p0, p1, j)
      decreases |p0| + |p1| - i - j
    {
      if state {
        if i == |p0| {
          assert out + [] == out;
          break;
        }
        FirstTurn(p0, p1, i);
        Shift(out, p0[i], InterleaveFromSecond(p0, p1, i));
        state := false;
        out := out + [p0[i]];
        i := i + 1;
      } else {
        if j == |p1| {
          assert out + [] == out;
          break;
        }
        Shift(out, p1[j], InterleaveFrom(p0, p1, j + 1));
        state := true;
        out := out + [p1[j]];
        j := j + 1;
      }
    }
  }

  /**
   * The samples `audio_buffer` collects from its `diff` steps starting at
   * step `i`: step `i` reads the frame `diff - i` frames behind the cursor
   * (forward) or ahead of it (backward); a missing frame contributes
   * nothing; an index that leaves `usize` panics.
   */
  function Gather(frames: seq<AFrame>, index: nat, forword: bool, diff: nat, i: nat): (r: Outcome<seq<real>>)
    decreases diff - i
  {
    if i >= diff then Ok([])
    else
      var back := diff - i;
      if forword && index < back then Panic
      else if !forword && index + back > USIZE_MAX then Panic
      else
        var k := if forword then index - back else index + back;
        var here := if k < |frames| then Interleave(frames[k].plane0, frames[k].plane1) else [];
        match Gather(frames, index, forword, diff, i + 1)
        case Panic => Panic
        case Ok(rest) => Ok(here + rest)
  }

  /** `buffer` in front of what the remaining steps collect, or their panic. */
  function Prepend(buffer: seq<real>, o: Outcome<seq<real>>): Outcome<seq<real>>
  {
    match o
    case Panic => Panic
    case Ok(rest) => Ok(buffer + rest)
  }

  /** One step of `Gather`, unfolded. */
  lemma GatherStep(frames: seq<AFrame>, index: nat, forword: bool, diff: nat, i: nat, here: seq<real>)
    requires i < diff
    requires forword ==> diff - i <= index
    requires !forword ==> index + (diff - i) <= USIZE_MAX
    requires var k := if forword then index - (diff - i) else index + (diff - i);
      here == if k < |frames| then Interleave(frames[k].plane0, frames[k].plane1) else []
    ensures Gather(frames, index, forword, diff, i) == Prepend(here, Gather(frames, index, forword, diff, i + 1))
  {
  }

  /** Step `back` from the cursor leaves `usize`: below 0 forward, past `usize::MAX` backward. */
  predicate Escapes(index: nat, forword: bool, back: nat)
  {
    (forword && index < back) || (!forword && index + back > USIZE_MAX)
  }

  /** The samples a step `back` from the cursor reads, when it does not escape. */
  function Here(frames: seq<AFrame>, index: nat, forword: bool, back: nat): seq<real>
    requires !Escapes(index, forword, back)
  {
    var k := if forword then index - back else index + back;
    if k < |frames| then Interleave(frames[k].plane0, frames[k].plane1) else []
  }

  /**
   * One turn of `audio_buffer`'s loop against the whole gather: a step
   * whose frame index leaves `usize` makes the whole gather panic; any
   * other step moves its samples from the remaining steps onto `buffer`.
   */
  lemma GatherTurn(frames: seq<AFrame>, index: nat, forword: bool, diff: nat, i: nat, buffer: seq<real>)
    requires i < diff
    requires Gather(frames, index, forword, diff, 0) == Prepend(buffer, Gather(frames, index, forword, diff, i))
    ensures Escapes(index, forword, diff - i) ==> Gather(frames, index, forword, diff, 0).Panic?
    ensures !Escapes(index, forword, diff - i) ==>
      Gather(frames, index, forword, diff, 0) ==
      Prepend(buffer + Here(frames, index, forword, diff - i), Gather(frames, index, forword, diff, i + 1))
  {
    var back := diff - i;
    if Escapes(index, forword, back) {
      assert Gather(frames, index, forword, diff, i) == Panic;
    } else {
      var here := Here(frames, index, forword, back);
      GatherStep(frames, index, forword, diff, i, here);
      PrependTwice(buffer, here, Gather(frames, index, forword, diff, i + 1));
    }
  }

  lemma PrependTwice(buffer: seq<real>, here: seq<real>, o: Outcome<seq<real>>)
    ensures Prepend(buffer, Prepend(here, o)) == Prepend(buffer + here, o)
    ensures Prepend([], o) == o
  {
    if o.Ok? {
      assert buffer + (here + o.value) == (buffer + here) + o.value;
      assert [] + o.value == o.value;
    }
  }

  /**
   * `audio_buffer(from)` on a stream state: nothing before the first frame
   * (the `samples()?` early return, which itself panics past the last
   * frame); `current - from` panics when `from` is ahead of `current`;
   * otherwise the samples the `current - from` steps collect.
   */
  function AudioBufferOf(frames: seq<AFrame>, index: nat, current: nat, forword: bool, from: nat): Outcome<Option<seq<real>>>
  {
    if index == USIZE_MAX then Ok(None)
    else if index >= |frames| || current < from then Panic
    else match Gather(frames, index, forword, current - from, 0)
      case Panic => Panic
      case Ok(b) => Ok(Some(b))
  }

  /**
   * After moving forward, the buffer holds the interleaved samples of the
   * `current - from` frames just behind the cursor, oldest first; it is
   * empty when nothing moved since `from`.
   */
  lemma AudioBufferForward(frames: seq<AFrame>, index: nat, current: nat, from: nat)
    requires index < |frames| < USIZE_MAX && from <= current && current - from <= index
    ensures AudioBufferOf(frames, index, current, true, from) == Ok(Some(Samples(frames, index - (current - from), index)))
    ensures current == from ==> AudioBufferOf(frames, index, current, true, from) == Ok(Some([]))
  {
    var diff := current - from;
    GatherForward(frames, index, diff, 0);
    assert Gather(frames, index, true, diff, 0) == Ok(Samples(frames, index - diff, index));
  }

  /** The interleaved samples of frames `lo` up to `hi`, in order. */
  function Samples(frames: seq<AFrame>, lo: nat, hi: nat): seq<real>
    requires lo <= hi <= |frames|
    decreases hi - lo
  {
    if lo == hi then [] else Interleave(frames[lo].plane0, frames[lo].plane1) + Samples(frames, lo + 1, hi)
  }

  /**
   * Moving forward over frames that are all present, the collected samples
   * are those of the `diff` frames just behind the cursor, oldest first.
   */
  lemma {:induction false} GatherForward(frames: seq<AFrame>, index: nat, diff: nat, i: nat)
    requires i <= diff <= index <= |frames|
    ensures Gather(frames, index, true, diff, i) == Ok(Samples(frames, index - diff + i, index))
    decreases diff - i
  {
    if i < diff {
      GatherForward(frames, index, diff, i + 1);
    }
  }

  /** Moving forward, a step count larger than the cursor panics on the `usize` subtraction. */
  lemma {:induction false} GatherForwardUnderflow(frames: seq<AFrame>, index: nat, diff: nat)
    requires index < diff
    ensures Gather(frames, index, true, diff, 0).Panic?
  {
  }

  /**
   * The interleaved samples of frames `hi - 1` down to `lo`, newest first;
   * a frame index past the last frame contributes nothing.
   */
  function SamplesDown(frames: seq<AFrame>, lo: nat, hi: nat): seq<real>
    requires lo <= hi
    decreases hi - lo
  {
    if lo == hi then []
    else
      var k := hi - 1;
      (if k < |frames| then Interleave(frames[k].plane0, frames[k].plane1) else []) + SamplesDown(frames, lo, k)
  }

  /** Frames beyond the last one add nothing to `SamplesDown`. */
  lemma {:induction false} SamplesDownPastEnd(frames: seq<AFrame>, lo: nat, hi: nat)
    requires |frames| <= lo <= hi
    ensures SamplesDown(frames, lo, hi) == []
    decreases hi - lo
  {
    if lo < hi {
      SamplesDownPastEnd(frames, lo, hi - 1);
    }
  }

  /**
   * Moving backward without leaving `usize`, the collected samples are those
   * of the `diff - i` frames ahead of the cursor, farthest first.
   */
  lemma {:induction false} GatherBackward(frames: seq<AFrame>, index: nat, diff: nat, i: nat)
    requires i <= diff && index + diff <= USIZE_MAX
    ensures Gather(frames, index, false, diff, i) == Ok(SamplesDown(frames, index + 1, index + 1 + (diff - i)))
    decreases diff - i
  {
    if i < diff {
      GatherBackward(frames, index, diff, i + 1);
    }
  }

  /** Moving backward, a step count that carries the cursor past `usize::MAX` panics on the addition. */
  lemma {:induction false} GatherBackwardOverflow(frames: seq<AFrame>, index: nat, diff: nat)
    requires index <= USIZE_MAX < index + diff
    ensures Gather(frames, index, false, diff, 0).Panic?
  {
  }

  /**
   * After moving backward, the buffer holds the interleaved samples of the
   * `current - from` frames just ahead of the cursor, farthest first, the
   * ones past the last frame contributing nothing; when the cursor is on
   * the last frame, the buffer is empty.
   */
  lemma AudioBufferBackward(frames: seq<AFrame>, index: nat, current: nat, from: nat)
    requires index < |frames| < USIZE_MAX && from <= current && index + (current - from) <= USIZE_MAX
    ensures AudioBufferOf(frames, index, current, false, from) == Ok(Some(SamplesDown(frames, index + 1, index + 1 + (current - from))))
    ensures index + 1 == |frames| ==> AudioBufferOf(frames, index, current, false, from) == Ok(Some([]))
  {
    var diff := current - from;
    GatherBackward(frames, index, diff, 0);
    if index + 1 == |frames| {
      SamplesDownPastEnd(frames, index + 1, index + 1 + diff);
    }
  }

  /** A video stream's decoded frames and cursor (`Arc<RwLock<VideoStream>>`). */
  class VideoStream {
    const streamIndex: nat
    var frames: seq<VFrame>
    /** The cursor; `USIZE_MAX` until the first `next`. */
    var index: nat
    var current: nat

    ghost predicate Valid()
      reads this
    {
      index <= USIZE_MAX && |frames| < USIZE_MAX
    }

    /** `VideoStream::new`. */
    constructor (streamIndex: nat)
      ensures Valid() && this.streamIndex == streamIndex
      ensures frames == [] && index == USIZE_MAX && current == 0
    {
      this.streamIndex := streamIndex;
      frames := [];
      index := USIZE_MAX;
      current := 0;
    }

    /** A frame decoded by `send_packet` is appended. */
    method Push(f: VFrame)
      requires Valid() && |frames| + 1 < USIZE_MAX
      modifies this
      ensures Valid() && frames == old(frames) + [f]
      ensures index == old(index) && current == old(current)
    {
      frames := frames + [f];
    }

    /** `gc`. */
    method CollectGarbage() returns (r: Outcome<()>)
      requires Valid()
      modifies this
      ensures Valid() && current == old(current)
      ensures r.Panic? <==> Gc(old(frames), old(index)).Panic?
      ensures r.Ok? ==> (frames, index) == Gc(old(frames), old(index)).value
      ensures r.Panic? ==> frames == old(frames) && index == old(index)
    {
      if index > 100 && index != USIZE_MAX {
        if |frames| < 50 {
          return Panic;
        }
        frames := frames[50..];
        index := index - 50;
      }
      r := Ok(());
    }

    /** `next`: `gc`, then one cursor move; reports whether the cursor moved. */
    method Next() returns (r: Outcome<bool>)
      requires Valid()
      modifies this
      ensures Valid() && current == old(current)
      ensures r.Panic? <==> Gc(old(frames), old(index)).Panic?
      ensures r.Panic? ==> frames == old(frames) && index == old(index)
      ensures r.Ok? ==>
        var (fs, i) := Gc(old(frames), old(index)).value;
        frames == fs && (index, r.value) == NextIndex(|fs|, i)
    {
      var g := CollectGarbage();
      if g.Panic? {
        return Panic;
      }
      if frames != [] && index == USIZE_MAX {
        index := 0;
        return Ok(true);
      }
      if index < |frames| {
        index := index + 1;
        r := Ok(true);
      } else {
        r := Ok(false);
      }
    }

    /** `prev`. */
    method Prev() returns (moved: bool)
      requires Valid()
      modifies this
      ensures Valid() && frames == old(frames) && current == old(current)
      ensures (index, moved) == PrevIndex(old(index))
    {
      moved := index > 0;
      if moved {
        index := index - 1;
      }
    }

    /** `clear`: no frames, cursor back to the sentinel. */
    method Clear()
      modifies this
      ensures Valid() && frames == [] && index == USIZE_MAX && current == old(current)
    {
      index := USIZE_MAX;
      frames := [];
    }

    /**
     * `data(plane)`: nothing before the first frame; otherwise the plane of
     * the frame under the cursor, which panics when the cursor is past the
     * last frame or the plane index is not one of the frame's planes in use
     * (`stride` and `plane_height` check it against `planes()`, which never
     * exceeds the eight plane pointers).
     */
    function Data(plane: nat): (r: Outcome<Option<seq<bv8>>>)
      reads this
      ensures r == Ok(None) <==> index == USIZE_MAX
      ensures r.Panic? <==> index != USIZE_MAX && (index >= |frames| || plane >= frames[index].planes)
      ensures r.Ok? && r.value.Some? ==> r.value.value == frames[index].data[plane]
    {
      if index == USIZE_MAX then Ok(None)
      else if index >= |frames| || plane >= frames[index].planes then Panic
      else Ok(Some(frames[index].data[plane]))
    }

    /** `width`: the width of the frame under the cursor. */
    function Width(): (r: Outcome<Option<nat>>)
      reads this
      ensures r == Ok(None) <==> index == USIZE_MAX
      ensures r.Panic? <==> index != USIZE_MAX && index >= |frames|
      ensures r.Ok? && r.value.Some? ==> r.value.value == frames[index].width
    {
      if index == USIZE_MAX then Ok(None)
      else if index >= |frames| then Panic
      else Ok(Some(frames[index].width))
    }

    /** `height`: the height of the frame under the cursor. */
    function Height(): (r: Outcome<Option<nat>>)
      reads this
      ensures r == Ok(None) <==> index == USIZE_MAX
      ensures r.Panic? <==> index != USIZE_MAX && index >= |frames|
      ensures r.Ok? && r.value.Some? ==> r.value.value == frames[index].height
    {
      if index == USIZE_MAX then Ok(None)
      else if index >= |frames| then Panic
      else Ok(Some(frames[index].height))
    }
  }

  /**
   * After `next` has stepped onto the frame count, reading the frame under
   * the cursor panics: a stream whose single frame has been shown is one
   * `next` away from an out-of-range read.
   */
  method NextThenReadPastLast(f: VFrame) returns (s: VideoStream)
    ensures fresh(s) && s.frames == [f] && s.index == 1 && s.Data(0).Panic? && s.Width().Panic?
  {
    s := new VideoStream(0);
    s.Push(f);
    var first := s.Next();
    var second := s.Next();
  }

  /** An audio stream's decoded frames and cursor (`Arc<RwLock<AudioStream>>`). */
  class AudioStream {
    const streamIndex: nat
    var frames: seq<AFrame>
    /** The cursor; `USIZE_MAX` until the first `next`. */
    var index: nat
    /** Counts cursor steps in either direction; the audio manager reads from here. */
    var current: nat
    /** Whether the last move was `next` (true) or `prev` (false). */
    var forword: bool

    ghost predicate Valid()
      reads this
    {
      index <= USIZE_MAX && |frames| < USIZE_MAX
    }

    /** `AudioStream::new`. */
    constructor (streamIndex: nat)
      ensures Valid() && this.streamIndex == streamIndex
      ensures frames == [] && index == USIZE_MAX && current == 0 && !forword
    {
      this.streamIndex := streamIndex;
      frames := [];
      index := USIZE_MAX;
      current := 0;
      forword := false;
    }

    /** A frame decoded by `send_packet` is appended. */
    method Push(f: AFrame)
      requires Valid() && |frames| + 1 < USIZE_MAX
      modifies this
      ensures Valid() && frames == old(frames) + [f]
      ensures index == old(index) && current == old(current) && forword == old(forword)
    {
      frames := frames + [f];
    }

    /** `gc`. */
    method CollectGarbage() returns (r: Outcome<()>)
      requires Valid()
      modifies this
      ensures Valid() && current == old(current) && forword == old(forword)
      ensures r.Panic? <==> Gc(old(frames), old(index)).Panic?
      ensures r.Ok? ==> (frames, index) == Gc(old(frames), old(index)).value
      ensures r.Panic? ==> frames == old(frames) && index == old(index)
    {
      if index > 100 && index != USIZE_MAX {
        if |frames| < 50 {
          return Panic;
        }
        frames := frames[50..];
        index := index - 50;
      }
      r := Ok(());
    }

    /**
     * `next`: `gc`, then direction forward and one cursor move; a step that
     * is not the first one off the sentinel also advances `current`.
     */
    method Next() returns (r: Outcome<bool>)
      requires Valid()
      modifies this
      ensures Valid()
      ensures r.Panic? <==> Gc(old(frames), old(index)).Panic?
      ensures r.Panic? ==> frames == old(frames) && index == old(index) && current == old(current)
      ensures r.Ok? ==>
        var (fs, i) := Gc(old(frames), old(index)).value;
        forword && frames == fs && (index, r.value) == NextIndex(|fs|, i) &&
        current == old(current) + (if i < |fs| then 1 else 0)
    {
      var g := CollectGarbage();
      if g.Panic? {
        return Panic;
      }
      forword := true;
      if frames != [] && index == USIZE_MAX {
        index := 0;
        return Ok(true);
      }
      if index < |frames| {
        current := current + 1;
        index := index + 1;
        r := Ok(true);
      } else {
        r := Ok(false);
      }
    }

    /** `prev`: direction backward; a move down also advances `current`. */
    method Prev() returns (moved: bool)
      requires Valid()
      modifies this
      ensures Valid() && frames == old(frames) && !forword
      ensures (index, moved) == PrevIndex(old(index))
      ensures current == old(current) + (if moved then 1 else 0)
    {
      forword := false;
      moved := index > 0;
      if moved {
        current := current + 1;
        index := index - 1;
      }
    }

    /** `clear`. */
    method Clear()
      modifies this
      ensures Valid() && frames == [] && index == USIZE_MAX
      ensures current == old(current) && forword == old(forword)
    {
      index := USIZE_MAX;
      frames := [];
    }

    /**
     * `data(plane)`: the bytes of a data plane of the frame under the
     * cursor; like the video stream's, it panics past the last frame or
     * past the eight plane pointers.
     */
    function Data(plane: nat): (r: Outcome<Option<seq<bv8>>>)
      reads this
      ensures r == Ok(None) <==> index == USIZE_MAX
      ensures r.Panic? <==> index != USIZE_MAX && (index >= |frames| || plane >= AV_NUM_DATA_POINTERS)
      ensures r.Ok? && r.value.Some? ==> r.value.value == frames[index].data[plane]
    {
      if index == USIZE_MAX then Ok(None)
      else if index >= |frames| || plane >= AV_NUM_DATA_POINTERS then Panic
      else Ok(Some(frames[index].data[plane]))
    }

    /** `samples`: the sample count of the frame under the cursor. */
    function SampleCount(): (r: Outcome<Option<nat>>)
      reads this
      ensures r == Ok(None) <==> index == USIZE_MAX
      ensures r.Panic? <==> index != USIZE_MAX && index >= |frames|
      ensures r.Ok? && r.value.Some? ==> r.value.value == frames[index].samples
    {
      if index == USIZE_MAX then Ok(None)
      else if index >= |frames| then Panic
      else Ok(Some(frames[index].samples))
    }

    /** `channels`: the channel count of the frame under the cursor. */
    function Channels(): (r: Outcome<Option<nat>>)
      reads this
      ensures r == Ok(None) <==> index == USIZE_MAX
      ensures r.Panic? <==> index != USIZE_MAX && index >= |frames|
      ensures r.Ok? && r.value.Some? ==> r.value.value == frames[index].channels
    {
      if index == USIZE_MAX then Ok(None)
      else if index >= |frames| then Panic
      else Ok(Some(frames[index].channels))
    }

    /** `audio_buffer(from)`. */
    method AudioBuffer(from: nat) returns (r: Outcome<Option<seq<real>>>)
      ensures r == AudioBufferOf(frames, index, current, forword, from)
    {
      if index == USIZE_MAX {
        return Ok(None);
      }
      if index >= |frames| || current < from {
        return Panic;
      }
      var fs, at, fwd := frames, index, forword;
      var diff := current - from;
      var buffer := [];
      var i := 0;
      PrependTwice([], [], Gather(fs, at, fwd, diff, 0));
      while i < diff
        invariant 0 <= i <= diff
        invariant Gather(fs, at, fwd, diff, 0) == Prepend(buffer, Gather(fs, at, fwd, diff, i))
      {
        var back := diff - i;
        if (fwd && at < back) || (!fwd && at + back > USIZE_MAX) {
          GatherTurn(fs, at, fwd, diff, i, buffer);
          return Panic;
        }
        var k := if fwd then at - back else at + back;
        var here := [];
        if k < |fs| {
          here := InterleavePlanes(fs[k].plane0, fs[k].plane1);
        }
        GatherTurn(fs, at, fwd, diff, i, buffer);
        assert here == Here(fs, at, fwd, back);
        buffer := buffer + here;
        i := i + 1;
      }
      assert buffer + [] == buffer;
      r := Ok(Some(buffer));
    }
  }

  /** A `Box<dyn Stream>`: a shared reference to one of the two kinds of stream. */
  datatype StreamRef = VideoRef(video: VideoStream) | AudioRef(audio: AudioStream)
  {
    /** `ty`. */
    function Ty(): StreamType
    {
      match this
      case VideoRef(_) => Video
      case AudioRef(_) => Audio
    }

    /** `current`. */
    function Current(): nat
      reads if VideoRef? then video else audio
    {
      match this
      case VideoRef(v) => v.current
      case AudioRef(a) => a.current
    }

    /** `data(plane)` of whichever stream this is. */
    function Data(plane: nat): (r: Outcome<Option<seq<bv8>>>)
      reads if VideoRef? then video else audio
      ensures VideoRef? ==> r == video.Data(plane)
      ensures AudioRef? ==> r == audio.Data(plane)
    {
      match this
      case VideoRef(v) => v.Data(plane)
      case AudioRef(a) => a.Data(plane)
    }

    /** `width`: an audio stream keeps the trait's default, nothing. */
    function Width(): (r: Outcome<Option<nat>>)
      reads if VideoRef? then video else audio
      ensures VideoRef? ==> r == video.Width()
      ensures AudioRef? ==> r == Ok(None)
    {
      match this
      case VideoRef(v) => v.Width()
      case AudioRef(_) => Ok(None)
    }

    /** `height`: an audio stream keeps the trait's default, nothing. */
    function Height(): (r: Outcome<Option<nat>>)
      reads if VideoRef? then video else audio
      ensures VideoRef? ==> r == video.Height()
      ensures AudioRef? ==> r == Ok(None)
    {
      match this
      case VideoRef(v) => v.Height()
      case AudioRef(_) => Ok(None)
    }

    /** `audio_buffer`: a video stream keeps the trait's default, nothing. */
    method AudioBuffer(from: nat) returns (r: Outcome<Option<seq<real>>>)
      ensures VideoRef? ==> r == Ok(None)
      ensures AudioRef? ==> r == AudioBufferOf(audio.frames, audio.index, audio.current, audio.forword, from)
    {
      match this
      case VideoRef(_) => r := Ok(None);
      case AudioRef(a) => r := a.AudioBuffer(from);
    }
  }

  /** How many streams of `ty` there are in `streams`. */
  function CountOfType(streams: seq<StreamRef>, ty: StreamType): nat
  {
    if streams == [] then 0
    else CountOfType(streams[..|streams| - 1], ty) + (if streams[|streams| - 1].Ty() == ty then 1 else 0)
  }

  /** The `n`-th stream of type `ty`, counting from 0 in stream order. */
  function NthOfType(streams: seq<StreamRef>, ty: StreamType, n: nat): Option<StreamRef>
  {
    if streams == [] then None
    else if streams[0].Ty() != ty then NthOfType(streams[1..], ty, n)
    else if n == 0 then Some(streams[0])
    else NthOfType(streams[1..], ty, n - 1)
  }

  lemma CountOfTypeCons(s: StreamRef, rest: seq<StreamRef>, ty: StreamType)
    ensures CountOfType([s] + rest, ty) == (if s.Ty() == ty then 1 else 0) + CountOfType(rest, ty)
    decreases |rest|
  {
    if rest != [] {
      var all := [s] + rest;
      assert all[..|all| - 1] == [s] + rest[..|rest| - 1];
      CountOfTypeCons(s, rest[..|rest| - 1], ty);
    } else {
      assert ([s] + rest)[..0] == [];
    }
  }

  /**
   * The n-th stream of a type is a stream of that type with exactly n
   * streams of the type before it; there is none when fewer than n + 1
   * streams have the type.
   */
  lemma {:induction false} NthOfTypeSpec(streams: seq<StreamRef>, ty: StreamType, n: nat)
    ensures NthOfType(streams, ty, n).None? <==> CountOfType(streams, ty) <= n
    ensures NthOfType(streams, ty, n).Some? ==>
      (exists k :: 0 <= k < |streams| && streams[k] == NthOfType(streams, ty, n).value &&
        streams[k].Ty() == ty && CountOfType(streams[..k], ty) == n)
  {
    if streams != [] {
      var rest := streams[1..];
      assert streams == [streams[0]] + rest;
      CountOfTypeCons(streams[0], rest, ty);
      var m := if streams[0].Ty() != ty then n else if n == 0 then 0 else n - 1;
      NthOfTypeSpec(rest, ty, m);
      if NthOfType(streams, ty, n).Some? {
        if streams[0].Ty() == ty && n == 0 {
          assert streams[..0] == [];
        } else {
          var k :| 0 <= k < |rest| && rest[k] == NthOfType(rest, ty, m).value && rest[k].Ty() == ty
            && CountOfType(rest[..k], ty) == m;
          assert streams[..k + 1] == [streams[0]] + rest[..k];
          CountOfTypeCons(streams[0], rest[..k], ty);
        }
      }
    }
  }

  /** The demuxed input: its streams in container order. */
  class MediaFile {
    const streams: seq<StreamRef>

    constructor (streams: seq<StreamRef>)
      ensures this.streams == streams
    {
      this.streams := streams;
    }

    /** The loop of `Media::video` and `Media::audio`: count the streams of `ty` until the `n`-th. */
    method NthStream(ty: StreamType, n: nat) returns (r: Option<StreamRef>)
      ensures r == NthOfType(streams, ty, n)
    {
      var i := 0;
      var k := 0;
      while k < |streams|
        invariant 0 <= k <= |streams| && i <= n
        invariant NthOfType(streams, ty, n) == NthOfType(streams[k..], ty, n - i)
      {
        assert streams[k..][1..] == streams[k + 1..];
        if streams[k].Ty() != ty {
          k := k + 1;
          continue;
        }
        if i == n {
          return Some(streams[k]);
        }
        i := i + 1;
        k := k + 1;
      }
      r := None;
    }

    /** `Media::video(n)`. */
    method VideoStreamAt(n: nat) returns (r: Option<StreamRef>)
      ensures r == NthOfType(streams, Video, n)
      ensures r.Some? ==> r.value.Ty() == Video && r.value in streams
    {
      r := NthStream(Video, n);
      NthOfTypeSpec(streams, Video, n);
    }

    /** `Media::audio(n)`. */
    method AudioStreamAt(n: nat) returns (r: Option<StreamRef>)
      ensures r == NthOfType(streams, Audio, n)
      ensures r.Some? ==> r.value.Ty() == Audio && r.value in streams
    {
      r := NthStream(Audio, n);
      NthOfTypeSpec(streams, Audio, n);
    }
  }
}
