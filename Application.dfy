/** The render tick and the key handler of src/Application.cpp.

    The window is not modelled: the Escape key's request to close it is the
    result of `OnKey`. The random engine becomes `noise`, one draw per frame,
    and `powf(10, x)` becomes the caller-supplied `pow10`. The borrowed device
    buffer is an `array<real>`. */
module Application {
  import opened Numeric
  import opened Wrappers
  import opened AudioBackend
  import AudioTypes

  /** GLFW's codes for the keys and the action `OnKey` reacts to. */
  const KEY_ESCAPE: int := 256
  const KEY_P: int := 80
  const KEY_K: int := 75
  const PRESS: int := 1

  // ---------------------------------------------------------------------
  // Samples and the interleaved write pattern
  // ---------------------------------------------------------------------

  /** One output sample: the draw `x` scaled by `scale`, clamped to [-1, 1]. */
  function Sample(x: real, scale: real): (y: real)
    ensures -1.0 <= y <= 1.0
  {
    Clamp(x * scale, -1.0, 1.0)
  }

  /** A sample is the scaled draw itself when that lies in [-1, 1], and the
      nearer bound otherwise. */
  lemma SampleClamps(x: real, scale: real)
    ensures -1.0 <= x * scale <= 1.0 ==> Sample(x, scale) == x * scale
    ensures 1.0 < x * scale ==> Sample(x, scale) == 1.0
    ensures x * scale < -1.0 ==> Sample(x, scale) == -1.0
  {
  }

  /** The factor every draw is scaled by: the master volume times the master
      gain `10^(dB / 20)`. */
  function MasterScale(volume: real, db: int, pow10: real -> real): real {
    volume * pow10(db as real / 20.0)
  }

  /** The master volume times the master gain is the master scale. */
  lemma MasterScaleIs(volume: real, db: int, pow10: real -> real, gain: real)
    requires gain == pow10(db as real / 20.0)
    ensures volume * gain == MasterScale(volume, db, pow10)
  {
  }

  /** Clamping the scaled draw yields its sample. */
  lemma ClampedIsSample(x: real, scale: real, scaled: real)
    requires scaled == x * scale
    ensures Clamp(scaled, -1.0, 1.0) == Sample(x, scale)
  {
  }

  /** The samples of a run of draws, one per frame, all in [-1, 1]. */
  function FrameSamples(noise: seq<real>, scale: real): (vals: seq<real>)
    ensures |vals| == |noise|
    ensures forall i :: 0 <= i < |vals| ==> -1.0 <= vals[i] <= 1.0
  {
    if noise == [] then []
    else [Sample(noise[0], scale)] + FrameSamples(noise[1..], scale)
  }

  /** Frame `i`'s sample comes from draw `i`. */
  lemma {:induction false} FrameSamplesAt(noise: seq<real>, scale: real, i: nat)
    requires i < |noise|
    ensures FrameSamples(noise, scale)[i] == Sample(noise[i], scale)
  {
    if i > 0 {
      FrameSamplesAt(noise[1..], scale, i - 1);
    }
  }

  /** The buffer `before` after frames 0 .. n-1 have been written: frame `i`
      stores `vals[i]` at `i * ch` and, with more than one channel, at
      `i * ch + 1`. */
  function Rendered(before: seq<real>, vals: seq<real>, n: nat, ch: nat): (r: seq<real>)
    requires n <= |vals| && 1 <= ch && n * ch <= |before|
    ensures |r| == |before|
    decreases n
  {
    if n == 0 then before
    else
      FrameFits(n - 1, n, ch);
      WriteFrame(Rendered(before, vals, n - 1, ch), n - 1, ch, vals[n - 1])
  }

  /** `buf` with frame `i` of `ch` channels written: `v` at channel 0 and,
      with more than one channel, at channel 1. */
  function WriteFrame(buf: seq<real>, i: nat, ch: nat, v: real): (r: seq<real>)
    requires 1 <= ch && i * ch + ch <= |buf|
    ensures |r| == |buf|
  {
    var w := buf[i * ch := v];
    if ch > 1 then w[i * ch + 1 := v] else w
  }

  /** `WriteFrame` changes exactly the indices of channels 0 and 1 of its frame. */
  lemma WriteFrameAt(buf: seq<real>, i: nat, ch: nat, v: real, k: nat)
    requires 1 <= ch && i * ch + ch <= |buf| && k < |buf|
    ensures WriteFrame(buf, i, ch, v)[k] == if k == i * ch || (ch > 1 && k == i * ch + 1) then v else buf[k]
  {
  }

  /** Whether index `k` lies in channel 0 or channel 1 of one of the first `n`
      frames of `ch` channels. */
  predicate Written(k: nat, n: nat, ch: nat)
    requires 1 <= ch
  {
    k < n * ch && k % ch < 2
  }

  /** Frame `i` of `ch` channels ends within the first `n` frames. */
  lemma {:induction false} FrameFits(i: nat, n: nat, ch: nat)
    requires i < n
    ensures i * ch + ch <= n * ch
    ensures (i + 1) * ch <= n * ch
    decreases n - i
  {
    assert (i + 1) * ch == i * ch + ch;
    if i + 1 < n {
      FrameFits(i + 1, n, ch);
    }
  }

  /** Indices from `n * ch` on are untouched by the first `n` frames. */
  lemma {:induction false} RenderedBeyond(before: seq<real>, vals: seq<real>, n: nat, ch: nat, k: nat)
    requires n <= |vals| && 1 <= ch && n * ch <= k < |before|
    ensures Rendered(before, vals, n, ch)[k] == before[k]
  {
    if n > 0 {
      FrameFits(n - 1, n, ch);
      WriteFrameAt(Rendered(before, vals, n - 1, ch), n - 1, ch, vals[n - 1], k);
      RenderedBeyond(before, vals, n - 1, ch, k);
    }
  }

  /** Offset `j` of frame `i < n`: channels 0 and 1 hold `vals[i]`, every
      further channel keeps its value. */
  lemma {:induction false} RenderedFrame(before: seq<real>, vals: seq<real>, n: nat, ch: nat, i: nat, j: nat)
    requires n <= |vals| && 1 <= ch && n * ch <= |before| && i < n && j < ch
    ensures i * ch + j < |before|
    ensures Rendered(before, vals, n, ch)[i * ch + j] == if j < 2 then vals[i] else before[i * ch + j]
  {
    FrameFits(i, n, ch);
    FrameFits(n - 1, n, ch);
    var prev := Rendered(before, vals, n - 1, ch);
    WriteFrameAt(prev, n - 1, ch, vals[n - 1], i * ch + j);
    if i < n - 1 {
      FrameFits(i, n - 1, ch);
      RenderedFrame(before, vals, n - 1, ch, i, j);
    } else if 2 <= j {
      RenderedBeyond(before, vals, n - 1, ch, i * ch + j);
    }
  }

  /** The pointwise meaning of `Rendered`: a written index holds its frame's
      sample, every other index keeps its value. */
  lemma RenderedAt(before: seq<real>, vals: seq<real>, n: nat, ch: nat, k: nat)
    requires n <= |vals| && 1 <= ch && n * ch <= |before| && k < |before|
    ensures Written(k, n, ch) ==> k / ch < n && Rendered(before, vals, n, ch)[k] == vals[k / ch]
    ensures !Written(k, n, ch) ==> Rendered(before, vals, n, ch)[k] == before[k]
  {
    if k < n * ch {
      var q, r := FrameOf(k, n, ch);
      RenderedFrame(before, vals, n, ch, q, r);
    } else {
      RenderedBeyond(before, vals, n, ch, k);
    }
  }

  /** An index below `n * ch` is offset `k % ch` of frame `k / ch < n`. */
  lemma FrameOf(k: nat, n: nat, ch: nat) returns (q: nat, r: nat)
    requires 1 <= ch && k < n * ch
    ensures q == k / ch && r == k % ch && q < n && r < ch && k == q * ch + r
  {
    q, r := k / ch, k % ch;
    MulMonotone(n, q, ch);
  }

  /** Multiplying by `c` keeps the order of `a` and `b`. */
  lemma MulMonotone(a: nat, b: nat, c: nat)
    ensures a <= b ==> a * c <= b * c
  {
    if a < b {
      FrameFits(a, b, c);
    }
  }

  /** Every index `Rendered` writes lies below `n * ch`, and every value in
      the buffer after the write lies in [-1, 1] where it was written. */
  lemma RenderedInRange(before: seq<real>, vals: seq<real>, n: nat, ch: nat, k: nat)
    requires n <= |vals| && 1 <= ch && n * ch <= |before| && k < |before|
    requires forall i :: 0 <= i < |vals| ==> -1.0 <= vals[i] <= 1.0
    ensures Rendered(before, vals, n, ch)[k] != before[k] ==>
              k < n * ch && -1.0 <= Rendered(before, vals, n, ch)[k] <= 1.0
  {
    RenderedAt(before, vals, n, ch, k);
  }

  /** The two channels of a frame receive the same sample. */
  lemma RenderedStereoEqual(before: seq<real>, vals: seq<real>, n: nat, ch: nat, i: nat)
    requires n <= |vals| && 1 < ch && n * ch <= |before| && i < n
    ensures i * ch + 1 < |before|
    ensures Rendered(before, vals, n, ch)[i * ch] == Rendered(before, vals, n, ch)[i * ch + 1] == vals[i]
  {
    RenderedFrame(before, vals, n, ch, i, 0);
    RenderedFrame(before, vals, n, ch, i, 1);
  }

  // ---------------------------------------------------------------------
  // Key gating
  // ---------------------------------------------------------------------

  /** The playback command a key event selects in playback state `state`:
      only presses act; `P` pauses a playing stream and resumes a paused one,
      `K` stops a playing stream and starts a stopped one. */
  function KeyCommand(key: int, action: int, state: AudioTypes.PlaybackState): (c: Option<PlaybackCommand>)
    ensures action != PRESS ==> c.None?
    ensures key != KEY_P && key != KEY_K ==> c.None?
    ensures key == KEY_P && action == PRESS ==> (c.Some? <==> state != AudioTypes.STOPPED)
    ensures key == KEY_K && action == PRESS ==> (c.Some? <==> state != AudioTypes.PAUSED)
  {
    if action != PRESS then None
    else if key == KEY_P then
      match state
      case PLAYING => Some(Pause)
      case PAUSED => Some(Resume)
      case STOPPED => None
    else if key == KEY_K then
      match state
      case PLAYING => Some(Stop)
      case STOPPED => Some(Start)
      case PAUSED => None
    else None
  }

  /** The gating table of `OnKey`, row by row: key, state, command. */
  const GatingTable: seq<(int, AudioTypes.PlaybackState, PlaybackCommand)> := [
    (KEY_P, AudioTypes.PLAYING, Pause),
    (KEY_P, AudioTypes.PAUSED, Resume),
    (KEY_K, AudioTypes.PLAYING, Stop),
    (KEY_K, AudioTypes.STOPPED, Start)]

  /** A pressed key selects a command exactly when the table has the row. */
  lemma KeyCommandFollowsTable(key: int, action: int, state: AudioTypes.PlaybackState, cmd: PlaybackCommand)
    ensures KeyCommand(key, action, state) == Some(cmd) <==> action == PRESS && (key, state, cmd) in GatingTable
  {
  }

  /** No key starts a stream that is playing or paused, and no key pauses or
      resumes a stopped one. */
  lemma StartOnlyWhenStopped(key: int, action: int, state: AudioTypes.PlaybackState)
    ensures KeyCommand(key, action, state) == Some(Start) ==> state == AudioTypes.STOPPED
    ensures KeyCommand(key, action, state) in {Some(Pause), Some(Resume)} ==> state != AudioTypes.STOPPED
  {
  }

  // ---------------------------------------------------------------------
  // The application
  // ---------------------------------------------------------------------

  class Application {
    const backend: AudioBackend
    var masterVolume: real
    var masterVolumeDB: int

    /** Stores the backend, sets the master volume to 1 and the master trim
        to 0 dB, and starts playback. */
    constructor(backend: AudioBackend, bufferSize: Option<uint32>)
      requires backend.holdsAudioClient
      modifies backend`bufferFrameCount, backend.platform
      ensures this.backend == backend && masterVolume == 1.0 && masterVolumeDB == 0
      ensures backend.bufferFrameCount == if bufferSize.Some? then bufferSize.value else old(backend.bufferFrameCount)
      ensures backend.platform.calls == old(backend.platform.calls) + StartTrace(bufferSize)
    {
      this.backend := backend;
      masterVolume := 1.0;
      masterVolumeDB := 0;
      new;
      backend.StartPlayback(bufferSize);
    }

    /** The buffer `Update` locks, with the frame count it was locked for. */
    function Acquired(padding: Option<uint32>, lockOk: bool, memory: array<real>): AudioBuffer
      reads this, backend
    {
      backend.AcquiredBuffer(padding, lockOk, memory)
    }

    /** Whether `Update` gets as far as writing samples. */
    predicate Fills(padding: Option<uint32>, lockOk: bool, memory: array<real>)
      reads this, backend
    {
      backend.mixFormat.Some? && Acquired(padding, lockOk, memory).data.Some?
      && Acquired(padding, lockOk, memory).frames > 0
    }

    /** One render tick: with a format and a non-empty locked buffer, fills
        every frame with a fresh noise sample at master gain, interleaved
        into channels 0 and (when present) 1, and releases the frames it
        locked. Without a format it touches nothing; with an empty buffer it
        writes nothing and releases nothing. */
    method Update(padding: Option<uint32>, lockOk: bool, memory: array<real>, noise: seq<real>, pow10: real -> real)
      requires Fills(padding, lockOk, memory) ==>
                 Acquired(padding, lockOk, memory).frames as int <= |noise|
                 && Acquired(padding, lockOk, memory).frames as int * backend.mixFormat.value.nChannels as int <= memory.Length
      modifies backend.platform, memory
      ensures backend.mixFormat.None? ==> backend.platform.calls == old(backend.platform.calls)
      ensures backend.mixFormat.Some? && !Fills(padding, lockOk, memory) ==>
                backend.platform.calls == old(backend.platform.calls) + backend.AcquireTrace(padding)
      ensures !Fills(padding, lockOk, memory) ==> memory[..] == old(memory[..])
      ensures Fills(padding, lockOk, memory) ==>
                var n := Acquired(padding, lockOk, memory).frames;
                backend.platform.calls == old(backend.platform.calls) + [LockBuffer(n), UnlockBuffer(n)]
                && memory[..] == Rendered(old(memory[..]), FrameSamples(noise[..n], MasterScale(masterVolume, masterVolumeDB, pow10)),
                                          n as nat, backend.mixFormat.value.nChannels as nat)
    {
      var format := backend.GetFormat();
      if format.None? {
        return;
      }
      var acquired := backend.GetBuffer(padding, lockOk, memory);
      if acquired.data.None? {
        return;
      }
      if acquired.frames == 0 {
        return;
      }
      assert acquired.data.value == memory && memory[..] == old(memory[..]);
      FillFrames(memory, noise, masterVolume, masterVolumeDB, pow10,
                 acquired.frames as nat, format.value.nChannels as nat);
      backend.ReleaseBuffer(acquired.frames);
    }

    /** The frame loop of `Update`: frame `i` draws `noise[i]`, scales it by
        the master volume and the master gain, clamps it and writes it to
        channel 0 and, with more than one channel, to channel 1. */
    static method FillFrames(buffer: array<real>, noise: seq<real>, masterVolume: real, masterVolumeDB: int,
                             pow10: real -> real, frames: nat, ch: nat)
      requires frames <= |noise| && 1 <= ch && frames * ch <= buffer.Length
      modifies buffer
      ensures buffer[..] == Rendered(old(buffer[..]),
                                     FrameSamples(noise[..frames], MasterScale(masterVolume, masterVolumeDB, pow10)),
                                     frames, ch)
    {
      ghost var scale := MasterScale(masterVolume, masterVolumeDB, pow10);
      ghost var vals := FrameSamples(noise[..frames], scale);
      var i := 0;
      while i < frames
        invariant 0 <= i <= frames
        invariant buffer[..] == Rendered(old(buffer[..]), vals, i, ch)
      {
        FrameFits(i, frames, ch);
        RenderFrame(buffer, i, ch, noise[i], masterVolume, masterVolumeDB, pow10);
        FrameSamplesAt(noise[..frames], scale, i);
        i := i + 1;
      }
    }

    /** One iteration of the frame loop: scale the draw by the master volume
        and the master gain, clamp it, store it in channel 0 and, with more
        than one channel, in channel 1. */
    static method RenderFrame(buffer: array<real>, i: nat, ch: nat, draw: real,
                              masterVolume: real, masterVolumeDB: int, pow10: real -> real)
      requires 1 <= ch && i * ch + ch <= buffer.Length
      modifies buffer
      ensures buffer[..] == WriteFrame(old(buffer[..]), i, ch, Sample(draw, MasterScale(masterVolume, masterVolumeDB, pow10)))
    {
      var sample := draw;
      var gain := pow10(masterVolumeDB as real / 20.0);
      MasterScaleIs(masterVolume, masterVolumeDB, pow10, gain);
      sample := sample * (masterVolume * gain);
      ClampedIsSample(draw, MasterScale(masterVolume, masterVolumeDB, pow10), sample);
      sample := Clamp(sample, -1.0, 1.0);
      buffer[i * ch] := sample;
      if ch > 1 {
        buffer[i * ch + 1] := sample;
      }
    }

    /** Reacts to a key event: Escape asks to close the window (the result),
        `P` and `K` issue the command `KeyCommand` selects, or nothing. */
    method OnKey(key: int, action: int, bufferSize: Option<uint32>) returns (close: bool)
      requires KeyCommand(key, action, backend.state) == Some(Start) ==> backend.holdsAudioClient
      modifies backend`bufferFrameCount, backend`state, backend.platform
      ensures close <==> action == PRESS && key == KEY_ESCAPE
      ensures KeyCommand(key, action, old(backend.state)).None? ==>
                backend.platform.calls == old(backend.platform.calls)
                && backend.state == old(backend.state) && backend.bufferFrameCount == old(backend.bufferFrameCount)
      ensures KeyCommand(key, action, old(backend.state)) == Some(Start) ==>
                backend.platform.calls == old(backend.platform.calls) + StartTrace(bufferSize)
                && backend.bufferFrameCount == (if bufferSize.Some? then bufferSize.value else old(backend.bufferFrameCount))
                && backend.state == old(backend.state)
      ensures KeyCommand(key, action, old(backend.state)) in {Some(Stop), Some(Pause), Some(Resume)} ==>
                backend.platform.calls == old(backend.platform.calls) + [Requested(KeyCommand(key, action, old(backend.state)).value)]
                && backend.bufferFrameCount == old(backend.bufferFrameCount)
    {
      if action != PRESS {
        return false;
      }
      close := key == KEY_ESCAPE;
      if key == KEY_P {
        var state := backend.GetPlaybackState();
        if state == AudioTypes.PLAYING {
          backend.Issue(Pause);
        } else if state == AudioTypes.PAUSED {
          backend.Issue(Resume);
        }
      }
      if key == KEY_K {
        var state := backend.GetPlaybackState();
        if state == AudioTypes.PLAYING {
          backend.Issue(Stop);
        } else if state == AudioTypes.STOPPED {
          backend.StartPlayback(bufferSize);
        }
      }
    }
  }
}
