/** The double-buffered file streamer: the two buffers, the file-relative
    cursor the refill task advances and the per-frame state the render
    callback advances. */
module Streaming {
  import opened Config
  import opened Cursor
  import opened Chunks

  /** The cell of the buffers that output channel `channel` plays in cursor
      state p: frame p.readPtr of buffer p.active, in the file channel the
      output channel wraps to. */
  function CellAt(buf: array3<Sample>, p: Playhead, channel: nat): Sample
    reads buf
    requires Cursor.Valid(p) && p.readPtr < BUFFER_LEN
    requires buf.Length0 == 2 && buf.Length1 > 0 && buf.Length2 == BUFFER_LEN
  {
    buf[p.active, SourceChannel(channel, buf.Length1), p.readPtr]
  }

  class Streamer {
    /** The decoded file, one sequence of frames per channel: the source that
        the audio-file library reads from. */
    const file: seq<seq<Sample>>
    /** gNumFramesInFile. */
    const numFrames: int
    /** gSampleBuf[buffer][channel][frame]: two buffers of BUFFER_LEN frames for
        every channel of the file. */
    const buf: array3<Sample>
    /** gReadPtr: the frame of the active buffer being played. */
    var readPtr: int
    /** gBufferReadPtr: the first file frame of the chunk last loaded. */
    var bufferReadPtr: int
    /** gActiveBuffer: the buffer being played (0 or 1). */
    var activeBuffer: int
    /** gDoneLoadingBuffer: whether the last scheduled refill has completed. */
    var doneLoadingBuffer: bool
    /** For each buffer, the file cursor of the chunk it holds. */
    ghost var loadedAt: seq<int>

    /** The file and the buffers are shaped as setup() leaves them: a file
        longer than one buffer, and two buffers of BUFFER_LEN frames for
        every channel of the file. */
    ghost predicate Shaped() {
      numFrames > BUFFER_LEN && |file| > 0 &&
      (forall ch :: 0 <= ch < |file| ==> |file[ch]| == numFrames) &&
      buf.Length0 == 2 && buf.Length1 == |file| && buf.Length2 == BUFFER_LEN
    }

    /** Between callbacks: the cursors are in range, each buffer holds the
        chunk of the file at its recorded cursor, and while the last refill is
        done the inactive buffer holds the chunk at the file cursor. */
    ghost predicate Valid()
      reads this, buf
    {
      Shaped() && Cursor.Valid(Head()) && 0 <= bufferReadPtr < numFrames &&
      |loadedAt| == 2 && 0 <= loadedAt[0] < numFrames && 0 <= loadedAt[1] < numFrames &&
      (forall b, ch, i :: 0 <= b < 2 && 0 <= ch < |file| && 0 <= i < BUFFER_LEN ==>
         buf[b, ch, i] == ChunkSample(file, ChunkAt(loadedAt[b], numFrames), ch, i)) &&
      (doneLoadingBuffer ==> loadedAt[Toggle(activeBuffer)] == bufferReadPtr)
    }

    /** The real-time state as a value of the per-frame state machine. */
    function Head(): Playhead
      reads this
    {
      Playhead(readPtr, activeBuffer, doneLoadingBuffer)
    }

    /** The streaming part of setup(): both buffers hold the first BUFFER_LEN
        frames of every channel (the inactive one is a copy of the first), and
        the cursors are at their initial values. */
    constructor (file: seq<seq<Sample>>, numFrames: int)
      requires numFrames > BUFFER_LEN && |file| > 0
      requires forall ch :: 0 <= ch < |file| ==> |file[ch]| == numFrames
      ensures Valid() && fresh(buf)
      ensures this.file == file && this.numFrames == numFrames
      ensures Head() == Start && bufferReadPtr == 0 && loadedAt == [0, 0]
      ensures forall b, ch, i :: 0 <= b < 2 && 0 <= ch < |file| && 0 <= i < BUFFER_LEN ==>
                buf[b, ch, i] == file[ch][i]
    {
      this.file := file;
      this.numFrames := numFrames;
      buf := new Sample[2, |file|, BUFFER_LEN](
        (b: nat, ch: nat, i: nat) requires ch < |file| && i < BUFFER_LEN => file[ch][i]);
      readPtr := BUFFER_LEN;
      bufferReadPtr := 0;
      activeBuffer := 0;
      doneLoadingBuffer := true;
      loadedAt := [0, 0];
    }

    /** AudioFileUtilities::getSamples: copies the file frames [start, endFrame)
        of channel ch to the front of that channel of buffer b. */
    method GetSamples(b: int, ch: int, start: int, endFrame: int)
      requires Shaped()
      requires 0 <= b < 2 && 0 <= ch < |file|
      requires 0 <= start <= endFrame <= numFrames && endFrame - start <= BUFFER_LEN
      modifies buf
      ensures forall i :: 0 <= i < endFrame - start ==> buf[b, ch, i] == file[ch][start + i]
      ensures forall b', ch', i :: 0 <= b' < 2 && 0 <= ch' < |file| && 0 <= i < BUFFER_LEN &&
                (b' != b || ch' != ch || i >= endFrame - start)
                ==> buf[b', ch', i] == old(buf[b', ch', i])
    {
      var n := 0;
      while n < endFrame - start
        invariant 0 <= n <= endFrame - start
        invariant forall i :: 0 <= i < n ==> buf[b, ch, i] == file[ch][start + i]
        invariant forall b', ch', i :: 0 <= b' < 2 && 0 <= ch' < |file| && 0 <= i < BUFFER_LEN &&
                    (b' != b || ch' != ch || i >= n)
                    ==> buf[b', ch', i] == old(buf[b', ch', i])
      {
        buf[b, ch, n] := file[ch][start + n];
        n := n + 1;
      }
    }

    /** The zero-padding loop of fillBuffer(): the last numFramesToPad frames
        of channel ch of buffer b become silence; no other cell changes. */
    method ZeroPad(b: int, ch: int, numFramesToPad: int)
      requires Shaped()
      requires 0 <= b < 2 && 0 <= ch < |file| && 0 <= numFramesToPad <= BUFFER_LEN
      modifies buf
      ensures forall i :: BUFFER_LEN - numFramesToPad <= i < BUFFER_LEN ==> buf[b, ch, i] == SILENCE
      ensures forall b', ch', i :: 0 <= b' < 2 && 0 <= ch' < |file| && 0 <= i < BUFFER_LEN &&
                (b' != b || ch' != ch || i < BUFFER_LEN - numFramesToPad)
                ==> buf[b', ch', i] == old(buf[b', ch', i])
    {
      var n := 0;
      while n < numFramesToPad
        invariant 0 <= n <= numFramesToPad
        invariant forall i :: BUFFER_LEN - numFramesToPad <= i < BUFFER_LEN - numFramesToPad + n ==>
                    buf[b, ch, i] == SILENCE
        invariant forall b', ch', i :: 0 <= b' < 2 && 0 <= ch' < |file| && 0 <= i < BUFFER_LEN &&
                    (b' != b || ch' != ch || i < BUFFER_LEN - numFramesToPad ||
                     i >= BUFFER_LEN - numFramesToPad + n)
                    ==> buf[b', ch', i] == old(buf[b', ch', i])
      {
        buf[b, ch, n + (BUFFER_LEN - numFramesToPad)] := SILENCE;
        n := n + 1;
      }
    }

    /** The channel loop of fillBuffer(): every channel of buffer b receives
        the chunk at `start` (its frames from the file, then silence for a
        padded chunk); the other buffer is unchanged. */
    method LoadChunk(b: int, start: int, endFrame: int, zeroPad: bool)
      requires Shaped() && 0 <= b < 2 && 0 <= start < numFrames
      requires Chunk(start, endFrame, zeroPad) == ChunkAt(start, numFrames)
      modifies buf
      ensures forall ch, i :: 0 <= ch < |file| && 0 <= i < BUFFER_LEN ==>
                buf[b, ch, i] == ChunkSample(file, ChunkAt(start, numFrames), ch, i)
      ensures forall ch, i :: 0 <= ch < |file| && 0 <= i < BUFFER_LEN ==>
                buf[Toggle(b), ch, i] == old(buf[Toggle(b), ch, i])
    {
      ghost var c := Chunk(start, endFrame, zeroPad);
      ChunkTiles(c, numFrames);
      var ch := 0;
      while ch < buf.Length1
        invariant 0 <= ch <= |file|
        invariant forall c', i :: 0 <= c' < ch && 0 <= i < BUFFER_LEN ==>
                    buf[b, c', i] == ChunkSample(file, c, c', i)
        invariant forall b', c', i :: 0 <= b' < 2 && ch <= c' < |file| && 0 <= i < BUFFER_LEN ==>
                    buf[b', c', i] == old(buf[b', c', i])
        invariant forall c', i :: 0 <= c' < |file| && 0 <= i < BUFFER_LEN ==>
                    buf[Toggle(b), c', i] == old(buf[Toggle(b), c', i])
      {
        GetSamples(b, ch, start, endFrame);
        if zeroPad {
          var numFramesToPad := BUFFER_LEN - (endFrame - start);
          ZeroPad(b, ch, numFramesToPad);
        }
        ch := ch + 1;
      }
    }

    /** fillBuffer(), the refill task: advances the file cursor one buffer
        (wrapping to the start of the file), loads the chunk there into every
        channel of the inactive buffer, zero-padding a chunk cut short by the
        end of the file, and raises the done flag. The active buffer and the
        per-frame cursor are left as they were. */
    method FillBuffer()
      requires Valid()
      modifies this`bufferReadPtr, this`doneLoadingBuffer, this`loadedAt, buf
      ensures Valid()
      ensures loadedAt == old(loadedAt)[Toggle(activeBuffer) := bufferReadPtr]
      ensures bufferReadPtr == NextStart(old(bufferReadPtr), numFrames)
      ensures Head() == Step(old(Head()), Refilled)
      ensures forall ch, i :: 0 <= ch < |file| && 0 <= i < BUFFER_LEN ==>
                buf[activeBuffer, ch, i] == old(buf[activeBuffer, ch, i])
      ensures forall ch, i :: 0 <= ch < |file| && 0 <= i < BUFFER_LEN ==>
                buf[Toggle(activeBuffer), ch, i] ==
                ChunkSample(file, ChunkAt(bufferReadPtr, numFrames), ch, i)
    {
      bufferReadPtr := bufferReadPtr + BUFFER_LEN;
      if bufferReadPtr >= numFrames {
        bufferReadPtr := 0;
      }
      var endFrame := bufferReadPtr + BUFFER_LEN;
      var zeroPad := false;
      if bufferReadPtr + BUFFER_LEN >= numFrames - 1 {
        endFrame := numFrames - 1;
        zeroPad := true;
      }
      var inactive := Toggle(activeBuffer);
      assert Toggle(inactive) == activeBuffer;
      LoadChunk(inactive, bufferReadPtr, endFrame, zeroPad);
      doneLoadingBuffer := true;
      loadedAt := loadedAt[inactive := bufferReadPtr];
    }

    /** The streaming block at the top of each frame of render(): one step of
        the per-frame state machine. `swapped` is the refill request (the call
        that schedules the refill task) and `missed` the deadline-miss warning. */
    method AdvanceFrame() returns (swapped: bool, missed: bool)
      requires Valid()
      modifies this`readPtr, this`activeBuffer, this`doneLoadingBuffer
      ensures Valid() && readPtr < BUFFER_LEN
      ensures Head() == Advance(old(Head())).next
      ensures swapped == Advance(old(Head())).swapped
      ensures missed == Advance(old(Head())).missed
      ensures loadedAt == old(loadedAt)
      ensures swapped && !missed ==> loadedAt[activeBuffer] == bufferReadPtr
    {
      readPtr := readPtr + 1;
      swapped, missed := false, false;
      if readPtr >= BUFFER_LEN {
        missed := !doneLoadingBuffer;
        doneLoadingBuffer := false;
        readPtr := 0;
        activeBuffer := Toggle(activeBuffer);
        swapped := true;
      }
    }

    /** The input sample of output channel `channel`: frame readPtr of the
        chunk the active buffer holds, in the file channel the output channel
        wraps to; that is file frame loadedAt[activeBuffer] + readPtr, or
        silence in the padded tail of the last chunk. */
    function CurrentSample(channel: nat): (x: Sample)
      reads this, buf
      requires Valid() && readPtr < BUFFER_LEN
      ensures x == ChunkSample(file, ChunkAt(loadedAt[activeBuffer], numFrames), SourceChannel(channel, |file|), readPtr)
    {
      CellAt(buf, Head(), channel)
    }
  }

  /** `channel % numChannels`: the file channel an output channel plays. It is
      a valid channel, and the channel itself when the file has that many. */
  function SourceChannel(channel: nat, numChannels: nat): (r: nat)
    requires numChannels > 0
    ensures r < numChannels
    ensures channel < numChannels ==> r == channel
  {
    channel % numChannels
  }

  /** Output channels one file's width apart play the same file channel. */
  lemma SourceChannelPeriodic(channel: nat, numChannels: nat)
    requires numChannels > 0 && channel >= numChannels
    ensures SourceChannel(channel, numChannels) == SourceChannel(channel - numChannels, numChannels)
  {
    var q, r := (channel - numChannels) / numChannels, (channel - numChannels) % numChannels;
    assert channel - numChannels == q * numChannels + r;
    assert channel == (q + 1) * numChannels + r;
    ModUnique(channel, numChannels, q + 1, r);
  }

  /** The remainder is determined by any division with remainder. */
  lemma ModUnique(a: int, n: int, q: int, r: int)
    requires n > 0 && 0 <= r < n && a == q * n + r
    ensures a % n == r
  {
    var q', r' := a / n, a % n;
    assert (q' - q) * n == r - r';
    NoSmallMultiple(q' - q, n, r - r');
  }

  /** A multiple of n strictly between -n and n is 0. */
  lemma NoSmallMultiple(d: int, n: int, e: int)
    requires n > 0 && -n < e < n && d * n == e
    ensures d == 0
  {
    if d != 0 {
      var m := if d > 0 then d else -d;
      assert m * n == (if d > 0 then e else -e);
      AtLeastOnce(m, n);
    }
  }

  lemma AtLeastOnce(m: int, n: int)
    requires m >= 1 && n > 0
    ensures m * n >= n
  {
  }
}
