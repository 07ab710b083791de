/** The integer bookkeeping of fillBuffer(): where the next chunk of the file
    starts, where it ends, and how much of the buffer is zero-padded. */
module Chunks {
  import opened Config

  /** The file-relative cursor after a refill advanced it: one buffer further
      on, or back to the start of the file once that is past its last frame. */
  function NextStart(ptr: int, numFrames: int): (r: int)
    ensures r == 0 || r == ptr + BUFFER_LEN
    ensures 0 <= ptr ==> (r == ptr + BUFFER_LEN <==> ptr + BUFFER_LEN < numFrames)
    ensures 0 <= ptr < numFrames ==> 0 <= r < numFrames
  {
    var next := ptr + BUFFER_LEN;
    if next >= numFrames then 0 else next
  }

  /** A chunk to load: the file frames [start, endFrame) and whether the rest of
      the buffer is zero-padded. */
  datatype Chunk = Chunk(start: int, endFrame: int, zeroPad: bool)

  /** The chunk a refill loads once the cursor is at `start`: a full buffer,
      unless that reaches the last frame of the file, in which case the end is
      clamped to the last frame index and the remainder is padded. */
  function ChunkAt(start: int, numFrames: int): (c: Chunk)
    ensures c.start == start
    ensures c.zeroPad <==> start + BUFFER_LEN >= numFrames - 1
    ensures !c.zeroPad ==> c.endFrame == start + BUFFER_LEN
    ensures c.zeroPad ==> c.endFrame == numFrames - 1
    ensures 0 <= start < numFrames ==>
              start <= c.endFrame <= numFrames - 1 && c.endFrame - start <= BUFFER_LEN
  {
    if start + BUFFER_LEN >= numFrames - 1 then Chunk(start, numFrames - 1, true)
    else Chunk(start, start + BUFFER_LEN, false)
  }

  /** The number of frames of the chunk copied from the file. */
  function Loaded(c: Chunk): int {
    c.endFrame - c.start
  }

  /** numFramesToPad: how many frames at the end of the buffer are zeroed. */
  function PadCount(c: Chunk): int {
    BUFFER_LEN - (c.endFrame - c.start)
  }

  /** The chunks fillBuffer can compute: its cursor is always inside the file. */
  predicate Admissible(c: Chunk, numFrames: int) {
    0 <= c.start < numFrames && c == ChunkAt(c.start, numFrames)
  }

  /** Copied frames and padded frames tile the buffer exactly: the loaded part
      is [0, Loaded(c)), the padded part is [BUFFER_LEN - PadCount(c), BUFFER_LEN),
      both lie within [0, BUFFER_LEN), and a chunk that is not padded is a full
      buffer. */
  lemma ChunkTiles(c: Chunk, numFrames: int)
    requires Admissible(c, numFrames)
    ensures 0 <= Loaded(c) <= BUFFER_LEN
    ensures 0 <= PadCount(c) <= BUFFER_LEN
    ensures BUFFER_LEN - PadCount(c) == Loaded(c)
    ensures !c.zeroPad ==> Loaded(c) == BUFFER_LEN && c.endFrame < numFrames - 1
  {
  }

  /** The file frame that buffer index i of chunk c is copied from. */
  function FileIndex(c: Chunk, i: int): int {
    c.start + i
  }

  /** What index i of channel ch of the buffer holds after loading chunk c:
      the file frame start + i if it was copied, silence if it was padded. */
  function ChunkSample(file: seq<seq<Sample>>, c: Chunk, ch: int, i: int): Sample
    requires 0 <= ch < |file| && 0 <= c.start && c.endFrame <= |file[ch]|
  {
    if 0 <= i < Loaded(c) then file[ch][FileIndex(c, i)] else SILENCE
  }

  /** The endFrame clamp is to the last frame index, and the copied range stops
      before it: the last frame of the file never reaches a buffer, and a
      padded chunk pads one frame more than the frames left in the file. */
  lemma LastFrameNeverLoaded(c: Chunk, numFrames: int)
    requires Admissible(c, numFrames)
    ensures forall i :: 0 <= i < Loaded(c) ==> FileIndex(c, i) < numFrames - 1
    ensures c.zeroPad ==> PadCount(c) == BUFFER_LEN - (numFrames - c.start) + 1
  {
  }

  /** After a zero-padded chunk the next refill starts again at the beginning
      of the file, except when the chunk ended exactly one frame short of the
      end: then the next chunk starts at the last frame, copies nothing and is
      all silence, and it is the refill after that one which wraps. */
  lemma WrapAfterPad(start: int, numFrames: int)
    requires 0 <= start < numFrames && ChunkAt(start, numFrames).zeroPad
    ensures start + BUFFER_LEN != numFrames - 1 ==> NextStart(start, numFrames) == 0
    ensures start + BUFFER_LEN == numFrames - 1 ==>
              var s := NextStart(start, numFrames);
              s == numFrames - 1 && Loaded(ChunkAt(s, numFrames)) == 0 &&
              PadCount(ChunkAt(s, numFrames)) == BUFFER_LEN &&
              NextStart(s, numFrames) == 0
  {
  }

  /** The cursor after `k` refills starting from `ptr`. */
  function StartAfter(ptr: int, numFrames: int, k: nat): int
    decreases k
  {
    if k == 0 then ptr else StartAfter(NextStart(ptr, numFrames), numFrames, k - 1)
  }

  /** The number of distinct chunk starts in a file: ceil(numFrames / BUFFER_LEN). */
  function Passes(numFrames: int): int
    requires numFrames > 0
  {
    (numFrames + BUFFER_LEN - 1) / BUFFER_LEN
  }

  lemma {:induction false} StartAfterSplit(ptr: int, numFrames: int, a: nat, b: nat)
    ensures StartAfter(ptr, numFrames, a + b) == StartAfter(StartAfter(ptr, numFrames, a), numFrames, b)
    decreases a
  {
    if a > 0 {
      StartAfterSplit(NextStart(ptr, numFrames), numFrames, a - 1, b);
    }
  }

  lemma {:induction false} StartAfterBelowPasses(numFrames: int, k: nat)
    requires numFrames > 0 && k < Passes(numFrames)
    ensures StartAfter(0, numFrames, k) == k * BUFFER_LEN
    decreases k
  {
    if k > 0 {
      StartAfterBelowPasses(numFrames, k - 1);
      StartAfterSplit(0, numFrames, k - 1, 1);
    }
  }

  /** The file loops: starting from the beginning, the refills visit the chunk
      starts 0, BUFFER_LEN, 2 * BUFFER_LEN, ... in order while they lie inside
      the file, and after Passes(numFrames) refills the cursor is back at 0. */
  lemma FileLoops(numFrames: int, k: nat)
    requires numFrames > 0
    ensures k < Passes(numFrames) ==> StartAfter(0, numFrames, k) == k * BUFFER_LEN < numFrames
    ensures StartAfter(0, numFrames, Passes(numFrames)) == 0
    ensures StartAfter(0, numFrames, k + Passes(numFrames)) == StartAfter(0, numFrames, k)
  {
    var n := Passes(numFrames);
    if k < n {
      StartAfterBelowPasses(numFrames, k);
    }
    StartAfterBelowPasses(numFrames, n - 1);
    StartAfterSplit(0, numFrames, n - 1, 1);
    assert StartAfter(0, numFrames, n) == 0;
    StartAfterSplit(0, numFrames, n, k);
    StartAfterSplit(0, numFrames, k, n);
  }
}
