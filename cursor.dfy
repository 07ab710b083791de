/** The real-time half of the double-buffered streamer: the buffer-relative
    read pointer, the index of the active buffer and the "refill finished"
    flag, advanced once per audio frame by the render callback. */
module Cursor {
  import opened Config

  /** gReadPtr, gActiveBuffer and gDoneLoadingBuffer. */
  datatype Playhead = Playhead(readPtr: int, active: int, done: bool)

  /** The states the program can be in between two frames: the pointer is at
      most BUFFER_LEN (it is BUFFER_LEN only before the first frame) and the
      active buffer is 0 or 1. */
  predicate Valid(p: Playhead) {
    0 <= p.readPtr <= BUFFER_LEN && (p.active == 0 || p.active == 1)
  }

  /** The initial state: the pointer starts at BUFFER_LEN so that the very
      first frame swaps buffers and schedules the first refill. */
  const Start: Playhead := Playhead(BUFFER_LEN, 0, true)

  /** `!gActiveBuffer` on an int holding 0 or 1. */
  function Toggle(active: int): int {
    if active == 0 then 1 else 0
  }

  /** What one frame does: the new state, whether it swapped buffers (and so
      scheduled a refill), and whether it printed the deadline-miss warning. */
  datatype FrameStep = FrameStep(next: Playhead, swapped: bool, missed: bool)

  /** One frame of the streaming block of render(). */
  function Advance(p: Playhead): (s: FrameStep)
    ensures s.swapped <==> p.readPtr + 1 >= BUFFER_LEN
    ensures s.missed <==> s.swapped && !p.done
    ensures s.swapped ==> s.next.readPtr == 0 && !s.next.done && s.next.active != p.active
    ensures !s.swapped ==> s.next == p.(readPtr := p.readPtr + 1)
    ensures Valid(p) ==> Valid(s.next) && s.next.readPtr < BUFFER_LEN
  {
    var ptr := p.readPtr + 1;
    if ptr >= BUFFER_LEN then
      FrameStep(Playhead(0, Toggle(p.active), false), true, !p.done)
    else
      FrameStep(p.(readPtr := ptr), false, false)
  }

  /** What can happen between two observations of the streamer: the render
      callback processes a frame, or the refill task runs to completion
      (it ends by raising the done flag). */
  datatype Event = Frame | Refilled

  function Step(p: Playhead, e: Event): Playhead {
    match e
    case Frame => Advance(p).next
    case Refilled => p.(done := true)
  }

  /** The state after an interleaving of frames and completed refills. */
  function Run(p: Playhead, evs: seq<Event>): Playhead
    decreases |evs|
  {
    if evs == [] then p else Run(Step(p, evs[0]), evs[1..])
  }

  /** How many frames an interleaving processes. */
  function FrameCount(evs: seq<Event>): nat
    decreases |evs|
  {
    if evs == [] then 0 else (if evs[0] == Frame then 1 else 0) + FrameCount(evs[1..])
  }

  /** How many buffer swaps (and so refill requests) an interleaving causes. */
  function Swaps(p: Playhead, evs: seq<Event>): nat
    decreases |evs|
  {
    if evs == [] then 0
    else (if evs[0] == Frame && Advance(p).swapped then 1 else 0) + Swaps(Step(p, evs[0]), evs[1..])
  }

  /** How many deadline-miss warnings an interleaving prints. */
  function Misses(p: Playhead, evs: seq<Event>): nat
    decreases |evs|
  {
    if evs == [] then 0
    else (if evs[0] == Frame && Advance(p).missed then 1 else 0) + Misses(Step(p, evs[0]), evs[1..])
  }

  /** `k` frames with no refill in between. */
  function Frames(k: nat): (evs: seq<Event>)
    ensures |evs| == k && FrameCount(evs) == k
  {
    if k == 0 then [] else [Frame] + Frames(k - 1)
  }

  /** From any state inside a buffer, the read pointer after any interleaving
      depends only on the number of frames: it is the start position plus the
      frames, modulo BUFFER_LEN; and the swaps are exactly the times the
      pointer crossed a buffer boundary, one every BUFFER_LEN frames. */
  lemma {:induction false} RunPosition(p: Playhead, evs: seq<Event>)
    requires Valid(p) && p.readPtr < BUFFER_LEN
    ensures Valid(Run(p, evs))
    ensures Run(p, evs).readPtr == (p.readPtr + FrameCount(evs)) % BUFFER_LEN
    ensures Run(p, evs).active == if Swaps(p, evs) % 2 == 0 then p.active else Toggle(p.active)
    ensures Swaps(p, evs) == (p.readPtr + FrameCount(evs)) / BUFFER_LEN
    decreases |evs|
  {
    if evs != [] {
      var q := Step(p, evs[0]);
      RunPosition(q, evs[1..]);
      var f := FrameCount(evs[1..]);
      if evs[0] == Frame && p.readPtr + 1 == BUFFER_LEN {
        assert (BUFFER_LEN + f) % BUFFER_LEN == f % BUFFER_LEN;
        assert (BUFFER_LEN + f) / BUFFER_LEN == 1 + f / BUFFER_LEN;
      }
    }
  }

  /** Starting from the initial state, the first frame swaps at once (without
      a warning, since the done flag starts raised), and from then on a swap
      happens once every BUFFER_LEN frames. */
  lemma {:induction false} SwapsFromStart(evs: seq<Event>)
    requires FrameCount(evs) > 0
    ensures Swaps(Start, evs) == 1 + (FrameCount(evs) - 1) / BUFFER_LEN
    ensures Misses(Start, evs) <= Swaps(Start, evs) - 1
    ensures Run(Start, evs).readPtr == (FrameCount(evs) - 1) % BUFFER_LEN
    decreases |evs|
  {
    if evs[0] == Refilled {
      assert Step(Start, evs[0]) == Start;
      SwapsFromStart(evs[1..]);
    } else {
      var q := Step(Start, evs[0]);
      assert q == Playhead(0, 1, false);
      assert !Advance(Start).missed;
      RunPosition(q, evs[1..]);
      MissesAtMostSwaps(q, evs[1..]);
    }
  }

  /** A warning is only ever printed at a swap. */
  lemma {:induction false} MissesAtMostSwaps(p: Playhead, evs: seq<Event>)
    ensures Misses(p, evs) <= Swaps(p, evs)
    decreases |evs|
  {
    if evs != [] {
      MissesAtMostSwaps(Step(p, evs[0]), evs[1..]);
    }
  }

  /** Between two swaps the done flag is raised exactly when a refill has
      completed (or it was already raised), and no frame warns. */
  lemma {:induction false} DoneIffRefilled(p: Playhead, evs: seq<Event>)
    requires Valid(p) && p.readPtr + FrameCount(evs) < BUFFER_LEN
    ensures Run(p, evs).done <==> p.done || Refilled in evs
    ensures Run(p, evs).active == p.active
    ensures Swaps(p, evs) == 0 && Misses(p, evs) == 0
    decreases |evs|
  {
    if evs != [] {
      var q := Step(p, evs[0]);
      DoneIffRefilled(q, evs[1..]);
      assert Refilled in evs <==> evs[0] == Refilled || Refilled in evs[1..] by {
        assert evs == [evs[0]] + evs[1..];
      }
    }
  }

  /** The deadline: right after a swap the refill task has exactly one buffer
      of frames. The frame that ends the buffer swaps again, and it prints the
      warning if and only if no refill completed in the meantime. */
  lemma RefillDeadline(active: int, evs: seq<Event>)
    requires active == 0 || active == 1
    requires FrameCount(evs) == BUFFER_LEN - 1
    ensures Advance(Run(Playhead(0, active, false), evs)).swapped
    ensures Run(Playhead(0, active, false), evs).active == active
    ensures Advance(Run(Playhead(0, active, false), evs)).missed <==> Refilled !in evs
  {
    var p := Playhead(0, active, false);
    DoneIffRefilled(p, evs);
    RunPosition(p, evs);
  }

  /** Processing one more frame extends a run of frames by one step of the
      state machine, and adds that step's swap and warning to the counts. */
  lemma {:induction false} FramesSnoc(p: Playhead, k: nat)
    ensures Run(p, Frames(k + 1)) == Advance(Run(p, Frames(k))).next
    ensures Swaps(p, Frames(k + 1)) == Swaps(p, Frames(k)) + (if Advance(Run(p, Frames(k))).swapped then 1 else 0)
    ensures Misses(p, Frames(k + 1)) == Misses(p, Frames(k)) + (if Advance(Run(p, Frames(k))).missed then 1 else 0)
    ensures Valid(p) ==> Valid(Run(p, Frames(k)))
    decreases k
  {
    assert Frames(k + 1)[1..] == Frames(k);
    if k > 0 {
      assert Frames(k)[1..] == Frames(k - 1);
      FramesSnoc(Advance(p).next, k - 1);
    }
  }

  /** After n frames from p0 the state is p, with `swaps` buffer swaps and
      `misses` missed refills on the way. */
  ghost predicate Traced(p0: Playhead, p: Playhead, swaps: nat, misses: nat, n: nat) {
    p == Run(p0, Frames(n)) && swaps == Swaps(p0, Frames(n)) && misses == Misses(p0, Frames(n))
  }

  /** One more frame extends a trace by one Advance, counting its swap and
      its missed refill. */
  lemma TracedStep(p0: Playhead, p: Playhead, swaps: nat, misses: nat, n: nat)
    requires Traced(p0, p, swaps, misses, n)
    ensures Traced(p0, Advance(p).next, swaps + (if Advance(p).swapped then 1 else 0),
                   misses + (if Advance(p).missed then 1 else 0), n + 1)
  {
    FramesSnoc(p0, n);
  }

  /** The state in which frame `n` of a run that starts in p0 reads its input:
      after the advance at the top of that frame. */
  function HeadAt(p0: Playhead, n: nat): (p: Playhead)
    requires Valid(p0)
    ensures Valid(p) && p.readPtr < BUFFER_LEN
  {
    FramesSnoc(p0, n);
    Run(p0, Frames(n + 1))
  }
}
