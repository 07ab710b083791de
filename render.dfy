/** The Bela callbacks: setup() admits the file and allocates the state,
    render() runs one block of frames through the streamer, the per-channel
    processor chain and the capture, and cleanup() truncates the capture. */
module Render {
  import opened Config
  import opened Cursor
  import opened Streaming
  import opened Capture
  import opened Diagnostics

  /** Why setup() returns false. */
  datatype SetupError =
    | TaskNotCreated   // the fill-buffer auxiliary task could not be created
    | NoFrames         // the file reports no frames (or could not be read)
    | FileTooShort     // the file is not longer than one streaming buffer

  datatype Admission = Admitted | Rejected(error: SetupError)

  /** The checks setup() makes before it streams from a file, in their order. */
  function Admit(taskCreated: bool, numFrames: int): (a: Admission)
    ensures a == Admitted <==> taskCreated && numFrames > BUFFER_LEN
    ensures a == Rejected(TaskNotCreated) <==> !taskCreated
    ensures a == Rejected(NoFrames) <==> taskCreated && numFrames <= 0
    ensures a == Rejected(FileTooShort) <==> taskCreated && 0 < numFrames <= BUFFER_LEN
  {
    if !taskCreated then Rejected(TaskNotCreated)
    else if numFrames <= 0 then Rejected(NoFrames)
    else if numFrames <= BUFFER_LEN then Rejected(FileTooShort)
    else Admitted
  }

  /** The frames of capture a run is given when it does not stream from a
      file: twenty seconds at the sample rate. */
  const CAPTURE_SECONDS: nat := 20

  /** A channel's pitch detector, envelope follower, oscillator and mixer,
      seen from outside: the output sample of channel c at its k-th step for
      dry input x. */
  type Chain = (nat, nat, Sample) -> Sample

  /** The streamer state a frame can read from: inside a buffer of the right
      shape. */
  predicate Playable(s: Streamer, p: Playhead) {
    Cursor.Valid(p) && p.readPtr < BUFFER_LEN &&
    s.buf.Length0 == 2 && s.buf.Length1 > 0 && s.buf.Length2 == BUFFER_LEN
  }

  /** The dry input of output channel c in frame n: the streamed sample in
      state `head` when playing from a file, the live input otherwise. */
  function DryAt(streamer: Streamer?, input: array2<Sample>, head: Playhead, n: nat, c: nat): Sample
    reads (if streamer != null then {streamer.buf} else {}), input
    requires streamer != null ==> Playable(streamer, head)
    requires streamer == null ==> n < input.Length0 && c < input.Length1
  {
    if streamer != null then CellAt(streamer.buf, head, c) else input[n, c]
  }

  /** The contents of a two-dimensional array, row by row. */
  ghost function Grid(a: array2<Sample>): (g: seq<seq<Sample>>)
    reads a
    ensures |g| == a.Length0
    ensures forall i :: 0 <= i < a.Length0 ==> |g[i]| == a.Length1
    ensures forall i, j :: 0 <= i < a.Length0 && 0 <= j < a.Length1 ==> g[i][j] == a[i, j]
  {
    seq(a.Length0, (i: int) requires 0 <= i < a.Length0 reads a =>
      seq(a.Length1, (j: int) requires 0 <= j < a.Length1 reads a => a[i, j]))
  }

  /** The shapes a block of render() works on: a valid start state, a step
      count and an original sample for every output cell, a streamer with two
      buffers of BUFFER_LEN frames, or a live input as large as the output. */
  ghost predicate BlockShape(streamer: Streamer?, input: array2<Sample>, audioOut: array2<Sample>,
                             p0: Playhead, s0: seq<nat>, out0: seq<seq<Sample>>)
  {
    Cursor.Valid(p0) && audioOut.Length1 <= |s0| && |out0| == audioOut.Length0 &&
    (forall m :: 0 <= m < |out0| ==> |out0[m]| == audioOut.Length1) &&
    (streamer != null ==>
       streamer.buf.Length0 == 2 && streamer.buf.Length1 > 0 && streamer.buf.Length2 == BUFFER_LEN) &&
    (streamer == null ==> audioOut.Length0 <= input.Length0 && audioOut.Length1 <= input.Length1)
  }

  /** The audio output after the first n frames of a block: frame m, channel c
      holds the chain's (s0[c] + m)-th output for the dry sample of frame m,
      and the frames from n on still hold out0. */
  ghost predicate OutputsWritten(streamer: Streamer?, chain: Chain, input: array2<Sample>, audioOut: array2<Sample>,
                                 p0: Playhead, s0: seq<nat>, out0: seq<seq<Sample>>, n: nat)
    reads (if streamer != null then {streamer.buf} else {}), input, audioOut
    requires BlockShape(streamer, input, audioOut, p0, s0, out0)
  {
    n <= audioOut.Length0 &&
    (forall m, c :: 0 <= m < n && 0 <= c < audioOut.Length1 ==>
       audioOut[m, c] == chain(c, s0[c] + m, DryAt(streamer, input, HeadAt(p0, m), m, c))) &&
    (forall m, c :: n <= m < audioOut.Length0 && 0 <= c < audioOut.Length1 ==>
       audioOut[m, c] == out0[m][c])
  }

  /** A snapshot of the capture rows. */
  ghost predicate CaptureShape(recorder: Recorder, cap0: seq<seq<Sample>>) {
    |cap0| == recorder.outputs.Length0 &&
    forall c :: 0 <= c < |cap0| ==> |cap0[c]| == recorder.Capacity()
  }

  /** The capture after the first n frames of a block that started at cursor
      w0: row c at w0 + m holds output channel c of frame m, and every other
      cell still holds cap0. */
  ghost predicate CaptureWritten(recorder: Recorder, audioOut: array2<Sample>, w0: nat,
                                 cap0: seq<seq<Sample>>, n: nat)
    reads recorder.outputs, audioOut
    requires CaptureShape(recorder, cap0)
  {
    n <= audioOut.Length0 && w0 + n <= recorder.Capacity() &&
    audioOut.Length1 <= recorder.outputs.Length0 &&
    (forall m, c :: 0 <= m < n && 0 <= c < audioOut.Length1 ==>
       recorder.outputs[c, w0 + m] == audioOut[m, c]) &&
    (forall c, i :: 0 <= c < recorder.outputs.Length0 && 0 <= i < recorder.Capacity() &&
       (c >= audioOut.Length1 || i < w0 || i >= w0 + n)
       ==> recorder.outputs[c, i] == cap0[c][i])
  }

  /** The streamer after the first n frames of a block that started in
      state p0 with the refill cursor at bp0: its cursor state is n frames on,
      refills and warnings count the swaps and missed refills on the way, and
      the refill cursor has not moved. Without a streamer both counts are 0. */
  ghost predicate PlayState(streamer: Streamer?, p0: Playhead, bp0: int, refills: nat, warnings: nat, n: nat)
    reads streamer
  {
    if streamer != null then
      Traced(p0, streamer.Head(), refills, warnings, n) && streamer.bufferReadPtr == bp0
    else
      refills == 0 && warnings == 0
  }

  /** The step counts after the first n frames of a block: each of the first
      outChannels channels advanced by n, the others untouched. */
  ghost predicate StepsAt(steps: array<nat>, s0: seq<nat>, outChannels: nat, n: nat)
    reads steps
  {
    |s0| == steps.Length && outChannels <= steps.Length &&
    (forall c :: 0 <= c < outChannels ==> steps[c] == s0[c] + n) &&
    (forall c :: outChannels <= c < steps.Length ==> steps[c] == s0[c])
  }

  /** The recorder after the first n frames of a block: its cursor n frames on
      from w0 and its rows as CaptureWritten says. */
  ghost predicate RecordState(recorder: Recorder, input: array2<Sample>, audioOut: array2<Sample>,
                              w0: nat, cap0: seq<seq<Sample>>, n: nat)
    reads recorder, recorder.outputs, audioOut
  {
    recorder.writtenFrames == w0 + n &&
    recorder.outputs != audioOut && recorder.outputs != input &&
    CaptureShape(recorder, cap0) && CaptureWritten(recorder, audioOut, w0, cap0, n)
  }

  /** The render half of the state after the first n frames of a block. */
  ghost predicate Rendered(streamer: Streamer?, steps: array<nat>, chain: Chain, input: array2<Sample>,
                           audioOut: array2<Sample>, p0: Playhead, s0: seq<nat>, out0: seq<seq<Sample>>,
                           bp0: int, refills: nat, warnings: nat, n: nat)
    reads streamer, (if streamer != null then {streamer.buf} else {}), steps, input, audioOut
  {
    BlockShape(streamer, input, audioOut, p0, s0, out0) &&
    PlayState(streamer, p0, bp0, refills, warnings, n) &&
    StepsAt(steps, s0, audioOut.Length1, n) &&
    OutputsWritten(streamer, chain, input, audioOut, p0, s0, out0, n)
  }

  class Patch {
    /** The file streamer, present when playing from a file (INPUT_PLAYBACK). */
    const streamer: Streamer?
    /** The capture, present when writing the output to a file (OUTPUT_WRITE). */
    const recorder: Recorder?
    /** context->audioInChannels: one processor chain per input channel. */
    const inChannels: nat
    /** How many samples each channel's processor chain has consumed: the
        state of pds[c], envs[c] and oscs[c]. */
    const steps: array<nat>
    /** The static block counter of the diagnostic report. */
    var count: int

    ghost predicate Valid()
      reads streamer, recorder, (if streamer != null then {streamer.buf} else {})
    {
      steps.Length == inChannels &&
      (streamer != null ==> streamer.Valid()) &&
      (recorder != null ==> recorder.Valid() && recorder.outputs.Length0 == inChannels)
    }

    /** The frames a block processes: all of them, unless the capture fills
        up first, in which case the frame that fills it is the last. */
    function Processed(frames: nat): (k: nat)
      reads streamer, recorder, (if streamer != null then {streamer.buf} else {})
      requires Valid()
      ensures k <= frames
      ensures recorder != null ==> recorder.writtenFrames + k <= recorder.Capacity()
    {
      if recorder == null then frames
      else if recorder.writtenFrames + frames <= recorder.Capacity() then frames
      else recorder.Capacity() - recorder.writtenFrames
    }

    constructor (streamer: Streamer?, recorder: Recorder?, inChannels: nat)
      requires streamer != null ==> streamer.Valid()
      requires recorder != null ==> recorder.Valid() && recorder.outputs.Length0 == inChannels
      ensures Valid() && fresh(steps)
      ensures this.streamer == streamer && this.recorder == recorder && this.inChannels == inChannels
      ensures count == 0 && forall c :: 0 <= c < inChannels ==> steps[c] == 0
    {
      this.streamer := streamer;
      this.recorder := recorder;
      this.inChannels := inChannels;
      steps := new nat[inChannels](_ => 0);
      count := 0;
    }

    /** One frame of render() up to the capture: the streamer advances
        (possibly swapping and requesting a refill), then every output
        channel in order reads its dry sample, steps its processor chain
        once and writes the result to audio output frame n. */
    method RenderFrame(chain: Chain, input: array2<Sample>, audioOut: array2<Sample>, n: nat)
      returns (swapped: bool, missed: bool)
      requires Valid()
      requires n < audioOut.Length0 && audioOut.Length1 <= inChannels
      requires streamer == null ==> n < input.Length0 && audioOut.Length1 <= input.Length1
      requires input != audioOut
      modifies steps, audioOut, streamer
      ensures Valid()
      ensures streamer != null ==>
                streamer.Head() == Advance(old(streamer.Head())).next &&
                swapped == Advance(old(streamer.Head())).swapped &&
                missed == Advance(old(streamer.Head())).missed &&
                streamer.bufferReadPtr == old(streamer.bufferReadPtr) &&
                streamer.loadedAt == old(streamer.loadedAt)
      ensures streamer != null && swapped && !missed ==>
                streamer.loadedAt[streamer.activeBuffer] == streamer.bufferReadPtr
      ensures streamer == null ==> !swapped && !missed
      ensures forall c :: 0 <= c < audioOut.Length1 ==> steps[c] == old(steps[c]) + 1
      ensures forall c :: audioOut.Length1 <= c < inChannels ==> steps[c] == old(steps[c])
      ensures forall c :: 0 <= c < audioOut.Length1 ==>
                audioOut[n, c] == chain(c, old(steps[c]), DryAt(streamer, input, HeadOrStart(), n, c))
      ensures forall m, c :: 0 <= m < audioOut.Length0 && 0 <= c < audioOut.Length1 && m != n ==>
                audioOut[m, c] == old(audioOut[m, c])
    {
      swapped, missed := false, false;
      if streamer != null {
        swapped, missed := streamer.AdvanceFrame();
      }
      ghost var head := HeadOrStart();
      var channel := 0;
      while channel < audioOut.Length1
        modifies steps, audioOut
        invariant 0 <= channel <= audioOut.Length1
        invariant forall c :: 0 <= c < channel ==> steps[c] == old(steps[c]) + 1
        invariant forall c :: channel <= c < inChannels ==> steps[c] == old(steps[c])
        invariant forall c :: 0 <= c < channel ==>
                    audioOut[n, c] == chain(c, old(steps[c]), DryAt(streamer, input, head, n, c))
        invariant forall m, c :: 0 <= m < audioOut.Length0 && 0 <= c < audioOut.Length1 &&
                    (m != n || c >= channel)
                    ==> audioOut[m, c] == old(audioOut[m, c])
      {
        var dry := if streamer != null then streamer.CurrentSample(channel) else input[n, channel];
        assert dry == DryAt(streamer, input, head, n, channel);
        var out := chain(channel, steps[channel], dry);
        steps[channel] := steps[channel] + 1;
        audioOut[n, channel] := out;
        channel := channel + 1;
      }
    }

    /** The diagnostic block counter: `count++ == 1000` decides whether this
        block prints the frequency report, which then resets the counter. */
    method TickCounter() returns (report: bool)
      modifies this`count
      ensures report == Tally(old(count)).report && count == Tally(old(count)).next
    {
      report := count == REPORT_AT;
      count := count + 1;
      if report {
        count := 0;
      }
    }

    /** The streamer state, or the initial state when there is no streamer
        (the dry input then does not depend on it). */
    function HeadOrStart(): (p: Playhead)
      reads streamer, recorder, (if streamer != null then {streamer.buf} else {})
      requires Valid()
      ensures Cursor.Valid(p)
    {
      if streamer != null then streamer.Head() else Start
    }

    /** The render half of frame n of a block, as a step from the state
        after n frames to the state after n + 1: RenderFrame, with the swap
        and missed-refill counts carried along. p0, s0, out0, bp0, w0 and cap0
        are the cursor state, step counts, audio output, refill cursor,
        capture cursor and capture rows at the start of the block. */
    method RenderStep(chain: Chain, input: array2<Sample>, audioOut: array2<Sample>, n: nat,
                      refills: nat, warnings: nat,
                      ghost p0: Playhead, ghost s0: seq<nat>, ghost out0: seq<seq<Sample>>,
                      ghost bp0: int, ghost w0: nat, ghost cap0: seq<seq<Sample>>)
      returns (refills': nat, warnings': nat)
      requires Valid()
      requires n < audioOut.Length0 && audioOut.Length1 <= inChannels && input != audioOut
      requires Rendered(streamer, steps, chain, input, audioOut, p0, s0, out0, bp0, refills, warnings, n)
      requires recorder != null ==> RecordState(recorder, input, audioOut, w0, cap0, n)
      modifies steps, audioOut, streamer
      ensures Valid()
      ensures Rendered(streamer, steps, chain, input, audioOut, p0, s0, out0, bp0, refills', warnings', n + 1)
      ensures recorder != null ==> RecordState(recorder, input, audioOut, w0, cap0, n)
      ensures streamer != null ==> streamer.loadedAt == old(streamer.loadedAt)
    {
      if streamer != null {
        TracedStep(p0, streamer.Head(), refills, warnings, n);
      }
      FramesSnoc(p0, n);
      var swapped, missed := RenderFrame(chain, input, audioOut, n);
      refills', warnings' := refills, warnings;
      if swapped {
        refills' := refills' + 1;
      }
      if missed {
        warnings' := warnings' + 1;
      }
    }

    /** The capture half of frame n of a block (render.cpp stores each output
        sample as it is computed; here the frame's samples are stored once the
        frame is complete, which leaves the same rows): the recorder moves
        from its state after n frames to its state after n + 1, and full says
        whether the capture is now complete. */
    method CaptureStep(chain: Chain, input: array2<Sample>, audioOut: array2<Sample>, n: nat,
                       refills: nat, warnings: nat,
                       ghost p0: Playhead, ghost s0: seq<nat>, ghost out0: seq<seq<Sample>>,
                       ghost bp0: int, ghost w0: nat, ghost cap0: seq<seq<Sample>>)
      returns (full: bool)
      requires Valid() && recorder != null
      requires n < audioOut.Length0 && audioOut.Length1 <= inChannels
      requires w0 + n < recorder.Capacity()
      requires Rendered(streamer, steps, chain, input, audioOut, p0, s0, out0, bp0, refills, warnings, n + 1)
      requires RecordState(recorder, input, audioOut, w0, cap0, n)
      modifies recorder, recorder.outputs
      ensures Valid()
      ensures Rendered(streamer, steps, chain, input, audioOut, p0, s0, out0, bp0, refills, warnings, n + 1)
      ensures RecordState(recorder, input, audioOut, w0, cap0, n + 1)
      ensures full <==> w0 + n + 1 == recorder.Capacity()
    {
      assert recorder.outputs != audioOut && recorder.outputs != input;
      full := recorder.CaptureFrame(audioOut, n);
    }

    /** Frame n of a block: the render half, then, with a capture, the
        capture half; full says whether this frame completed the capture. */
    method ProcessFrame(chain: Chain, input: array2<Sample>, audioOut: array2<Sample>, n: nat,
                        refills: nat, warnings: nat,
                        ghost p0: Playhead, ghost s0: seq<nat>, ghost out0: seq<seq<Sample>>,
                        ghost bp0: int, ghost w0: nat, ghost cap0: seq<seq<Sample>>)
      returns (refills': nat, warnings': nat, full: bool)
      requires Valid()
      requires n < audioOut.Length0 && audioOut.Length1 <= inChannels && input != audioOut
      requires recorder != null ==> w0 + n < recorder.Capacity()
      requires Rendered(streamer, steps, chain, input, audioOut, p0, s0, out0, bp0, refills, warnings, n)
      requires recorder != null ==> RecordState(recorder, input, audioOut, w0, cap0, n)
      modifies steps, audioOut, streamer
      modifies if recorder != null then {recorder, recorder.outputs} else {}
      ensures Valid()
      ensures Rendered(streamer, steps, chain, input, audioOut, p0, s0, out0, bp0, refills', warnings', n + 1)
      ensures recorder != null ==> RecordState(recorder, input, audioOut, w0, cap0, n + 1)
      ensures recorder != null ==> (full <==> w0 + n + 1 == recorder.Capacity())
      ensures recorder == null ==> !full
      ensures streamer != null ==> streamer.loadedAt == old(streamer.loadedAt)
    {
      refills', warnings' := RenderStep(chain, input, audioOut, n, refills, warnings, p0, s0, out0, bp0, w0, cap0);
      full := false;
      if recorder != null {
        full := CaptureStep(chain, input, audioOut, n, refills', warnings', p0, s0, out0, bp0, w0, cap0);
      }
    }

    /** The frame loop of render(), from the state p0, s0, out0, bp0, w0,
        cap0 at the start of the block: k = Processed(audioOut.Length0)
        frames are processed, and stop says whether the capture filled. */
    method RenderBlock(chain: Chain, input: array2<Sample>, audioOut: array2<Sample>,
                       ghost p0: Playhead, ghost s0: seq<nat>, ghost out0: seq<seq<Sample>>,
                       ghost bp0: int, ghost w0: nat, ghost cap0: seq<seq<Sample>>, ghost k: nat)
      returns (stop: bool, refills: nat, warnings: nat)
      requires Valid()
      requires audioOut.Length1 <= inChannels && input != audioOut
      requires k == Processed(audioOut.Length0)
      requires recorder != null ==> w0 < recorder.Capacity()
      requires Rendered(streamer, steps, chain, input, audioOut, p0, s0, out0, bp0, 0, 0, 0)
      requires recorder != null ==> RecordState(recorder, input, audioOut, w0, cap0, 0)
      modifies steps, audioOut, streamer
      modifies if recorder != null then {recorder, recorder.outputs} else {}
      ensures Valid()
      ensures Rendered(streamer, steps, chain, input, audioOut, p0, s0, out0, bp0, refills, warnings, k)
      ensures recorder != null ==> RecordState(recorder, input, audioOut, w0, cap0, k)
      ensures recorder != null ==> (stop <==> w0 + k == recorder.Capacity())
      ensures recorder == null ==> !stop
      ensures streamer != null ==> streamer.loadedAt == old(streamer.loadedAt)
    {
      stop, refills, warnings := false, 0, 0;
      var n := 0;
      while n < audioOut.Length0 && !stop
        invariant 0 <= n <= k
        invariant Valid()
        invariant Rendered(streamer, steps, chain, input, audioOut, p0, s0, out0, bp0, refills, warnings, n)
        invariant recorder != null ==> RecordState(recorder, input, audioOut, w0, cap0, n)
        invariant recorder != null ==> (stop <==> w0 + n == recorder.Capacity())
        invariant recorder == null ==> !stop
        invariant streamer != null ==> streamer.loadedAt == old(streamer.loadedAt)
      {
        refills, warnings, stop := ProcessFrame(chain, input, audioOut, n, refills, warnings, p0, s0, out0, bp0, w0, cap0);
        n := n + 1;
      }
      assert n == k;
    }

    /** render(): one block of audioOut.Length0 frames. Frame m of the block
        reads the streamer in the state after m + 1 advances, feeds channel c
        of the chain its (steps + m)-th sample, and writes channel c of audio
        output frame m and of capture frame writtenFrames + m. When the
        capture fills up, the host is asked to stop and the rest of the block
        (and the diagnostic counter) is skipped; otherwise the counter ticks
        and `report` says whether this block prints the diagnostic line.
        `refills` counts the refill requests and `warnings` the
        deadline-miss warnings of the block. */
    method Render(chain: Chain, input: array2<Sample>, audioOut: array2<Sample>)
      returns (stop: bool, refills: nat, warnings: nat, report: bool)
      requires Valid()
      requires audioOut.Length1 <= inChannels
      requires streamer == null ==> audioOut.Length0 <= input.Length0 && audioOut.Length1 <= input.Length1
      requires input != audioOut
      requires recorder != null ==>
                 recorder.writtenFrames < recorder.Capacity() &&
                 recorder.outputs != audioOut && recorder.outputs != input
      modifies this`count, steps, audioOut, streamer
      modifies if recorder != null then {recorder, recorder.outputs} else {}
      ensures Valid()
      ensures stop <==> recorder != null && old(recorder.writtenFrames) + audioOut.Length0 >= recorder.Capacity()
      ensures BlockShape(streamer, input, audioOut, old(HeadOrStart()), old(steps[..]), old(Grid(audioOut)))
      ensures PlayState(streamer, old(HeadOrStart()), old(if streamer != null then streamer.bufferReadPtr else 0),
                        refills, warnings, old(Processed(audioOut.Length0)))
      ensures StepsAt(steps, old(steps[..]), audioOut.Length1, old(Processed(audioOut.Length0)))
      ensures OutputsWritten(streamer, chain, input, audioOut, old(HeadOrStart()), old(steps[..]),
                             old(Grid(audioOut)), old(Processed(audioOut.Length0)))
      ensures recorder != null ==>
                RecordState(recorder, input, audioOut, old(recorder.writtenFrames),
                            old(Grid(recorder.outputs)), old(Processed(audioOut.Length0)))
      ensures streamer != null ==> streamer.loadedAt == old(streamer.loadedAt)
      ensures stop ==> count == old(count) && !report
      ensures !stop ==> report == Tally(old(count)).report && count == Tally(old(count)).next
    {
      ghost var p0 := HeadOrStart();
      ghost var s0 := steps[..];
      ghost var out0 := Grid(audioOut);
      ghost var bp0 := if streamer != null then streamer.bufferReadPtr else 0;
      ghost var w0 := if recorder != null then recorder.writtenFrames else 0;
      ghost var cap0 := if recorder != null then Grid(recorder.outputs) else [];
      ghost var k := Processed(audioOut.Length0);
      stop, refills, warnings := RenderBlock(chain, input, audioOut, p0, s0, out0, bp0, w0, cap0, k);
      report := false;
      // The frame that fills the capture returns from render() at once.
      if !stop {
        report := TickCounter();
      }
    }
  }

  /** setup(): when streaming from a file, reject it unless the refill task
      exists and the file is longer than one buffer; then allocate the
      streamer (both buffers holding the first chunk), one processor chain
      per input channel and, when capturing, one capture row per input
      channel sized to the file (or to twenty seconds of live input). */
  method Setup(playback: bool, capture: bool, taskCreated: bool,
               file: seq<seq<Sample>>, numFrames: int, inChannels: nat, sampleRate: nat)
    returns (patch: Patch?)
    requires playback && numFrames > 0 ==>
               |file| > 0 && forall ch :: 0 <= ch < |file| ==> |file[ch]| == numFrames
    requires capture ==> inChannels > 0
    requires capture && !playback ==> sampleRate > 0
    ensures patch == null <==> playback && Admit(taskCreated, numFrames) != Admitted
    ensures patch != null ==>
              fresh(patch) && fresh(patch.steps) && patch.Valid() && patch.inChannels == inChannels && patch.count == 0 &&
              (forall c :: 0 <= c < inChannels ==> patch.steps[c] == 0) &&
              (patch.streamer != null <==> playback) && (patch.recorder != null <==> capture)
    ensures patch != null && patch.streamer != null ==>
              fresh(patch.streamer) && fresh(patch.streamer.buf) && patch.streamer.Head() == Start && patch.streamer.bufferReadPtr == 0 &&
              patch.streamer.file == file && patch.streamer.numFrames == numFrames &&
              patch.streamer.loadedAt == [0, 0] &&
              forall b, ch, i :: 0 <= b < 2 && 0 <= ch < |file| && 0 <= i < BUFFER_LEN ==>
                patch.streamer.buf[b, ch, i] == file[ch][i]
    ensures patch != null && patch.recorder != null ==>
              fresh(patch.recorder) && fresh(patch.recorder.outputs) && patch.recorder.writtenFrames == 0 &&
              patch.recorder.outputs.Length0 == inChannels &&
              patch.recorder.Capacity() == (if playback then numFrames else CAPTURE_SECONDS * sampleRate) &&
              forall c, i :: 0 <= c < inChannels && 0 <= i < patch.recorder.Capacity() ==>
                patch.recorder.outputs[c, i] == SILENCE
  {
    var streamer: Streamer? := null;
    if playback {
      if Admit(taskCreated, numFrames) != Admitted {
        return null;
      }
      streamer := new Streamer(file, numFrames);
    }
    var recorder: Recorder? := null;
    if capture {
      var capacity := if playback then numFrames else CAPTURE_SECONDS * sampleRate;
      recorder := new Recorder(inChannels, capacity);
    }
    patch := new Patch(streamer, recorder, inChannels);
  }
}
