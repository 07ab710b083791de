# bela-q-pitch render callbacks in Dafny

`render.cpp` is a Bela patch. For each audio input channel it runs a pitch
detector, an envelope follower and a square-wave oscillator, and mixes the
synthesised tone with the dry input. Two compile-time modes change where
the samples come from and where they go:

- `INPUT_PLAYBACK` streams the input from a long audio file. It keeps two
  buffers of `BUFFER_LEN` (22050) frames per channel. The render callback
  plays one buffer while an auxiliary task (`fillBuffer`) refills the other.
- `OUTPUT_WRITE` records every output frame into pre-sized capture rows and
  stops the program once they are full. `cleanup` truncates the rows to the
  frames written.

This project models the integer and control logic of those callbacks:

- **Refill arithmetic.** How `fillBuffer` advances and wraps the file cursor,
  clamps the chunk end and zero-pads the tail (module `Chunks`). The refill
  itself is an imperative method on the streamer (module `Streaming`).
- **Per-frame state machine.** The read pointer, the active buffer and the
  "refill done" flag, advanced once per frame (module `Cursor`). A trace model
  interleaves frames with completed refills.
- **Capture.** The capture cursor and the capture rows, plus the truncation in
  `cleanup` (module `Capture`).
- **Setup admission.** The checks that reject a missing refill task, an empty
  file and a file no longer than one buffer (module `Render`).
- **Diagnostic counter.** The block counter that decides when the frequency
  report is printed (module `Diagnostics`).

`setup` and `render` are modelled as a `Patch` class (module `Render`), with
the streamer and the capture as optional objects: `null` means the mode is
compiled out.

The DSP chain of a channel is not modelled. `Chain` is an opaque function:
for a channel, a step index and a dry sample, it gives the output sample.
Each channel's step count stands in for the state of its processors. What
the model proves is which buffer cell or live input each dry sample is
read from, which step of which chain consumes it, and where its result
lands in the audio output and in the capture. The streamer's invariant
records which chunk of the file each buffer holds, so the buffer cell a
frame reads is tied to a frame of the file (`Streaming.Streamer.CurrentSample`).

Two behaviours of the code are easy to misread:

- **Zero padding.** The end of the last chunk is clamped to `numFrames - 1`
  and the copy is half-open. Padding therefore starts one frame earlier than
  "the frames left in the file" would suggest. The last frame of the file is
  never placed in a buffer (`Chunks.LastFrameNeverLoaded`).
- **Report interval.** The diagnostic line is printed when the
  post-incremented counter read 1000. That is once every 1001 blocks, not
  every 1000 (`Diagnostics.ReportSchedule`).

## Model

| member | source | states |
|---|---|---|
| Cursor.Advance | render.cpp:137-146 | one frame increments the read pointer; it swaps exactly when the pointer reaches `BUFFER_LEN`, and then resets it to 0, flips the active buffer and lowers the done flag; it warns exactly when it swaps while the previous refill is not done; a valid state stays valid, with the pointer inside the buffer |
| Cursor.RunPosition | render.cpp:138-143 | under any interleaving of frames and refills, the read pointer is the start position plus the frame count, modulo `BUFFER_LEN`; the number of swaps is that sum divided by `BUFFER_LEN`; the active buffer is flipped by the swap count's parity |
| Cursor.SwapsFromStart | render.cpp:38-46 | from the initial state (pointer at `BUFFER_LEN`, done flag raised), the first frame swaps without warning, and swaps then come one every `BUFFER_LEN` frames; warnings are at most the swaps after the first |
| Cursor.MissesAtMostSwaps | render.cpp:138-141 | the deadline-miss warning is only ever printed at a swap |
| Cursor.DoneIffRefilled | render.cpp:139-141 | between two swaps, the done flag is raised exactly when it already was or a refill completed; the active buffer is unchanged, and there are no swaps and no warnings |
| Cursor.RefillDeadline | render.cpp:138-144 | after a swap, the frame `BUFFER_LEN` frames later swaps again, with the same active buffer before it; that frame warns if and only if no refill completed in between |
| Chunks.NextStart | render.cpp:52-57 | the file cursor moves on by one buffer when that stays inside the file, and otherwise goes back to 0; it stays in `[0, numFrames)` |
| Chunks.ChunkAt | render.cpp:59-67 | the chunk is padded if and only if `start + BUFFER_LEN >= numFrames - 1`; a padded chunk ends at `numFrames - 1`, otherwise at `start + BUFFER_LEN`; the chunk lies inside the file and is at most one buffer long |
| Chunks.ChunkTiles | render.cpp:76-79 | the copied frames and the padded frames tile the buffer exactly, and a chunk that is not padded is a full buffer |
| Chunks.LastFrameNeverLoaded | render.cpp:62-73 | for every chunk the refill can compute, including the all-silent one at the last frame, every copied frame lies before the last frame of the file; a padded chunk pads one frame more than the frames left from its start |
| Chunks.WrapAfterPad | render.cpp:53-67 | after a padded chunk, the next refill wraps to 0, except when the chunk ended exactly one frame short; then the next chunk starts at the last frame, copies nothing, is all silence, and the refill after it wraps |
| Chunks.FileLoops | render.cpp:52-57 | from the start of the file, the refills visit 0, `BUFFER_LEN`, 2·`BUFFER_LEN`, … while inside the file, return to 0 after ceil(`numFrames`/`BUFFER_LEN`) refills, and repeat with that period |
| Streaming.Streamer.constructor | render.cpp:113-114 | both buffers hold the first `BUFFER_LEN` frames of every channel and are recorded as holding the chunk at 0; the cursors start at read pointer `BUFFER_LEN`, active buffer 0, done flag raised and file cursor 0 |
| Streaming.Streamer.GetSamples | render.cpp:72-73 | the file frames `[start, endFrame)` of one channel are copied to the front of that channel of one buffer, and no other cell changes |
| Streaming.Streamer.ZeroPad | render.cpp:76-80 | the last `numFramesToPad` frames of one channel of one buffer become silence, and no other cell changes |
| Streaming.Streamer.LoadChunk | render.cpp:69-81 | every channel of one buffer receives the chunk at the given cursor (its file frames, then silence for a padded chunk), and the other buffer is unchanged |
| Streaming.Streamer.FillBuffer | render.cpp:50-83 | the file cursor becomes `NextStart` of its old value; every channel of the inactive buffer holds the chunk at the new cursor (copied frames, then silence), and the inactive buffer is recorded as holding that chunk; the active buffer and the read pointer are unchanged; the done flag is raised; the streamer invariant (each buffer holds the chunk recorded for it) is kept |
| Streaming.Streamer.AdvanceFrame | render.cpp:138-146 | the streamer state takes one `Cursor.Advance` step; it returns the swap (the refill request) and the warning of that step; a swap without a warning makes the buffer holding the chunk at the file cursor the active one, so playback continues with the next chunk of the file |
| Streaming.Streamer.CurrentSample | render.cpp:149-152 | output channel `c` plays frame `readPtr` of the chunk held by the active buffer, in file channel `SourceChannel(c)`: the file frame at that chunk's start plus `readPtr`, or silence in the padded tail of the file's last chunk |
| Streaming.SourceChannel | render.cpp:150-152 | the wrapped channel is a channel of the file, and is the channel itself when the file has that many |
| Streaming.SourceChannelPeriodic | render.cpp:150-152 | output channels one file width apart play the same file channel |
| Capture.Recorder.constructor | render.cpp:121-126 | one silent row of the requested capacity per channel, nothing written yet |
| Capture.Recorder.Store | render.cpp:162-164 | one cell is written, at the capture cursor of the given channel, and no other cell changes |
| Capture.Recorder.CaptureFrame | render.cpp:162-173 | every output channel of frame `n` is recorded at the cursor, and no other cell changes; the cursor moves on by one; stop is requested exactly when the rows are full |
| Capture.Recorder.Cleanup | render.cpp:191-193 | every row is cut to exactly the frames written, with their contents unchanged |
| Diagnostics.Tally | render.cpp:177-186 | a block reports exactly when the counter held 1000; the counter then resets to 0, otherwise it is incremented |
| Diagnostics.ReportSchedule | render.cpp:177-186 | after `k` blocks the counter is `k` mod 1001, and block `k` reports exactly when `k` mod 1001 is 1000 |
| Render.Admit | render.cpp:97-108 | admitted exactly when the refill task exists and the file is longer than `BUFFER_LEN`; otherwise the first failed check is reported, in the order task, then no frames, then too short |
| Render.Setup | render.cpp:95-130 | returns no patch exactly when streaming and a check fails; otherwise, streaming creates a fresh streamer, with fresh buffers, in its initial state with both buffers holding frames `[0, BUFFER_LEN)` of every channel; every chain is at step 0, with one per input channel, in a fresh step array; capturing creates fresh, silent capture rows, one per input channel, sized to the file, or to 20 seconds at the sample rate without a file |
| Render.Patch.constructor | render.cpp:116-120 | one processor chain per input channel, every chain at step 0, counter 0, with the streamer and capture it is given |
| Render.Patch.Processed | render.cpp:166-173 | a block processes at most its frames, and never runs the capture cursor past the capacity |
| Render.Patch.RenderFrame | render.cpp:135-161 | one frame advances the streamer one `Advance` step (reporting its swap and warning), leaving the refill cursor and the loaded chunks alone, and an on-time swap makes the chunk at the refill cursor the one played; output channel `c` of frame `n` is `chain(c, step, dry)` for the post-advance dry sample; every output chain moves on one step; every other frame and chain is unchanged |
| Render.Patch.TickCounter | render.cpp:177-186 | the counter takes one `Tally` step, and the report flag is that step's |
| Render.Patch.RenderStep | render.cpp:135-161 | extends "the first `n` frames of the block are rendered" (`Rendered`) to `n + 1`, and keeps the capture state of the first `n` frames |
| Render.Patch.CaptureStep | render.cpp:162-173 | extends the capture state (`RecordState`) from `n` to `n + 1` frames and keeps the render state; full exactly when the capture is now complete |
| Render.Patch.ProcessFrame | render.cpp:135-174 | takes the render and capture state of the block from `n` frames to `n + 1`; full exactly when this frame completes the capture |
| Render.Patch.RenderBlock | render.cpp:135-175 | the frame loop processes exactly `Processed` frames; at the end the render and capture state hold for all of them; stop exactly when the capture filled |
| Render.Patch.Render | render.cpp:132-187 | stop is requested exactly when this block fills the capture; for the `k` frames processed: the streamer went `k` frames on, with the refill cursor and the loaded chunks unchanged, and the refill requests and warnings are the swaps and misses of those frames; output frame `m`, channel `c`, is `chain(c, step + m, dry sample of frame m)`; later frames are untouched; every output chain advanced `k` steps; capture frame `w0 + m` holds output frame `m` and no other capture cell changed; the diagnostic counter takes one `Tally` step unless the block stopped early |

## Left out

- The DSP: the pitch detector, envelope follower, oscillator and `(in + syn) * 0.5f` mix are floating-point library code. They are one opaque `Chain` function per channel and step, so no property of the output values beyond their provenance is stated.
- The sample rate: `context->audioSampleRate` is a float, and `audioSampleRate * 20` is truncated to a whole number of frames (render.cpp:123). `Setup` takes the rate as a whole number of frames per second, as Bela's rates are.
- Samples are unbounded integers, not 32-bit floats: nothing in the model depends on sample arithmetic.
- File I/O: `getNumFrames`, `getNumChannels`, `load` and `write` are not modelled. The file is given to `Setup` as decoded channels and a frame count. `AudioFileUtilities::getSamples` is taken to copy the half-open frame range `[start, endFrame)`; its code is not part of this model.
- Scheduling and concurrency: `Bela_createAuxiliaryTask` is reduced to its success flag, and `Bela_scheduleAuxiliaryTask` to the `swapped` result and the `refills` count. `FillBuffer` runs atomically between frames. Interleavings of frames and completed refills appear only in the trace model (`Cursor.Run` over `Event`s). A refill that overlaps the buffer being read is not modelled.
- `rt_printf`, `printf`, `Bela_cpuTic`/`Bela_cpuToc` and the CPU percentage: only the fact that a warning or a report is printed is modelled, not its text.
- `Bela_requestStop` is the returned `stop` flag. `audioRead`/`audioWrite` are plain accesses to the `input` and `audioOut` arrays. The host context is the array sizes and the parameters of `Setup`.
- Render.Patch.Render: requires that there are no more output channels than input channels. The source indexes its per-input-channel processors and capture rows by output channel and would read out of bounds otherwise.
- Render.Patch.Render: requires that the capture is not already full. After the source asks to stop, a further block would write past the rows.
- Render.Setup: requires, when capturing, at least one input channel, because the source reads `gOutputs[0]` (render.cpp:168). When capturing live input it also requires a positive sample rate: with a rate of 0 the rows have no frames and the first capture write (render.cpp:163) would be out of bounds.
- Capture.Recorder.CaptureFrame: stores a frame's output samples after the frame's channel loop, not interleaved with it as the source does. Nothing reads the capture inside the loop, so the rows end up the same.
- 32-bit `int` wrap-around of `gBufferReadPtr`, `gReadPtr` and the block counter is not modelled: they are at most `numFrames + BUFFER_LEN`, `BUFFER_LEN + 1` and 1001 respectively.
