/** Output capture: a pre-allocated buffer per channel, filled one frame at a
    time until it is full, then truncated to what was written. */
module Capture {
  import opened Config

  class Recorder {
    /** gOutputs[channel][frame]: one pre-sized row per channel. */
    const outputs: array2<Sample>
    /** gWrittenFrames: how many frames have been written to every row. */
    var writtenFrames: nat

    ghost predicate Valid()
      reads this
    {
      outputs.Length0 > 0 && writtenFrames <= outputs.Length1
    }

    /** The capacity of the rows: gOutputs[0].size(). */
    function Capacity(): nat {
      outputs.Length1
    }

    /** The capture part of setup(): one silent row of `capacity` frames per
        channel, nothing written yet. */
    constructor (channels: nat, capacity: nat)
      requires channels > 0
      ensures Valid() && fresh(outputs) && writtenFrames == 0
      ensures outputs.Length0 == channels && Capacity() == capacity
      ensures forall c, i :: 0 <= c < channels && 0 <= i < capacity ==> outputs[c, i] == SILENCE
    {
      outputs := new Sample[channels, capacity]((c: nat, i: nat) => SILENCE);
      writtenFrames := 0;
    }

    /** gOutputs[channel][gWrittenFrames] = out: records one channel of the
        current frame and nothing else. */
    method Store(channel: nat, out: Sample)
      requires Valid() && channel < outputs.Length0 && writtenFrames < Capacity()
      modifies outputs
      ensures outputs[channel, writtenFrames] == out
      ensures forall c, i :: 0 <= c < outputs.Length0 && 0 <= i < Capacity() &&
                (c != channel || i != writtenFrames)
                ==> outputs[c, i] == old(outputs[c, i])
    {
      outputs[channel, writtenFrames] := out;
    }

    /** The capture part of one frame of render(): output channel c of frame
        n of the block is recorded in row c at the cursor, for every output
        channel, and no other cell changes; then the cursor moves on by one
        and the capture asks to stop once it is full. */
    method CaptureFrame(audioOut: array2<Sample>, n: nat) returns (stop: bool)
      requires Valid() && writtenFrames < Capacity()
      requires n < audioOut.Length0 && audioOut.Length1 <= outputs.Length0 && audioOut != outputs
      modifies this`writtenFrames, outputs
      ensures Valid()
      ensures writtenFrames == old(writtenFrames) + 1
      ensures stop <==> writtenFrames == Capacity()
      ensures forall c :: 0 <= c < audioOut.Length1 ==> outputs[c, old(writtenFrames)] == audioOut[n, c]
      ensures forall c, i :: 0 <= c < outputs.Length0 && 0 <= i < Capacity() &&
                (c >= audioOut.Length1 || i != old(writtenFrames))
                ==> outputs[c, i] == old(outputs[c, i])
    {
      var channel := 0;
      while channel < audioOut.Length1
        modifies outputs
        invariant 0 <= channel <= audioOut.Length1
        invariant forall c :: 0 <= c < channel ==> outputs[c, writtenFrames] == audioOut[n, c]
        invariant forall c, i :: 0 <= c < outputs.Length0 && 0 <= i < Capacity() &&
                    (c >= channel || i != writtenFrames)
                    ==> outputs[c, i] == old(outputs[c, i])
      {
        Store(channel, audioOut[n, channel]);
        channel := channel + 1;
      }
      writtenFrames := writtenFrames + 1;
      stop := writtenFrames >= outputs.Length1;
    }

    /** cleanup(): every row truncated to exactly the frames written, which is
        what is saved to the output file. */
    method Cleanup() returns (saved: seq<seq<Sample>>)
      requires Valid()
      ensures |saved| == outputs.Length0
      ensures forall c :: 0 <= c < |saved| ==> |saved[c]| == writtenFrames
      ensures forall c, i :: 0 <= c < |saved| && 0 <= i < writtenFrames ==> saved[c][i] == outputs[c, i]
    {
      saved := [];
      var n := writtenFrames;
      var c := 0;
      while c < outputs.Length0
        invariant 0 <= c <= outputs.Length0 && |saved| == c
        invariant forall c' :: 0 <= c' < c ==> |saved[c']| == writtenFrames
        invariant forall c', i :: 0 <= c' < c && 0 <= i < writtenFrames ==> saved[c'][i] == outputs[c', i]
      {
        var row := seq(n, (i: int) requires 0 <= i < n reads outputs => outputs[c, i]);
        saved := saved + [row];
        c := c + 1;
      }
    }
  }
}
