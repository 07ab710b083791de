/** Compile-time constants shared by the streaming, capture and render modules. */
module Config {
  /** Frames per channel held by each of the two streaming buffers (BUFFER_LEN). */
  const BUFFER_LEN: int := 22050

  /** One audio sample. Its floating-point value plays no part in the
      bookkeeping modelled here, so samples are opaque integers. */
  type Sample = int

  /** The value written by zero-padding. */
  const SILENCE: Sample := 0
}
