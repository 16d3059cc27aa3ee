/** The numbers the middleware and the accelerator have agreed on. */
module AccelerationConstants {
  const MAX_IO_STREAM_COUNT := 16

  /** How many parameter vectors describe one stream, and where each of them is. */
  const STREAM_PARAM_COUNT := 4
  const PROJECTION_OFFSET := 0
  const DATA_TYPES_OFFSET := 1
  const DATA_SIZES_OFFSET := 2
  const CHUNK_COUNT_OFFSET := 3
}
