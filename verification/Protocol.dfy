/** Numbers of HTTP/2 that several parts of the model share (RFC 7540, sections 4.1, 5.1.1, 6.5.2 and 7). */
module Protocol {

  const MAX_ID: int := 0x8000_0000
  const MAX_LENGTH: int := 0x100_0000

  const NO_ERROR: nat := 0
  const PROTOCOL_ERROR: nat := 1
  const FLOW_CONTROL_ERROR: nat := 3
  const STREAM_CLOSED: nat := 5
  const FRAME_SIZE_ERROR: nat := 6
  const REFUSED_STREAM: nat := 7
  const COMPRESSION_ERROR: nat := 9

  const ENABLE_PUSH: nat := 2
  const MAX_CONCURRENT_STREAMS: nat := 3
  const INITIAL_WINDOW_SIZE: nat := 4
  const MAX_FRAME_SIZE: nat := 5
}
