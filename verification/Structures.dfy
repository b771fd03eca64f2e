/** Sizes and offsets of the structures that the driver and the library share, in the 64-bit build. */
module Structures {
  import opened Bytes

  const MAXULONG: nat := U32_RANGE - 1

  const SIZEOF_EVENT_CONTEXT: nat := 176
  const SIZEOF_DRIVER_EVENT_CONTEXT: nat := 192

  const SIZEOF_EVENT_INFORMATION: nat := 48
  const EVENT_INFORMATION_BUFFER: nat := 40 // FIELD_OFFSET(EVENT_INFORMATION, Buffer)
}
