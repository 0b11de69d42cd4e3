/** The FreeRTOS and I2S-driver behaviour both capture engines depend on,
    reduced to what the engines observe: where each task is in its loop and
    what a read from the I2S channel returns. */
module Rtos {
  import opened Esp

  /** Where the capture (producer) task is in its loop. */
  datatype AudioTask =
    | AudioAbsent          // not created, or deleted
    | Capturing            // at the top of its loop, where it looks for a stop notification
    | Reading(slot: nat)   // holds slot's mutex and is blocked in i2s_channel_read
    | AudioParked          // suspended itself after a stop notification

  /** Where the file-save (consumer) task is in its loop. */
  datatype FileTask =
    | FileAbsent    // not created, or deleted by the controller
    | Opening       // about to open its output file: just created, or just resumed
    | Serving       // at the top of its loop, where it looks for a stop notification
    | Waiting       // blocked in xQueueReceive on an empty queue; a notification does not wake it
    | FileParked    // suspended itself after flushing and closing its file
    | Dead          // deleted itself after a failed fopen

  /** What i2s_channel_read returns for one request. */
  datatype ReadResult = ReadResult(status: Err, bytes: nat)

  /** The I2S channel: the result of a read that asks for n bytes. */
  type Source = nat -> ReadResult
}
