/** Types shared by every part of the model: the ESP-IDF error codes the firmware
    returns, an optional value and an 8-bit byte. */
module Esp {

  /** The `esp_err_t` values the modelled code returns or passes through. */
  datatype Err = Ok | Fail | NoMem | InvalidArg | InvalidState | NotFound | Timeout

  datatype Option<T> = None | Some(value: T)

  newtype byte = x: int | 0 <= x < 256
}
