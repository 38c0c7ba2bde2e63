/** Constants and error codes of crates/rc-core/src/protocol.rs and error.rs. */
module Protocol {
  const MAX_INPUT := 8 * 1024
  const MAX_PASTE := 256 * 1024
  const MAX_COLS := 400
  const MAX_ROWS := 150
  const MAX_JS_INTEGER := 9_007_199_254_740_991
  const MAX_U64 := 0xffff_ffff_ffff_ffff

  /** Client, connection and input identifiers. */
  type Id = nat

  datatype Option<+T> = None | Some(value: T)

  datatype ErrorCode = LeaseRequired | LeaseStale | LeaseBusy | Internal | FrameTooLarge | DuplicateInput
                     | RateLimited | InvalidRequest | SessionLost | Forbidden | InputCanceled | InputDeliveryUnknown

  datatype Result<+T> = Ok(value: T) | Err(error: ErrorCode)
}
