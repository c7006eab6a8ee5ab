/** The faults the connection layer reports, raised or returned as values. */
module I2cErrors {
  import opened I2cTypes

  datatype Fault =
    | ChannelDisabledError(cause: Cause, rxData: Bytes)
    | NackError(cause: Cause, rxData: Bytes)
    | TimeoutError(cause: Cause, rxData: Bytes)
      /** The generic transceive error; it also carries the text of its cause. */
    | TransceiveError(cause: Cause, rxData: Bytes, message: string)
      /** The exception the command raised while interpreting the raw bytes. */
    | InterpretError(message: string)
      /** The transceiver declares an API version no adapter exists for. */
    | UnsupportedApiVersion(version: int)

  /** The faults that stand for a status code a transceiver reported. */
  predicate IsTransceiveFault(f: Fault)
  {
    f.ChannelDisabledError? || f.NackError? || f.TimeoutError? || f.TransceiveError?
  }

  /** The raw bytes a transceive fault keeps, for callers that want them. */
  function RxDataOf(f: Fault): (d: Option<Bytes>)
    ensures d.Some? <==> IsTransceiveFault(f)
  {
    match f
    case ChannelDisabledError(_, rx) => Some(rx)
    case NackError(_, rx) => Some(rx)
    case TimeoutError(_, rx) => Some(rx)
    case TransceiveError(_, rx, _) => Some(rx)
    case InterpretError(_) => None
    case UnsupportedApiVersion(_) => None
  }

  /** The underlying error object a transceive fault keeps. */
  function CauseOf(f: Fault): (c: Option<Cause>)
    ensures c.Some? <==> IsTransceiveFault(f)
  {
    match f
    case ChannelDisabledError(cause, _) => Some(cause)
    case NackError(cause, _) => Some(cause)
    case TimeoutError(cause, _) => Some(cause)
    case TransceiveError(cause, _, _) => Some(cause)
    case InterpretError(_) => None
    case UnsupportedApiVersion(_) => None
  }
}
