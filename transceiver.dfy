/** The API version 1 transceiver as the connection layer sees it: status codes,
    raw outcomes, and the transaction primitive of a single- or multi-channel
    transceiver. The hardware side is not part of this model. */
module TransceiverV1 {
  import opened I2cTypes

  // Status codes of an API version 1 transceiver.
  const STATUS_OK: int := 0
  const STATUS_CHANNEL_DISABLED: int := 1
  const STATUS_NACK: int := 2
  const STATUS_TIMEOUT: int := 3
  const STATUS_UNSPECIFIED_ERROR: int := 4

  /** The closed enumeration of statuses; every integer falls into one of them. */
  datatype Status = Ok | ChannelDisabled | Nack | Timeout | UnspecifiedError

  function Code(s: Status): int
  {
    match s
    case Ok => STATUS_OK
    case ChannelDisabled => STATUS_CHANNEL_DISABLED
    case Nack => STATUS_NACK
    case Timeout => STATUS_TIMEOUT
    case UnspecifiedError => STATUS_UNSPECIFIED_ERROR
  }

  /** Classifies a reported status code; an unknown code is an unspecified error. */
  function StatusOf(code: int): (s: Status)
    ensures code == Code(s) || (s == UnspecifiedError && !(0 <= code <= 4))
  {
    if code == STATUS_OK then Ok
    else if code == STATUS_CHANNEL_DISABLED then ChannelDisabled
    else if code == STATUS_NACK then Nack
    else if code == STATUS_TIMEOUT then Timeout
    else UnspecifiedError
  }

  /** Code and StatusOf are inverse on the five documented codes. */
  lemma CodeRoundTrip(s: Status, code: int)
    ensures StatusOf(Code(s)) == s
    ensures 0 <= code <= 4 ==> Code(StatusOf(code)) == code
  {
  }

  /** What a transceiver reports for one channel: `(status, error, rx_data)`. */
  datatype RawOutcome = RawOutcome(status: int, error: Cause, rxData: Bytes)

  /** A transceiver without a channel concept (`channel_count` is None) returns
      one outcome; a multi-channel one returns one outcome per channel. */
  datatype Transceiver =
    | SingleChannel(apiVersion: int, transceive: TransactionParams -> RawOutcome)
    | MultiChannel(apiVersion: int, channelCount: nat,
                   transceiveAll: TransactionParams -> seq<RawOutcome>)

  function ChannelCount(t: Transceiver): (n: Option<nat>)
    ensures n.None? <==> t.SingleChannel?
  {
    match t
    case SingleChannel(_, _) => None
    case MultiChannel(_, count, _) => Some(count)
  }
}
