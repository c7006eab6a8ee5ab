/** Values shared by the connection layer and its two collaborators: bytes,
    optional values, results, the transceiver's underlying error object and the
    parameters of one bus transaction. */
module I2cTypes {

  newtype byte = x: int | 0 <= x < 256
  type Bytes = seq<byte>

  datatype Option<+T> = None | Some(value: T)

  /** A value or the error that took its place. */
  datatype Result<+R, +E> = Success(value: R) | Failure(error: E)

  /** The underlying error object a transceiver reports beside its status code:
      Python's `None`, or an exception object identified by its string form. */
  datatype Cause = NoCause | Exception(text: string)

  /** Python's `str(error)`; `str(None)` is "None". */
  function CauseText(c: Cause): string
  {
    match c
    case NoCause => "None"
    case Exception(text) => text
  }

  /** One transaction as handed to the transceiver. Durations are passed through
      and never interpreted by the connection layer. */
  datatype TransactionParams = TransactionParams(
    slaveAddress: int,
    txData: Option<Bytes>,
    rxLength: Option<nat>,
    readDelay: real,
    timeout: real)
}
