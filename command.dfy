/** An I2C command as the connection layer uses it: what to send, how much to
    read, the delay between the phases, the timeout, and how to interpret the
    bytes received. How a particular command encodes or decodes is not modelled. */
module I2cCommand {
  import opened I2cTypes

  /** `interpret` returns Failure(message) where the command's Python
      `interpret_response` raises an exception with that text. */
  datatype Command<V> = Command(
    txData: Option<Bytes>,
    rxLength: Option<nat>,
    readDelay: real,
    timeout: real,
    interpret: Bytes -> Result<V, string>)
}
