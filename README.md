# I2C connection layer, modelled in Dafny

This project models `I2cConnection`, the transceiver-independent connection
layer of the Sensirion I2C driver. A connection takes an I2C command and a
slave address, builds the parameters of one bus transaction (`write`, `read`
or `execute`), hands them to the adapter for the transceiver's API version,
converts the transceiver's `(status, error, rx_data)` report into bytes or a
typed fault, lets the command interpret the bytes, and then applies its return
policy:

- a multi-channel transceiver yields one value-or-fault per channel, in order,
  and nothing is raised;
- a single-channel transceiver with `always_multi_channel_response` set yields
  a one-element list, and nothing is raised;
- a single-channel transceiver with the flag unset raises the fault or returns
  the value bare.

Files:

- `types.dfy` (`I2cTypes`): bytes, `Option`, `Result`, the transceiver's
  underlying error object (`Cause`, with Python's `str()` as `CauseText`) and
  the transaction parameters.
- `errors.dfy` (`I2cErrors`): the faults: channel disabled, NACK, timeout, the
  generic transceive error, the command's interpretation error and the
  unsupported API version.
- `transceiver.dfy` (`TransceiverV1`): the status codes 0 to 4, their closed
  enumeration `Status`, the raw outcome, and the transceiver as a value: its API
  version, its channel count and its transaction primitive.
- `command.dfy` (`I2cCommand`): the command as a value: payload, read length,
  read delay, timeout and an interpretation function that may fail.
- `connection.dfy` (`Connection`): parameter assembly, status conversion,
  version dispatch, per-channel interpretation, the return policy (`Perform` is
  one whole call), and the class `I2cConnection` with its mutable flag. The
  flag's getter is the function `I2cConnection.AlwaysMultiChannelResponse`.
- `properties.dfy` (`ConnectionProperties`): lemmas relating modes,
  transceivers and commands, and client methods that walk through concrete
  scenarios (an acknowledged write, a NACK raised and then listed after the flag
  is set, a multi-channel timeout on one channel, an unknown status code).

A Python exception raised out of `write`, `read` or `execute` is the
`Raised(fault)` response; a list return is `ReturnedList`; a bare value is
`Returned`. The transceiver and the command are external collaborators, so they
are values holding total functions: the transceiver is deterministic by
construction, and "the transceiver is not called" is stated as "the response
does not depend on the transceiver's primitive".

## Model

| member | source | states |
|---|---|---|
| TransceiverV1.StatusOf | sensirion_i2c_driver/micropython_i2c_transceiver.py:23-27 | every integer status is one of the five statuses: a documented code is its own status, any other code is the unspecified error |
| TransceiverV1.CodeRoundTrip | sensirion_i2c_driver/micropython_i2c_transceiver.py:23-27 | the numeric codes 0 to 4 and the status enumeration are inverse to each other |
| TransceiverV1.ChannelCount | sensirion_i2c_driver/micropython_i2c_transceiver.py:53-61 | the channel count is None exactly for a single-channel transceiver |
| Connection.ParamsAssembly | sensirion_i2c_driver/connection.py:99-155 | execute passes the command's payload, read length, read delay and timeout; write is execute without read length and with delay 0; read is execute without payload and with delay 0; all keep the caller's address and the command's timeout |
| Connection.ConvertV1 | sensirion_i2c_driver/connection.py:191-205 | OK gives the raw bytes unchanged; every other status gives a fault whose kind is that status (so the mapping is total and no two statuses share a kind); every fault keeps the raw bytes and the underlying error, and the generic one also `str(error)` |
| Connection.ConvertEach | sensirion_i2c_driver/connection.py:186-187 | the converted list has the outcomes' length and element i is the conversion of outcome i |
| Connection.TransceiveV1 | sensirion_i2c_driver/connection.py:174-189 | a list is returned exactly when the channel count is not None; it has one converted entry per reported outcome, in order; otherwise the single converted outcome |
| Connection.Transceive | sensirion_i2c_driver/connection.py:157-172 | the call fails exactly when the API version is not 1, then with the unsupported-version fault for that version; otherwise it is the version 1 adapter's result |
| Connection.InterpretSingle | sensirion_i2c_driver/connection.py:231-243 | a fault is passed through unchanged; a value results exactly when the bytes were good and the command interprets them; a command's failure becomes an interpretation fault value |
| Connection.InterpretEach | sensirion_i2c_driver/connection.py:211-217 | one interpreted response per channel, same length and order, each from its own channel |
| Connection.RaiseOrReturn | sensirion_i2c_driver/connection.py:222-229 | a fault is raised and a value returned directly, not wrapped |
| Connection.InterpretResponse | sensirion_i2c_driver/connection.py:207-229 | a list exactly when the transceiver has channels or the flag is set; a raise exactly for a single channel, flag unset, whose interpreted response is a fault; list contents per channel, or the one interpreted response |
| Connection.Perform | sensirion_i2c_driver/connection.py:157-229 | an unsupported version raises its fault in every mode; otherwise the multi-channel list, the one-element list or the raise-or-return of the interpreted outcome, as the mode says |
| Connection.I2cConnection.constructor | sensirion_i2c_driver/connection.py:51-61 | keeps the transceiver and starts with the flag False |
| Connection.I2cConnection.SetAlwaysMultiChannelResponse | sensirion_i2c_driver/connection.py:79-81 | afterwards the getter returns the value set |
| Connection.I2cConnection.Write | sensirion_i2c_driver/connection.py:83-105 | the response is one call with the write parameters under the current flag |
| Connection.I2cConnection.Read | sensirion_i2c_driver/connection.py:107-130 | the response is one call with the read parameters under the current flag |
| Connection.I2cConnection.Execute | sensirion_i2c_driver/connection.py:132-155 | the response is one call with the execute parameters under the current flag |
| ConnectionProperties.UnsupportedVersionAlwaysRaises | sensirion_i2c_driver/connection.py:162-172 | with an unsupported version write, read and execute all raise the configuration fault, whatever the flag |
| ConnectionProperties.UnsupportedVersionIgnoresTransceiver | sensirion_i2c_driver/connection.py:165-172 | with an unsupported version the response does not depend on what the transceiver would report (it is not called) |
| ConnectionProperties.FlagIrrelevantForMultiChannel | sensirion_i2c_driver/connection.py:211-221 | a multi-channel transceiver gives the same response whether the flag is set or not |
| ConnectionProperties.ChannelIsolation | sensirion_i2c_driver/connection.py:211-217 | channel i of a multi-channel response depends only on channel i of the transceiver's report |
| ConnectionProperties.FlagOnlyChangesShape | sensirion_i2c_driver/connection.py:218-229 | for a single channel, the flag-unset response is the raise-or-return of the one element of the flag-set list, and with the flag set nothing but the configuration fault is raised |
| ConnectionProperties.FaultsAreNeverInterpreted | sensirion_i2c_driver/connection.py:237-241 | a fault outcome gives the same result for every command: it is never decoded |
| ConnectionProperties.InterpretFailureTreatedAsFault | sensirion_i2c_driver/connection.py:237-243 | an interpretation failure on good bytes is raised with the flag unset and listed with it set, like a transceiver fault |
| ConnectionProperties.ReadTwice | sensirion_i2c_driver/connection.py:107-130 | two reads against the same transceiver give the same response: the connection keeps no state between calls |

## Left out

- The hardware transceiver (`micropython_i2c_transceiver.py` beyond its status codes and channel count): bus scanning, writes, reads and sleeping are hardware I/O; the transceiver's reply is a parameter of the model.
- Exceptions the transceiver's own `transceive` raises (for example a disconnected device): Python lets them through unchanged; the model's transceiver always reports an outcome.
- A multi-channel transceiver whose `transceive` returns something other than a list, or a single-channel one that returns a list: the two transceiver variants make these impossible rather than modelling Python's duck typing.
- The flag is a `bool`: Python tests `is True`, so a truthy non-bool value set through the setter behaves as False; the model does not admit such values.
- A command whose `interpret_response` returns (rather than raises) an exception object: Python would then raise it in single-channel mode; the model treats a returned value as a value.
- The command's exception is kept as its text (`InterpretError`), not as an object of its own class; `errors.py` and the command module are not part of this model.
- The number of outcomes a multi-channel transceiver reports is not checked against its channel count, as in the source.
- `read_delay` and `timeout` are passed through as uninterpreted reals; their timing meaning is the transceiver's.
- Logging has no behaviour and is not modelled.
- The text of the unsupported-version exception is not modelled; the fault records the version.
