/** Properties of the connection layer that relate several calls, modes or
    transceivers, and the concrete scenarios its documentation describes. */
module ConnectionProperties {
  import opened I2cTypes
  import opened I2cErrors
  import opened TransceiverV1
  import opened I2cCommand
  import opened Connection

  /** A transceiver API version without an adapter makes write, read and
      execute raise the same configuration fault whatever the flag is. */
  lemma UnsupportedVersionAlwaysRaises<V>(t: Transceiver, alwaysMulti: bool, slaveAddress: int, command: Command<V>)
    requires t.apiVersion !in API_METHODS
    ensures Perform(t, alwaysMulti, WriteParams(slaveAddress, command), command) == Raised(UnsupportedApiVersion(t.apiVersion))
    ensures Perform(t, alwaysMulti, ReadParams(slaveAddress, command), command) == Raised(UnsupportedApiVersion(t.apiVersion))
    ensures Perform(t, alwaysMulti, ExecuteParams(slaveAddress, command), command) == Raised(UnsupportedApiVersion(t.apiVersion))
  {
  }

  /** With an unsupported version the transceiver's primitive is never used:
      two transceivers that declare the same version give the same response,
      whatever they would have reported. */
  lemma UnsupportedVersionIgnoresTransceiver<V>(t1: Transceiver, t2: Transceiver, alwaysMulti: bool,
                                                params: TransactionParams, command: Command<V>)
    requires t1.apiVersion == t2.apiVersion && t1.apiVersion !in API_METHODS
    ensures Perform(t1, alwaysMulti, params, command) == Perform(t2, alwaysMulti, params, command)
  {
  }

  /** A multi-channel transceiver always answers with its list: the flag
      changes nothing. */
  lemma FlagIrrelevantForMultiChannel<V>(t: Transceiver, params: TransactionParams, command: Command<V>)
    requires t.MultiChannel?
    ensures Perform(t, true, params, command) == Perform(t, false, params, command)
  {
  }

  /** A multi-channel response keeps every channel: channel i of the result is
      decided by channel i of the transceiver's report alone, so one channel's
      fault never costs another channel its value. */
  lemma ChannelIsolation<V>(t1: Transceiver, t2: Transceiver, alwaysMulti: bool,
                            params: TransactionParams, command: Command<V>, i: nat)
    requires t1.MultiChannel? && t2.MultiChannel? && t1.apiVersion == 1 && t2.apiVersion == 1
    requires |t1.transceiveAll(params)| == |t2.transceiveAll(params)|
    requires i < |t1.transceiveAll(params)|
    requires t1.transceiveAll(params)[i] == t2.transceiveAll(params)[i]
    ensures Perform(t1, alwaysMulti, params, command).ReturnedList?
    ensures Perform(t2, alwaysMulti, params, command).ReturnedList?
    ensures Perform(t1, alwaysMulti, params, command).values[i] ==
            Perform(t2, alwaysMulti, params, command).values[i]
  {
  }

  /** The response with the flag unset, recovered from the response with it set. */
  function Collapse<V>(r: Response<V>): Response<V>
  {
    match r
    case ReturnedList(values) => if |values| == 1 then RaiseOrReturn(values[0]) else r
    case _ => r
  }

  /** For a single-channel transceiver the flag decides only the shape of the
      answer: with it set the one interpreted response comes back in a
      one-element list and nothing is raised (beyond the configuration fault);
      with it unset the same response is raised or returned bare. */
  lemma FlagOnlyChangesShape<V>(t: Transceiver, params: TransactionParams, command: Command<V>)
    requires t.SingleChannel?
    ensures Perform(t, false, params, command) == Collapse(Perform(t, true, params, command))
    ensures Perform(t, true, params, command).Raised? ==> t.apiVersion != 1
    ensures Perform(t, true, params, command).ReturnedList? ==> |Perform(t, true, params, command).values| == 1
  {
  }

  /** A fault is passed on as it is, and never handed to the command: two
      commands see the same result for it. */
  lemma FaultsAreNeverInterpreted<V>(c1: Command<V>, c2: Command<V>, response: Result<Bytes, Fault>)
    requires response.Failure?
    ensures InterpretSingle(c1, response) == InterpretSingle(c2, response)
  {
  }

  /** In single-channel mode with the flag unset, a command that cannot
      interpret good bytes is raised exactly as a reported fault is; with the
      flag set both come back as the one listed fault. */
  lemma InterpretFailureTreatedAsFault<V>(t: Transceiver, alwaysMulti: bool, params: TransactionParams, command: Command<V>)
    requires t.SingleChannel? && t.apiVersion == 1
    requires ConvertV1(t.transceive(params)).Success?
    requires command.interpret(t.transceive(params).rxData).Failure?
    ensures !alwaysMulti ==>
      Perform(t, alwaysMulti, params, command) ==
      Raised(InterpretError(command.interpret(t.transceive(params).rxData).error))
    ensures alwaysMulti ==>
      Perform(t, alwaysMulti, params, command) ==
      ReturnedList([Failure(InterpretError(command.interpret(t.transceive(params).rxData).error))])
  {
  }

  /** The connection keeps no state between calls: reading twice against the
      same (deterministic) transceiver gives the same answer. */
  method ReadTwice<V>(conn: I2cConnection, slaveAddress: int, command: Command<V>)
    returns (first: Response<V>, second: Response<V>)
    ensures first == second
    ensures first == Perform(conn.transceiver, conn.AlwaysMultiChannelResponse(), ReadParams(slaveAddress, command), command)
  {
    first := conn.Read(slaveAddress, command);
    second := conn.Read(slaveAddress, command);
  }

  // ---------------------------------------------------------------------------
  // Concrete scenarios

  const EIO: Cause := Exception("[Errno 5] EIO")

  /** A version 1 single-channel transceiver that answers every transaction
      with the given status, its cause, and no bytes. */
  function Answering(status: int): Transceiver
  {
    SingleChannel(1, (p: TransactionParams) => RawOutcome(status, EIO, []))
  }

  /** A command that sends two bytes, reads three, and yields the length of
      what it received. */
  function LengthCommand(): Command<nat>
  {
    Command(Some([0x36, 0x15]), Some(3), 0.0, 0.5, (data: Bytes) => Success(|data| as nat))
  }

  /** A write that the transceiver acknowledges returns the interpreted
      (empty) answer; a read that is not acknowledged raises the NACK fault,
      and with the flag set returns it in a one-element list. */
  method NackScenario()
  {
    var ok := new I2cConnection(Answering(STATUS_OK));
    var w := ok.Write(0x61, LengthCommand());
    assert w == Returned(0);

    var conn := new I2cConnection(Answering(STATUS_NACK));
    var r := conn.Read(0x61, LengthCommand());
    assert r == Raised(NackError(EIO, []));

    conn.SetAlwaysMultiChannelResponse(true);
    assert conn.AlwaysMultiChannelResponse();
    r := conn.Read(0x61, LengthCommand());
    assert r == ReturnedList([Failure(NackError(EIO, []))]);
  }

  /** Three channels where the middle one times out: the other two keep their
      decoded values. */
  method MultiChannelScenario()
  {
    var t := MultiChannel(1, 3, (p: TransactionParams) =>
      [RawOutcome(STATUS_OK, NoCause, [1, 2, 3]),
       RawOutcome(STATUS_TIMEOUT, EIO, []),
       RawOutcome(STATUS_OK, NoCause, [4])]);
    var conn := new I2cConnection(t);
    var r := conn.Execute(0x10, LengthCommand());
    assert r == ReturnedList([Success(3), Failure(TimeoutError(EIO, [])), Success(1)]);
  }

  /** An unknown status code is the generic transceive fault, carrying the
      text of its cause. */
  method UnknownStatusScenario()
  {
    var conn := new I2cConnection(Answering(42));
    var r := conn.Read(0x61, LengthCommand());
    assert r == Raised(TransceiveError(EIO, [], "[Errno 5] EIO"));
  }
}
