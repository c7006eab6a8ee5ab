/** The connection layer: builds the transaction parameters of write, read and
    execute, dispatches on the transceiver's API version, converts status codes
    to faults, interprets each channel's bytes with the command, and applies the
    single-channel or multi-channel return policy. */
module Connection {
  import opened I2cTypes
  import opened I2cErrors
  import opened TransceiverV1
  import opened I2cCommand

  /** What write, read and execute give their caller: a raised fault, the
      interpreted value itself, or one value-or-fault per channel. */
  datatype Response<V> =
    | Raised(fault: Fault)
    | Returned(value: V)
    | ReturnedList(values: seq<Result<V, Fault>>)

  // ---------------------------------------------------------------------------
  // Parameter assembly

  /** Write phase only: nothing is read and there is no delay. */
  function WriteParams<V>(slaveAddress: int, command: Command<V>): TransactionParams
  {
    TransactionParams(slaveAddress, command.txData, None, 0.0, command.timeout)
  }

  /** Read phase only: nothing is sent and there is no delay. */
  function ReadParams<V>(slaveAddress: int, command: Command<V>): TransactionParams
  {
    TransactionParams(slaveAddress, None, command.rxLength, 0.0, command.timeout)
  }

  /** Both phases, with the command's own delay between them. */
  function ExecuteParams<V>(slaveAddress: int, command: Command<V>): TransactionParams
  {
    TransactionParams(slaveAddress, command.txData, command.rxLength, command.readDelay, command.timeout)
  }

  /** Execute carries the command's whole parameter set; write and read are
      execute with the other phase and the delay taken out, and all three keep
      the caller's address and the command's timeout. */
  lemma ParamsAssembly<V>(slaveAddress: int, command: Command<V>)
    ensures ExecuteParams(slaveAddress, command) ==
            TransactionParams(slaveAddress, command.txData, command.rxLength,
                              command.readDelay, command.timeout)
    ensures WriteParams(slaveAddress, command) ==
            ExecuteParams(slaveAddress, command).(rxLength := None, readDelay := 0.0)
    ensures ReadParams(slaveAddress, command) ==
            ExecuteParams(slaveAddress, command).(txData := None, readDelay := 0.0)
  {
  }

  // ---------------------------------------------------------------------------
  // Status conversion (API version 1)

  /** The status a transceive fault stands for. */
  function FaultStatus(f: Fault): Status
    requires IsTransceiveFault(f)
  {
    match f
    case ChannelDisabledError(_, _) => ChannelDisabled
    case NackError(_, _) => Nack
    case TimeoutError(_, _) => Timeout
    case TransceiveError(_, _, _) => UnspecifiedError
  }

  /** Turns one raw outcome into its bytes or into the fault its status means.
      Every status is covered: the fault's kind is the outcome's status, so two
      statuses never share a fault kind; every fault keeps the raw bytes and
      the underlying error, and the generic one also its text. */
  function ConvertV1(o: RawOutcome): (r: Result<Bytes, Fault>)
    ensures r.Success? <==> StatusOf(o.status) == Ok
    ensures r.Success? ==> r.value == o.rxData
    ensures r.Failure? ==> IsTransceiveFault(r.error) && FaultStatus(r.error) == StatusOf(o.status)
    ensures r.Failure? ==> RxDataOf(r.error) == Some(o.rxData) && CauseOf(r.error) == Some(o.error)
    ensures r.Failure? && r.error.TransceiveError? ==> r.error.message == CauseText(o.error)
  {
    if o.status == STATUS_OK then Success(o.rxData)
    else if o.status == STATUS_CHANNEL_DISABLED then Failure(ChannelDisabledError(o.error, o.rxData))
    else if o.status == STATUS_NACK then Failure(NackError(o.error, o.rxData))
    else if o.status == STATUS_TIMEOUT then Failure(TimeoutError(o.error, o.rxData))
    else Failure(TransceiveError(o.error, o.rxData, CauseText(o.error)))
  }

  /** The per-channel conversion of a multi-channel transceiver's outcomes. */
  function ConvertEach(outcomes: seq<RawOutcome>): (r: seq<Result<Bytes, Fault>>)
    ensures |r| == |outcomes|
    ensures forall i :: 0 <= i < |r| ==> r[i] == ConvertV1(outcomes[i])
  {
    if outcomes == [] then [] else [ConvertV1(outcomes[0])] + ConvertEach(outcomes[1..])
  }

  // ---------------------------------------------------------------------------
  // Version dispatch

  /** What the transceiver adapter returns: one converted outcome, or one per
      channel. */
  datatype Transceived =
    | OneChannel(outcome: Result<Bytes, Fault>)
    | EachChannel(outcomes: seq<Result<Bytes, Fault>>)

  /** The adapter for API version 1: calls the transceiver once and converts
      what it reports, channel by channel when it has channels. */
  function TransceiveV1(t: Transceiver, params: TransactionParams): (r: Transceived)
    ensures r.EachChannel? <==> ChannelCount(t).Some?
    ensures t.SingleChannel? ==> r == OneChannel(ConvertV1(t.transceive(params)))
    ensures t.MultiChannel? ==> |r.outcomes| == |t.transceiveAll(params)|
    ensures t.MultiChannel? ==>
      forall i :: 0 <= i < |r.outcomes| ==> r.outcomes[i] == ConvertV1(t.transceiveAll(params)[i])
  {
    match t
    case SingleChannel(_, transceive) => OneChannel(ConvertV1(transceive(params)))
    case MultiChannel(_, _, transceiveAll) => EachChannel(ConvertEach(transceiveAll(params)))
  }

  /** The adapters, keyed by the transceiver API version they serve. */
  datatype Adapter = AdapterV1

  const API_METHODS: map<int, Adapter> := map[1 := AdapterV1]

  /** Dispatches to the adapter of the transceiver's API version. Any version
      without one is raised as a configuration fault, and then the transceiver
      is not asked at all: the fault does not depend on it. */
  function Transceive(t: Transceiver, params: TransactionParams): (r: Result<Transceived, Fault>)
    ensures r.Failure? <==> t.apiVersion != 1
    ensures r.Failure? ==> r.error == UnsupportedApiVersion(t.apiVersion)
    ensures r.Success? ==> r.value == TransceiveV1(t, params)
  {
    if t.apiVersion in API_METHODS then
      match API_METHODS[t.apiVersion]
      case AdapterV1 => Success(TransceiveV1(t, params))
    else
      Failure(UnsupportedApiVersion(t.apiVersion))
  }

  // ---------------------------------------------------------------------------
  // Interpretation and return policy

  /** One channel: a fault passes through as it is and the command is not
      consulted; bytes are interpreted, and an exception the command raises is
      kept as a fault value instead of escaping. */
  function InterpretSingle<V>(command: Command<V>, response: Result<Bytes, Fault>): (r: Result<V, Fault>)
    ensures response.Failure? ==> r == Failure(response.error)
    ensures r.Success? <==> response.Success? && command.interpret(response.value).Success?
    ensures r.Success? ==> r.value == command.interpret(response.value).value
    ensures response.Success? && r.Failure? ==>
      r.error == InterpretError(command.interpret(response.value).error)
  {
    match response
    case Failure(f) => Failure(f)
    case Success(data) =>
      match command.interpret(data)
      case Success(v) => Success(v)
      case Failure(message) => Failure(InterpretError(message))
  }

  /** Interprets the channels of a multi-channel response, each on its own. */
  function InterpretEach<V>(command: Command<V>, responses: seq<Result<Bytes, Fault>>): (r: seq<Result<V, Fault>>)
    ensures |r| == |responses|
    ensures forall i :: 0 <= i < |r| ==> r[i] == InterpretSingle(command, responses[i])
  {
    if responses == [] then []
    else [InterpretSingle(command, responses[0])] + InterpretEach(command, responses[1..])
  }

  /** Single-channel mode with the flag unset: a fault is raised, a value is
      returned as it is. */
  function RaiseOrReturn<V>(x: Result<V, Fault>): (r: Response<V>)
    ensures r.Raised? <==> x.Failure?
    ensures x.Failure? ==> r.fault == x.error
    ensures x.Success? ==> r == Returned(x.value)
  {
    match x
    case Failure(f) => Raised(f)
    case Success(v) => Returned(v)
  }

  /** The return policy. A list is returned when the transceiver has channels
      or when the flag asks for one, and then nothing is raised; only a single
      channel with the flag unset raises its fault. */
  function InterpretResponse<V>(command: Command<V>, alwaysMulti: bool, response: Transceived): (r: Response<V>)
    ensures r.ReturnedList? <==> response.EachChannel? || alwaysMulti
    ensures r.Raised? <==>
      response.OneChannel? && !alwaysMulti && InterpretSingle(command, response.outcome).Failure?
    ensures response.EachChannel? ==>
      |r.values| == |response.outcomes| &&
      forall i :: 0 <= i < |r.values| ==> r.values[i] == InterpretSingle(command, response.outcomes[i])
    ensures response.OneChannel? && r.ReturnedList? ==>
      r.values == [InterpretSingle(command, response.outcome)]
    ensures response.OneChannel? && !r.ReturnedList? ==>
      r == RaiseOrReturn(InterpretSingle(command, response.outcome))
  {
    match response
    case EachChannel(outcomes) => ReturnedList(InterpretEach(command, outcomes))
    case OneChannel(outcome) =>
      if alwaysMulti then ReturnedList([InterpretSingle(command, outcome)])
      else RaiseOrReturn(InterpretSingle(command, outcome))
  }

  /** The interpreted response of one channel's raw outcome. */
  function Channel<V>(command: Command<V>, o: RawOutcome): Result<V, Fault>
  {
    InterpretSingle(command, ConvertV1(o))
  }

  /** One whole call: dispatch, conversion, interpretation and return policy. */
  function Perform<V>(t: Transceiver, alwaysMulti: bool, params: TransactionParams, command: Command<V>): (r: Response<V>)
    ensures t.apiVersion != 1 ==> r == Raised(UnsupportedApiVersion(t.apiVersion))
    ensures t.apiVersion == 1 && t.MultiChannel? ==>
      r.ReturnedList? && |r.values| == |t.transceiveAll(params)| &&
      forall i :: 0 <= i < |r.values| ==> r.values[i] == Channel(command, t.transceiveAll(params)[i])
    ensures t.apiVersion == 1 && t.SingleChannel? && alwaysMulti ==>
      r == ReturnedList([Channel(command, t.transceive(params))])
    ensures t.apiVersion == 1 && t.SingleChannel? && !alwaysMulti ==>
      r == RaiseOrReturn(Channel(command, t.transceive(params)))
  {
    match Transceive(t, params)
    case Failure(f) => Raised(f)
    case Success(response) => InterpretResponse(command, alwaysMulti, response)
  }

  // ---------------------------------------------------------------------------
  // The connection object

  /** A connection over one transceiver. Apart from the transceiver it holds
      only the flag that makes a single-channel transceiver answer like a
      multi-channel one. */
  class I2cConnection {
    const transceiver: Transceiver
    var alwaysMulti: bool

    constructor (transceiver: Transceiver)
      ensures this.transceiver == transceiver
      ensures !AlwaysMultiChannelResponse()
    {
      this.transceiver := transceiver;
      alwaysMulti := false;
    }

    function AlwaysMultiChannelResponse(): bool
      reads this
    {
      alwaysMulti
    }

    method SetAlwaysMultiChannelResponse(value: bool)
      modifies this
      ensures AlwaysMultiChannelResponse() == value
    {
      alwaysMulti := value;
    }

    method Write<V>(slaveAddress: int, command: Command<V>) returns (r: Response<V>)
      ensures r == Perform(transceiver, AlwaysMultiChannelResponse(), WriteParams(slaveAddress, command), command)
    {
      r := Perform(transceiver, alwaysMulti, WriteParams(slaveAddress, command), command);
    }

    method Read<V>(slaveAddress: int, command: Command<V>) returns (r: Response<V>)
      ensures r == Perform(transceiver, AlwaysMultiChannelResponse(), ReadParams(slaveAddress, command), command)
    {
      r := Perform(transceiver, alwaysMulti, ReadParams(slaveAddress, command), command);
    }

    method Execute<V>(slaveAddress: int, command: Command<V>) returns (r: Response<V>)
      ensures r == Perform(transceiver, AlwaysMultiChannelResponse(), ExecuteParams(slaveAddress, command), command)
    {
      r := Perform(transceiver, alwaysMulti, ExecuteParams(slaveAddress, command), command);
    }
  }
}
