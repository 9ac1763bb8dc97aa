/**
 The driver as a state machine: the transition table of the constructor, the actions its
 edges and states run, and the calls an application may make between two steps.

 Conditions on text and time are chosen by the environment; conditions on the driver's own
 data are computed. Of a state's own transitions the first true one fires, then its action
 and the entry action of the target run.
 */
module Machine {
  import opened Bytes
  import opened States
  import opened Commands
  import opened SendBuffer
  import opened AckReply
  import opened LengthReply
  import opened Trace

  const QUERY_ACK_COUNT_LIMIT: int := 8
  const AT_RETRY_LIMIT: int := 5

  /** Conditions on received text, pins and time. `CommandOk` is the echo of the state's own command with its OK. */
  datatype Cond =
    | Rdy | StatusHigh | StatusLow | HardResetDelay
    | ShutOk | Error | Ok | CommandOk | SecondPassed
    | CmeError | CmeError100 | CpinReady | CpinSimPin | CsqUnknown | CsqKnown
    | CregSearching | CregDenied | CregRegistered | CgattDetached | CgattAttached
    | Closed | ConnectOk | ConnectFail | StateConnectOk | StateOther
    | SendDelayPassed | QisendEcho | SendOk | SendTimeout | SendFailed | AckReply | CancelPrompt
    | CmgsOk | CmsError

  /** Conditions on the driver's own data. */
  datatype Flags = Flags(
    atRetryLimitReached: bool,
    addressKnown: bool,
    newData: bool,
    lengthAccepted: bool,
    lengthMatches: bool,
    dataToSend: bool,
    sleepConfigured: bool,
    bytesToSendZero: bool,
    retryLimitReached: bool,
    allAcked: bool,
    smsToSend: bool)

  datatype Action =
    | NoAction | NotifyConnected | NotifyDisconnected
    | ResetAtRetry | IncAtRetry | ResetAckRetry | IncAckRetry
    | ClearNewData | DeliverData | ReportSent

  datatype Move = Stay | Go(target: State, action: Action)

  /** The states of a session; the others bring the modem up, reset it or shut it down. */
  predicate InSession(s: State) {
    || s.CloseAndReconnect? || s.CheckConnection? || s.ConnectToServer? || s.NetworkGpsUsartEchoOff?
    || s.NetworkCheckReceive? || s.NetworkBeginReceive? || s.NetworkReceive? || s.NetworkBeginSend?
    || s.Sleep? || s.Wake? || s.CheckConnectionPreSend? || s.NetworkPrepareSend?
    || s.NetworkSend? || s.NetworkAckCheck? || s.NetworkAckCheckParse? || s.NetworkDeclareRead?
    || s.CancelSend? || s.SmsBeginSend? || s.SmsSendSingleNumber? || s.SmsSendSingleBody?
    || s.SmsSendSingleRemove?
  }

  /** The transition table: in each state, its edges in declaration order. */
  function Fire(s: State, f: Flags, h: set<Cond>): Move {
    if InSession(s) then FireInSession(s, f, h) else FireOutside(s, f, h)
  }

  function FireOutside(s: State, f: Flags, h: set<Cond>): Move
    requires !InSession(s)
  {
    match s
    case ResetStageDecide =>
      if Rdy in h then Go(PinStatusCheck, NoAction)
      else if StatusHigh in h then Go(ResetStagePowerOff, NoAction)
      else if StatusLow in h then Go(ResetStagePowerOn, NoAction) else Stay
    case ResetStagePowerOff =>
      if StatusLow in h then Go(ResetStagePowerOn, NoAction)
      else if HardResetDelay in h then Go(ResetStageDecide, NoAction) else Stay
    case ResetStagePowerOn =>
      if Rdy in h then Go(PinStatusCheck, NoAction)
      else if StatusHigh in h then Go(Init, NoAction) else Stay
    case GprsReset =>
      if ShutOk in h then Go(GpsUsartEchoOn, NoAction)
      else if HardResetDelay in h || Error in h then Go(ResetStageDecide, NoAction) else Stay
    case GpsUsartEchoOn => if Ok in h then Go(Init, NoAction) else Stay
    case Init =>
      if f.atRetryLimitReached || CommandOk in h then Go(AtQbtpwr, ResetAtRetry)
      else if SecondPassed in h then Go(Init, IncAtRetry) else Stay
    case AtQbtpwr => if CommandOk in h then Go(AtQbtvisb, NoAction) else Stay
    case AtQbtvisb => if CommandOk in h then Go(AtQbtgatsreg, NoAction) else Stay
    case AtQbtgatsreg =>
      if CommandOk in h then Go(AtQbtgatsl, NoAction)
      else if CmeError in h then Go(PinStatusCheck, NoAction) else Stay
    case AtQbtgatsl =>
      if CommandOk in h then Go(PinStatusCheck, NoAction)
      else if CmeError100 in h then Go(PinStatusCheck, NoAction) else Stay
    case PinStatusCheck =>
      if CpinReady in h then Go(GetSimImsi, NoAction)
      else if Error in h then Go(PinStatusCheck, NoAction)
      else if CpinSimPin in h then Go(EnterPin, NoAction) else Stay
    case EnterPin =>
      if CommandOk in h then Go(PinStatusCheck, NoAction)
      else if Error in h then Go(PinStatusCheck, NoAction) else Stay
    case GetSimImsi => if Ok in h then Go(SignalQualityCheck, NoAction) else Stay
    case SignalQualityCheck =>
      if CsqUnknown in h then Go(SignalQualityCheck, NoAction)
      else if CsqKnown in h then Go(RegistrationCheck, NoAction) else Stay
    case RegistrationCheck =>
      if CregSearching in h then Go(SignalQualityCheck, NoAction)
      else if CregDenied in h then Go(SignalQualityCheck, NoAction)
      else if Error in h then Go(Init, NoAction)
      else if CregRegistered in h then Go(GprsAttachCheck, NoAction) else Stay
    case GprsAttachCheck =>
      if CgattDetached in h then Go(GprsAttachCheck, NoAction)
      else if CgattAttached in h then Go(SmsTextMode, NoAction) else Stay
    case SmsTextMode => if Ok in h then Go(SmsCharacterSet, NoAction) else Stay
    case SmsCharacterSet => if Ok in h then Go(SetContext, NoAction) else Stay
    case SetContext => if CommandOk in h then Go(ApnUserPasswdInput, NoAction) else Stay
    case ApnUserPasswdInput =>
      if Error in h then Go(GprsReset, NoAction)
      else if CommandOk in h then Go(MultipleConnectionsOff, NoAction) else Stay
    case MultipleConnectionsOff => if CommandOk in h then Go(SetModemMode, NoAction) else Stay
    case SetModemMode => if CommandOk in h then Go(UseDns, NoAction) else Stay
    case UseDns => if CommandOk in h then Go(SetReceiveMode, NoAction) else Stay
    case SetReceiveMode => if CommandOk in h then Go(ControlWaitForConnect, NoAction) else Stay
    case ControlWaitForConnect => if f.addressKnown then Go(CheckConnection, NoAction) else Stay
    case ShutDownStageStart =>
      if StatusHigh in h then Go(ShutDownStagePowerOff, NoAction)
      else if StatusLow in h then Go(ShutDown, NoAction) else Stay
    case ShutDownStagePowerOff => if StatusLow in h then Go(ShutDown, NoAction) else Stay
    case ShutDown => Stay
  }

  function FireInSession(s: State, f: Flags, h: set<Cond>): Move
    requires InSession(s)
  {
    match s
    case CloseAndReconnect => if CommandOk in h then Go(ConnectToServer, NotifyDisconnected) else Stay
    case CheckConnection =>
      if StateConnectOk in h then Go(NetworkGpsUsartEchoOff, NoAction)
      else if StateOther in h then Go(ConnectToServer, NoAction) else Stay
    case ConnectToServer =>
      if ConnectOk in h then Go(NetworkGpsUsartEchoOff, NotifyConnected)
      else if ConnectFail in h || Error in h then Go(CloseAndReconnect, NoAction) else Stay
    case NetworkGpsUsartEchoOff => if CommandOk in h then Go(NetworkCheckReceive, NoAction) else Stay
    case NetworkCheckReceive =>
      if f.newData then Go(NetworkBeginReceive, NoAction) else Go(NetworkBeginSend, NoAction)
    case NetworkBeginReceive =>
      if f.lengthAccepted then Go(NetworkReceive, NoAction)
      else if CommandOk in h then Go(NetworkBeginSend, ClearNewData)
      else if Error in h then Go(CloseAndReconnect, NoAction) else Stay
    case NetworkReceive =>
      if f.lengthMatches && Ok in h then Go(NetworkCheckReceive, DeliverData) else Stay
    case NetworkBeginSend =>
      if Closed in h then Go(CloseAndReconnect, NoAction)
      else if f.dataToSend then Go(CheckConnectionPreSend, NoAction)
      else if !f.sleepConfigured && SendDelayPassed in h then Go(NetworkBeginSend, NoAction)
      else if f.sleepConfigured then Go(Sleep, NoAction) else Stay
    case Sleep => if f.dataToSend then Go(Wake, NoAction) else Stay
    case Wake =>
      if Ok in h then Go(CheckConnectionPreSend, NoAction)
      else if SecondPassed in h then Go(Wake, NoAction) else Stay
    case CheckConnectionPreSend =>
      if StateConnectOk in h then Go(NetworkPrepareSend, NoAction)
      else if StateOther in h then Go(ConnectToServer, NoAction) else Stay
    case NetworkPrepareSend =>
      if Closed in h then Go(CloseAndReconnect, NoAction)
      else if f.bytesToSendZero then Go(CheckConnection, NoAction)
      else if Error in h then Go(CloseAndReconnect, NoAction)
      else if QisendEcho in h then Go(NetworkSend, NoAction) else Stay
    case NetworkSend =>
      if Closed in h then Go(CloseAndReconnect, NoAction)
      else if SendOk in h then Go(NetworkAckCheck, ResetAckRetry)
      else if SendTimeout in h then Go(CancelSend, NoAction)
      else if Error in h || SendFailed in h then Go(CloseAndReconnect, NoAction) else Stay
    case NetworkAckCheck => if AckReply in h then Go(NetworkAckCheckParse, NoAction) else Stay
    case NetworkAckCheckParse =>
      if Closed in h then Go(CloseAndReconnect, NoAction)
      else if f.retryLimitReached then Go(CancelSend, ResetAckRetry)
      else if f.allAcked then Go(NetworkDeclareRead, ResetAckRetry)
      else Go(NetworkAckCheck, IncAckRetry)
    case NetworkDeclareRead =>
      if Closed in h then Go(CloseAndReconnect, NoAction) else Go(SmsBeginSend, ReportSent)
    case CancelSend =>
      if SendOk in h then Go(CheckConnection, NoAction)
      else if Error in h || CancelPrompt in h then Go(GprsReset, NotifyDisconnected) else Stay
    case SmsBeginSend =>
      if f.smsToSend then Go(SmsSendSingleNumber, NoAction) else Go(CheckConnection, NoAction)
    case SmsSendSingleNumber => Go(SmsSendSingleBody, NoAction)
    case SmsSendSingleBody =>
      if CmgsOk in h then Go(SmsSendSingleRemove, NoAction)
      else if CmsError in h then Go(SmsSendSingleRemove, NoAction) else Stay
    case SmsSendSingleRemove => Go(SmsBeginSend, NoAction)
  }

  predicate SuppressesGlobalTransitions(s: State) {
    s.ResetStagePowerOff? || s.Sleep? || s.ShutDownStagePowerOff? || s.ShutDown?
  }

  // ------------------------------------------------------------- the driver's data

  datatype Modem = Modem(
    state: State,
    buffer: seq<Byte>,
    bytesToSend: nat,
    ackRetry: int,
    atRetry: int,
    ack: Ack,
    connected: bool,
    newData: bool,
    sleepWhenIdle: bool,
    callback: bool,
    address: seq<Byte>,
    port: Port,
    bytesReceived: nat,
    sms: seq<Sms>,
    halted: bool,
    log: Log)

  function Initial(callback: bool): Modem {
    Modem(ResetStageDecide, [], 0, 0, 0, NOTHING, false, false, true, callback, [], 0, 0, [], false, [])
  }

  function Emit(m: Modem, e: Event): Modem {
    m.(log := m.log + [e])
  }

  function Transmit(m: Modem, command: AtCommand): Modem {
    Emit(m, Command(command))
  }

  function OnConnected(m: Modem): Modem {
    if m.connected then m else Emit(m.(connected := true), ConnectedNote(m.callback))
  }

  function OnDisconnected(m: Modem): Modem {
    if !m.connected then m
    else Emit(Emit(m.(connected := false, buffer := []), Dropped(m.buffer)), DisconnectedNote(m.callback))
  }

  function OnSent(m: Modem): Modem {
    Emit(m, SentNote(m.bytesToSend, m.callback))
  }

  /** STAGE_PREPARE: choose how many bytes and announce them. */
  function Prepare(m: Modem): Modem {
    var n := Window(|m.buffer|);
    if n == 0 then m.(bytesToSend := 0) else Transmit(m.(bytesToSend := n), Qisend(n))
  }

  /** STAGE_SEND. */
  function SendStage(m: Modem): Modem {
    if m.bytesToSend == 0 then m else Emit(m, Payload(Prefix(m.buffer, m.bytesToSend)))
  }

  /** STAGE_DECLARE. */
  function DeclareStage(m: Modem): Modem {
    Emit(m.(buffer := DropFirst(m.buffer, m.bytesToSend)), Declared(Prefix(m.buffer, m.bytesToSend)))
  }

  function QueryAck(m: Modem, event: seq<Byte>): Modem {
    Emit(m.(ack := AckOf(event)), AckRead(AckOf(event)))
  }

  function SmsNumber(m: Modem): Modem {
    if m.sms == [] then m else Transmit(m, SmsTo(m.sms[0]))
  }

  function SmsBody(m: Modem): Modem {
    if m.sms == [] then m else Transmit(m, SmsBodyOf(m.sms[0]))
  }

  function SmsRemove(m: Modem): Modem {
    if m.sms == [] then m else Emit(m.(sms := m.sms[1..]), SmsRemoved(m.sms[0]))
  }

  function Perform(m: Modem, action: Action, event: seq<Byte>): Modem {
    match action
    case NoAction => m
    case NotifyConnected => OnConnected(m)
    case NotifyDisconnected => OnDisconnected(m)
    case ResetAtRetry => m.(atRetry := 0)
    case IncAtRetry => m.(atRetry := m.atRetry + 1)
    case ResetAckRetry => m.(ackRetry := 0)
    case IncAckRetry => m.(ackRetry := m.ackRetry + 1)
    case ClearNewData => m.(newData := false)
    case DeliverData => Emit(m, DataNote(event, m.callback))
    case ReportSent => OnSent(m)
  }

  function Enter(before: Modem, s: State, event: seq<Byte>): Modem {
    var m := before.(state := s);
    if s.ResetStageDecide? then OnDisconnected(m)
    else if s.ConnectToServer? then Transmit(m, Qiopen(m.address, m.port))
    else if s.NetworkPrepareSend? then Prepare(m)
    else if s.NetworkSend? then SendStage(m)
    else if s.NetworkAckCheckParse? then QueryAck(m, event)
    else if s.NetworkDeclareRead? then DeclareStage(m)
    else if s.SmsSendSingleNumber? then SmsNumber(m)
    else if s.SmsSendSingleBody? then SmsBody(m)
    else if s.SmsSendSingleRemove? then SmsRemove(m)
    else if SendsFixedCommand(s) then Transmit(m, Fixed(s))
    else m
  }

  // ------------------------------------------------------------------------ steps

  /** One look at the outside world: which conditions hold, and the event handed to actions. */
  datatype Env = Env(holds: set<Cond>, event: seq<Byte>)

  function DataFlags(m: Modem, event: seq<Byte>): Flags {
    Flags(
      m.atRetry > AT_RETRY_LIMIT,
      m.address != [] && m.port > 0,
      m.newData,
      m.state.NetworkBeginReceive? && RecvLength(event).Accepts(),
      |event| == m.bytesReceived,
      |m.buffer| > 0,
      m.sleepWhenIdle,
      m.bytesToSend == 0,
      m.ackRetry > QUERY_ACK_COUNT_LIMIT,
      m.ack.sent == m.ack.acked,
      |m.sms| > 0)
  }

  /** The length condition of NETWORK_BEGIN_RECEIVE stores what it reads, and may halt the program. */
  function Observe(m: Modem, event: seq<Byte>): Modem {
    if !m.state.NetworkBeginReceive? then m
    else
      match RecvLength(event)
      case Rejected => m
      case Parsed(length) => m.(bytesReceived := length)
      case Fault => m.(halted := true)
  }

  function TickMachine(m: Modem, env: Env): Modem {
    var o := Observe(m, env.event);
    if o.halted then o
    else
      match Fire(o.state, DataFlags(o, env.event), env.holds)
      case Stay => o
      case Go(target, action) => Enter(Perform(o, action, env.event), target, env.event)
  }

  datatype Input =
    | Tick(env: Env)              // the state's own transitions
    | SoftReset                   // global transition: nothing happened for too long
    | PowerOffEvent               // global transition: "_OFF", queued by power (false)
    | DataIndication              // global rule: "+QIRDI"
    | Restart                     // power (true)
    | Send(bytes: seq<Byte>)
    | Connect(newAddress: seq<Byte>, newPort: Port)
    | Disconnect
    | PushSms(sms: Sms)
    | SetCallback(installed: bool)
    | SetSleep(on: bool)

  function AppSend(m: Modem, bytes: seq<Byte>): Modem {
    if |m.buffer| + |bytes| > OUTPUT_BUFFER_SIZE then m
    else Emit(m.(buffer := m.buffer + bytes), Accepted(bytes))
  }

  function AppPushSms(m: Modem, sms: Sms): Modem {
    if |m.sms| >= SMS_CAPACITY then m else Emit(m.(sms := m.sms + [sms]), SmsQueued(sms))
  }

  function Step(m: Modem, input: Input): Modem {
    if m.halted then m
    else
      match input
      case Tick(env) => TickMachine(m, env)
      case SoftReset => if SuppressesGlobalTransitions(m.state) then m else Enter(m, GprsReset, [])
      case PowerOffEvent => if SuppressesGlobalTransitions(m.state) then m else Enter(m, ShutDownStageStart, [])
      case DataIndication => m.(newData := true)
      case Restart => Enter(m, ResetStageDecide, [])
      case Send(bytes) => AppSend(m, bytes)
      case Connect(address, port) => m.(address := CString(address), port := port)
      case Disconnect => m.(address := [], port := 0)
      case PushSms(sms) => AppPushSms(m, sms)
      case SetCallback(installed) => m.(callback := installed)
      case SetSleep(on) => m.(sleepWhenIdle := on)
  }

  function Run(m: Modem, inputs: seq<Input>): Modem
    decreases |inputs|
  {
    if inputs == [] then m else Step(Run(m, inputs[..|inputs| - 1]), inputs[|inputs| - 1])
  }

  lemma {:induction false} RunSplit(m: Modem, a: seq<Input>, b: seq<Input>)
    ensures Run(m, a + b) == Run(Run(m, a), b)
    decreases |b|
  {
    hide Step;
    if b == [] {
      assert a + b == a;
    } else {
      assert (a + b)[..|a + b| - 1] == a + b[..|b| - 1];
      RunSplit(m, a, b[..|b| - 1]);
    }
  }
}
