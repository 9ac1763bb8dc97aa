/**
 The constructor's table as the data it is: for each state its entry action, its flag and its
 edges in declaration order, each with the condition it waits for. An engine that knows nothing
 of the driver picks the first edge whose condition holds. `Machine` is proved to do the same.
 */
module Table {
  import opened Bytes
  import opened States
  import opened Commands
  import opened LengthReply
  import opened Machine
  import opened Runs

  // ---------------------------------------------------------------------- the engine

  /** Conditions on the driver's own data, by name. */
  datatype Datum =
    | AtRetryLimitReached | AddressKnown | NewData | LengthAccepted | LengthMatches | DataToSend
    | SleepConfigured | BytesToSendZero | RetryLimitReached | AllAcked | SmsToSend

  /** What an edge waits for: conditions from outside, data, and the few combinations the table uses. */
  datatype Guard =
    | Always
    | On(cond: Cond)
    | Either(cond1: Cond, cond2: Cond)
    | If(datum: Datum)
    | IfOr(datum: Datum, cond: Cond)
    | IfAnd(datum: Datum, cond: Cond)
    | UnlessAnd(datum: Datum, cond: Cond)

  function Known(d: Datum, f: Flags): bool {
    match d
    case AtRetryLimitReached => f.atRetryLimitReached
    case AddressKnown => f.addressKnown
    case NewData => f.newData
    case LengthAccepted => f.lengthAccepted
    case LengthMatches => f.lengthMatches
    case DataToSend => f.dataToSend
    case SleepConfigured => f.sleepConfigured
    case BytesToSendZero => f.bytesToSendZero
    case RetryLimitReached => f.retryLimitReached
    case AllAcked => f.allAcked
    case SmsToSend => f.smsToSend
  }

  predicate Holds(g: Guard, f: Flags, h: set<Cond>) {
    match g
    case Always => true
    case On(cond) => cond in h
    case Either(cond1, cond2) => cond1 in h || cond2 in h
    case If(datum) => Known(datum, f)
    case IfOr(datum, cond) => Known(datum, f) || cond in h
    case IfAnd(datum, cond) => Known(datum, f) && cond in h
    case UnlessAnd(datum, cond) => !Known(datum, f) && cond in h
  }

  datatype Edge = Edge(target: State, guard: Guard, action: Action)

  /** The first edge whose condition holds. */
  function FirstTrue(edges: seq<Edge>, f: Flags, h: set<Cond>): Move {
    if edges == [] then Stay
    else if Holds(edges[0].guard, f, h) then Go(edges[0].target, edges[0].action)
    else FirstTrue(edges[1..], f, h)
  }

  datatype Entry =
    | NoEntry
    | At(text: seq<Byte>)
    | DisconnectEntry | OpenEntry | PrepareEntry | SendEntry | AckEntry | DeclareEntry
    | NumberEntry | BodyEntry | RemoveEntry

  datatype Row = Row(entry: Entry, suppress: bool, edges: seq<Edge>)

  // ----------------------------------------------------------------------- the table

  function Plain(entry: Entry, edges: seq<Edge>): Row {
    Row(entry, false, edges)
  }

  /** Power, reset, bring-up and shutdown. */
  function RowOutside(s: State): Row
    requires !InSession(s)
  {
    match s
    case ResetStageDecide => Plain(DisconnectEntry, [
      Edge(PinStatusCheck, On(Rdy), NoAction),
      Edge(ResetStagePowerOff, On(StatusHigh), NoAction),
      Edge(ResetStagePowerOn, On(StatusLow), NoAction)])
    case ResetStagePowerOff => Row(NoEntry, true, [
      Edge(ResetStagePowerOn, On(StatusLow), NoAction),
      Edge(ResetStageDecide, On(HardResetDelay), NoAction)])
    case ResetStagePowerOn => Plain(NoEntry, [
      Edge(PinStatusCheck, On(Rdy), NoAction),
      Edge(Init, On(StatusHigh), NoAction)])
    case GprsReset => Plain(At("AT+CIPSHUT\r\n"), [
      Edge(GpsUsartEchoOn, On(ShutOk), NoAction),
      Edge(ResetStageDecide, Either(HardResetDelay, Error), NoAction)])
    case GpsUsartEchoOn => Plain(At("ATE1\r\n"), [
      Edge(Init, On(Ok), NoAction)])
    case Init => Plain(At("AT\r\n"), [
      Edge(AtQbtpwr, IfOr(AtRetryLimitReached, CommandOk), ResetAtRetry),
      Edge(Init, On(SecondPassed), IncAtRetry)])
    case AtQbtpwr => Plain(At("AT+QBTPWR=1\r\n"), [
      Edge(AtQbtvisb, On(CommandOk), NoAction)])
    case AtQbtvisb => Plain(At("AT+QBTVISB=0\r\n"), [
      Edge(AtQbtgatsreg, On(CommandOk), NoAction)])
    case AtQbtgatsreg => Plain(At("AT+QBTGATSREG=1,\"ABC2\"\r\n"), [
      Edge(AtQbtgatsl, On(CommandOk), NoAction),
      Edge(PinStatusCheck, On(CmeError), NoAction)])
    case AtQbtgatsl => Plain(At("AT+QBTGATSL=\"ABC2\",1\r\n"), [
      Edge(PinStatusCheck, On(CommandOk), NoAction),
      Edge(PinStatusCheck, On(CmeError100), NoAction)])
    case PinStatusCheck => Plain(At("AT+CPIN?\r\n"), [
      Edge(GetSimImsi, On(CpinReady), NoAction),
      Edge(PinStatusCheck, On(Error), NoAction),
      Edge(EnterPin, On(CpinSimPin), NoAction)])
    case EnterPin => Plain(At("AT+CPIN=1220\r\n"), [
      Edge(PinStatusCheck, On(CommandOk), NoAction),
      Edge(PinStatusCheck, On(Error), NoAction)])
    case GetSimImsi => Plain(At("AT+CIMI\r\n"), [
      Edge(SignalQualityCheck, On(Ok), NoAction)])
    case SignalQualityCheck => Plain(At("AT+CSQ\r\n"), [
      Edge(SignalQualityCheck, On(CsqUnknown), NoAction),
      Edge(RegistrationCheck, On(CsqKnown), NoAction)])
    case RegistrationCheck => Plain(At("AT+CREG?\r\n"), [
      Edge(SignalQualityCheck, On(CregSearching), NoAction),
      Edge(SignalQualityCheck, On(CregDenied), NoAction),
      Edge(Init, On(Error), NoAction),
      Edge(GprsAttachCheck, On(CregRegistered), NoAction)])
    case GprsAttachCheck => Plain(At("AT+CGATT?\r\n"), [
      Edge(GprsAttachCheck, On(CgattDetached), NoAction),
      Edge(SmsTextMode, On(CgattAttached), NoAction)])
    case SmsTextMode => Plain(At("AT+CMGF=1\r\n"), [
      Edge(SmsCharacterSet, On(Ok), NoAction)])
    case SmsCharacterSet => Plain(At("AT+CSCS=\"GSM\"\r\n"), [
      Edge(SetContext, On(Ok), NoAction)])
    case SetContext => Plain(At("AT+QIFGCNT=0\r\n"), [
      Edge(ApnUserPasswdInput, On(CommandOk), NoAction)])
    case ApnUserPasswdInput => Plain(At("AT+QICSGP=1,\"internet\"\r\n"), [
      Edge(GprsReset, On(Error), NoAction),
      Edge(MultipleConnectionsOff, On(CommandOk), NoAction)])
    case MultipleConnectionsOff => Plain(At("AT+QIMUX=0\r\n"), [
      Edge(SetModemMode, On(CommandOk), NoAction)])
    case SetModemMode => Plain(At("AT+QIMODE=0\r\n"), [
      Edge(UseDns, On(CommandOk), NoAction)])
    case UseDns => Plain(At("AT+QIDNSIP=1\r\n"), [
      Edge(SetReceiveMode, On(CommandOk), NoAction)])
    case SetReceiveMode => Plain(At("AT+QINDI=1\r\n"), [
      Edge(ControlWaitForConnect, On(CommandOk), NoAction)])
    case ControlWaitForConnect => Plain(NoEntry, [
      Edge(CheckConnection, If(AddressKnown), NoAction)])
    case ShutDownStageStart => Plain(NoEntry, [
      Edge(ShutDownStagePowerOff, On(StatusHigh), NoAction),
      Edge(ShutDown, On(StatusLow), NoAction)])
    case ShutDownStagePowerOff => Row(NoEntry, true, [
      Edge(ShutDown, On(StatusLow), NoAction)])
    case ShutDown => Row(NoEntry, true, [])
  }

  /** Connecting, receiving, sending and SMS. */
  function RowInSession(s: State): Row
    requires InSession(s)
  {
    match s
    case CloseAndReconnect => Plain(At("AT+QICLOSE\r\n"), [
      Edge(ConnectToServer, On(CommandOk), NotifyDisconnected)])
    case CheckConnection => Plain(At("AT+QISTATE\r\n"), [
      Edge(NetworkGpsUsartEchoOff, On(StateConnectOk), NoAction),
      Edge(ConnectToServer, On(StateOther), NoAction)])
    case ConnectToServer => Plain(OpenEntry, [
      Edge(NetworkGpsUsartEchoOff, On(ConnectOk), NotifyConnected),
      Edge(CloseAndReconnect, Either(ConnectFail, Error), NoAction)])
    case NetworkGpsUsartEchoOff => Plain(At("AT+QISDE=0\r\n"), [
      Edge(NetworkCheckReceive, On(CommandOk), NoAction)])
    case NetworkCheckReceive => Plain(NoEntry, [
      Edge(NetworkBeginReceive, If(NewData), NoAction),
      Edge(NetworkBeginSend, Always, NoAction)])
    case NetworkBeginReceive => Plain(At("AT+QIRD=0,1,0,1500\r\n"), [
      Edge(NetworkReceive, If(LengthAccepted), NoAction),
      Edge(NetworkBeginSend, On(CommandOk), ClearNewData),
      Edge(CloseAndReconnect, On(Error), NoAction)])
    case NetworkReceive => Plain(NoEntry, [
      Edge(NetworkCheckReceive, IfAnd(LengthMatches, Ok), DeliverData)])
    case NetworkBeginSend => Plain(NoEntry, [
      Edge(CloseAndReconnect, On(Closed), NoAction),
      Edge(CheckConnectionPreSend, If(DataToSend), NoAction),
      Edge(NetworkBeginSend, UnlessAnd(SleepConfigured, SendDelayPassed), NoAction),
      Edge(Sleep, If(SleepConfigured), NoAction)])
    case Sleep => Row(At("AT+QSCLK=2\r\n"), true, [
      Edge(Wake, If(DataToSend), NoAction)])
    case Wake => Plain(At("AT\r\n"), [
      Edge(CheckConnectionPreSend, On(Ok), NoAction),
      Edge(Wake, On(SecondPassed), NoAction)])
    case CheckConnectionPreSend => Plain(At("AT+QISTATE\r\n"), [
      Edge(NetworkPrepareSend, On(StateConnectOk), NoAction),
      Edge(ConnectToServer, On(StateOther), NoAction)])
    case NetworkPrepareSend => Plain(PrepareEntry, [
      Edge(CloseAndReconnect, On(Closed), NoAction),
      Edge(CheckConnection, If(BytesToSendZero), NoAction),
      Edge(CloseAndReconnect, On(Error), NoAction),
      Edge(NetworkSend, On(QisendEcho), NoAction)])
    case NetworkSend => Plain(SendEntry, [
      Edge(CloseAndReconnect, On(Closed), NoAction),
      Edge(NetworkAckCheck, On(SendOk), ResetAckRetry),
      Edge(CancelSend, On(SendTimeout), NoAction),
      Edge(CloseAndReconnect, Either(Error, SendFailed), NoAction)])
    case NetworkAckCheck => Plain(At("AT+QISACK\r\n"), [
      Edge(NetworkAckCheckParse, On(AckReply), NoAction)])
    case NetworkAckCheckParse => Plain(AckEntry, [
      Edge(CloseAndReconnect, On(Closed), NoAction),
      Edge(CancelSend, If(RetryLimitReached), ResetAckRetry),
      Edge(NetworkDeclareRead, If(AllAcked), ResetAckRetry),
      Edge(NetworkAckCheck, Always, IncAckRetry)])
    case NetworkDeclareRead => Plain(DeclareEntry, [
      Edge(CloseAndReconnect, On(Closed), NoAction),
      Edge(SmsBeginSend, Always, ReportSent)])
    case CancelSend => Plain(At("+++\r\n"), [
      Edge(CheckConnection, On(SendOk), NoAction),
      Edge(GprsReset, Either(Error, CancelPrompt), NotifyDisconnected)])
    case SmsBeginSend => Plain(NoEntry, [
      Edge(SmsSendSingleNumber, If(SmsToSend), NoAction),
      Edge(CheckConnection, Always, NoAction)])
    case SmsSendSingleNumber => Plain(NumberEntry, [
      Edge(SmsSendSingleBody, Always, NoAction)])
    case SmsSendSingleBody => Plain(BodyEntry, [
      Edge(SmsSendSingleRemove, On(CmgsOk), NoAction),
      Edge(SmsSendSingleRemove, On(CmsError), NoAction)])
    case SmsSendSingleRemove => Plain(RemoveEntry, [
      Edge(SmsBeginSend, Always, NoAction)])
  }

  function RowOf(s: State): Row {
    if InSession(s) then RowInSession(s) else RowOutside(s)
  }

  // ------------------------------------------------------------ the machine follows it

  /** No state has more than four edges; written out, the first true one is this. */
  function OfFour(edges: seq<Edge>, f: Flags, h: set<Cond>): Move {
    if |edges| > 0 && Holds(edges[0].guard, f, h) then Go(edges[0].target, edges[0].action)
    else if |edges| > 1 && Holds(edges[1].guard, f, h) then Go(edges[1].target, edges[1].action)
    else if |edges| > 2 && Holds(edges[2].guard, f, h) then Go(edges[2].target, edges[2].action)
    else if |edges| > 3 && Holds(edges[3].guard, f, h) then Go(edges[3].target, edges[3].action)
    else Stay
  }

  lemma {:induction false} FirstOfFour(edges: seq<Edge>, f: Flags, h: set<Cond>)
    requires |edges| <= 4
    ensures FirstTrue(edges, f, h) == OfFour(edges, f, h)
  {
    hide Holds;
    if edges != [] {
      FirstOfFour(edges[1..], f, h);
    }
  }

  /** The command or the routine a state runs on entry, as `Machine` tells them apart. */
  predicate EntryMatches(s: State, entry: Entry) {
    match entry
    case NoEntry =>
      && !SendsFixedCommand(s) && !s.ResetStageDecide? && !s.ConnectToServer? && !s.NetworkPrepareSend?
      && !s.NetworkSend? && !s.NetworkAckCheckParse? && !s.NetworkDeclareRead? && !s.SmsSendSingleNumber?
      && !s.SmsSendSingleBody? && !s.SmsSendSingleRemove?
    case At(text) => SendsFixedCommand(s) && FixedText(s) == text
    case DisconnectEntry => s.ResetStageDecide?
    case OpenEntry => s.ConnectToServer?
    case PrepareEntry => s.NetworkPrepareSend?
    case SendEntry => s.NetworkSend?
    case AckEntry => s.NetworkAckCheckParse?
    case DeclareEntry => s.NetworkDeclareRead?
    case NumberEntry => s.SmsSendSingleNumber?
    case BodyEntry => s.SmsSendSingleBody?
    case RemoveEntry => s.SmsSendSingleRemove?
  }

  predicate Resets(s: State) {
    || s.ResetStageDecide? || s.ResetStagePowerOff? || s.ResetStagePowerOn? || s.GprsReset? || s.GpsUsartEchoOn?
    || s.Init? || s.ShutDownStageStart? || s.ShutDownStagePowerOff? || s.ShutDown?
  }

  predicate SetsUp(s: State) {
    s.AtQbtpwr? || s.AtQbtvisb? || s.AtQbtgatsreg? || s.AtQbtgatsl? || s.PinStatusCheck? || s.EnterPin?
  }

  predicate Registers(s: State) {
    s.GetSimImsi? || s.SignalQualityCheck? || s.RegistrationCheck? || s.GprsAttachCheck?
  }

  predicate Connects(s: State) {
    s.CloseAndReconnect? || s.CheckConnection? || s.ConnectToServer? || s.NetworkGpsUsartEchoOff?
  }

  predicate Receives(s: State) {
    s.NetworkCheckReceive? || s.NetworkBeginReceive? || s.NetworkReceive?
  }

  predicate Prepares(s: State) {
    s.Wake? || s.CheckConnectionPreSend? || s.NetworkPrepareSend?
  }

  predicate Waits(s: State) {
    s.NetworkBeginSend? || s.Sleep?
  }

  lemma ResetEdges(s: State, f: Flags, h: set<Cond>)
    requires !InSession(s) && Resets(s)
    ensures |RowOutside(s).edges| <= 4 && FireOutside(s, f, h) == OfFour(RowOutside(s).edges, f, h)
  {
  }

  lemma ResetEntries(s: State)
    requires !InSession(s) && Resets(s)
    ensures EntryMatches(s, RowOutside(s).entry) && (SuppressesGlobalTransitions(s) <==> RowOutside(s).suppress)
  {
  }

  lemma SetUpEdges(s: State, f: Flags, h: set<Cond>)
    requires !InSession(s) && SetsUp(s)
    ensures |RowOutside(s).edges| <= 4 && FireOutside(s, f, h) == OfFour(RowOutside(s).edges, f, h)
  {
  }

  lemma SetUpEntries(s: State)
    requires !InSession(s) && SetsUp(s)
    ensures EntryMatches(s, RowOutside(s).entry) && (SuppressesGlobalTransitions(s) <==> RowOutside(s).suppress)
  {
  }

  lemma RegisterEdges(s: State, f: Flags, h: set<Cond>)
    requires !InSession(s) && Registers(s)
    ensures |RowOutside(s).edges| <= 4 && FireOutside(s, f, h) == OfFour(RowOutside(s).edges, f, h)
  {
  }

  lemma RegisterEntries(s: State)
    requires !InSession(s) && Registers(s)
    ensures EntryMatches(s, RowOutside(s).entry) && (SuppressesGlobalTransitions(s) <==> RowOutside(s).suppress)
  {
  }

  lemma ConfigureEdges(s: State, f: Flags, h: set<Cond>)
    requires !InSession(s) && !Resets(s) && !SetsUp(s) && !Registers(s)
    ensures |RowOutside(s).edges| <= 4 && FireOutside(s, f, h) == OfFour(RowOutside(s).edges, f, h)
  {
  }

  lemma ConfigureEntries(s: State)
    requires !InSession(s) && !Resets(s) && !SetsUp(s) && !Registers(s)
    ensures EntryMatches(s, RowOutside(s).entry) && (SuppressesGlobalTransitions(s) <==> RowOutside(s).suppress)
  {
  }

  lemma ConnectEdges(s: State, f: Flags, h: set<Cond>)
    requires InSession(s) && Connects(s)
    ensures |RowInSession(s).edges| <= 4 && FireInSession(s, f, h) == OfFour(RowInSession(s).edges, f, h)
  {
  }

  lemma ConnectEntries(s: State)
    requires InSession(s) && Connects(s)
    ensures EntryMatches(s, RowInSession(s).entry) && (SuppressesGlobalTransitions(s) <==> RowInSession(s).suppress)
  {
  }

  lemma ReceiveEdges(s: State, f: Flags, h: set<Cond>)
    requires InSession(s) && Receives(s)
    ensures |RowInSession(s).edges| <= 4 && FireInSession(s, f, h) == OfFour(RowInSession(s).edges, f, h)
  {
  }

  lemma ReceiveEntries(s: State)
    requires InSession(s) && Receives(s)
    ensures EntryMatches(s, RowInSession(s).entry) && (SuppressesGlobalTransitions(s) <==> RowInSession(s).suppress)
  {
  }

  lemma PrepareEdges(s: State, f: Flags, h: set<Cond>)
    requires InSession(s) && Prepares(s)
    ensures |RowInSession(s).edges| <= 4 && FireInSession(s, f, h) == OfFour(RowInSession(s).edges, f, h)
  {
  }

  lemma PrepareEntries(s: State)
    requires InSession(s) && Prepares(s)
    ensures EntryMatches(s, RowInSession(s).entry) && (SuppressesGlobalTransitions(s) <==> RowInSession(s).suppress)
  {
  }

  lemma WaitEdges(s: State, f: Flags, h: set<Cond>)
    requires InSession(s) && Waits(s)
    ensures |RowInSession(s).edges| <= 4 && FireInSession(s, f, h) == OfFour(RowInSession(s).edges, f, h)
  {
  }

  lemma WaitEntries(s: State)
    requires InSession(s) && Waits(s)
    ensures EntryMatches(s, RowInSession(s).entry) && (SuppressesGlobalTransitions(s) <==> RowInSession(s).suppress)
  {
  }

  lemma SendEdges(s: State, f: Flags, h: set<Cond>)
    requires InSession(s) && !Connects(s) && !Receives(s) && !Prepares(s) && !Waits(s)
    ensures |RowInSession(s).edges| <= 4 && FireInSession(s, f, h) == OfFour(RowInSession(s).edges, f, h)
  {
  }

  lemma SendEntries(s: State)
    requires InSession(s) && !Connects(s) && !Receives(s) && !Prepares(s) && !Waits(s)
    ensures EntryMatches(s, RowInSession(s).entry) && (SuppressesGlobalTransitions(s) <==> RowInSession(s).suppress)
  {
  }

  /** In every state, for all data and conditions, the machine takes the first true edge of the table. */
  lemma FireFollowsTable(s: State, f: Flags, h: set<Cond>)
    ensures Fire(s, f, h) == FirstTrue(RowOf(s).edges, f, h)
  {
    hide FireOutside, FireInSession, RowOutside, RowInSession, FirstTrue, OfFour;
    hide Resets, SetsUp, Registers, Connects, Receives, Prepares, Waits;
    if !InSession(s) {
      if Resets(s) {
        ResetEdges(s, f, h);
      } else if SetsUp(s) {
        SetUpEdges(s, f, h);
      } else if Registers(s) {
        RegisterEdges(s, f, h);
      } else {
        ConfigureEdges(s, f, h);
      }
    } else if Connects(s) {
      ConnectEdges(s, f, h);
    } else if Receives(s) {
      ReceiveEdges(s, f, h);
    } else if Prepares(s) {
      PrepareEdges(s, f, h);
    } else if Waits(s) {
      WaitEdges(s, f, h);
    } else {
      SendEdges(s, f, h);
    }
    FirstOfFour(RowOf(s).edges, f, h);
  }

  lemma EntriesFollow(s: State)
    ensures EntryMatches(s, RowOf(s).entry)
    ensures SuppressesGlobalTransitions(s) <==> RowOf(s).suppress
  {
    hide RowOutside, RowInSession, EntryMatches, SuppressesGlobalTransitions;
    hide Resets, SetsUp, Registers, Connects, Receives, Prepares, Waits;
    if !InSession(s) {
      if Resets(s) {
        ResetEntries(s);
      } else if SetsUp(s) {
        SetUpEntries(s);
      } else if Registers(s) {
        RegisterEntries(s);
      } else {
        ConfigureEntries(s);
      }
    } else if Connects(s) {
      ConnectEntries(s);
    } else if Receives(s) {
      ReceiveEntries(s);
    } else if Prepares(s) {
      PrepareEntries(s);
    } else if Waits(s) {
      WaitEntries(s);
    } else {
      SendEntries(s);
    }
  }

  /** What the engine does when it enters a state with such an entry action. */
  function Execute(m: Modem, entry: Entry, event: seq<Byte>): Modem
    requires entry.At? ==> SendsFixedCommand(m.state)
  {
    match entry
    case NoEntry => m
    case At(_) => Transmit(m, Fixed(m.state))
    case DisconnectEntry => OnDisconnected(m)
    case OpenEntry => Transmit(m, Qiopen(m.address, m.port))
    case PrepareEntry => Prepare(m)
    case SendEntry => SendStage(m)
    case AckEntry => QueryAck(m, event)
    case DeclareEntry => DeclareStage(m)
    case NumberEntry => SmsNumber(m)
    case BodyEntry => SmsBody(m)
    case RemoveEntry => SmsRemove(m)
  }

  /** Entering any state runs the entry action of its row; the text of a plain command is the row's. */
  lemma EnterFollowsTable(m: Modem, s: State, event: seq<Byte>)
    ensures var entry := RowOf(s).entry;
      && (entry.At? ==> SendsFixedCommand(s) && Text(Fixed(s)) == entry.text)
      && Enter(m, s, event) == Execute(m.(state := s), entry, event)
  {
    hide RowOf, FixedText;
    hide OnDisconnected, Prepare, SendStage, QueryAck, DeclareStage, SmsNumber, SmsBody, SmsRemove, Transmit;
    EntriesFollow(s);
  }

  /** The global transitions: taken from every state whose row does not suppress them, and from no other. */
  lemma GlobalsFollowTable(m: Modem)
    requires !m.halted
    ensures Step(m, SoftReset) == if RowOf(m.state).suppress then m else Enter(m, GprsReset, [])
    ensures Step(m, PowerOffEvent) == if RowOf(m.state).suppress then m else Enter(m, ShutDownStageStart, [])
    ensures Step(m, Restart) == Enter(m, ResetStageDecide, [])
  {
    hide Enter, RowOf;
    EntriesFollow(m.state);
  }

  /** One step of the engine over the table: look, pick, act, enter. */
  function EngineTick(m: Modem, env: Env): Modem {
    var o := Observe(m, env.event);
    if o.halted then o
    else
      match FirstTrue(RowOf(m.state).edges, DataFlags(o, env.event), env.holds)
      case Stay => o
      case Go(target, action) =>
        var entry := RowOf(target).entry;
        var p := Perform(o, action, env.event).(state := target);
        if entry.At? && !SendsFixedCommand(target) then p else Execute(p, entry, env.event)
  }

  /** The machine is the engine at work on the table. */
  lemma TickFollowsTable(m: Modem, env: Env)
    ensures TickMachine(m, env) == EngineTick(m, env)
  {
    hide TickMachine, Observe, Fire, Perform, Enter, Execute, DataFlags, FirstTrue, RowOf, SendsFixedCommand;
    var o, move := TickShape(m, env);
    FireFollowsTable(m.state, DataFlags(o, env.event), env.holds);
    if move.Go? {
      EnterFollowsTable(Perform(o, move.action, env.event), move.target, env.event);
    }
  }
}
