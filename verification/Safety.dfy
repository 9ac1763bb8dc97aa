/** Every step, whatever the modem answers and whatever the application calls, keeps the log lawful. */
module Safety {
  import opened Bytes
  import opened States
  import opened Commands
  import opened SendBuffer
  import opened AckReply
  import opened LengthReply
  import opened Trace
  import opened Machine

  // -------------------------------------------------------------- the invariant

  /** How the driver's fields relate to its past, in every state. */
  ghost predicate Linked(m: Modem, d: Digest) {
    && d.accepted == d.removed + m.buffer
    && |m.buffer| <= 6144
    && d.up == m.connected
    && d.smsIn == d.smsOut + m.sms
    && |m.sms| <= 4
    && !d.dropping
    && 0 <= m.ackRetry <= 9
    && 0 <= m.atRetry <= 6
  }

  /** The bytes of the current round are at the front of the buffer. */
  predicate Windowed(m: Modem) {
    0 < m.bytesToSend <= |m.buffer| && m.bytesToSend <= 1460
  }

  /** ... and were transmitted from there. */
  ghost predicate InFlight(m: Modem, d: Digest) {
    && Windowed(m)
    && d.flight == Some(Chunk(|d.removed|, m.buffer[..m.bytesToSend]))
  }

  ghost predicate LastSent(d: Digest, command: AtCommand) {
    d.wire != [] && d.wire[|d.wire| - 1] == Command(command)
  }

  ghost predicate LastTwoSent(d: Digest, e1: Event, e2: Event) {
    |d.wire| >= 2 && d.wire[|d.wire| - 2..] == [e1, e2]
  }

  /** What has to hold when a state is about to be entered. */
  ghost predicate Ready(m: Modem, s: State, d: Digest) {
    && (s.Wake? || s.CheckConnectionPreSend? || s.NetworkPrepareSend? ==> m.buffer != [])
    && (s.NetworkSend? ==> Windowed(m) && LastSent(d, Qisend(m.bytesToSend)))
    && (s.NetworkAckCheck? || s.NetworkAckCheckParse? ==> InFlight(m, d) && d.polls == m.ackRetry)
    && (s.NetworkDeclareRead? ==>
          InFlight(m, d) && 1 <= d.polls <= 9 && d.ack.Some? && d.ack.value.sent == d.ack.value.acked)
    && (s.SmsSendSingleNumber? ==> m.sms != [])
    && (s.SmsSendSingleBody? ==> m.sms != [] && LastSent(d, SmsTo(m.sms[0])))
    && (s.SmsSendSingleRemove? ==>
          m.sms != [] && LastTwoSent(d, Command(SmsTo(m.sms[0])), Command(SmsBodyOf(m.sms[0]))))
  }

  /** What holds while the machine rests in a state. */
  ghost predicate Local(m: Modem, d: Digest) {
    var s := m.state;
    && (s.Wake? || s.CheckConnectionPreSend? ==> m.buffer != [])
    && (s.NetworkPrepareSend? ==> Windowed(m) && LastSent(d, Qisend(m.bytesToSend)))
    && (s.NetworkSend? ==>
          && InFlight(m, d) && d.polls == 0
          && LastTwoSent(d, Command(Qisend(m.bytesToSend)), Payload(m.buffer[..m.bytesToSend])))
    && (s.NetworkAckCheck? ==> InFlight(m, d) && d.polls == m.ackRetry)
    && (s.NetworkAckCheckParse? ==> InFlight(m, d) && d.polls == m.ackRetry + 1 && d.ack == Some(m.ack))
    && (s.NetworkDeclareRead? ==> 0 < m.bytesToSend <= 1460 && d.unreported == Some(m.bytesToSend))
    && (s.SmsSendSingleNumber? ==> m.sms != [] && LastSent(d, SmsTo(m.sms[0])))
    && (s.SmsSendSingleBody? ==>
          m.sms != [] && LastTwoSent(d, Command(SmsTo(m.sms[0])), Command(SmsBodyOf(m.sms[0]))))
  }

  ghost predicate Base(m: Modem) {
    Lawful(m.log) && Linked(m, Digested(m.log))
  }

  ghost predicate Inv(m: Modem) {
    Base(m) && Local(m, Digested(m.log))
  }

  // ------------------------------------------------------------------ the actions

  lemma OnConnectedKeepsBase(m: Modem)
    requires Base(m)
    ensures Base(OnConnected(m))
  {
    hide Lawful, Digested;
    Extend(m.log, ConnectedNote(m.callback));
  }

  lemma OnDisconnectedKeepsBase(m: Modem)
    requires Base(m)
    ensures Base(OnDisconnected(m))
  {
    hide Lawful, Digested;
    Extend(m.log, Dropped(m.buffer));
    Extend(m.log + [Dropped(m.buffer)], DisconnectedNote(m.callback));
  }

  /** A plain command changes nothing but the end of the wire. */
  lemma TransmitKeepsBase(m: Modem, command: AtCommand)
    requires Base(m)
    ensures Base(Transmit(m, command))
    ensures var d, d' := Digested(m.log), Digested(Transmit(m, command).log);
            d' == d.(wire := d.wire + [Command(command)])
  {
    hide Lawful, Digested;
    Extend(m.log, Command(command));
  }

  lemma PerformKeepsBase(m: Modem, action: Action, event: seq<Byte>)
    requires Base(m)
    requires action.ReportSent? ==> Digested(m.log).unreported == Some(m.bytesToSend)
    requires action.IncAckRetry? ==> m.ackRetry <= 8
    requires action.IncAtRetry? ==> m.atRetry <= 5
    ensures Base(Perform(m, action, event))
  {
    hide Lawful, Digested;
    match action {
      case NotifyConnected => OnConnectedKeepsBase(m);
      case NotifyDisconnected => OnDisconnectedKeepsBase(m);
      case DeliverData => Extend(m.log, DataNote(event, m.callback));
      case ReportSent => Extend(m.log, SentNote(m.bytesToSend, m.callback));
      case _ =>
    }
  }

  // ------------------------------------------------------------ the entry actions

  lemma PrepareEntry(m: Modem)
    requires Base(m) && m.state.NetworkPrepareSend? && Ready(m, NetworkPrepareSend, Digested(m.log))
    ensures Inv(Prepare(m))
  {
    hide Lawful, Digested;
    var n := Window(|m.buffer|);
    TransmitKeepsBase(m.(bytesToSend := n), Qisend(n));
  }

  lemma SendEntry(m: Modem)
    requires Base(m) && m.state.NetworkSend? && Ready(m, NetworkSend, Digested(m.log))
    ensures Inv(SendStage(m))
  {
    hide Lawful, Digested;
    var d := Digested(m.log);
    var bytes := m.buffer[..m.bytesToSend];
    assert d.accepted == d.removed + bytes + m.buffer[m.bytesToSend..];
    Extend(m.log, Payload(bytes));
    var w := d.wire + [Payload(bytes)];
    assert w[|w| - 2..] == [Command(Qisend(m.bytesToSend)), Payload(bytes)];
  }

  lemma QueryAckEntry(m: Modem, event: seq<Byte>)
    requires Base(m) && m.state.NetworkAckCheckParse? && Ready(m, NetworkAckCheckParse, Digested(m.log))
    ensures Inv(QueryAck(m, event))
  {
    hide Lawful, Digested;
    Extend(m.log, AckRead(AckOf(event)));
  }

  lemma DeclareEntry(m: Modem)
    requires Base(m) && m.state.NetworkDeclareRead? && Ready(m, NetworkDeclareRead, Digested(m.log))
    ensures Inv(DeclareStage(m))
  {
    hide Lawful, Digested;
    var d := Digested(m.log);
    var bytes := m.buffer[..m.bytesToSend];
    var rest := DropFirst(m.buffer, m.bytesToSend);
    assert bytes + rest == m.buffer;
    assert d.accepted == d.removed + bytes + rest;
    Extend(m.log, Declared(bytes));
  }

  lemma SmsNumberEntry(m: Modem)
    requires Base(m) && m.state.SmsSendSingleNumber? && Ready(m, SmsSendSingleNumber, Digested(m.log))
    ensures Inv(SmsNumber(m))
  {
    hide Lawful, Digested;
    TransmitKeepsBase(m, SmsTo(m.sms[0]));
  }

  lemma SmsBodyEntry(m: Modem)
    requires Base(m) && m.state.SmsSendSingleBody? && Ready(m, SmsSendSingleBody, Digested(m.log))
    ensures Inv(SmsBody(m))
  {
    hide Lawful, Digested;
    TransmitKeepsBase(m, SmsBodyOf(m.sms[0]));
    var w := Digested(m.log).wire + [Command(SmsBodyOf(m.sms[0]))];
    assert w[|w| - 2..] == [Command(SmsTo(m.sms[0])), Command(SmsBodyOf(m.sms[0]))];
  }

  lemma SmsRemoveEntry(m: Modem)
    requires Base(m) && m.state.SmsSendSingleRemove? && Ready(m, SmsSendSingleRemove, Digested(m.log))
    ensures Inv(SmsRemove(m))
  {
    hide Lawful, Digested;
    var d := Digested(m.log);
    var first, rest := m.sms[0], m.sms[1..];
    assert m.sms == [first] + rest;
    assert d.smsIn == d.smsOut + [first] + rest;
    assert d.smsOut + [first] <= d.smsIn;
    Extend(m.log, SmsRemoved(first));
  }

  /** A state that only sends its command keeps what it asked for. */
  lemma FixedEntry(m: Modem)
    requires SendsFixedCommand(m.state)
    requires Base(m) && Ready(m, m.state, Digested(m.log))
    ensures Inv(Transmit(m, Fixed(m.state)))
  {
    hide Lawful, Digested;
    TransmitKeepsBase(m, Fixed(m.state));
  }

  lemma ResetEntry(m: Modem)
    requires Base(m) && m.state.ResetStageDecide?
    ensures Inv(OnDisconnected(m))
  {
    hide Lawful, Digested;
    OnDisconnectedKeepsBase(m);
  }

  lemma OpenEntry(m: Modem)
    requires Base(m) && m.state.ConnectToServer?
    ensures Inv(Transmit(m, Qiopen(m.address, m.port)))
  {
    hide Lawful, Digested;
    TransmitKeepsBase(m, Qiopen(m.address, m.port));
  }

  /** The remaining states run nothing on entry and ask for nothing. */
  lemma SilentEntry(m: Modem)
    requires Base(m)
    requires !SendsFixedCommand(m.state)
    requires !m.state.NetworkSend? && !m.state.NetworkPrepareSend? && !m.state.NetworkAckCheckParse?
    requires !m.state.NetworkDeclareRead? && !m.state.SmsSendSingleNumber? && !m.state.SmsSendSingleBody?
    ensures Inv(m)
  {
    hide Lawful, Digested;
  }

  lemma StateIsFree(m: Modem, s: State)
    requires Base(m) && Ready(m, s, Digested(m.log))
    ensures var at := m.(state := s); Base(at) && Ready(at, s, Digested(at.log))
  {
    hide Lawful, Digested;
  }

  lemma EnterKeepsInv(m: Modem, s: State, event: seq<Byte>)
    requires Base(m) && Ready(m, s, Digested(m.log))
    ensures Inv(Enter(m, s, event))
  {
    hide Inv, Base, Lawful, Digested, Ready;
    hide OnDisconnected, Prepare, SendStage, QueryAck, DeclareStage, SmsNumber, SmsBody, SmsRemove, Transmit;
    var at := m.(state := s);
    StateIsFree(m, s);
    if s.ResetStageDecide? {
      ResetEntry(at);
    } else if s.ConnectToServer? {
      OpenEntry(at);
    } else if s.NetworkPrepareSend? {
      PrepareEntry(at);
    } else if s.NetworkSend? {
      SendEntry(at);
    } else if s.NetworkAckCheckParse? {
      QueryAckEntry(at, event);
    } else if s.NetworkDeclareRead? {
      DeclareEntry(at);
    } else if s.SmsSendSingleNumber? {
      SmsNumberEntry(at);
    } else if s.SmsSendSingleBody? {
      SmsBodyEntry(at);
    } else if s.SmsSendSingleRemove? {
      SmsRemoveEntry(at);
    } else if SendsFixedCommand(s) {
      FixedEntry(at);
    } else {
      SilentEntry(at);
    }
  }

  // -------------------------------------------------------------------- the steps

  /** Actions that write to the log. */
  predicate Logs(action: Action) {
    action.NotifyConnected? || action.NotifyDisconnected? || action.DeliverData? || action.ReportSent?
  }

  /** Entering these asks nothing of the driver's data. */
  predicate AsksNothing(s: State) {
    && !s.Wake? && !s.CheckConnectionPreSend? && !s.NetworkPrepareSend? && !s.NetworkSend?
    && !s.NetworkAckCheck? && !s.NetworkAckCheckParse? && !s.NetworkDeclareRead?
    && !s.SmsSendSingleNumber? && !s.SmsSendSingleBody? && !s.SmsSendSingleRemove?
  }

  /**
   Outside a session no edge logs anything, and the only way in is from the waiting state,
   with an address, to CHECK_CONNECTION.
   */
  lemma OutsideEdges(s: State, f: Flags, holds: set<Cond>)
    requires !InSession(s) && FireOutside(s, f, holds).Go?
    ensures var Go(target, action) := FireOutside(s, f, holds);
      && (InSession(target) ==> target.CheckConnection? && s.ControlWaitForConnect? && f.addressKnown)
      && (action == NoAction || action == ResetAtRetry || (action == IncAtRetry && !f.atRetryLimitReached))
      && (s.ControlWaitForConnect? ==> f.addressKnown)
  {
  }

  /** The table read backwards: the only ways into the states that ask for something. */
  lemma WaysToSend(s: State, f: Flags, holds: set<Cond>)
    requires Fire(s, f, holds).Go?
    ensures var target := Fire(s, f, holds).target;
      && (target.Wake? ==> (s.Sleep? && f.dataToSend) || s.Wake?)
      && (target.CheckConnectionPreSend? ==> (s.NetworkBeginSend? && f.dataToSend) || s.Wake?)
      && (target.NetworkPrepareSend? ==> s.CheckConnectionPreSend?)
      && (target.NetworkSend? ==> s.NetworkPrepareSend?)
  {
    hide FireOutside;
    if !InSession(s) {
      OutsideEdges(s, f, holds);
    }
  }

  lemma WaysToAck(s: State, f: Flags, holds: set<Cond>)
    requires Fire(s, f, holds).Go?
    ensures var Go(target, action) := Fire(s, f, holds);
      && (target.NetworkAckCheck? ==>
            || (s.NetworkSend? && action == ResetAckRetry)
            || (s.NetworkAckCheckParse? && action == IncAckRetry && !f.retryLimitReached))
      && (target.NetworkAckCheckParse? ==> s.NetworkAckCheck? && action == NoAction)
      && (target.NetworkDeclareRead? ==>
            s.NetworkAckCheckParse? && action == ResetAckRetry && f.allAcked && !f.retryLimitReached)
      && (action == IncAckRetry ==> target.NetworkAckCheck?)
  {
    hide FireOutside;
    if !InSession(s) {
      OutsideEdges(s, f, holds);
    }
  }

  lemma WaysToSms(s: State, f: Flags, holds: set<Cond>)
    requires Fire(s, f, holds).Go?
    ensures var target := Fire(s, f, holds).target;
      && (target.SmsSendSingleNumber? ==> s.SmsBeginSend? && f.smsToSend)
      && (target.SmsSendSingleBody? ==> s.SmsSendSingleNumber?)
      && (target.SmsSendSingleRemove? ==> s.SmsSendSingleBody?)
  {
    hide FireOutside;
    if !InSession(s) {
      OutsideEdges(s, f, holds);
    }
  }

  lemma WaysToAct(s: State, f: Flags, holds: set<Cond>)
    requires Fire(s, f, holds).Go?
    ensures var Go(target, action) := Fire(s, f, holds);
      && (action == NotifyConnected ==> target.NetworkGpsUsartEchoOff?)
      && (action == NotifyDisconnected ==> target.ConnectToServer? || target.GprsReset?)
      && (action == DeliverData ==> target.NetworkCheckReceive?)
      && (action == ReportSent ==> s.NetworkDeclareRead? && target.SmsBeginSend?)
      && (action == IncAtRetry ==> !f.atRetryLimitReached)
  {
    hide FireOutside;
    if !InSession(s) {
      OutsideEdges(s, f, holds);
    }
  }

  /** On the way to a transmission each state leaves behind what the next one asks for. */
  lemma SendIsReady(m: Modem, d: Digest, f: Flags, event: seq<Byte>, holds: set<Cond>)
    requires Linked(m, d) && Local(m, d)
    requires f == DataFlags(m, event)
    requires Fire(m.state, f, holds).Go?
    ensures var s := Fire(m.state, f, holds).target;
      (s.Wake? || s.CheckConnectionPreSend? || s.NetworkPrepareSend? || s.NetworkSend?) ==> Ready(m, s, d)
  {
    hide Fire, RecvLength;
    WaysToSend(m.state, f, holds);
  }

  /** So does the ack loop, whose retry counter follows the number of replies read. */
  lemma AckIsReady(m: Modem, d: Digest, f: Flags, event: seq<Byte>, holds: set<Cond>)
    requires Linked(m, d) && Local(m, d)
    requires f == DataFlags(m, event)
    requires Fire(m.state, f, holds).Go?
    ensures var Go(s, action) := Fire(m.state, f, holds);
      && (action == IncAckRetry ==> m.ackRetry <= 8)
      && ((s.NetworkAckCheck? || s.NetworkAckCheckParse? || s.NetworkDeclareRead?) ==>
            Ready(Perform(m, action, event), s, d))
  {
    hide Fire, RecvLength;
    WaysToAck(m.state, f, holds);
  }

  lemma SmsIsReady(m: Modem, d: Digest, f: Flags, event: seq<Byte>, holds: set<Cond>)
    requires Linked(m, d) && Local(m, d)
    requires f == DataFlags(m, event)
    requires Fire(m.state, f, holds).Go?
    ensures var s := Fire(m.state, f, holds).target;
      (s.SmsSendSingleNumber? || s.SmsSendSingleBody? || s.SmsSendSingleRemove?) ==> Ready(m, s, d)
  {
    hide Fire, RecvLength;
    WaysToSms(m.state, f, holds);
  }

  /** Outside the ack loop no action touches what a target asks for. */
  lemma PerformKeepsReady(m: Modem, action: Action, event: seq<Byte>, s: State, d: Digest)
    requires !Logs(action) && Ready(m, s, d)
    requires !s.NetworkAckCheck? && !s.NetworkAckCheckParse? && !s.NetworkDeclareRead?
    ensures Ready(Perform(m, action, event), s, d)
  {
  }

  /** Whatever edge fires, its action may run and its target may be entered. */
  lemma FireIsReady(m: Modem, d: Digest, f: Flags, event: seq<Byte>, holds: set<Cond>)
    requires Linked(m, d) && Local(m, d)
    requires f == DataFlags(m, event)
    requires Fire(m.state, f, holds).Go?
    ensures var Go(target, action) := Fire(m.state, f, holds);
      && (action == ReportSent ==> d.unreported == Some(m.bytesToSend))
      && (action == IncAckRetry ==> m.ackRetry <= 8)
      && (action == IncAtRetry ==> m.atRetry <= 5)
      && (Logs(action) ==> AsksNothing(target))
      && (!Logs(action) ==> Ready(Perform(m, action, event), target, d))
  {
    hide Fire, RecvLength, Perform, Ready;
    var Go(target, action) := Fire(m.state, f, holds);
    WaysToAct(m.state, f, holds);
    SendIsReady(m, d, f, event, holds);
    AckIsReady(m, d, f, event, holds);
    SmsIsReady(m, d, f, event, holds);
    if !Logs(action) && !target.NetworkAckCheck? && !target.NetworkAckCheckParse? && !target.NetworkDeclareRead? {
      if AsksNothing(target) {
        AsksNothingIsReady(m, target, d);
      }
      PerformKeepsReady(m, action, event, target, d);
    }
  }

  lemma AsksNothingIsReady(m: Modem, s: State, d: Digest)
    requires AsksNothing(s)
    ensures Ready(m, s, d)
  {
  }

  lemma PerformKeepsLog(m: Modem, action: Action, event: seq<Byte>)
    requires !Logs(action)
    ensures Perform(m, action, event).log == m.log
  {
  }

  lemma ObserveKeepsInv(m: Modem, event: seq<Byte>)
    requires Inv(m)
    ensures Inv(Observe(m, event))
  {
    hide RecvLength, Lawful, Digested;
  }

  lemma TickKeepsInv(m: Modem, env: Env)
    requires Inv(m)
    ensures Inv(TickMachine(m, env))
  {
    hide Fire, Observe, Perform, Enter, Lawful, Digested, Linked, Local, Ready, AsksNothing, DataFlags;
    var o := Observe(m, env.event);
    ObserveKeepsInv(m, env.event);
    var d, f := Digested(o.log), DataFlags(o, env.event);
    var move := Fire(o.state, f, env.holds);
    if !o.halted && move.Go? {
      var p := Perform(o, move.action, env.event);
      FireIsReady(o, d, f, env.event, env.holds);
      PerformKeepsBase(o, move.action, env.event);
      if Logs(move.action) {
        AsksNothingIsReady(p, move.target, Digested(p.log));
      } else {
        PerformKeepsLog(o, move.action, env.event);
      }
      EnterKeepsInv(p, move.target, env.event);
    }
  }

  /** Bytes accepted during a round lie behind its window. */
  lemma SendKeepsLocal(m: Modem, d: Digest, bytes: seq<Byte>)
    requires Linked(m, d) && Local(m, d)
    requires |m.buffer| + |bytes| <= OUTPUT_BUFFER_SIZE
    ensures var m', e := m.(buffer := m.buffer + bytes), Accepted(bytes);
            Law(d, e) && Linked(m', Next(d, e)) && Local(m', Next(d, e))
  {
    var grown := m.buffer + bytes;
    assert m.bytesToSend <= |m.buffer| ==> grown[..m.bytesToSend] == m.buffer[..m.bytesToSend];
    assert d.accepted + bytes == d.removed + grown;
  }

  lemma PushKeepsLocal(m: Modem, d: Digest, sms: Sms)
    requires Linked(m, d) && Local(m, d)
    requires |m.sms| < SMS_CAPACITY
    ensures var m', e := m.(sms := m.sms + [sms]), SmsQueued(sms);
            Law(d, e) && Linked(m', Next(d, e)) && Local(m', Next(d, e))
  {
    assert d.smsIn + [sms] == d.smsOut + (m.sms + [sms]);
  }

  lemma AppSendKeepsInv(m: Modem, bytes: seq<Byte>)
    requires Inv(m)
    ensures Inv(AppSend(m, bytes))
  {
    hide Lawful, Digested;
    if |m.buffer| + |bytes| <= OUTPUT_BUFFER_SIZE {
      SendKeepsLocal(m, Digested(m.log), bytes);
      Extend(m.log, Accepted(bytes));
    }
  }

  lemma AppPushSmsKeepsInv(m: Modem, sms: Sms)
    requires Inv(m)
    ensures Inv(AppPushSms(m, sms))
  {
    hide Lawful, Digested;
    if |m.sms| < SMS_CAPACITY {
      PushKeepsLocal(m, Digested(m.log), sms);
      Extend(m.log, SmsQueued(sms));
    }
  }

  /** Global transitions and resets lead to states that ask for nothing. */
  lemma JumpKeepsInv(m: Modem, s: State)
    requires Inv(m) && AsksNothing(s)
    ensures Inv(Enter(m, s, []))
  {
    hide Enter, Lawful, Digested, Linked, Local, Ready;
    AsksNothingIsReady(m, s, Digested(m.log));
    EnterKeepsInv(m, s, []);
  }

  /** Flags, address and callback are not part of the invariant. */
  lemma SettingsKeepInv(m: Modem, newData: bool, address: seq<Byte>, port: Port, callback: bool, sleep: bool)
    requires Inv(m)
    ensures Inv(m.(newData := newData, address := address, port := port, callback := callback, sleepWhenIdle := sleep))
  {
    hide Lawful, Digested;
  }

  lemma StepKeepsInv(m: Modem, input: Input)
    requires Inv(m)
    ensures Inv(Step(m, input))
  {
    hide TickMachine, Enter, AppSend, AppPushSms, Inv, CString;
    match input {
      case Tick(env) => TickKeepsInv(m, env);
      case SoftReset => JumpKeepsInv(m, GprsReset);
      case PowerOffEvent => JumpKeepsInv(m, ShutDownStageStart);
      case DataIndication => SettingsKeepInv(m, true, m.address, m.port, m.callback, m.sleepWhenIdle);
      case Restart => JumpKeepsInv(m, ResetStageDecide);
      case Send(bytes) => AppSendKeepsInv(m, bytes);
      case Connect(address, port) =>
        SettingsKeepInv(m, m.newData, CString(address), port, m.callback, m.sleepWhenIdle);
      case Disconnect => SettingsKeepInv(m, m.newData, [], 0, m.callback, m.sleepWhenIdle);
      case PushSms(sms) => AppPushSmsKeepsInv(m, sms);
      case SetCallback(installed) => SettingsKeepInv(m, m.newData, m.address, m.port, installed, m.sleepWhenIdle);
      case SetSleep(on) => SettingsKeepInv(m, m.newData, m.address, m.port, m.callback, on);
    }
  }

  lemma {:induction false} RunKeepsInv(m: Modem, inputs: seq<Input>)
    requires Inv(m)
    ensures Inv(Run(m, inputs))
    decreases |inputs|
  {
    hide Step, Inv;
    if inputs != [] {
      RunKeepsInv(m, inputs[..|inputs| - 1]);
      StepKeepsInv(Run(m, inputs[..|inputs| - 1]), inputs[|inputs| - 1]);
    }
  }

  /** The invariant of every reachable state, from power-up on. */
  lemma {:induction false} Reachable(callback: bool, inputs: seq<Input>)
    ensures Inv(Run(Initial(callback), inputs))
  {
    RunKeepsInv(Initial(callback), inputs);
  }
}
