/**
 The driver object: fields updated in place by its calls, its actions and the machine's
 steps. Every method is proved to do to the fields exactly what the machine does to the model.
 */
module Mc60 {
  import opened Bytes
  import opened States
  import opened Commands
  import opened SendBuffer
  import opened AckReply
  import opened LengthReply
  import opened Trace
  import opened Machine
  import opened Safety
  import opened Runs

  /** NETWORK_SEND is entered only from PREPARE, with the announced bytes still in the buffer. */
  lemma SendIsCovered(m: Modem, f: Flags, holds: set<Cond>)
    requires Inv(m) && Fire(m.state, f, holds).Go? && Fire(m.state, f, holds).target.NetworkSend?
    ensures Fire(m.state, f, holds).action == NoAction && m.bytesToSend <= |m.buffer|
  {
    hide FireOutside, Lawful, Digested;
    if !InSession(m.state) {
      OutsideEdges(m.state, f, holds);
    }
  }

  lemma TickReady(m: Modem, env: Env) returns (o: Modem, move: Move)
    requires Inv(m) && !m.halted
    ensures o == Observe(m, env.event)
    ensures move == if o.halted then Stay else Fire(m.state, DataFlags(o, env.event), env.holds)
    ensures Step(m, Input.Tick(env))
         == (if move.Stay? then o
             else Machine.Enter(Machine.Perform(o, move.action, env.event), move.target, env.event))
    ensures Inv(Step(m, Input.Tick(env)))
    ensures o.state == m.state
    ensures move.Go? && move.target.NetworkSend? ==> move.action == NoAction && o.bytesToSend <= |o.buffer|
  {
    hide Inv, TickMachine, Observe, Fire, DataFlags, Machine.Perform, Machine.Enter;
    o, move := TickShape(m, env);
    ObserveFrame(m, env.event);
    TickKeepsInv(m, env);
    if move.Go? && move.target.NetworkSend? {
      SendIsCovered(m, DataFlags(o, env.event), env.holds);
    }
  }

  class Mc60Modem {
    const dataToSendBuffer: Buffer
    var state: State
    var bytesToSendInSendStage: nat
    var ackQueryRetryNo: int
    var atQueryRetryNo: int
    var sent: int
    var acked: int
    var nAcked: int
    var connected: bool
    var newDataToReceive: bool
    var sleepWhenNothingToSend: bool
    var callback: bool
    var address: seq<Byte>
    var port: Port
    var bytesReceived: nat
    var smsCollection: seq<Sms>
    var halted: bool
    ghost var log: Log

    /** What the actions of a step work with. */
    ghost predicate Sound()
      reads this, dataToSendBuffer, dataToSendBuffer.data
    {
      dataToSendBuffer.Valid()
    }

    /** What holds between steps and calls: the buffer is sound and the whole past was lawful. */
    ghost predicate Valid()
      reads this, dataToSendBuffer, dataToSendBuffer.data
    {
      Sound() && Inv(View())
    }

    /** The model of this object. */
    ghost function View(): Modem
      requires Sound()
      reads this, dataToSendBuffer, dataToSendBuffer.data
    {
      Modem(state, dataToSendBuffer.Contents(), bytesToSendInSendStage, ackQueryRetryNo, atQueryRetryNo,
            Ack(sent, acked, nAcked), connected, newDataToReceive, sleepWhenNothingToSend, callback,
            address, port, bytesReceived, smsCollection, halted, log)
    }

    constructor (callback: bool)
      ensures Valid() && fresh(dataToSendBuffer) && fresh(dataToSendBuffer.data)
      ensures View() == Initial(callback)
    {
      dataToSendBuffer := new Buffer();
      state, bytesToSendInSendStage, ackQueryRetryNo, atQueryRetryNo := ResetStageDecide, 0, 0, 0;
      sent, acked, nAcked := 0, 0, 0;
      connected, newDataToReceive, sleepWhenNothingToSend := false, false, true;
      this.callback := callback;
      address, port, bytesReceived, smsCollection, halted := [], 0, 0, [], false;
      log := [];
      new;
      hide Inv;
      Reachable(callback, []);
    }

    // ------------------------------------------------------------ the application's calls

    method Send(data: seq<Byte>) returns (taken: nat)
      requires Valid() && !halted
      modifies this`log, dataToSendBuffer`size, dataToSendBuffer.data
      ensures Valid() && View() == Step(old(View()), Input.Send(data))
      ensures taken == |TakenBy(old(View()), Input.Send(data))|
    {
      hide Inv;
      ghost var m := View();
      StepKeepsInv(m, Input.Send(data));
      taken := dataToSendBuffer.Append(data);
      if |m.buffer| + |data| <= OUTPUT_BUFFER_SIZE {
        log := log + [Accepted(data)];
        assert data[..taken] == data;
      } else {
        assert m.buffer + data[..taken] == m.buffer;
      }
      assert View() == Step(m, Input.Send(data));
    }

    method Connect(address: seq<Byte>, port: Port) returns (ok: bool)
      requires Valid() && !halted
      modifies this`address, this`port
      ensures Valid() && ok && View() == Step(old(View()), Input.Connect(address, port))
    {
      hide Inv;
      StepKeepsInv(View(), Input.Connect(address, port));
      this.address := CString(address);
      this.port := port;
      ok := true;
    }

    method Disconnect()
      requires Valid() && !halted
      modifies this`address, this`port
      ensures Valid() && View() == Step(old(View()), Input.Disconnect)
    {
      hide Inv;
      StepKeepsInv(View(), Input.Disconnect);
      address := [];
      port := 0;
    }

    /** `power (true)` resets the machine. */
    method PowerOn()
      requires Valid() && !halted
      modifies this, dataToSendBuffer`size
      ensures Valid() && View() == Step(old(View()), Restart)
    {
      hide Machine.OnDisconnected, Inv;
      StepKeepsInv(View(), Restart);
      state := ResetStageDecide;
      OnDisconnected();
    }

    method PushSms(sms: Sms)
      requires Valid() && !halted
      modifies this`smsCollection, this`log
      ensures Valid() && View() == Step(old(View()), Input.PushSms(sms))
    {
      hide Inv;
      StepKeepsInv(View(), Input.PushSms(sms));
      if |smsCollection| < SMS_CAPACITY {
        smsCollection := smsCollection + [sms];
        log := log + [SmsQueued(sms)];
      }
    }

    method IsSending() returns (yes: bool)
      requires Valid()
      ensures yes <==> View().buffer != []
    {
      yes := dataToSendBuffer.size != 0;
    }

    // ------------------------------------------------------------------ notifications

    method OnConnected()
      requires Sound()
      modifies this`connected, this`log
      ensures Sound() && View() == Machine.OnConnected(old(View()))
    {
      if connected {
        return;
      }
      connected := true;
      log := log + [ConnectedNote(callback)];
    }

    method OnDisconnected()
      requires Sound()
      modifies this`connected, this`log, dataToSendBuffer`size
      ensures Sound() && View() == Machine.OnDisconnected(old(View()))
    {
      if !connected {
        return;
      }
      ghost var lost := dataToSendBuffer.Contents();
      connected := false;
      dataToSendBuffer.Clear();
      log := log + [Dropped(lost)] + [DisconnectedNote(callback)];
    }

    method OnSent()
      requires Sound()
      modifies this`log
      ensures Sound() && View() == Machine.OnSent(old(View()))
    {
      log := log + [SentNote(bytesToSendInSendStage, callback)];
    }

    // ---------------------------------------------------------------- the entry actions

    method Transmit(command: AtCommand)
      requires Sound()
      modifies this`log
      ensures Sound() && View() == Machine.Transmit(old(View()), command)
    {
      log := log + [Command(command)];
    }

    /** STAGE_PREPARE, with the limit applied before the buffer's own length. */
    method Prepare()
      requires Sound()
      modifies this`bytesToSendInSendStage, this`log
      ensures Sound() && View() == Machine.Prepare(old(View()))
    {
      bytesToSendInSendStage := GSM_MAX_BYTES_SEND;
      if dataToSendBuffer.size < bytesToSendInSendStage {
        bytesToSendInSendStage := dataToSendBuffer.size;
      }
      if bytesToSendInSendStage == 0 {
        return;
      }
      Transmit(Qisend(bytesToSendInSendStage));
    }

    /** STAGE_SEND reads only bytes that are in the buffer. */
    method SendStage()
      requires Sound() && bytesToSendInSendStage <= dataToSendBuffer.size
      modifies this`log
      ensures Sound() && View() == Machine.SendStage(old(View()))
    {
      if bytesToSendInSendStage == 0 {
        return;
      }
      var bytes := dataToSendBuffer.Transmitted(bytesToSendInSendStage);
      log := log + [Payload(bytes)];
    }

    method DeclareStage()
      requires Sound()
      modifies this`log, dataToSendBuffer`size, dataToSendBuffer.data
      ensures Sound() && View() == Machine.DeclareStage(old(View()))
    {
      ghost var front := Prefix(dataToSendBuffer.Contents(), bytesToSendInSendStage);
      dataToSendBuffer.DeclareRead(bytesToSendInSendStage);
      log := log + [Declared(front)];
    }

    method QueryAck(event: seq<Byte>)
      requires Sound()
      modifies this`sent, this`acked, this`nAcked, this`log
      ensures Sound() && View() == Machine.QueryAck(old(View()), event)
    {
      hide AckOf;
      sent, acked, nAcked := ReadAck(event);
      log := log + [AckRead(Ack(sent, acked, nAcked))];
    }

    method SmsStage(s: State)
      requires Sound() && (s.SmsSendSingleNumber? || s.SmsSendSingleBody? || s.SmsSendSingleRemove?)
      modifies this`smsCollection, this`log
      ensures Sound()
      ensures s.SmsSendSingleNumber? ==> View() == SmsNumber(old(View()))
      ensures s.SmsSendSingleBody? ==> View() == SmsBody(old(View()))
      ensures s.SmsSendSingleRemove? ==> View() == SmsRemove(old(View()))
    {
      if smsCollection == [] {
        return;
      }
      var sms := smsCollection[0];
      if s.SmsSendSingleNumber? {
        Transmit(SmsTo(sms));
      } else if s.SmsSendSingleBody? {
        Transmit(SmsBodyOf(sms));
      } else {
        smsCollection := smsCollection[1..];
        log := log + [SmsRemoved(sms)];
      }
    }

    // ------------------------------------------------------------------------ the steps

    method Perform(action: Action, event: seq<Byte>)
      requires Sound()
      modifies this, dataToSendBuffer`size
      ensures Sound() && View() == Machine.Perform(old(View()), action, event)
    {
      hide Machine.OnConnected, Machine.OnDisconnected, Machine.OnSent;
      match action
      case NoAction =>
      case NotifyConnected => OnConnected();
      case NotifyDisconnected => OnDisconnected();
      case ResetAtRetry => atQueryRetryNo := 0;
      case IncAtRetry => atQueryRetryNo := atQueryRetryNo + 1;
      case ResetAckRetry => ackQueryRetryNo := 0;
      case IncAckRetry => ackQueryRetryNo := ackQueryRetryNo + 1;
      case ClearNewData => newDataToReceive := false;
      case DeliverData => log := log + [DataNote(event, callback)];
      case ReportSent => OnSent();
    }

    method Enter(s: State, event: seq<Byte>)
      requires Sound()
      requires s.NetworkSend? ==> bytesToSendInSendStage <= dataToSendBuffer.size
      modifies this, dataToSendBuffer`size, dataToSendBuffer.data
      ensures Sound() && View() == Machine.Enter(old(View()), s, event)
    {
      hide Machine.OnDisconnected, Machine.Prepare, Machine.SendStage, Machine.QueryAck, Machine.DeclareStage;
      hide SmsNumber, SmsBody, SmsRemove, Machine.Transmit;
      state := s;
      if s.ResetStageDecide? {
        OnDisconnected();
      } else if s.ConnectToServer? {
        Transmit(Qiopen(address, port));
      } else if s.NetworkPrepareSend? {
        Prepare();
      } else if s.NetworkSend? {
        SendStage();
      } else if s.NetworkAckCheckParse? {
        QueryAck(event);
      } else if s.NetworkDeclareRead? {
        DeclareStage();
      } else if s.SmsSendSingleNumber? || s.SmsSendSingleBody? || s.SmsSendSingleRemove? {
        SmsStage(s);
      } else if SendsFixedCommand(s) {
        Transmit(Fixed(s));
      }
    }

    /** The length condition of NETWORK_BEGIN_RECEIVE, with its store. */
    method CheckLength(event: seq<Byte>) returns (accepted: bool)
      requires Sound() && !halted
      modifies this`bytesReceived, this`halted
      ensures Sound() && View() == Observe(old(View()), event)
      ensures accepted == (state.NetworkBeginReceive? && RecvLength(event).Accepts())
    {
      hide RecvLength;
      accepted := false;
      if state.NetworkBeginReceive? {
        accepted, halted, bytesReceived := CheckRecvLength(event, bytesReceived);
      }
    }

    /** The engine's step: look at the conditions, take the first edge that holds, act and enter. */
    method Tick(env: Env)
      requires Valid() && !halted
      modifies this, dataToSendBuffer`size, dataToSendBuffer.data
      ensures Valid() && View() == Step(old(View()), Input.Tick(env))
    {
      hide Step, Fire, Machine.Perform, Machine.Enter, Inv, RecvLength, Observe;
      ghost var o, move := TickReady(View(), env);
      var accepted := CheckLength(env.event);
      if halted {
        return;
      }
      var flags := Flags(
        atQueryRetryNo > AT_RETRY_LIMIT,
        address != [] && port > 0,
        newDataToReceive,
        accepted,
        |env.event| == bytesReceived,
        dataToSendBuffer.size > 0,
        sleepWhenNothingToSend,
        bytesToSendInSendStage == 0,
        ackQueryRetryNo > QUERY_ACK_COUNT_LIMIT,
        sent == acked,
        |smsCollection| > 0);
      var edge := Fire(state, flags, env.holds);
      match edge
      case Stay =>
      case Go(target, action) =>
        Perform(action, env.event);
        assert target.NetworkSend? ==> bytesToSendInSendStage <= dataToSendBuffer.size by {
          NothingPerformed(o, env.event);
        }
        Enter(target, env.event);
    }

    /** The global transitions: too long without a change, and the queued "_OFF". */
    method SoftReset()
      requires Valid() && !halted
      modifies this, dataToSendBuffer`size, dataToSendBuffer.data
      ensures Valid() && View() == Step(old(View()), Input.SoftReset)
    {
      hide Machine.Enter, Inv;
      StepKeepsInv(View(), Input.SoftReset);
      if !SuppressesGlobalTransitions(state) {
        Enter(GprsReset, []);
      }
    }

    method SwitchOff()
      requires Valid() && !halted
      modifies this, dataToSendBuffer`size, dataToSendBuffer.data
      ensures Valid() && View() == Step(old(View()), PowerOffEvent)
    {
      hide Machine.Enter, Inv;
      StepKeepsInv(View(), PowerOffEvent);
      if !SuppressesGlobalTransitions(state) {
        Enter(ShutDownStageStart, []);
      }
    }

    /** The global rule for "+QIRDI". */
    method OnDataIndication()
      requires Valid() && !halted
      modifies this`newDataToReceive
      ensures Valid() && View() == Step(old(View()), DataIndication)
    {
      hide Inv;
      StepKeepsInv(View(), DataIndication);
      newDataToReceive := true;
    }
  }
}
