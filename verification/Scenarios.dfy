/**
 Runs from power-up: into sleep and out of it, and those that show the exceptional behaviour to
 be real, such as a session without the connected flag, a connection opened without notice, and
 bytes declared sent on the strength of a reply that says they were not.
 */
module Scenarios {
  import opened Bytes
  import opened States
  import opened Commands
  import opened SendBuffer
  import opened AckReply
  import opened Trace
  import opened Machine
  import opened Safety
  import opened Accounts
  import opened LengthReply
  import opened Runs
  import opened Callbacks
  import opened Receive
  import opened Sessions
  import opened Recovery

  // ------------------------------------------------------------------ building runs

  lemma RunOn(m: Modem, inputs: seq<Input>, more: seq<Input>) returns (all: seq<Input>)
    ensures all == inputs + more && Run(m, all) == Run(Run(m, inputs), more)
    ensures KeepsCallback(inputs) && KeepsCallback(more) ==> KeepsCallback(all)
  {
    all := inputs + more;
    RunSplit(m, inputs, more);
  }

  lemma RunTwo(m: Modem, x: Input, y: Input)
    ensures Run(m, [x, y]) == Step(Step(m, x), y)
    ensures !x.SetCallback? && !y.SetCallback? ==> KeepsCallback([x, y])
  {
    hide Step;
    RunCons(m, x, [y]);
    RunCons(Step(m, x), y, []);
    assert [x, y] == [x] + [y];
  }

  lemma RunOne(m: Modem, x: Input)
    ensures Run(m, [x]) == Step(m, x)
    ensures !x.SetCallback? ==> KeepsCallback([x])
  {
    hide Step;
    RunCons(m, x, []);
  }

  // ---------------------------------------------------------------------- bring-up

  lemma ReadyKeepsCallback(inputs: seq<Input>)
    requires forall i :: 0 <= i < |inputs| ==> inputs[i] == Answer(READY)
    ensures KeepsCallback(inputs)
  {
  }

  /** From power-up to CHECK_CONNECTION, with some bytes accepted on the way. */
  lemma BroughtUp(callback: bool, bytes: seq<Byte>) returns (inputs: seq<Input>)
    requires |bytes| <= 6144
    ensures KeepsCallback(inputs)
    ensures Serving(Run(Initial(callback), inputs), bytes, false, CheckConnection)
  {
    var m0 := Initial(callback);
    var m1 := Step(m0, Connect(['h'], 1));
    var m2 := Step(m1, Send(bytes));
    assert CString(['h']) == ['h'] by { CStringOfWhole(['h']); }
    hide CString;
    assert [] + bytes == bytes;
    assert m2.buffer == bytes && OnTheWay(m2) && m2.sleepWhenIdle && !m2.connected && !m2.newData;
    hide Step, OnTheWay, KeepsCallback;
    RunTwo(m0, Connect(['h'], 1), Send(bytes));
    var rest := WayUp(m2);
    ReadyKeepsCallback(rest);
    inputs := RunOn(m0, [Connect(['h'], 1), Send(bytes)], rest);
  }

  // ----------------------------------------------------- a session without the flag

  lemma SessionPath(f: Flags)
    ensures Fire(CheckConnection, f, {StateConnectOk}) == Go(NetworkGpsUsartEchoOff, NoAction)
    ensures Fire(CheckConnection, f, {StateOther}) == Go(ConnectToServer, NoAction)
    ensures Fire(CheckConnectionPreSend, f, {StateOther}) == Go(ConnectToServer, NoAction)
    ensures Fire(ConnectToServer, f, {ConnectOk}) == Go(NetworkGpsUsartEchoOff, NotifyConnected)
    ensures Fire(NetworkGpsUsartEchoOff, f, {CommandOk}) == Go(NetworkCheckReceive, NoAction)
    ensures !f.newData ==> Fire(NetworkCheckReceive, f, {}) == Go(NetworkBeginSend, NoAction)
    ensures f.dataToSend ==> Fire(NetworkBeginSend, f, {}) == Go(CheckConnectionPreSend, NoAction)
  {
  }

  /** In a session, with bytes to send and nothing to receive. */
  predicate Serving(m: Modem, bytes: seq<Byte>, connected: bool, s: State) {
    && !m.halted && !m.newData && m.sleepWhenIdle
    && m.buffer == bytes && m.connected == connected && m.state == s
  }

  lemma Onward(m: Modem, bytes: seq<Byte>, connected: bool, holds: set<Cond>, target: State)
    requires !m.state.NetworkBeginReceive? && Serving(m, bytes, connected, m.state)
    requires Fire(m.state, DataFlags(m, []), holds) == Go(target, NoAction)
    requires !target.ResetStageDecide? && !target.NetworkDeclareRead?
    ensures Serving(Step(m, Answer(holds)), bytes, connected, target)
  {
    hide Step, Fire, Enter, DataFlags;
    TickTakes(m, Env(holds, []), target, NoAction);
    EnterFrame(m, target, []);
  }

  /** Two ticks from CHECK_CONNECTION to CHECK_RECEIVE, with the flag as it was. */
  lemma FoundOpen(m: Modem, bytes: seq<Byte>, connected: bool)
    requires Serving(m, bytes, connected, CheckConnection)
    ensures KeepsCallback([Answer({StateConnectOk}), Answer({CommandOk})])
    ensures Serving(Run(m, [Answer({StateConnectOk}), Answer({CommandOk})]), bytes, connected, NetworkCheckReceive)
  {
    hide Step, Fire, DataFlags, Run;
    SessionPath(DataFlags(m, []));
    Onward(m, bytes, connected, {StateConnectOk}, NetworkGpsUsartEchoOff);
    var m1 := Step(m, Answer({StateConnectOk}));
    SessionPath(DataFlags(m1, []));
    Onward(m1, bytes, connected, {CommandOk}, NetworkCheckReceive);
    RunTwo(m, Answer({StateConnectOk}), Answer({CommandOk}));
  }

  /** A session in which CHECK_CONNECTION was told that the connection is open already runs without `connected`. */
  lemma UnconnectedSession(callback: bool) returns (inputs: seq<Input>)
    ensures KeepsCallback(inputs)
    ensures var n := Run(Initial(callback), inputs);
      Serving(n, ['x'], false, NetworkCheckReceive)
  {
    hide Run, Step, KeepsCallback;
    var up := BroughtUp(callback, ['x']);
    FoundOpen(Run(Initial(callback), up), ['x'], false);
    inputs := RunOn(Initial(callback), up, [Answer({StateConnectOk}), Answer({CommandOk})]);
  }

  // ------------------------------------------------------- a connection without notice

  lemma ToPreSend(m: Modem, bytes: seq<Byte>, connected: bool)
    requires bytes != [] && Serving(m, bytes, connected, NetworkCheckReceive)
    ensures KeepsCallback([Answer({}), Answer({})])
    ensures Serving(Run(m, [Answer({}), Answer({})]), bytes, connected, CheckConnectionPreSend)
  {
    hide Step, Fire, Run;
    SessionPath(DataFlags(m, []));
    Onward(m, bytes, connected, {}, NetworkBeginSend);
    var m1 := Step(m, Answer({}));
    SessionPath(DataFlags(m1, []));
    Onward(m1, bytes, connected, {}, CheckConnectionPreSend);
    RunTwo(m, Answer({}), Answer({}));
  }

  /** CONNECT_TO_SERVER and success: the flag is set from then on. */
  lemma Connected(m: Modem, bytes: seq<Byte>, connected: bool)
    requires Serving(m, bytes, connected, ConnectToServer)
    ensures Serving(Step(m, Answer({ConnectOk})), bytes, true, NetworkGpsUsartEchoOff)
  {
    hide Step, Fire, Enter, DataFlags;
    SessionPath(DataFlags(m, []));
    TickTakes(m, Env({ConnectOk}, []), NetworkGpsUsartEchoOff, NotifyConnected);
    PerformKeeps(m, NotifyConnected, []);
    PerformFrame(m, NotifyConnected, []);
    EnterFrame(Perform(m, NotifyConnected, []), NetworkGpsUsartEchoOff, []);
  }

  /** A connection opened by the driver, up to the check before the first transmission. */
  lemma ConnectedSession(callback: bool) returns (inputs: seq<Input>)
    ensures KeepsCallback(inputs)
    ensures Serving(Run(Initial(callback), inputs), ['x'], true, CheckConnectionPreSend)
  {
    hide Run, Step, Fire, KeepsCallback;
    var m0 := Initial(callback);
    var up := BroughtUp(callback, ['x']);
    var m := Run(m0, up);
    SessionPath(DataFlags(m, []));
    Onward(m, ['x'], false, {StateOther}, ConnectToServer);
    var m1 := Step(m, Answer({StateOther}));
    Connected(m1, ['x'], false);
    var m2 := Step(m1, Answer({ConnectOk}));
    RunTwo(m, Answer({StateOther}), Answer({ConnectOk}));
    var i2 := RunOn(m0, up, [Answer({StateOther}), Answer({ConnectOk})]);
    SessionPath(DataFlags(m2, []));
    Onward(m2, ['x'], true, {CommandOk}, NetworkCheckReceive);
    RunOne(m2, Answer({CommandOk}));
    var i3 := RunOn(m0, i2, [Answer({CommandOk})]);
    ToPreSend(Run(m0, i3), ['x'], true);
    inputs := RunOn(m0, i3, [Answer({}), Answer({})]);
  }

  /**
   The server went away unnoticed: the driver opens another connection, keeps the byte it
   accepted for the old one, and all it does at its edges is send two commands.
   */
  lemma UnannouncedReopen(callback: bool) returns (inputs: seq<Input>, more: seq<Input>)
    ensures var m, n := Run(Initial(callback), inputs), Run(Initial(callback), inputs + more);
      && m.connected && m.state.CheckConnectionPreSend?
      && n.connected && n.state.NetworkGpsUsartEchoOff?
      && n.buffer == m.buffer == ['x']
      && n.log == m.log + [Command(Qiopen(m.address, m.port)), Command(Fixed(NetworkGpsUsartEchoOff))]
  {
    hide Run, Step, Fire;
    inputs := ConnectedSession(callback);
    var m := Run(Initial(callback), inputs);
    SessionPath(DataFlags(m, []));
    Onward(m, ['x'], true, {StateOther}, ConnectToServer);
    OpenedFrom(m, Answer({StateOther}));
    var m1 := Step(m, Answer({StateOther}));
    Connected(m1, ['x'], true);
    TickIsStep(m1, Env({ConnectOk}, []));
    ConnectOkTick(m1, Env({ConnectOk}, []));
    more := [Answer({StateOther}), Answer({ConnectOk})];
    RunTwo(m, more[0], more[1]);
    RunSplit(Initial(callback), inputs, more);
  }

  // ------------------------------------------------ bytes declared without any acknowledgement

  /** What the modem prints for its two counts, cut off before the third number: "+QISACK: 1460,0". */
  function ShortReply(sent: nat, acked: nat): seq<Byte> {
    MARKER + (Field(sent) + [','] + Decimal(acked))
  }

  lemma ShortReplyReadsNothing(sent: nat, acked: nat)
    ensures AckOf(ShortReply(sent, acked)) == NOTHING
  {
    hide AckOf, Decimal;
    var noise: seq<Byte> := [];
    var f1, f2 := Field(sent), Decimal(acked);
    assert forall i :: 0 <= i < |f1| ==> f1[i] == ' ' || IsDigit(f1[i]);
    assert forall i :: 0 <= i < |f2| ==> IsDigit(f2[i]);
    assert ShortReply(sent, acked) == noise + MARKER + (f1 + [','] + f2);
    assert forall i :: 0 <= i < |MARKER| ==> MARKER[i] != NUL;
    OneCommaReadsNothing(ShortReply(sent, acked), noise, f1, f2);
  }

  /** While the polls of a window last, such a reply declares the whole window sent, whatever its counts. */
  lemma ShortReplyDeclares(m: Modem, reply: Env, next: Env, sent: nat, acked: nat)
    requires !m.halted && m.state.NetworkAckCheck? && m.ackRetry <= 8
    requires AckReply in reply.holds && reply.event == ShortReply(sent, acked) && Closed !in next.holds
    ensures var n := Step(Step(m, Tick(reply)), Tick(next));
      && n.state.NetworkDeclareRead?
      && n.buffer == DropFirst(m.buffer, m.bytesToSend)
      && n.log == m.log + [AckRead(NOTHING), Declared(Prefix(m.buffer, m.bytesToSend))]
  {
    hide TickMachine, AckOf, Fire, ShortReply, Prefix, DropFirst;
    ShortReplyReadsNothing(sent, acked);
    TickIsStep(m, reply);
    AckCheckTick(m, reply);
    var p := TickMachine(m, reply);
    ParseEdge(DataFlags(p, next.event), next.holds);
    TickTakes(p, next, NetworkDeclareRead, ResetAckRetry);
  }

  lemma ParseEdge(f: Flags, holds: set<Cond>)
    requires Closed !in holds && !f.retryLimitReached && f.allAcked
    ensures Fire(NetworkAckCheckParse, f, holds) == Go(NetworkDeclareRead, ResetAckRetry)
  {
  }

  lemma TransmissionPath(f: Flags)
    ensures Fire(CheckConnectionPreSend, f, {StateConnectOk}) == Go(NetworkPrepareSend, NoAction)
    ensures !f.bytesToSendZero ==> Fire(NetworkPrepareSend, f, {QisendEcho}) == Go(NetworkSend, NoAction)
    ensures Fire(NetworkSend, f, {SendOk}) == Go(NetworkAckCheck, ResetAckRetry)
  {
  }

  /** The announcement and the transmission of what waits, in two ticks. */
  lemma Transmitting(m: Modem, bytes: seq<Byte>, connected: bool)
    requires bytes != [] && Serving(m, bytes, connected, CheckConnectionPreSend)
    ensures Serving(Run(m, [Answer({StateConnectOk}), Answer({QisendEcho})]), bytes, connected, NetworkSend)
    ensures Run(m, [Answer({StateConnectOk}), Answer({QisendEcho})]).bytesToSend == Window(|bytes|)
  {
    hide Step, Fire, Run;
    TransmissionPath(DataFlags(m, []));
    Onward(m, bytes, connected, {StateConnectOk}, NetworkPrepareSend);
    var m1 := Step(m, Answer({StateConnectOk}));
    TickTakes(m, Env({StateConnectOk}, []), NetworkPrepareSend, NoAction);
    assert m1.bytesToSend == Window(|bytes|);
    TransmissionPath(DataFlags(m1, []));
    Onward(m1, bytes, connected, {QisendEcho}, NetworkSend);
    TickTakes(m1, Env({QisendEcho}, []), NetworkSend, NoAction);
    EnterFrame(m1, NetworkSend, []);
    RunTwo(m, Answer({StateConnectOk}), Answer({QisendEcho}));
  }

  lemma PollEntry(m: Modem, event: seq<Byte>)
    ensures Enter(m, NetworkAckCheck, event) == Transmit(m.(state := NetworkAckCheck), Fixed(NetworkAckCheck))
  {
  }

  lemma SendOkTick(m: Modem, bytes: seq<Byte>, connected: bool)
    requires Serving(m, bytes, connected, NetworkSend)
    ensures var n := Step(m, Answer({SendOk})); Serving(n, bytes, connected, NetworkAckCheck) && n.ackRetry == 0
  {
    hide Step, Fire, Enter, DataFlags;
    TransmissionPath(DataFlags(m, []));
    TickTakes(m, Env({SendOk}, []), NetworkAckCheck, ResetAckRetry);
    PollEntry(m.(ackRetry := 0), []);
  }

  /** From power-up to the first poll. */
  lemma FirstPoll(callback: bool) returns (inputs: seq<Input>)
    ensures var m := Run(Initial(callback), inputs);
      Serving(m, ['x'], true, NetworkAckCheck) && m.ackRetry == 0 && m.bytesToSend == 1
  {
    hide Run, Step, Lawful, Digested;
    var m0 := Initial(callback);
    var i1 := ConnectedSession(callback);
    Transmitting(Run(m0, i1), ['x'], true);
    var i2 := RunOn(m0, i1, [Answer({StateConnectOk}), Answer({QisendEcho})]);
    var m := Run(m0, i2);
    SendOkTick(m, ['x'], true);
    RunCons(m, Answer({SendOk}), []);
    inputs := RunOn(m0, i2, [Answer({SendOk})]);
    Reachable(callback, inputs);
    assert Windowed(Run(m0, inputs));
  }

  /** A whole run in which a byte is declared sent although the only reply to a poll says that it was not. */
  lemma DeclaredWithoutAck(callback: bool) returns (inputs: seq<Input>, more: seq<Input>)
    ensures more == [Tick(Env({AckReply}, "+QISACK: 1,0")), Answer({})]
    ensures var m, n := Run(Initial(callback), inputs), Run(Initial(callback), inputs + more);
      && m.state.NetworkAckCheck? && m.buffer == ['x']
      && n.state.NetworkDeclareRead? && n.buffer == []
      && n.log == m.log + [AckRead(NOTHING), Declared(['x'])]
  {
    hide Run, Step, Fire;
    inputs := FirstPoll(callback);
    assert ShortReply(1, 0) == "+QISACK: 1,0";
    more := [Tick(Env({AckReply}, "+QISACK: 1,0")), Answer({})];
    var m := Run(Initial(callback), inputs);
    assert Prefix(m.buffer, 1) == ['x'];
    ShortReplyDeclares(m, Env({AckReply}, "+QISACK: 1,0"), Env({}, []), 1, 0);
    RunTwo(m, more[0], more[1]);
    RunSplit(Initial(callback), inputs, more);
  }

  // ------------------------------------------------------------------ asleep and awake

  lemma SleepPath(f: Flags)
    ensures !f.dataToSend && f.sleepConfigured ==> Fire(NetworkBeginSend, f, {}) == Go(Sleep, NoAction)
    ensures f.dataToSend ==> Fire(Sleep, f, {}) == Go(Wake, NoAction)
    ensures Fire(Wake, f, {Ok}) == Go(CheckConnectionPreSend, NoAction)
  {
  }

  /** From power-up into SLEEP, through a session with nothing to send. */
  lemma FallsAsleep(callback: bool) returns (inputs: seq<Input>)
    ensures Serving(Run(Initial(callback), inputs), [], false, Sleep)
  {
    hide Run, Step, Fire, KeepsCallback;
    var m0 := Initial(callback);
    var up := BroughtUp(callback, []);
    FoundOpen(Run(m0, up), [], false);
    var i1 := RunOn(m0, up, [Answer({StateConnectOk}), Answer({CommandOk})]);
    var m := Run(m0, i1);
    SessionPath(DataFlags(m, []));
    Onward(m, [], false, {}, NetworkBeginSend);
    var m1 := Step(m, Answer({}));
    SleepPath(DataFlags(m1, []));
    Onward(m1, [], false, {}, Sleep);
    RunTwo(m, Answer({}), Answer({}));
    inputs := RunOn(m0, i1, [Answer({}), Answer({})]);
  }

  lemma SendTakes(m: Modem, bytes: seq<Byte>)
    requires |bytes| <= 6144 && Serving(m, [], false, Sleep)
    ensures Serving(Step(m, Send(bytes)), bytes, false, Sleep)
  {
    assert [] + bytes == bytes;
  }

  /** Three inputs later it is awake and about to transmit. */
  lemma WakesUp(m: Modem, bytes: seq<Byte>)
    requires 0 < |bytes| <= 6144 && Serving(m, [], false, Sleep)
    ensures Serving(Run(Step(m, Send(bytes)), [Answer({}), Answer({Ok})]), bytes, false, CheckConnectionPreSend)
  {
    hide Run, Step, Fire;
    SendTakes(m, bytes);
    var m1 := Step(m, Send(bytes));
    SleepPath(DataFlags(m1, []));
    Onward(m1, bytes, false, {}, Wake);
    var m2 := Step(m1, Answer({}));
    SleepPath(DataFlags(m2, []));
    Onward(m2, bytes, false, {Ok}, CheckConnectionPreSend);
    RunTwo(m1, Answer({}), Answer({Ok}));
  }

  lemma TransmittedLast(callback: bool, inputs: seq<Input>, bytes: seq<Byte>)
    requires 0 < |bytes| <= 1460
    requires Serving(Run(Initial(callback), inputs), bytes, false, NetworkSend)
    requires Run(Initial(callback), inputs).bytesToSend == |bytes|
    ensures var wire := Digested(Run(Initial(callback), inputs).log).wire;
      wire != [] && wire[|wire| - 1] == Payload(bytes)
  {
    hide Run, Lawful, Digested;
    Reachable(callback, inputs);
    var m := Run(Initial(callback), inputs);
    var wire := Digested(m.log).wire;
    assert bytes[..|bytes|] == bytes;
    assert wire[|wire| - 2..][1] == wire[|wire| - 1];
  }

  /** From power-up: asleep, then given bytes to send, which wake it and are transmitted. */
  lemma SleepsAndSends(callback: bool, bytes: seq<Byte>) returns (inputs: seq<Input>, more: seq<Input>)
    requires 0 < |bytes| <= 1460
    ensures Run(Initial(callback), inputs).state.Sleep?
    ensures |more| == 5 && more[0] == Send(bytes) && forall i :: 0 < i < 5 ==> more[i].Tick?
    ensures var n := Run(Initial(callback), inputs + more); var wire := Digested(n.log).wire;
      n.state.NetworkSend? && wire != [] && wire[|wire| - 1] == Payload(bytes)
  {
    hide Run, Step, Fire, Digested, KeepsCallback;
    var m0 := Initial(callback);
    inputs := FallsAsleep(callback);
    var m := Run(m0, inputs);
    var two: seq<Input> := [Answer({}), Answer({Ok})];
    var last: seq<Input> := [Answer({StateConnectOk}), Answer({QisendEcho})];
    WakesUp(m, bytes);
    RunCons(m, Send(bytes), two);
    var i1 := RunOn(m0, inputs, [Send(bytes)] + two);
    Transmitting(Run(m0, i1), bytes, false);
    var i2 := RunOn(m0, i1, last);
    more := [Send(bytes)] + two + last;
    assert i2 == inputs + more;
    TransmittedLast(callback, i2, bytes);
  }

  // ------------------------------------------------------- without a callback, and with a late one

  lemma IndicationSetsFlag(m: Modem, bytes: seq<Byte>, connected: bool, s: State)
    requires Serving(m, bytes, connected, s)
    ensures Step(m, DataIndication) == m.(newData := true)
  {
  }

  /** Two ticks later the driver waits for the reply to a read. */
  lemma ReadIsSent(m: Modem, bytes: seq<Byte>, connected: bool)
    requires Serving(m, bytes, connected, NetworkCheckReceive)
    ensures KeepsCallback([DataIndication, Answer({})])
    ensures var n := Run(m, [DataIndication, Answer({})]);
      n.state.NetworkBeginReceive? && n.newData && !n.halted && n.callback == m.callback
  {
    hide Run, Step, Booked;
    IndicationSetsFlag(m, bytes, connected, NetworkCheckReceive);
    var m1 := Step(m, DataIndication);
    TickIsStep(m1, Env({}, []));
    CheckTick(m1, Env({}, []));
    RunTwo(m, DataIndication, Answer({}));
  }

  /** Two more, and a byte was received. */
  lemma ByteIsReceived(m: Modem) returns (inputs: seq<Input>)
    requires m.state.NetworkBeginReceive? && m.newData && !m.halted
    ensures KeepsCallback(inputs)
    ensures var n := Run(m, inputs); n.log != [] && n.log[|n.log| - 1] == DataNote(['y'], m.callback)
  {
    hide Run, Step, Booked, RecvLength, IsRecvHeader;
    var event := SomeHeader(1);
    var host, proto :| IsRecvHeader(event, host, proto, Decimal(1));
    RecvRoundTrip(event, host, proto, 1);
    TickIsStep(m, Env({}, event));
    HeaderTick(m, Env({}, event), 1);
    var m1 := Step(m, Tick(Env({}, event)));
    TickIsStep(m1, Env({Ok}, ['y']));
    DeliverTick(m1, Env({Ok}, ['y']));
    inputs := [Tick(Env({}, event)), Tick(Env({Ok}, ['y']))];
    RunTwo(m, inputs[0], inputs[1]);
  }

  /** From power-up without a callback: a byte is read out of the modem and thrown away. */
  lemma DataThrownAway() returns (inputs: seq<Input>)
    ensures var m := Run(Initial(false), inputs);
      m.log != [] && m.log[|m.log| - 1] == DataNote(['y'], false) && Booked(m.log).received == []
  {
    hide Run, Step, Booked, KeepsCallback, AllCalls;
    var m0 := Initial(false);
    var up := UnconnectedSession(false);
    ReadIsSent(Run(m0, up), ['x'], false);
    var i2 := RunOn(m0, up, [DataIndication, Answer({})]);
    CallsOfRun(false, i2);
    var more := ByteIsReceived(Run(m0, i2));
    inputs := RunOn(m0, i2, more);
    CallsOfRun(false, inputs);
    AllOrNothingBooked(Run(m0, inputs).log, false);
  }

  lemma HeardLast(log: Log, lost: seq<Byte>)
    requires HeardNotes(log) == []
    ensures HeardNotes(log + [Dropped(lost)] + [DisconnectedNote(true)]) == [false]
  {
    var log1 := log + [Dropped(lost)];
    assert log1[..|log1| - 1] == log;
    var log2 := log1 + [DisconnectedNote(true)];
    assert log2[..|log2| - 1] == log1;
  }

  lemma RestartTells(m: Modem)
    requires !m.halted && m.connected
    ensures Step(Step(m, SetCallback(true)), Restart).log == m.log + [Dropped(m.buffer)] + [DisconnectedNote(true)]
  {
  }

  /** A callback that is installed during a session first hears that it was disconnected. */
  lemma LateCallback() returns (inputs: seq<Input>)
    ensures HeardNotes(Run(Initial(false), inputs).log) == [false]
  {
    hide Run, Step, HeardNotes;
    var m0 := Initial(false);
    var up := ConnectedSession(false);
    var m := Run(m0, up);
    CallsOfRun(false, up);
    AllOrNothingHeard(m.log, false);
    RestartTells(m);
    HeardLast(m.log, m.buffer);
    RunTwo(m, SetCallback(true), Restart);
    inputs := RunOn(m0, up, [SetCallback(true), Restart]);
  }
}
