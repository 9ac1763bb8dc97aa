/**
 When the driver opens a connection, when it says so, and what `disconnect` stops. The
 driver's word for "connected" is one flag; these theorems say how far it can be trusted.
 */
module Sessions {
  import opened Bytes
  import opened States
  import opened Commands
  import opened SendBuffer
  import opened AckReply
  import opened LengthReply
  import opened Trace
  import opened Machine
  import opened Safety
  import opened Runs
  import opened Callbacks

  // --------------------------------------------------------------- the connected flag

  /** The edge that opens a connection. */
  predicate Opens(m: Modem, input: Input, n: Modem) {
    input.Tick? && m.state.ConnectToServer? && n.state.NetworkGpsUsartEchoOff?
  }

  /** The steps that give one up: a restart, a hard reset, a close that was confirmed, a cancelled send. */
  predicate GivesUp(m: Modem, input: Input, n: Modem) {
    || (input.Restart? && !m.halted)
    || (input.Tick? && n.state != m.state && n.state.ResetStageDecide?)
    || (input.Tick? && m.state.CloseAndReconnect? && n.state.ConnectToServer?)
    || (input.Tick? && m.state.CancelSend? && n.state.GprsReset?)
  }

  lemma NoticeEdges(s: State, f: Flags, holds: set<Cond>)
    requires Fire(s, f, holds).Go?
    ensures var Go(target, action) := Fire(s, f, holds);
      && (action == NotifyConnected <==> s.ConnectToServer? && target.NetworkGpsUsartEchoOff?)
      && (action == NotifyDisconnected <==>
            (s.CloseAndReconnect? && target.ConnectToServer?) || (s.CancelSend? && target.GprsReset?))
      && (target.ResetStageDecide? ==> target != s)
  {
    hide FireOutside;
    if !InSession(s) {
      OutsideEdges(s, f, holds);
      ResetIsNotRepeated(f, holds);
    }
  }

  lemma ResetIsNotRepeated(f: Flags, holds: set<Cond>)
    ensures var move := FireOutside(ResetStageDecide, f, holds); move.Go? ==> !move.target.ResetStageDecide?
  {
  }

  lemma ResetDisconnects(m: Modem, event: seq<Byte>)
    ensures !Enter(m, ResetStageDecide, event).connected
  {
  }

  lemma TickConnection(m: Modem, env: Env)
    ensures var n, input := TickMachine(m, env), Tick(env);
      !m.halted ==> (n.connected <==> Opens(m, input, n) || (m.connected && !GivesUp(m, input, n)))
  {
    hide TickMachine, Observe, Fire, Perform, Enter, DataFlags;
    var o, move := TickShape(m, env);
    ObserveFrame(m, env.event);
    if move.Go? {
      NoticeEdges(m.state, DataFlags(o, env.event), env.holds);
      PerformKeeps(o, move.action, env.event);
      EnterFrame(Perform(o, move.action, env.event), move.target, env.event);
      ResetDisconnects(Perform(o, move.action, env.event), env.event);
    }
  }

  /**
   `connected` changes with these steps and no others. In particular a soft reset and the
   way to a shutdown leave it as it is, although the modem's session is gone.
   */
  lemma ConnectionChangesExactly(m: Modem, input: Input)
    ensures var n := Step(m, input);
      n.connected <==> Opens(m, input, n) || (m.connected && !GivesUp(m, input, n))
  {
    hide TickMachine, Enter, AppSend, AppPushSms, CString;
    if !m.halted {
      match input {
        case Tick(env) => TickConnection(m, env);
        case SoftReset => EnterFrame(m, GprsReset, []);
        case PowerOffEvent => EnterFrame(m, ShutDownStageStart, []);
        case Restart => ResetDisconnects(m, []);
        case Send(bytes) => CallFrame(m, bytes);
        case PushSms(sms) => PushFrame(m, sms);
        case _ =>
      }
    }
  }

  /**
   A session starts with `connected` set exactly when it was opened by this driver, or when
   the flag was set before.
   */
  lemma SessionConnectedExactly(m: Modem, env: Env)
    requires !m.halted && !m.state.NetworkGpsUsartEchoOff?
    requires TickMachine(m, env).state.NetworkGpsUsartEchoOff?
    ensures m.state.ConnectToServer? || m.state.CheckConnection?
    ensures TickMachine(m, env).connected <==> m.connected || m.state.ConnectToServer?
  {
    hide TickMachine, Observe, Fire, Perform, Enter, RecvLength;
    var o, move := TickShape(m, env);
    ObserveFrame(m, env.event);
    SessionEdges(m.state, DataFlags(o, env.event), env.holds);
    if move.Go? {
      PerformKeeps(o, move.action, env.event);
      EnterFrame(Perform(o, move.action, env.event), move.target, env.event);
    }
  }

  lemma SessionEdges(s: State, f: Flags, holds: set<Cond>)
    ensures var move := Fire(s, f, holds);
      move.Go? && move.target.NetworkGpsUsartEchoOff? ==>
        || (s.ConnectToServer? && move.action == NotifyConnected)
        || (s.CheckConnection? && move.action == NoAction)
  {
    hide FireOutside;
    if !InSession(s) && Fire(s, f, holds).Go? {
      OutsideEdges(s, f, holds);
    }
  }

  // ------------------------------------------------------------- what disconnect stops

  predicate WithoutConnect(inputs: seq<Input>) {
    forall i :: 0 <= i < |inputs| ==> !inputs[i].Connect?
  }

  ghost predicate OpensBetween(a: Log, b: Log) {
    exists i :: |a| <= i < |b| && IsOpen(b[i])
  }

  /** An open command is sent somewhere on the way. */
  ghost predicate OpensOn(m: Modem, inputs: seq<Input>) {
    OpensBetween(m.log, Run(m, inputs).log)
  }

  /** Outside a session, with nowhere to connect to. */
  predicate Quiet(m: Modem) {
    !InSession(m.state) && m.address == []
  }

  /** `b` goes on where `a` ends, without an open command. */
  ghost predicate GrowsQuietly(a: Log, b: Log) {
    a <= b && forall i :: |a| <= i < |b| ==> !IsOpen(b[i])
  }

  lemma QuietDrop(m: Modem)
    ensures GrowsQuietly(m.log, OnDisconnected(m).log)
  {
  }

  lemma QuietEntry(m: Modem, s: State, event: seq<Byte>)
    requires !InSession(s)
    ensures GrowsQuietly(m.log, Enter(m, s, event).log)
  {
    hide OnDisconnected, Prepare, SendStage, QueryAck, DeclareStage, SmsNumber, SmsBody, SmsRemove;
    QuietDrop(m.(state := s));
  }

  lemma QuietTick(m: Modem, env: Env)
    requires Quiet(m)
    ensures var n := TickMachine(m, env); Quiet(n) && GrowsQuietly(m.log, n.log)
  {
    hide TickMachine, Observe, Fire, Perform, Enter, RecvLength, GrowsQuietly;
    var o, move := TickShape(m, env);
    ObserveFrame(m, env.event);
    if move.Go? {
      QuietEdge(m.state, DataFlags(o, env.event), env.holds);
      PerformKeeps(o, move.action, env.event);
      PerformKeepsLog(o, move.action, env.event);
      EnterFrame(Perform(o, move.action, env.event), move.target, env.event);
      QuietEntry(Perform(o, move.action, env.event), move.target, env.event);
    } else {
      assert GrowsQuietly(m.log, m.log) by { QuietStart(m.log); }
    }
  }

  lemma QuietStart(log: Log)
    ensures GrowsQuietly(log, log)
  {
  }

  lemma QuietEdge(s: State, f: Flags, holds: set<Cond>)
    requires !InSession(s) && !f.addressKnown && Fire(s, f, holds).Go?
    ensures var Go(target, action) := Fire(s, f, holds); !InSession(target) && !Logs(action)
  {
    hide FireOutside, FireInSession;
    OutsideEdges(s, f, holds);
  }

  lemma QuietStep(m: Modem, input: Input)
    requires Quiet(m) && !input.Connect?
    ensures var n := Step(m, input); Quiet(n) && GrowsQuietly(m.log, n.log)
  {
    hide TickMachine, Enter, CString;
    if !m.halted {
      match input {
        case Tick(env) => QuietTick(m, env);
        case SoftReset =>
          EnterFrame(m, GprsReset, []);
          QuietEntry(m, GprsReset, []);
        case PowerOffEvent =>
          EnterFrame(m, ShutDownStageStart, []);
          QuietEntry(m, ShutDownStageStart, []);
        case Restart =>
          EnterFrame(m, ResetStageDecide, []);
          QuietEntry(m, ResetStageDecide, []);
        case _ =>
      }
    }
  }

  /** Without a connect nothing is opened from outside a session, whatever happens. */
  lemma {:induction false} QuietRun(m: Modem, inputs: seq<Input>)
    requires Quiet(m) && WithoutConnect(inputs)
    ensures Quiet(Run(m, inputs)) && GrowsQuietly(m.log, Run(m, inputs).log)
    decreases |inputs|
  {
    hide Step;
    if inputs != [] {
      QuietRun(m, inputs[..|inputs| - 1]);
      QuietStep(Run(m, inputs[..|inputs| - 1]), inputs[|inputs| - 1]);
    }
  }

  // ---------------------------------------------------------- and what it does not stop

  /** A world in which everything goes wrong that can. */
  const HOSTILE: set<Cond> := {CommandOk, StateOther, ConnectFail, Ok, Closed, AckReply, SendOk, CmgsOk}

  function HostileEvent(m: Modem): seq<Byte> {
    if m.state.NetworkReceive? then seq(m.bytesReceived, i => NUL) else []
  }

  /** ... except that something has to wake a sleeping driver. */
  function Hostile(m: Modem): Input {
    if m.state.Sleep? && m.buffer == [] then Send(['x']) else Tick(Env(HOSTILE, HostileEvent(m)))
  }

  /** Steps to the next open command in that world, with `k` messages waiting. */
  function Distance(s: State, k: nat, empty: bool): nat {
    var late := if k == 0 then 1 else k;
    if s.CloseAndReconnect? || s.CheckConnection? || s.CheckConnectionPreSend? then 0
    else if s.NetworkAckCheck? || s.NetworkBeginReceive? then 2
    else if s.NetworkCheckReceive? then 3
    else if s.NetworkGpsUsartEchoOff? || s.NetworkReceive? then 4
    else if s.Sleep? then (if empty then 3 else 2)
    else if s.SmsBeginSend? then (if k == 0 then 1 else 4 * k + 5)
    else if s.SmsSendSingleNumber? then 4 * late + 4
    else if s.SmsSendSingleBody? then 4 * late + 3
    else if s.SmsSendSingleRemove? then 4 * k + 6
    else 1
  }

  /** The edge that fires there leads closer to an open command, or sends one. */
  ghost predicate LeadsCloser(s: State, f: Flags, k: nat, empty: bool) {
    var move := Fire(s, f, HOSTILE);
    && move.Go? && InSession(move.target)
    && !move.target.NetworkDeclareRead? && !move.target.NetworkPrepareSend?
    && (move.action == NotifyDisconnected ==> move.target.ConnectToServer?)
    && (Distance(s, k, empty) == 0 <==> move.target.ConnectToServer?)
    && (!move.target.ConnectToServer? ==>
          Distance(move.target, if move.target.SmsSendSingleRemove? && k > 0 then k - 1 else k, empty)
            < Distance(s, k, empty))
  }

  predicate SendsSms(s: State) {
    s.SmsBeginSend? || s.SmsSendSingleNumber? || s.SmsSendSingleBody? || s.SmsSendSingleRemove?
  }

  lemma HostileMessageEdge(s: State, f: Flags, k: nat, empty: bool)
    requires SendsSms(s) && (f.smsToSend <==> k > 0)
    ensures LeadsCloser(s, f, k, empty)
  {
    hide FireOutside;
  }

  predicate SendsBytes(s: State) {
    || s.NetworkBeginSend? || s.Sleep? || s.Wake? || s.CheckConnectionPreSend? || s.NetworkPrepareSend?
    || s.NetworkSend? || s.NetworkAckCheck? || s.NetworkAckCheckParse? || s.NetworkDeclareRead? || s.CancelSend?
  }

  lemma HostileSendEdge(s: State, f: Flags, k: nat, empty: bool)
    requires SendsBytes(s) && (s.Sleep? ==> f.dataToSend)
    ensures LeadsCloser(s, f, k, empty)
  {
    hide FireOutside;
  }

  predicate Opening(s: State) {
    s.CloseAndReconnect? || s.CheckConnection? || s.ConnectToServer? || s.NetworkGpsUsartEchoOff?
  }

  lemma HostileOpenEdge(s: State, f: Flags, k: nat, empty: bool)
    requires Opening(s)
    ensures LeadsCloser(s, f, k, empty)
  {
    hide FireOutside;
  }

  lemma HostileReceiveEdge(s: State, f: Flags, k: nat, empty: bool)
    requires InSession(s) && !SendsSms(s) && !SendsBytes(s) && !Opening(s)
    requires s.NetworkReceive? ==> f.lengthMatches
    requires s.NetworkBeginReceive? ==> !f.lengthAccepted
    ensures LeadsCloser(s, f, k, empty)
  {
    hide FireOutside;
  }

  lemma HostileEdge(s: State, f: Flags, k: nat, empty: bool)
    requires InSession(s) && (f.smsToSend <==> k > 0)
    requires s.NetworkReceive? ==> f.lengthMatches
    requires s.NetworkBeginReceive? ==> !f.lengthAccepted
    requires s.Sleep? ==> f.dataToSend
    ensures LeadsCloser(s, f, k, empty)
  {
    hide Fire, LeadsCloser, Distance;
    if SendsSms(s) {
      HostileMessageEdge(s, f, k, empty);
    } else if SendsBytes(s) {
      HostileSendEdge(s, f, k, empty);
    } else if Opening(s) {
      HostileOpenEdge(s, f, k, empty);
    } else {
      HostileReceiveEdge(s, f, k, empty);
    }
  }

  function DistanceOf(m: Modem): nat {
    Distance(m.state, |m.sms|, m.buffer == [])
  }

  lemma HostileTick(m: Modem)
    requires InSession(m.state) && !m.halted && !(m.state.Sleep? && m.buffer == [])
    ensures var n := TickMachine(m, Env(HOSTILE, HostileEvent(m)));
      && !n.halted && InSession(n.state)
      && (if DistanceOf(m) == 0
          then n.log != [] && IsOpen(n.log[|n.log| - 1]) && |n.log| > |m.log|
          else m.log <= n.log && DistanceOf(n) < DistanceOf(m))
  {
    var event := HostileEvent(m);
    var env := Env(HOSTILE, event);
    NothingObserved(m);
    hide TickMachine, Observe, Fire, Perform, Enter, RecvLength, Distance;
    var o, move := TickShape(m, env);
    var f := DataFlags(m, event);
    HostileEdge(m.state, f, |m.sms|, m.buffer == []);
    var p := Perform(m, move.action, event);
    PerformKeeps(m, move.action, event);
    PerformFrame(m, move.action, event);
    PerformGrows(m, move.action, event);
    EnterFrame(p, move.target, event);
    EnterGrows(p, move.target, event);
    if move.target.ConnectToServer? {
      OpenEntryLog(p, event);
    }
  }

  lemma NothingObserved(m: Modem)
    ensures Observe(m, HostileEvent(m)) == m
    ensures m.state.NetworkReceive? ==> |HostileEvent(m)| == m.bytesReceived
    ensures m.state.NetworkBeginReceive? ==> !RecvLength(HostileEvent(m)).Accepts()
  {
  }

  lemma RunCons(m: Modem, input: Input, inputs: seq<Input>)
    ensures Run(m, [input] + inputs) == Run(Step(m, input), inputs)
    ensures Run(m, [input]) == Step(m, input)
  {
    hide Step;
    assert [input][..0] == [];
    assert Run(m, [input]) == Step(Run(m, []), input);
    RunSplit(m, [input], inputs);
  }

  lemma OpensLater(m: Modem, input: Input, inputs: seq<Input>)
    requires OpensOn(Step(m, input), inputs)
    ensures OpensOn(m, [input] + inputs)
  {
    hide Step, Run;
    StepGrows(m, input);
    RunCons(m, input, inputs);
    var n := Step(m, input);
    var i :| |n.log| <= i < |Run(n, inputs).log| && IsOpen(Run(n, inputs).log[i]);
    assert IsOpen(Run(m, [input] + inputs).log[i]);
  }

  lemma OpensNow(a: Log, b: Log)
    requires |a| < |b| && IsOpen(b[|b| - 1])
    ensures OpensBetween(a, b)
  {
  }

  /** From everywhere in a session the driver can come to open a connection on its own. */
  lemma {:induction false} SessionReopens(m: Modem) returns (inputs: seq<Input>)
    requires InSession(m.state) && !m.halted
    ensures WithoutConnect(inputs) && OpensOn(m, inputs)
    decreases DistanceOf(m)
  {
    hide TickMachine, OpensBetween, Run, IsOpen;
    var x := Hostile(m);
    var n := Step(m, x);
    if x.Tick? {
      HostileTick(m);
    } else {
      assert m.buffer + ['x'] != [];
    }
    inputs := [x];
    if DistanceOf(m) == 0 {
      RunCons(m, x, []);
      OpensNow(m.log, n.log);
    } else {
      var rest := SessionReopens(n);
      inputs := inputs + rest;
      OpensLater(m, x, rest);
    }
  }

  /**
   `disconnect` is meant to keep the driver from connecting again. Called during a session it
   does not: some behaviour of modem and application, without a new connect, makes the driver
   send an open command. Called anywhere else it does, for good.
   */
  lemma DisconnectStopsExactly(m: Modem)
    requires !m.halted
    ensures (exists inputs :: WithoutConnect(inputs) && OpensOn(Step(m, Disconnect), inputs)) <==> InSession(m.state)
  {
    var n := m.(address := [], port := 0);
    assert Step(m, Disconnect) == n;
    hide Step, Run, GrowsQuietly, OpensOn;
    if InSession(m.state) {
      var inputs := SessionReopens(n);
    } else {
      forall inputs | WithoutConnect(inputs)
        ensures !OpensOn(n, inputs)
      {
        QuietRun(n, inputs);
        QuietOpensNothing(n, inputs);
      }
    }
  }

  lemma QuietOpensNothing(m: Modem, inputs: seq<Input>)
    requires GrowsQuietly(m.log, Run(m, inputs).log)
    ensures !OpensOn(m, inputs)
  {
    hide Run;
  }

  /** From power-up nothing is opened before the first connect. */
  lemma {:induction false} NoOpenBeforeConnect(callback: bool, inputs: seq<Input>)
    requires WithoutConnect(inputs)
    ensures !InSession(Run(Initial(callback), inputs).state) && !OpensOn(Initial(callback), inputs)
  {
    hide Run, GrowsQuietly, OpensOn;
    QuietRun(Initial(callback), inputs);
    QuietOpensNothing(Initial(callback), inputs);
  }

  /** Between `a` and `b` open commands are sent for this address and port only. */
  ghost predicate OpensOnly(a: Log, b: Log, address: seq<Byte>, port: Port) {
    a <= b && forall i :: |a| <= i < |b| && IsOpen(b[i]) ==> b[i].command == Qiopen(address, port)
  }

  lemma GrowsOnly(a: Log, m: Modem, log: Log)
    requires OpensOnly(a, m.log, m.address, m.port) && Grows(m, log)
    ensures OpensOnly(a, log, m.address, m.port)
  {
    forall i | |a| <= i < |log| && IsOpen(log[i])
      ensures log[i].command == Qiopen(m.address, m.port)
    {
      if i < |m.log| {
        assert log[i] == m.log[i];
      }
    }
  }

  lemma DisconnectForgets(m: Modem)
    ensures var n := Step(m, Disconnect); n == if m.halted then m else m.(address := [], port := 0)
  {
  }

  lemma ConnectStores(m: Modem, address: seq<Byte>, port: Port)
    requires !m.halted
    ensures Step(m, Connect(address, port)) == m.(address := CString(address), port := port)
  {
  }

  /** Inputs that leave address and port as they are: no connect, and a disconnect only when there are none. */
  predicate Leaves(inputs: seq<Input>, address: seq<Byte>, port: Port) {
    forall i :: 0 <= i < |inputs| ==>
      !inputs[i].Connect? && (inputs[i].Disconnect? ==> address == [] && port == 0)
  }

  lemma {:induction false} HeldThroughout(m: Modem, inputs: seq<Input>)
    requires Leaves(inputs, m.address, m.port)
    ensures var n := Run(m, inputs);
      n.address == m.address && n.port == m.port && OpensOnly(m.log, n.log, m.address, m.port)
    decreases |inputs|
  {
    hide Step, Grows;
    if inputs != [] {
      var before, x := inputs[..|inputs| - 1], inputs[|inputs| - 1];
      HeldThroughout(m, before);
      var p := Run(m, before);
      StepGrows(p, x);
      GrowsOnly(m.log, p, Step(p, x).log);
      StepKeepsSettings(p, x);
      DisconnectForgets(p);
    }
  }

  /**
   From a connect until the next connect or disconnect, the driver holds what it was given (the
   address as a C string), and whatever it opens is opened there.
   */
  lemma {:induction false} OpensWhereConnected(m: Modem, address: seq<Byte>, port: Port, inputs: seq<Input>)
    requires !m.halted && Leaves(inputs, CString(address), port)
    ensures var n := Run(Step(m, Connect(address, port)), inputs);
      n.address == CString(address) && n.port == port && OpensOnly(m.log, n.log, CString(address), port)
  {
    hide Step, Run, OpensOnly, CString;
    ConnectStores(m, address, port);
    HeldThroughout(Step(m, Connect(address, port)), inputs);
  }

  /** After `disconnect`, until the next connect, whatever is opened is opened for no address. */
  lemma {:induction false} OpensNowhereAfterDisconnect(m: Modem, inputs: seq<Input>)
    requires !m.halted && WithoutConnect(inputs)
    ensures OpensOnly(m.log, Run(Step(m, Disconnect), inputs).log, [], 0)
  {
    hide Step, Run, OpensOnly;
    DisconnectForgets(m);
    HeldThroughout(Step(m, Disconnect), inputs);
  }

  /** The last connect or disconnect of a run, by what it leaves to connect to. */
  function LastTarget(inputs: seq<Input>): (seq<Byte>, Port) {
    if inputs == [] then ([], 0)
    else
      match inputs[|inputs| - 1]
      case Connect(address, port) => (CString(address), port)
      case Disconnect => ([], 0)
      case _ => LastTarget(inputs[..|inputs| - 1])
  }

  /** On every run the driver holds the target of the last connect or disconnect. */
  lemma {:induction false} HoldsLastTarget(callback: bool, inputs: seq<Input>)
    ensures var m := Run(Initial(callback), inputs); !m.halted ==> (m.address, m.port) == LastTarget(inputs)
    decreases |inputs|
  {
    hide CString;
    if inputs != [] {
      var before, x := inputs[..|inputs| - 1], inputs[|inputs| - 1];
      HoldsLastTarget(callback, before);
      var p := Run(Initial(callback), before);
      if p.halted {
        assert Step(p, x) == p;
      } else {
        StepHoldsTarget(p, x);
      }
    }
  }

  lemma StepHoldsTarget(m: Modem, x: Input)
    requires !m.halted
    ensures var n := Step(m, x);
      (n.address, n.port) == match x
                             case Connect(address, port) => (CString(address), port)
                             case Disconnect => ([], 0)
                             case _ => (m.address, m.port)
  {
    hide Step, CString;
    StepKeepsSettings(m, x);
    DisconnectForgets(m);
    if x.Connect? {
      ConnectStores(m, x.newAddress, x.newPort);
    }
  }

  // ------------------------------------------------------- sessions opened unannounced

  lemma OpenEdges(s: State, f: Flags, holds: set<Cond>)
    requires Fire(s, f, holds).Go? && Fire(s, f, holds).target.ConnectToServer?
    ensures
      || (s.CloseAndReconnect? && Fire(s, f, holds).action == NotifyDisconnected)
      || ((s.CheckConnection? || s.CheckConnectionPreSend?) && Fire(s, f, holds).action == NoAction)
  {
    hide FireOutside;
    if !InSession(s) {
      OutsideEdges(s, f, holds);
    }
  }

  /** The state of the connection was asked for, the modem had none, and the flag says there is one. */
  predicate LeftStanding(m: Modem) {
    m.connected && (m.state.CheckConnection? || m.state.CheckConnectionPreSend?)
  }

  lemma OpeningTick(m: Modem, env: Env)
    requires !m.halted && TickMachine(m, env).state.ConnectToServer? && !m.state.ConnectToServer?
    ensures var n := TickMachine(m, env);
      && !n.halted
      && (m.state.CloseAndReconnect? || m.state.CheckConnection? || m.state.CheckConnectionPreSend?)
      && (n.connected <==> LeftStanding(m))
      && (LeftStanding(m) ==> n.buffer == m.buffer && n.log == m.log + [Command(Qiopen(m.address, m.port))])
      && m.log <= n.log
  {
    hide TickMachine, Observe, Fire, Perform, Enter, RecvLength;
    var o, move := TickShape(m, env);
    ObserveFrame(m, env.event);
    if move.Go? {
      var p := Perform(o, move.action, env.event);
      EnterFrame(p, move.target, env.event);
      OpenEdges(m.state, DataFlags(o, env.event), env.holds);
      ObserveElsewhere(m, env.event);
      PerformKeeps(o, move.action, env.event);
      PerformFrame(o, move.action, env.event);
      PerformGrows(o, move.action, env.event);
      OpenEntryLog(p, env.event);
      if move.action == NoAction {
        PerformKeepsLog(o, move.action, env.event);
      }
    }
  }

  /** CONNECT_TO_SERVER is entered from three states; the flag is still set there exactly when it was left standing. */
  lemma OpenedFrom(m: Modem, input: Input)
    requires Step(m, input).state.ConnectToServer? && !m.state.ConnectToServer?
    ensures var n := Step(m, input);
      && !n.halted
      && (m.state.CloseAndReconnect? || m.state.CheckConnection? || m.state.CheckConnectionPreSend?)
      && (n.connected <==> LeftStanding(m))
      && (LeftStanding(m) ==> n.buffer == m.buffer && n.log == m.log + [Command(Qiopen(m.address, m.port))])
      && m.log <= n.log
  {
    hide TickMachine, Enter, CString;
    if !m.halted {
      match input {
        case Tick(env) => OpeningTick(m, env);
        case SoftReset => EnterFrame(m, GprsReset, []);
        case PowerOffEvent => EnterFrame(m, ShutDownStageStart, []);
        case Restart => EnterFrame(m, ResetStageDecide, []);
        case _ =>
      }
    }
  }

  predicate IsNote(e: Event) {
    e.ConnectedNote? || e.DisconnectedNote?
  }

  /** The application hears of the connection somewhere between `a` and `b`. */
  ghost predicate Announces(a: Log, b: Log) {
    exists i :: |a| <= i < |b| && IsNote(b[i])
  }

  /** Nothing but calls of the application happens: flag and bytes stay, and no note is issued. */
  ghost predicate KeepsWaiting(m: Modem, n: Modem) {
    && n.connected == m.connected && n.halted == m.halted
    && m.buffer <= n.buffer && m.log <= n.log && !Announces(m.log, n.log)
  }

  lemma ConnectingEdges(f: Flags, holds: set<Cond>)
    ensures var move := Fire(ConnectToServer, f, holds);
      && (move.Go? ==> !move.target.ConnectToServer?)
      && (ConnectOk in holds ==> move == Go(NetworkGpsUsartEchoOff, NotifyConnected))
  {
  }

  lemma WaitingTick(m: Modem, env: Env)
    requires m.state.ConnectToServer? && !m.halted && TickMachine(m, env).state.ConnectToServer?
    ensures TickMachine(m, env) == m
  {
    hide TickMachine, Observe, Fire, Perform, Enter, DataFlags;
    var o, move := TickShape(m, env);
    ObserveElsewhere(m, env.event);
    ConnectingEdges(DataFlags(o, env.event), env.holds);
    if move.Go? {
      EnterFrame(Perform(o, move.action, env.event), move.target, env.event);
    }
  }

  lemma WaitingStep(m: Modem, input: Input)
    requires m.state.ConnectToServer? && !m.halted && Step(m, input).state.ConnectToServer?
    ensures KeepsWaiting(m, Step(m, input))
  {
    hide TickMachine, Enter, CString;
    match input {
      case Tick(env) => WaitingTick(m, env);
      case SoftReset => EnterFrame(m, GprsReset, []);
      case PowerOffEvent => EnterFrame(m, ShutDownStageStart, []);
      case Restart => EnterFrame(m, ResetStageDecide, []);
      case _ =>
    }
  }

  lemma WaitingOn(l: Modem, m: Modem, n: Modem)
    requires KeepsWaiting(l, m) && KeepsWaiting(m, n)
    ensures KeepsWaiting(l, n)
  {
    forall i | |l.log| <= i < |n.log|
      ensures !IsNote(n.log[i])
    {
      if i < |m.log| {
        assert n.log[i] == m.log[i];
      }
    }
  }

  ghost predicate StaysConnecting(m: Modem, inputs: seq<Input>) {
    forall k :: 0 <= k <= |inputs| ==> Run(m, inputs[..k]).state.ConnectToServer?
  }

  lemma {:induction false} WaitingRun(m: Modem, inputs: seq<Input>)
    requires !m.halted && StaysConnecting(m, inputs)
    ensures KeepsWaiting(m, Run(m, inputs)) && Run(m, inputs).state.ConnectToServer?
    decreases |inputs|
  {
    hide Step;
    assert inputs[..|inputs|] == inputs;
    if inputs != [] {
      var before := inputs[..|inputs| - 1];
      assert forall k :: 0 <= k <= |before| ==> before[..k] == inputs[..k];
      WaitingRun(m, before);
      var p := Run(m, before);
      assert Run(m, inputs) == Step(p, inputs[|inputs| - 1]);
      hide KeepsWaiting;
      WaitingIsNotHalted(m, p);
      WaitingStep(p, inputs[|inputs| - 1]);
      WaitingOn(m, p, Run(m, inputs));
    }
  }

  lemma WaitingIsNotHalted(m: Modem, n: Modem)
    requires KeepsWaiting(m, n)
    ensures n.halted == m.halted
  {
  }

  /** The tick that finds the connection open announces it exactly when the flag was clear. */
  lemma ConnectOkTick(m: Modem, env: Env)
    requires !m.halted && m.state.ConnectToServer? && ConnectOk in env.holds
    ensures var n := TickMachine(m, env);
      && n.state.NetworkGpsUsartEchoOff? && n.connected && n.buffer == m.buffer
      && n.log == m.log + (if m.connected then [] else [ConnectedNote(m.callback)])
                        + [Command(Fixed(NetworkGpsUsartEchoOff))]
  {
    hide TickMachine, Observe, Fire, DataFlags;
    var o, move := TickShape(m, env);
    ObserveElsewhere(m, env.event);
    ConnectingEdges(DataFlags(o, env.event), env.holds);
  }

  /**
   Exactly when a new connection is opened without the application hearing of it, however
   long the opening takes and whatever is called meanwhile: when the modem turned out to have
   none although the flag was set. The bytes accepted for the old connection are then kept,
   and go out over the new one.
   */
  lemma {:induction false} OpenedUnannouncedExactly(m: Modem, input: Input, waits: seq<Input>, env: Env)
    requires Step(m, input).state.ConnectToServer? && !m.state.ConnectToServer?
    requires StaysConnecting(Step(m, input), waits) && ConnectOk in env.holds
    ensures var n := TickMachine(Run(Step(m, input), waits), env);
      && n.state.NetworkGpsUsartEchoOff? && n.connected
      && (Announces(m.log, n.log) <==> !LeftStanding(m))
      && (LeftStanding(m) ==> m.buffer <= n.buffer)
  {
    hide Step, TickMachine, Run, StaysConnecting;
    var c := Step(m, input);
    OpenedFrom(m, input);
    WaitingRun(c, waits);
    var w := Run(c, waits);
    ConnectOkTick(w, env);
    var n := TickMachine(w, env);
    if LeftStanding(m) {
      SilentAllAlong(m.log, c.log, w.log, n.log,
                     Command(Qiopen(m.address, m.port)), Command(Fixed(NetworkGpsUsartEchoOff)));
    } else {
      assert IsNote(n.log[|w.log|]);
    }
  }

  lemma SilentAllAlong(a: Log, c: Log, w: Log, n: Log, e1: Event, e2: Event)
    requires c == a + [e1] && c <= w && !Announces(c, w) && n == w + [e2]
    requires !IsNote(e1) && !IsNote(e2)
    ensures !Announces(a, n)
  {
    forall i | |a| <= i < |n|
      ensures !IsNote(n[i])
    {
      if |c| <= i < |w| {
        assert n[i] == w[i];
      } else if i < |c| {
        assert n[i] == c[i] == e1;
      }
    }
  }

  // ------------------------------------------------------------- one tick of disconnect

  lemma AddressEdges(s: State, f: Flags, known: bool, holds: set<Cond>)
    ensures !s.ControlWaitForConnect? ==> Fire(s, f.(addressKnown := known), holds) == Fire(s, f, holds)
    ensures s.ControlWaitForConnect? ==>
              Fire(s, f, holds) == if f.addressKnown then Go(CheckConnection, NoAction) else Stay
  {
  }

  /**
   The address has an influence on where a single tick leads in the state that waits for a
   connect, and nowhere else.
   */
  lemma DisconnectMovesTickExactly(m: Modem)
    requires !m.halted
    ensures
      (exists env :: TickMachine(Step(m, Disconnect), env).state != TickMachine(m, env).state)
        <==> m.state.ControlWaitForConnect? && m.address != [] && m.port > 0
  {
    var n := Step(m, Disconnect);
    forall env: Env
      ensures TickMachine(n, env).state != TickMachine(m, env).state
         <==> m.state.ControlWaitForConnect? && m.address != [] && m.port > 0
    {
      TickAfterDisconnect(m, env);
    }
    assert TickMachine(n, Env({}, [])).state != TickMachine(m, Env({}, [])).state
      <==> m.state.ControlWaitForConnect? && m.address != [] && m.port > 0;
  }

  /** Where a tick leads is decided by the table alone. */
  lemma TickState(m: Modem, env: Env)
    requires !m.halted
    ensures var o := Observe(m, env.event);
      var move := Fire(m.state, DataFlags(o, env.event), env.holds);
      TickMachine(m, env).state == if o.halted || move.Stay? then m.state else move.target
  {
    hide TickMachine, Observe, Fire, Perform, Enter, DataFlags;
    var o, move := TickShape(m, env);
    ObserveFrame(m, env.event);
    if move.Go? {
      EnterFrame(Perform(o, move.action, env.event), move.target, env.event);
    }
  }

  lemma TickAfterDisconnect(m: Modem, env: Env)
    requires !m.halted
    ensures TickMachine(Step(m, Disconnect), env).state != TickMachine(m, env).state
       <==> m.state.ControlWaitForConnect? && m.address != [] && m.port > 0
  {
    var n := m.(address := [], port := 0);
    assert Step(m, Disconnect) == n;
    hide Step, TickMachine, Observe, Fire, RecvLength, DataFlags;
    TickState(m, env);
    TickState(n, env);
    ObserveIgnoresAddress(m, env.event);
    FlagsAfterDisconnect(Observe(m, env.event), env.event);
    AddressEdges(m.state, DataFlags(Observe(m, env.event), env.event), false, env.holds);
    AddressEdges(m.state, DataFlags(Observe(n, env.event), env.event), false, env.holds);
  }

  lemma FlagsAfterDisconnect(m: Modem, event: seq<Byte>)
    ensures DataFlags(m.(address := [], port := 0), event) == DataFlags(m, event).(addressKnown := false)
    ensures DataFlags(m, event).addressKnown <==> m.address != [] && m.port > 0
  {
    hide RecvLength;
  }

  lemma ObserveIgnoresAddress(m: Modem, event: seq<Byte>)
    ensures Observe(m.(address := [], port := 0), event) == Observe(m, event).(address := [], port := 0)
    ensures Observe(m, event).address == m.address && Observe(m, event).port == m.port
  {
    hide RecvLength;
    ObserveFrame(m, event);
  }

  lemma CloseEdge(f: Flags, holds: set<Cond>)
    requires CommandOk in holds
    ensures Fire(CloseAndReconnect, f, holds) == Go(ConnectToServer, NotifyDisconnected)
  {
  }

  lemma OpenEntryLog(m: Modem, event: seq<Byte>)
    ensures var n := Enter(m, ConnectToServer, event);
      n.state.ConnectToServer? && n.log == m.log + [Command(Qiopen(m.address, m.port))]
  {
  }

  /** So a reconnect that is under way goes on, with an open command for an empty address. */
  lemma DisconnectDoesNotStopReconnect(m: Modem, env: Env)
    requires !m.halted && m.state.CloseAndReconnect? && CommandOk in env.holds
    ensures var n := TickMachine(Step(m, Disconnect), env);
      n.state.ConnectToServer? && n.log != [] && n.log[|n.log| - 1] == Command(Qiopen([], 0))
  {
    var w := m.(address := [], port := 0);
    assert Step(m, Disconnect) == w;
    hide Step, TickMachine, Observe, RecvLength;
    var o, move := TickShape(w, env);
    ObserveElsewhere(w, env.event);
    CloseEdge(DataFlags(o, env.event), env.holds);
    hide Fire;
    OpenEntryLog(OnDisconnected(w), env.event);
  }
}
