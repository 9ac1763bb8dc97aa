/**
 What it takes for the driver to give bytes up, and how it comes back from a timeout without
 giving any up: a cancelled transmission, exhausted polls, a soft reset, a modem that is silent
 when it is addressed first.
 */
module Recovery {
  import opened Bytes
  import opened States
  import opened Commands
  import opened SendBuffer
  import opened AckReply
  import opened LengthReply
  import opened Trace
  import opened TraceTheorems
  import opened Machine
  import opened Safety
  import opened Accounts
  import opened Runs
  import opened Callbacks
  import opened Sessions
  import opened Drain

  // --------------------------------------------------------------- what a drop takes

  /** The modem reports that something is lost or refused, or a hard reset is due. */
  const REPORTS: set<Cond> := {Closed, Error, SendFailed, ConnectFail, CancelPrompt, HardResetDelay}

  /** Timeouts are not among the causes, nor are polls without an acknowledgement. */
  predicate IsCause(input: Input) {
    input.Restart? || (input.Tick? && exists c :: c in REPORTS && c in input.env.holds)
  }

  ghost predicate NothingDropped(a: Log, b: Log) {
    a <= b && forall i :: |a| <= i < |b| ==> !b[i].Dropped?
  }

  lemma NothingDroppedYet(log: Log, e: Event)
    requires !e.Dropped?
    ensures NothingDropped(log, log) && NothingDropped(log, log + [e])
  {
  }

  lemma NothingDroppedStill(a: Log, b: Log, c: Log)
    requires NothingDropped(a, b) && NothingDropped(b, c)
    ensures NothingDropped(a, c)
  {
    forall i | |a| <= i < |c|
      ensures !c[i].Dropped?
    {
      if i < |b| {
        assert c[i] == b[i];
      }
    }
  }

  lemma CalmOutside(s: State, f: Flags, holds: set<Cond>)
    requires !InSession(s) && FireOutside(s, f, holds).Go? && HardResetDelay !in holds && Error !in holds
    ensures !FireOutside(s, f, holds).target.ResetStageDecide?
  {
  }

  /** Without a cause no edge notifies of a disconnect, closes the connection or resets the modem the hard way. */
  lemma CalmEdge(s: State, f: Flags, holds: set<Cond>)
    requires !s.CloseAndReconnect? && Fire(s, f, holds).Go? && forall c :: c in REPORTS ==> c !in holds
    ensures var Go(target, action) := Fire(s, f, holds);
      action != NotifyDisconnected && !target.CloseAndReconnect? && !target.ResetStageDecide?
  {
    hide FireOutside;
    assert {Closed, Error, SendFailed, ConnectFail, CancelPrompt, HardResetDelay} == REPORTS;
    if !InSession(s) {
      OutsideEdges(s, f, holds);
      CalmOutside(s, f, holds);
    }
  }

  lemma PerformDropsNothing(m: Modem, action: Action, event: seq<Byte>)
    requires action != NotifyDisconnected
    ensures NothingDropped(m.log, Perform(m, action, event).log)
  {
    hide NothingDropped, OnDisconnected;
    NothingDroppedYet(m.log, ConnectedNote(m.callback));
    NothingDroppedYet(m.log, DataNote(event, m.callback));
    NothingDroppedYet(m.log, SentNote(m.bytesToSend, m.callback));
  }

  lemma RoundDropsNothing(m: Modem, event: seq<Byte>)
    ensures NothingDropped(m.log, Prepare(m).log) && NothingDropped(m.log, SendStage(m).log)
    ensures NothingDropped(m.log, QueryAck(m, event).log) && NothingDropped(m.log, DeclareStage(m).log)
  {
    hide NothingDropped, AckOf, Prefix, Window, DropFirst;
    NothingDroppedYet(m.log, Command(Qisend(Window(|m.buffer|))));
    NothingDroppedYet(m.log, Payload(Prefix(m.buffer, m.bytesToSend)));
    NothingDroppedYet(m.log, AckRead(AckOf(event)));
    NothingDroppedYet(m.log, Declared(Prefix(m.buffer, m.bytesToSend)));
  }

  lemma SmsDropsNothing(m: Modem)
    ensures NothingDropped(m.log, SmsNumber(m).log) && NothingDropped(m.log, SmsBody(m).log)
    ensures NothingDropped(m.log, SmsRemove(m).log)
  {
    hide NothingDropped;
    var first := if m.sms == [] then SmsText([], []) else m.sms[0];
    NothingDroppedYet(m.log, Command(SmsTo(first)));
    NothingDroppedYet(m.log, Command(SmsBodyOf(first)));
    NothingDroppedYet(m.log, SmsRemoved(first));
  }

  lemma CommandDropsNothing(m: Modem, command: AtCommand)
    ensures NothingDropped(m.log, Transmit(m, command).log) && NothingDropped(m.log, m.log)
  {
  }

  lemma EnterDropsNothing(m: Modem, s: State, event: seq<Byte>)
    requires !s.ResetStageDecide?
    ensures NothingDropped(m.log, Enter(m, s, event).log)
  {
    hide NothingDropped, OnDisconnected, Transmit;
    hide Prepare, SendStage, QueryAck, DeclareStage, SmsNumber, SmsBody, SmsRemove;
    var at := m.(state := s);
    RoundDropsNothing(at, event);
    SmsDropsNothing(at);
    CommandDropsNothing(at, Qiopen(m.address, m.port));
    CommandDropsNothing(at, Fixed(s));
  }

  lemma CalmTick(m: Modem, env: Env)
    requires !m.state.CloseAndReconnect? && !IsCause(Tick(env))
    ensures var n := TickMachine(m, env); NothingDropped(m.log, n.log) && !n.state.CloseAndReconnect?
  {
    hide TickMachine, Observe, Fire, Perform, Enter, DataFlags, NothingDropped;
    var o, move := TickShape(m, env);
    ObserveFrame(m, env.event);
    NothingDroppedYet(m.log, Command(Qiopen([], 0)));
    if move.Go? {
      CalmEdge(m.state, DataFlags(o, env.event), env.holds);
      var p := Perform(o, move.action, env.event);
      PerformDropsNothing(o, move.action, env.event);
      EnterFrame(p, move.target, env.event);
      EnterDropsNothing(p, move.target, env.event);
      NothingDroppedStill(m.log, p.log, Enter(p, move.target, env.event).log);
    }
  }

  /** Neither a drop nor the way to one without a cause. */
  lemma CalmStep(m: Modem, input: Input)
    requires !m.state.CloseAndReconnect? && !IsCause(input)
    ensures var n := Step(m, input); NothingDropped(m.log, n.log) && !n.state.CloseAndReconnect?
  {
    hide TickMachine, Enter, CString;
    if !m.halted {
      match input {
        case Tick(env) => CalmTick(m, env);
        case SoftReset =>
          EnterDropsNothing(m, GprsReset, []);
          EnterFrame(m, GprsReset, []);
        case PowerOffEvent =>
          EnterDropsNothing(m, ShutDownStageStart, []);
          EnterFrame(m, ShutDownStageStart, []);
        case _ =>
      }
    }
  }

  ghost predicate WithoutCause(inputs: seq<Input>) {
    forall i :: 0 <= i < |inputs| ==> !IsCause(inputs[i])
  }

  /**
   Whatever happens that is not a cause, timeouts and soft resets and polls in vain included, no
   byte is dropped; unless the connection is being closed already.
   */
  lemma {:induction false} DropsNeedCauses(m: Modem, inputs: seq<Input>)
    requires !m.state.CloseAndReconnect? && WithoutCause(inputs)
    ensures var n := Run(m, inputs); NothingDropped(m.log, n.log) && !n.state.CloseAndReconnect?
    decreases |inputs|
  {
    hide Step, NothingDropped, IsCause;
    if inputs == [] {
      NothingDroppedYet(m.log, Command(Qiopen([], 0)));
    } else {
      var before := inputs[..|inputs| - 1];
      DropsNeedCauses(m, before);
      CalmStep(Run(m, before), inputs[|inputs| - 1]);
      NothingDroppedStill(m.log, Run(m, before).log, Run(m, inputs).log);
    }
  }

  lemma IntoClosing(s: State, f: Flags, holds: set<Cond>)
    requires Fire(s, f, holds).Go? && Fire(s, f, holds).target.CloseAndReconnect?
    ensures Fire(s, f, holds).action == NoAction
  {
    hide FireOutside;
    if !InSession(s) {
      OutsideEdges(s, f, holds);
    }
  }

  lemma ClosingTick(m: Modem, env: Env)
    requires TickMachine(m, env).state.CloseAndReconnect?
    ensures NothingDropped(m.log, TickMachine(m, env).log)
  {
    hide TickMachine, Observe, Fire, Enter, DataFlags, NothingDropped;
    var o, move := TickShape(m, env);
    ObserveFrame(m, env.event);
    NothingDroppedYet(m.log, Command(Qiopen([], 0)));
    if move.Go? {
      EnterFrame(Perform(o, move.action, env.event), move.target, env.event);
      IntoClosing(m.state, DataFlags(o, env.event), env.holds);
      EnterDropsNothing(o, move.target, env.event);
    }
  }

  /** Up to the closing of a connection its bytes are still there. */
  lemma ClosingDropsNothing(m: Modem, input: Input)
    requires Step(m, input).state.CloseAndReconnect?
    ensures NothingDropped(m.log, Step(m, input).log)
  {
    hide TickMachine, Enter, CString;
    if !m.halted {
      match input {
        case Tick(env) => ClosingTick(m, env);
        case SoftReset => EnterFrame(m, GprsReset, []);
        case PowerOffEvent => EnterFrame(m, ShutDownStageStart, []);
        case Restart => EnterFrame(m, ResetStageDecide, []);
        case _ =>
      }
    }
  }

  lemma {:induction false} ClosingHasCause(m: Modem, inputs: seq<Input>) returns (k: nat)
    requires !m.state.CloseAndReconnect? && Run(m, inputs).state.CloseAndReconnect?
    ensures k < |inputs| && IsCause(inputs[k])
    ensures NothingDropped(Run(m, inputs[..k]).log, Run(m, inputs).log)
    decreases |inputs|
  {
    hide Step, NothingDropped, IsCause;
    var before, x := inputs[..|inputs| - 1], inputs[|inputs| - 1];
    var q := Run(m, before);
    ClosingDropsNothing(q, x);
    if q.state.CloseAndReconnect? {
      k := ClosingHasCause(m, before);
      assert before[..k] == inputs[..k];
      NothingDroppedStill(Run(m, inputs[..k]).log, q.log, Run(m, inputs).log);
    } else {
      k := |before|;
      assert IsCause(x) by {
        if !IsCause(x) {
          CalmStep(q, x);
        }
      }
    }
  }

  lemma StepExtends(m: Modem, input: Input)
    ensures m.log <= Step(m, input).log
  {
    hide Step, Fits;
    StepGrows(m, input);
  }

  /**
   On every run each drop goes back to a cause: the step `l` in which it happens is one itself, or
   an earlier step `k` is, and nothing is dropped in between.
   */
  lemma {:induction false} DropHasCause(m: Modem, inputs: seq<Input>, i: nat) returns (k: nat, l: nat)
    requires !m.state.CloseAndReconnect?
    requires |m.log| <= i < |Run(m, inputs).log| && Run(m, inputs).log[i].Dropped?
    ensures k <= l < |inputs| && IsCause(inputs[k])
    ensures |Run(m, inputs[..l]).log| <= i < |Run(m, inputs[..l + 1]).log|
    ensures NothingDropped(Run(m, inputs[..k]).log, Run(m, inputs[..l]).log)
    decreases |inputs|
  {
    hide Step, IsCause;
    var before, x := inputs[..|inputs| - 1], inputs[|inputs| - 1];
    var q := Run(m, before);
    StepExtends(q, x);
    if i < |q.log| {
      k, l := DropHasCause(m, before, i);
      assert before[..k] == inputs[..k] && before[..l] == inputs[..l] && before[..l + 1] == inputs[..l + 1];
    } else {
      l := |before|;
      assert inputs[..l] == before && inputs[..l + 1] == inputs;
      if q.state.CloseAndReconnect? {
        k := ClosingHasCause(m, before);
        assert before[..k] == inputs[..k];
      } else {
        k := l;
        if !IsCause(x) {
          CalmStep(q, x);
        }
      }
    }
  }

  // ---------------------------------------------------- a transmission that is cancelled

  lemma CancelEdges(f: Flags, holds: set<Cond>)
    ensures Closed !in holds && SendOk !in holds && SendTimeout in holds ==>
              Fire(NetworkSend, f, holds) == Go(CancelSend, NoAction)
    ensures Closed !in holds && f.retryLimitReached ==>
              Fire(NetworkAckCheckParse, f, holds) == Go(CancelSend, ResetAckRetry)
    ensures SendOk in holds ==> Fire(CancelSend, f, holds) == Go(CheckConnection, NoAction)
  {
  }

  lemma CancelEntries(m: Modem, event: seq<Byte>)
    ensures Enter(m, CancelSend, event) == Transmit(m.(state := CancelSend), Fixed(CancelSend))
    ensures Enter(m, CheckConnection, event) == Transmit(m.(state := CheckConnection), Fixed(CheckConnection))
  {
  }

  /** Two commands went out and the state is another; nothing else happened. */
  predicate OnlyCancelled(m: Modem, n: Modem) {
    n == m.(state := CheckConnection,
            log := m.log + [Command(Fixed(CancelSend))] + [Command(Fixed(CheckConnection))])
  }

  /** A transmission that times out and is then cancelled loses nothing: all its bytes are waiting as before. */
  lemma TimeoutKeepsBytes(m: Modem, timeout: Env, ok: Env)
    requires !m.halted && m.state.NetworkSend?
    requires SendTimeout in timeout.holds && Closed !in timeout.holds && SendOk !in timeout.holds
    requires SendOk in ok.holds
    ensures Step(m, Tick(timeout)).state.CancelSend?
    ensures OnlyCancelled(m, Step(Step(m, Tick(timeout)), Tick(ok)))
  {
    hide Step, Fire, Enter, DataFlags;
    CancelEdges(DataFlags(m, timeout.event), timeout.holds);
    TickTakes(m, timeout, CancelSend, NoAction);
    CancelEntries(m, timeout.event);
    var c := Step(m, Tick(timeout));
    CancelEdges(DataFlags(c, ok.event), ok.holds);
    TickTakes(c, ok, CheckConnection, NoAction);
    CancelEntries(c, ok.event);
  }

  /** So does one whose ninth repeated poll was in vain. */
  lemma ExhaustedPollsKeepBytes(m: Modem, last: Env, ok: Env)
    requires !m.halted && m.state.NetworkAckCheckParse? && m.ackRetry == 9
    requires Closed !in last.holds && SendOk in ok.holds
    ensures Step(m, Tick(last)).state.CancelSend?
    ensures OnlyCancelled(m.(ackRetry := 0), Step(Step(m, Tick(last)), Tick(ok)))
  {
    hide Step, Fire, Enter;
    CancelEdges(DataFlags(m, last.event), last.holds);
    TickTakes(m, last, CancelSend, ResetAckRetry);
    CancelEntries(m.(ackRetry := 0), last.event);
    var c := Step(m, Tick(last));
    CancelEdges(DataFlags(c, ok.event), ok.holds);
    TickTakes(c, ok, CheckConnection, NoAction);
    CancelEntries(c, ok.event);
  }

  /** Nothing was removed from the stream, so that the next payload starts where the cancelled one did. */
  lemma CancelledAtSamePosition(m: Modem, n: Modem)
    requires OnlyCancelled(m, n)
    ensures Digested(n.log).removed == Digested(m.log).removed
    ensures Digested(n.log).flight == Digested(m.log).flight
    ensures Booked(n.log) == Booked(m.log)
  {
    hide Digested, Next, Booked;
    var e1, e2 := Command(Fixed(CancelSend)), Command(Fixed(CheckConnection));
    Extend(m.log, e1);
    NextFrame(Digested(m.log), e1);
    Extend(m.log + [e1], e2);
    NextFrame(Digested(m.log + [e1]), e2);
    BookNext(m.log, e1);
    BookNext(m.log + [e1], e2);
  }

  lemma BackToSending(c: Core)
    requires !c.halted && !c.newData && c.state.CheckConnection? && c.buffer != []
    ensures var n, a := Window(|c.buffer|), c.account;
      Steps(c, 6) == Some(c.(state := NetworkSend, bytesToSend := n,
                             account := a.(payloads := a.payloads + [c.buffer[..n]])))
  {
    var c1 := c.(state := NetworkGpsUsartEchoOff);
    var c2 := c.(state := NetworkCheckReceive);
    var c3 := c.(state := NetworkBeginSend);
    var n, a := Window(|c.buffer|), c.account;
    hide Steps, CoreNext, Window;
    MessageSteps(c);
    MessageSteps(c1);
    MessageSteps(c2);
    NoSteps(c);
    OneMore(c, 0, c, c1);
    OneMore(c, 1, c1, c2);
    OneMore(c, 2, c2, c3);
    Transmission(c3);
    Chain(c, 3, c3, 3, c3.(state := NetworkSend, bytesToSend := n,
                           account := a.(payloads := a.payloads + [c.buffer[..n]])));
  }

  /** With a modem that answers again, the front of the same buffer goes out once more, and nothing was declared. */
  lemma CancelledIsSentAgain(m: Modem, envs: seq<Env>)
    requires !m.halted && !m.newData && m.state.CheckConnection? && m.buffer != []
    requires CooperatesThroughout(m, envs) && Moves(m, envs) == 6
    ensures
      var n, a, b := Ticks(m, envs), Booked(m.log), Booked(Ticks(m, envs).log);
      && n.state.NetworkSend? && n.buffer == m.buffer
      && b.payloads == a.payloads + [m.buffer[..if |m.buffer| < 1460 then |m.buffer| else 1460]]
      && b.declares == a.declares
  {
    assert Window(|m.buffer|) == if |m.buffer| < 1460 then |m.buffer| else 1460;
    BackToSending(CoreOf(m));
    hide Steps, Ticks, CooperatesThroughout, Moves, Booked, Window;
    ProgramRun(m, envs);
  }

  // -------------------------------------------------------------------- the way up

  function Answer(holds: set<Cond>): Input {
    Tick(Env(holds, []))
  }

  /** A modem that reports ready, finds its network and accepts every command. */
  const READY: set<Cond> := {Rdy, ShutOk, CpinReady, Ok, CsqKnown, CregRegistered, CgattAttached, CommandOk}

  /** Ticks left to CHECK_CONNECTION on the straight way up; more than 21 off that way. */
  function StepsUp(s: State): nat {
    if s.CheckConnection? then 0
    else if s.ControlWaitForConnect? then 1
    else if s.SetReceiveMode? then 2
    else if s.UseDns? then 3
    else if s.SetModemMode? then 4
    else if s.MultipleConnectionsOff? then 5
    else if s.ApnUserPasswdInput? then 6
    else if s.SetContext? then 7
    else if s.SmsCharacterSet? then 8
    else if s.SmsTextMode? then 9
    else if s.GprsAttachCheck? then 10
    else if s.RegistrationCheck? then 11
    else if s.SignalQualityCheck? then 12
    else if s.GetSimImsi? then 13
    else if s.PinStatusCheck? then 14
    else if s.ResetStageDecide? || s.AtQbtgatsl? then 15
    else if s.AtQbtgatsreg? then 16
    else if s.AtQbtvisb? then 17
    else if s.AtQbtpwr? then 18
    else if s.Init? then 19
    else if s.GpsUsartEchoOn? then 20
    else if s.GprsReset? then 21
    else 22
  }

  predicate GoesUp(s: State, f: Flags) {
    var move := Fire(s, f, READY);
    && move.Go? && (move.action == NoAction || move.action == ResetAtRetry)
    && !move.target.ResetStageDecide? && StepsUp(move.target) == StepsUp(s) - 1
  }

  lemma UpFromReset(s: State, f: Flags)
    requires 17 < StepsUp(s) <= 21
    ensures GoesUp(s, f)
  {
    hide FireInSession;
  }

  lemma UpFromBluetooth(s: State, f: Flags)
    requires 13 < StepsUp(s) <= 17
    ensures GoesUp(s, f)
  {
    hide FireInSession;
  }

  lemma UpToNetwork(s: State, f: Flags)
    requires 9 < StepsUp(s) <= 13
    ensures GoesUp(s, f)
  {
    hide FireInSession;
  }

  lemma UpToContext(s: State, f: Flags)
    requires 5 < StepsUp(s) <= 9
    ensures GoesUp(s, f)
  {
    hide FireInSession;
  }

  lemma UpToAddress(s: State, f: Flags)
    requires 0 < StepsUp(s) <= 5 && f.addressKnown
    ensures GoesUp(s, f)
  {
    hide FireInSession;
  }

  lemma UpEdge(s: State, f: Flags)
    requires 0 < StepsUp(s) <= 21 && f.addressKnown
    ensures GoesUp(s, f)
  {
    hide GoesUp, StepsUp;
    if StepsUp(s) > 17 {
      UpFromReset(s, f);
    } else if StepsUp(s) > 13 {
      UpFromBluetooth(s, f);
    } else if StepsUp(s) > 9 {
      UpToNetwork(s, f);
    } else if StepsUp(s) > 5 {
      UpToContext(s, f);
    } else {
      UpToAddress(s, f);
    }
  }

  /** What bring-up has to leave alone. */
  predicate SameSession(m: Modem, n: Modem) {
    && n.buffer == m.buffer && n.connected == m.connected && n.newData == m.newData
    && n.address == m.address && n.port == m.port && n.sms == m.sms
    && n.callback == m.callback && n.sleepWhenIdle == m.sleepWhenIdle && n.halted == m.halted
  }

  /** A driver on its way up, with an address to connect to. */
  predicate OnTheWay(m: Modem) {
    !m.halted && m.address != [] && m.port > 0 && StepsUp(m.state) <= 21
  }

  lemma UpTick(m: Modem)
    requires OnTheWay(m) && StepsUp(m.state) > 0
    ensures var n := Step(m, Answer(READY));
      OnTheWay(n) && SameSession(m, n) && StepsUp(n.state) == StepsUp(m.state) - 1
  {
    hide Step, Fire, Perform, Enter, READY;
    UpEdge(m.state, DataFlags(m, []));
    var move := Fire(m.state, DataFlags(m, []), READY);
    TickTakes(m, Env(READY, []), move.target, move.action);
    PerformKeeps(m, move.action, []);
    PerformFrame(m, move.action, []);
    EnterFrame(Perform(m, move.action, []), move.target, []);
  }

  /** So many ticks lead to CHECK_CONNECTION, with everything that belongs to the session as it was. */
  lemma {:induction false} WayUp(m: Modem) returns (inputs: seq<Input>)
    requires OnTheWay(m)
    ensures |inputs| == StepsUp(m.state) && forall i :: 0 <= i < |inputs| ==> inputs[i] == Answer(READY)
    ensures var n := Run(m, inputs); SameSession(m, n) && n.state.CheckConnection?
    decreases StepsUp(m.state)
  {
    hide Step, OnTheWay, READY;
    inputs := [];
    if StepsUp(m.state) > 0 {
      UpTick(m);
      var rest := WayUp(Step(m, Answer(READY)));
      inputs := [Answer(READY)] + rest;
      RunCons(m, Answer(READY), rest);
    }
  }

  lemma SoftResetTaken(m: Modem)
    requires !m.halted && !SuppressesGlobalTransitions(m.state)
    ensures var n := Step(m, SoftReset);
      n.state.GprsReset? && SameSession(m, n) && n.log == m.log + [Command(Fixed(GprsReset))]
  {
  }

  lemma ReadyIsNoCause(inputs: seq<Input>)
    requires forall i :: 0 <= i < |inputs| ==> inputs[i] == Answer(READY)
    ensures WithoutCause(inputs)
  {
  }

  /**
   A soft reset that the modem goes along with: 21 good answers later, starting with "SHUT OK",
   the driver asks for the connection again, with all its bytes, and nothing was dropped.
   */
  lemma SoftResetComesBack(m: Modem) returns (inputs: seq<Input>)
    requires !m.halted && !SuppressesGlobalTransitions(m.state) && m.address != [] && m.port > 0
    ensures |inputs| == 22 && inputs[0] == SoftReset && forall i :: 0 < i < 22 ==> inputs[i] == Answer(READY)
    ensures var n := Run(m, inputs);
      n.state.CheckConnection? && SameSession(m, n) && NothingDropped(m.log, n.log)
  {
    hide Step, Run, READY, NothingDropped, SuppressesGlobalTransitions, IsCause;
    SoftResetTaken(m);
    var r := Step(m, SoftReset);
    var rest := WayUp(r);
    ReadyIsNoCause(rest);
    DropsNeedCauses(r, rest);
    NothingDroppedYet(m.log, Command(Fixed(GprsReset)));
    inputs := [SoftReset] + rest;
    RunCons(m, SoftReset, rest);
    NothingDroppedStill(m.log, r.log, Run(m, inputs).log);
  }

  // --------------------------------------------------------------- INIT, in silence

  lemma InitEdges(f: Flags, holds: set<Cond>)
    ensures Fire(Init, f, holds) ==
      if f.atRetryLimitReached || CommandOk in holds then Go(AtQbtpwr, ResetAtRetry)
      else if SecondPassed in holds then Go(Init, IncAtRetry)
      else Stay
  {
  }

  lemma InitTick(m: Modem, env: Env)
    requires !m.halted && m.state.Init? && SecondPassed in env.holds
    ensures var n := TickMachine(m, env);
      && !n.halted
      && (if m.atRetry > 5 || CommandOk in env.holds
          then n.state.AtQbtpwr? && n.atRetry == 0
          else n.state.Init? && n.atRetry == m.atRetry + 1)
  {
    hide Fire, TickMachine, Observe, RecvLength, Enter;
    InitEdges(DataFlags(m, env.event), env.holds);
    var o, move := TickShape(m, env);
    ObserveElsewhere(m, env.event);
    InitEntries(m.(atRetry := 0), env.event);
    InitEntries(m.(atRetry := m.atRetry + 1), env.event);
  }

  lemma InitEntries(m: Modem, event: seq<Byte>)
    ensures Enter(m, Init, event) == Transmit(m.(state := Init), Fixed(Init))
    ensures Enter(m, AtQbtpwr, event) == Transmit(m.(state := AtQbtpwr), Fixed(AtQbtpwr))
  {
  }

  /**
   A modem that does not echo its first command keeps the driver in INIT for as many silent
   seconds as are missing to six, and not for one more; then the count starts anew.
   */
  lemma {:induction false} InitIsLeft(m: Modem, envs: seq<Env>)
    requires !m.halted && m.state.Init? && m.atRetry <= 6
    requires |envs| == 7 - m.atRetry
    requires forall i :: 0 <= i < |envs| ==> SecondPassed in envs[i].holds && CommandOk !in envs[i].holds
    ensures var n := Ticks(m, envs); n.state.AtQbtpwr? && n.atRetry == 0
    ensures forall k :: 0 <= k < |envs| ==> Ticks(m, envs[..k]).state.Init?
    decreases |envs|
  {
    hide TickMachine;
    var n := TickMachine(m, envs[0]);
    InitTick(m, envs[0]);
    if m.atRetry <= 5 {
      InitIsLeft(n, envs[1..]);
      forall k | 0 <= k < |envs|
        ensures Ticks(m, envs[..k]).state.Init?
      {
        if k > 0 {
          assert envs[..k][1..] == envs[1..][..k - 1];
        }
      }
    } else {
      assert envs[1..] == [];
      assert envs[..0] == [];
    }
  }
}
