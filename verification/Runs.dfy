/** Properties of whole runs of the driver, from power-up, under every interleaving of calls, replies and timeouts. */
module Runs {
  import opened Bytes
  import opened States
  import opened Commands
  import opened SendBuffer
  import opened AckReply
  import opened LengthReply
  import opened Trace
  import opened TraceTheorems
  import opened Machine
  import opened Safety
  import opened Accounts

  // --------------------------------------------------------------- every run at once

  /**
   In every run: all events obey the law, the accepted bytes are the removed ones followed
   by the buffer, the buffer is bounded, `connected` is the last connection note, the queued
   messages are the removed ones followed by the waiting ones, and no drop waits for its note.
   */
  lemma {:induction false} EveryRun(callback: bool, inputs: seq<Input>)
    ensures
      var m := Run(Initial(callback), inputs);
      var d := Digested(m.log);
      && Lawful(m.log)
      && d.accepted == d.removed + m.buffer && |m.buffer| <= 6144
      && m.connected == d.up
      && d.smsIn == d.smsOut + m.sms
      && !d.dropping
  {
    hide Lawful, Digested, Run, Local;
    Reachable(callback, inputs);
  }

  /** In every run each drop is followed by its onDisconnected at once. */
  lemma {:induction false} EveryDropIsNoted(callback: bool, inputs: seq<Input>, i: nat)
    ensures var log := Run(Initial(callback), inputs).log;
      i < |log| && log[i].Dropped? ==> i + 1 < |log| && log[i + 1].DisconnectedNote?
  {
    hide Run, Lawful, Digested, Next, Law;
    var log := Run(Initial(callback), inputs).log;
    EveryRun(callback, inputs);
    if i < |log| && log[i].Dropped? {
      DropsPairWithNotes(log, i);
    }
  }

  // ------------------------------------------------------------- bookkeeping per step

  lemma ObserveFrame(m: Modem, event: seq<Byte>)
    ensures var o := Observe(m, event);
            o == m.(bytesReceived := o.bytesReceived, halted := o.halted)
  {
    hide RecvLength;
  }

  lemma OnDisconnectedFrame(m: Modem)
    ensures var n := OnDisconnected(m);
      n == m.(connected := false, buffer := n.buffer, log := n.log)
  {
  }

  lemma PerformFrame(m: Modem, action: Action, event: seq<Byte>)
    ensures var p := Perform(m, action, event);
      && p.state == m.state && p.bytesToSend == m.bytesToSend
      && (action != NotifyDisconnected ==> p.buffer == m.buffer)
  {
    hide OnDisconnected;
    OnDisconnectedFrame(m);
  }

  lemma PerformKeeps(m: Modem, action: Action, event: seq<Byte>)
    ensures var p := Perform(m, action, event);
      && p.newData == (m.newData && action != ClearNewData)
      && p.connected == ((m.connected || action == NotifyConnected) && action != NotifyDisconnected)
      && p.address == m.address && p.port == m.port && p.halted == m.halted && p.sms == m.sms
      && p.callback == m.callback && p.sleepWhenIdle == m.sleepWhenIdle
  {
    hide OnDisconnected;
    OnDisconnectedFrame(m);
  }

  lemma PrepareFrame(m: Modem)
    ensures var n := Prepare(m); n == m.(bytesToSend := n.bytesToSend, log := n.log)
  {
    hide Window;
  }

  lemma SendFrame(m: Modem)
    ensures var n := SendStage(m); n == m.(log := n.log)
  {
    hide Prefix;
  }

  lemma AckFrame(m: Modem, event: seq<Byte>)
    ensures var n := QueryAck(m, event); n == m.(ack := n.ack, log := n.log)
  {
    hide AckOf;
  }

  lemma DeclareFrame(m: Modem)
    ensures var n := DeclareStage(m); n == m.(buffer := n.buffer, log := n.log)
  {
    hide Prefix, DropFirst;
  }

  lemma SmsEntryFrame(m: Modem)
    ensures var n := SmsNumber(m); n == m.(log := n.log)
    ensures var n := SmsBody(m); n == m.(log := n.log)
    ensures var n := SmsRemove(m); n == m.(sms := if m.sms == [] then [] else m.sms[1..], log := n.log)
  {
  }

  /** Entering a state changes the state and what that state's own action is for, nothing else. */
  ghost predicate Entered(m: Modem, n: Modem, s: State) {
    && n.state == s
    && (!s.NetworkPrepareSend? ==> n.bytesToSend == m.bytesToSend)
    && n.newData == m.newData && n.address == m.address && n.port == m.port && n.halted == m.halted
    && n.callback == m.callback && n.sleepWhenIdle == m.sleepWhenIdle
    && n.sms == (if s.SmsSendSingleRemove? && m.sms != [] then m.sms[1..] else m.sms)
    && (!s.ResetStageDecide? ==> n.connected == m.connected)
    && (!s.ResetStageDecide? && !s.NetworkDeclareRead? ==> n.buffer == m.buffer)
  }

  lemma EnteredAfter(m: Modem, event: seq<Byte>)
    ensures m.state.ResetStageDecide? ==> Entered(m, OnDisconnected(m), m.state)
    ensures m.state.NetworkPrepareSend? ==> Entered(m, Prepare(m), m.state)
    ensures m.state.NetworkSend? ==> Entered(m, SendStage(m), m.state)
    ensures m.state.NetworkAckCheckParse? ==> Entered(m, QueryAck(m, event), m.state)
    ensures m.state.NetworkDeclareRead? ==> Entered(m, DeclareStage(m), m.state)
  {
    hide OnDisconnected, Prepare, SendStage, QueryAck, DeclareStage;
    OnDisconnectedFrame(m);
    PrepareFrame(m);
    SendFrame(m);
    AckFrame(m, event);
    DeclareFrame(m);
  }

  lemma EnteredAfterSms(m: Modem)
    ensures m.state.SmsSendSingleNumber? ==> Entered(m, SmsNumber(m), m.state)
    ensures m.state.SmsSendSingleBody? ==> Entered(m, SmsBody(m), m.state)
    ensures m.state.SmsSendSingleRemove? ==> Entered(m, SmsRemove(m), m.state)
    ensures !m.state.SmsSendSingleRemove? ==>
              Entered(m, m, m.state) && forall command :: Entered(m, Transmit(m, command), m.state)
  {
    hide SmsNumber, SmsBody, SmsRemove;
    SmsEntryFrame(m);
  }

  lemma EnteredFrom(m: Modem, n: Modem, s: State)
    requires Entered(m.(state := s), n, s)
    ensures Entered(m, n, s)
  {
  }

  lemma EnterFrame(m: Modem, s: State, event: seq<Byte>)
    ensures Entered(m, Enter(m, s, event), s)
  {
    hide Entered, OnDisconnected, Prepare, SendStage, QueryAck, DeclareStage, SmsNumber, SmsBody, SmsRemove, Transmit;
    var at := m.(state := s);
    EnteredAfter(at, event);
    EnteredAfterSms(at);
    EnteredFrom(m, Enter(m, s, event), s);
  }

  /** A tick either stays, halts, or performs one action and enters one state. */
  lemma TickShape(m: Modem, env: Env) returns (o: Modem, move: Move)
    ensures o == Observe(m, env.event)
    ensures move == if o.halted then Stay else Fire(m.state, DataFlags(o, env.event), env.holds)
    ensures TickMachine(m, env)
         == (if move.Stay? then o else Enter(Perform(o, move.action, env.event), move.target, env.event))
  {
    hide Observe, Fire, DataFlags, Perform, Enter;
    o := Observe(m, env.event);
    ObserveFrame(m, env.event);
    move := if o.halted then Stay else Fire(m.state, DataFlags(o, env.event), env.holds);
  }

  /** What one step does to the accounts, by the states it leads from and to. */
  ghost predicate Books(m: Modem, n: Modem, a: Account, b: Account) {
    && (if n.state.NetworkDeclareRead? && !m.state.NetworkDeclareRead?
        then b.declares == a.declares + [m.buffer[..Min(m.bytesToSend, |m.buffer|)]] && 0 < m.bytesToSend <= |m.buffer|
        else b.declares == a.declares)
    && (if m.state.NetworkDeclareRead? && n.state.SmsBeginSend?
        then var r := Report(a, [m.bytesToSend], m.callback); b.reports == r.reports && b.unheard == r.unheard
        else b.reports == a.reports && b.unheard == a.unheard)
    && (n.state.NetworkDeclareRead? ==> n.bytesToSend == m.bytesToSend)
  }

  /** What a step takes in from the application. */
  ghost predicate TakesIn(a: Account, b: Account, bytes: seq<Byte>, messages: seq<Sms>) {
    b.accepted == a.accepted + bytes && b.queued == a.queued + messages
  }

  function Min(a: nat, b: nat): nat {
    if a <= b then a else b
  }

  /** The only way into DECLARE, and the only edges out of it. */
  lemma DeclareEdges(s: State, f: Flags, holds: set<Cond>)
    requires Fire(s, f, holds).Go?
    ensures var Go(target, action) := Fire(s, f, holds);
      && (target.NetworkDeclareRead? ==> s.NetworkAckCheckParse? && action == ResetAckRetry)
      && (s.NetworkDeclareRead? ==> (target.SmsBeginSend? <==> action == ReportSent))
      && (action == ReportSent ==> s.NetworkDeclareRead?)
  {
    hide Fire;
    WaysToAck(s, f, holds);
    WaysToAct(s, f, holds);
    OutOfDeclare(f, holds);
  }

  lemma OutOfDeclare(f: Flags, holds: set<Cond>)
    ensures Fire(NetworkDeclareRead, f, holds)
         == (if Closed in holds then Go(CloseAndReconnect, NoAction) else Go(SmsBeginSend, ReportSent))
  {
  }

  lemma PrefixWithin(m: Modem)
    ensures Prefix(m.buffer, m.bytesToSend) == m.buffer[..Min(m.bytesToSend, |m.buffer|)]
  {
  }

  lemma GoBooks(m: Modem, target: State, action: Action, event: seq<Byte>)
    requires target.NetworkDeclareRead? ==> m.state.NetworkAckCheckParse? && action == ResetAckRetry && Windowed(m)
    requires m.state.NetworkDeclareRead? ==> (target.SmsBeginSend? <==> action == ReportSent)
    requires action == ReportSent ==> m.state.NetworkDeclareRead?
    ensures
      var n := Enter(Perform(m, action, event), target, event);
      Books(m, n, Booked(m.log), Booked(n.log)) && TakesIn(Booked(m.log), Booked(n.log), [], [])
  {
    hide Perform, Enter, Booked, Prefix;
    PerformFrame(m, action, event);
    PerformBooks(m, action, event);
    PrefixWithin(m);
    var p := Perform(m, action, event);
    EnterFrame(p, target, event);
    EnterBooks(p, target, event);
  }

  lemma TickBooks(m: Modem, env: Env)
    requires Inv(m)
    ensures Books(m, TickMachine(m, env), Booked(m.log), Booked(TickMachine(m, env).log))
    ensures TakesIn(Booked(m.log), Booked(TickMachine(m, env).log), [], [])
  {
    assert m.state.NetworkAckCheckParse? ==> Windowed(m);
    hide TickMachine, Observe, Fire, DataFlags, Perform, Enter, Booked, Inv;
    var o, move := TickShape(m, env);
    ObserveFrame(m, env.event);
    if move.Go? {
      DeclareEdges(m.state, DataFlags(o, env.event), env.holds);
      GoBooks(o, move.target, move.action, env.event);
    }
  }

  lemma JumpBooks(m: Modem, s: State)
    requires s.GprsReset? || s.ShutDownStageStart? || s.ResetStageDecide?
    ensures Books(m, Enter(m, s, []), Booked(m.log), Booked(Enter(m, s, []).log))
    ensures TakesIn(Booked(m.log), Booked(Enter(m, s, []).log), [], [])
  {
    hide Enter, Booked;
    EnterFrame(m, s, []);
    EnterBooks(m, s, []);
  }

  /** The bytes a call to `send` takes; nothing for any other input. */
  function TakenBy(m: Modem, input: Input): seq<Byte> {
    if !m.halted && input.Send? && |m.buffer| + |input.bytes| <= 6144 then input.bytes else []
  }

  /** The message a push takes: all of them but the fifth. */
  function PushedBy(m: Modem, input: Input): seq<Sms> {
    if !m.halted && input.PushSms? && |m.sms| < 4 then [input.sms] else []
  }

  lemma CallBooks(m: Modem, input: Input)
    requires !m.halted && (input.Send? || input.PushSms?)
    ensures
      var n := Step(m, input);
      && Books(m, n, Booked(m.log), Booked(n.log))
      && TakesIn(Booked(m.log), Booked(n.log), TakenBy(m, input), PushedBy(m, input))
  {
    hide Booked;
    match input {
      case Send(bytes) => BookNext(m.log, Accepted(bytes));
      case PushSms(sms) => BookNext(m.log, SmsQueued(sms));
    }
  }

  lemma StepBooks(m: Modem, input: Input)
    requires Inv(m)
    ensures
      var n := Step(m, input);
      && Books(m, n, Booked(m.log), Booked(n.log))
      && TakesIn(Booked(m.log), Booked(n.log), TakenBy(m, input), PushedBy(m, input))
  {
    hide TickMachine, Enter, Booked, AppSend, AppPushSms, Inv, CString;
    if !m.halted {
      match input {
        case Tick(env) => TickBooks(m, env);
        case SoftReset => JumpBooks(m, GprsReset);
        case PowerOffEvent => JumpBooks(m, ShutDownStageStart);
        case Restart => JumpBooks(m, ResetStageDecide);
        case Send(bytes) => CallBooks(m, input);
        case PushSms(sms) => CallBooks(m, input);
        case _ =>
      }
    }
  }

  // ------------------------------------------------------------- bookkeeping per run

  function Sum(xs: seq<nat>): nat {
    if xs == [] then 0 else Sum(xs[..|xs| - 1]) + xs[|xs| - 1]
  }

  function TotalLength(xs: seq<seq<Byte>>): nat {
    if xs == [] then 0 else TotalLength(xs[..|xs| - 1]) + |xs[|xs| - 1]|
  }

  lemma SumsNext(xs: seq<nat>, x: nat, ys: seq<seq<Byte>>, y: seq<Byte>)
    ensures Sum(xs + [x]) == Sum(xs) + x
    ensures TotalLength(ys + [y]) == TotalLength(ys) + |y|
  {
    assert (xs + [x])[..|xs|] == xs && (ys + [y])[..|ys|] == ys;
  }

  /** Everything `send` took during a run, in the order of the calls. */
  function Taken(m: Modem, inputs: seq<Input>): seq<Byte>
    decreases |inputs|
  {
    if inputs == [] then []
    else
      var before := inputs[..|inputs| - 1];
      Taken(m, before) + TakenBy(Run(m, before), inputs[|inputs| - 1])
  }

  /** Every message a push took during a run, in the order of the calls. */
  function Pushed(m: Modem, inputs: seq<Input>): seq<Sms>
    decreases |inputs|
  {
    if inputs == [] then []
    else
      var before := inputs[..|inputs| - 1];
      Pushed(m, before) + PushedBy(Run(m, before), inputs[|inputs| - 1])
  }

  /** Bytes of the chunks whose DECLARE state was left by anything but the edge that reports them. */
  function Abandoned(m: Modem, inputs: seq<Input>): nat
    decreases |inputs|
  {
    if inputs == [] then 0
    else
      var before := inputs[..|inputs| - 1];
      var p, q := Run(m, before), Run(m, inputs);
      Abandoned(m, before)
        + (if p.state.NetworkDeclareRead? && !q.state.NetworkDeclareRead? && !q.state.SmsBeginSend?
           then p.bytesToSend else 0)
  }

  function NotYetReported(m: Modem): nat {
    if m.state.NetworkDeclareRead? then m.bytesToSend else 0
  }

  /** Chunks that are declared in a step are reported in a later one, or abandoned. */
  lemma BalanceNext(p: Modem, q: Modem, a: Account, b: Account)
    requires Books(p, q, a, b)
    ensures
      var lost := if p.state.NetworkDeclareRead? && !q.state.NetworkDeclareRead? && !q.state.SmsBeginSend?
                  then p.bytesToSend else 0;
      Sum(b.reports) + Sum(b.unheard) + lost + NotYetReported(q) - TotalLength(b.declares)
        == Sum(a.reports) + Sum(a.unheard) + NotYetReported(p) - TotalLength(a.declares)
  {
    hide Sum, TotalLength;
    SumsNext(a.reports, p.bytesToSend, a.declares, p.buffer[..Min(p.bytesToSend, |p.buffer|)]);
    SumsNext(a.unheard, p.bytesToSend, [], []);
  }

  /** Both accounts balance over every run: what `send` took, and what onSent reported or would have. */
  lemma {:induction false} RunAccounts(m: Modem, inputs: seq<Input>)
    requires Inv(m) && m.log == [] && !m.state.NetworkDeclareRead?
    ensures var b := Booked(Run(m, inputs).log);
      && b.accepted == Taken(m, inputs) && b.queued == Pushed(m, inputs)
      && Sum(b.reports) + Sum(b.unheard) + Abandoned(m, inputs) + NotYetReported(Run(m, inputs))
           == TotalLength(b.declares)
    decreases |inputs|
  {
    hide Inv, Step, Booked, Books;
    if inputs == [] {
      assert Booked([]) == OPENING by {
        BookedEmpty();
      }
    } else {
      var before := inputs[..|inputs| - 1];
      var p, q := Run(m, before), Run(m, inputs);
      RunAccounts(m, before);
      RunKeepsInv(m, before);
      StepBooks(p, inputs[|inputs| - 1]);
      BalanceNext(p, q, Booked(p.log), Booked(q.log));
    }
  }

  lemma BookedEmpty()
    ensures Booked([]) == OPENING
  {
  }

  /** From power-up. */
  lemma {:induction false} EveryRunBalances(callback: bool, inputs: seq<Input>)
    ensures
      var m0, m := Initial(callback), Run(Initial(callback), inputs);
      && Digested(m.log).accepted == Taken(m0, inputs)
      && Digested(m.log).removed + m.buffer == Taken(m0, inputs)
      && Digested(m.log).smsIn == Pushed(m0, inputs)
      && Digested(m.log).smsOut + m.sms == Pushed(m0, inputs)
      && (var b := Booked(m.log);
          Sum(b.reports) + Sum(b.unheard) + Abandoned(m0, inputs) + NotYetReported(m) == TotalLength(b.declares))
  {
    RunAccounts(Initial(callback), inputs);
    hide Run, Booked, Digested, Lawful;
    AcceptedAgrees(Run(Initial(callback), inputs).log);
    EveryRun(callback, inputs);
  }

  // -------------------------------------------------------------------- the send round

  /** PREPARE always announces something: its way out on zero bytes is dead. */
  lemma {:induction false} PrepareNeverZero(callback: bool, inputs: seq<Input>, env: Env)
    ensures var m := Run(Initial(callback), inputs);
      m.state.NetworkPrepareSend? ==>
        && 0 < m.bytesToSend <= 1460
        && !TickMachine(m, env).state.CheckConnection?
  {
    var m := Run(Initial(callback), inputs);
    hide Run, Lawful, Digested, Linked;
    Reachable(callback, inputs);
    if m.state.NetworkPrepareSend? {
      assert Windowed(m);
      hide Inv, Local, Perform, Enter, TickMachine, Observe;
      var o, move := TickShape(m, env);
      ObserveFrame(m, env.event);
      if move.Go? {
        EnterFrame(Perform(o, move.action, env.event), move.target, env.event);
      } else {
        assert o.state == m.state;
      }
    }
  }

  /** From WAKE on there is always something to send. */
  lemma {:induction false} NonEmptyFromWakeToPrepare(callback: bool, inputs: seq<Input>)
    ensures var m := Run(Initial(callback), inputs);
      m.state.Wake? || m.state.CheckConnectionPreSend? || m.state.NetworkPrepareSend? ==> m.buffer != []
  {
    hide Run, Lawful, Digested, Linked;
    Reachable(callback, inputs);
  }

  /** The states between the announcement and the removal of a window. */
  predicate InWindow(s: State) {
    s.NetworkPrepareSend? || s.NetworkSend? || s.NetworkAckCheck? || s.NetworkAckCheckParse?
  }

  /** The window itself: its length and its bytes. */
  ghost predicate SameWindow(m: Modem, n: Modem) {
    && n.bytesToSend == m.bytesToSend
    && m.bytesToSend <= |m.buffer| && m.bytesToSend <= |n.buffer|
    && n.buffer[..n.bytesToSend] == m.buffer[..m.bytesToSend]
  }

  lemma WindowEdges(s: State, f: Flags, holds: set<Cond>)
    requires Fire(s, f, holds).Go? && InWindow(s) && InWindow(Fire(s, f, holds).target)
    ensures var Go(target, action) := Fire(s, f, holds);
      !target.NetworkPrepareSend? && action != NotifyDisconnected
  {
    hide FireOutside;
  }

  lemma TickKeepsWindow(m: Modem, env: Env)
    requires !m.halted && InWindow(m.state) && m.bytesToSend <= |m.buffer|
    requires InWindow(TickMachine(m, env).state)
    ensures SameWindow(m, TickMachine(m, env))
  {
    hide TickMachine, Observe, Fire, Perform, Enter, DataFlags;
    var o, move := TickShape(m, env);
    ObserveFrame(m, env.event);
    if move.Go? {
      EnterFrame(Perform(o, move.action, env.event), move.target, env.event);
      WindowEdges(m.state, DataFlags(o, env.event), env.holds);
      PerformFrame(o, move.action, env.event);
    }
  }

  lemma SendKeepsWindow(m: Modem, bytes: seq<Byte>)
    requires m.bytesToSend <= |m.buffer|
    ensures SameWindow(m, AppSend(m, bytes))
  {
    assert (m.buffer + bytes)[..m.bytesToSend] == m.buffer[..m.bytesToSend];
  }

  lemma StepKeepsWindow(m: Modem, input: Input)
    requires InWindow(m.state) && m.bytesToSend <= |m.buffer|
    requires InWindow(Step(m, input).state)
    ensures SameWindow(m, Step(m, input))
  {
    hide TickMachine, Enter, AppSend, AppPushSms, CString;
    if !m.halted {
      match input {
        case Tick(env) => TickKeepsWindow(m, env);
        case SoftReset => EnterFrame(m, GprsReset, []);
        case PowerOffEvent => EnterFrame(m, ShutDownStageStart, []);
        case Restart => EnterFrame(m, ResetStageDecide, []);
        case Send(bytes) => SendKeepsWindow(m, bytes);
        case PushSms(sms) => PushFrame(m, sms);
        case _ =>
      }
    }
  }

  /**
   Whatever happens between the announcement of a window and its removal, as long as the
   machine stays on that way: the window keeps its length and its bytes.
   */
  lemma {:induction false} WindowIsFrozen(m: Modem, inputs: seq<Input>)
    requires InWindow(m.state) && m.bytesToSend <= |m.buffer|
    requires forall k :: 0 <= k <= |inputs| ==> InWindow(Run(m, inputs[..k]).state)
    ensures SameWindow(m, Run(m, inputs))
    decreases |inputs|
  {
    hide Step;
    if inputs != [] {
      var before := inputs[..|inputs| - 1];
      assert forall k :: 0 <= k <= |before| ==> before[..k] == inputs[..k];
      assert inputs[..|inputs|] == inputs;
      WindowIsFrozen(m, before);
      StepKeepsWindow(Run(m, before), inputs[|inputs| - 1]);
    }
  }

  /** While polling, the retry counter is the number of replies read since the payload, and never above nine. */
  lemma {:induction false} PollCounter(callback: bool, inputs: seq<Input>) returns (j: nat)
    requires var s := Run(Initial(callback), inputs).state; s.NetworkAckCheck? || s.NetworkAckCheckParse?
    ensures
      var m := Run(Initial(callback), inputs);
      && j < |m.log| && m.log[j] == Payload(m.buffer[..Min(m.bytesToSend, |m.buffer|)])
      && (forall k :: j < k < |m.log| ==> !m.log[k].Payload?)
      && 0 <= m.ackRetry <= 9
      && AcksFrom(m.log, j) == (if m.state.NetworkAckCheck? then m.ackRetry else m.ackRetry + 1)
  {
    var m := Run(Initial(callback), inputs);
    hide Run, Lawful, Digested, AcksFrom;
    Reachable(callback, inputs);
    j := FlightWasSent(m.log);
    PollsCounted(m.log, j);
  }

  lemma ParseTick(m: Modem, env: Env)
    requires !m.halted && m.state.NetworkAckCheckParse?
    ensures TickMachine(m, env).state.NetworkDeclareRead?
       <==> Closed !in env.holds && m.ackRetry <= 8 && m.ack.sent == m.ack.acked
  {
    hide Perform, Enter, TickMachine, Observe;
    var o, move := TickShape(m, env);
    assert Observe(m, env.event) == m by {
      ObserveElsewhere(m, env.event);
    }
    EnterFrame(Perform(o, move.action, env.event), move.target, env.event);
  }

  lemma ObserveElsewhere(m: Modem, event: seq<Byte>)
    requires !m.state.NetworkBeginReceive?
    ensures Observe(m, event) == m
  {
  }

  function TakeEdge(m: Modem, target: State, action: Action, event: seq<Byte>): Modem {
    Enter(Perform(m, action, event), target, event)
  }

  /** A tick whose edge is known takes it. */
  lemma TickTakes(m: Modem, env: Env, target: State, action: Action)
    requires !m.halted && !m.state.NetworkBeginReceive?
    requires Fire(m.state, DataFlags(m, env.event), env.holds) == Go(target, action)
    ensures Step(m, Tick(env)) == TakeEdge(m, target, action, env.event)
  {
    hide TickMachine, Observe, Fire, Perform, Enter, DataFlags;
    var o, move := TickShape(m, env);
    ObserveElsewhere(m, env.event);
  }

  lemma TickIsStep(m: Modem, env: Env)
    requires !m.halted
    ensures Step(m, Tick(env)) == TickMachine(m, env)
  {
  }

  lemma AckCheckTick(m: Modem, env: Env)
    requires !m.halted && m.state.NetworkAckCheck? && AckReply in env.holds
    ensures var n := TickMachine(m, env);
      n == QueryAck(m.(state := NetworkAckCheckParse), env.event)
  {
    hide AckOf, RecvLength;
  }

  /**
   A round's bytes are declared sent exactly when the connection is not reported closed, at
   most eight polls were repeated, and the reply just read, if it is a complete one, has
   equal counts. In particular any unreadable reply declares them.
   */
  lemma DeclareExactly(m: Modem, reply: Env, next: Env)
    requires !m.halted && m.state.NetworkAckCheck? && AckReply in reply.holds
    ensures TickMachine(TickMachine(m, reply), next).state.NetworkDeclareRead?
       <==> && Closed !in next.holds && m.ackRetry <= 8
            && (forall noise, f1, f2, f3 :: IsReply(reply.event, noise, f1, f2, f3) ==> Strtoul(f1) == Strtoul(f2))
  {
    hide TickMachine, AckOf, IsReply, Strtoul;
    AckCheckTick(m, reply);
    ParseTick(TickMachine(m, reply), next);
    AllAckedExactly(reply.event);
  }

  /**
   On every run, by the number of the reply: the bytes of a round are declared by the first nine
   replies to its polls, if anything, and never by the tenth.
   */
  lemma {:induction false} DeclaredByReply(callback: bool, inputs: seq<Input>, reply: Env, next: Env) returns (j: nat)
    requires var m := Run(Initial(callback), inputs); !m.halted && m.state.NetworkAckCheck?
    requires AckReply in reply.holds && Closed !in next.holds
    ensures var m := Run(Initial(callback), inputs);
      j < |m.log| && m.log[j].Payload? && forall k :: j < k < |m.log| ==> !m.log[k].Payload?
    ensures var m := Run(Initial(callback), inputs);
      TickMachine(TickMachine(m, reply), next).state.NetworkDeclareRead?
      <==> (AcksFrom(m.log, j) + 1 <= 9
            && forall noise, f1, f2, f3 ::
                 IsReply(reply.event, noise, f1, f2, f3) ==> Strtoul(f1) == Strtoul(f2))
  {
    hide Run, TickMachine, IsReply, Strtoul, AcksFrom;
    j := PollCounter(callback, inputs);
    DeclareExactly(Run(Initial(callback), inputs), reply, next);
  }

  // ----------------------------------------------------------------------- sleeping

  lemma SleepEdges(s: State, f: Flags, holds: set<Cond>)
    ensures var move := Fire(s, f, holds);
      && (move.Go? && move.target.Sleep? ==> s.NetworkBeginSend? && !f.dataToSend && move.action == NoAction)
      && (s.Sleep? ==> move == if f.dataToSend then Go(Wake, NoAction) else Stay)
  {
    hide Fire;
    OutOfSleep(f, holds);
    IntoSleep(s, f, holds);
  }

  lemma IntoSleep(s: State, f: Flags, holds: set<Cond>)
    ensures var move := Fire(s, f, holds);
      move.Go? && move.target.Sleep? ==> s.NetworkBeginSend? && !f.dataToSend && move.action == NoAction
  {
    hide FireOutside;
    if !InSession(s) && Fire(s, f, holds).Go? {
      OutsideEdges(s, f, holds);
    }
  }

  lemma OutOfSleep(f: Flags, holds: set<Cond>)
    ensures Fire(Sleep, f, holds) == if f.dataToSend then Go(Wake, NoAction) else Stay
  {
  }

  lemma TickSleep(m: Modem, env: Env)
    requires !m.halted
    ensures var n := TickMachine(m, env);
      && (n.state.Sleep? && !m.state.Sleep? ==> m.buffer == [] && n.buffer == [])
      && (m.state.Sleep? && !n.state.Sleep? ==> n.state.Wake? && n.buffer != [] && n.buffer == m.buffer)
  {
    hide TickMachine, Observe, Fire, Perform, Enter, RecvLength;
    var o, move := TickShape(m, env);
    ObserveFrame(m, env.event);
    SleepEdges(m.state, DataFlags(o, env.event), env.holds);
    if move.Go? {
      PerformFrame(o, move.action, env.event);
      EnterFrame(Perform(o, move.action, env.event), move.target, env.event);
    }
  }

  /** SLEEP is entered with nothing to send, and left only towards WAKE with something to send, or by a restart. */
  lemma SleepIsSafe(m: Modem, input: Input)
    ensures var n := Step(m, input);
      && (n.state.Sleep? && !m.state.Sleep? ==> m.buffer == [] && n.buffer == [])
      && (m.state.Sleep? && !n.state.Sleep? ==> input.Restart? || (n.state.Wake? && n.buffer != []))
  {
    hide TickMachine, Enter, AppSend, AppPushSms, CString;
    if !m.halted {
      match input {
        case Tick(env) => TickSleep(m, env);
        case SoftReset => EnterFrame(m, GprsReset, []);
        case PowerOffEvent => EnterFrame(m, ShutDownStageStart, []);
        case Restart => EnterFrame(m, ResetStageDecide, []);
        case Send(bytes) => assert AppSend(m, bytes).state == m.state by { CallFrame(m, bytes); }
        case PushSms(sms) => assert AppPushSms(m, sms).state == m.state by { PushFrame(m, sms); }
        case _ =>
      }
    }
  }

  lemma SleepEdge(f: Flags, holds: set<Cond>)
    ensures Fire(NetworkBeginSend, f, holds) == Go(Sleep, NoAction)
       <==> Closed !in holds && !f.dataToSend && f.sleepConfigured
  {
  }

  lemma SleepEntry(m: Modem, event: seq<Byte>)
    ensures Enter(m, Sleep, event) == Transmit(m.(state := Sleep), Fixed(Sleep))
    ensures Text(Fixed(Sleep)) == "AT+QSCLK=2\r\n"
  {
  }

  lemma TickToSleep(m: Modem, env: Env)
    requires !m.halted
    ensures var n := TickMachine(m, env);
      (n.state.Sleep? && !m.state.Sleep?)
      <==> (m.state.NetworkBeginSend? && m.buffer == [] && m.sleepWhenIdle && Closed !in env.holds)
    ensures var n := TickMachine(m, env);
      n.state.Sleep? && !m.state.Sleep? ==> n == m.(state := Sleep, log := m.log + [Command(Fixed(Sleep))])
  {
    hide TickMachine, Observe, Fire, Perform, Enter, RecvLength;
    var o, move := TickShape(m, env);
    TickSleep(m, env);
    if m.state.NetworkBeginSend? {
      ObserveElsewhere(m, env.event);
      SleepEdge(DataFlags(m, env.event), env.holds);
      SleepEdges(m.state, DataFlags(m, env.event), env.holds);
      SleepEntry(m, env.event);
      NothingPerformed(m, env.event);
      if move.Go? {
        EnterFrame(Perform(m, move.action, env.event), move.target, env.event);
      }
    } else {
      ObserveFrame(m, env.event);
      SleepEdges(m.state, DataFlags(o, env.event), env.holds);
      if move.Go? {
        EnterFrame(Perform(o, move.action, env.event), move.target, env.event);
      }
    }
  }

  lemma NothingPerformed(m: Modem, event: seq<Byte>)
    ensures Perform(m, NoAction, event) == m
  {
  }

  /**
   SLEEP is entered exactly when a tick finds an idle session with nothing to send, sleeping
   allowed and no report of a lost connection; and then the modem is told to sleep.
   */
  lemma SleepsExactly(m: Modem, input: Input)
    requires !m.halted
    ensures var n := Step(m, input);
      (n.state.Sleep? && !m.state.Sleep?)
      <==> (input.Tick? && m.state.NetworkBeginSend? && m.buffer == [] && m.sleepWhenIdle
            && Closed !in input.env.holds)
    ensures var n := Step(m, input);
      n.state.Sleep? && !m.state.Sleep? ==> n == m.(state := Sleep, log := m.log + [Command(Fixed(Sleep))])
    ensures Text(Fixed(Sleep)) == "AT+QSCLK=2\r\n"
  {
    hide TickMachine, Enter, AppSend, AppPushSms, CString;
    SleepEntry(m, []);
    match input {
      case Tick(env) => TickToSleep(m, env);
      case SoftReset => EnterFrame(m, GprsReset, []);
      case PowerOffEvent => EnterFrame(m, ShutDownStageStart, []);
      case Restart => EnterFrame(m, ResetStageDecide, []);
      case Send(bytes) => CallFrame(m, bytes);
      case PushSms(sms) => PushFrame(m, sms);
      case _ =>
    }
  }

  /** A sleeping driver wakes at the next tick exactly when there are bytes to send. */
  lemma WakesExactly(m: Modem, env: Env)
    requires !m.halted && m.state.Sleep?
    ensures TickMachine(m, env).state == if m.buffer != [] then Wake else Sleep
  {
    hide TickMachine, Observe, Fire, Perform, Enter, RecvLength;
    var o, move := TickShape(m, env);
    ObserveElsewhere(m, env.event);
    OutOfSleep(DataFlags(m, env.event), env.holds);
    if move.Go? {
      EnterFrame(Perform(m, move.action, env.event), move.target, env.event);
    }
  }

  lemma CallFrame(m: Modem, bytes: seq<Byte>)
    ensures var n := AppSend(m, bytes); n == m.(buffer := n.buffer, log := n.log)
  {
  }

  lemma PushFrame(m: Modem, sms: Sms)
    ensures var n := AppPushSms(m, sms); n == m.(sms := n.sms, log := n.log)
  {
  }

  // --------------------------------------------------------------------- receiving

  /** Raw bytes are taken exactly when as many came as were announced, and the OK after them. */
  lemma TakenExactly(m: Modem, env: Env)
    requires !m.halted && m.state.NetworkReceive?
    ensures TickMachine(m, env).state.NetworkCheckReceive? <==> |env.event| == m.bytesReceived && Ok in env.holds
    ensures !TickMachine(m, env).state.NetworkCheckReceive? ==> TickMachine(m, env) == m
  {
    hide TickMachine, Observe, Perform, Enter, RecvLength;
    var o, move := TickShape(m, env);
    ObserveElsewhere(m, env.event);
    if move.Go? {
      EnterFrame(Perform(m, move.action, env.event), move.target, env.event);
    }
  }

  /** The driver stops for good exactly when a header comes in whose tail does not fit the local buffer. */
  lemma HaltsExactly(m: Modem, input: Input)
    ensures Step(m, input).halted
       <==> (m.halted
             || (input.Tick? && m.state.NetworkBeginReceive?
                 && exists host, proto, tail :: IsRecvHeader(input.env.event, host, proto, tail) && |tail| >= 10))
  {
    hide TickMachine, Enter, AppSend, AppPushSms, CString, IsRecvHeader;
    if !m.halted {
      match input {
        case Tick(env) => TickHalts(m, env);
        case SoftReset => EnterFrame(m, GprsReset, []);
        case PowerOffEvent => EnterFrame(m, ShutDownStageStart, []);
        case Restart => EnterFrame(m, ResetStageDecide, []);
        case Send(bytes) => CallFrame(m, bytes);
        case PushSms(sms) => PushFrame(m, sms);
        case _ =>
      }
    }
  }

  lemma FaultExactly(event: seq<Byte>)
    ensures RecvLength(event) == Fault
       <==> exists host, proto, tail :: IsRecvHeader(event, host, proto, tail) && |tail| >= 10
  {
    hide RecvLength, IsRecvHeader, Strtoul;
    if RecvLength(event) == Fault {
      var host, proto, tail := RecvHeaderOf(event);
      RecvLengthOfHeader(event, host, proto, tail);
    }
    forall host, proto, tail | IsRecvHeader(event, host, proto, tail)
      ensures RecvLength(event) == TailLength(tail)
    {
      RecvLengthOfHeader(event, host, proto, tail);
    }
  }

  lemma ObserveHalts(m: Modem, event: seq<Byte>)
    requires !m.halted
    ensures Observe(m, event).halted <==> m.state.NetworkBeginReceive? && RecvLength(event) == Fault
  {
    hide RecvLength;
  }

  lemma TickHalts(m: Modem, env: Env)
    requires !m.halted
    ensures TickMachine(m, env).halted
       <==> (m.state.NetworkBeginReceive?
             && exists host, proto, tail :: IsRecvHeader(env.event, host, proto, tail) && |tail| >= 10)
  {
    hide TickMachine, Observe, Fire, Perform, Enter, DataFlags, RecvLength, IsRecvHeader;
    var o, move := TickShape(m, env);
    ObserveHalts(m, env.event);
    FaultExactly(env.event);
    if move.Go? {
      PerformKeeps(o, move.action, env.event);
      EnterFrame(Perform(o, move.action, env.event), move.target, env.event);
    }
  }

  lemma ClearEdge(s: State, f: Flags, holds: set<Cond>)
    ensures var move := Fire(s, f, holds);
      move.Go? && move.action == ClearNewData ==>
        s.NetworkBeginReceive? && !f.lengthAccepted && CommandOk in holds && move.target.NetworkBeginSend?
  {
    hide FireOutside;
    if !InSession(s) && Fire(s, f, holds).Go? {
      OutsideEdges(s, f, holds);
    }
  }

  lemma TickNewData(m: Modem, env: Env)
    requires m.newData && !m.halted
    ensures var n := TickMachine(m, env);
      !n.newData ==>
        && m.state.NetworkBeginReceive? && n.state.NetworkBeginSend?
        && CommandOk in env.holds && !RecvLength(env.event).Accepts()
  {
    hide TickMachine, Observe, Fire, Perform, Enter, RecvLength;
    var o, move := TickShape(m, env);
    ObserveFrame(m, env.event);
    ClearEdge(m.state, DataFlags(o, env.event), env.holds);
    if move.Go? {
      PerformKeeps(o, move.action, env.event);
      EnterFrame(Perform(o, move.action, env.event), move.target, env.event);
    }
  }

  /** The new-data flag is cleared only when a read was answered by a bare OK. */
  lemma NewDataClearedOnlyByEmptyRead(m: Modem, input: Input)
    requires m.newData
    ensures var n := Step(m, input);
      !n.newData ==>
        && m.state.NetworkBeginReceive? && n.state.NetworkBeginSend?
        && input.Tick? && CommandOk in input.env.holds && !RecvLength(input.env.event).Accepts()
  {
    hide TickMachine, Enter, AppSend, AppPushSms, CString, RecvLength;
    if !m.halted {
      match input {
        case Tick(env) => TickNewData(m, env);
        case SoftReset => EnterFrame(m, GprsReset, []);
        case PowerOffEvent => EnterFrame(m, ShutDownStageStart, []);
        case Restart => EnterFrame(m, ResetStageDecide, []);
        case Send(bytes) => CallFrame(m, bytes);
        case PushSms(sms) => PushFrame(m, sms);
        case _ =>
      }
    }
  }
}
