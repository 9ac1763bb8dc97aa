/**
 An undisturbed driver: when the modem answers as it should, the machine is a simple
 program that empties the buffer window by window and the message queue one by one.
 */
module Drain {
  import opened Bytes
  import opened States
  import opened Commands
  import opened SendBuffer
  import opened AckReply
  import opened LengthReply
  import opened Trace
  import opened Machine
  import opened Accounts
  import opened Runs

  // --------------------------------------------------------- the simple program

  /** What the program works on. */
  datatype Core = Core(
    state: State, buffer: seq<Byte>, bytesToSend: nat, ackRetry: int, acked: bool,
    sms: seq<Sms>, newData: bool, halted: bool, heard: bool, account: Account)

  function CoreOf(m: Modem): Core {
    Core(m.state, m.buffer, m.bytesToSend, m.ackRetry, m.ack.sent == m.ack.acked,
         m.sms, m.newData, m.halted, m.callback, Booked(m.log))
  }

  /** One step of the program goes through without waiting or failing. */
  predicate Proceeds(c: Core) {
    && !c.halted && !c.newData
    && (c.state.NetworkBeginSend? ==> c.buffer != [])
    && (c.state.NetworkPrepareSend? || c.state.NetworkSend? ==> c.bytesToSend != 0)
    && (c.state.NetworkAckCheckParse? ==> c.ackRetry <= 8 && c.acked)
    && InRound(c.state)
  }

  predicate InRound(s: State) {
    || s.NetworkBeginSend? || s.CheckConnectionPreSend? || s.NetworkPrepareSend? || s.NetworkSend?
    || s.NetworkAckCheck? || s.NetworkAckCheckParse? || s.NetworkDeclareRead?
    || s.SmsBeginSend? || s.SmsSendSingleNumber? || s.SmsSendSingleBody? || s.SmsSendSingleRemove?
    || s.CheckConnection? || s.NetworkGpsUsartEchoOff? || s.NetworkCheckReceive?
  }

  /** The one way through the round. */
  function NextState(s: State, smsLeft: bool): State
    requires InRound(s)
  {
    match s
    case NetworkBeginSend => CheckConnectionPreSend
    case CheckConnectionPreSend => NetworkPrepareSend
    case NetworkPrepareSend => NetworkSend
    case NetworkSend => NetworkAckCheck
    case NetworkAckCheck => NetworkAckCheckParse
    case NetworkAckCheckParse => NetworkDeclareRead
    case NetworkDeclareRead => SmsBeginSend
    case SmsBeginSend => if smsLeft then SmsSendSingleNumber else CheckConnection
    case SmsSendSingleNumber => SmsSendSingleBody
    case SmsSendSingleBody => SmsSendSingleRemove
    case SmsSendSingleRemove => SmsBeginSend
    case CheckConnection => NetworkGpsUsartEchoOff
    case NetworkGpsUsartEchoOff => NetworkCheckReceive
    case NetworkCheckReceive => NetworkBeginSend
  }

  /** On leaving a state. */
  function Leave(c: Core): Core {
    if c.state.NetworkSend? || c.state.NetworkAckCheckParse? then c.(ackRetry := 0)
    else if c.state.NetworkDeclareRead? then c.(account := Report(c.account, [c.bytesToSend], c.heard))
    else c
  }

  /** On arriving in a state. */
  function Arrive(before: Core, s: State): Core {
    var c, a, front := before.(state := s), before.account, Prefix(before.buffer, before.bytesToSend);
    if s.NetworkPrepareSend? then c.(bytesToSend := Window(|c.buffer|))
    else if s.NetworkSend? then c.(account := a.(payloads := a.payloads + [front]))
    else if s.NetworkAckCheckParse? then c.(acked := true)
    else if s.NetworkDeclareRead? then
      c.(buffer := DropFirst(c.buffer, c.bytesToSend), account := a.(declares := a.declares + [front]))
    else if s.SmsSendSingleRemove? && c.sms != [] then c.(sms := c.sms[1..])
    else c
  }

  function CoreNext(c: Core): Core
    requires InRound(c.state)
  {
    Arrive(Leave(c), NextState(c.state, c.sms != []))
  }

  /** `k` steps, if each of them proceeds. */
  function Steps(c: Core, k: nat): Option<Core>
    decreases k
  {
    if k == 0 then Some(c)
    else if Proceeds(c) then Steps(CoreNext(c), k - 1)
    else None
  }

  lemma {:induction false} StepsAdd(c: Core, k: nat, l: nat)
    requires Steps(c, k).Some?
    ensures Steps(c, k + l) == Steps(Steps(c, k).value, l)
    decreases k
  {
    hide Arrive, Leave, NextState;
    if k > 0 {
      StepsAdd(CoreNext(c), k - 1, l);
    }
  }

  // ----------------------------------------------------- the machine runs the program

  predicate MayReportClosed(s: State) {
    s.NetworkBeginSend? || s.NetworkPrepareSend? || s.NetworkSend? || s.NetworkAckCheckParse? || s.NetworkDeclareRead?
  }

  /** What the modem has to answer in each state for the program to go on. */
  predicate Cooperates(s: State, env: Env) {
    && (MayReportClosed(s) ==> Closed !in env.holds)
    && (s.CheckConnectionPreSend? || s.CheckConnection? ==> StateConnectOk in env.holds)
    && (s.NetworkPrepareSend? ==> Error !in env.holds && QisendEcho in env.holds)
    && (s.NetworkSend? ==> SendOk in env.holds)
    && (s.NetworkAckCheck? ==> AckReply in env.holds && AckOf(env.event).sent == AckOf(env.event).acked)
    && (s.SmsSendSingleBody? ==> CmgsOk in env.holds || CmsError in env.holds)
    && (s.NetworkGpsUsartEchoOff? ==> CommandOk in env.holds)
  }

  function RoundAction(s: State): Action {
    if s.NetworkSend? || s.NetworkAckCheckParse? then ResetAckRetry
    else if s.NetworkDeclareRead? then ReportSent
    else NoAction
  }

  lemma CooperativeEdge(s: State, f: Flags, env: Env)
    requires InRound(s) && Cooperates(s, env)
    requires !f.newData
    requires s.NetworkBeginSend? ==> f.dataToSend
    requires s.NetworkPrepareSend? ==> !f.bytesToSendZero
    requires s.NetworkAckCheckParse? ==> !f.retryLimitReached && f.allAcked
    ensures Fire(s, f, env.holds) == Go(NextState(s, f.smsToSend), RoundAction(s))
  {
    hide FireOutside, AckOf;
  }

  lemma LeaveIsPerform(m: Modem, event: seq<Byte>)
    ensures CoreOf(Perform(m, RoundAction(m.state), event)) == Leave(CoreOf(m))
  {
    hide Booked, OnConnected, OnDisconnected;
    BookNext(m.log, SentNote(m.bytesToSend, m.callback));
  }

  lemma ArriveInPrepare(m: Modem)
    ensures m.state.NetworkPrepareSend? ==> CoreOf(Prepare(m)) == Arrive(CoreOf(m), m.state)
  {
    hide Booked, Prefix, DropFirst;
    PrepareBooks(m);
  }

  lemma ArriveInSend(m: Modem)
    requires m.bytesToSend != 0
    ensures m.state.NetworkSend? ==> CoreOf(SendStage(m)) == Arrive(CoreOf(m), m.state)
  {
    hide Booked, Prefix, DropFirst, Window;
    SendBooks(m);
  }

  lemma ArriveInParse(m: Modem, event: seq<Byte>)
    requires AckOf(event).sent == AckOf(event).acked
    ensures m.state.NetworkAckCheckParse? ==> CoreOf(QueryAck(m, event)) == Arrive(CoreOf(m), m.state)
  {
    hide Booked, AckOf, Prefix, DropFirst, Window;
    QueryAckBooks(m, event);
  }

  lemma ArriveInDeclare(m: Modem)
    ensures m.state.NetworkDeclareRead? ==> CoreOf(DeclareStage(m)) == Arrive(CoreOf(m), m.state)
  {
    hide Booked, Prefix, DropFirst;
    DeclareBooks(m);
  }

  lemma ArriveInSms(m: Modem)
    ensures m.state.SmsSendSingleNumber? ==> CoreOf(SmsNumber(m)) == Arrive(CoreOf(m), m.state)
    ensures m.state.SmsSendSingleBody? ==> CoreOf(SmsBody(m)) == Arrive(CoreOf(m), m.state)
  {
    hide Booked, Window, Prefix, DropFirst, SmsNumber, SmsBody, SmsRemove;
    SmsEntryFrame(m);
    SmsBooks(m);
  }

  lemma ArriveInRemove(m: Modem)
    ensures m.state.SmsSendSingleRemove? ==> CoreOf(SmsRemove(m)) == Arrive(CoreOf(m), m.state)
  {
    hide Booked, Window, Prefix, DropFirst, SmsNumber, SmsBody, SmsRemove;
    SmsEntryFrame(m);
    SmsBooks(m);
  }

  lemma ArriveElsewhere(m: Modem, command: AtCommand)
    requires !m.state.NetworkPrepareSend? && !m.state.NetworkSend? && !m.state.NetworkAckCheckParse?
    requires !m.state.NetworkDeclareRead? && !m.state.SmsSendSingleRemove?
    ensures CoreOf(Transmit(m, command)) == CoreOf(m) == Arrive(CoreOf(m), m.state)
  {
    hide Booked;
    TransmitBooks(m, command);
  }

  lemma ArriveFrom(m: Modem, s: State)
    ensures Arrive(CoreOf(m.(state := s)), s) == Arrive(CoreOf(m), s)
  {
    hide Booked, Window, Prefix, DropFirst;
  }

  lemma ArriveIsEnter(m: Modem, s: State, event: seq<Byte>)
    requires InRound(s)
    requires s.NetworkSend? ==> m.bytesToSend != 0
    requires s.NetworkAckCheckParse? ==> AckOf(event).sent == AckOf(event).acked
    ensures CoreOf(Enter(m, s, event)) == Arrive(CoreOf(m), s)
  {
    hide CoreOf, Arrive, AckOf;
    hide OnDisconnected, Prepare, SendStage, QueryAck, DeclareStage, SmsNumber, SmsBody, SmsRemove, Transmit;
    var at := m.(state := s);
    ArriveFrom(m, s);
    if s.NetworkPrepareSend? {
      ArriveInPrepare(at);
    } else if s.NetworkSend? {
      ArriveInSend(at);
    } else if s.NetworkAckCheckParse? {
      ArriveInParse(at, event);
    } else if s.NetworkDeclareRead? {
      ArriveInDeclare(at);
    } else if s.SmsSendSingleRemove? {
      ArriveInRemove(at);
    } else if s.SmsSendSingleNumber? || s.SmsSendSingleBody? {
      ArriveInSms(at);
    } else {
      ArriveElsewhere(at, Fixed(s));
    }
  }

  /** One tick with a cooperating modem is one step of the program. */
  lemma ProgramStep(m: Modem, env: Env)
    requires Proceeds(CoreOf(m)) && Cooperates(m.state, env)
    ensures CoreOf(TickMachine(m, env)) == CoreNext(CoreOf(m))
  {
    hide TickMachine, Observe, Fire, Perform, Enter, Leave, Arrive, Booked, AckOf, RecvLength;
    var o, move := TickShape(m, env);
    ObserveElsewhere(m, env.event);
    CooperativeEdge(m.state, DataFlags(m, env.event), env);
    LeaveIsPerform(m, env.event);
    var p := Perform(m, move.action, env.event);
    PerformFrame(m, move.action, env.event);
    ArriveIsEnter(p, move.target, env.event);
  }

  function Ticks(m: Modem, envs: seq<Env>): Modem
    decreases |envs|
  {
    if envs == [] then m else Ticks(TickMachine(m, envs[0]), envs[1..])
  }

  /** Nothing the state waits for has arrived. */
  predicate Waits(m: Modem, env: Env) {
    TickMachine(m, env) == m
  }

  /** At every tick the modem cooperates or lets the driver wait. */
  predicate CooperatesThroughout(m: Modem, envs: seq<Env>)
    decreases |envs|
  {
    || envs == []
    || ((Waits(m, envs[0]) || Cooperates(m.state, envs[0])) && CooperatesThroughout(TickMachine(m, envs[0]), envs[1..]))
  }

  /** The ticks at which the driver did not wait. */
  function Moves(m: Modem, envs: seq<Env>): nat
    decreases |envs|
  {
    if envs == [] then 0
    else (if Waits(m, envs[0]) then 0 else 1) + Moves(TickMachine(m, envs[0]), envs[1..])
  }

  /** A modem that answers well and acknowledges one byte of one. */
  function WillingAnswer(): Env {
    Env({StateConnectOk, QisendEcho, SendOk, AckReply, CmgsOk, CommandOk},
        MARKER + (Field(1) + [','] + (Field(1) + [','] + Field(0))))
  }

  lemma WillingCooperates(s: State)
    ensures Cooperates(s, WillingAnswer())
  {
    hide AckOf, Field;
    var noise: seq<Byte> := [];
    assert noise + MARKER == MARKER;
    AckRoundTrip(WillingAnswer().event, noise, 1, 1, 0);
  }

  lemma ProgramMoves(c: Core)
    requires InRound(c.state)
    ensures CoreNext(c).state != c.state
  {
    hide Window, Prefix, DropFirst;
  }

  /** Cooperation is possible for as long as the program can go on. */
  lemma {:induction false} CooperationExists(m: Modem, k: nat) returns (envs: seq<Env>)
    requires Steps(CoreOf(m), k).Some?
    ensures CooperatesThroughout(m, envs) && Moves(m, envs) == k
    decreases k
  {
    hide TickMachine, Cooperates, WillingAnswer, CoreNext;
    envs := [];
    if k > 0 {
      WillingCooperates(m.state);
      ProgramStep(m, WillingAnswer());
      ProgramMoves(CoreOf(m));
      var rest := CooperationExists(TickMachine(m, WillingAnswer()), k - 1);
      envs := [WillingAnswer()] + rest;
      assert envs[1..] == rest;
    }
  }

  /** Any cooperative run of the machine is the program's run, step for step, however long it waits in between. */
  lemma {:induction false} ProgramRun(m: Modem, envs: seq<Env>)
    requires CooperatesThroughout(m, envs) && Steps(CoreOf(m), Moves(m, envs)).Some?
    ensures CoreOf(Ticks(m, envs)) == Steps(CoreOf(m), Moves(m, envs)).value
    decreases |envs|
  {
    hide TickMachine, CoreOf, Cooperates, Proceeds, CoreNext;
    if envs != [] {
      if !Waits(m, envs[0]) {
        ProgramIsAt(m);
        ProgramStep(m, envs[0]);
      }
      ProgramRun(TickMachine(m, envs[0]), envs[1..]);
    }
  }

  lemma ProgramIsAt(m: Modem)
    ensures CoreOf(m).state == m.state
  {
  }

  // -------------------------------------------------------------- the program drains

  function Rounds(held: nat): nat {
    (held + 1459) / 1460
  }

  /** The windows a buffer is to be sent in: full ones of 1460 bytes, and what is left. */
  function Windows(s: seq<Byte>): (ws: seq<seq<Byte>>)
    decreases |s|
  {
    if s == [] then []
    else if |s| <= 1460 then [s]
    else [s[..1460]] + Windows(s[1460..])
  }

  function Flatten(ws: seq<seq<Byte>>): seq<Byte> {
    if ws == [] then [] else ws[0] + Flatten(ws[1..])
  }

  function Lengths(ws: seq<seq<Byte>>): seq<nat> {
    if ws == [] then [] else [|ws[0]|] + Lengths(ws[1..])
  }

  /** The windows put together are the buffer, and there are as few of them as the limit allows. */
  lemma {:induction false} WindowsAreTheBuffer(s: seq<Byte>)
    ensures Flatten(Windows(s)) == s
    ensures |Windows(s)| == Rounds(|s|)
    ensures forall i :: 0 <= i < |Windows(s)| ==> 0 < |Windows(s)[i]| <= 1460
    ensures |s| <= 6144 ==> |Windows(s)| <= 5
    decreases |s|
  {
    if |s| > 1460 {
      WindowsAreTheBuffer(s[1460..]);
      assert s[..1460] + s[1460..] == s;
    } else if s != [] {
      assert Windows(s)[1..] == [];
      assert s + [] == s;
    }
  }

  /** The driver's choice in each round is the next of these windows. */
  lemma NextWindow(s: seq<Byte>)
    requires s != []
    ensures var n := Window(|s|); n <= |s| && Windows(s) == [s[..n]] + Windows(s[n..])
  {
    if |s| <= 1460 {
      assert s[..|s|] == s && s[|s|..] == [];
      assert [s] + [] == [s];
    }
  }

  lemma Chain(c: Core, k: nat, d: Core, l: nat, e: Core)
    requires Steps(c, k) == Some(d) && Steps(d, l) == Some(e)
    ensures Steps(c, k + l) == Some(e)
  {
    hide Steps;
    StepsAdd(c, k, l);
  }

  lemma NoSteps(c: Core)
    ensures Steps(c, 0) == Some(c)
  {
  }

  /** One step after `k` others. */
  lemma OneMore(c: Core, k: nat, d: Core, e: Core)
    requires Steps(c, k) == Some(d) && Proceeds(d) && CoreNext(d) == e
    ensures Steps(c, k + 1) == Some(e)
  {
    hide Proceeds, CoreNext;
    assert Steps(d, 1) == Steps(e, 0);
    StepsAdd(c, k, 1);
  }

  function AfterPrepare(c: Core): Core {
    c.(state := NetworkPrepareSend, bytesToSend := Window(|c.buffer|))
  }

  function AfterSend(c: Core): Core {
    var a := c.account;
    c.(state := NetworkSend, account := a.(payloads := a.payloads + [Prefix(c.buffer, c.bytesToSend)]))
  }

  /** The program's steps around a transmission, one by one. */
  lemma SendSteps(c: Core)
    ensures c.state.NetworkBeginSend? ==> CoreNext(c) == c.(state := CheckConnectionPreSend)
    ensures c.state.CheckConnectionPreSend? ==> CoreNext(c) == AfterPrepare(c)
    ensures c.state.NetworkPrepareSend? ==> CoreNext(c) == AfterSend(c)
  {
    hide Window, Prefix, DropFirst;
  }

  /** From BEGIN_SEND to NETWORK_SEND: three steps put one window on the wire. */
  lemma Transmission(c: Core)
    requires Proceeds(c) && c.state.NetworkBeginSend?
    ensures var n, a := Window(|c.buffer|), c.account;
      Steps(c, 3) == Some(c.(state := NetworkSend, bytesToSend := n,
                             account := a.(payloads := a.payloads + [c.buffer[..n]])))
  {
    var c1 := c.(state := CheckConnectionPreSend);
    var c2 := AfterPrepare(c1);
    var c3 := AfterSend(c2);
    assert c2.bytesToSend != 0;
    assert Prefix(c.buffer, Window(|c.buffer|)) == c.buffer[..Window(|c.buffer|)];
    hide Steps, CoreNext, Prefix, Window;
    SendSteps(c);
    SendSteps(c1);
    SendSteps(c2);
    NoSteps(c);
    OneMore(c, 0, c, c1);
    OneMore(c, 1, c1, c2);
    OneMore(c, 2, c2, c3);
  }

  function AfterAck(c: Core): Core {
    c.(state := NetworkAckCheckParse, ackRetry := 0, acked := true)
  }

  function AfterDeclare(c: Core): Core {
    var a := c.account;
    c.(state := NetworkDeclareRead, ackRetry := 0, buffer := DropFirst(c.buffer, c.bytesToSend),
       account := a.(declares := a.declares + [Prefix(c.buffer, c.bytesToSend)]))
  }

  function AfterReport(c: Core): Core {
    c.(state := SmsBeginSend, account := Report(c.account, [c.bytesToSend], c.heard))
  }

  /** ... and around its acknowledgement. */
  lemma AckSteps(c: Core)
    ensures c.state.NetworkSend? ==> CoreNext(c) == c.(state := NetworkAckCheck, ackRetry := 0)
    ensures c.state.NetworkAckCheck? ==> CoreNext(c) == c.(state := NetworkAckCheckParse, acked := true)
    ensures c.state.NetworkAckCheckParse? ==> CoreNext(c) == AfterDeclare(c)
    ensures c.state.NetworkDeclareRead? ==> CoreNext(c) == AfterReport(c)
  {
    hide Window, Prefix, DropFirst;
  }

  /** Two steps to the answer that acknowledges it. */
  lemma Acknowledgement(c: Core)
    requires Proceeds(c) && c.state.NetworkSend?
    ensures Steps(c, 2) == Some(AfterAck(c))
  {
    var c1 := c.(state := NetworkAckCheck, ackRetry := 0);
    hide Steps, CoreNext;
    AckSteps(c);
    AckSteps(c1);
    NoSteps(c);
    OneMore(c, 0, c, c1);
    OneMore(c, 1, c1, AfterAck(c));
  }

  /** Two more take it out of the buffer and report it. */
  lemma Removal(c: Core)
    requires Proceeds(c) && c.state.NetworkAckCheckParse?
    ensures Steps(c, 2) == Some(AfterReport(AfterDeclare(c)))
  {
    hide Steps, CoreNext, Prefix, DropFirst;
    AckSteps(c);
    AckSteps(AfterDeclare(c));
    NoSteps(c);
    OneMore(c, 0, c, AfterDeclare(c));
    OneMore(c, 1, AfterDeclare(c), AfterReport(AfterDeclare(c)));
  }

  function Booking(a: Account, front: seq<Byte>, heard: bool): Account {
    Report(a.(payloads := a.payloads + [front], declares := a.declares + [front]), [|front|], heard)
  }

  function AfterWindow(c: Core): Core {
    var n := Window(|c.buffer|);
    c.(state := SmsBeginSend, buffer := c.buffer[n..], bytesToSend := n, ackRetry := 0, acked := true,
       account := Booking(c.account, c.buffer[..n], c.heard))
  }

  lemma WindowIsPrefix(s: seq<Byte>)
    ensures var n := Window(|s|); n <= |s| && Prefix(s, n) == s[..n] && DropFirst(s, n) == s[n..]
  {
  }

  /** Seven steps move one window out. */
  lemma OneWindow(c: Core)
    requires Proceeds(c) && c.state.NetworkBeginSend?
    ensures Steps(c, 7) == Some(AfterWindow(c))
  {
    var n, a := Window(|c.buffer|), c.account;
    var c3 := c.(state := NetworkSend, bytesToSend := n, account := a.(payloads := a.payloads + [c.buffer[..n]]));
    var c5 := AfterAck(c3);
    WindowIsPrefix(c.buffer);
    hide Steps, Prefix, DropFirst, CoreNext;
    Transmission(c);
    Acknowledgement(c3);
    Removal(c5);
    Chain(c, 3, c3, 2, c5);
    Chain(c, 5, c5, 2, AfterReport(AfterDeclare(c5)));
  }

  /** The steps of the message loop, and those from its end back to BEGIN_SEND. */
  lemma MessageSteps(c: Core)
    ensures c.state.SmsBeginSend? ==>
              CoreNext(c) == c.(state := if c.sms != [] then SmsSendSingleNumber else CheckConnection)
    ensures c.state.SmsSendSingleNumber? ==> CoreNext(c) == c.(state := SmsSendSingleBody)
    ensures c.state.SmsSendSingleBody? && c.sms != [] ==>
              CoreNext(c) == c.(state := SmsSendSingleRemove, sms := c.sms[1..])
    ensures c.state.SmsSendSingleRemove? ==> CoreNext(c) == c.(state := SmsBeginSend)
    ensures c.state.CheckConnection? ==> CoreNext(c) == c.(state := NetworkGpsUsartEchoOff)
    ensures c.state.NetworkGpsUsartEchoOff? ==> CoreNext(c) == c.(state := NetworkCheckReceive)
    ensures c.state.NetworkCheckReceive? ==> CoreNext(c) == c.(state := NetworkBeginSend)
  {
    hide Window, Prefix, DropFirst;
  }

  lemma OneMessage(c: Core)
    requires !c.halted && !c.newData && c.state.SmsBeginSend? && c.sms != []
    ensures Steps(c, 4) == Some(c.(sms := c.sms[1..]))
  {
    var c1 := c.(state := SmsSendSingleNumber);
    var c2 := c.(state := SmsSendSingleBody);
    var c3 := c.(state := SmsSendSingleRemove, sms := c.sms[1..]);
    hide Steps, CoreNext;
    MessageSteps(c);
    MessageSteps(c1);
    MessageSteps(c2);
    MessageSteps(c3);
    NoSteps(c);
    OneMore(c, 0, c, c1);
    OneMore(c, 1, c1, c2);
    OneMore(c, 2, c2, c3);
    OneMore(c, 3, c3, c.(sms := c.sms[1..]));
  }

  /** Four steps per message, and the queue is empty. */
  lemma {:induction false} AllMessages(c: Core)
    requires !c.halted && !c.newData && c.state.SmsBeginSend?
    ensures Steps(c, 4 * |c.sms|) == Some(c.(sms := []))
    decreases |c.sms|
  {
    hide Steps;
    if c.sms == [] {
      NoSteps(c);
    } else {
      var d := c.(sms := c.sms[1..]);
      OneMessage(c);
      AllMessages(d);
      Chain(c, 4, d, 4 * |d.sms|, c.(sms := []));
    }
  }

  /** With no message left, four more steps lead back to BEGIN_SEND. */
  lemma BackAgain(c: Core)
    requires !c.halted && !c.newData && c.state.SmsBeginSend? && c.sms == []
    ensures Steps(c, 4) == Some(c.(state := NetworkBeginSend))
  {
    var c1 := c.(state := CheckConnection);
    var c2 := c.(state := NetworkGpsUsartEchoOff);
    var c3 := c.(state := NetworkCheckReceive);
    hide Steps, CoreNext;
    MessageSteps(c);
    MessageSteps(c1);
    MessageSteps(c2);
    MessageSteps(c3);
    NoSteps(c);
    OneMore(c, 0, c, c1);
    OneMore(c, 1, c1, c2);
    OneMore(c, 2, c2, c3);
    OneMore(c, 3, c3, c.(state := NetworkBeginSend));
  }

  /** Steps in a round that finds so many messages waiting. */
  function RoundTime(messages: nat): nat {
    11 + 4 * messages
  }

  function AfterRound(c: Core): Core {
    AfterWindow(c).(state := NetworkBeginSend, sms := [])
  }

  /** All messages, and back. */
  lemma MessagesAndBack(c: Core)
    requires !c.halted && !c.newData && c.state.SmsBeginSend?
    ensures Steps(c, 4 + 4 * |c.sms|) == Some(c.(state := NetworkBeginSend, sms := []))
  {
    hide Steps;
    AllMessages(c);
    BackAgain(c.(sms := []));
    Chain(c, 4 * |c.sms|, c.(sms := []), 4, c.(state := NetworkBeginSend, sms := []));
  }

  /** One window, all messages, and back. */
  lemma OneRound(c: Core)
    requires Proceeds(c) && c.state.NetworkBeginSend?
    ensures Steps(c, RoundTime(|c.sms|)) == Some(AfterRound(c))
  {
    hide Steps;
    OneWindow(c);
    MessagesAndBack(AfterWindow(c));
    Chain(c, 7, AfterWindow(c), 4 + 4 * |c.sms|, AfterRound(c));
  }

  /** The accounts after a list of windows went out. */
  function BookAll(a: Account, ws: seq<seq<Byte>>, heard: bool): Account {
    Report(a.(payloads := a.payloads + ws, declares := a.declares + ws), Lengths(ws), heard)
  }

  /** A round books the first window. */
  lemma RoundBooks(c: Core)
    requires c.buffer != []
    ensures var d := AfterRound(c);
      BookAll(d.account, Windows(d.buffer), c.heard) == BookAll(c.account, Windows(c.buffer), c.heard)
    ensures BookAll(AfterRound(c).account, [], c.heard) == AfterRound(c).account
  {
    var a, ws, n := c.account, Windows(c.buffer), Window(|c.buffer|);
    NextWindow(c.buffer);
    hide Windows;
    assert a.payloads + [ws[0]] + ws[1..] == a.payloads + ws;
    assert a.declares + [ws[0]] + ws[1..] == a.declares + ws;
    assert a.reports + [|ws[0]|] + Lengths(ws[1..]) == a.reports + Lengths(ws);
    assert a.unheard + [|ws[0]|] + Lengths(ws[1..]) == a.unheard + Lengths(ws);
    assert ws[1..] == Windows(c.buffer[n..]);
  }

  ghost predicate DrainedTo(c: Core, e: Core) {
    && e.state.NetworkBeginSend? && e.buffer == [] && e.sms == []
    && e.heard == c.heard && e.account == BookAll(c.account, Windows(c.buffer), c.heard)
  }

  function DrainTime(held: nat, messages: nat): nat {
    11 * Rounds(held) + 4 * messages
  }

  lemma RoundsLeft(held: nat)
    requires held > 0
    ensures Rounds(held) == 1 + Rounds(held - Window(held))
  {
    var k := held + 1459;
    if held < 1460 {
      assert 1460 <= k < 2 * 1460;
    } else {
      assert k == (k - 1460) + 1 * 1460;
    }
  }

  lemma TimeLeft(held: nat, messages: nat)
    requires held > 0
    ensures var left := held - Window(held);
      DrainTime(held, messages) == RoundTime(messages) + DrainTime(left, 0)
    ensures DrainTime(0, 0) == 0
  {
    RoundsLeft(held);
    assert Rounds(0) == 0;
    hide Rounds, Window;
  }

  lemma RoundIsProgress(c: Core)
    requires Proceeds(c) && c.state.NetworkBeginSend?
    ensures var d := AfterRound(c);
      && d.state.NetworkBeginSend? && d.sms == [] && |d.buffer| == |c.buffer| - Window(|c.buffer|)
      && (d.buffer != [] ==> Proceeds(d))
      && (d.buffer == [] ==> DrainedTo(c, d))
      && (forall e :: DrainedTo(d, e) ==> DrainedTo(c, e))
  {
    RoundBooks(c);
    assert Windows([]) == [];
    hide Windows, Booking;
  }

  /** A round, then the drain of what is left. */
  lemma RoundThenDrain(c: Core, d: Core, e: Core)
    requires Proceeds(c) && c.state.NetworkBeginSend? && c.buffer != []
    requires d == AfterRound(c)
    requires if d.buffer == [] then e == d else Steps(d, DrainTime(|d.buffer|, 0)) == Some(e) && DrainedTo(d, e)
    ensures Steps(c, DrainTime(|c.buffer|, |c.sms|)) == Some(e) && DrainedTo(c, e)
  {
    hide Steps, AfterRound, Proceeds, DrainedTo, DrainTime, RoundTime, Window;
    OneRound(c);
    RoundIsProgress(c);
    TimeLeft(|c.buffer|, |c.sms|);
    if d.buffer != [] {
      Chain(c, RoundTime(|c.sms|), d, DrainTime(|d.buffer|, 0), e);
    }
  }

  lemma {:induction false} ProgramDrains(c: Core) returns (e: Core)
    requires Proceeds(c) && c.state.NetworkBeginSend?
    ensures Steps(c, DrainTime(|c.buffer|, |c.sms|)) == Some(e) && DrainedTo(c, e)
    decreases |c.buffer|
  {
    hide Steps, AfterRound, DrainedTo, DrainTime;
    e := AfterRound(c);
    RoundIsProgress(c);
    if e.buffer != [] {
      e := ProgramDrains(e);
    }
    RoundThenDrain(c, AfterRound(c), e);
  }

  // -------------------------------------------------------------- the machine drains

  /**
   With no new data, no new bytes or messages, and a modem that answers every command well and
   acknowledges every poll, after any time it likes, the buffer and the message queue are empty
   after exactly as many rounds as the buffer has windows; the payloads and the declared chunks
   are those windows, and the onSent reports, which go unheard without a callback, their lengths.
   */
  lemma MachineDrains(m: Modem, envs: seq<Env>)
    requires !m.halted && !m.newData && m.state.NetworkBeginSend? && m.buffer != []
    requires CooperatesThroughout(m, envs) && Moves(m, envs) == DrainTime(|m.buffer|, |m.sms|)
    ensures
      var n, a, b := Ticks(m, envs), Booked(m.log), Booked(Ticks(m, envs).log);
      && n.state.NetworkBeginSend? && n.buffer == [] && n.sms == []
      && b.payloads == a.payloads + Windows(m.buffer)
      && b.declares == a.declares + Windows(m.buffer)
      && (if m.callback then b.reports == a.reports + Lengths(Windows(m.buffer)) && b.unheard == a.unheard
          else b.reports == a.reports && b.unheard == a.unheard + Lengths(Windows(m.buffer)))
  {
    var e := ProgramDrains(CoreOf(m));
    hide Steps, Windows, Ticks, CooperatesThroughout, Moves, Booked, DrainTime;
    ProgramRun(m, envs);
  }

  /** The message loop on its own: four moves per waiting message, then on to the connection check. */
  lemma {:induction false} MessageLoopEnds(m: Modem, envs: seq<Env>)
    requires !m.halted && !m.newData && m.state.SmsBeginSend?
    requires CooperatesThroughout(m, envs) && Moves(m, envs) == 4 * |m.sms|
    ensures var n := Ticks(m, envs);
      n.state.SmsBeginSend? && n.sms == [] && n.buffer == m.buffer && Booked(n.log) == Booked(m.log)
  {
    AllMessages(CoreOf(m));
    hide Steps, Ticks, CooperatesThroughout, Moves, Booked;
    ProgramRun(m, envs);
  }
}
