/**
 What every step may add to the log: notes that are delivered exactly when a callback is
 installed, and open commands for the address the driver holds. From this follows what an
 application hears of a run.
 */
module Callbacks {
  import opened Bytes
  import opened States
  import opened Commands
  import opened SendBuffer
  import opened AckReply
  import opened Trace
  import opened TraceTheorems
  import opened Machine
  import opened Safety
  import opened Accounts
  import opened Runs

  // ------------------------------------------------------------------ every step

  /** A call of one of the application's callbacks, if one is installed. */
  predicate IsCall(e: Event) {
    e.ConnectedNote? || e.DisconnectedNote? || e.SentNote? || e.DataNote?
  }

  predicate IsOpen(e: Event) {
    e.Command? && e.command.Qiopen?
  }

  predicate Fits(e: Event, callback: bool, address: seq<Byte>, port: Port) {
    && (IsCall(e) ==> e.delivered == callback)
    && (IsOpen(e) ==> e.command == Qiopen(address, port))
  }

  /** `log` goes on where `m.log` ends, with events that fit the driver's settings. */
  ghost predicate Grows(m: Modem, log: Log) {
    m.log <= log && forall i :: |m.log| <= i < |log| ==> Fits(log[i], m.callback, m.address, m.port)
  }

  lemma EventGrows(m: Modem, e: Event)
    requires Fits(e, m.callback, m.address, m.port)
    ensures Grows(m, m.log + [e]) && Grows(m, m.log)
  {
  }

  lemma RoundGrows(m: Modem, event: seq<Byte>)
    ensures Grows(m, Prepare(m).log) && Grows(m, SendStage(m).log) && Grows(m, QueryAck(m, event).log)
  {
    hide Grows, AckOf, Prefix, Window;
    EventGrows(m, Command(Qisend(Window(|m.buffer|))));
    EventGrows(m, Payload(Prefix(m.buffer, m.bytesToSend)));
    EventGrows(m, AckRead(AckOf(event)));
  }

  lemma RemovalGrows(m: Modem)
    ensures Grows(m, OnDisconnected(m).log) && Grows(m, DeclareStage(m).log)
  {
    hide Prefix, DropFirst;
  }

  lemma SmsGrows(m: Modem)
    ensures Grows(m, SmsNumber(m).log) && Grows(m, SmsBody(m).log) && Grows(m, SmsRemove(m).log)
  {
    hide Grows;
    var first := if m.sms == [] then SmsText([], []) else m.sms[0];
    EventGrows(m, Command(SmsTo(first)));
    EventGrows(m, Command(SmsBodyOf(first)));
    EventGrows(m, SmsRemoved(first));
  }

  lemma CommandGrows(m: Modem, command: AtCommand)
    requires command.Qiopen? ==> command == Qiopen(m.address, m.port)
    ensures Grows(m, Transmit(m, command).log) && Grows(m, m.log)
  {
  }

  /** The state is not among the settings. */
  lemma StateGrows(m: Modem, s: State, log: Log)
    requires Grows(m.(state := s), log)
    ensures Grows(m, log)
  {
  }

  lemma EnterGrows(m: Modem, s: State, event: seq<Byte>)
    ensures Grows(m, Enter(m, s, event).log)
  {
    hide Grows, OnDisconnected, Prepare, SendStage, QueryAck, DeclareStage, SmsNumber, SmsBody, SmsRemove, Transmit;
    var at := m.(state := s);
    RoundGrows(at, event);
    RemovalGrows(at);
    SmsGrows(at);
    CommandGrows(at, Qiopen(m.address, m.port));
    CommandGrows(at, Fixed(s));
    StateGrows(m, s, Enter(m, s, event).log);
  }

  lemma PerformGrows(m: Modem, action: Action, event: seq<Byte>)
    ensures Grows(m, Perform(m, action, event).log)
  {
    hide Grows, OnDisconnected;
    RemovalGrows(m);
    EventGrows(m, ConnectedNote(m.callback));
    EventGrows(m, DataNote(event, m.callback));
    EventGrows(m, SentNote(m.bytesToSend, m.callback));
  }

  /** From one log to the next under the same settings. */
  lemma GrowsOn(m: Modem, n: Modem, log: Log)
    requires Grows(m, n.log) && Grows(n, log)
    requires n.callback == m.callback && n.address == m.address && n.port == m.port
    ensures Grows(m, log)
  {
    forall i | |m.log| <= i < |log|
      ensures Fits(log[i], m.callback, m.address, m.port)
    {
      if i < |n.log| {
        assert log[i] == n.log[i];
      }
    }
  }

  lemma TickGrows(m: Modem, env: Env)
    ensures Grows(m, TickMachine(m, env).log)
  {
    hide TickMachine, Observe, Fire, Perform, Enter, DataFlags, Fits;
    var o, move := TickShape(m, env);
    ObserveFrame(m, env.event);
    if move.Go? {
      var p := Perform(o, move.action, env.event);
      PerformKeeps(o, move.action, env.event);
      PerformGrows(o, move.action, env.event);
      EnterGrows(p, move.target, env.event);
      GrowsOn(m, p, Enter(p, move.target, env.event).log);
    }
  }

  /** Whatever a step adds to the log fits the settings it was taken under. */
  lemma StepGrows(m: Modem, input: Input)
    ensures Grows(m, Step(m, input).log)
  {
    hide TickMachine, Enter, CString;
    if !m.halted {
      match input {
        case Tick(env) => TickGrows(m, env);
        case SoftReset => EnterGrows(m, GprsReset, []);
        case PowerOffEvent => EnterGrows(m, ShutDownStageStart, []);
        case Restart => EnterGrows(m, ResetStageDecide, []);
        case _ =>
      }
    }
  }

  lemma TickKeepsSettings(m: Modem, env: Env)
    ensures var n := TickMachine(m, env);
      && n.callback == m.callback && n.sleepWhenIdle == m.sleepWhenIdle
      && n.address == m.address && n.port == m.port
  {
    hide TickMachine, Observe, Fire, Perform, Enter, DataFlags;
    var o, move := TickShape(m, env);
    ObserveFrame(m, env.event);
    if move.Go? {
      PerformKeeps(o, move.action, env.event);
      EnterFrame(Perform(o, move.action, env.event), move.target, env.event);
    }
  }

  /** Only the application's own calls change the settings. */
  lemma StepKeepsSettings(m: Modem, input: Input)
    ensures var n := Step(m, input);
      && (!input.SetCallback? ==> n.callback == m.callback)
      && (!input.SetSleep? ==> n.sleepWhenIdle == m.sleepWhenIdle)
      && (!input.Connect? && !input.Disconnect? ==> n.address == m.address && n.port == m.port)
  {
    hide TickMachine, Enter, CString;
    if !m.halted {
      match input {
        case Tick(env) => TickKeepsSettings(m, env);
        case SoftReset => EnterFrame(m, GprsReset, []);
        case PowerOffEvent => EnterFrame(m, ShutDownStageStart, []);
        case Restart => EnterFrame(m, ResetStageDecide, []);
        case _ =>
      }
    }
  }

  lemma SettingsAreTaken(m: Modem, on: bool)
    requires !m.halted
    ensures Step(m, SetCallback(on)) == m.(callback := on) && Step(m, SetSleep(on)) == m.(sleepWhenIdle := on)
  {
  }

  /** The last word of the application on its callback, if it was installed at first or not. */
  function LastCallback(atFirst: bool, inputs: seq<Input>): bool {
    if inputs == [] then atFirst
    else
      match inputs[|inputs| - 1]
      case SetCallback(installed) => installed
      case _ => LastCallback(atFirst, inputs[..|inputs| - 1])
  }

  /** Its last word on sleeping, which is allowed unless it said otherwise. */
  function LastSleep(inputs: seq<Input>): bool {
    if inputs == [] then true
    else
      match inputs[|inputs| - 1]
      case SetSleep(on) => on
      case _ => LastSleep(inputs[..|inputs| - 1])
  }

  /** On every run the driver goes by the application's last words. */
  lemma {:induction false} HoldsLastSettings(callback: bool, inputs: seq<Input>)
    ensures var m := Run(Initial(callback), inputs);
      !m.halted ==> m.callback == LastCallback(callback, inputs) && m.sleepWhenIdle == LastSleep(inputs)
    decreases |inputs|
  {
    if inputs != [] {
      hide Step;
      var before, x := inputs[..|inputs| - 1], inputs[|inputs| - 1];
      HoldsLastSettings(callback, before);
      var p := Run(Initial(callback), before);
      HaltedIsStill(p, x);
      if !p.halted {
        StepKeepsSettings(p, x);
        SettingsAreTaken(p, if x.SetSleep? then x.on else if x.SetCallback? then x.installed else true);
      }
    }
  }

  lemma HaltedIsStill(m: Modem, input: Input)
    ensures m.halted ==> Step(m, input) == m
  {
  }

  // ------------------------------------------------------- what the application hears

  predicate KeepsCallback(inputs: seq<Input>) {
    forall i :: 0 <= i < |inputs| ==> !inputs[i].SetCallback?
  }

  ghost predicate AllCalls(log: Log, delivered: bool) {
    forall i :: 0 <= i < |log| && IsCall(log[i]) ==> log[i].delivered == delivered
  }

  lemma CallsGrow(m: Modem, log: Log)
    requires AllCalls(m.log, m.callback) && Grows(m, log)
    ensures AllCalls(log, m.callback)
  {
    forall i | 0 <= i < |log| && IsCall(log[i])
      ensures log[i].delivered == m.callback
    {
      if i < |m.log| {
        assert log[i] == m.log[i];
      }
    }
  }

  /** While the callback stays installed every call is delivered; while none is, none. */
  lemma {:induction false} CallsOfRun(callback: bool, inputs: seq<Input>)
    requires KeepsCallback(inputs)
    ensures var m := Run(Initial(callback), inputs); m.callback == callback && AllCalls(m.log, callback)
    decreases |inputs|
  {
    hide Step, Grows;
    if inputs != [] {
      var before := inputs[..|inputs| - 1];
      var m := Run(Initial(callback), before);
      CallsOfRun(callback, before);
      StepGrows(m, inputs[|inputs| - 1]);
      StepKeepsSettings(m, inputs[|inputs| - 1]);
      CallsGrow(m, Step(m, inputs[|inputs| - 1]).log);
    }
  }

  /** The connection notes an application receives, in order, true for onConnected. */
  function HeardNotes(log: Log): seq<bool> {
    if log == [] then []
    else
      var past := HeardNotes(log[..|log| - 1]);
      match log[|log| - 1]
      case ConnectedNote(delivered) => if delivered then past + [true] else past
      case DisconnectedNote(delivered) => if delivered then past + [false] else past
      case _ => past
  }

  lemma {:induction false} AllOrNothingHeard(log: Log, delivered: bool)
    requires AllCalls(log, delivered)
    ensures HeardNotes(log) == if delivered then ConnectionNotes(log) else []
  {
    if log != [] {
      AllOrNothingHeard(log[..|log| - 1], delivered);
    }
  }

  /** Nothing goes unheard, or nothing is heard, in the accounts of bytes too. */
  lemma {:induction false} AllOrNothingBooked(log: Log, delivered: bool)
    requires AllCalls(log, delivered)
    ensures var b := Booked(log);
      if delivered then b.unheard == [] && b.discarded == [] else b.reports == [] && b.received == []
  {
    if log != [] {
      AllOrNothingBooked(log[..|log| - 1], delivered);
    }
  }

  /**
   An application whose callback is installed from the start and never removed hears
   onConnected and onDisconnected in alternation, starting with onConnected, and `connected`
   is what it heard last.
   */
  lemma {:induction false} HeardAlternate(inputs: seq<Input>)
    requires KeepsCallback(inputs)
    ensures
      var m := Run(Initial(true), inputs);
      var notes := HeardNotes(m.log);
      && (forall i :: 0 <= i < |notes| ==> (notes[i] <==> i % 2 == 0))
      && (m.connected <==> |notes| % 2 == 1)
  {
    hide Run, Lawful, Digested, HeardNotes, ConnectionNotes, AllCalls;
    var m := Run(Initial(true), inputs);
    CallsOfRun(true, inputs);
    AllOrNothingHeard(m.log, true);
    EveryRun(true, inputs);
    NotesAlternate(m.log);
  }

  /** The lengths it was given by onSent sum to the declared bytes, less the abandoned chunks. */
  lemma {:induction false} HeardBalances(inputs: seq<Input>)
    requires KeepsCallback(inputs)
    ensures
      var m0, m := Initial(true), Run(Initial(true), inputs);
      var b := Booked(m.log);
      && b.unheard == [] && b.discarded == []
      && Sum(b.reports) + Abandoned(m0, inputs) + NotYetReported(m) == TotalLength(b.declares)
  {
    hide Run, Lawful, Digested, Booked, AllCalls;
    CallsOfRun(true, inputs);
    AllOrNothingBooked(Run(Initial(true), inputs).log, true);
    EveryRunBalances(true, inputs);
  }
}
