/** Running accounts over a log, and what each action and entry books on them. */
module Accounts {
  import opened Bytes
  import opened States
  import opened Commands
  import opened SendBuffer
  import opened AckReply
  import opened Trace
  import opened Machine

  datatype Account = Account(
    accepted: seq<Byte>,          // taken by send
    payloads: seq<seq<Byte>>,     // transmitted
    declares: seq<seq<Byte>>,     // removed as sent
    reports: seq<nat>,            // lengths the application was given by onSent
    unheard: seq<nat>,            // lengths for which no callback was installed
    received: seq<Byte>,          // bytes the application was given by onData
    discarded: seq<Byte>,         // bytes for which no callback was installed
    queued: seq<Sms>)             // messages taken into the queue

  const OPENING := Account([], [], [], [], [], [], [], [])

  /** Lengths reach the application exactly when a callback is installed. */
  function Report(a: Account, lens: seq<nat>, heard: bool): Account {
    if heard then a.(reports := a.reports + lens) else a.(unheard := a.unheard + lens)
  }

  /** So do received bytes; without a callback they are gone. */
  function HandOver(a: Account, bytes: seq<Byte>, heard: bool): Account {
    if heard then a.(received := a.received + bytes) else a.(discarded := a.discarded + bytes)
  }

  function Book(a: Account, e: Event): Account {
    match e
    case Accepted(bytes) => a.(accepted := a.accepted + bytes)
    case Payload(bytes) => a.(payloads := a.payloads + [bytes])
    case Declared(bytes) => a.(declares := a.declares + [bytes])
    case SentNote(len, delivered) => Report(a, [len], delivered)
    case DataNote(bytes, delivered) => HandOver(a, bytes, delivered)
    case SmsQueued(sms) => a.(queued := a.queued + [sms])
    case _ => a
  }

  function Booked(log: Log): Account {
    if log == [] then OPENING else Book(Booked(log[..|log| - 1]), log[|log| - 1])
  }

  lemma BookNext(log: Log, e: Event)
    ensures Booked(log + [e]) == Book(Booked(log), e)
  {
    assert (log + [e])[..|log|] == log;
  }

  /** The law's own accounts of accepted bytes and messages are the same. */
  lemma {:induction false} AcceptedAgrees(log: Log)
    ensures Digested(log).accepted == Booked(log).accepted && Digested(log).smsIn == Booked(log).queued
  {
    if log != [] {
      hide Next, Book;
      AcceptedAgrees(log[..|log| - 1]);
      AcceptedNext(Digested(log[..|log| - 1]), Booked(log[..|log| - 1]), log[|log| - 1]);
    }
  }

  lemma AcceptedNext(d: Digest, a: Account, e: Event)
    requires d.accepted == a.accepted && d.smsIn == a.queued
    ensures Next(d, e).accepted == Book(a, e).accepted && Next(d, e).smsIn == Book(a, e).queued
  {
  }

  // ----------------------------------------------------------- actions and entries

  function ActionAccount(a: Account, m: Modem, action: Action, event: seq<Byte>): Account {
    match action
    case DeliverData => HandOver(a, event, m.callback)
    case ReportSent => Report(a, [m.bytesToSend], m.callback)
    case _ => a
  }

  function EntryAccount(a: Account, m: Modem, s: State): Account {
    if s.NetworkSend? && m.bytesToSend != 0 then a.(payloads := a.payloads + [Prefix(m.buffer, m.bytesToSend)])
    else if s.NetworkDeclareRead? then a.(declares := a.declares + [Prefix(m.buffer, m.bytesToSend)])
    else a
  }

  lemma OnDisconnectedBooks(m: Modem)
    ensures Booked(OnDisconnected(m).log) == Booked(m.log)
  {
    BookNext(m.log, Dropped(m.buffer));
    BookNext(m.log + [Dropped(m.buffer)], DisconnectedNote(m.callback));
  }

  lemma TransmitBooks(m: Modem, command: AtCommand)
    ensures Booked(Transmit(m, command).log) == Booked(m.log)
  {
    BookNext(m.log, Command(command));
  }

  lemma PrepareBooks(m: Modem)
    ensures Booked(Prepare(m).log) == Booked(m.log)
  {
    hide Booked;
    var n := Window(|m.buffer|);
    TransmitBooks(m.(bytesToSend := n), Qisend(n));
  }

  lemma SendBooks(m: Modem)
    ensures Booked(SendStage(m).log) == EntryAccount(Booked(m.log), m, NetworkSend)
  {
    hide Booked;
    BookNext(m.log, Payload(Prefix(m.buffer, m.bytesToSend)));
  }

  lemma DeclareBooks(m: Modem)
    ensures Booked(DeclareStage(m).log) == EntryAccount(Booked(m.log), m, NetworkDeclareRead)
  {
    hide Booked;
    BookNext(m.log, Declared(Prefix(m.buffer, m.bytesToSend)));
  }

  lemma QueryAckBooks(m: Modem, event: seq<Byte>)
    ensures Booked(QueryAck(m, event).log) == Booked(m.log)
  {
    hide Booked, AckOf;
    BookNext(m.log, AckRead(AckOf(event)));
  }

  lemma SmsBooks(m: Modem)
    ensures Booked(SmsNumber(m).log) == Booked(m.log)
    ensures Booked(SmsBody(m).log) == Booked(m.log)
    ensures Booked(SmsRemove(m).log) == Booked(m.log)
  {
    hide Booked;
    if m.sms != [] {
      BookNext(m.log, Command(SmsTo(m.sms[0])));
      BookNext(m.log, Command(SmsBodyOf(m.sms[0])));
      BookNext(m.log, SmsRemoved(m.sms[0]));
    }
  }

  lemma CallIsBooked(a: Account, bytes: seq<Byte>, len: nat, heard: bool)
    ensures Book(a, ConnectedNote(heard)) == a
    ensures Book(a, DataNote(bytes, heard)) == HandOver(a, bytes, heard)
    ensures Book(a, SentNote(len, heard)) == Report(a, [len], heard)
  {
  }

  lemma PerformBooks(m: Modem, action: Action, event: seq<Byte>)
    ensures Booked(Perform(m, action, event).log) == ActionAccount(Booked(m.log), m, action, event)
  {
    hide Booked, Book, OnDisconnected, HandOver, Report;
    OnDisconnectedBooks(m);
    CallIsBooked(Booked(m.log), event, m.bytesToSend, m.callback);
    match action {
      case NotifyConnected => BookNext(m.log, ConnectedNote(m.callback));
      case DeliverData => BookNext(m.log, DataNote(event, m.callback));
      case ReportSent => BookNext(m.log, SentNote(m.bytesToSend, m.callback));
      case _ =>
    }
  }

  lemma EnterBooks(m: Modem, s: State, event: seq<Byte>)
    ensures Booked(Enter(m, s, event).log) == EntryAccount(Booked(m.log), m, s)
  {
    hide Booked, OnDisconnected, Transmit, Prepare, SendStage, QueryAck, DeclareStage, Prefix;
    hide SmsNumber, SmsBody, SmsRemove;
    var at := m.(state := s);
    if s.ResetStageDecide? {
      OnDisconnectedBooks(at);
    } else if s.ConnectToServer? {
      TransmitBooks(at, Qiopen(m.address, m.port));
    } else if s.NetworkPrepareSend? {
      PrepareBooks(at);
    } else if s.NetworkSend? {
      SendBooks(at);
    } else if s.NetworkAckCheckParse? {
      QueryAckBooks(at, event);
    } else if s.NetworkDeclareRead? {
      DeclareBooks(at);
    } else if s.SmsSendSingleNumber? || s.SmsSendSingleBody? || s.SmsSendSingleRemove? {
      SmsBooks(at);
    } else {
      TransmitBooks(at, Fixed(s));
    }
  }
}
