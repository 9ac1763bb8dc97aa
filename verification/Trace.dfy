/**
 What happens at the driver's edges, in order, and the law each event has to obey given
 the events before it. The log is written by the model only; the driver keeps none.
 */
module Trace {
  import opened Bytes
  import opened Commands
  import opened SendBuffer
  import opened AckReply

  datatype Event =
    | Accepted(bytes: seq<Byte>)                     // send took these
    | Command(command: AtCommand)                    // an AT command went to the USART
    | Payload(bytes: seq<Byte>)                      // raw bytes went to the USART
    | AckRead(ack: Ack)                              // an ack reply was parsed
    | Declared(bytes: seq<Byte>)                     // left the buffer as sent
    | Dropped(bytes: seq<Byte>)                      // left the buffer unsent
    | ConnectedNote(delivered: bool)                 // onConnected; delivered when a callback is installed
    | DisconnectedNote(delivered: bool)
    | SentNote(len: nat, delivered: bool)
    | DataNote(bytes: seq<Byte>, delivered: bool)
    | SmsQueued(sms: Sms)
    | SmsRemoved(sms: Sms)

  type Log = seq<Event>

  /** A payload and the position of its first byte in the stream of accepted bytes. */
  datatype Chunk = Chunk(at: nat, bytes: seq<Byte>)

  /** Everything a law needs to know about the past. */
  datatype Digest = Digest(
    accepted: seq<Byte>,       // all bytes ever accepted
    removed: seq<Byte>,        // all bytes ever declared or dropped, in order of removal
    wire: seq<Event>,          // all transmissions
    flight: Option<Chunk>,     // the last payload
    polls: nat,                // ack replies parsed since that payload
    ack: Option<Ack>,          // the last of them
    up: bool,                  // the last connection note was onConnected
    unreported: Option<nat>,   // length of the last declared chunk, until onSent reports it
    smsIn: seq<Sms>,
    smsOut: seq<Sms>,
    dropping: bool)            // bytes were just dropped

  const START := Digest([], [], [], None, 0, None, false, None, [], [], false)

  function Next(past: Digest, e: Event): Digest {
    var d := past.(dropping := false);
    match e
    case Accepted(bytes) => d.(accepted := d.accepted + bytes)
    case Command(_) => d.(wire := d.wire + [e])
    case Payload(bytes) =>
      d.(wire := d.wire + [e], flight := Some(Chunk(|d.removed|, bytes)), polls := 0, ack := None)
    case AckRead(ack) => d.(polls := d.polls + 1, ack := Some(ack))
    case Declared(bytes) => d.(removed := d.removed + bytes, unreported := Some(|bytes|))
    case Dropped(bytes) => d.(removed := d.removed + bytes, dropping := true)
    case ConnectedNote(_) => d.(up := true)
    case DisconnectedNote(_) => d.(up := false)
    case SentNote(_, _) => d.(unreported := None)
    case DataNote(_, _) => d
    case SmsQueued(sms) => d.(smsIn := d.smsIn + [sms])
    case SmsRemoved(sms) => d.(smsOut := d.smsOut + [sms])
  }

  /** The law of the protocol, event by event. */
  ghost predicate Law(d: Digest, e: Event) {
    && (d.dropping ==> e.DisconnectedNote?)
    && match e
       case Accepted(bytes) =>
         |d.accepted| + |bytes| <= |d.removed| + 6144
       case Command(_) => true
       case Payload(bytes) =>
         // the next unremoved bytes, in exactly the number announced just before on the wire
         && 0 < |bytes| <= 1460
         && d.removed + bytes <= d.accepted
         && d.wire != [] && d.wire[|d.wire| - 1] == Command(Qisend(|bytes|))
       case AckRead(_) =>
         d.flight.Some? && d.polls <= 9
       case Declared(bytes) =>
         // exactly the payload in flight, and the last of at most nine replies found it acked
         && d.flight == Some(Chunk(|d.removed|, bytes))
         && d.removed + bytes <= d.accepted
         && 1 <= d.polls <= 9 && d.ack.Some? && d.ack.value.sent == d.ack.value.acked
       case Dropped(bytes) =>
         d.up && d.removed + bytes == d.accepted
       case ConnectedNote(_) => !d.up
       case DisconnectedNote(_) => d.up && d.dropping
       case SentNote(len, _) => d.unreported == Some(len)
       case DataNote(_, _) => true
       case SmsQueued(_) =>
         |d.smsIn| < |d.smsOut| + 4
       case SmsRemoved(sms) =>
         && d.smsOut + [sms] <= d.smsIn
         && |d.wire| >= 2
         && d.wire[|d.wire| - 2..] == [Command(SmsTo(sms)), Command(SmsBodyOf(sms))]
  }

  function Digested(log: Log): Digest {
    if log == [] then START else Next(Digested(log[..|log| - 1]), log[|log| - 1])
  }

  ghost predicate Lawful(log: Log) {
    log == [] || (Lawful(log[..|log| - 1]) && Law(Digested(log[..|log| - 1]), log[|log| - 1]))
  }

  lemma Extend(log: Log, e: Event)
    ensures Digested(log + [e]) == Next(Digested(log), e)
    ensures Lawful(log + [e]) <==> Lawful(log) && Law(Digested(log), e)
  {
    assert (log + [e])[..|log|] == log;
  }
}
