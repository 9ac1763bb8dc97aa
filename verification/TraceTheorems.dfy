/** What a lawful log means, for any log at all; the machine plays no part here. */
module TraceTheorems {
  import opened Bytes
  import opened States
  import opened Commands
  import opened SendBuffer
  import opened AckReply
  import opened Trace

  // --------------------------------------------------------- reading a log at an index

  /** Every event obeys its law given exactly the events before it. */
  lemma {:induction false} LawAt(log: Log, i: nat)
    requires Lawful(log) && i < |log|
    ensures Lawful(log[..i]) && Law(Digested(log[..i]), log[i])
    ensures Digested(log[..i + 1]) == Next(Digested(log[..i]), log[i])
  {
    hide Law, Next;
    var last := |log| - 1;
    if i == last {
      assert log[..i + 1] == log;
    } else {
      assert log[..last][..i] == log[..i] && log[..last][..i + 1] == log[..i + 1];
      LawAt(log[..last], i);
    }
  }

  lemma LastLaw(log: Log) returns (past: Log, e: Event)
    requires Lawful(log) && log != []
    ensures past == log[..|log| - 1] && e == log[|log| - 1]
    ensures Lawful(past) && Law(Digested(past), e) && Digested(log) == Next(Digested(past), e)
  {
    hide Law, Next;
    past, e := log[..|log| - 1], log[|log| - 1];
  }

  /** The removed part only grows, and the other accounts change only with their own events. */
  lemma NextFrame(d: Digest, e: Event)
    ensures d.removed <= Next(d, e).removed && d.accepted <= Next(d, e).accepted
    ensures !e.Payload? ==> Next(d, e).flight == d.flight
    ensures !e.Payload? && !e.AckRead? ==> Next(d, e).ack == d.ack && Next(d, e).polls == d.polls
    ensures !e.Declared? && !e.Dropped? ==> Next(d, e).removed == d.removed
    ensures !e.Command? && !e.Payload? ==> Next(d, e).wire == d.wire
  {
  }

  // ------------------------------------------------------------------- conservation

  /** Nothing leaves the buffer that did not enter it, in order, and it never holds more than its capacity. */
  lemma {:induction false} Conservation(log: Log)
    requires Lawful(log)
    ensures var d := Digested(log);
            d.removed <= d.accepted && |d.accepted| - |d.removed| <= 6144
  {
    if log != [] {
      Conservation(log[..|log| - 1]);
    }
  }

  // ------------------------------------------------------------------- on the wire

  /** All payloads with the stream position each one starts at. */
  function Chunks(log: Log): seq<Chunk> {
    if log == [] then []
    else
      var past := log[..|log| - 1];
      match log[|log| - 1]
      case Payload(bytes) => Chunks(past) + [Chunk(|Digested(past).removed|, bytes)]
      case _ => Chunks(past)
  }

  predicate SliceOf(c: Chunk, stream: seq<Byte>) {
    c.at + |c.bytes| <= |stream| && stream[c.at..c.at + |c.bytes|] == c.bytes
  }

  lemma SliceSurvives(c: Chunk, stream: seq<Byte>, more: seq<Byte>)
    requires SliceOf(c, stream)
    ensures SliceOf(c, stream + more)
  {
    assert (stream + more)[c.at..c.at + |c.bytes|] == stream[c.at..c.at + |c.bytes|];
  }

  lemma PrefixIsSlice(before: seq<Byte>, bytes: seq<Byte>, stream: seq<Byte>)
    requires before + bytes <= stream
    ensures SliceOf(Chunk(|before|, bytes), stream)
  {
    assert stream[..|before + bytes|] == before + bytes;
  }

  /** Every payload is a piece of the accepted stream, taken at the first byte not yet removed. */
  lemma {:induction false} ChunksAreSlices(log: Log)
    requires Lawful(log)
    ensures forall c :: c in Chunks(log) ==> SliceOf(c, Digested(log).accepted)
  {
    if log != [] {
      hide Lawful, SliceOf;
      var past, e := log[..|log| - 1], log[|log| - 1];
      LawAt(log, |log| - 1);
      ChunksAreSlices(past);
      var d := Digested(past);
      if e.Accepted? {
        forall c | c in Chunks(past) ensures SliceOf(c, d.accepted + e.bytes) {
          SliceSurvives(c, d.accepted, e.bytes);
        }
      } else if e.Payload? {
        PrefixIsSlice(d.removed, e.bytes, d.accepted);
      }
    }
  }

  predicate InOrder(cs: seq<Chunk>, limit: nat) {
    && (forall i, j :: 0 <= i < j < |cs| ==> cs[i].at <= cs[j].at)
    && (forall i :: 0 <= i < |cs| ==> cs[i].at <= limit)
  }

  lemma InOrderGrows(cs: seq<Chunk>, bytes: seq<Byte>, limit: nat, more: nat)
    requires InOrder(cs, limit) && limit <= more
    ensures InOrder(cs, more) && InOrder(cs + [Chunk(limit, bytes)], more)
  {
  }

  /** Positions never go back, and none lies beyond what was removed so far. */
  lemma {:induction false} ChunksInOrder(log: Log)
    requires Lawful(log)
    ensures InOrder(Chunks(log), |Digested(log).removed|)
  {
    if log != [] {
      hide Lawful, Law, Digested, Next, InOrder;
      var past, e := LastLaw(log);
      ChunksInOrder(past);
      NextFrame(Digested(past), e);
      InOrderGrows(Chunks(past), if e.Payload? then e.bytes else [], |Digested(past).removed|, |Digested(log).removed|);
    }
  }

  /** Where the stream starts again after the last drop. */
  function DropEnd(log: Log): nat {
    if log == [] then 0
    else
      var past := log[..|log| - 1];
      if log[|log| - 1].Dropped? then |Digested(log).removed| else DropEnd(past)
  }

  function FlightEnd(flight: Option<Chunk>): nat {
    if flight.None? then 0 else flight.value.at + |flight.value.bytes|
  }

  /**
   No gap: what was removed never reaches past the end of the last payload, except by a drop.
   A payload starts where the removed part ends, so the next one can repeat but not skip.
   */
  lemma {:induction false} NoGap(log: Log)
    requires Lawful(log)
    ensures var d := Digested(log);
            |d.removed| <= FlightEnd(d.flight) || |d.removed| <= DropEnd(log)
  {
    if log != [] {
      hide Lawful, Digested;
      var past, e := LastLaw(log);
      NoGap(past);
    }
  }

  /** `c` was sent by the event at `j`, and no other payload followed. */
  ghost predicate SentAt(log: Log, j: nat, c: Chunk) {
    && j < |log| && log[j] == Payload(c.bytes) && |Digested(log[..j]).removed| == c.at
    && (forall k :: j < k < |log| ==> !log[k].Payload?)
  }

  lemma {:induction false} FlightWasSent(log: Log) returns (j: nat)
    requires Lawful(log) && Digested(log).flight.Some?
    ensures SentAt(log, j, Digested(log).flight.value)
  {
    assert log != [];
    hide Lawful, Law, Digested;
    var past, e := LastLaw(log);
    if e.Payload? {
      j := |log| - 1;
    } else {
      hide Next;
      NextFrame(Digested(past), e);
      j := FlightWasSent(past);
      assert past[..j] == log[..j];
    }
  }

  /** A declared chunk is the last payload before it, byte for byte and from the same stream position. */
  lemma {:induction false} DeclaredWasSent(log: Log, i: nat) returns (j: nat)
    requires Lawful(log) && i < |log| && log[i].Declared?
    ensures j < i && SentAt(log[..i], j, Chunk(|Digested(log[..i]).removed|, log[i].bytes))
  {
    LawAt(log, i);
    j := FlightWasSent(log[..i]);
  }

  lemma NextAck(d: Digest, e: Event)
    ensures e.AckRead? ==> Next(d, e).ack == Some(e.ack)
    ensures e.Payload? ==> Next(d, e).ack == None
  {
  }

  /** Neither a payload nor another ack reply follows the one at `j`. */
  ghost predicate LastRead(log: Log, j: nat, ack: Ack) {
    j < |log| && log[j] == AckRead(ack) && forall k :: j < k < |log| ==> !log[k].Payload? && !log[k].AckRead?
  }

  lemma LastReadSurvives(log: Log, j: nat, ack: Ack)
    requires log != [] && LastRead(log[..|log| - 1], j, ack)
    requires !log[|log| - 1].Payload? && !log[|log| - 1].AckRead?
    ensures LastRead(log, j, ack)
  {
    assert forall k :: 0 <= k < |log| - 1 ==> log[k] == log[..|log| - 1][k];
  }

  lemma {:induction false} AckWasRead(log: Log) returns (j: nat)
    requires Lawful(log) && Digested(log).ack.Some?
    ensures LastRead(log, j, Digested(log).ack.value)
  {
    assert log != [];
    hide Lawful, Law, Digested, Next;
    var past, e := LastLaw(log);
    NextFrame(Digested(past), e);
    NextAck(Digested(past), e);
    if e.AckRead? {
      j := |log| - 1;
    } else {
      hide LastRead;
      j := AckWasRead(past);
      LastReadSurvives(log, j, Digested(log).ack.value);
    }
  }

  /** ... and the last ack reply read in between had equal sent and acked counts. */
  lemma DeclaredWasAcked(log: Log, i: nat) returns (j: nat, k: nat)
    requires Lawful(log) && i < |log| && log[i].Declared?
    ensures j < k < i && SentAt(log[..i], j, Chunk(|Digested(log[..i]).removed|, log[i].bytes))
    ensures log[k].AckRead? && log[k].ack.sent == log[k].ack.acked
    ensures forall l :: k < l < i ==> !log[l].AckRead?
  {
    hide Lawful, Next;
    LawAt(log, i);
    j := DeclaredWasSent(log, i);
    hide Law;
    k := AckWasRead(log[..i]);
    assert log[..i][j].Payload? && log[..i][k].AckRead?;
  }

  ghost predicate SentOver(log: Log, p: nat) {
    exists c :: c in Chunks(log) && c.at <= p < c.at + |c.bytes|
  }

  ghost predicate DroppedOver(log: Log, p: nat) {
    exists i: nat :: i < |log| && log[i].Dropped?
        && |Digested(log[..i]).removed| <= p < |Digested(log[..i]).removed| + |log[i].bytes|
  }

  lemma NextPayload(d: Digest, bytes: seq<Byte>)
    ensures Next(d, Payload(bytes)).flight == Some(Chunk(|d.removed|, bytes))
  {
  }

  lemma {:induction false} FlightIsChunk(log: Log)
    requires Digested(log).flight.Some?
    ensures Digested(log).flight.value in Chunks(log)
  {
    hide Next;
    var past, e := log[..|log| - 1], log[|log| - 1];
    NextFrame(Digested(past), e);
    if e.Payload? {
      NextPayload(Digested(past), e.bytes);
    } else {
      FlightIsChunk(past);
    }
  }

  lemma OverSurvives(log: Log, e: Event, p: nat)
    requires SentOver(log, p) || DroppedOver(log, p)
    ensures SentOver(log + [e], p) || DroppedOver(log + [e], p)
  {
    assert (log + [e])[..|log|] == log;
    if SentOver(log, p) {
      var c :| c in Chunks(log) && c.at <= p < c.at + |c.bytes|;
      assert c in Chunks(log + [e]);
    } else {
      var i: nat :| i < |log| && log[i].Dropped?
        && |Digested(log[..i]).removed| <= p < |Digested(log[..i]).removed| + |log[i].bytes|;
      assert (log + [e])[i] == log[i] && (log + [e])[..i] == log[..i];
    }
  }

  /** At least once: a byte that left the buffer was transmitted, or was dropped by a disconnect. */
  lemma {:induction false} RemovedWasSentOrDropped(log: Log, p: nat)
    requires Lawful(log) && p < |Digested(log).removed|
    ensures SentOver(log, p) || DroppedOver(log, p)
  {
    hide Lawful, SentOver, DroppedOver;
    var past, e := log[..|log| - 1], log[|log| - 1];
    assert past + [e] == log;
    LawAt(log, |log| - 1);
    Extend(past, e);
    var d := Digested(past);
    if p < |d.removed| {
      RemovedWasSentOrDropped(past, p);
      OverSurvives(past, e, p);
    } else {
      NewlyRemoved(past, e, p);
    }
  }

  lemma {:induction false} NewlyRemoved(past: Log, e: Event, p: nat)
    requires Law(Digested(past), e)
    requires |Digested(past).removed| <= p < |Next(Digested(past), e).removed|
    ensures SentOver(past + [e], p) || DroppedOver(past + [e], p)
  {
    var log := past + [e];
    assert log[..|past|] == past;
    if e.Declared? {
      FlightIsChunk(past);
      assert Digested(past).flight.value in Chunks(log);
    } else {
      assert log[|past|].Dropped?;
    }
  }

  // ------------------------------------------------------------------- announcements

  /** The line grows by the transmissions, one at a time. */
  lemma NextOnWire(d: Digest, e: Event)
    ensures var w := Next(d, e).wire;
      if e.Command? || e.Payload? then w != [] && w[|w| - 1] == e && w[..|w| - 1] == d.wire else w == d.wire
  {
  }

  /** Nothing goes over the line strictly between the two indices. */
  predicate SilentBetween(log: Log, i: nat, j: nat) {
    forall k :: i < k < j && k < |log| ==> !log[k].Command? && !log[k].Payload?
  }

  lemma SilentSurvives(log: Log, j: nat)
    requires log != [] && SilentBetween(log[..|log| - 1], j, |log| - 1)
    requires !log[|log| - 1].Command? && !log[|log| - 1].Payload?
    ensures SilentBetween(log, j, |log|)
  {
    assert forall k :: 0 <= k < |log| - 1 ==> log[k] == log[..|log| - 1][k];
  }

  lemma DigestedStep(log: Log)
    requires Digested(log).wire != []
    ensures log != [] && Digested(log) == Next(Digested(log[..|log| - 1]), log[|log| - 1])
  {
    hide Next;
  }

  lemma SilentAtEnd(log: Log)
    requires log != []
    ensures SilentBetween(log, |log| - 1, |log|)
  {
  }

  lemma {:induction false} LastTransmission(log: Log) returns (j: nat)
    requires Digested(log).wire != []
    ensures var wire := Digested(log).wire;
      && j < |log| && log[j] == wire[|wire| - 1]
      && Digested(log[..j]).wire == wire[..|wire| - 1]
      && SilentBetween(log, j, |log|)
  {
    hide *;
    DigestedStep(log);
    var past, e := log[..|log| - 1], log[|log| - 1];
    NextOnWire(Digested(past), e);
    if e.Command? || e.Payload? {
      j := |log| - 1;
      SilentAtEnd(log);
    } else {
      j := LastTransmission(past);
      SilentSurvives(log, j);
      assert log[..j] == past[..j];
    }
  }

  lemma LawOfPayload(d: Digest, bytes: seq<Byte>)
    requires Law(d, Payload(bytes))
    ensures 0 < |bytes| <= 1460
    ensures d.wire != [] && d.wire[|d.wire| - 1] == Command(Qisend(|bytes|))
  {
  }

  /**
   The transmission just before a payload is a command whose text the modem reads as
   announcing exactly the payload's length.
   */
  lemma {:induction false} PayloadWasAnnounced(log: Log, i: nat) returns (j: nat)
    requires Lawful(log) && i < |log| && log[i].Payload?
    ensures j < i && log[j] == Command(Qisend(|log[i].bytes|)) && SilentBetween(log, j, i)
    ensures Announced(Text(log[j].command)) == Some(|log[i].bytes|)
  {
    hide Digested, Lawful, Law, Next, Announced, QisendCommand, FixedText, QiopenCommand, NumberCommand, BodyCommand;
    LawAt(log, i);
    LawOfPayload(Digested(log[..i]), log[i].bytes);
    j := LastTransmission(log[..i]);
    AnnouncementRoundTrip(|log[i].bytes|);
  }

  // ------------------------------------------------------------------------ polling

  /** At most ten ack replies are read per payload, and a declare comes after at most nine. */
  lemma {:induction false} PollsBounded(log: Log)
    requires Lawful(log)
    ensures Digested(log).polls <= 10
  {
    if log != [] {
      PollsBounded(log[..|log| - 1]);
    }
  }

  /** Ack replies read at the indices from `j` on. */
  function AcksFrom(log: Log, j: nat): nat
    requires j <= |log|
    decreases |log| - j
  {
    if j == |log| then 0 else (if log[j].AckRead? then 1 else 0) + AcksFrom(log, j + 1)
  }

  lemma {:induction false} AcksFromSnoc(log: Log, j: nat)
    requires j < |log|
    ensures AcksFrom(log, j) == AcksFrom(log[..|log| - 1], j) + (if log[|log| - 1].AckRead? then 1 else 0)
    decreases |log| - j
  {
    if j < |log| - 1 {
      AcksFromSnoc(log, j + 1);
    }
  }

  /** The digest's poll count is the number of replies since the last payload. */
  lemma {:induction false} PollsCounted(log: Log, j: nat)
    requires j < |log| && log[j].Payload? && forall k :: j < k < |log| ==> !log[k].Payload?
    ensures Digested(log).polls == AcksFrom(log, j)
  {
    if j == |log| - 1 {
      assert AcksFrom(log, j) == AcksFrom(log, j + 1);
    } else {
      PollsCounted(log[..|log| - 1], j);
      AcksFromSnoc(log, j);
    }
  }

  /** Between a payload and the next one at most ten replies are parsed. */
  lemma AtMostTenPolls(log: Log, j: nat)
    requires Lawful(log) && j < |log| && log[j].Payload?
    requires forall k :: j < k < |log| ==> !log[k].Payload?
    ensures AcksFrom(log, j) <= 10
  {
    hide Digested, Lawful;
    PollsCounted(log, j);
    PollsBounded(log);
  }

  /** A declare is preceded by at most nine replies to polls for its payload. */
  lemma DeclaredWithinNinePolls(log: Log, i: nat) returns (j: nat)
    requires Lawful(log) && i < |log| && log[i].Declared?
    ensures j < i && log[j] == Payload(log[i].bytes)
    ensures 1 <= AcksFrom(log[..i], j) <= 9
  {
    LawAt(log, i);
    j := DeclaredWasSent(log, i);
    PollsCounted(log[..i], j);
  }

  // ---------------------------------------------------------------------- callbacks

  /** The connection notes in order, true for onConnected. */
  function ConnectionNotes(log: Log): seq<bool> {
    if log == [] then []
    else
      var past := ConnectionNotes(log[..|log| - 1]);
      match log[|log| - 1]
      case ConnectedNote(_) => past + [true]
      case DisconnectedNote(_) => past + [false]
      case _ => past
  }

  /** The driver's notes alternate, starting with onConnected, whether or not a callback takes them. */
  lemma {:induction false} NotesAlternate(log: Log)
    requires Lawful(log)
    ensures var notes := ConnectionNotes(log);
            && (forall i :: 0 <= i < |notes| ==> (notes[i] <==> i % 2 == 0))
            && (Digested(log).up <==> |notes| % 2 == 1)
  {
    if log != [] {
      NotesAlternate(log[..|log| - 1]);
    }
  }

  lemma LawOfDrops(d: Digest, e: Event)
    requires Law(d, e)
    ensures d.dropping <==> e.DisconnectedNote?
    ensures e.Dropped? ==> d.removed + e.bytes == d.accepted
  {
  }

  lemma NextDropping(d: Digest, e: Event)
    ensures Next(d, e).dropping <==> e.Dropped?
  {
  }

  /**
   Dropped bytes and onDisconnected come in adjacent pairs, whichever of the two is looked at;
   only the last event can wait for its note.
   */
  lemma {:induction false} DropsPairWithNotes(log: Log, i: nat)
    requires Lawful(log) && i < |log|
    ensures log[i].Dropped? ==> if i + 1 < |log| then log[i + 1].DisconnectedNote? else Digested(log).dropping
    ensures log[i].DisconnectedNote? ==> i > 0 && log[i - 1].Dropped?
    ensures log[i].Dropped? ==> Digested(log[..i]).removed + log[i].bytes == Digested(log[..i]).accepted
  {
    hide Lawful, Law, Next;
    LawAt(log, i);
    LawOfDrops(Digested(log[..i]), log[i]);
    assert log[i].DisconnectedNote? ==> i > 0;
    hide Digested;
    if log[i].Dropped? {
      NextDropping(Digested(log[..i]), log[i]);
      if i + 1 < |log| {
        LawAt(log, i + 1);
        LawOfDrops(Digested(log[..i + 1]), log[i + 1]);
      } else {
        assert log[..i + 1] == log;
      }
    }
    if log[i].DisconnectedNote? {
      LawAt(log, i - 1);
      NextDropping(Digested(log[..i - 1]), log[i - 1]);
    }
  }

  lemma NextReport(d: Digest, e: Event)
    ensures e.Declared? ==> Next(d, e).unreported == Some(|e.bytes|)
    ensures e.SentNote? ==> Next(d, e).unreported == None
    ensures !e.Declared? && !e.SentNote? ==> Next(d, e).unreported == d.unreported
  {
  }

  /** Neither a declare nor a report follows the one at `j`. */
  ghost predicate LastDeclare(log: Log, j: nat, len: nat) {
    && j < |log| && log[j].Declared? && |log[j].bytes| == len
    && forall k :: j < k < |log| ==> !log[k].Declared? && !log[k].SentNote?
  }

  lemma LastDeclareSurvives(log: Log, j: nat, len: nat)
    requires log != [] && LastDeclare(log[..|log| - 1], j, len)
    requires !log[|log| - 1].Declared? && !log[|log| - 1].SentNote?
    ensures LastDeclare(log, j, len)
  {
    assert forall k :: 0 <= k < |log| - 1 ==> log[k] == log[..|log| - 1][k];
  }

  lemma LastDeclareAtEnd(log: Log)
    requires log != [] && log[|log| - 1].Declared?
    ensures LastDeclare(log, |log| - 1, |log[|log| - 1].bytes|)
  {
  }

  lemma UnreportedIsNotNew(log: Log)
    requires Digested(log).unreported.Some?
    ensures log != []
  {
  }

  lemma {:induction false} UnreportedWasDeclared(log: Log) returns (j: nat)
    requires Lawful(log) && Digested(log).unreported.Some?
    ensures LastDeclare(log, j, Digested(log).unreported.value)
  {
    hide *;
    UnreportedIsNotNew(log);
    var past, e := LastLaw(log);
    NextReport(Digested(past), e);
    if e.Declared? {
      j := |log| - 1;
      LastDeclareAtEnd(log);
    } else {
      j := UnreportedWasDeclared(past);
      LastDeclareSurvives(log, j, Digested(log).unreported.value);
    }
  }

  /** Each onSent reports the length of the last declared chunk, which no earlier onSent reported. */
  lemma SentReportsLastDeclared(log: Log, i: nat) returns (j: nat)
    requires Lawful(log) && i < |log| && log[i].SentNote?
    ensures j < i && log[j].Declared? && |log[j].bytes| == log[i].len
    ensures forall k :: j < k < i ==> !log[k].Declared? && !log[k].SentNote?
  {
    hide Lawful, Digested, Next;
    LawAt(log, i);
    j := UnreportedWasDeclared(log[..i]);
  }

  // ---------------------------------------------------------------------------- SMS

  /** Messages leave in the order they were queued, and at most four wait. */
  lemma {:induction false} SmsInOrder(log: Log)
    requires Lawful(log)
    ensures var d := Digested(log);
            d.smsOut <= d.smsIn && |d.smsIn| - |d.smsOut| <= 4
  {
    if log != [] {
      hide Lawful, Digested;
      var past, e := LastLaw(log);
      SmsInOrder(past);
    }
  }

  lemma LawOfRemoval(d: Digest, sms: Sms)
    requires Law(d, SmsRemoved(sms))
    ensures |d.smsOut| < |d.smsIn| && d.smsIn[|d.smsOut|] == sms
    ensures |d.wire| >= 2
    ensures d.wire[|d.wire| - 2] == Command(SmsTo(sms)) && d.wire[|d.wire| - 1] == Command(SmsBodyOf(sms))
  {
    assert d.wire[|d.wire| - 2..][0] == d.wire[|d.wire| - 2];
    assert d.wire[|d.wire| - 2..][1] == d.wire[|d.wire| - 1];
  }

  /**
   The message that leaves the queue is the oldest one; its own number went out before it, then
   its own body, and nothing else went over the line between these two or after them.
   */
  lemma RemovedSmsWasOffered(log: Log, i: nat) returns (number: nat, body: nat)
    requires Lawful(log) && i < |log| && log[i].SmsRemoved?
    ensures var d := Digested(log[..i]); |d.smsOut| < |d.smsIn| && d.smsIn[|d.smsOut|] == log[i].sms
    ensures number < body < i
    ensures log[number] == Command(SmsTo(log[i].sms)) && log[body] == Command(SmsBodyOf(log[i].sms))
    ensures SilentBetween(log, number, body) && SilentBetween(log, body, i)
    ensures Text(log[number].command) == "AT+CMGS=\"" + CString(log[i].sms.number) + "\"\r"
    ensures Text(log[body].command) == CString(log[i].sms.body) + [26 as char]
  {
    hide Lawful, Digested, Next, Law, CString, Text;
    SmsTexts(log[i].sms);
    LawAt(log, i);
    LawOfRemoval(Digested(log[..i]), log[i].sms);
    body := LastTransmission(log[..i]);
    assert log[..i][..body] == log[..body];
    number := LastTransmission(log[..body]);
    BetweenInPrefix(log, i, body, i);
    BetweenInPrefix(log, body, number, body);
  }

  lemma BetweenInPrefix(log: Log, n: nat, i: nat, j: nat)
    requires j <= n <= |log| && SilentBetween(log[..n], i, j)
    ensures SilentBetween(log, i, j)
  {
    forall k | i < k < j && k < |log|
      ensures !log[k].Command? && !log[k].Payload?
    {
      assert log[..n][k] == log[k];
    }
  }
}
