# The MC60 driver: reliable sending, receiving and SMS

This project models the Quectel MC60 driver (`src/mc60Modem/`, `src/modem/SmsSendSingleAction.cc`):
the state machine its constructor builds, the bounded send buffer it empties window by window, the
ack-polling loop, the SMS queue, the receive loop and the three hand-written reply parsers. It
proves what the driver does to the application's bytes on every run, whatever the modem answers,
whenever timeouts strike and whatever the application calls in between.

The driver accepts bytes with `send` and owes the application three things: the bytes go to the
modem in order and without gaps, they leave the buffer only after they went out and a reply to a
poll was taken for their acknowledgement, or when the application is told of a disconnect, and the
callbacks match what was done. In the code this is spread over a transition table of 49 states, a
shared buffer, two retry counters, several flags and two files of actions. The project states it
as a law that each event at the driver's edge has to obey given the events before it
(`Trace.Law`), proves that every step of the machine keeps that law (`Safety`), and derives from
the law alone what it means (`TraceTheorems`).

Beside the law stand the theorems about single decisions that it leaves open: when the driver
sleeps, which address it opens, what makes it drop bytes (a timeout never does), and how it comes
back. The decisions themselves are checked against the constructor's table, written out as data.

The law is about the line between driver and modem. It does not promise delivery to the server: it
knows nothing of TCP sessions, and the driver can open a new one without a word to the application
and without giving up the bytes of the old one. `Sessions` says exactly when, and `Scenarios` gives
input sequences from power-up that provably lead there, and to the other exceptional behaviour.

## Files

| file | content |
|---|---|
| `Bytes.dfy` | C strings, searches, decimal numbers, `snprintf` and `strtoul` |
| `States.dfy`, `Commands.dfy` | the states with their fixed commands; the commands that carry data |
| `AckReply.dfy`, `LengthReply.dfy` | the `+QISACK`, `+QIRD` and `+QIRDI` parsers as loops over byte buffers, and what they accept |
| `SendBuffer.dfy` | the bounded buffer with its in-place shift |
| `Trace.dfy`, `TraceTheorems.dfy` | the event log, its law, and the consequences of the law for any log |
| `Machine.dfy` | the decisions (`Fire`), the actions, one step (`Step`) and a run (`Run`) |
| `Table.dfy` | the constructor's table as data, an engine that picks the first true edge, and the proof that `Machine` is that engine on that table |
| `Safety.dfy` | the inductive invariant and its preservation by every step |
| `Accounts.dfy`, `Runs.dfy` | running accounts; theorems about whole runs from power-up |
| `Callbacks.dfy` | what every step may add to the log, and which calls of the driver an application hears |
| `Sessions.dfy` | when a connection is opened, given up and announced, and what `disconnect` stops |
| `Recovery.dfy` | what it takes to give bytes up, and the ways back that give up none: cancelled sends, exhausted polls, soft resets, a silent modem |
| `Scenarios.dfy` | concrete runs from power-up: into sleep and out of it, and to the exceptional behaviour |
| `Drain.dfy`, `Receive.dfy` | progress: the send, SMS and receive loops against a modem that answers, the last one while more arrives |
| `Mc60Modem.dfy` | the driver object, updated in place, proved to be the machine |

## How the driver is modelled

- **The engine.** libstatemachine is not part of the repository. One `Tick` looks at the
  conditions of the current state's own edges; the first true edge in declaration order fires, its
  action runs, then the target's entry action, as one step. Conditions on received text, pins and
  time are chosen freely by the environment; conditions on the driver's own data (buffer size,
  counters, flags, counts, address and port, accepted length) are computed. The two global
  transitions may fire in any state that does not suppress them; the `+QIRDI` rule may set its flag
  in any state. `power (true)` jumps to RESET_STAGE_DECIDE and runs its entry action. Exit actions
  in this machine are delays only.
- **Calls.** `send`, `connect`, `disconnect`, `power`, pushing an SMS, and changing the callback or
  the sleep flag happen between steps, in any order and number. A callback that calls back into the
  driver is a call between two steps.
- **The log.** Every accepted, transmitted, removed or dropped byte, every parsed ack reply and every
  callback is an event of `Modem.log`. The log is written only; no step reads it. Callback events
  carry whether a callback was installed.
- **Function-local statics** of the constructor (`bytesToSendInSendStage`, the retry counters,
  `sent`, `acked`, `nAcked`) are fields, since one driver object exists.
- **Integers.** `unsigned long` has 32 bits on the Cortex-M target; `strtoul` saturates, and the
  conversion to `int` wraps. Stored lengths are `size_t`. The end of an event terminates its text.
- **`Error_Handler`** (a length tail of ten bytes or more) halts the driver.
- **A full SMS queue** refuses the message, which the container's own bounds check stands for.

Seven things the code does that a reader might not expect; each is stated exactly, and for the first
four an input sequence from power-up is proved to lead there:

- Any ack reply that is not a complete triple reads as (0, 0, 0) and counts as "everything
  acknowledged" (`AckReply.AllAckedExactly`, `Runs.DeclareExactly`). A reply cut off before its
  second comma, such as "+QISACK: 1,0", therefore declares the window sent
  (`Scenarios.DeclaredWithoutAck`).
- A session found open by CHECK_CONNECTION runs without `connected` being set
  (`Sessions.SessionConnectedExactly`, `Scenarios.UnconnectedSession`). A soft reset or a shutdown
  leaves `connected` set (`Sessions.ConnectionChangesExactly`).
- A new connection is opened without any callback, and the bytes accepted for the old one are kept,
  exactly when CHECK_CONNECTION or CHECK_CONNECTION_PRE_SEND finds the modem without a connection
  while the flag is set, whether after a soft reset or because the server went away
  (`Sessions.OpenedUnannouncedExactly`, `Scenarios.UnannouncedReopen`).
- Without a callback, which is the constructor's default, received bytes are read out of the modem
  and thrown away (`Receive.DeliverTick`, `Receive.PendingIsHandedOver`, `Scenarios.DataThrownAway`).
  A callback that is installed later can hear onDisconnected first (`Scenarios.LateCallback`); one
  that is there from the start hears the two in alternation (`Callbacks.HeardAlternate`).
- An indication of new data that comes between the modem's empty read and the driver's taking of its
  OK is forgotten: the loop ends with the flag clear and those bytes pending
  (`Receive.PendingIsHandedOver`, `Receive.ForgottenIndication`).
- The comment in `disconnect` says that it prevents a reconnect. Called outside a session (bring-up,
  reset, shutdown, waiting for the first connect) it does, for good; called anywhere in a session
  it does not: without another `connect` the driver can come to send an open command
  (`Sessions.DisconnectStopsExactly`), which is then always one for the empty address and port 0
  (`Sessions.OpensNowhereAfterDisconnect`).
- The open command is cut by its 64-byte buffer when address and port together take more than 40
  bytes (`Commands.QiopenWholeExactly`).

## Model

| member | source | states |
|---|---|---|
| Bytes.Search | src/mc60Modem/QueryRecvAction.h:136-137 | the library search returns the first occurrence of the pattern, or the end when there is none |
| Bytes.FindByte | src/mc60Modem/QueryRecvAction.h:141-149 | the library find returns the first such byte at or behind the cursor, or the end |
| Bytes.StrtoulReadsDecimal | src/mc60Modem/QueryAckAction.h:69-83 | a printed number is read back whatever blanks stand before it and whatever non-digit follows |
| Bytes.StrtoulReads | src/mc60Modem/QueryRecvAction.h:163-163 | a printed number of any size and sign is read back saturated at 2^32-1 and negated modulo 2^32, behind any of the six blanks and before anything but a digit |
| Bytes.StrtoulNeedsDigit | src/mc60Modem/QueryRecvAction.h:163-163 | where no digit stands behind blanks and a sign, the value is zero |
| Bytes.StrtoulStopsAtNul | src/mc60Modem/QueryRecvAction.h:161-163 | bytes behind the terminator never influence the number read |
| Commands.AnnouncementRoundTrip | src/mc60Modem/SendNetworkAction.cc:36-39 | the `AT+QISEND=` line fits its 26-byte buffer, ends in CR LF and parses back to the announced number, for every 32-bit number |
| Commands.QiopenWholeExactly | src/mc60Modem/Mc60Modem.cc:325-331 | the open command is sent whole if and only if address and port take at most 40 bytes together |
| Commands.QiopenReadsBack | src/mc60Modem/Mc60Modem.cc:325-331 | an open command sent whole, read back as quoted fields, names the protocol, the address and the port, in this order |
| Commands.SmsCommandsWhole | src/modem/SmsSendSingleAction.cc:24-33 | no number or body of the declared sizes is cut by the command buffer, and the terminators are there |
| Commands.SmsTexts | src/modem/SmsSendSingleAction.cc:24-33 | the first command of a message carries its number as a quoted text, the second its body up to Ctrl-Z |
| AckReply.StrChr | src/mc60Modem/QueryAckAction.h:62-72 | finds the first separator of the C string at the cursor, null when the string ends before one |
| AckReply.CutField | src/mc60Modem/QueryAckAction.h:62-68 | overwriting the comma splits the text at its first comma into two C strings; without a comma the copy is untouched |
| AckReply.ReadLastTwo | src/mc60Modem/QueryAckAction.h:72-83 | both remaining counts are read from their own fields, or neither |
| AckReply.ReadFields | src/mc60Modem/QueryAckAction.h:60-83 | the cursor-moving, cutting reader computes the specification of the three fields |
| AckReply.ReadAck | src/mc60Modem/QueryAckAction.h:43-95 | for every event the three stored counts are those of the specification `AckOf` |
| AckReply.AckOfReply | src/mc60Modem/QueryAckAction.h:49-83 | behind marker-free text, the marker and two separators, each count is the number its own field begins with |
| AckReply.AckOfAnything | src/mc60Modem/QueryAckAction.h:43-78 | no partial triple: every event is a complete reply or reads as (0, 0, 0) |
| AckReply.OneCommaReadsNothing | src/mc60Modem/QueryAckAction.h:72-77 | a reply cut off before its second comma reads as (0, 0, 0), whatever numbers it holds |
| AckReply.AckRoundTrip | src/mc60Modem/QueryAckAction.h:43-95 | noise without a marker, the marker and three printed counts below 2^31 read back as exactly these counts |
| AckReply.AckExamples | src/mc60Modem/QueryAckAction.h:54-83 | two replies as the modem prints them, one of them behind its echo, read as their counts |
| AckReply.AllAckedExactly | src/mc60Modem/Mc60Modem.cc:455-465 | the "all acked" condition holds if and only if the event is not a complete reply, or its first two numbers agree |
| LengthReply.StartsWith | src/mc60Modem/QueryRecvAction.h:132-139 | size test and search together decide exactly whether the event begins with the pattern |
| LengthReply.FindSecondComma | src/mc60Modem/QueryRecvAction.h:141-149 | the two searches in a row stop at the second comma, or at the end |
| LengthReply.ReadTail | src/mc60Modem/QueryRecvAction.h:151-163 | the copy into the zeroed local buffer reads the tail's own number, or faults when the tail does not fit |
| LengthReply.CheckRecvLength | src/mc60Modem/QueryRecvAction.h:130-171 | accepted, faulted and stored length are those of the specification; a failed guard leaves the stored length alone |
| LengthReply.RecvLengthOfHeader | src/mc60Modem/QueryRecvAction.h:129-163 | in a header only the text behind the second comma decides |
| LengthReply.RecvAcceptsExactly | src/mc60Modem/QueryRecvAction.h:130-171 | accepted if and only if prefix, comma-free host, comma-free protocol and a tail of at most 9 bytes with a positive number |
| LengthReply.RecvHeaderOf | src/mc60Modem/QueryRecvAction.h:132-149 | every event that gets past the guards has the documented shape |
| LengthReply.RecvRoundTrip | src/mc60Modem/QueryRecvAction.h:129-171 | a printed header with a length below 10^9 stores that length |
| LengthReply.RecvExample | src/mc60Modem/QueryRecvAction.h:129-129 | the reply the source calls typical stores 4 |
| LengthReply.FindLast | src/mc60Modem/QirdiParseAction.h:48-51 | the reverse search stops at the last comma: none follows it |
| LengthReply.CheckQirdi | src/mc60Modem/QirdiParseAction.h:37-72 | accepted, faulted and stored length are those of the specification; a failed guard stores nothing |
| LengthReply.QirdiLengthOfTail | src/mc60Modem/QirdiParseAction.h:48-64 | only the last field decides, whatever the earlier fields hold |
| LengthReply.QirdiRoundTrip | test/01QirdiTest.cc:17-36 | any fields followed by a printed length below 10^9 store that length, accepted if and only if it is positive |
| LengthReply.QirdiAcceptsExactly | test/01QirdiTest.cc:38-50 | accepted if and only if prefix, a comma, and a last field of at most 9 bytes with a positive number; so never without a comma |
| LengthReply.QirdiExamples | test/01QirdiTest.cc:17-50 | the three indications of the test read as 1332, 2691 and 2693, and its two others are refused |
| SendBuffer.DropFirst | src/mc60Modem/SendNetworkAction.cc:57-67 | what a declare leaves: together with the removed prefix it is the old buffer, and it is empty when n reaches the size |
| SendBuffer.Buffer.constructor | src/Types.h:13-14 | a fresh buffer of 6144 bytes is empty |
| SendBuffer.Buffer.Append | src/mc60Modem/Mc60Modem.cc:597-605 | all or nothing: the bytes are appended in order when they fit, and nothing changes when they do not |
| SendBuffer.Buffer.Clear | src/mc60Modem/Mc60Modem.cc:675-675 | the buffer is empty |
| SendBuffer.Buffer.Transmitted | src/mc60Modem/SendNetworkAction.cc:47-53 | the transmitted bytes are the first n of the buffer |
| SendBuffer.Buffer.DeclareRead | src/mc60Modem/SendNetworkAction.cc:57-67 | the overlapping forward copy and the shrink drop exactly the first n bytes, for every buffer and every n |
| TraceTheorems.Conservation | src/mc60Modem/Mc60Modem.cc:597-605 | removed bytes are a prefix of accepted bytes, and at most 6144 are outstanding |
| TraceTheorems.ChunksAreSlices | src/mc60Modem/SendNetworkAction.cc:47-53 | every payload on the wire is a contiguous slice of the accepted stream, at the position where removal stopped |
| TraceTheorems.ChunksInOrder | src/mc60Modem/Mc60Modem.cc:396-485 | payload positions never go back |
| TraceTheorems.NoGap | src/mc60Modem/Mc60Modem.cc:396-485 | removal never gets past the end of the last payload except by a drop, so cancels and reconnects can repeat bytes but not skip them |
| TraceTheorems.RemovedWasSentOrDropped | src/mc60Modem/Mc60Modem.cc:396-485 | at least once: every byte that left the buffer was in some payload, or was dropped by a disconnect |
| TraceTheorems.DeclaredWasSent | src/mc60Modem/Mc60Modem.cc:433-479 | a declared chunk is the last payload before it, byte for byte and at the same stream position |
| TraceTheorems.DeclaredWasAcked | src/mc60Modem/Mc60Modem.cc:455-479 | between that payload and the declare, the last ack reply read had equal sent and acked counts |
| TraceTheorems.PayloadWasAnnounced | src/mc60Modem/SendNetworkAction.cc:21-53 | the transmission just before a payload is a command whose text parses to exactly the payload's length |
| TraceTheorems.AtMostTenPolls | src/mc60Modem/Mc60Modem.cc:440-466 | at most ten ack replies are parsed per payload |
| TraceTheorems.DeclaredWithinNinePolls | src/mc60Modem/Mc60Modem.cc:462-466 | a declare follows at least one and at most nine replies, since the limit edge precedes the acked edge |
| TraceTheorems.NotesAlternate | src/mc60Modem/Mc60Modem.cc:652-680 | the driver's notifications, heard or not, strictly alternate, starting with onConnected |
| TraceTheorems.DropsPairWithNotes | src/mc60Modem/Mc60Modem.cc:668-680 | every drop empties the buffer and is followed by onDisconnected at once, unless it is the last event and the log waits for that note; every onDisconnected follows a drop |
| TraceTheorems.SentReportsLastDeclared | src/mc60Modem/Mc60Modem.cc:469-479 | each call of onSent carries the length of the last declared chunk, and no chunk is reported twice |
| TraceTheorems.SmsInOrder | src/modem/Sms.h:20-20 | messages leave in the order they were queued, and at most four wait |
| TraceTheorems.RemovedSmsWasOffered | src/modem/SmsSendSingleAction.cc:24-37 | the message removed is the oldest one; the text with its own number went out, then the text with its own body, with no other transmission between them or before the removal |
| Safety.OutsideEdges | src/mc60Modem/Mc60Modem.cc:149-308 | no bring-up, reset or shutdown edge touches session data, and the only edge into a session leads from the waiting state, with an address known, to CHECK_CONNECTION |
| Safety.WaysToSend | src/mc60Modem/Mc60Modem.cc:396-437 | the table read backwards: which states and data conditions lead to WAKE, the pre-send check, PREPARE and SEND |
| Safety.WaysToAck | src/mc60Modem/Mc60Modem.cc:445-466 | the only ways into the ack loop and to the declare, with the counter action each takes |
| Safety.WaysToSms | src/mc60Modem/Mc60Modem.cc:491-506 | NUMBER only with a message waiting, BODY only after NUMBER, REMOVE only after BODY |
| Safety.FireIsReady | src/mc60Modem/Mc60Modem.cc:306-506 | whatever edge fires from a state that satisfies the invariant, its action may run and its target finds what it relies on |
| Safety.SendEntry | src/mc60Modem/SendNetworkAction.cc:47-53 | transmitting the announced window keeps the law and leaves it in flight |
| Safety.DeclareEntry | src/mc60Modem/SendNetworkAction.cc:57-67 | the declare removes exactly the payload in flight |
| Safety.SmsRemoveEntry | src/modem/SmsSendSingleAction.cc:35-37 | the removed message is the head, offered just before |
| Safety.OnDisconnectedKeepsBase | src/mc60Modem/Mc60Modem.cc:668-680 | clearing the buffer books every remaining byte as dropped, followed by its notification |
| Safety.TickKeepsInv | src/mc60Modem/Mc60Modem.cc:137-532 | one step of the machine keeps law and invariant |
| Safety.StepKeepsInv | src/mc60Modem/Mc60Modem.cc:137-605 | so does every call of the application, global transition and reset |
| Safety.Reachable | src/mc60Modem/Mc60Modem.cc:89-605 | the invariant holds after every sequence of inputs from power-up |
| Runs.EveryRun | src/mc60Modem/Mc60Modem.cc:597-680 | on every run the log is lawful, accepted bytes are the removed ones followed by the buffer, `connected` is the last notification, queued messages are the removed ones followed by the waiting ones, and no drop waits for its notification |
| Runs.EveryDropIsNoted | src/mc60Modem/Mc60Modem.cc:668-680 | on every run each drop is followed by onDisconnected at once |
| Runs.EveryRunBalances | src/mc60Modem/Mc60Modem.cc:469-479 | what `send` took equals removed plus buffered bytes; the messages pushed while fewer than four waited are the removed ones followed by the waiting ones; the onSent lengths, heard and unheard, sum to the declared bytes minus the chunks whose DECLARE state was left another way |
| Runs.PrepareNeverZero | src/mc60Modem/Mc60Modem.cc:433-437 | on every run PREPARE announces between 1 and 1460 bytes, so its edge for zero bytes is dead |
| Runs.NonEmptyFromWakeToPrepare | src/mc60Modem/Mc60Modem.cc:402-414 | from WAKE to PREPARE the buffer is never empty |
| Runs.WindowIsFrozen | src/mc60Modem/Mc60Modem.cc:433-466 | while the machine stays between PREPARE and the declare, the window keeps its length and bytes under every interleaving |
| Runs.PollCounter | src/mc60Modem/Mc60Modem.cc:440-466 | while polling, `ackQueryRetryNo` is the number of completed replies since the last payload, and at most nine |
| Runs.ParseTick | src/mc60Modem/Mc60Modem.cc:462-466 | DECLARE is entered if and only if the connection is not reported closed, the limit is not reached and the counts are equal |
| Runs.DeclareExactly | src/mc60Modem/QueryAckAction.h:43-83 | poll and parse together declare the bytes if and only if not closed, within the limit, and the reply is unreadable or has equal counts |
| Runs.DeclaredByReply | src/mc60Modem/Mc60Modem.cc:440-466 | on every run, the bytes of a round are declared by the replies one to nine to its polls, if unreadable or with equal counts, and never by the tenth |
| Runs.SleepIsSafe | src/mc60Modem/Mc60Modem.cc:396-403 | SLEEP is entered only with an empty buffer, and left only to WAKE with bytes to send, or by a restart |
| Runs.SleepsExactly | src/mc60Modem/Mc60Modem.cc:396-402 | SLEEP is entered if and only if a tick finds NETWORK_BEGIN_SEND, an empty buffer, sleeping allowed and no report of a closed connection; then "AT+QSCLK=2" is sent |
| Runs.WakesExactly | src/mc60Modem/Mc60Modem.cc:402-403 | a sleeping driver wakes at a tick if and only if there are bytes to send |
| Runs.NewDataClearedOnlyByEmptyRead | src/mc60Modem/Mc60Modem.cc:356-364 | the new-data flag is cleared only by a read that was answered without an accepted length |
| Runs.TakenExactly | src/mc60Modem/Mc60Modem.cc:366-377 | a reception ends if and only if exactly the announced number of bytes came, and OK |
| Runs.HaltsExactly | src/mc60Modem/QueryRecvAction.h:153-159 | the driver halts if and only if a header with a tail of ten bytes or more comes in while it waits for one |
| Callbacks.StepGrows | src/mc60Modem/Mc60Modem.cc:652-687 | every call a step makes is delivered if and only if a callback is installed, and every open command is for the address held |
| Callbacks.CallsOfRun | src/mc60Modem/Mc60Modem.cc:652-687 | while the callback stays as it was at the start, every call of a run is delivered, or none is |
| Callbacks.HoldsLastSettings | src/mc60Modem/Mc60Modem.h:61-61 | on every run the callback and the sleep flag are what the application set last, and sleeping is allowed if it set nothing |
| Callbacks.HeardAlternate | src/mc60Modem/Mc60Modem.cc:652-680 | an application whose callback is there from the start hears onConnected and onDisconnected in strict alternation, and `connected` is what it heard last |
| Callbacks.HeardBalances | src/mc60Modem/Mc60Modem.cc:469-479 | the lengths it is given by onSent sum to the declared bytes minus the abandoned chunks, and nothing is thrown away |
| Sessions.QuietRun | src/mc60Modem/Mc60Modem.cc:149-308 | outside a session, without an address and without a `connect`, no open command is ever sent and no session entered |
| Sessions.NoOpenBeforeConnect | src/mc60Modem/Mc60Modem.cc:306-308 | from power-up nothing is opened before the first `connect` |
| Sessions.SessionReopens | src/mc60Modem/Mc60Modem.cc:314-506 | from every state of a session some behaviour of modem and application, without a `connect`, leads to an open command |
| Sessions.DisconnectStopsExactly | src/mc60Modem/Mc60Modem.cc:588-593 | after `disconnect` an open command can still be sent without a new `connect` if and only if it was called during a session |
| Sessions.DisconnectMovesTickExactly | src/mc60Modem/Mc60Modem.cc:306-308 | `disconnect` changes where some single tick leads if and only if the driver waits for its first connect with an address set |
| Sessions.OpensNowhereAfterDisconnect | src/mc60Modem/Mc60Modem.cc:325-331 | after `disconnect` and without a new `connect`, every open command of any run is for the empty address and port 0 |
| Sessions.HoldsLastTarget | src/mc60Modem/Mc60Modem.cc:566-593 | on every run the driver holds the address and port of the last `connect`, or none after a `disconnect` |
| Sessions.OpensWhereConnected | src/mc60Modem/Mc60Modem.cc:325-331 | from a `connect` until the next `connect` or `disconnect`, every open command of any run is for its address and port |
| Sessions.DisconnectDoesNotStopReconnect | src/mc60Modem/Mc60Modem.cc:314-334 | after `disconnect` a confirmed close still opens again, with an empty address and port 0 |
| Sessions.ConnectionChangesExactly | src/mc60Modem/Mc60Modem.cc:652-680 | `connected` rises exactly when an open command succeeds, and falls exactly on restart, hard reset, confirmed close or cancelled send |
| Sessions.SessionConnectedExactly | src/mc60Modem/Mc60Modem.cc:318-334 | a session starts with `connected` set if and only if this driver opened it or the flag was set before |
| Sessions.OpenedFrom | src/mc60Modem/Mc60Modem.cc:314-334 | CONNECT_TO_SERVER is entered only from three states, with `connected` still set if and only if it was set and the state was a connection check; never from CLOSE_AND_RECONNECT |
| Sessions.ConnectOkTick | src/mc60Modem/Mc60Modem.cc:332-333 | success is announced if and only if the flag was clear; the buffer stays |
| Sessions.OpenedUnannouncedExactly | src/mc60Modem/Mc60Modem.cc:318-334 | from the check to the success, however long it takes and whatever is called meanwhile, the application hears nothing if and only if the check left the flag standing; its old bytes are then still in front |
| Scenarios.UnconnectedSession | src/mc60Modem/Mc60Modem.cc:318-320 | a run from power-up into a session with `connected` clear |
| Scenarios.UnannouncedReopen | src/mc60Modem/Mc60Modem.cc:412-414 | a run from power-up in which a second connection is opened with two commands and no callback, the accepted byte kept |
| Scenarios.ShortReplyDeclares | src/mc60Modem/QueryAckAction.h:72-77 | for all counts, a reply without its second comma declares the whole window sent in two ticks, within the poll limit |
| Scenarios.DeclaredWithoutAck | src/mc60Modem/Mc60Modem.cc:451-479 | a run from power-up in which the only reply, "+QISACK: 1,0", declares the byte sent |
| Scenarios.DataThrownAway | src/mc60Modem/Mc60Modem.cc:368-377 | a run from power-up without a callback in which a received byte is thrown away |
| Scenarios.LateCallback | src/mc60Modem/Mc60Modem.cc:668-680 | a run in which a callback installed during a session hears onDisconnected and never onConnected |
| Scenarios.FallsAsleep | src/mc60Modem/Mc60Modem.cc:396-402 | a run from power-up into SLEEP |
| Scenarios.SleepsAndSends | src/mc60Modem/Mc60Modem.cc:402-449 | a run from power-up that is asleep when it is given bytes, any 1 to 1460 of them, and transmits exactly these |
| Recovery.DropsNeedCauses | src/mc60Modem/Mc60Modem.cc:314-334 | without a restart and without a tick that reports closed, error, a failed send or connect, the cancel prompt, or the hard-reset delay, no run drops a byte; timeouts, soft resets and polls in vain are not causes |
| Recovery.DropHasCause | src/mc60Modem/Mc60Modem.cc:314-485 | on every run each drop goes back to such an input, in its own step or an earlier one, with no drop in between |
| Recovery.TimeoutKeepsBytes | src/mc60Modem/Mc60Modem.cc:445-449 | a transmission that times out goes to CANCEL_SEND, and "SEND OK" there to CHECK_CONNECTION, with two commands as its only effect |
| Recovery.ExhaustedPollsKeepBytes | src/mc60Modem/Mc60Modem.cc:462-464 | so does one that was polled in vain nine times over |
| Recovery.CancelledAtSamePosition | src/mc60Modem/Mc60Modem.cc:483-484 | a cancelled transmission removes nothing, so that the next payload starts at the same position of the stream |
| Recovery.CancelledIsSentAgain | src/mc60Modem/Mc60Modem.cc:318-449 | with a modem that answers again, six moves later the front of the same buffer has gone out once more and nothing was declared |
| Recovery.WayUp | src/mc60Modem/Mc60Modem.cc:149-308 | with good answers, bring-up and soft reset lead to CHECK_CONNECTION in a fixed number of ticks per state, with all that belongs to the session unchanged |
| Recovery.SoftResetComesBack | src/mc60Modem/Mc60Modem.cc:137-170 | a soft reset answered by "SHUT OK" and 20 more good answers asks for the connection again, with all its bytes, and drops nothing |
| Recovery.InitIsLeft | src/mc60Modem/Mc60Modem.cc:172-180 | a modem silent in INIT keeps the driver there for as many seconds as are missing to six, and not for one more; then the count starts anew |
| Table.FireFollowsTable | src/mc60Modem/Mc60Modem.cc:137-532 | in every state, for all data and all conditions, the machine takes the first true edge of the constructor's table in declaration order |
| Table.EnterFollowsTable | src/mc60Modem/Mc60Modem.cc:149-532 | entering a state runs the entry action of its row, and a plain command is the text of its row |
| Table.GlobalsFollowTable | src/mc60Modem/Mc60Modem.cc:137-138 | the two global transitions are taken from every state but the four whose rows suppress them |
| Table.TickFollowsTable | src/mc60Modem/Mc60Modem.cc:137-532 | one tick of the machine is one step of the engine on the table |
| Drain.CooperativeEdge | src/mc60Modem/Mc60Modem.cc:396-506 | with a modem that answers well, the whole table around the send round reduces to one way through |
| Drain.ProgramStep | src/mc60Modem/Mc60Modem.cc:396-506 | a tick with such a modem is one step of a simple sequential program |
| Drain.ProgramRun | src/mc60Modem/Mc60Modem.cc:396-506 | any such run of the machine, with any waiting between the answers, is the program's run |
| Drain.CooperationExists | src/mc60Modem/Mc60Modem.cc:396-506 | a modem can answer well for as many moves as the program can take |
| Drain.WindowsAreTheBuffer | src/mc60Modem/SendNetworkAction.h:26-30 | the windows concatenate to the buffer, are ceil(L/1460) many, at most five, none empty or over 1460 |
| Drain.OneRound | src/mc60Modem/Mc60Modem.cc:396-506 | a round sends, declares and reports exactly one window, removes all waiting messages and returns to BEGIN_SEND |
| Drain.MachineDrains | src/mc60Modem/Mc60Modem.cc:396-479 | undisturbed, with any waiting between the answers, the buffer empties after exactly ceil(L/1460) rounds; payloads and declared chunks are its windows, and the onSent lengths, heard if and only if a callback is installed, are theirs |
| Drain.MessageLoopEnds | src/mc60Modem/Mc60Modem.cc:491-506 | undisturbed, the message loop ends after exactly four moves per waiting message, and touches no bytes |
| Receive.DeliverTick | src/mc60Modem/Mc60Modem.cc:368-377 | the tick that ends a reception gives the bytes to the application if and only if a callback is installed, and throws them away otherwise |
| Receive.HappeningsExist | src/mc60Modem/Mc60Modem.cc:356-377 | the assumed modem can go on until the loop ends, and one that hands out single bytes uses up the bound |
| Receive.ReceiveCompletes | src/mc60Modem/Mc60Modem.cc:351-377 | from anywhere in the loop, however the modem cuts its data, whenever it reads and replies and whatever arrives meanwhile, the loop ends within its bound; nothing is lost on the way to the hand-over, duplicated or reordered; the flag is cleared by the last tick and not before |
| Receive.LateExactly | src/mc60Modem/Mc60Modem.cc:356-364 | what is still with the modem at the end arrived after its last read |
| Receive.PendingIsHandedOver | src/mc60Modem/Mc60Modem.cc:351-377 | from CHECK_RECEIVE, within three ticks per byte and two more, onData gets (or, without a callback, the driver throws away) what was pending and what arrived, in order, less what is still pending; something is, with the flag clear, if and only if it arrived after the last read |
| Receive.ForgottenIndication | src/mc60Modem/Mc60Modem.cc:361-363 | an indication that comes before the OK of an empty read is taken is forgotten with its bytes |
| Mc60.SendIsCovered | src/mc60Modem/SendNetworkAction.cc:52-52 | whenever the edge into NETWORK_SEND fires, the bytes it transmits are in the buffer |
| Mc60.Mc60Modem.constructor | src/mc60Modem/Mc60Modem.h:72-82 | a new driver is the machine at power-up, and satisfies the invariant that every call and step keeps |
| Mc60.Mc60Modem.Send | src/mc60Modem/Mc60Modem.cc:597-605 | the object after `send` is the machine after the call; the result is the number of bytes taken |
| Mc60.Mc60Modem.Connect | src/mc60Modem/Mc60Modem.cc:566-584 | stores address and port, changes nothing else, always succeeds |
| Mc60.Mc60Modem.Disconnect | src/mc60Modem/Mc60Modem.cc:588-593 | forgets address and port, changes nothing else |
| Mc60.Mc60Modem.PowerOn | src/mc60Modem/Mc60Modem.cc:559-561 | resets the machine and runs the entry action of RESET_STAGE_DECIDE |
| Mc60.Mc60Modem.PushSms | src/mc60Modem/Mc60Modem.h:63-63 | queues the message at the end unless four wait |
| Mc60.Mc60Modem.IsSending | src/mc60Modem/Mc60Modem.h:47-47 | true if and only if bytes are waiting |
| Mc60.Mc60Modem.OnConnected | src/mc60Modem/Mc60Modem.cc:652-664 | sets the flag and notifies, only when it was not set |
| Mc60.Mc60Modem.OnDisconnected | src/mc60Modem/Mc60Modem.cc:668-680 | clears flag and buffer and notifies, only when the flag was set |
| Mc60.Mc60Modem.OnSent | src/mc60Modem/Mc60Modem.cc:682-687 | notifies with the window's length |
| Mc60.Mc60Modem.Prepare | src/mc60Modem/SendNetworkAction.cc:21-43 | clamping to the limit and then to the buffer chooses the window of the machine, and announces it unless it is zero |
| Mc60.Mc60Modem.SendStage | src/mc60Modem/SendNetworkAction.cc:47-53 | transmits the window from the buffer in place, unless it is zero |
| Mc60.Mc60Modem.DeclareStage | src/mc60Modem/SendNetworkAction.cc:57-67 | the in-place shift is the machine's declare |
| Mc60.Mc60Modem.QueryAck | src/mc60Modem/Mc60Modem.cc:455-462 | the three counts are set by the reply parser |
| Mc60.Mc60Modem.SmsStage | src/modem/SmsSendSingleAction.cc:15-41 | NUMBER, BODY and REMOVE act on the head of the queue, and do nothing on an empty one |
| Mc60.Mc60Modem.CheckLength | src/mc60Modem/Mc60Modem.cc:348-357 | the length condition stores into `bytesReceived` only in its own state, and reports acceptance |
| Mc60.Mc60Modem.Tick | src/mc60Modem/Mc60Modem.cc:137-532 | the object's step is the machine's step |
| Mc60.Mc60Modem.SoftReset | src/mc60Modem/Mc60Modem.cc:137-137 | the soft reset is the machine's, with nothing done where global transitions are suppressed |
| Mc60.Mc60Modem.SwitchOff | src/mc60Modem/Mc60Modem.cc:138-138 | the same for the queued "_OFF" |
| Mc60.Mc60Modem.OnDataIndication | src/mc60Modem/Mc60Modem.cc:141-143 | sets the new-data flag and nothing else |

## Left out

- MachineDrains: assumes no new data, bytes or messages while it drains, and a modem that answers well and acknowledges the first poll of each window after any waiting; the number of rounds is a statement about an undisturbed buffer. The safety theorems assume nothing of this.
- ReceiveCompletes: the line sink's switch to raw bytes (`receiveBytes`) is represented by its result, the next event carrying as many raw bytes as were asked for, and an indication is consumed when its bytes arrive; LineSink and the event queue are not part of this model.
- Delivery of messages: an SMS answered by `+CMS ERROR` is removed like one that was accepted, as in the code; nothing is claimed about delivery.
- Real time: delays and timeouts are events that may happen at any moment; which of two timeouts comes first is not modelled.
- The engine and its matchers (libstatemachine, text conditions, event queues, BufferedCharacterSink) are replaced by the step described above; losing an event because a queue is full is not modelled, and `power (false)` is the moment its "_OFF" is consumed.
- USART, GPIO, the power key and debug printing: only the logged transmissions remain.
- The capacity of the `string` type that holds the address; its declaration is not in the repository.
- The BG96 and ESP8266 drivers, which repeat the three-stage send over a container the repository does not hold.
- SMS_CHECK, `newSmsToReceive`, `ParseRecvLengthAction` and the commented-out parsers: no edge of the machine reaches them.
- `setCallback` and `sleepWhenNothingToSend` are plain fields; they appear as inputs of the machine, not as methods of the object.
