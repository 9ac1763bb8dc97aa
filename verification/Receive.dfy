/** The receive loop against a modem that holds bytes for the driver, while more arrive. */
module Receive {
  import opened Bytes
  import opened States
  import opened Commands
  import opened AckReply
  import opened LengthReply
  import opened SendBuffer
  import opened Trace
  import opened Machine
  import opened Accounts
  import opened Runs

  const MAX_MODEM_RECEIVE_BATCH_SIZE: nat := 1500

  // ------------------------------------------------------------- driver and modem

  /**
   The driver; the bytes the modem still holds for it; what the modem found when it carried
   out the read command, until the driver takes the reply; the bytes of that reply; and the
   bytes that arrived since that read.
   */
  datatype Link = Link(
    driver: Modem, pending: seq<Byte>, found: Option<nat>, answer: seq<Byte>, late: seq<Byte>)

  /** Bytes arrive with their indication, the modem carries out a read, the driver takes a tick. */
  datatype Happening = Arrival(bytes: seq<Byte>) | Reading(cut: nat) | Look(env: Env)

  /** Nothing the state waits for is there. */
  predicate Idles(l: Link, env: Env) {
    TickMachine(l.driver, env) == l.driver
  }

  /**
   The reply to a read is a header for the part that was handed out, or a bare OK when nothing
   was there; then come the raw bytes, of which the line sink collects as many as the driver
   asked it to.
   */
  ghost predicate Replies(l: Link, env: Env) {
    && (l.driver.state.NetworkBeginReceive? ==>
          && l.found.Some?
          && (l.found.value > 0 ==>
                exists host, proto :: IsRecvHeader(env.event, host, proto, Decimal(l.found.value)))
          && (l.found.value == 0 ==>
                && CommandOk in env.holds
                && !exists host, proto, tail :: IsRecvHeader(env.event, host, proto, tail)))
    && (l.driver.state.NetworkReceive? ==> Ok in env.holds && env.event == Prefix(l.answer, l.driver.bytesReceived))
  }

  /** A read hands out some of what is pending, at most a batch, and finds nothing only when nothing is. */
  ghost predicate Possible(l: Link, h: Happening) {
    match h
    case Arrival(_) => true
    case Reading(cut) =>
      && l.driver.state.NetworkBeginReceive? && l.found == None
      && cut <= |l.pending| && cut <= MAX_MODEM_RECEIVE_BATCH_SIZE
      && (cut == 0 ==> l.pending == [])
    case Look(env) => Idles(l, env) || Replies(l, env)
  }

  function Happen(l: Link, h: Happening): Link {
    match h
    case Arrival(bytes) =>
      l.(driver := Step(l.driver, DataIndication), pending := l.pending + bytes, late := l.late + bytes)
    case Reading(cut) =>
      var n := if cut <= |l.pending| then cut else |l.pending|;
      l.(found := Some(n), answer := l.pending[..n], pending := l.pending[n..], late := [])
    case Look(env) =>
      if Idles(l, env) then l
      else l.(driver := TickMachine(l.driver, env), found := None,
              answer := if l.driver.state.NetworkReceive? then [] else l.answer)
  }

  function After(l: Link, hs: seq<Happening>): Link
    decreases |hs|
  {
    if hs == [] then l else After(Happen(l, hs[0]), hs[1..])
  }

  ghost predicate PossibleThroughout(l: Link, hs: seq<Happening>)
    decreases |hs|
  {
    hs == [] || (Possible(l, hs[0]) && PossibleThroughout(Happen(l, hs[0]), hs[1..]))
  }

  /** The ticks at which the driver went on. */
  function Advances(l: Link, hs: seq<Happening>): nat
    decreases |hs|
  {
    if hs == [] then 0
    else (if hs[0].Look? && !Idles(l, hs[0].env) then 1 else 0) + Advances(Happen(l, hs[0]), hs[1..])
  }

  function Arrived(hs: seq<Happening>): seq<Byte> {
    if hs == [] then [] else (if hs[0].Arrival? then hs[0].bytes else []) + Arrived(hs[1..])
  }

  predicate InLoop(s: State) {
    s.NetworkCheckReceive? || s.NetworkBeginReceive? || s.NetworkReceive?
  }

  // ------------------------------------------------------------------ single ticks

  lemma CheckTick(m: Modem, env: Env)
    requires !m.halted && m.newData && m.state.NetworkCheckReceive?
    ensures var n := TickMachine(m, env);
      && n.state.NetworkBeginReceive? && n.newData && !n.halted && n.callback == m.callback
      && Booked(n.log) == Booked(m.log)
  {
    hide TickMachine, Observe, Enter, Booked, RecvLength;
    ObserveElsewhere(m, env.event);
    var o, move := TickShape(m, env);
    EnterFrame(m, NetworkBeginReceive, env.event);
    EnterBooks(m, NetworkBeginReceive, env.event);
  }

  lemma HeaderTick(m: Modem, env: Env, k: nat)
    requires !m.halted && m.newData && m.state.NetworkBeginReceive?
    requires k > 0 && RecvLength(env.event) == Parsed(k)
    ensures var n := TickMachine(m, env);
      && n.state.NetworkReceive? && n.newData && !n.halted && n.callback == m.callback
      && n.bytesReceived == k && Booked(n.log) == Booked(m.log)
  {
    var w := m.(bytesReceived := k);
    assert Observe(m, env.event) == w;
    hide TickMachine, Observe, Booked, RecvLength, Enter;
    var o, move := TickShape(m, env);
    SilentEntries(w, env.event);
  }

  lemma SilentEntries(m: Modem, event: seq<Byte>)
    ensures Enter(m, NetworkReceive, event) == m.(state := NetworkReceive)
  {
  }

  /** The tick that ends a reception gives the bytes to the application if and only if it has a callback. */
  lemma DeliverTick(m: Modem, env: Env)
    requires !m.halted && m.newData && m.state.NetworkReceive?
    requires Ok in env.holds && |env.event| == m.bytesReceived
    ensures var n, a := TickMachine(m, env), Booked(m.log);
      && n.state.NetworkCheckReceive? && n.newData && !n.halted && n.callback == m.callback
      && n.log == m.log + [DataNote(env.event, m.callback)]
      && Booked(n.log) == (if m.callback then a.(received := a.received + env.event)
                           else a.(discarded := a.discarded + env.event))
  {
    hide TickMachine, Observe, Booked, RecvLength;
    ObserveElsewhere(m, env.event);
    var o, move := TickShape(m, env);
    BookNext(m.log, DataNote(env.event, m.callback));
  }

  lemma EmptyTick(m: Modem, env: Env)
    requires !m.halted && m.state.NetworkBeginReceive?
    requires RecvLength(env.event).Rejected? && CommandOk in env.holds
    ensures var n := TickMachine(m, env);
      && n.state.NetworkBeginSend? && !n.newData && !n.halted && n.callback == m.callback
      && Booked(n.log) == Booked(m.log)
  {
    assert Observe(m, env.event) == m;
    hide TickMachine, Observe, Booked, RecvLength;
    var o, move := TickShape(m, env);
  }

  lemma NoHeaderIsRejected(event: seq<Byte>)
    requires !exists host, proto, tail :: IsRecvHeader(event, host, proto, tail)
    ensures RecvLength(event).Rejected?
  {
    if !RecvLength(event).Rejected? {
      var host, proto, tail := RecvHeaderOf(event);
    }
  }

  /** The reply is read back as what the modem found. */
  lemma ReplyReads(l: Link, env: Env)
    requires Replies(l, env) && l.driver.state.NetworkBeginReceive? && l.found.Some?
    requires l.found.value <= MAX_MODEM_RECEIVE_BATCH_SIZE
    ensures l.found.value > 0 ==> RecvLength(env.event) == Parsed(l.found.value)
    ensures l.found.value == 0 ==> RecvLength(env.event).Rejected? && CommandOk in env.holds
  {
    hide RecvLength;
    if l.found.value > 0 {
      var host, proto :| IsRecvHeader(env.event, host, proto, Decimal(l.found.value));
      RecvRoundTrip(env.event, host, proto, l.found.value);
    } else {
      NoHeaderIsRejected(env.event);
    }
  }

  // ----------------------------------------------------------------------- the loop

  /** Where the driver may be in the loop, and how that fits the reply under way. */
  predicate OnTrack(l: Link) {
    var m := l.driver;
    && !m.halted && m.newData && InLoop(m.state)
    && (m.state.NetworkCheckReceive? ==> l.found == None && l.answer == [])
    && (m.state.NetworkReceive? ==> l.found == None && l.answer != [] && m.bytesReceived == |l.answer|)
    && (m.state.NetworkBeginReceive? ==>
          match l.found
          case None => l.answer == []
          case Some(k) =>
            k == |l.answer| && k <= MAX_MODEM_RECEIVE_BATCH_SIZE && (k == 0 ==> l.pending == l.late))
  }

  /** Ticks left at the most, if nothing more arrives. */
  function Left(l: Link): nat {
    var p := 3 * |l.pending|;
    if l.driver.state.NetworkCheckReceive? then p + 2
    else if l.driver.state.NetworkReceive? then p + 3
    else if l.answer != [] then p + 4
    else p + 1
  }

  /** What the application got so far, or what was thrown away for want of one. */
  function Given(l: Link): seq<Byte> {
    var a := Booked(l.driver.log);
    if l.driver.callback then a.received else a.discarded
  }

  /** Everything that came for the application: handed over, on the way, or still with the modem. */
  function Stream(l: Link): seq<Byte> {
    Given(l) + l.answer + l.pending
  }

  /** The other of the two accounts does not change. */
  ghost predicate SameOtherwise(l: Link, n: Link) {
    && n.driver.callback == l.driver.callback
    && (var a, b := Booked(l.driver.log), Booked(n.driver.log);
        if l.driver.callback then b.discarded == a.discarded else b.received == a.received)
  }

  ghost predicate Done(l: Link) {
    l.driver.state.NetworkBeginSend? && !l.driver.newData && l.answer == [] && l.pending == l.late
  }

  /** What a tick has to do, on its way or at its end. */
  ghost predicate Advanced(l: Link, n: Link) {
    && Stream(n) == Stream(l) && SameOtherwise(l, n)
    && (if Done(n) then Left(l) == 3 * |l.pending| + 1 else OnTrack(n) && Left(n) == Left(l) - 1)
  }

  lemma CheckAdvances(l: Link, env: Env)
    requires OnTrack(l) && l.driver.state.NetworkCheckReceive?
    ensures !Idles(l, env) && Advanced(l, Happen(l, Look(env)))
  {
    hide TickMachine, Booked;
    CheckTick(l.driver, env);
  }

  lemma HeaderAdvances(l: Link, env: Env)
    requires OnTrack(l) && l.driver.state.NetworkBeginReceive? && Replies(l, env) && l.answer != []
    ensures !Idles(l, env) && Advanced(l, Happen(l, Look(env)))
  {
    hide TickMachine, Booked, RecvLength;
    ReplyReads(l, env);
    hide Replies;
    HeaderTick(l.driver, env, |l.answer|);
  }

  lemma DeliveryAdvances(l: Link, env: Env)
    requires OnTrack(l) && l.driver.state.NetworkReceive? && Replies(l, env)
    ensures !Idles(l, env) && Advanced(l, Happen(l, Look(env)))
  {
    assert Ok in env.holds && env.event == l.answer;
    hide TickMachine, Booked, Replies, Stream;
    DeliverTick(l.driver, env);
    var n := Happen(l, Look(env));
    assert Given(n) == Given(l) + l.answer;
    assert Stream(n) == Stream(l) by {
      DeliveredStream(l, n);
    }
  }

  lemma DeliveredStream(l: Link, n: Link)
    requires Given(n) == Given(l) + l.answer && n.answer == [] && n.pending == l.pending
    ensures Stream(n) == Stream(l)
  {
    hide Given;
    assert Given(n) + [] == Given(n);
  }

  lemma EmptyAdvances(l: Link, env: Env)
    requires OnTrack(l) && l.driver.state.NetworkBeginReceive? && Replies(l, env) && l.answer == []
    ensures !Idles(l, env) && Advanced(l, Happen(l, Look(env))) && Done(Happen(l, Look(env)))
  {
    hide TickMachine, Booked, RecvLength;
    ReplyReads(l, env);
    hide Replies;
    EmptyTick(l.driver, env);
  }

  /** The driver goes on exactly when the reply is there, and then it advances. */
  lemma LookAdvances(l: Link, env: Env)
    requires OnTrack(l) && Replies(l, env)
    ensures !Idles(l, env) && Advanced(l, Happen(l, Look(env)))
  {
    TrackIsLoop(l);
    hide Happen, Advanced, OnTrack, Idles, Replies;
    if l.driver.state.NetworkCheckReceive? {
      CheckAdvances(l, env);
    } else if l.driver.state.NetworkReceive? {
      DeliveryAdvances(l, env);
    } else if l.answer != [] {
      HeaderAdvances(l, env);
    } else {
      EmptyAdvances(l, env);
    }
  }

  lemma TrackIsLoop(l: Link)
    requires OnTrack(l)
    ensures l.driver.newData && InLoop(l.driver.state) && Left(l) > 0 && !Done(l)
  {
  }

  lemma CutStream(given: seq<Byte>, pending: seq<Byte>, cut: nat)
    requires cut <= |pending|
    ensures given + pending[..cut] + pending[cut..] == given + [] + pending
  {
  }

  /** A read moves bytes from the pending ones to the reply; finding something costs a tick more than nothing. */
  lemma ReadingKeepsTrack(l: Link, cut: nat)
    requires OnTrack(l) && Possible(l, Reading(cut))
    ensures var n := Happen(l, Reading(cut));
      && OnTrack(n) && Stream(n) == Stream(l) && SameOtherwise(l, n)
      && Left(n) == Left(l) - (if cut > 0 then 3 * cut - 3 else 0)
  {
    hide Booked;
    CutStream(Given(l), l.pending, cut);
  }

  /** Arriving bytes queue up behind the others; the flag is set already. */
  lemma ArrivalKeepsTrack(l: Link, bytes: seq<Byte>)
    requires OnTrack(l)
    ensures var n := Happen(l, Arrival(bytes));
      && OnTrack(n) && Stream(n) == Stream(l) + bytes && SameOtherwise(l, n)
      && Left(n) == Left(l) + 3 * |bytes|
  {
    hide Booked;
    assert Step(l.driver, DataIndication) == l.driver;
    assert Given(l) + l.answer + (l.pending + bytes) == Given(l) + l.answer + l.pending + bytes;
  }

  /** One happening: the loop ends, or there is at most so much left; nothing is lost or duplicated. */
  lemma HappeningKeepsTrack(l: Link, h: Happening)
    requires OnTrack(l) && Possible(l, h)
    ensures var n, moved := Happen(l, h), h.Look? && !Idles(l, h.env);
      && Stream(n) == Stream(l) + Arrived([h]) && SameOtherwise(l, n)
      && (Done(n) ==> moved && Left(l) >= 1)
      && (!Done(n) ==> OnTrack(n) && Left(n) + (if moved then 1 else 0) <= Left(l) + 3 * |Arrived([h])|)
  {
    assert Arrived([h]) == if h.Arrival? then h.bytes + [] else [] + [];
    TrackIsLoop(l);
    hide OnTrack, Stream, SameOtherwise, Done, Left, Arrived, Idles, Replies;
    match h
    case Arrival(bytes) =>
      ArrivalKeepsTrack(l, bytes);
      TrackIsLoop(Happen(l, h));
    case Reading(cut) =>
      ReadingKeepsTrack(l, cut);
      TrackIsLoop(Happen(l, h));
    case Look(env) =>
      if Idles(l, env) {
        SameAsItself(l);
      } else {
        LookAdvances(l, env);
      }
  }

  lemma SameAsItself(l: Link)
    ensures SameOtherwise(l, l)
  {
  }

  lemma SameThroughout(l: Link, m: Link, n: Link)
    requires SameOtherwise(l, m) && SameOtherwise(m, n)
    ensures SameOtherwise(l, n)
  {
    hide Booked;
  }

  /** The driver stays in the loop, flag set, for the first `t` happenings. */
  ghost predicate StaysFor(l: Link, hs: seq<Happening>, t: nat)
    requires t <= |hs|
    decreases t
  {
    t > 0 ==> l.driver.newData && InLoop(l.driver.state) && StaysFor(Happen(l, hs[0]), hs[1..], t - 1)
  }

  lemma FirstThenRest(l: Link, hs: seq<Happening>, t: nat)
    requires 0 < t <= |hs|
    ensures After(l, hs[..t]) == After(Happen(l, hs[0]), hs[1..][..t - 1])
    ensures Advances(l, hs[..t])
         == (if hs[0].Look? && !Idles(l, hs[0].env) then 1 else 0) + Advances(Happen(l, hs[0]), hs[1..][..t - 1])
    ensures Arrived(hs[..t]) == Arrived([hs[0]]) + Arrived(hs[1..][..t - 1])
  {
    hide Happen, Idles;
    assert hs[..t][1..] == hs[1..][..t - 1];
    assert Arrived([hs[0]]) == (if hs[0].Arrival? then hs[0].bytes else []) + [];
  }

  lemma AtOnce(l: Link, hs: seq<Happening>)
    ensures After(l, hs[..0]) == l && Advances(l, hs[..0]) == 0 && Arrived(hs[..0]) == [] && StaysFor(l, hs, 0)
  {
    assert hs[..0] == [];
  }

  /** Ticks that suffice whatever arrives. */
  function Bound(l: Link, hs: seq<Happening>): nat {
    Left(l) + 3 * |Arrived(hs)|
  }

  lemma BoundOfRest(l: Link, hs: seq<Happening>)
    requires hs != []
    ensures Bound(l, hs) == Left(l) + 3 * |Arrived([hs[0]])| + 3 * |Arrived(hs[1..])|
  {
    assert Arrived([hs[0]]) == (if hs[0].Arrival? then hs[0].bytes else []) + [];
  }

  /**
   Whatever parts the modem cuts its data into, whenever it reads and replies, and whatever
   arrives meanwhile, the loop ends, after at most three ticks per byte and a few more. What
   was handed over is what was pending and what arrived, in order, less what is still pending;
   the flag is cleared by the last tick and not before.
   */
  lemma {:induction false} ReceiveCompletes(l: Link, hs: seq<Happening>) returns (t: nat)
    requires OnTrack(l) && PossibleThroughout(l, hs)
    requires Advances(l, hs) >= Bound(l, hs)
    ensures 0 < t <= |hs| && Advances(l, hs[..t]) <= Bound(l, hs[..t])
    ensures StaysFor(l, hs, t)
    ensures var n := After(l, hs[..t]);
      Done(n) && SameOtherwise(l, n) && Stream(n) == Stream(l) + Arrived(hs[..t])
    decreases |hs|
  {
    hide Happen, Possible, OnTrack, Stream, SameOtherwise, Done, Idles, After, Left, Arrived;
    TrackIsLoop(l);
    var n, rest := Happen(l, hs[0]), hs[1..];
    HappeningKeepsTrack(l, hs[0]);
    BoundOfRest(l, hs);
    t := 0;
    if Done(n) {
      AtOnce(n, rest);
      SameAsItself(n);
    } else {
      t := ReceiveCompletes(n, rest);
      SameThroughout(l, n, After(n, rest[..t]));
    }
    t := t + 1;
    FirstThenRest(l, hs, t);
    assert hs[..t][0] == hs[0] && hs[..t][1..] == rest[..t - 1];
    BoundOfRest(l, hs[..t]);
  }

  // ------------------------------------------------------- what is still pending at the end

  /** Something arrived at `j`, and the modem carried out no read after it. */
  predicate LateAt(hs: seq<Happening>, j: nat) {
    j < |hs| && hs[j].Arrival? && hs[j].bytes != [] && forall k :: j < k < |hs| ==> !hs[k].Reading?
  }

  ghost predicate CameLate(hs: seq<Happening>) {
    exists j: nat :: LateAt(hs, j)
  }

  ghost predicate ReadsAtAll(hs: seq<Happening>) {
    exists k :: 0 <= k < |hs| && hs[k].Reading?
  }

  lemma ReadsShift(h: Happening, rest: seq<Happening>)
    ensures ReadsAtAll([h] + rest) <==> h.Reading? || ReadsAtAll(rest)
  {
    var hs := [h] + rest;
    if ReadsAtAll(rest) {
      var k :| 0 <= k < |rest| && rest[k].Reading?;
      assert hs[k + 1].Reading?;
    }
    if h.Reading? {
      assert hs[0].Reading?;
    }
  }

  lemma LateAtShift(h: Happening, rest: seq<Happening>, j: nat)
    ensures LateAt([h] + rest, j + 1) <==> LateAt(rest, j)
  {
    var hs := [h] + rest;
    assert forall k :: 0 <= k < |rest| ==> hs[k + 1] == rest[k];
    assert forall k :: 0 < k < |hs| ==> hs[k] == rest[k - 1];
  }

  lemma LateAtStart(h: Happening, rest: seq<Happening>)
    ensures LateAt([h] + rest, 0) <==> h.Arrival? && h.bytes != [] && !ReadsAtAll(rest)
  {
    var hs := [h] + rest;
    assert forall k :: 0 <= k < |rest| ==> hs[k + 1] == rest[k];
    assert forall k :: 0 < k < |hs| ==> hs[k] == rest[k - 1];
  }

  lemma LateShift(h: Happening, rest: seq<Happening>)
    ensures CameLate([h] + rest) <==> CameLate(rest) || (h.Arrival? && h.bytes != [] && !ReadsAtAll(rest))
  {
    hide LateAt, ReadsAtAll;
    LateAtStart(h, rest);
    if CameLate(rest) {
      var j: nat :| LateAt(rest, j);
      LateAtShift(h, rest, j);
    }
    if CameLate([h] + rest) {
      var j: nat :| LateAt([h] + rest, j);
      if j > 0 {
        LateAtShift(h, rest, j - 1);
      }
    }
  }

  /** The modem's bytes since its last read. */
  lemma {:induction false} LateExactly(l: Link, hs: seq<Happening>)
    ensures After(l, hs).late != [] <==> CameLate(hs) || (l.late != [] && !ReadsAtAll(hs))
    decreases |hs|
  {
    hide CameLate, ReadsAtAll;
    if hs == [] {
      NoneLate(hs);
    } else {
      var n := Happen(l, hs[0]);
      LateExactly(n, hs[1..]);
      LateShift(hs[0], hs[1..]);
      ReadsShift(hs[0], hs[1..]);
      assert hs == [hs[0]] + hs[1..];
      LateAfterOne(l, hs[0]);
    }
  }

  lemma NoneLate(hs: seq<Happening>)
    requires hs == []
    ensures !CameLate(hs) && !ReadsAtAll(hs)
  {
  }

  lemma LateAfterOne(l: Link, h: Happening)
    ensures var n := Happen(l, h);
      match h
      case Arrival(bytes) => n.late == l.late + bytes
      case Reading(_) => n.late == []
      case Look(_) => n.late == l.late
  {
    hide TickMachine;
  }

  /**
   From CHECK_RECEIVE: the loop ends with the flag clear; the application got (or, without a
   callback, the driver threw away) what was pending and what arrived, in order, except what is
   still pending; and something is still pending exactly when it arrived after the modem's last
   read, which had found nothing. Its indication is then forgotten.
   */
  lemma {:induction false} PendingIsHandedOver(l: Link, hs: seq<Happening>) returns (t: nat)
    requires !l.driver.halted && l.driver.newData && l.driver.state.NetworkCheckReceive?
    requires l.found == None && l.answer == [] && l.late == []
    requires PossibleThroughout(l, hs) && Advances(l, hs) >= 3 * (|l.pending| + |Arrived(hs)|) + 2
    ensures 0 < t <= |hs| && StaysFor(l, hs, t)
    ensures Advances(l, hs[..t]) <= 3 * (|l.pending| + |Arrived(hs[..t])|) + 2
    ensures
      var n := After(l, hs[..t]);
      var a, b := Booked(l.driver.log), Booked(n.driver.log);
      && n.driver.state.NetworkBeginSend? && !n.driver.newData
      && (if l.driver.callback
          then b.discarded == a.discarded && b.received + n.pending == a.received + l.pending + Arrived(hs[..t])
          else b.received == a.received && b.discarded + n.pending == a.discarded + l.pending + Arrived(hs[..t]))
      && (n.pending != [] <==> CameLate(hs[..t]))
  {
    hide After, Booked, PossibleThroughout, StaysFor, Advances, Arrived, CameLate, ReadsAtAll;
    t := ReceiveCompletes(l, hs);
    var n := After(l, hs[..t]);
    LateExactly(l, hs[..t]);
    assert Given(l) + [] + l.pending == Given(l) + l.pending;
    assert Given(n) + [] + n.pending == Given(n) + n.pending;
  }

  // ------------------------------------------------------------------- it does happen

  lemma SomeHeader(cut: nat) returns (event: seq<Byte>)
    ensures exists host, proto :: IsRecvHeader(event, host, proto, Decimal(cut))
  {
    event := QIRD + [] + [','] + ([] + [','] + Decimal(cut));
    assert IsRecvHeader(event, [], [], Decimal(cut));
  }

  /** Wherever the driver is in the loop, the modem can reply once it has read. */
  lemma ReplyExists(l: Link) returns (env: Env)
    requires l.driver.state.NetworkBeginReceive? ==> l.found.Some?
    ensures Replies(l, env)
  {
    hide Prefix;
    if l.driver.state.NetworkBeginReceive? && l.found.value > 0 {
      var event := SomeHeader(l.found.value);
      env := Env({}, event);
    } else {
      var raw := if l.driver.state.NetworkReceive? then Prefix(l.answer, l.driver.bytesReceived) else [];
      env := Env({CommandOk, Ok}, raw);
    }
  }

  lemma Prepended(l: Link, h: Happening, rest: seq<Happening>)
    requires Possible(l, h)
    ensures var hs, n := [h] + rest, Happen(l, h);
      && (PossibleThroughout(l, hs) <==> PossibleThroughout(n, rest))
      && Advances(l, hs) == (if h.Look? && !Idles(l, h.env) then 1 else 0) + Advances(n, rest)
      && (Arrived(rest) == [] ==> Arrived(hs) == if h.Arrival? then h.bytes else [])
      && After(l, hs) == After(n, rest)
  {
    hide Possible, Happen, Idles;
    var hs := [h] + rest;
    assert hs[0] == h && hs[1..] == rest;
  }

  lemma Nothing(l: Link)
    ensures PossibleThroughout(l, []) && Advances(l, []) == 0 && Arrived([]) == [] && After(l, []) == l
  {
  }

  /** A reply that hands out one byte, or what an empty read gives. */
  lemma NextHappening(l: Link) returns (h: Happening)
    requires OnTrack(l) && l.late == []
    ensures var n, moved := Happen(l, h), h.Look? && !Idles(l, h.env);
      && Possible(l, h) && !h.Arrival? && n.late == []
      && (if Done(n) then moved && Left(l) == 1 else OnTrack(n) && Left(l) == Left(n) + if moved then 1 else 0)
      && (!moved ==> l.found == None && n.found.Some?)
  {
    if l.driver.state.NetworkBeginReceive? && l.found == None {
      h := Reading(if l.pending == [] then 0 else 1);
      ReadingKeepsTrack(l, h.cut);
      TrackIsLoop(Happen(l, h));
      assert Happen(l, h).found.Some?;
    } else {
      var env := ReplyExists(l);
      h := Look(env);
      hide Replies, Stream, SameOtherwise, TickMachine;
      LookAdvances(l, env);
      hide Idles;
      EndOnEmpty(l, env);
      LateAfterOne(l, h);
    }
  }

  lemma EndOnEmpty(l: Link, env: Env)
    requires OnTrack(l) && Replies(l, env) && l.late == []
    ensures Done(Happen(l, Look(env))) ==> l.pending == []
  {
    hide TickMachine, Replies;
    LateAfterOne(l, Look(env));
  }

  /** A modem that reads and hands out single bytes makes the driver take every tick of the bound. */
  lemma {:induction false} HappeningsExist(l: Link) returns (hs: seq<Happening>)
    requires OnTrack(l) && l.late == []
    ensures PossibleThroughout(l, hs) && Advances(l, hs) == Left(l) && Arrived(hs) == []
    decreases Left(l), l.found == None
  {
    hide Happen, Possible, OnTrack, Done, Idles, PossibleThroughout, Advances, Arrived, Left;
    var h := NextHappening(l);
    var n := Happen(l, h);
    var rest: seq<Happening> := [];
    if Done(n) {
      Nothing(n);
    } else {
      rest := HappeningsExist(n);
    }
    hs := [h] + rest;
    Prepended(l, h, rest);
  }

  /** An indication that comes while the OK of an empty read is under way is forgotten with the bytes it announced. */
  lemma ForgottenIndication(l: Link, bytes: seq<Byte>, env: Env)
    requires OnTrack(l) && l.driver.state.NetworkBeginReceive? && l.found == None && l.pending == []
    requires CommandOk in env.holds && !exists host, proto, tail :: IsRecvHeader(env.event, host, proto, tail)
    ensures var hs := [Reading(0)] + ([Arrival(bytes)] + ([Look(env)] + []));
      var n := After(l, hs);
      PossibleThroughout(l, hs) && n.driver.state.NetworkBeginSend? && !n.driver.newData && n.pending == bytes
  {
    assert Possible(l, Reading(0));
    ReadingKeepsTrack(l, 0);
    var l1 := Happen(l, Reading(0));
    assert l1.driver == l.driver && l1.found == Some(0) && l1.late == [] && l1.pending == [];
    hide TickMachine, Stream, SameOtherwise, Left, IsRecvHeader, Idles, OnTrack;
    ArrivalKeepsTrack(l1, bytes);
    var l2 := Happen(l1, Arrival(bytes));
    assert l2.late == bytes && l2.found == Some(0) && l2.answer == l1.answer && l2.driver.state == l.driver.state;
    assert Replies(l2, env);
    EmptyAdvances(l2, env);
    var l3 := Happen(l2, Look(env));
    LateAfterOne(l2, Look(env));
    assert Possible(l2, Look(env)) && Possible(l1, Arrival(bytes));
    assert l3.driver.state.NetworkBeginSend? && !l3.driver.newData && l3.pending == bytes;
    hide Happen, Possible, Replies, PossibleThroughout, After, Done;
    Nothing(l3);
    Prepended(l2, Look(env), []);
    Prepended(l1, Arrival(bytes), [Look(env)] + []);
    Prepended(l, Reading(0), [Arrival(bytes)] + ([Look(env)] + []));
  }
}
