/**
 The two length readers: `ParseRecvLengthCondition::checkImpl` for `+QIRD: host,proto,len`
 and `QirdiParseCondition::checkImpl` for `+QIRDI: ...,len`.
 */
module LengthReply {
  import opened Bytes

  const QIRD: seq<Byte> := "+QIRD: "
  const QIRDI: seq<Byte> := "+QIRDI: "
  const MAX_BUF: nat := 10

  /** A check rejects the event, stores a length, or ends in `Error_Handler`. */
  datatype Outcome = Rejected | Parsed(length: nat) | Fault {
    predicate Accepts() {
      Parsed? && length > 0
    }
  }

  /** What both checks do with the bytes behind the comma they settled on. */
  function TailLength(tail: seq<Byte>): (o: Outcome)
    ensures !o.Rejected?
  {
    if |tail| >= MAX_BUF then Fault else Parsed(Strtoul(tail))
  }

  /** Position of the second comma, or |event| when there is none. */
  function SecondComma(event: seq<Byte>): (j: nat)
    ensures j <= |event|
  {
    var i := IndexOf(event, ',');
    if i == |event| then |event| else i + 1 + IndexOf(event[i + 1..], ',')
  }

  function RecvLength(event: seq<Byte>): Outcome {
    var j := SecondComma(event);
    if !(QIRD <= event) || j == |event| then Rejected else TailLength(event[j + 1..])
  }

  /** Position of the last `c`, or -1. */
  function LastIndexOf(s: seq<Byte>, c: Byte): (i: int)
    ensures -1 <= i < |s|
    ensures i >= 0 ==> s[i] == c
    ensures forall k :: i < k < |s| ==> s[k] != c
  {
    if s == [] then -1
    else if s[|s| - 1] == c then |s| - 1
    else LastIndexOf(s[..|s| - 1], c)
  }

  function QirdiLength(event: seq<Byte>): Outcome {
    if !(QIRDI <= event) then Rejected
    else
      var i := LastIndexOf(event, ',');
      if i == -1 then Rejected else TailLength(event[i + 1..])
  }

  // ------------------------------------------------------------ the algorithms

  /** The prefix test: the first occurrence of the pattern must be at the beginning. */
  method StartsWith(event: seq<Byte>, pattern: seq<Byte>) returns (yes: bool)
    requires pattern != []
    ensures yes <==> pattern <= event
  {
    if |event| < |pattern| {
      return false;
    }
    var at := Search(event, pattern);
    assert OccursAt(event, pattern, 0) <==> pattern <= event;
    yes := at == 0;
  }

  /** Copies the tail into the zeroed local buffer and reads it with `strtoul`. */
  method ReadTail(event: seq<Byte>, from: nat) returns (outcome: Outcome)
    requires from <= |event|
    ensures outcome == TailLength(event[from..])
  {
    var buf := new Byte[MAX_BUF](_ => NUL);
    var size := |event| - from;
    if size >= MAX_BUF {
      return Fault;
    }
    var k := 0;
    while k < size
      invariant 0 <= k <= size
      invariant forall i :: 0 <= i < k ==> buf[i] == event[from + i]
      invariant forall i :: k <= i < buf.Length ==> buf[i] == NUL
    {
      buf[k] := event[from + k];
      k := k + 1;
    }
    buf[size] := NUL;
    assert buf[..] == event[from..] + buf[size..];
    StrtoulStopsAtNul(event[from..], buf[size..]);
    outcome := Parsed(Strtoul(buf[..]));
  }

  method FindSecondComma(event: seq<Byte>) returns (i: nat)
    ensures i == SecondComma(event)
  {
    i := FindByte(event, 0, ',');
    assert event[0..] == event;
    if i < |event| {
      i := FindByte(event, i + 1, ',');
    }
  }

  /** `stored` is the driver's `bytesReceived`, written only when a number was read. */
  method CheckRecvLength(event: seq<Byte>, stored: nat) returns (accepted: bool, fault: bool, newStored: nat)
    ensures fault <==> RecvLength(event) == Fault
    ensures accepted <==> RecvLength(event).Accepts()
    ensures newStored == if RecvLength(event).Parsed? then RecvLength(event).length else stored
  {
    hide TailLength, SecondComma;
    accepted, fault, newStored := false, false, stored;
    var prefixed := StartsWith(event, QIRD);
    if !prefixed {
      return;
    }
    var i := FindSecondComma(event);
    if i == |event| {
      return;
    }
    var outcome := ReadTail(event, i + 1);
    match outcome
    case Fault => fault := true;
    case Parsed(length) =>
      newStored := length;
      accepted := newStored > 0;
  }

  /** `std::find (event.crbegin (), event.crend (), c)`; -1 stands for `crend`. */
  method FindLast(s: seq<Byte>, c: Byte) returns (i: int)
    ensures i == LastIndexOf(s, c)
  {
    i := |s| - 1;
    while i >= 0 && s[i] != c
      invariant -1 <= i < |s|
      invariant forall k :: i < k < |s| ==> s[k] != c
    {
      i := i - 1;
    }
    LastIndexOfUnique(s, c, i);
  }

  method CheckQirdi(event: seq<Byte>, stored: nat) returns (accepted: bool, fault: bool, newStored: nat)
    ensures fault <==> QirdiLength(event) == Fault
    ensures accepted <==> QirdiLength(event).Accepts()
    ensures newStored == if QirdiLength(event).Parsed? then QirdiLength(event).length else stored
  {
    hide TailLength;
    accepted, fault, newStored := false, false, stored;
    var prefixed := StartsWith(event, QIRDI);
    if !prefixed {
      return;
    }
    var i := FindLast(event, ',');
    if i == -1 {
      return;
    }
    var outcome := ReadTail(event, i + 1);
    match outcome
    case Fault => fault := true;
    case Parsed(length) =>
      newStored := length;
      accepted := newStored > 0;
  }

  // ------------------------------------------------------------ what it means

  lemma LastIndexOfUnique(s: seq<Byte>, c: Byte, i: int)
    requires -1 <= i < |s|
    requires i >= 0 ==> s[i] == c
    requires forall k :: i < k < |s| ==> s[k] != c
    ensures LastIndexOf(s, c) == i
  {
  }

  /** An event of the documented shape: prefix, comma-free host, comma-free protocol, tail. */
  ghost predicate IsRecvHeader(event: seq<Byte>, host: seq<Byte>, proto: seq<Byte>, tail: seq<Byte>) {
    && event == QIRD + host + [','] + (proto + [','] + tail)
    && ',' !in host && ',' !in proto
  }

  lemma SecondCommaBehind(first: seq<Byte>, second: seq<Byte>, tail: seq<Byte>)
    requires ',' !in first && ',' !in second
    ensures var event := first + [','] + (second + [','] + tail);
            var j := SecondComma(event);
            j < |event| && event[j + 1..] == tail
  {
    hide IndexOf;
    var rest := second + [','] + tail;
    var event := first + [','] + rest;
    IndexOfAfter(first, ',', rest);
    assert event[|first| + 1..] == rest;
    IndexOfAfter(second, ',', tail);
    assert rest[|second| + 1..] == tail;
  }

  lemma RecvLengthOfHeader(event: seq<Byte>, host: seq<Byte>, proto: seq<Byte>, tail: seq<Byte>)
    requires IsRecvHeader(event, host, proto, tail)
    ensures RecvLength(event) == TailLength(tail)
  {
    hide SecondComma, TailLength;
    assert ',' !in QIRD;
    SecondCommaBehind(QIRD + host, proto, tail);
  }

  lemma PrefixHasNoComma(event: seq<Byte>, prefix: seq<Byte>, i: nat)
    requires prefix <= event && ',' !in prefix
    requires i < |event| && event[i] == ','
    ensures |prefix| <= i
    ensures event == prefix + event[|prefix|..i] + [','] + event[i + 1..]
  {
    assert forall k :: 0 <= k < |prefix| ==> event[k] == prefix[k];
  }

  lemma SecondCommaSplits(event: seq<Byte>) returns (i: nat)
    requires SecondComma(event) < |event|
    ensures i < SecondComma(event) && event[i] == ',' && event[SecondComma(event)] == ','
    ensures ',' !in event[..i] && ',' !in event[i + 1..SecondComma(event)]
  {
    i := IndexOf(event, ',');
    var rest := event[i + 1..];
    assert event[i + 1..SecondComma(event)] == rest[..IndexOf(rest, ',')];
  }

  /** Everything that is not rejected has the documented shape. */
  lemma RecvHeaderOf(event: seq<Byte>) returns (host: seq<Byte>, proto: seq<Byte>, tail: seq<Byte>)
    requires !RecvLength(event).Rejected?
    ensures IsRecvHeader(event, host, proto, tail)
  {
    hide SecondComma, TailLength;
    var j := SecondComma(event);
    var i := SecondCommaSplits(event);
    assert ',' !in QIRD;
    PrefixHasNoComma(event, QIRD, i);
    host, proto, tail := event[|QIRD|..i], event[i + 1..j], event[j + 1..];
    assert event[i + 1..] == proto + [','] + tail;
    assert forall c :: c in host ==> c in event[..i];
  }

  /** Acceptance, both ways: the shape, a tail that fits the local buffer, a positive number. */
  lemma RecvAcceptsExactly(event: seq<Byte>)
    ensures RecvLength(event).Accepts()
       <==> exists host, proto, tail ::
              IsRecvHeader(event, host, proto, tail) && |tail| <= 9 && Strtoul(tail) > 0
  {
    if !RecvLength(event).Rejected? {
      var host, proto, tail := RecvHeaderOf(event);
    }
    forall host, proto, tail | IsRecvHeader(event, host, proto, tail)
      ensures RecvLength(event) == TailLength(tail)
    {
      RecvLengthOfHeader(event, host, proto, tail);
    }
  }

  lemma TailReads(n: nat)
    requires n < 1_000_000_000
    ensures TailLength(Decimal(n)) == Parsed(n)
  {
    assert Pow10(9) == 1_000_000_000;
    DecimalLength(n, 9);
    StrtoulReadsDecimal([], n, []);
    assert [] + Decimal(n) + [] == Decimal(n);
  }

  /** Print then parse a QIRD header. */
  lemma {:induction false} RecvRoundTrip(event: seq<Byte>, host: seq<Byte>, proto: seq<Byte>, n: nat)
    requires n < 1_000_000_000
    requires IsRecvHeader(event, host, proto, Decimal(n))
    ensures RecvLength(event) == Parsed(n)
  {
    RecvLengthOfHeader(event, host, proto, Decimal(n));
    TailReads(n);
  }

  /** An indication: prefix, any fields with their commas, and a comma-free last field. */
  ghost predicate IsIndication(event: seq<Byte>, body: seq<Byte>, tail: seq<Byte>) {
    event == QIRDI + body + [','] + tail && ',' !in tail
  }

  /** Only the text behind the last comma decides, whatever the earlier fields hold. */
  lemma QirdiLengthOfTail(event: seq<Byte>, body: seq<Byte>, tail: seq<Byte>)
    requires IsIndication(event, body, tail)
    ensures QirdiLength(event) == TailLength(tail)
  {
    LastIndexOfUnique(event, ',', |QIRDI + body|);
    assert event[|QIRDI + body| + 1..] == tail;
  }

  /** Everything that is not rejected is such an indication. */
  lemma IndicationOf(event: seq<Byte>) returns (body: seq<Byte>, tail: seq<Byte>)
    requires !QirdiLength(event).Rejected?
    ensures IsIndication(event, body, tail)
  {
    var i := LastIndexOf(event, ',');
    assert ',' !in QIRDI;
    PrefixHasNoComma(event, QIRDI, i);
    body, tail := event[|QIRDI|..i], event[i + 1..];
  }

  /** Print then parse: the last of any number of comma-separated fields comes back. */
  lemma QirdiRoundTrip(event: seq<Byte>, body: seq<Byte>, n: nat)
    requires n < 1_000_000_000
    requires event == QIRDI + body + [','] + Decimal(n)
    ensures QirdiLength(event) == Parsed(n)
    ensures QirdiLength(event).Accepts() <==> n > 0
  {
    assert forall i :: 0 <= i < |Decimal(n)| ==> IsDigit(Decimal(n)[i]);
    QirdiLengthOfTail(event, body, Decimal(n));
    TailReads(n);
  }

  /** Acceptance, both ways; in particular an event without a comma is rejected. */
  lemma QirdiAcceptsExactly(event: seq<Byte>)
    ensures QirdiLength(event).Accepts()
       <==> exists body, tail :: IsIndication(event, body, tail) && |tail| <= 9 && Strtoul(tail) > 0
  {
    if !QirdiLength(event).Rejected? {
      var body, tail := IndicationOf(event);
    }
    forall body, tail | IsIndication(event, body, tail)
      ensures QirdiLength(event) == TailLength(tail)
    {
      QirdiLengthOfTail(event, body, tail);
    }
  }

  lemma IsHeader(event: seq<Byte>, host: seq<Byte>, proto: seq<Byte>, tail: seq<Byte>)
    requires event == QIRD + host + [','] + (proto + [','] + tail) && ',' !in host && ',' !in proto
    ensures IsRecvHeader(event, host, proto, tail)
  {
  }

  /** The reply given as typical for the header check. */
  lemma RecvExample(event: seq<Byte>)
    requires event == "+QIRD: 40.114.228.99:1883,TCP,4"
    ensures RecvLength(event) == Parsed(4)
  {
    assert Decimal(4) == "4";
    hide *;
    var host: seq<Byte>, proto: seq<Byte> := "40.114.228.99:1883", "TCP";
    assert event[..25] == QIRD + host;
    assert event[25..] == "," + (proto + [','] + Decimal(4));
    assert event == event[..25] + event[25..];
    assert ',' !in host && ',' !in proto;
    IsHeader(event, host, proto, Decimal(4));
    RecvRoundTrip(event, host, proto, 4);
  }

  /** The indications the repository's test gives, with the lengths and the refusals it expects. */
  lemma QirdiExamples(event: seq<Byte>)
    ensures event == "+QIRDI: 0,1,0,1,1332,1332" ==> QirdiLength(event) == Parsed(1332)
    ensures event == "+QIRDI: 0,1,0,2,1359,2691" ==> QirdiLength(event) == Parsed(2691)
    ensures event == "+QIRDI: 0,1,0,3,2,2693" ==> QirdiLength(event) == Parsed(2693)
    ensures event == "" || event == "+QIRDI: 982348923489324" ==> QirdiLength(event) == Rejected
  {
    hide *;
    DecimalsOfExamples();
    if event == "+QIRDI: 0,1,0,1,1332,1332" {
      QirdiExample(event, "0,1,0,1,1332", 1332);
    } else if event == "+QIRDI: 0,1,0,2,1359,2691" {
      QirdiExample(event, "0,1,0,2,1359", 2691);
    } else if event == "+QIRDI: 0,1,0,3,2,2693" {
      QirdiExample(event, "0,1,0,3,2", 2693);
    } else if event == "" || event == "+QIRDI: 982348923489324" {
      NoCommaIsRejected(event);
    }
  }

  lemma QirdiExample(event: seq<Byte>, body: seq<Byte>, n: nat)
    requires n < 1_000_000_000 && event == "+QIRDI: " + body + "," + Decimal(n)
    ensures QirdiLength(event) == Parsed(n)
  {
    hide QirdiLength, Decimal;
    assert event == QIRDI + body + [','] + Decimal(n);
    QirdiRoundTrip(event, body, n);
  }

  lemma NoCommaIsRejected(event: seq<Byte>)
    requires ',' !in event
    ensures QirdiLength(event) == Rejected
  {
    LastIndexOfUnique(event, ',', -1);
  }

  lemma DecimalsOfExamples()
    ensures Decimal(1332) == "1332" && Decimal(2691) == "2691" && Decimal(2693) == "2693"
  {
    assert Decimal(1) == "1" && Decimal(13) == "13" && Decimal(133) == "133";
    assert Decimal(2) == "2" && Decimal(26) == "26" && Decimal(269) == "269";
  }
}
