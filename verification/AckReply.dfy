/** `QueryAckAction::run`: reading sent, acked and not-acked counts out of `+QISACK: s, a, n`. */
module AckReply {
  import opened Bytes

  const MARKER: seq<Byte> := "+QISACK:"

  datatype Ack = Ack(sent: int, acked: int, nAcked: int)

  const NOTHING := Ack(0, 0, 0)

  datatype Halves = Halves(head: seq<Byte>, tail: seq<Byte>)

  /** The text on either side of the first `c`. */
  function Split(t: seq<Byte>, c: Byte): Option<Halves> {
    var i := IndexOf(t, c);
    if i == |t| then None else Some(Halves(t[..i], t[i + 1..]))
  }

  /** The text behind the first occurrence of `p`. */
  function After(s: seq<Byte>, p: seq<Byte>): Option<seq<Byte>>
    requires p != []
  {
    var m := Find(s, p);
    if m == |s| then None else Some(s[m + |p|..])
  }

  /** `strtoul` stored into an `int`. */
  function Count(field: seq<Byte>): int {
    ToInt(Strtoul(field))
  }

  /** What the three counts are after reading the text behind the marker. */
  function AckOfFields(t: seq<Byte>): Ack {
    match Split(t, ',')
    case None => NOTHING
    case Some(first) =>
      match Split(first.tail, ',')
      case None => NOTHING
      case Some(second) =>
        Ack(Count(first.head), Count(second.head), Count(second.tail))
  }

  /** What the three counts are after reading `event`. */
  function AckOf(event: seq<Byte>): Ack {
    match After(CString(event), MARKER)
    case None => NOTHING
    case Some(t) => AckOfFields(t)
  }

  // ------------------------------------------------------------- the algorithm

  /** The C string that starts at cursor `b` of the copy. */
  function TextAt(a: array<Byte>, b: nat): seq<Byte>
    requires b <= a.Length
    reads a
  {
    CString(a[b..])
  }

  /** `strchr`; -1 stands for the null pointer. */
  method StrChr(a: array<Byte>, b: nat, c: Byte) returns (e: int)
    requires c != NUL
    requires b <= a.Length && NUL in a[b..]
    ensures e == -1 || b <= e
    ensures var t := TextAt(a, b);
            var i := IndexOf(t, c);
            if i == |t| then e == -1 else e == b + i
  {
    e := b;
    ghost var t := TextAt(a, b);
    while a[e] != NUL
      invariant b <= e <= b + |t| < a.Length
      invariant t == TextAt(a, b)
      invariant c !in t[..e - b]
      decreases a.Length - e
    {
      if a[e] == c {
        IndexOfUnique(t, c, e - b);
        return;
      }
      e := e + 1;
    }
    IndexOfUnique(t, c, |t|);
    e := -1;
  }

  /** Writing NUL over a byte of the text leaves the part before it and the part behind it. */
  lemma CutAt(before: seq<Byte>, after: seq<Byte>, i: nat)
    requires NUL in before
    requires i < |CString(before)|
    requires after == before[i := NUL]
    ensures CString(after) == CString(before)[..i]
    ensures CString(after[i + 1..]) == CString(before)[i + 1..]
    ensures NUL in after[i + 1..]
  {
    var z := IndexOf(before, NUL);
    IndexOfUnique(after, NUL, i);
    assert after[i + 1..][z - i - 1] == NUL;
    IndexOfUnique(after[i + 1..], NUL, z - i - 1);
  }

  lemma TextTail(s: seq<Byte>, k: nat)
    requires NUL in s && k <= |CString(s)|
    ensures CString(s[k..]) == CString(s)[k..]
    ensures NUL in s[k..]
  {
    var z := IndexOf(s, NUL);
    assert s[k..][z - k] == NUL;
    IndexOfUnique(s[k..], NUL, z - k);
  }

  /** Split, in terms of where the separator is and of the two texts the cut leaves. */
  lemma CutSplits(before: seq<Byte>, after: seq<Byte>, i: nat, c: Byte)
    requires NUL in before
    requires i == IndexOf(CString(before), c) < |CString(before)|
    requires after == before[i := NUL]
    ensures Split(CString(before), c) == Some(Halves(CString(after), CString(after[i + 1..])))
    ensures NUL in after[i + 1..]
  {
    hide CString, IndexOf;
    CutAt(before, after, i);
  }

  lemma SplitNowhere(t: seq<Byte>, c: Byte)
    ensures Split(t, c) == None <==> IndexOf(t, c) == |t|
  {
  }

  lemma TailsOfTails(a: array<Byte>, b: nat, i: nat)
    requires b + i + 1 <= a.Length
    ensures a[b..][i + 1..] == a[b + i + 1..]
  {
  }

  /** Finds the next comma and overwrites it with NUL, so that the field before it is a C string. */
  method CutField(a: array<Byte>, b: nat) returns (e: int)
    requires b <= a.Length && NUL in a[b..]
    modifies a
    ensures e == -1 <==> Split(old(TextAt(a, b)), ',') == None
    ensures e == -1 ==> a[..] == old(a[..])
    ensures e != -1 ==>
              && b <= e < a.Length && NUL in a[e + 1..]
              && Split(old(TextAt(a, b)), ',') == Some(Halves(TextAt(a, b), TextAt(a, e + 1)))
  {
    hide CString, IndexOf, Split;
    e := StrChr(a, b, ',');
    ghost var before := a[b..];
    SplitNowhere(CString(before), ',');
    if e != -1 {
      ghost var i := e - b;
      a[e] := NUL;
      assert a[b..] == before[i := NUL];
      CutSplits(before, a[b..], i, ',');
      TailsOfTails(a, b, i);
    }
  }

  /** The second and third field, or nothing when the second comma is missing. */
  method ReadLastTwo(copy: array<Byte>, b: nat) returns (found: bool, acked: int, nAcked: int)
    requires b <= copy.Length && NUL in copy[b..]
    modifies copy
    ensures found <==> Split(old(TextAt(copy, b)), ',').Some?
    ensures found ==>
              var second := Split(old(TextAt(copy, b)), ',').value;
              acked == Count(second.head) && nAcked == Count(second.tail)
    ensures !found ==> acked == nAcked == 0
  {
    var e := CutField(copy, b);
    if e == -1 {
      return false, 0, 0;
    }
    acked := Count(TextAt(copy, b));
    nAcked := Count(TextAt(copy, e + 1));
    found := true;
  }

  /** The three fields behind the marker; a missing second comma takes the first count back. */
  method ReadFields(copy: array<Byte>, b: nat) returns (sent: int, acked: int, nAcked: int)
    requires b <= copy.Length && NUL in copy[b..]
    modifies copy
    ensures Ack(sent, acked, nAcked) == AckOfFields(old(TextAt(copy, b)))
  {
    sent, acked, nAcked := 0, 0, 0;
    var e := CutField(copy, b);
    if e == -1 {
      return;
    }
    sent := Count(TextAt(copy, b));
    var found;
    found, acked, nAcked := ReadLastTwo(copy, e + 1);
    if !found {
      sent := 0;
    }
  }

  /** The whole reader: a terminated copy, the marker, the fields. */
  method ReadAck(event: seq<Byte>) returns (sent: int, acked: int, nAcked: int)
    ensures Ack(sent, acked, nAcked) == AckOf(event)
  {
    hide CString, AckOfFields, Find;
    var copy := new Byte[|event| + 1](i requires 0 <= i => if i < |event| then event[i] else NUL);
    CopyIsTerminated(event, copy);
    var text := TextAt(copy, 0);
    var b := Search(text, MARKER);
    if b == |text| {
      return 0, 0, 0;
    }
    b := b + |MARKER|;
    TextTail(copy[0..], b);
    assert copy[0..][b..] == copy[b..];
    sent, acked, nAcked := ReadFields(copy, b);
  }

  lemma CopyIsTerminated(event: seq<Byte>, copy: array<Byte>)
    requires copy.Length == |event| + 1
    requires forall i :: 0 <= i <= |event| ==> copy[i] == if i < |event| then event[i] else NUL
    ensures NUL in copy[0..] && TextAt(copy, 0) == CString(event)
  {
    assert copy[0..] == event + [NUL];
    assert copy[0..][|event|] == NUL;
    IndexOfUnique(copy[0..], NUL, |CString(event)|);
  }

  // ------------------------------------------------------------ what it means

  /** Splitting undoes joining. */
  lemma SplitJoin(head: seq<Byte>, c: Byte, tail: seq<Byte>)
    requires c !in head
    ensures Split(head + [c] + tail, c) == Some(Halves(head, tail))
  {
    var t := head + [c] + tail;
    IndexOfAfter(head, c, tail);
    assert t[..|head|] == head && t[|head| + 1..] == tail;
  }

  /** Joining undoes splitting, which succeeds exactly when the separator is there. */
  lemma JoinSplit(t: seq<Byte>, c: Byte)
    ensures Split(t, c).Some? <==> c in t
    ensures Split(t, c).Some? ==>
              var h := Split(t, c).value;
              t == h.head + [c] + h.tail && c !in h.head
  {
  }

  ghost predicate Avoids(s: seq<Byte>, p: seq<Byte>) {
    forall k: nat :: !OccursAt(s, p, k)
  }

  /** The start of `p` occurs nowhere else in it, so that two occurrences cannot overlap. */
  predicate NoOverlap(p: seq<Byte>) {
    p != [] && p[0] !in p[1..]
  }

  /** An occurrence that starts inside `noise` would be `p` overlapping itself. */
  lemma NoEarlier(noise: seq<Byte>, p: seq<Byte>, rest: seq<Byte>, k: nat)
    requires Avoids(noise, p) && NoOverlap(p)
    requires k < |noise|
    ensures !OccursAt(noise + p + rest, p, k)
  {
    var s := noise + p + rest;
    assert !OccursAt(noise, p, k);
    if k + |p| <= |noise| {
      assert noise[k..k + |p|] == s[k..k + |p|];
    } else {
      var d := |noise| - k;
      assert s[k..k + |p|][d] == s[|noise|] == p[0];
      assert p[d] == p[1..][d - 1];
    }
  }

  lemma AfterJoined(noise: seq<Byte>, p: seq<Byte>, rest: seq<Byte>)
    requires Avoids(noise, p) && NoOverlap(p)
    ensures After(noise + p + rest, p) == Some(rest)
  {
    var s := noise + p + rest;
    assert s[|noise|..|noise| + |p|] == p;
    assert OccursAt(s, p, |noise|);
    forall k: nat | k < |noise|
      ensures !OccursAt(s, p, k)
    {
      NoEarlier(noise, p, rest, k);
    }
    FindUnique(s, p, |noise|);
    assert s[|noise| + |p|..] == rest;
  }

  lemma AfterSplits(s: seq<Byte>, p: seq<Byte>) returns (noise: seq<Byte>)
    requires p != [] && After(s, p).Some?
    ensures s == noise + p + After(s, p).value && Avoids(noise, p)
  {
    var m := Find(s, p);
    noise := s[..m];
    forall k: nat
      ensures !OccursAt(noise, p, k)
    {
      if k + |p| <= m {
        assert noise[k..k + |p|] == s[k..k + |p|];
        assert !OccursAt(s, p, k);
      }
    }
    assert s == s[..m] + s[m..m + |p|] + s[m + |p|..];
  }

  /** The reply a modem sends: any text without the marker, the marker, then three fields. */
  ghost predicate IsReply(event: seq<Byte>, noise: seq<Byte>, f1: seq<Byte>, f2: seq<Byte>, f3: seq<Byte>) {
    && CString(event) == noise + MARKER + (f1 + [','] + (f2 + [','] + f3))
    && Avoids(noise, MARKER)
    && ',' !in f1 && ',' !in f2
  }

  /** Each count is the number its own field begins with. */
  lemma AckOfReply(event: seq<Byte>, noise: seq<Byte>, f1: seq<Byte>, f2: seq<Byte>, f3: seq<Byte>)
    requires IsReply(event, noise, f1, f2, f3)
    ensures AckOf(event) == Ack(Count(f1), Count(f2), Count(f3))
  {
    var u := f2 + [','] + f3;
    AfterJoined(noise, MARKER, f1 + [','] + u);
    SplitJoin(f1, ',', u);
    SplitJoin(f2, ',', f3);
  }

  /** A reply that is cut off before its second separator reads as nothing, whatever its numbers. */
  lemma OneCommaReadsNothing(event: seq<Byte>, noise: seq<Byte>, f1: seq<Byte>, f2: seq<Byte>)
    requires event == noise + MARKER + (f1 + [','] + f2) && NUL !in event
    requires Avoids(noise, MARKER) && ',' !in f1 && ',' !in f2
    ensures AckOf(event) == NOTHING
  {
    CStringOfWhole(event);
    AfterJoined(noise, MARKER, f1 + [','] + f2);
    SplitJoin(f1, ',', f2);
    JoinSplit(f2, ',');
  }

  /** No partial triple: either the event is a complete reply, or all three counts are zero. */
  lemma AckOfAnything(event: seq<Byte>)
    ensures AckOf(event) == NOTHING || exists noise, f1, f2, f3 :: IsReply(event, noise, f1, f2, f3)
  {
    var s := CString(event);
    if After(s, MARKER).Some? {
      var noise := AfterSplits(s, MARKER);
      var t := After(s, MARKER).value;
      JoinSplit(t, ',');
      if Split(t, ',').Some? {
        var first := Split(t, ',').value;
        JoinSplit(first.tail, ',');
        if Split(first.tail, ',').Some? {
          var second := Split(first.tail, ',').value;
          assert IsReply(event, noise, first.head, second.head, second.tail);
        }
      }
    }
  }

  /** A count as the modem prints it: a blank, then the number. */
  function Field(n: nat): seq<Byte> {
    [' '] + Decimal(n)
  }

  lemma FieldReads(n: nat)
    requires n < 0x8000_0000
    ensures Count(Field(n)) == n
    ensures ',' !in Field(n) && NUL !in Field(n)
  {
    StrtoulReadsDecimal([' '], n, []);
    assert [' '] + Decimal(n) + [] == Field(n);
    assert forall i :: 0 <= i < |Field(n)| ==> Field(n)[i] == ' ' || IsDigit(Field(n)[i]);
  }

  /** Print then parse, behind any marker-free noise. */
  lemma AckRoundTrip(event: seq<Byte>, noise: seq<Byte>, s: nat, a: nat, n: nat)
    requires s < 0x8000_0000 && a < 0x8000_0000 && n < 0x8000_0000
    requires NUL !in noise && Avoids(noise, MARKER)
    requires event == noise + MARKER + (Field(s) + [','] + (Field(a) + [','] + Field(n)))
    ensures AckOf(event) == Ack(s, a, n)
  {
    FieldReads(s);
    FieldReads(a);
    FieldReads(n);
    CStringOfWhole(event);
    AckOfReply(event, noise, Field(s), Field(a), Field(n));
  }

  /** Two replies as the modem prints them, the second one behind its echo. */
  lemma AckExamples(event: seq<Byte>)
    ensures event == "+QISACK: 1460, 1460, 0" ==> AckOf(event) == Ack(1460, 1460, 0)
    ensures event == "AT+QISACK\r+QISACK: 2920, 1460, 1460" ==> AckOf(event) == Ack(2920, 1460, 1460)
  {
    hide AckOf, Avoids;
    DecimalOf1460();
    EchoAvoidsMarker();
    var none: seq<Byte>, echo: seq<Byte> := [], "AT+QISACK\r";
    if event == "+QISACK: 1460, 1460, 0" {
      assert event == none + MARKER + (Field(1460) + [','] + (Field(1460) + [','] + Field(0)));
      AckRoundTrip(event, none, 1460, 1460, 0);
    } else if event == "AT+QISACK\r+QISACK: 2920, 1460, 1460" {
      assert event == echo + MARKER + (Field(2920) + [','] + (Field(1460) + [','] + Field(1460)));
      AckRoundTrip(event, echo, 2920, 1460, 1460);
    }
  }

  lemma DecimalOf1460()
    ensures Decimal(1460) == "1460" && Decimal(2920) == "2920" && Decimal(0) == "0"
  {
    assert Decimal(1) == "1" && Decimal(14) == "14" && Decimal(146) == "146";
    assert Decimal(2) == "2" && Decimal(29) == "29" && Decimal(292) == "292";
  }

  lemma EchoAvoidsMarker()
    ensures Avoids([], MARKER) && Avoids("AT+QISACK\r", MARKER) && NUL !in "AT+QISACK\r"
  {
    var echo: seq<Byte> := "AT+QISACK\r";
    forall k: nat
      ensures !OccursAt(echo, MARKER, k)
    {
      if k <= 2 {
        assert echo[k..k + |MARKER|][7] == echo[k + 7] != MARKER[7];
      }
    }
  }

  /**
   The driver takes "sent equals acked" as "everything was acknowledged". That test passes
   on every event that is not a complete reply, and on a complete one it compares the two
   printed counts (as the library reads them).
   */
  lemma AllAckedExactly(event: seq<Byte>)
    ensures AckOf(event).sent == AckOf(event).acked
       <==> forall noise, f1, f2, f3 :: IsReply(event, noise, f1, f2, f3) ==> Strtoul(f1) == Strtoul(f2)
  {
    forall noise, f1, f2, f3 | IsReply(event, noise, f1, f2, f3)
      ensures AckOf(event) == Ack(Count(f1), Count(f2), Count(f3))
    {
      AckOfReply(event, noise, f1, f2, f3);
    }
    AckOfAnything(event);
  }
}
