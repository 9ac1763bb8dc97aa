/** The AT commands whose text depends on data, with the sizes of the buffers they are printed into. */
module Commands {
  import opened Bytes
  import opened States

  const CIPSEND_BUF_LEN: nat := 26
  const QIOPEN_BUF_LEN: nat := 64
  const SMS_BUF_LEN: nat := 200
  const CTRL_Z: Byte := 26 as char

  const QISEND: seq<Byte> := "AT+QISEND="
  const CRLF: seq<Byte> := "\r\n"

  type Port = p: nat | p < 0x1_0000

  const SMS_CAPACITY: nat := 4

  datatype SmsText = SmsText(number: seq<Byte>, body: seq<Byte>)

  /** The two fields are `etl::string<16>` and `etl::string<160>`. */
  type Sms = s: SmsText | |s.number| <= 16 && |s.body| <= 160 witness SmsText([], [])

  function QisendCommand(n: nat): seq<Byte> {
    Snprintf(CIPSEND_BUF_LEN, QISEND + Decimal(n) + CRLF)
  }

  /** The modem's reading of a command: how many raw bytes it announces. */
  function Announced(command: seq<Byte>): Option<nat> {
    if QISEND <= command then Some(Strtoul(command[|QISEND|..])) else None
  }

  /** An announcement is a whole command line and parses back to the number it was printed from. */
  lemma AnnouncementRoundTrip(n: nat)
    requires n <= ULONG_MAX
    ensures Announced(QisendCommand(n)) == Some(n)
    ensures var command := QisendCommand(n); "AT+QISEND=" <= command && command[|command| - 2..] == "\r\n"
  {
    hide Strtoul;
    assert Pow10(10) == 10_000_000_000;
    DecimalLength(n, 10);
    var command := QISEND + Decimal(n) + CRLF;
    assert QisendCommand(n) == command;
    StrtoulReadsDecimal([], n, CRLF);
    assert command[|QISEND|..] == [] + Decimal(n) + CRLF;
  }

  function QiopenText(address: seq<Byte>, port: Port): seq<Byte> {
    "AT+QIOPEN=\"TCP\",\"" + CString(address) + "\",\"" + Decimal(port) + "\"\r\n"
  }

  function QiopenCommand(address: seq<Byte>, port: Port): seq<Byte> {
    Snprintf(QIOPEN_BUF_LEN, QiopenText(address, port))
  }

  /** The open command reaches the modem whole exactly when address and port take at most 40 bytes together. */
  lemma QiopenWholeExactly(address: seq<Byte>, port: Port)
    ensures QiopenCommand(address, port) == QiopenText(address, port)
       <==> |CString(address)| + |Decimal(port)| <= 40
  {
    assert |QiopenText(address, port)| == 23 + |CString(address)| + |Decimal(port)|;
  }

  /** The texts between pairs of quotation marks, in order. */
  function QuotedFields(s: seq<Byte>): seq<seq<Byte>>
    decreases |s|
  {
    var i := IndexOf(s, '"');
    if i == |s| then []
    else
      var rest := s[i + 1..];
      var j := IndexOf(rest, '"');
      if j == |rest| then [] else [rest[..j]] + QuotedFields(rest[j + 1..])
  }

  lemma FirstQuotedField(before: seq<Byte>, field: seq<Byte>, after: seq<Byte>)
    requires '"' !in before && '"' !in field
    ensures QuotedFields(before + "\"" + (field + "\"" + after)) == [field] + QuotedFields(after)
  {
    var rest := field + "\"" + after;
    IndexOfAfter(before, '"', rest);
    assert (before + "\"" + rest)[|before| + 1..] == rest;
    IndexOfAfter(field, '"', after);
    assert rest[..|field|] == field && rest[|field| + 1..] == after;
  }

  /**
   Read back as quoted fields, an open command that is sent whole names the protocol, the
   address and the port, in this order.
   */
  lemma QiopenReadsBack(address: seq<Byte>, port: Port)
    requires |CString(address)| + |Decimal(port)| <= 40 && '"' !in CString(address)
    ensures var command := QiopenCommand(address, port);
      var fields := QuotedFields(command);
      && "AT+QIOPEN=" <= command && CRLF == command[|command| - 2..]
      && |fields| == 3 && fields[0] == "TCP" && fields[1] == CString(address) && Strtoul(fields[2]) == port
  {
    hide QuotedFields, Strtoul, CString;
    var a, p := CString(address), Decimal(port);
    var last: seq<Byte> := "\r\n";
    QiopenWholeExactly(address, port);
    assert QiopenCommand(address, port)
        == "AT+QIOPEN=" + "\"" + ("TCP" + "\"" + ("," + "\"" + (a + "\"" + ("," + "\"" + (p + "\"" + last)))));
    assert '"' !in p;
    FirstQuotedField("AT+QIOPEN=", "TCP", "," + "\"" + (a + "\"" + ("," + "\"" + (p + "\"" + last))));
    FirstQuotedField(",", a, "," + "\"" + (p + "\"" + last));
    FirstQuotedField(",", p, last);
    assert QuotedFields(last) == [] by {
      NoQuotedField(last);
    }
    StrtoulReadsDecimal([], port, []);
    assert [] + p + [] == p;
  }

  lemma NoQuotedField(s: seq<Byte>)
    requires '"' !in s
    ensures QuotedFields(s) == []
  {
    IndexOfUnique(s, '"', |s|);
  }

  function NumberCommand(sms: Sms): seq<Byte> {
    Snprintf(SMS_BUF_LEN, "AT+CMGS=\"" + CString(sms.number) + "\"\r")
  }

  function BodyCommand(sms: Sms): seq<Byte> {
    Snprintf(SMS_BUF_LEN, CString(sms.body) + [CTRL_Z])
  }

  /** No SMS is cut by the command buffer: both commands carry the whole text and their terminators. */
  lemma SmsCommandsWhole(sms: Sms)
    ensures NumberCommand(sms) == "AT+CMGS=\"" + CString(sms.number) + "\"\r"
    ensures BodyCommand(sms) == CString(sms.body) + [CTRL_Z]
  {
    assert |CString(sms.number)| <= |sms.number| && |CString(sms.body)| <= |sms.body|;
  }

  // ---------------------------------------------------------------- all commands

  datatype AtCommand =
    | Fixed(state: State)
    | Qisend(n: nat)
    | Qiopen(address: seq<Byte>, port: Port)
    | SmsTo(sms: Sms)
    | SmsBodyOf(sms: Sms)

  /** The bytes a command puts on the line. */
  function Text(c: AtCommand): seq<Byte>
    requires c.Fixed? ==> SendsFixedCommand(c.state)
  {
    match c
    case Fixed(s) => FixedText(s)
    case Qisend(n) => QisendCommand(n)
    case Qiopen(address, port) => QiopenCommand(address, port)
    case SmsTo(sms) => NumberCommand(sms)
    case SmsBodyOf(sms) => BodyCommand(sms)
  }

  /** What goes over the line for a message: its number as a quoted text, then its body up to Ctrl-Z. */
  lemma SmsTexts(sms: Sms)
    ensures Text(SmsTo(sms)) == "AT+CMGS=\"" + CString(sms.number) + "\"\r"
    ensures Text(SmsBodyOf(sms)) == CString(sms.body) + [26 as char]
  {
    hide NumberCommand, BodyCommand, FixedText, QisendCommand, QiopenCommand;
    SmsCommandsWhole(sms);
  }
}
