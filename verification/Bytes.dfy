/**
 Bytes as the driver sees them: a `uint8_t` is a character below 256, an event or a
 command is a sequence of them, and the C library is used on NUL-terminated text.
 */
module Bytes {

  type Byte = c: char | c as int < 256 witness 'a'

  datatype Option<+T> = None | Some(value: T)

  const NUL: Byte := '\0'

  // The driver's target is a Cortex-M, where unsigned long has 32 bits.
  const ULONG_MAX: nat := 0xFFFF_FFFF

  predicate IsDigit(c: char) {
    '0' <= c <= '9'
  }

  predicate IsSpace(c: char) {
    c == ' ' || '\t' <= c <= '\r'
  }

  // ---------------------------------------------------------------- searching

  /** Position of the first `c`, or |s| when there is none. */
  function IndexOf(s: seq<Byte>, c: Byte): (i: nat)
    ensures i <= |s|
    ensures i < |s| ==> s[i] == c
    ensures forall k :: 0 <= k < i ==> s[k] != c
  {
    if s == [] || s[0] == c then 0 else 1 + IndexOf(s[1..], c)
  }

  lemma IndexOfUnique(s: seq<Byte>, c: Byte, i: nat)
    requires i <= |s|
    requires i < |s| ==> s[i] == c
    requires forall k :: 0 <= k < i ==> s[k] != c
    ensures IndexOf(s, c) == i
  {
  }

  /** `c` first occurs right after a prefix that is free of it. */
  lemma IndexOfAfter(a: seq<Byte>, c: Byte, rest: seq<Byte>)
    requires c !in a
    ensures IndexOf(a + [c] + rest, c) == |a|
  {
    IndexOfUnique(a + [c] + rest, c, |a|);
  }

  predicate OccursAt(s: seq<Byte>, p: seq<Byte>, i: nat) {
    i + |p| <= |s| && s[i..i + |p|] == p
  }

  /** Position of the first occurrence of `p` at `from` or later, or |s| when there is none. */
  function FindFrom(s: seq<Byte>, p: seq<Byte>, from: nat): (i: nat)
    requires from <= |s|
    ensures from <= i <= |s|
    ensures i < |s| ==> OccursAt(s, p, i)
    ensures forall k: nat :: from <= k < i ==> !OccursAt(s, p, k)
    decreases |s| - from
  {
    if from == |s| || OccursAt(s, p, from) then from else FindFrom(s, p, from + 1)
  }

  function Find(s: seq<Byte>, p: seq<Byte>): (i: nat)
    ensures i <= |s|
    ensures i < |s| ==> OccursAt(s, p, i)
    ensures forall k: nat :: k < i ==> !OccursAt(s, p, k)
  {
    FindFrom(s, p, 0)
  }

  lemma FindUnique(s: seq<Byte>, p: seq<Byte>, i: nat)
    requires i < |s| && OccursAt(s, p, i)
    requires forall k: nat :: k < i ==> !OccursAt(s, p, k)
    ensures Find(s, p) == i
  {
    assert i <= Find(s, p) || !OccursAt(s, p, Find(s, p));
  }

  // ---------------------------------------------------------------- C strings

  /** What the C library sees of `s`: everything before the first NUL. */
  function CString(s: seq<Byte>): (t: seq<Byte>)
    ensures t <= s && NUL !in t
  {
    s[..IndexOf(s, NUL)]
  }

  lemma CStringOfWhole(s: seq<Byte>)
    requires NUL !in s
    ensures CString(s) == s
  {
    IndexOfUnique(s, NUL, |s|);
  }

  /** `snprintf` into `size` bytes keeps room for the terminator. */
  function Snprintf(size: nat, text: seq<Byte>): (s: seq<Byte>)
    requires 0 < size
    ensures |s| < size && s <= text
    ensures |s| == if |text| < size then |text| else size - 1
  {
    if |text| < size then text else text[..size - 1]
  }

  // ------------------------------------------------------------------ numbers

  predicate AllDigits(s: seq<Byte>) {
    forall i :: 0 <= i < |s| ==> IsDigit(s[i])
  }

  function Pow10(k: nat): (p: nat)
    ensures p >= 1
  {
    if k == 0 then 1 else 10 * Pow10(k - 1)
  }

  function Value(s: seq<Byte>): nat
    requires AllDigits(s)
  {
    if s == [] then 0 else 10 * Value(s[..|s| - 1]) + (s[|s| - 1] as int - '0' as int)
  }

  /** `%d` of a non-negative number. */
  function Decimal(n: nat): (s: seq<Byte>)
    ensures AllDigits(s) && s != []
  {
    if n < 10 then [('0' as int + n) as char]
    else Decimal(n / 10) + [('0' as int + n % 10) as char]
  }

  lemma {:induction false} ValueOfDecimal(n: nat)
    ensures Value(Decimal(n)) == n
  {
    if n < 10 {
      assert Decimal(n)[..0] == [];
    } else {
      ValueOfDecimal(n / 10);
      assert Decimal(n)[..|Decimal(n)| - 1] == Decimal(n / 10);
    }
  }

  /** The number of digits is the one place-value notation promises, both ways. */
  lemma {:induction false} DecimalLength(n: nat, k: nat)
    requires 0 < k
    ensures |Decimal(n)| <= k <==> n < Pow10(k)
  {
    if n < 10 {
      assert Pow10(k) >= 10;
    } else if k > 1 {
      DecimalLength(n / 10, k - 1);
    }
  }

  /** Length of the longest prefix made of digits. */
  function DigitRun(s: seq<Byte>): (k: nat)
    ensures k <= |s| && AllDigits(s[..k])
    ensures k < |s| ==> !IsDigit(s[k])
  {
    if s == [] || !IsDigit(s[0]) then 0
    else
      var k := 1 + DigitRun(s[1..]);
      assert forall i :: 0 < i < k ==> s[..k][i] == s[1..][..k - 1][i - 1];
      k
  }

  function SkipSpaces(s: seq<Byte>): (t: seq<Byte>)
    ensures |t| <= |s|
    ensures t != [] ==> !IsSpace(t[0])
  {
    if s != [] && IsSpace(s[0]) then SkipSpaces(s[1..]) else s
  }

  function LeadingValue(s: seq<Byte>): nat {
    Value(s[..DigitRun(s)])
  }

  /** One sign, then digits; saturates, and negates modulo 2^32. */
  function NumberAt(t: seq<Byte>): (v: nat)
    ensures v <= ULONG_MAX
  {
    var v := if t != [] && (t[0] == '-' || t[0] == '+') then LeadingValue(t[1..]) else LeadingValue(t);
    if v > ULONG_MAX then ULONG_MAX
    else if t != [] && t[0] == '-' && v != 0 then ULONG_MAX + 1 - v
    else v
  }

  /** `strtoul (s, nullptr, 10)`: blanks, then a number. */
  function Strtoul(s: seq<Byte>): (v: nat)
    ensures v <= ULONG_MAX
  {
    NumberAt(SkipSpaces(s))
  }

  /** Assigning an unsigned 32-bit value to an `int`. */
  function ToInt(v: nat): (i: int)
    ensures (i - v) % 0x1_0000_0000 == 0
    ensures v <= 0xFFFF_FFFF ==> -0x8000_0000 <= i < 0x8000_0000
  {
    if v < 0x8000_0000 then v else v - 0x1_0000_0000
  }

  lemma DigitRunUnique(s: seq<Byte>, k: nat)
    requires k <= |s| && AllDigits(s[..k])
    requires k < |s| ==> !IsDigit(s[k])
    ensures DigitRun(s) == k
  {
    var j := DigitRun(s);
    assert forall i :: 0 <= i < k ==> s[..k][i] == s[i];
    assert forall i :: 0 <= i < j ==> s[..j][i] == s[i];
  }

  lemma {:induction false} SkipSpacesPadded(pad: seq<Byte>, s: seq<Byte>)
    requires forall c :: c in pad ==> IsSpace(c)
    requires s != [] ==> !IsSpace(s[0])
    ensures SkipSpaces(pad + s) == s
  {
    if pad == [] {
      assert pad + s == s;
    } else {
      assert (pad + s)[1..] == pad[1..] + s;
      SkipSpacesPadded(pad[1..], s);
    }
  }

  /** The value of a number read after a sign: saturated, then negated modulo 2^32. */
  function Signed(sign: seq<Byte>, n: nat): nat {
    if n > 0xFFFF_FFFF then 0xFFFF_FFFF
    else if sign == "-" && n > 0 then 0x1_0000_0000 - n
    else n
  }

  lemma LeadingDecimal(n: nat, rest: seq<Byte>)
    requires rest != [] ==> !IsDigit(rest[0])
    ensures LeadingValue(Decimal(n) + rest) == n
  {
    var s := Decimal(n) + rest;
    assert s[..|Decimal(n)|] == Decimal(n);
    DigitRunUnique(s, |Decimal(n)|);
    ValueOfDecimal(n);
  }

  lemma SignedReads(sign: seq<Byte>, n: nat, s: seq<Byte>)
    requires sign == "" || sign == "+" || sign == "-"
    requires s != [] && IsDigit(s[0]) && LeadingValue(s) == n
    ensures NumberAt(sign + s) == Signed(sign, n)
  {
    hide LeadingValue;
    if sign == [] {
      assert sign + s == s;
    } else {
      assert (sign + s)[1..] == s;
    }
  }

  /** Every printed number, of any size and sign, behind blanks and before anything but a digit. */
  lemma StrtoulReads(pad: seq<Byte>, sign: seq<Byte>, n: nat, rest: seq<Byte>)
    requires forall c :: c in pad ==> c == ' ' || 9 <= c as int <= 13
    requires sign == "" || sign == "+" || sign == "-"
    requires rest != [] ==> !('0' <= rest[0] <= '9')
    ensures Strtoul(pad + sign + Decimal(n) + rest) == Signed(sign, n)
  {
    hide NumberAt, LeadingValue, SkipSpaces, Decimal, Signed;
    var s := Decimal(n) + rest;
    assert IsDigit(s[0]);
    assert pad + sign + Decimal(n) + rest == pad + (sign + s);
    SkipSpacesPadded(pad, sign + s);
    LeadingDecimal(n, rest);
    SignedReads(sign, n, s);
  }

  /** Where no digit stands, the value is zero. */
  lemma StrtoulNeedsDigit(pad: seq<Byte>, sign: seq<Byte>, rest: seq<Byte>)
    requires forall c :: c in pad ==> c == ' ' || 9 <= c as int <= 13
    requires sign == "" || sign == "+" || sign == "-"
    requires rest != [] ==> !('0' <= rest[0] <= '9') && rest[0] != '+' && rest[0] != '-'
    requires rest != [] ==> rest[0] != ' ' && !(9 <= rest[0] as int <= 13)
    ensures Strtoul(pad + sign + rest) == 0
  {
    assert pad + sign + rest == pad + (sign + rest);
    SkipSpacesPadded(pad, sign + rest);
    assert sign != [] ==> (sign + rest)[1..] == rest;
    assert sign == [] ==> sign + rest == rest;
    DigitRunUnique(rest, 0);
    assert rest[..0] == [];
  }

  /** Printing then reading: blanks before the number and a non-digit after it do not matter. */
  lemma StrtoulReadsDecimal(pad: seq<Byte>, n: nat, rest: seq<Byte>)
    requires forall c :: c in pad ==> IsSpace(c)
    requires n <= ULONG_MAX
    requires rest != [] ==> !IsDigit(rest[0])
    ensures Strtoul(pad + Decimal(n) + rest) == n
  {
    hide Strtoul, Decimal;
    assert pad + [] == pad;
    StrtoulReads(pad, [], n, rest);
  }

  lemma {:induction false} SkipSpacesThen(s: seq<Byte>, rest: seq<Byte>)
    requires rest != [] && !IsSpace(rest[0])
    ensures SkipSpaces(s + rest) == SkipSpaces(s) + rest
  {
    if s == [] {
      assert s + rest == rest;
    } else {
      assert (s + rest)[1..] == s[1..] + rest;
      if IsSpace(s[0]) {
        SkipSpacesThen(s[1..], rest);
      }
    }
  }

  lemma LeadingValueThen(s: seq<Byte>, rest: seq<Byte>)
    requires rest != [] && !IsDigit(rest[0])
    ensures LeadingValue(s + rest) == LeadingValue(s)
  {
    var k := DigitRun(s);
    assert (s + rest)[..k] == s[..k];
    DigitRunUnique(s + rest, k);
  }

  /** A NUL ends the number, whatever bytes lie behind it. */
  lemma StrtoulStopsAtNul(s: seq<Byte>, rest: seq<Byte>)
    requires rest != [] && rest[0] == NUL
    ensures Strtoul(s + rest) == Strtoul(s)
  {
    SkipSpacesThen(s, rest);
    var t := SkipSpaces(s);
    LeadingValueThen(t, rest);
    if t != [] {
      assert (t + rest)[1..] == t[1..] + rest;
      LeadingValueThen(t[1..], rest);
    } else {
      assert t + rest == rest;
    }
  }

  // ------------------------------------------- the library's searches as loops

  /** `std::find (s.begin () + from, s.end (), c)`. */
  method FindByte(s: seq<Byte>, from: nat, c: Byte) returns (i: nat)
    requires from <= |s|
    ensures i == from + IndexOf(s[from..], c)
  {
    i := from;
    while i < |s| && s[i] != c
      invariant from <= i <= |s|
      invariant forall k :: from <= k < i ==> s[k] != c
    {
      i := i + 1;
    }
    IndexOfUnique(s[from..], c, i - from);
  }

  /** `std::search (s.begin (), s.end (), p.begin (), p.end ())`. */
  method Search(s: seq<Byte>, p: seq<Byte>) returns (i: nat)
    requires p != []
    ensures i == Find(s, p)
  {
    i := 0;
    while i < |s|
      invariant i <= |s|
      invariant forall k: nat :: k < i ==> !OccursAt(s, p, k)
    {
      if i + |p| <= |s| && s[i..i + |p|] == p {
        FindUnique(s, p, i);
        return;
      }
      assert !OccursAt(s, p, i);
      i := i + 1;
    }
    assert forall k: nat :: k < |s| ==> !OccursAt(s, p, k);
  }
}
