/**
 The bounded buffer of bytes waiting to be sent, and what `SendNetworkAction` and `send`
 do to it in place.
 */
module SendBuffer {
  import opened Bytes

  const OUTPUT_BUFFER_SIZE: nat := 2048 * 3
  const GSM_MAX_BYTES_SEND: nat := 1460

  /** How many bytes a round announces. */
  function Window(held: nat): (n: nat)
    ensures n == 0 <==> held == 0
  {
    var n := GSM_MAX_BYTES_SEND;
    if held < n then held else n
  }

  /** The buffer after the first `n` bytes were declared sent. */
  function DropFirst(s: seq<Byte>, n: nat): (t: seq<Byte>)
    ensures n <= |s| ==> s[..n] + t == s
    ensures |s| <= n ==> t == []
  {
    if n < |s| then s[n..] else []
  }

  function Prefix(s: seq<Byte>, n: nat): (t: seq<Byte>)
    ensures t <= s && |t| <= n
  {
    if n <= |s| then s[..n] else s
  }

  class Buffer {
    const data: array<Byte>
    var size: nat

    ghost predicate Valid()
      reads this, data
    {
      data.Length == OUTPUT_BUFFER_SIZE && size <= data.Length
    }

    ghost function Contents(): (s: seq<Byte>)
      requires Valid()
      reads this, data
      ensures |s| == size
    {
      data[..size]
    }

    constructor ()
      ensures Valid() && fresh(data) && Contents() == []
    {
      data := new Byte[OUTPUT_BUFFER_SIZE];
      size := 0;
    }

    /** `send`: takes all of the bytes or none of them. */
    method Append(bytes: seq<Byte>) returns (taken: nat)
      requires Valid()
      modifies this`size, data
      ensures Valid()
      ensures taken == if |old(Contents())| + |bytes| <= 6144 then |bytes| else 0
      ensures Contents() == old(Contents()) + bytes[..taken]
    {
      if size + |bytes| > data.Length {
        return 0;
      }
      var k := 0;
      while k < |bytes|
        invariant 0 <= k <= |bytes|
        invariant size == old(size) + k && Valid() && old(size) + |bytes| <= data.Length
        invariant Contents() == old(Contents()) + bytes[..k]
      {
        data[size] := bytes[k];
        size := size + 1;
        k := k + 1;
      }
      taken := |bytes|;
    }

    method Clear()
      requires Valid()
      modifies this`size
      ensures Valid() && Contents() == []
    {
      size := 0;
    }

    /** STAGE_SEND: the bytes handed to the USART. */
    method Transmitted(n: nat) returns (bytes: seq<Byte>)
      requires Valid() && n <= size
      ensures bytes == Contents()[..n]
    {
      bytes := data[..n];
    }

    /**
     STAGE_DECLARE: an overlapping forward copy of the tail over the front, then a shrink;
     or a clear when nothing is left. Any `n` is allowed.
     */
    method DeclareRead(n: nat)
      requires Valid()
      modifies this`size, data
      ensures Valid()
      ensures Contents() == DropFirst(old(Contents()), n)
    {
      if size - n <= 0 {
        size := 0;
        return;
      }
      ghost var was := Contents();
      var k, rest := 0, size - n;
      while k < rest
        invariant size == |was| == rest + n && 0 <= k <= rest && Valid()
        invariant forall i :: 0 <= i < k ==> data[i] == was[i + n]
        invariant forall i :: k <= i < size ==> data[i] == was[i]
      {
        data[k] := data[k + n];
        k := k + 1;
      }
      size := rest;
      assert data[..rest] == was[n..];
    }
  }
}
