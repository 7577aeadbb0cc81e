/** A writer that keeps only the last bytes of everything written to it, in place and within its first allocation. */
module TailBuffer {
  import opened DockerLogs

  /** The last bytes of a text, at most limit of them. */
  function Last(text: bytes, limit: nat): bytes {
    if |text| <= limit then text else text[|text| - limit..]
  }

  /** Only the last bytes of a text matter to what is kept once more is written. */
  lemma LastForgets(text: bytes, p: bytes, limit: nat)
    ensures Last(text + p, limit) == Last(Last(text, limit) + p, limit)
  {
    if |text| > limit {
      var kept := Last(text, limit);
      assert text == text[..|text| - limit] + kept;
      assert text + p == text[..|text| - limit] + (kept + p);
    }
  }

  class TailBuffer {
    const limit: nat
    const data: array<byte>
    var length: nat
    var total: nat

    constructor (limit: nat)
      ensures Valid() && this.limit == limit && Contents() == [] && total == 0 && fresh(data)
    {
      this.limit := limit;
      data := new byte[limit](_ => 0);
      length, total := 0, 0;
    }

    /** The kept bytes fit the first allocation, which is never replaced. */
    ghost predicate Valid()
      reads this
    {
      data.Length == limit && length <= limit
    }

    ghost function Contents(): bytes
      reads this, data
      requires Valid()
    {
      data[..length]
    }

    /** Overwrites the bytes from the given position on and ends the contents after them. */
    method PutAt(start: nat, p: bytes)
      requires Valid() && start + |p| <= limit && start <= length
      modifies this`length, data
      ensures Valid() && Contents() == old(Contents())[..start] + p
    {
      for i := 0 to |p|
        invariant data[..start] == old(data[..start])
        invariant data[start..start + i] == p[..i]
      {
        data[start + i] := p[i];
      }
      length := start + |p|;
      assert data[..length] == data[..start] + data[start..start + |p|];
    }

    /** Moves the contents down over the first overflow bytes. */
    method DropFirst(overflow: nat)
      requires Valid() && overflow <= length
      modifies this`length, data
      ensures Valid() && Contents() == old(Contents())[overflow..]
    {
      for i := 0 to length - overflow
        invariant length == old(length)
        invariant forall k :: 0 <= k < i ==> data[k] == old(data[overflow + k])
        invariant forall k :: i <= k < length ==> data[k] == old(data[k])
      {
        data[i] := data[overflow + i];
      }
      length := length - overflow;
    }

    method Write(p: bytes) returns (written: nat)
      requires Valid()
      modifies this`length, this`total, data
      ensures Valid() && written == |p| && total == old(total) + |p|
      ensures Contents() == Last(old(Contents()) + p, limit)
    {
      written := |p|;
      total := total + written;
      if limit == 0 || written == 0 {
        return;
      }
      if written >= limit {
        PutAt(0, p[written - limit..]);
        return;
      }
      var overflow := length + written - limit;
      if overflow > 0 {
        DropFirst(overflow);
      }
      PutAt(length, p);
    }

    /** A copy, so later writes do not show through it. */
    method Bytes() returns (copy: bytes)
      requires Valid()
      ensures copy == Contents()
    {
      copy := data[..length];
    }

    method Truncated() returns (truncated: bool)
      requires Valid()
      ensures truncated <==> total > limit
    {
      truncated := total > limit;
    }
  }

  function Concatenated(writes: seq<bytes>): bytes {
    if writes == [] then [] else Concatenated(writes[..|writes| - 1]) + writes[|writes| - 1]
  }

  /** What any sequence of writes leaves: the last bytes of their concatenation, and whether any were lost. */
  method Collect(limit: nat, writes: seq<bytes>) returns (kept: bytes, truncated: bool)
    ensures kept == Last(Concatenated(writes), limit)
    ensures |kept| == if |Concatenated(writes)| < limit then |Concatenated(writes)| else limit
    ensures kept == Concatenated(writes)[|Concatenated(writes)| - |kept|..]
    ensures truncated <==> kept != Concatenated(writes)
  {
    var tail := new TailBuffer(limit);
    for i := 0 to |writes|
      invariant tail.Valid() && fresh(tail) && fresh(tail.data) && tail.limit == limit
      invariant tail.Contents() == Last(Concatenated(writes[..i]), limit)
      invariant tail.total == |Concatenated(writes[..i])|
    {
      assert writes[..i + 1][..i] == writes[..i];
      LastForgets(Concatenated(writes[..i]), writes[i], limit);
      var _ := tail.Write(writes[i]);
    }
    assert writes[..|writes|] == writes;
    kept := tail.Bytes();
    truncated := tail.Truncated();
  }
}
