/** The signer's output sink (aws_out_t): one writer that either feeds a streaming digest or fills
    a caller's buffer, so that what is signed and what is sent come from the same code. */
module OutputSink {
  import opened Bytes

  lemma NothingBefore(text: bytes)
    ensures [] + text == text
  {
  }

  class Sink {
    const hashing: bool
    var digested: bytes           // digest mode: every byte the SHA-256 context has absorbed
    const dst: array?<byte>       // buffer mode: the destination, null in a size-only pass
    const base: nat               // where the destination starts in its array
    const cap: nat
    var len: nat                  // bytes the full output needs, excluding the NUL
    ghost var fed: bytes          // everything put so far

    ghost predicate Valid()
      reads this, dst
    {
      && (dst != null ==> base + cap <= dst.Length)
      && (hashing ==> digested == fed)
      && (!hashing ==> len == |fed|)
      && (!hashing && dst != null && len < cap ==> dst[base..base + len] == fed)
    }

    /** Bytes of the array that are not this sink's stay as they were. */
    twostate predicate OthersUnchanged()
      reads dst
    {
      dst != null ==> forall k :: 0 <= k < dst.Length && !(base <= k < base + cap) ==> dst[k] == old(dst[k])
    }

    constructor Hash()
      ensures Valid() && fed == [] && hashing && dst == null
    {
      hashing, digested, dst, base, cap, len, fed := true, [], null, 0, 0, 0, [];
    }

    constructor Buffer(dst: array?<byte>, base: nat, cap: nat)
      requires dst != null ==> base + cap <= dst.Length
      ensures Valid() && fed == [] && !hashing
      ensures this.dst == dst && this.base == base && this.cap == cap
    {
      this.hashing, this.digested, this.dst, this.base, this.cap, this.len, this.fed :=
        false, [], dst, base, cap, 0, [];
    }

    method Put(p: bytes)
      requires Valid()
      modifies this, dst
      ensures Valid() && fed == old(fed) + p
      ensures OthersUnchanged()
    {
      fed := fed + p;
      if hashing {
        digested := digested + p;
        return;
      }
      if dst != null && cap != 0 && len + |p| < cap {
        forall k | 0 <= k < |p| {
          dst[base + len + k] := p[k];
        }
        assert dst[base..base + len] == old(dst[base..base + len]);
        assert dst[base + len..base + len + |p|] == p;
        assert dst[base..base + len + |p|] == dst[base..base + len] + dst[base + len..base + len + |p|];
      }
      len := len + |p|;
    }

    method PutByte(c: byte)
      requires Valid()
      modifies this, dst
      ensures Valid() && fed == old(fed) + [c]
      ensures OthersUnchanged()
    {
      Put([c]);
    }

    /** NUL-terminates. The return value is the length the whole output needs; when it fits, the
        destination holds exactly what was put, then the NUL. */
    method Finish() returns (n: nat)
      requires Valid() && !hashing
      modifies dst
      ensures Valid() && n == |fed|
      ensures dst != null && n < cap ==> dst[base..base + n] == fed && dst[base + n] == 0
      ensures dst != null && n >= cap > 0 ==> dst[base + cap - 1] == 0
      ensures OthersUnchanged()
    {
      if dst != null && cap != 0 {
        dst[base + if len < cap then len else cap - 1] := 0;
        if len < cap {
          assert dst[base..base + len] == old(dst[base..base + len]);
        }
      }
      n := len;
    }
  }
}
