/** The growing buffer both HTTP paths stream a response body into. */
module ResponseAccum {
  import opened Bytes

  const ACCUM_MIN_CAP: nat := 512

  datatype Status = StatusOk | NoMem | InvalidSize

  class Accum {
    var buf: array?<byte>
    var len: nat
    var cap: nat
    const limit: nat              // largest body accepted, excluding the terminator
    var status: Status
    var gotResponse: bool
    ghost var body: bytes         // the chunks accepted since the last reset, concatenated
    ghost var copied: nat         // bytes moved by growth since the last reset
    ghost var lateHint: bool      // a size hint came after body bytes

    ghost predicate Valid()
      reads this, buf
    {
      && len == |body|
      && (buf == null ==> cap == 0 && len == 0)
      && (buf != null ==> cap == buf.Length && len < cap <= limit + 1 && buf[..len] == body)
      && Amortised() && (!lateHint ==> copied <= cap || cap == limit + 1)
    }

    /** Growing has moved at most twice the body, unless a size hint made it grow after body bytes came. */
    ghost predicate Amortised()
      reads this
    {
      !lateHint ==> copied <= 2 * len
    }

    constructor (limit: nat)
      ensures Valid() && this.limit == limit && body == [] && status == StatusOk && !gotResponse
      ensures buf == null && copied == 0 && !lateHint
    {
      buf, len, cap, this.limit, status, gotResponse := null, 0, 0, limit, StatusOk, false;
      body, copied, lateHint := [], 0, false;
    }

    /** accum_reset(): nothing received yet; the allocation stays for the next attempt. */
    method Reset()
      requires Valid()
      modifies this, buf
      ensures Valid() && body == [] && status == StatusOk && !gotResponse
      ensures buf == old(buf) && cap == old(cap) && copied == 0 && !lateHint
    {
      len, status, gotResponse := 0, StatusOk, false;
      body, copied, lateHint := [], 0, false;
      if buf != null {
        buf[0] := 0;
      }
    }

    /** The capacity to allocate: what is needed when known, else doubling, within the limit. */
    method NewCap(need: nat, exact: bool) returns (c: nat)
      requires Valid() && cap < need + 1 <= limit + 1
      ensures need + 1 <= c <= limit + 1
      ensures exact ==> c == need + 1
      ensures !exact ==> c >= 2 * cap || c == limit + 1
    {
      c := need + 1;
      if !exact {
        c := if cap != 0 then cap else ACCUM_MIN_CAP;
        while c < need + 1
          invariant c > 0 && (c == cap || (c == ACCUM_MIN_CAP && cap == 0) || c >= 2 * cap)
          decreases need + 1 - c
        {
          c := c * 2;
        }
        if c > limit + 1 {
          c := limit + 1;
        }
      }
    }

    /** accum_reserve(): room for need bytes and the terminator, or the reason why not. */
    method Reserve(need: nat, exact: bool, allocOk: bool) returns (ok: bool)
      requires Valid()
      modifies this`buf, this`cap, this`status, this`copied
      ensures len == |body| && (lateHint <==> old(lateHint))
      ensures ok ==> buf != null && cap == buf.Length && need < cap <= limit + 1 && len < cap && buf[..len] == body
      ensures ok ==> status == old(status)
      ensures ok && old(cap) > need ==> buf == old(buf) && copied == old(copied) && cap == old(cap)
      ensures ok && old(cap) <= need ==>
        fresh(buf) && copied == old(copied) + len && (exact ==> cap == need + 1) && (!exact ==> cap >= 2 * old(cap) || cap == limit + 1)
      ensures !ok ==> Valid() && status != StatusOk && buf == old(buf) && cap == old(cap) && copied == old(copied)
      ensures status == InvalidSize && old(status) != InvalidSize ==> need > limit
      ensures need > limit ==> !ok && status == InvalidSize
      ensures need <= limit && allocOk ==> ok
    {
      if need > limit {
        status := InvalidSize;
        return false;
      }
      if need + 1 <= cap {
        return true;
      }
      var c := NewCap(need, exact);
      if !allocOk {
        status := NoMem;
        return false;
      }
      var grown := new byte[c];
      if len != 0 {
        forall k | 0 <= k < len {
          grown[k] := buf[k];
        }
        copied := copied + len;
        assert grown[..len] == buf[..len];
      }
      buf := grown;
      cap := c;
      ok := true;
    }

    /** accum_hint(): the declared length, 0 when the reply is chunked. */
    method Hint(contentLength: nat, allocOk: bool) returns (accepted: bool)
      requires Valid()
      modifies this
      ensures Valid() && Amortised() && gotResponse && body == old(body)
      ensures accepted ==> status == old(status)
      ensures !accepted ==> status != StatusOk
      ensures contentLength > limit ==> !accepted && status == InvalidSize
      ensures contentLength == 0 || (contentLength <= limit && allocOk) ==> accepted
      ensures lateHint == (old(lateHint) || (old(len) > 0 && contentLength != 0))
      ensures buf == old(buf) || fresh(buf)
      ensures accepted && contentLength != 0 ==> cap > contentLength
    {
      gotResponse := true;
      if contentLength == 0 {
        return true;
      }
      accepted := Reserve(contentLength, true, allocOk);
      lateHint := lateHint || len > 0;
    }

    /** accum_sink(): bytes taken; fewer than offered aborts the transfer and status says why. */
    method Sink(data: bytes, allocOk: bool) returns (taken: nat)
      requires Valid()
      modifies this, buf
      ensures Valid() && Amortised() && gotResponse && lateHint == old(lateHint)
      ensures taken == |data| || taken == 0
      ensures taken == 0 < |data| ==> status != StatusOk && body == old(body)
      ensures taken == |data| > 0 ==> status == old(status) && body == old(body) + data
      ensures data == [] ==> body == old(body)
      ensures status == StatusOk ==> old(status) == StatusOk
      ensures taken == |data| > 0 || status == StatusOk ==> buf != null && len < buf.Length && buf[len] == 0
      ensures old(len) + |data| > limit ==> taken == 0 && status == InvalidSize
      ensures old(len) + |data| <= limit && allocOk ==> taken == |data|
      ensures buf == old(buf) || fresh(buf)
    {
      gotResponse := true;
      var ok := Reserve(len + |data|, false, allocOk);
      if !ok {
        return 0;
      }
      forall k | 0 <= k < |data| {
        buf[len + k] := data[k];
      }
      len := len + |data|;
      body := body + data;
      buf[len] := 0;
      taken := |data|;
    }
  }
}
