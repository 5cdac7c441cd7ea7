/** The TLV codec of cmd_resp.c: values longer than 255 bytes are chunked, the encoded size is computed
    separately, and the readers walk a buffer of whole TLVs. */
module TlvCodec {
  import opened Bytes

  const CHUNK: nat := 255

  // ---------------------------------------------------------------- encoding

  /** The bytes add_tlv() writes: chunks of 255, a shorter last one, one empty chunk for no data; no
      empty chunk after a last full one. */
  function Encode(t: byte, val: bytes): bytes
    decreases |val|
  {
    if |val| <= CHUNK then [t, |val|] + val else [t, CHUNK] + val[..CHUNK] + Encode(t, val[CHUNK..])
  }

  /** get_tlv_encoded_size(). */
  function EncodedSize(len: nat): nat {
    var packets := len / CHUNK + 1;
    2 * packets + (packets - 1) * CHUNK + len % CHUNK
  }

  lemma EncodedSizeStep(len: nat)
    requires len > CHUNK
    ensures EncodedSize(len) == EncodedSize(len - CHUNK) + CHUNK + 2
    ensures (len - CHUNK) % CHUNK == len % CHUNK
  {
    assert len / CHUNK == (len - CHUNK) / CHUNK + 1;
  }

  /** The size function is exact, except that it is 2 too large for a positive multiple of 255. */
  lemma {:induction false} EncodeSize(t: byte, val: bytes)
    ensures |Encode(t, val)| == EncodedSize(|val|) - (if |val| > 0 && |val| % CHUNK == 0 then 2 else 0)
    decreases |val|
  {
    if |val| > CHUNK {
      EncodeSize(t, val[CHUNK..]);
      EncodedSizeStep(|val|);
    }
  }

  /** add_tlv()'s guard is satisfied with this room, and the encoding does not fit. */
  predicate Overruns(t: byte, val: bytes, room: int) { |val| + 2 <= room < |Encode(t, val)| }

  class TlvData {
    const buf: array<byte>
    const size: nat
    var cur: nat

    ghost predicate Valid() reads this { cur <= size <= buf.Length }

    ghost function Written(): bytes
      requires Valid()
      reads this, buf
    {
      buf[..cur]
    }

    constructor (buf: array<byte>, size: nat)
      requires size <= buf.Length
      ensures Valid() && Written() == [] && this.buf == buf && this.size == size
    {
      this.buf, this.size, cur := buf, size, 0;
    }

    /** One turn of add_tlv()'s loop. */
    method AddChunk(t: byte, val: bytes, from: nat, n: nat)
      requires Valid() && from + n <= |val| && n <= CHUNK && cur + n + 2 <= size
      modifies this`cur, buf
      ensures Valid() && Written() == old(Written()) + ([t, n] + val[from..from + n])
      ensures cur == old(cur) + n + 2
    {
      buf[cur] := t;
      buf[cur + 1] := n;
      forall k | 0 <= k < n {
        buf[cur + 2 + k] := val[from + k];
      }
      assert buf[..cur] == old(buf[..cur]);
      assert buf[cur + 2..cur + 2 + n] == val[from..from + n];
      assert buf[..cur + 2 + n] == buf[..cur] + ([buf[cur], buf[cur + 1]] + buf[cur + 2..cur + 2 + n]);
      cur := cur + n + 2;
    }

    /** add_tlv(). Its guard makes room for one header only, so a value that needs several may run past the
        buffer; overrun stands for that, at the first chunk that does not fit. */
    method AddTlv(t: byte, val: bytes) returns (r: int, overrun: bool)
      requires Valid()
      modifies this`cur, buf
      ensures Valid()
      ensures overrun <==> Overruns(t, val, size - old(cur))
      ensures |val| + 2 > size - old(cur) ==> r == -1 && Written() == old(Written())
      ensures |val| + 2 <= size - old(cur) && !overrun ==> r == |Encode(t, val)| && Written() == old(Written()) + Encode(t, val)
    {
      if |val| + 2 > size - cur {
        return -1, false;
      }
      r, overrun := AddChunks(t, val);
    }

    /** add_tlv()'s loop. */
    method AddChunks(t: byte, val: bytes) returns (r: int, overrun: bool)
      requires Valid()
      modifies this`cur, buf
      ensures Valid() && (overrun <==> |Encode(t, val)| > size - old(cur))
      ensures !overrun ==> r == |Encode(t, val)| && Written() == old(Written()) + Encode(t, val)
    {
      ghost var start, all, todo := Written(), Encode(t, val), Encode(t, val);
      var orig := cur;
      var from: nat := 0;
      var len: nat := |val|;
      assert val[0..] == val;
      while true
        invariant Valid() && from + len == |val| && orig <= cur
        invariant todo == Encode(t, val[from..])
        invariant Written() + todo == start + all
        decreases len
      {
        var n := if len > CHUNK then CHUNK else len;
        ChunkOf(t, val, from, n);
        if cur + 2 + n > size {
          assert |Written() + todo| == |start + all|;
          return 0, true;
        }
        ghost var chunk := [t, n] + val[from..from + n];
        ghost var was := Written();
        AddChunk(t, val, from, n);
        todo := if from + n == |val| then [] else Encode(t, val[from + n..]);
        Regroup(was, chunk, todo);
        from := from + n;
        len := len - n;
        if len == 0 {
          assert Written() + [] == Written();
          break;
        }
      }
      r, overrun := cur - orig, false;
    }
  }

  /** The guard lets an overrun through for some buffer exactly when the value needs more than one chunk;
      such a buffer has room for the data and one header. */
  lemma GuardMisses(t: byte, val: bytes)
    ensures (exists room: nat :: Overruns(t, val, room)) <==> |val| > CHUNK
  {
    EncodeSize(t, val);
    if |val| > CHUNK {
      EncodedSizeStep(|val|);
      assert Overruns(t, val, |val| + 2);
    }
  }

  /** The next chunk of an encoding; an encoding ends with its last data byte. */
  lemma ChunkOf(t: byte, val: bytes, from: nat, n: nat)
    requires from <= |val| && n == if |val| - from > CHUNK then CHUNK else |val| - from
    ensures Encode(t, val[from..]) == ([t, n] + val[from..from + n]) + (if from + n == |val| then [] else Encode(t, val[from + n..]))
  {
    var v := val[from..];
    assert v[..n] == val[from..from + n];
    assert v[n..] == val[from + n..];
  }

  // ---------------------------------------------------------------- reading

  /** Where the TLV that starts at p ends. */
  function End(buf: bytes, p: nat): nat
    requires p + 1 < |buf|
  {
    p + 2 + buf[p + 1] as int
  }

  /** A buffer that is a concatenation of whole TLVs. */
  predicate WellFormed(buf: bytes) {
    buf == [] || (|buf| >= 2 && |buf| >= End(buf, 0) && WellFormed(buf[End(buf, 0)..]))
  }

  function Rest(buf: bytes): bytes
    requires WellFormed(buf) && buf != []
  {
    buf[End(buf, 0)..]
  }

  /** The value continued at buf: chunks of one type up to the first short one. */
  function Collect(buf: bytes, t: byte): bytes
    requires WellFormed(buf)
  {
    if buf == [] || buf[0] != t then []
    else buf[2..End(buf, 0)] + (if buf[1] < CHUNK then [] else Collect(Rest(buf), t))
  }

  /** The first value of a type. */
  function FirstValue(buf: bytes, t: byte): Option<bytes>
    requires WellFormed(buf)
  {
    if buf == [] then None
    else if buf[0] == t then Some(Collect(buf, t))
    else FirstValue(Rest(buf), t)
  }

  lemma WellFormedAt(buf: bytes, p: nat)
    requires p < |buf| && WellFormed(buf[p..])
    ensures p + 2 <= |buf| && End(buf, p) <= |buf|
    ensures WellFormed(buf[End(buf, p)..]) && Rest(buf[p..]) == buf[End(buf, p)..]
    ensures buf[p..][2..End(buf[p..], 0)] == buf[p + 2..End(buf, p)]
  {
    assert buf[p..][End(buf[p..], 0)..] == buf[End(buf, p)..];
  }

  /** get_tlv_length(): the length of the first value of a type, -1 if there is none. */
  method GetTlvLength(buf: bytes, t: byte) returns (r: int)
    requires WellFormed(buf)
    ensures r == match FirstValue(buf, t) case Some(v) => |v| case None => -1
  {
    var p := 0;
    var valLen: nat := 0;
    var found := false;
    assert buf[0..] == buf;
    while p < |buf|
      invariant 0 <= p <= |buf| && WellFormed(buf[p..])
      invariant !found ==> valLen == 0 && FirstValue(buf, t) == FirstValue(buf[p..], t)
      invariant found ==> FirstValue(buf, t).Some? && |FirstValue(buf, t).value| == valLen + |Collect(buf[p..], t)|
      decreases |buf| - p
    {
      WellFormedAt(buf, p);
      if buf[p] == t {
        var len := buf[p + 1];
        valLen := valLen + len;
        if len < CHUNK {
          return valLen;
        }
        found := true;
      } else if found {
        return valLen;
      }
      p := End(buf, p);
    }
    r := if found then valLen else -1;
  }

  /** One memcpy() of get_value_from_tlv(). */
  method CopyChunk(buf: bytes, p: nat, n: nat, val: array<byte>, at: nat)
    requires p + n <= |buf| && at + n <= val.Length
    modifies val
    ensures val[..at + n] == old(val[..at]) + buf[p..p + n]
    ensures forall k :: at + n <= k < val.Length ==> val[k] == old(val[k])
  {
    forall k | 0 <= k < n {
      val[at + k] := buf[p + k];
    }
    assert val[at..at + n] == buf[p..p + n];
    assert val[..at + n] == val[..at] + val[at..at + n];
    assert val[..at] == old(val[..at]);
  }

  /** What is known while get_value_from_tlv() stands at p, with sofar copied. */
  ghost predicate Reading(buf: bytes, p: nat, t: byte, sofar: bytes, found: bool)
    requires WellFormed(buf)
  {
    && p <= |buf| && WellFormed(buf[p..])
    && (!found ==> sofar == [] && FirstValue(buf, t) == FirstValue(buf[p..], t))
    && (found ==> |sofar| >= CHUNK && FirstValue(buf, t) == Some(sofar + Collect(buf[p..], t)))
  }

  lemma CollectAt(buf: bytes, p: nat, t: byte)
    requires p < |buf| && WellFormed(buf[p..]) && buf[p] == t
    ensures p + 1 < |buf| && End(buf, p) <= |buf| && WellFormed(buf[End(buf, p)..])
    ensures FirstValue(buf[p..], t) == Some(Collect(buf[p..], t))
    ensures Collect(buf[p..], t)
      == buf[p + 2..End(buf, p)] + (if buf[p + 1] < CHUNK then [] else Collect(buf[End(buf, p)..], t))
  {
    WellFormedAt(buf, p);
  }

  /** The chunk at p and what the value holds after it. */
  lemma ChunkValue(buf: bytes, p: nat, t: byte, sofar: bytes, found: bool, piece: bytes, more: bytes)
    requires WellFormed(buf) && Reading(buf, p, t, sofar, found) && p < |buf|
    requires Collect(buf[p..], t) == piece + more && FirstValue(buf[p..], t) == Some(piece + more)
    ensures FirstValue(buf, t) == Some(sofar + piece + more)
  {
    assert [] + (piece + more) == piece + more;
    assert sofar + (piece + more) == sofar + piece + more;
  }

  /** What one chunk of the wanted type adds. */
  lemma ChunkStep(buf: bytes, p: nat, t: byte, sofar: bytes, found: bool) returns (piece: bytes)
    requires WellFormed(buf) && Reading(buf, p, t, sofar, found) && p < |buf| && buf[p] == t
    ensures p + 1 < |buf| && End(buf, p) <= |buf| && piece == buf[p + 2..End(buf, p)]
    ensures buf[p + 1] < CHUNK ==> FirstValue(buf, t) == Some(sofar + piece)
    ensures buf[p + 1] == CHUNK ==> Reading(buf, End(buf, p), t, sofar + piece, true)
    ensures FirstValue(buf, t).Some? && |FirstValue(buf, t).value| >= |sofar + piece|
  {
    CollectAt(buf, p, t);
    piece := buf[p + 2..End(buf, p)];
    var more := if buf[p + 1] < CHUNK then [] else Collect(buf[End(buf, p)..], t);
    ChunkValue(buf, p, t, sofar, found, piece, more);
    assert sofar + piece + [] == sofar + piece;
  }

  /** A chunk of another type, or the end, closes a value begun and is skipped before one. */
  lemma OtherStep(buf: bytes, p: nat, t: byte, sofar: bytes, found: bool)
    requires WellFormed(buf) && Reading(buf, p, t, sofar, found) && (p < |buf| ==> buf[p] != t)
    ensures found ==> FirstValue(buf, t) == Some(sofar)
    ensures !found && p < |buf| ==> p + 1 < |buf| && Reading(buf, End(buf, p), t, sofar, false)
    ensures !found && p == |buf| ==> FirstValue(buf, t) == None
  {
    assert sofar + [] == sofar;
    if p < |buf| {
      WellFormedAt(buf, p);
    }
  }

  /** get_value_from_tlv(): the first value of a type if the caller's buffer can hold it, else -1; a
      buffer shorter than a chunk is then untouched. */
  method GetValueFromTlv(buf: bytes, t: byte, val: array<byte>) returns (r: int)
    requires WellFormed(buf)
    modifies val
    ensures r == match FirstValue(buf, t) case Some(v) => (if |v| <= val.Length then |v| else -1) case None => -1
    ensures r >= 0 ==> val[..r] == FirstValue(buf, t).value && forall k :: r <= k < val.Length ==> val[k] == old(val[k])
    ensures r == -1 && val.Length < CHUNK ==> val[..] == old(val[..])
  {
    var p := 0;
    var valLen: nat := 0;
    var found := false;
    assert buf[0..] == buf;
    assert val[..0] == [];
    while p < |buf|
      invariant valLen <= val.Length
      invariant forall k :: valLen <= k < val.Length ==> val[k] == old(val[k])
      invariant Reading(buf, p, t, val[..valLen], found)
      invariant found ==> valLen >= CHUNK
      decreases |buf| - p
    {
      if buf[p] == t {
        ghost var piece := ChunkStep(buf, p, t, val[..valLen], found);
        var len := buf[p + 1];
        if val.Length - valLen < len {
          return -1;
        }
        CopyChunk(buf, p + 2, len, val, valLen);
        valLen := valLen + len;
        if len < CHUNK {
          return valLen;
        }
        found := true;
      } else {
        OtherStep(buf, p, t, val[..valLen], found);
        if found {
          return valLen;
        }
      }
      p := End(buf, p);
    }
    OtherStep(buf, p, t, val[..valLen], found);
    r := if found then valLen else -1;
  }

  // ---------------------------------------------------------------- round trip

  /** A chunk in front of whole TLVs. */
  lemma Front(t: byte, n: byte, piece: bytes, rest: bytes)
    requires |piece| == n && WellFormed(rest)
    ensures var b := [t, n] + piece + rest; WellFormed(b) && b != [] && b[0] == t && b[1] == n && b[2..2 + n] == piece && Rest(b) == rest
  {
    var b := [t, n] + piece + rest;
    assert b[2 + n..] == rest;
    assert b[2..2 + n] == piece;
  }

  /** Reading undoes encoding, whatever the length, when another type or nothing follows; and a reader
      of another type passes over the whole encoding. */
  lemma {:induction false} ReadEncode(t: byte, val: bytes, rest: bytes, u: byte)
    requires WellFormed(rest) && (rest != [] ==> rest[0] != t)
    ensures WellFormed(Encode(t, val) + rest)
    ensures Encode(t, val) + rest != [] && (Encode(t, val) + rest)[0] == t
    ensures Collect(Encode(t, val) + rest, t) == val
    ensures FirstValue(Encode(t, val) + rest, u) == if u == t then Some(val) else FirstValue(rest, u)
    decreases |val|
  {
    if |val| <= CHUNK {
      Front(t, |val|, val, rest);
      assert [t, |val|] + val + rest == Encode(t, val) + rest;
      assert val + [] == val;
    } else {
      var head, tail := val[..CHUNK], val[CHUNK..];
      ReadEncode(t, tail, rest, u);
      Front(t, CHUNK, head, Encode(t, tail) + rest);
      assert [t, CHUNK] + head + (Encode(t, tail) + rest) == Encode(t, val) + rest;
      assert val == head + tail;
    }
  }
}
