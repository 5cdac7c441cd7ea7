/** RFC 3986 percent-encoding as the signer does it: a one-pass encoder whose "twice" mode must be
    the encoding applied twice, and whose output a reader can decode again. */
module UriEncoding {
  import opened Bytes
  import opened OutputSink

  /** Section 2.3 of RFC 3986. */
  predicate Unreserved(c: byte) {
    IsAlnum(c) || c == 45 || c == 95 || c == DOT || c == 126
  }

  predicate Passes(c: byte, keepSlash: bool) {
    Unreserved(c) || (keepSlash && c == SLASH)
  }

  /** HEXU[n]: an upper-case hexadecimal digit. */
  function HexUpper(n: int): byte
    requires 0 <= n < 16
  {
    if n < 10 then 48 + n else 55 + n
  }

  /** Section 2.1 of RFC 3986: one byte, percent-encoded unless it passes. */
  function EncodeByte(c: byte, keepSlash: bool): bytes {
    if Passes(c, keepSlash) then [c] else [PERCENT, HexUpper(c / 16), HexUpper(c % 16)]
  }

  /** The reference encoder, sigv4_ref.py's enc(). */
  function Encode(s: bytes, keepSlash: bool): bytes {
    if s == [] then [] else EncodeByte(s[0], keepSlash) + Encode(s[1..], keepSlash)
  }

  /** What the C encoder emits for one byte in its two modes. */
  function PutByteOnce(c: byte, keepSlash: bool, twice: bool): bytes {
    if Passes(c, keepSlash) then [c]
    else (if twice then Ascii("%25") else Ascii("%")) + [HexUpper(c / 16), HexUpper(c % 16)]
  }

  /** Encoding as many times as the mode says. */
  function Encoded(s: bytes, keepSlash: bool, twice: bool): bytes {
    if twice then Encode(Encode(s, keepSlash), keepSlash) else Encode(s, keepSlash)
  }

  lemma {:induction false} EncodeAppend(a: bytes, b: bytes, keepSlash: bool)
    ensures Encode(a + b, keepSlash) == Encode(a, keepSlash) + Encode(b, keepSlash)
  {
    if a == [] {
      assert a + b == b;
    } else {
      assert (a + b)[1..] == a[1..] + b;
      EncodeAppend(a[1..], b, keepSlash);
    }
  }

  lemma EncodeOne(c: byte, keepSlash: bool)
    ensures Encode([c], keepSlash) == EncodeByte(c, keepSlash)
  {
    assert [c][1..] == [];
  }

  /** The one-pass form of a byte is that byte encoded once or twice. */
  lemma PutByteIsEncoded(c: byte, keepSlash: bool, twice: bool)
    ensures PutByteOnce(c, keepSlash, twice) == Encoded([c], keepSlash, twice)
  {
    EncodeOne(c, keepSlash);
    if !Passes(c, keepSlash) {
      var h, l := HexUpper(c / 16), HexUpper(c % 16);
      assert Ascii("%") == [PERCENT] && Ascii("%25") == [PERCENT, 50, 53];
      EncodeAppend([PERCENT], [h, l], keepSlash);
      EncodeAppend([h], [l], keepSlash);
      EncodeOne(PERCENT, keepSlash);
      EncodeOne(h, keepSlash);
      EncodeOne(l, keepSlash);
      assert [PERCENT, h, l] == [PERCENT] + [h, l] && [h, l] == [h] + [l];
      assert EncodeByte(PERCENT, keepSlash) == [PERCENT, 50, 53];
    }
  }

  lemma EncodedAppend(a: bytes, b: bytes, keepSlash: bool, twice: bool)
    ensures Encoded(a + b, keepSlash, twice) == Encoded(a, keepSlash, twice) + Encoded(b, keepSlash, twice)
  {
    EncodeAppend(a, b, keepSlash);
    EncodeAppend(Encode(a, keepSlash), Encode(b, keepSlash), keepSlash);
  }

  lemma EncodedSnoc(s: bytes, i: nat, keepSlash: bool, twice: bool)
    requires i < |s|
    ensures Encoded(s[..i + 1], keepSlash, twice) == Encoded(s[..i], keepSlash, twice) + Encoded([s[i]], keepSlash, twice)
  {
    EncodedAppend(s[..i], [s[i]], keepSlash, twice);
    assert s[..i + 1] == s[..i] + [s[i]];
  }

  /** The body of put_encoded_n()'s loop. */
  method PutEncodedByte(o: Sink, c: byte, keepSlash: bool, twice: bool)
    requires o.Valid()
    modifies o, o.dst
    ensures o.Valid() && o.fed == old(o.fed) + Encoded([c], keepSlash, twice)
    ensures o.OthersUnchanged()
  {
    PutByteIsEncoded(c, keepSlash, twice);
    if Passes(c, keepSlash) {
      o.PutByte(c);
      return;
    }
    o.Put(if twice then Ascii("%25") else Ascii("%"));
    o.PutByte(HexUpper(c / 16));
    o.PutByte(HexUpper(c % 16));
  }

  /** put_encoded_n(): the bytes streamed are the reference encoding, applied twice in "twice" mode. */
  method PutEncoded(o: Sink, src: bytes, keepSlash: bool, twice: bool)
    requires o.Valid()
    modifies o, o.dst
    ensures o.Valid() && o.fed == old(o.fed) + Encoded(src, keepSlash, twice)
    ensures o.OthersUnchanged()
  {
    assert Encoded(src[..0], keepSlash, twice) == [];
    for i := 0 to |src|
      invariant o.Valid() && o.fed == old(o.fed) + Encoded(src[..i], keepSlash, twice)
      invariant o.OthersUnchanged()
    {
      EncodedSnoc(src, i, keepSlash, twice);
      PutEncodedByte(o, src[i], keepSlash, twice);
    }
    assert src[..|src|] == src;
  }

  /** put_uri(): a path, where the empty one is "/". */
  function Uri(src: bytes, keepSlash: bool, twice: bool): bytes {
    if src == [] then [SLASH] else Encoded(src, keepSlash, twice)
  }

  method PutUri(o: Sink, src: bytes, keepSlash: bool, twice: bool)
    requires o.Valid()
    modifies o, o.dst
    ensures o.Valid() && o.fed == old(o.fed) + Uri(src, keepSlash, twice)
    ensures o.OthersUnchanged()
  {
    if src == [] {
      o.PutByte(SLASH);
      return;
    }
    PutEncoded(o, src, keepSlash, twice);
  }

  /** esp_rmaker_aws_sign_uri_encode_into(). The size-only pass (dst null) and a writing pass return
      the same length, and a buffer one byte longer receives the whole encoding and its NUL. */
  method UriEncodeInto(dst: array?<byte>, base: nat, cap: nat, src: bytes, keepSlash: bool, twice: bool)
    returns (n: nat)
    requires dst != null ==> base + cap <= dst.Length
    modifies dst
    ensures n == |Uri(src, keepSlash, twice)|
    ensures dst != null && n < cap ==> dst[base..base + n] == Uri(src, keepSlash, twice) && dst[base + n] == 0
    ensures dst != null ==> forall k :: 0 <= k < dst.Length && !(base <= k < base + cap) ==> dst[k] == old(dst[k])
  {
    var o := new Sink.Buffer(dst, base, cap);
    NothingBefore(Uri(src, keepSlash, twice));
    PutUri(o, src, keepSlash, twice);
    n := o.Finish();
  }

  // ---------------------------------------------------------------- decoding

  function HexValue(c: byte): Option<int> {
    if IsDigit(c) then Some(c - 48)
    else if 65 <= c <= 70 then Some(c - 55)
    else None
  }

  /** Percent-decoding; None for a malformed escape. */
  function Decode(s: bytes): Option<bytes>
    decreases |s|
  {
    if s == [] then Some([])
    else if s[0] != PERCENT then
      match Decode(s[1..])
      case Some(t) => Some([s[0]] + t)
      case None => None
    else if |s| < 3 then None
    else
      match (HexValue(s[1]), HexValue(s[2]), Decode(s[3..]))
      case (Some(h), Some(l), Some(t)) => Some([h * 16 + l] + t)
      case _ => None
  }

  /** Encoding loses nothing: decoding gives the raw bytes back. */
  lemma {:induction false} DecodeEncode(s: bytes, keepSlash: bool)
    ensures Decode(Encode(s, keepSlash)) == Some(s)
  {
    if s == [] {
    } else {
      DecodeEncode(s[1..], keepSlash);
      var e, rest := EncodeByte(s[0], keepSlash), Encode(s[1..], keepSlash);
      assert Encode(s, keepSlash) == e + rest;
      assert s == [s[0]] + s[1..];
      if Passes(s[0], keepSlash) {
        assert (e + rest)[1..] == rest;
      } else {
        assert (e + rest)[3..] == rest;
        assert (e + rest)[1] == e[1] && (e + rest)[2] == e[2];
      }
    }
  }

  lemma EncodeInjective(a: bytes, b: bytes, keepSlash: bool)
    requires Encode(a, keepSlash) == Encode(b, keepSlash)
    ensures a == b
  {
    DecodeEncode(a, keepSlash);
    DecodeEncode(b, keepSlash);
  }

  /** Left as they are: letters, digits, '-', '.', '_' and '~', and '/' when asked for; nothing else. */
  lemma Unescaped(c: byte, keepSlash: bool)
    ensures Encode([c], keepSlash) == [c] <==>
      || 97 <= c <= 122 || 65 <= c <= 90 || 48 <= c <= 57 || c in {45, 46, 95, 126} || (keepSlash && c == 47)
  {
    EncodeOne(c, keepSlash);
  }

  /** Everything the encoder writes is unreserved, '%', or a kept '/'. */
  lemma {:induction false} EncodeAlphabet(s: bytes, keepSlash: bool)
    ensures forall k :: 0 <= k < |Encode(s, keepSlash)| ==>
      Passes(Encode(s, keepSlash)[k], keepSlash) || Encode(s, keepSlash)[k] == PERCENT
  {
    if s != [] {
      EncodeAlphabet(s[1..], keepSlash);
    }
  }
}
