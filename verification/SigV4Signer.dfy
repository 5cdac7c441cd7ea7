/** The SigV4 signer: the canonical request is streamed into the digest and must be, byte for byte,
    the reference's; the signature and the Authorization header follow. */
module SigV4Signer {
  import opened Bytes
  import opened CanonicalHeaders
  import opened CanonicalQuery
  import opened HeaderTrimming
  import opened OutputSink
  import opened PathNormalizer
  import opened UriEncoding

  /** SHA-256 and HMAC-SHA-256 as functions of the bytes fed to them. */
  datatype Crypto = Crypto(sha256: bytes -> bytes, hmac: (bytes, bytes) -> bytes)

  datatype SignError = BadInput | Failed

  /** HEXL: a lower-case hexadecimal digit. */
  function HexLower(n: int): byte
    requires 0 <= n < 16
  {
    if n < 10 then 48 + n else 87 + n
  }

  /** to_hex(). */
  function Hex(s: bytes): bytes {
    if s == [] then [] else [HexLower(s[0] / 16), HexLower(s[0] % 16)] + Hex(s[1..])
  }

  lemma {:induction false} HexLength(s: bytes)
    ensures |Hex(s)| == 2 * |s|
  {
    if s != [] {
      HexLength(s[1..]);
    }
  }

  /** What a lower-case hexadecimal character stands for. */
  function DigitValue(c: byte): int {
    if 48 <= c <= 57 then c - 48 else if 97 <= c <= 102 then c - 87 else -1
  }

  /** Every byte reads back from its two digits, the high one first. */
  lemma {:induction false} HexReadsBack(s: bytes, k: nat)
    requires k < |s|
    ensures |Hex(s)| == 2 * |s|
    ensures 0 <= DigitValue(Hex(s)[2 * k]) < 16 && 0 <= DigitValue(Hex(s)[2 * k + 1]) < 16
    ensures DigitValue(Hex(s)[2 * k]) * 16 + DigitValue(Hex(s)[2 * k + 1]) == s[k]
  {
    HexLength(s);
    if k > 0 {
      HexReadsBack(s[1..], k - 1);
      assert Hex(s)[2 * k] == Hex(s[1..])[2 * (k - 1)] && Hex(s)[2 * k + 1] == Hex(s[1..])[2 * (k - 1) + 1];
    }
  }

  const S3: bytes := Ascii("s3")

  // ---------------------------------------------------------------- the reference (sigv4_ref.py)

  /** canon_uri(). */
  function CanonUri(path: bytes, service: bytes): bytes {
    if path == [] then [SLASH]
    else if service == S3 then Encode(path, true)
    else Encode(Encode(Normalize(path), true), true)
  }

  /** The dictionary of sign(), whose values str.split() trims. */
  function PythonMerged(hs: seq<Header>): map<bytes, seq<bytes>> {
    if hs == [] then map[]
    else
      var m := PythonMerged(hs[..|hs| - 1]);
      var h := hs[|hs| - 1];
      m[Key(h) := (if Key(h) in m then m[Key(h)] else []) + [PythonTrim(h.value)]]
  }

  function SlashJoin(a: bytes, b: bytes, c: bytes, d: bytes): bytes {
    a + [SLASH] + b + [SLASH] + c + [SLASH] + d
  }

  /** creq: everything but the header block is given. */
  function RequestText(verb: bytes, uri: bytes, query: bytes, lines: bytes, signed: bytes, payloadHash: bytes): bytes {
    verb + [NEWLINE] + uri + [NEWLINE] + query + [NEWLINE] + lines + [NEWLINE] + signed + [NEWLINE] + payloadHash
  }

  function CanonicalRequest(verb: bytes, path: bytes, service: bytes, query: bytes, hs: seq<Header>, payloadHash: bytes): bytes {
    RequestText(verb, CanonUri(path, service), query, ReferenceLines(hs), Join(SEMICOLON, SortedNames(hs)), payloadHash)
  }

  function StringToSign(c: Crypto, amzDate: bytes, scope: bytes, creq: bytes): bytes {
    Ascii("AWS4-HMAC-SHA256") + [NEWLINE] + amzDate + [NEWLINE] + scope + [NEWLINE] + Hex(c.sha256(creq))
  }

  /** The key chain of sign(), then the signature. */
  function Signature(c: Crypto, secret: bytes, date: bytes, region: bytes, service: bytes, sts: bytes): bytes {
    var k1 := c.hmac(Ascii("AWS4") + secret, date);
    var k2 := c.hmac(k1, region);
    var k3 := c.hmac(k2, service);
    var k4 := c.hmac(k3, Ascii("aws4_request"));
    Hex(c.hmac(k4, sts))
  }

  function Authorization(accessKey: bytes, scope: bytes, signed: bytes, sig: bytes): bytes {
    Ascii("AWS4-HMAC-SHA256 Credential=") + accessKey + [SLASH] + scope + Ascii(", SignedHeaders=") + signed
    + Ascii(", Signature=") + sig
  }

  // ---------------------------------------------------------------- the wire determines the signature

  /** The path build_url() puts on the wire: encoded once. */
  function WirePath(path: bytes): bytes { Uri(path, true, false) }

  /** What sign_canonical() streams for the path. */
  function StreamedUri(path: bytes, service: bytes): bytes {
    if service == S3 then Uri(path, true, false) else Rendered(Normalize(path), true)
  }

  /** A server that only sees the wire path rebuilds the signed URI: for S3 it is the wire path
      itself, otherwise the wire path normalised and encoded. */
  lemma WireDeterminesUri(path: bytes, service: bytes)
    requires path != [] && path[0] == SLASH
    ensures service == S3 ==> StreamedUri(path, service) == WirePath(path)
    ensures service != S3 ==> StreamedUri(path, service) == Encode(Normalize(WirePath(path)), true)
  {
    NormalizeEncode(path);
  }

  /** For every path the streamed URI is the reference's canon_uri(). */
  lemma StreamedIsCanonUri(path: bytes, service: bytes)
    ensures StreamedUri(path, service) == CanonUri(path, service)
  {
    if path == [] && service != S3 {
      assert Split(SLASH, path) == [[]];
      assert PushPop([[]], []) == [];
      assert Normalize(path) == [SLASH];
      EncodeOne(SLASH, true);
    }
  }

  lemma SignedHeadersAre(hs: seq<Header>, s: seq<Header>)
    requires StableSortOf(hs, s) && forall h :: h in hs ==> h.name != []
    ensures SignedHeaders(s) == Join(SEMICOLON, SortedNames(hs))
  {
    RunNamesSorted(s);
    StableSortKeepsReference(hs, s);
    SortedNamesSorted(hs);
    var names := SortedNames(hs);
    NamesJoinedMatches(names);
    if names != [] {
      assert names[0] in Keys(hs);
    }
  }

  lemma LinesAre(hs: seq<Header>, s: seq<Header>)
    requires StableSortOf(hs, s)
    ensures RunLines(s) == ReferenceLines(hs)
  {
    RunLinesAreReference(s);
    StableSortKeepsReference(hs, s);
  }

  /** The dictionary built with Python's trimming is the one built with the C trimming. */
  lemma {:induction false} PythonMergedIs(hs: seq<Header>)
    requires forall h :: h in hs ==> (forall k :: 0 <= k < |h.value| ==> h.value[k] < 128) && !HasSeparatorControl(h.value)
    ensures PythonMerged(hs) == Merged(hs)
  {
    if hs != [] {
      var init, last := hs[..|hs| - 1], hs[|hs| - 1];
      assert last in hs && forall h :: h in init ==> h in hs;
      PythonMergedIs(init);
      TrimMatchesPython(last.value);
    }
  }

  // ---------------------------------------------------------------- sign_canonical()

  datatype Creq = Creq(verb: bytes, path: bytes, query: Option<bytes>, service: bytes, region: bytes, secret: bytes,
                       amzDate: bytes, scope: bytes, h: seq<Header>, signed: bytes, payloadHex: bytes)

  function QueryOf(q: Option<bytes>): bytes { if q.Some? then q.value else [] }

  /** The bytes sign_canonical() streams. */
  function Streamed(r: Creq): bytes {
    RequestText(r.verb, StreamedUri(r.path, r.service), QueryOf(r.query), RunLines(r.h), r.signed, r.payloadHex)
  }

  method PutRequestUri(o: Sink, path: bytes, service: bytes)
    requires o.Valid()
    modifies o, o.dst
    ensures o.Valid() && o.fed == old(o.fed) + StreamedUri(path, service)
  {
    if service == S3 {
      PutUri(o, path, true, false);
    } else {
      PutNormalized(o, path, true);
    }
  }

  method PutTop(o: Sink, r: Creq)
    requires o.Valid()
    modifies o, o.dst
    ensures o.Valid()
    ensures o.fed == old(o.fed)
      + (r.verb + [NEWLINE] + StreamedUri(r.path, r.service) + [NEWLINE] + QueryOf(r.query) + [NEWLINE])
  {
    o.Put(r.verb);
    o.PutByte(NEWLINE);
    PutRequestUri(o, r.path, r.service);
    o.PutByte(NEWLINE);
    if r.query.Some? {
      o.Put(r.query.value);
    }
    o.PutByte(NEWLINE);
  }

  method PutBottom(o: Sink, r: Creq)
    requires o.Valid()
    modifies o, o.dst
    ensures o.Valid() && o.fed == old(o.fed) + ([NEWLINE] + r.signed + [NEWLINE] + r.payloadHex)
  {
    o.PutByte(NEWLINE);
    o.Put(r.signed);
    o.PutByte(NEWLINE);
    o.Put(r.payloadHex);
  }

  /** The streaming half of sign_canonical(): what the digest has absorbed. */
  method DigestRequest(r: Creq) returns (digested: bytes)
    ensures digested == Streamed(r)
  {
    var o := new Sink.Hash();
    PutTop(o, r);
    PutCanonicalHeaders(o, r.h);
    PutBottom(o, r);
    digested := o.digested;
    assert digested == Streamed(r) by {
      StreamParts(r);
    }
  }

  lemma StreamParts(r: Creq)
    ensures [] + (r.verb + [NEWLINE] + StreamedUri(r.path, r.service) + [NEWLINE] + QueryOf(r.query) + [NEWLINE])
      + RunLines(r.h) + ([NEWLINE] + r.signed + [NEWLINE] + r.payloadHex) == Streamed(r)
  {
    var top := r.verb + [NEWLINE] + StreamedUri(r.path, r.service) + [NEWLINE] + QueryOf(r.query) + [NEWLINE];
    assert [] + top == top;
    assert top + RunLines(r.h) + ([NEWLINE] + r.signed + [NEWLINE] + r.payloadHex)
        == top + RunLines(r.h) + [NEWLINE] + r.signed + [NEWLINE] + r.payloadHex;
  }

  const STS_LEN: nat := 320
  const AKEY_LEN: nat := 132
  const SCOPE_LEN: nat := 128
  const HEX_LEN: nat := 64

  function Take(s: bytes, n: nat): bytes { if |s| <= n then s else s[..n] }

  /** sign_canonical(): fails only for a string to sign or a secret too long for its buffer. */
  method SignCanonical(c: Crypto, r: Creq) returns (sig: Result<bytes, SignError>)
    requires |r.amzDate| == 16
    ensures sig.Ok? ==> sig.value == Signature(c, r.secret, r.amzDate[..8], r.region, r.service,
      StringToSign(c, r.amzDate, r.scope, Streamed(r)))
    ensures sig.Err? <==> |StringToSign(c, r.amzDate, r.scope, Streamed(r))| >= STS_LEN || |r.secret| + 4 >= AKEY_LEN
  {
    var creq := DigestRequest(r);
    var sts := StringToSign(c, r.amzDate, r.scope, creq);
    if |sts| >= STS_LEN {
      return Err(Failed);
    }
    var akey := Ascii("AWS4") + r.secret;
    if |akey| >= AKEY_LEN {
      return Err(BadInput);
    }
    var k1, k2;
    k1 := c.hmac(akey, r.amzDate[..8]);
    k2 := c.hmac(k1, r.region);
    k1 := c.hmac(k2, r.service);
    k2 := c.hmac(k1, Ascii("aws4_request"));
    sig := Ok(Hex(c.hmac(k2, sts)));
  }

  // ---------------------------------------------------------------- sigv4_with_query()

  datatype Input = Input(verb: bytes, host: bytes, path: bytes, headers: seq<RawHeader>, payload: bytes,
                         payloadHash: Option<bytes>, signPayloadHash: bool, accessKey: bytes, secret: bytes,
                         token: Option<bytes>, region: bytes, service: bytes)

  datatype Output = Output(authorization: bytes, amzDate: bytes, contentSha256: bytes)

  /** The credential scope: date, region, service, terminator. */
  function ScopeOf(amzDate: bytes, region: bytes, service: bytes): bytes {
    SlashJoin(Take(amzDate, 8), region, service, Ascii("aws4_request"))
  }

  /** make_payload_hash(): the override as given, else the hash of the payload. */
  function PayloadHex(c: Crypto, payload: bytes, override: Option<bytes>): (r: bytes)
    ensures override == None ==> r == Hex(c.sha256(payload))
    ensures forall h :: override == Some(h) ==> r == h
  {
    if override.Some? then override.value else Hex(c.sha256(payload))
  }

  function Builtin(c: Crypto, i: Input, amzDate: bytes): seq<Header> {
    [Header(Ascii("host"), i.host), Header(Ascii("x-amz-date"), amzDate)]
    + (if i.token.Some? then [Header(Ascii("x-amz-security-token"), i.token.value)] else [])
    + (if i.signPayloadHash then [Header(Ascii("x-amz-content-sha256"), PayloadHex(c, i.payload, i.payloadHash))] else [])
  }

  predicate Presentable(c: Crypto, i: Input, amzDate: bytes) {
    && |Builtin(c, i, amzDate)| + |i.headers| <= MAX_HEADERS
    && forall k :: 0 <= k < |i.headers| ==> !Refused(Builtin(c, i, amzDate), i.headers[k])
  }

  /** The headers the reference's sign() would be given. */
  function AllHeaders(c: Crypto, i: Input, amzDate: bytes): seq<Header>
    requires Presentable(c, i, amzDate)
  {
    Builtin(c, i, amzDate) + Plain(i.headers)
  }

  /** When every limit of the C code is met. */
  predicate Signable(c: Crypto, i: Input, amzDate: bytes) {
    && i.path != [] && i.path[0] == SLASH
    && |ScopeOf(amzDate, i.region, i.service)| < SCOPE_LEN
    && (i.payloadHash.Some? ==> |i.payloadHash.value| <= HEX_LEN)
    && Presentable(c, i, amzDate)
    && |i.secret| + 4 < AKEY_LEN
  }

  /** The limits in figures: 16 headers with those the signer adds, a scope under 128 bytes, a hash of 64
      characters, a secret of 127 bytes. */
  lemma LimitsAre(c: Crypto, i: Input, amzDate: bytes)
    requires Signable(c, i, amzDate)
    ensures var own := 2 + (if i.token.Some? then 1 else 0) + (if i.signPayloadHash then 1 else 0);
      own + |i.headers| <= 16
    ensures |ScopeOf(amzDate, i.region, i.service)| <= 127 && (i.payloadHash.Some? ==> |i.payloadHash.value| <= 64)
    ensures |i.secret| <= 127 && forall s: bytes :: |s| <= 127 ==> Signable(c, i.(secret := s), amzDate)
  {
  }

  /** The reference's signature for these inputs. */
  function ReferenceSignature(c: Crypto, i: Input, amzDate: bytes, query: bytes): bytes
    requires |amzDate| == 16 && Presentable(c, i, amzDate)
  {
    Signature(c, i.secret, amzDate[..8], i.region, i.service,
              StringToSign(c, amzDate, ScopeOf(amzDate, i.region, i.service),
                           CanonicalRequest(i.verb, i.path, i.service, query, AllHeaders(c, i, amzDate),
                                            PayloadHex(c, i.payload, i.payloadHash))))
  }

  /** The "authorization" the reference's sign() returns. */
  function ReferenceAuthorization(c: Crypto, i: Input, amzDate: bytes, query: bytes): bytes
    requires |amzDate| == 16 && Presentable(c, i, amzDate)
  {
    Authorization(i.accessKey, ScopeOf(amzDate, i.region, i.service),
                  Join(SEMICOLON, SortedNames(AllHeaders(c, i, amzDate))), ReferenceSignature(c, i, amzDate, query))
  }

  predicate NamesNonEmpty(hs: seq<RawHeader>) {
    forall k :: 0 <= k < |hs| ==> hs[k].name != Some([])
  }

  lemma AllNamesNonEmpty(c: Crypto, i: Input, amzDate: bytes)
    requires Presentable(c, i, amzDate) && NamesNonEmpty(i.headers)
    ensures forall h :: h in AllHeaders(c, i, amzDate) ==> h.name != []
  {
    var b, p := Builtin(c, i, amzDate), Plain(i.headers);
    forall h: Header | h in b + p
      ensures h.name != []
    {
      if h in p {
        var k :| 0 <= k < |p| && p[k] == h;
        assert i.headers[k].name != Some([]);
      }
    }
  }

  /** The signed list is the reference's exactly when no header beside others has an empty name. */
  lemma SignedHeadersMatch(hs: seq<Header>, s: seq<Header>)
    requires StableSortOf(hs, s)
    ensures SignedHeaders(s) == Join(SEMICOLON, SortedNames(hs)) <==>
      !(|SortedNames(hs)| > 1 && exists h :: h in hs && h.name == [])
  {
    RunNamesSorted(s);
    StableSortKeepsReference(hs, s);
    SortedNamesSorted(hs);
    var names := SortedNames(hs);
    NamesJoinedMatches(names);
    if exists h :: h in hs && h.name == [] {
      var k :| 0 <= k < |hs| && hs[k].name == [];
      assert Key(hs[k]) == [];
      EmptyFirst(names);
    }
    if |names| > 1 && names[0] == [] {
      assert [] in Keys(hs);
      var k :| 0 <= k < |hs| && Key(hs[k]) == [];
      assert hs[k] in hs && hs[k].name == [];
    }
  }

  lemma EmptyFirst(names: seq<bytes>)
    requires StrictlySorted(names) && [] in names
    ensures names[0] == []
  {
    var j :| 0 <= j < |names| && names[j] == [];
    assert j > 0 ==> LexLe(names[0], names[j]);
  }

  /** Streaming over the collected headers is the reference's canonical request. */
  lemma StreamedIsReference(r: Creq, hs: seq<Header>)
    requires StableSortOf(hs, r.h) && (forall h :: h in hs ==> h.name != []) && r.signed == SignedHeaders(r.h)
    ensures Streamed(r) == CanonicalRequest(r.verb, r.path, r.service, QueryOf(r.query), hs, r.payloadHex)
  {
    StreamedIsCanonUri(r.path, r.service);
    LinesAre(hs, r.h);
    SignedHeadersAre(hs, r.h);
  }

  lemma StsFits(c: Crypto, amzDate: bytes, scope: bytes, creq: bytes)
    requires |amzDate| == 16 && |scope| < SCOPE_LEN && |c.sha256(creq)| == 32
    ensures |StringToSign(c, amzDate, scope, creq)| < STS_LEN
  {
    HexLength(c.sha256(creq));
  }

  /** esp_rmaker_aws_sign_sigv4_with_query(): it succeeds exactly on inputs within its limits, and
      then the Authorization header carries the reference's signature over the reference's canonical
      request. */
  method SigV4WithQuery(c: Crypto, i: Input, amzDate: bytes, query: Option<bytes>) returns (out: Result<Output, SignError>)
    requires |amzDate| == 16 && forall x :: |c.sha256(x)| == 32
    ensures out.Ok? <==> Signable(c, i, amzDate)
    ensures out.Ok? && NamesNonEmpty(i.headers) ==>
      out.value.authorization == ReferenceAuthorization(c, i, amzDate, QueryOf(query))
    ensures out.Ok? ==> out.value.amzDate == amzDate && out.value.contentSha256 == PayloadHex(c, i.payload, i.payloadHash)
  {
    if i.path == [] || i.path[0] != SLASH {
      return Err(BadInput);
    }
    var scope := ScopeOf(amzDate, i.region, i.service);
    if |scope| >= SCOPE_LEN {
      return Err(BadInput);
    }
    if i.payloadHash.Some? && |i.payloadHash.value| > HEX_LEN {
      return Err(BadInput);
    }
    var payloadHex := PayloadHex(c, i.payload, i.payloadHash);
    var builtin := Builtin(c, i, amzDate);
    var h := new Header[MAX_HEADERS](_ => Header([], []));
    var n := CollectHeaders(builtin, i.headers, h);
    if n < 0 {
      return Err(BadInput);
    }
    var sorted := h[..n];
    var signed, len := BuildSignedHeaders(sorted);
    out := FinishSigning(c, i, amzDate, scope, query, payloadHex, sorted, SignedHeaders(sorted));
  }

  /** The rest of sigv4_with_query(), once the headers are collected. */
  method FinishSigning(c: Crypto, i: Input, amzDate: bytes, scope: bytes, query: Option<bytes>, payloadHex: bytes,
                       sorted: seq<Header>, signed: bytes) returns (out: Result<Output, SignError>)
    requires |amzDate| == 16 && (forall x :: |c.sha256(x)| == 32)
    requires Presentable(c, i, amzDate) && StableSortOf(AllHeaders(c, i, amzDate), sorted)
    requires scope == ScopeOf(amzDate, i.region, i.service) && |scope| < SCOPE_LEN
    requires payloadHex == PayloadHex(c, i.payload, i.payloadHash) && signed == SignedHeaders(sorted)
    ensures out.Ok? <==> |i.secret| + 4 < AKEY_LEN
    ensures out.Ok? && NamesNonEmpty(i.headers) ==>
      out.value.authorization == ReferenceAuthorization(c, i, amzDate, QueryOf(query))
    ensures out.Ok? ==> out.value.amzDate == amzDate && out.value.contentSha256 == payloadHex
  {
    var r := Creq(i.verb, i.path, query, i.service, i.region, i.secret, amzDate, scope, sorted, signed, payloadHex);
    StsFits(c, amzDate, scope, Streamed(r));
    if NamesNonEmpty(i.headers) {
      AllNamesNonEmpty(c, i, amzDate);
      StreamedIsReference(r, AllHeaders(c, i, amzDate));
      SignedHeadersAre(AllHeaders(c, i, amzDate), sorted);
    }
    var sig := SignCanonical(c, r);
    if sig.Err? {
      return Err(sig.error);
    }
    out := Ok(Output(Authorization(i.accessKey, scope, signed, sig.value), amzDate, payloadHex));
  }
}
