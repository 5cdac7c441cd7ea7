/** esp_rmaker_aws_sign_presign_url(): the signature travels in the query string. */
module PresignedUrl {
  import opened Bytes
  import opened CanonicalHeaders
  import opened CanonicalQuery
  import opened HeaderTrimming
  import opened OutputSink
  import opened Permutations
  import Format = SigV4Format
  import opened SigV4Signer
  import opened UriEncoding

  const MAX_EXPIRES: nat := 604800
  const SIGNATURE: bytes := Ascii("X-Amz-Signature")
  const TOKEN: bytes := Ascii("X-Amz-Security-Token")
  const SIGNATURE_TEXT: bytes := [AMPERSAND] + SIGNATURE + [EQUALS]
  const TOKEN_TEXT: bytes := [AMPERSAND] + TOKEN + [EQUALS]

  /** The names presign adds itself, presign_param_reserved()'s list. */
  function OwnNames(): seq<bytes> {
    [Ascii("X-Amz-Algorithm"), Ascii("X-Amz-Credential"), Ascii("X-Amz-Date"), Ascii("X-Amz-Expires"),
     Ascii("X-Amz-SignedHeaders"), TOKEN, SIGNATURE]
  }

  /** Up to case, as strcasecmp() compares. */
  predicate ParamReserved(name: bytes) {
    exists i :: 0 <= i < |OwnNames()| && Lower(OwnNames()[i]) == Lower(name)
  }

  /** The seven names, in whatever case the caller writes them. */
  lemma ReservedAre(name: bytes)
    ensures ParamReserved(name) <==>
      || Lower(name) == Ascii("x-amz-algorithm") || Lower(name) == Ascii("x-amz-credential")
      || Lower(name) == Ascii("x-amz-date") || Lower(name) == Ascii("x-amz-expires")
      || Lower(name) == Ascii("x-amz-signedheaders") || Lower(name) == Ascii("x-amz-security-token")
      || Lower(name) == Ascii("x-amz-signature")
  {
    LowerOwnFront();
    LowerOwnDates();
    LowerOwnSigned();
    LowerOwnSignature();
    LowerOwnToken();
    var own := OwnNames();
    assert |own| == 7;
    assert ParamReserved(name) <==>
      || Lower(own[0]) == Lower(name) || Lower(own[1]) == Lower(name) || Lower(own[2]) == Lower(name)
      || Lower(own[3]) == Lower(name) || Lower(own[4]) == Lower(name) || Lower(own[5]) == Lower(name)
      || Lower(own[6]) == Lower(name);
  }

  lemma LowerOwnFront()
    ensures Lower(OwnNames()[0]) == Ascii("x-amz-algorithm") && Lower(OwnNames()[1]) == Ascii("x-amz-credential")
  {
  }

  lemma LowerOwnDates()
    ensures Lower(OwnNames()[2]) == Ascii("x-amz-date") && Lower(OwnNames()[3]) == Ascii("x-amz-expires")
  {
  }

  lemma LowerOwnSigned()
    ensures Lower(OwnNames()[4]) == Ascii("x-amz-signedheaders")
  {
  }

  lemma LowerOwnSignature()
    ensures Lower(OwnNames()[6]) == Ascii("x-amz-signature")
  {
  }

  lemma LowerOwnToken()
    ensures Lower(OwnNames()[5]) == Ascii("x-amz-security-token")
  {
  }

  method IsParamReserved(name: bytes) returns (r: bool)
    ensures r == ParamReserved(name)
  {
    var own := OwnNames();
    for i := 0 to |own|
      invariant forall k :: 0 <= k < i ==> Lower(OwnNames()[k]) != Lower(name)
    {
      if Lower(own[i]) == Lower(name) {
        assert Lower(OwnNames()[i]) == Lower(name);
        return true;
      }
    }
    return false;
  }

  datatype Request = Request(verb: bytes, scheme: Option<bytes>, host: bytes, path: bytes, params: seq<Param>,
                             headers: seq<RawHeader>, payloadHash: Option<bytes>, accessKey: bytes, secret: bytes,
                             token: Option<bytes>, region: bytes, service: bytes, expires: nat, tokenAfter: bool)

  /** printf("%u"). */
  function Decimal(n: nat): bytes {
    if n < 10 then [48 + n] else Decimal(n / 10) + [48 + n % 10]
  }

  /** The number a row of decimal digits stands for. */
  function DigitsValue(ds: bytes): int {
    if ds == [] then 0 else DigitsValue(ds[..|ds| - 1]) * 10 + (ds[|ds| - 1] as int - 48)
  }

  lemma {:induction false} DecimalReadsBack(n: nat)
    ensures DigitsValue(Decimal(n)) == n && Decimal(n) != []
    ensures forall c :: c in Decimal(n) ==> 48 <= c <= 57
    ensures n > 0 ==> Decimal(n)[0] != 48
  {
    if n >= 10 {
      DecimalReadsBack(n / 10);
      var ds := Decimal(n / 10);
      assert Decimal(n)[..|ds|] == ds;
    }
  }

  function Text(name: bytes, value: bytes): Param { Param(Some(name), Some(value)) }

  /** The caller's parameters, then presign's own. */
  function AllParams(i: Request, amzDate: bytes, signed: bytes): seq<Param> {
    i.params
    + [Text(Ascii("X-Amz-Algorithm"), Ascii("AWS4-HMAC-SHA256")),
       Text(Ascii("X-Amz-Credential"), i.accessKey + [SLASH] + ScopeOf(amzDate, i.region, i.service)),
       Text(Ascii("X-Amz-Date"), amzDate), Text(Ascii("X-Amz-Expires"), Decimal(i.expires)),
       Text(Ascii("X-Amz-SignedHeaders"), signed)]
    + (if i.token.Some? && !i.tokenAfter then [Text(TOKEN, i.token.value)] else [])
  }

  function Hash(c: Crypto, i: Request): bytes {
    if i.payloadHash.Some? then i.payloadHash.value
    else if i.service == S3 then Ascii("UNSIGNED-PAYLOAD") else Hex(c.sha256([]))
  }

  /** Only S3 leaves the payload unsigned, and only when no hash was given. */
  lemma HashIs(c: Crypto, i: Request)
    ensures i.payloadHash == None && i.service == Ascii("s3") ==> Hash(c, i) == Ascii("UNSIGNED-PAYLOAD")
    ensures i.payloadHash == None && i.service != Ascii("s3") ==> Hash(c, i) == Hex(c.sha256([]))
    ensures forall h :: i.payloadHash == Some(h) ==> Hash(c, i) == h
  {
  }

  function HostHeader(i: Request): seq<Header> { [Header(Ascii("host"), i.host)] }

  predicate HeadersOk(i: Request) {
    1 + |i.headers| <= MAX_HEADERS && forall k :: 0 <= k < |i.headers| ==> !Refused(HostHeader(i), i.headers[k])
  }

  function Headers(i: Request): seq<Header>
    requires HeadersOk(i)
  {
    HostHeader(i) + Plain(i.headers)
  }

  predicate ParamsOk(ps: seq<Param>) {
    forall k :: 0 <= k < |ps| ==> ps[k].name.Some? && !ParamReserved(ps[k].name.value)
  }

  predicate WithinLimits(i: Request, amzDate: bytes) {
    && i.path != [] && i.path[0] == SLASH && 0 < i.expires <= MAX_EXPIRES && ParamsOk(i.params)
    && |ScopeOf(amzDate, i.region, i.service)| < SCOPE_LEN
    && (i.payloadHash.Some? ==> |i.payloadHash.value| <= HEX_LEN)
  }

  /** When every check of the C code passes. */
  predicate Presignable(i: Request, amzDate: bytes) {
    WithinLimits(i, amzDate) && HeadersOk(i) && |i.secret| + 4 < AKEY_LEN
  }

  /** The limits in figures: a week, 16 headers with host, a scope under 128 bytes, a hash of 64 characters, a
      secret of 127 bytes. */
  lemma LimitsAre(i: Request, amzDate: bytes)
    requires Presignable(i, amzDate)
    ensures 1 <= i.expires <= 604800 && |i.headers| <= 15 && |i.secret| <= 127
    ensures |ScopeOf(amzDate, i.region, i.service)| <= 127 && (i.payloadHash.Some? ==> |i.payloadHash.value| <= 64)
    ensures forall e: nat, s: bytes :: 1 <= e <= 604800 && |s| <= 127 ==> Presignable(i.(expires := e, secret := s), amzDate)
  {
  }

  // ---------------------------------------------------------------- the reference's presign()

  function SignedNames(i: Request): bytes
    requires HeadersOk(i)
  {
    Join(SEMICOLON, SortedNames(Headers(i)))
  }

  /** The canonical query that is signed. */
  function SignedQuery(i: Request, amzDate: bytes): bytes
    requires HeadersOk(i)
  {
    Query(AllParams(i, amzDate, SignedNames(i)))
  }

  function UrlSignature(c: Crypto, i: Request, amzDate: bytes): bytes
    requires HeadersOk(i) && |amzDate| == 16
  {
    Signature(c, i.secret, amzDate[..8], i.region, i.service,
              StringToSign(c, amzDate, ScopeOf(amzDate, i.region, i.service),
                           CanonicalRequest(i.verb, i.path, i.service, SignedQuery(i, amzDate), Headers(i), Hash(c, i))))
  }

  /** What follows '?'. */
  function UrlQuery(i: Request, query: bytes, sig: bytes): bytes {
    query + SIGNATURE_TEXT + sig
    + (if i.token.Some? && i.tokenAfter then TOKEN_TEXT + Encode(i.token.value, false) else [])
  }

  function Url(i: Request, query: bytes, sig: bytes): bytes {
    (if i.scheme.Some? then i.scheme.value else Ascii("https")) + Ascii("://") + i.host + WirePath(i.path) + [63]
    + UrlQuery(i, query, sig)
  }

  // ---------------------------------------------------------------- the C code

  method PutUrl(o: Sink, i: Request, query: bytes, sig: bytes)
    requires o.Valid()
    modifies o, o.dst
    ensures o.Valid() && o.fed == old(o.fed) + Url(i, query, sig)
  {
    o.Put(if i.scheme.Some? then i.scheme.value else Ascii("https"));
    o.Put(Ascii("://"));
    o.Put(i.host);
    PutUri(o, i.path, true, false);
    o.PutByte(63);
    PutUrlQuery(o, i, query, sig);
    Assoc(old(o.fed), i, query, sig);
  }

  method PutUrlQuery(o: Sink, i: Request, query: bytes, sig: bytes)
    requires o.Valid()
    modifies o, o.dst
    ensures o.Valid() && o.fed == old(o.fed) + UrlQuery(i, query, sig)
  {
    PutSigned(o, query, sig);
    if i.token.Some? && i.tokenAfter {
      PutToken(o, i.token.value);
    }
  }

  method PutSigned(o: Sink, query: bytes, sig: bytes)
    requires o.Valid()
    modifies o, o.dst
    ensures o.Valid() && o.fed == old(o.fed) + (query + SIGNATURE_TEXT + sig)
  {
    o.Put(query);
    o.Put(SIGNATURE_TEXT);
    o.Put(sig);
  }

  method PutToken(o: Sink, token: bytes)
    requires o.Valid()
    modifies o, o.dst
    ensures o.Valid() && o.fed == old(o.fed) + (TOKEN_TEXT + Encode(token, false))
  {
    o.Put(TOKEN_TEXT);
    PutEncoded(o, token, false, false);
  }

  lemma Assoc(was: bytes, i: Request, query: bytes, sig: bytes)
    ensures was + (if i.scheme.Some? then i.scheme.value else Ascii("https")) + Ascii("://") + i.host + Uri(i.path, true, false)
      + [63] + UrlQuery(i, query, sig) == was + Url(i, query, sig)
  {
  }

  /** The size pass and the writing pass: the URL and its NUL fill the allocation exactly. */
  method WriteUrl(i: Request, query: bytes, sig: bytes) returns (url: array<byte>)
    ensures fresh(url) && url.Length == |Url(i, query, sig)| + 1
    ensures url[..url.Length - 1] == Url(i, query, sig) && url[url.Length - 1] == 0
  {
    NothingBefore(Url(i, query, sig));
    var o := new Sink.Buffer(null, 0, 0);
    PutUrl(o, i, query, sig);
    url := new byte[o.len + 1];
    o := new Sink.Buffer(url, 0, url.Length);
    PutUrl(o, i, query, sig);
    var n := o.Finish();
  }

  method CheckParams(ps: seq<Param>) returns (ok: bool)
    ensures ok == ParamsOk(ps)
  {
    for k := 0 to |ps|
      invariant ParamsOk(ps[..k])
    {
      if ps[k].name.None? {
        return false;
      }
      var reserved := IsParamReserved(ps[k].name.value);
      if reserved {
        return false;
      }
      assert ps[..k + 1] == ps[..k] + [ps[k]];
    }
    assert ps[..|ps|] == ps;
    return true;
  }

  lemma NamesKnown(i: Request)
    requires HeadersOk(i) && NamesNonEmpty(i.headers)
    ensures forall h :: h in Headers(i) ==> h.name != []
  {
    var b, p := HostHeader(i), Plain(i.headers);
    forall h: Header | h in b + p
      ensures h.name != []
    {
      if h in p {
        var k :| 0 <= k < |p| && p[k] == h;
        assert i.headers[k].name != Some([]);
      }
    }
  }

  /** esp_rmaker_aws_sign_presign_url(): it succeeds exactly within its limits, and the URL is the
      reference's, byte for byte. */
  method PresignUrl(c: Crypto, i: Request, amzDate: bytes) returns (r: Result<array<byte>, SignError>)
    requires |amzDate| == 16 && forall x :: |c.sha256(x)| == 32
    ensures r.Ok? <==> Presignable(i, amzDate)
    ensures r.Ok? && NamesNonEmpty(i.headers) ==>
      var url := r.value;
      && url.Length > 0 && url[url.Length - 1] == 0
      && url[..url.Length - 1] == Url(i, SignedQuery(i, amzDate), UrlSignature(c, i, amzDate))
  {
    var ok := CheckLimits(i, amzDate);
    if !ok {
      return Err(BadInput);
    }
    var sorted := SortedHeaders(i);
    if sorted.None? {
      return Err(BadInput);
    }
    r := SignUrl(c, i, amzDate, ScopeOf(amzDate, i.region, i.service), sorted.value);
  }

  /** The checks before anything is collected. */
  method CheckLimits(i: Request, amzDate: bytes) returns (ok: bool)
    ensures ok == WithinLimits(i, amzDate)
  {
    if i.path == [] || i.path[0] != SLASH || i.expires == 0 || i.expires > MAX_EXPIRES {
      return false;
    }
    ok := CheckParams(i.params);
    ok := ok && |ScopeOf(amzDate, i.region, i.service)| < SCOPE_LEN && (i.payloadHash.Some? ==> |i.payloadHash.value| <= HEX_LEN);
  }

  /** The host header and the caller's, collected and sorted. */
  method SortedHeaders(i: Request) returns (sorted: Option<seq<Header>>)
    ensures sorted.Some? <==> HeadersOk(i)
    ensures sorted.Some? ==> StableSortOf(Headers(i), sorted.value)
  {
    var h := new Header[MAX_HEADERS](_ => Header([], []));
    var n := CollectHeaders(HostHeader(i), i.headers, h);
    sorted := if n < 0 then None else Some(h[..n]);
  }

  lemma AllNamed(i: Request, amzDate: bytes, signed: bytes)
    requires ParamsOk(i.params)
    ensures Named(AllParams(i, amzDate, signed)) && AllParams(i, amzDate, signed) != []
  {
  }

  method JoinedQuery(params: seq<Param>) returns (query: bytes)
    requires Named(params) && params != []
    ensures query == Query(params)
  {
    var built, len := BuildQuery(params);
    query := built.value[..len];
  }

  function RequestOf(c: Crypto, i: Request, amzDate: bytes, query: bytes, sorted: seq<Header>): Creq {
    Creq(i.verb, i.path, Some(query), i.service, i.region, i.secret, amzDate, ScopeOf(amzDate, i.region, i.service), sorted,
         SignedHeaders(sorted), Hash(c, i))
  }

  lemma StreamsReference(c: Crypto, i: Request, amzDate: bytes, sorted: seq<Header>)
    requires |amzDate| == 16 && HeadersOk(i) && StableSortOf(Headers(i), sorted) && NamesNonEmpty(i.headers)
    ensures SignedHeaders(sorted) == SignedNames(i)
    ensures Streamed(RequestOf(c, i, amzDate, SignedQuery(i, amzDate), sorted))
         == CanonicalRequest(i.verb, i.path, i.service, SignedQuery(i, amzDate), Headers(i), Hash(c, i))
  {
    NamesKnown(i);
    StreamedIsReference(RequestOf(c, i, amzDate, SignedQuery(i, amzDate), sorted), Headers(i));
    SignedHeadersAre(Headers(i), sorted);
  }

  /** The rest of presign_url(), once the headers are collected. */
  method SignUrl(c: Crypto, i: Request, amzDate: bytes, scope: bytes, sorted: seq<Header>) returns (r: Result<array<byte>, SignError>)
    requires |amzDate| == 16 && (forall x :: |c.sha256(x)| == 32) && HeadersOk(i) && StableSortOf(Headers(i), sorted)
    requires scope == ScopeOf(amzDate, i.region, i.service) && |scope| < SCOPE_LEN && ParamsOk(i.params)
    ensures r.Ok? <==> |i.secret| + 4 < AKEY_LEN
    ensures r.Ok? ==> r.value.Length > 0 && r.value[r.value.Length - 1] == 0
    ensures r.Ok? && NamesNonEmpty(i.headers) ==>
      r.value[..r.value.Length - 1] == Url(i, SignedQuery(i, amzDate), UrlSignature(c, i, amzDate))
  {
    var query, sig := SignQuery(c, i, amzDate, scope, sorted);
    if sig.Err? {
      return Err(sig.error);
    }
    var url := WriteUrl(i, query, sig.value);
    r := Ok(url);
  }

  /** The canonical query and its signature. */
  method SignQuery(c: Crypto, i: Request, amzDate: bytes, scope: bytes, sorted: seq<Header>)
    returns (query: bytes, sig: Result<bytes, SignError>)
    requires |amzDate| == 16 && (forall x :: |c.sha256(x)| == 32) && HeadersOk(i) && StableSortOf(Headers(i), sorted)
    requires scope == ScopeOf(amzDate, i.region, i.service) && |scope| < SCOPE_LEN && ParamsOk(i.params)
    ensures sig.Ok? <==> |i.secret| + 4 < AKEY_LEN
    ensures NamesNonEmpty(i.headers) ==> query == SignedQuery(i, amzDate)
    ensures sig.Ok? && NamesNonEmpty(i.headers) ==> sig.value == UrlSignature(c, i, amzDate)
  {
    AllNamed(i, amzDate, SignedHeaders(sorted));
    query := JoinedQuery(AllParams(i, amzDate, SignedHeaders(sorted)));
    var req := RequestOf(c, i, amzDate, query, sorted);
    StsFits(c, amzDate, scope, Streamed(req));
    sig := SignCanonical(c, req);
    if NamesNonEmpty(i.headers) {
      SignsReference(c, i, amzDate, sorted);
    }
  }

  /** What SignUrl() signs and writes is the reference's. */
  lemma SignsReference(c: Crypto, i: Request, amzDate: bytes, sorted: seq<Header>)
    requires |amzDate| == 16 && HeadersOk(i) && StableSortOf(Headers(i), sorted) && NamesNonEmpty(i.headers)
    ensures var query := Query(AllParams(i, amzDate, SignedHeaders(sorted))); var req := RequestOf(c, i, amzDate, query, sorted);
      && query == SignedQuery(i, amzDate)
      && Signature(c, req.secret, req.amzDate[..8], req.region, req.service,
                   StringToSign(c, req.amzDate, req.scope, Streamed(req))) == UrlSignature(c, i, amzDate)
  {
    StreamsReference(c, i, amzDate, sorted);
  }

  // ---------------------------------------------------------------- what a server reads back

  lemma {:induction false} EncodePlain(s: bytes)
    requires forall k :: 0 <= k < |s| ==> Unreserved(s[k])
    ensures Encode(s, false) == s
  {
    if s != [] {
      EncodePlain(s[1..]);
      assert s == [s[0]] + s[1..];
    }
  }

  lemma SignatureNamePlain()
    ensures forall k :: 0 <= k < |SIGNATURE| ==> Unreserved(SIGNATURE[k])
  {
  }

  lemma {:induction false} HexPlain(s: bytes)
    ensures forall k :: 0 <= k < |Hex(s)| ==> Unreserved(Hex(s)[k])
  {
    if s != [] {
      HexPlain(s[1..]);
    }
  }

  /** The pairs that are signed, in the order of the query. */
  function SignedPairs(i: Request, amzDate: bytes): seq<EncParam>
    requires HeadersOk(i)
  {
    SortPairs(EncodePairs(Raws(AllParams(i, amzDate, SignedNames(i)))))
  }

  /** The signed names are host and those of the caller's headers. */
  lemma SignsHostAndCaller(i: Request, n: bytes)
    requires HeadersOk(i)
    ensures n in SortedNames(Headers(i)) <==>
      n == Ascii("host") || exists k :: 0 <= k < |i.headers| && Lower(i.headers[k].name.value) == n
  {
    var hs := Headers(i);
    SortedNamesSorted(hs);
    assert Lower(Ascii("host")) == Ascii("host") && Key(hs[0]) == Ascii("host");
    assert forall k :: 0 <= k < |i.headers| ==> Key(hs[k + 1]) == Lower(i.headers[k].name.value);
    if n in Keys(hs) {
      var k :| 0 <= k < |hs| && Key(hs[k]) == n;
      assert k > 0 ==> Lower(i.headers[k - 1].name.value) == n;
    }
  }

  /** The host is signed with the one value given. */
  lemma SignsHost(i: Request)
    requires HeadersOk(i)
    ensures var m := Merged(Headers(i)); Ascii("host") in m && m[Ascii("host")] == [Trim(i.host)]
  {
    var b, p := HostHeader(i), Plain(i.headers);
    assert Lower(Ascii("host")) == Ascii("host") && Key(b[0]) == Ascii("host");
    forall j | 0 <= j < |p|
      ensures Key(p[j]) != Key(b[0])
    {
      assert !Refused(b, i.headers[j]);
    }
    Format.OnlyOne(b, p, 0);
  }

  function Pair(name: bytes, value: bytes): EncParam { EncodePair(EncParam(name, value)) }

  lemma ParamSigned(i: Request, amzDate: bytes, k: nat)
    requires HeadersOk(i) && k < |AllParams(i, amzDate, SignedNames(i))|
    ensures EncodePair(Raw(AllParams(i, amzDate, SignedNames(i))[k])) in SignedPairs(i, amzDate)
    ensures |SignedPairs(i, amzDate)| == |AllParams(i, amzDate, SignedNames(i))|
  {
    var params := AllParams(i, amzDate, SignedNames(i));
    var raws := Raws(params);
    MapLength(Raw, params);
    MapAt(Raw, params, k);
    MapLength(EncodePair, raws);
    MapAt(EncodePair, raws, k);
    SortPairsSorts(EncodePairs(raws));
    assert |multiset(SortPairs(EncodePairs(raws)))| == |multiset(EncodePairs(raws))|;
    assert EncodePairs(raws)[k] in multiset(SortPairs(EncodePairs(raws)));
  }

  /** What is signed: every parameter of the caller, algorithm, credential, date, expiry in decimal digits and
      signed names, the token unless it goes after the signature, and nothing more. */
  lemma SignedPairsAre(i: Request, amzDate: bytes)
    requires HeadersOk(i)
    ensures var ps := SignedPairs(i, amzDate);
      && |ps| == |i.params| + 5 + (if i.token.Some? && !i.tokenAfter then 1 else 0)
      && (forall k :: 0 <= k < |i.params| ==> EncodePair(Raw(i.params[k])) in ps)
      && Pair(Ascii("X-Amz-Algorithm"), Ascii("AWS4-HMAC-SHA256")) in ps
      && Pair(Ascii("X-Amz-Credential"), i.accessKey + [47] + ScopeOf(amzDate, i.region, i.service)) in ps
      && Pair(Ascii("X-Amz-Date"), amzDate) in ps
      && Pair(Ascii("X-Amz-Expires"), Decimal(i.expires)) in ps
      && Pair(Ascii("X-Amz-SignedHeaders"), SignedNames(i)) in ps
      && (i.token.Some? && !i.tokenAfter ==> Pair(Ascii("X-Amz-Security-Token"), i.token.value) in ps)
  {
    var n := |i.params|;
    ParamsAt(i, amzDate, SignedNames(i));
    forall k | 0 <= k < n
      ensures EncodePair(Raw(i.params[k])) in SignedPairs(i, amzDate)
    {
      ParamSigned(i, amzDate, k);
    }
    TextSigned(i, amzDate, n, Ascii("X-Amz-Algorithm"), Ascii("AWS4-HMAC-SHA256"));
    TextSigned(i, amzDate, n + 1, Ascii("X-Amz-Credential"), i.accessKey + [47] + ScopeOf(amzDate, i.region, i.service));
    TextSigned(i, amzDate, n + 2, Ascii("X-Amz-Date"), amzDate);
    TextSigned(i, amzDate, n + 3, Ascii("X-Amz-Expires"), Decimal(i.expires));
    TextSigned(i, amzDate, n + 4, Ascii("X-Amz-SignedHeaders"), SignedNames(i));
    if i.token.Some? && !i.tokenAfter {
      TextSigned(i, amzDate, n + 5, Ascii("X-Amz-Security-Token"), i.token.value);
    }
  }

  lemma TextSigned(i: Request, amzDate: bytes, k: nat, name: bytes, value: bytes)
    requires HeadersOk(i) && k < |AllParams(i, amzDate, SignedNames(i))|
    requires AllParams(i, amzDate, SignedNames(i))[k] == Text(name, value)
    ensures Pair(name, value) in SignedPairs(i, amzDate)
    ensures |SignedPairs(i, amzDate)| == |AllParams(i, amzDate, SignedNames(i))|
  {
    ParamSigned(i, amzDate, k);
  }

  lemma ParamsAt(i: Request, amzDate: bytes, signed: bytes)
    ensures var params := AllParams(i, amzDate, signed); var n := |i.params|;
      && |params| == n + 5 + (if i.token.Some? && !i.tokenAfter then 1 else 0)
      && (forall k :: 0 <= k < n ==> params[k] == i.params[k])
      && params[n] == Text(Ascii("X-Amz-Algorithm"), Ascii("AWS4-HMAC-SHA256"))
      && params[n + 1] == Text(Ascii("X-Amz-Credential"), i.accessKey + [47] + ScopeOf(amzDate, i.region, i.service))
      && params[n + 2] == Text(Ascii("X-Amz-Date"), amzDate)
      && params[n + 3] == Text(Ascii("X-Amz-Expires"), Decimal(i.expires))
      && params[n + 4] == Text(Ascii("X-Amz-SignedHeaders"), signed)
      && (i.token.Some? && !i.tokenAfter ==> params[n + 5] == Text(Ascii("X-Amz-Security-Token"), i.token.value))
  {
  }

  /** A reader finds the scheme before the first colon, then the host up to the first slash, the path up to the
      first question mark, and behind it the query. */
  predicate ReadsAs(url: bytes, scheme: bytes, host: bytes, path: bytes, query: bytes) {
    && Split(58, url)[0] == scheme && |url| >= |scheme| + 3 && url[|scheme|..|scheme| + 3] == Ascii("://")
    && var rest := url[|scheme| + 3..]; var tail := rest[SegLen(rest)..];
       && rest[..SegLen(rest)] == host && Split(63, tail)[0] == path && |tail| > |path| && tail[|path| + 1..] == query
  }

  /** The URL reads as its scheme, its host, the encoded path, which decodes to the path given, and the query. */
  lemma UrlFrontReadsBack(i: Request, query: bytes, sig: bytes)
    requires 47 !in i.host && i.path != [] && i.path[0] == 47 && (i.scheme.Some? ==> 58 !in i.scheme.value)
    ensures ReadsAs(Url(i, query, sig), if i.scheme.Some? then i.scheme.value else Ascii("https"), i.host,
                    Encode(i.path, true), UrlQuery(i, query, sig))
    ensures Decode(Encode(i.path, true)) == Some(i.path)
  {
    HttpsClean();
    PathPlain(i.path);
    FrontReadsAs(if i.scheme.Some? then i.scheme.value else Ascii("https"), i.host, Encode(i.path, true), UrlQuery(i, query, sig));
  }

  lemma PathPlain(path: bytes)
    requires path != [] && path[0] == 47
    ensures var e := Encode(path, true); e != [] && e[0] == 47 && 63 !in e && Decode(e) == Some(path)
  {
    EncodeOne(SLASH, true);
    EncodeAppend([SLASH], path[1..], true);
    assert [SLASH] + path[1..] == path;
    EncodeAlphabet(path, true);
    DecodeEncode(path, true);
  }

  lemma FrontReadsAs(scheme: bytes, host: bytes, path: bytes, q: bytes)
    requires 58 !in scheme && 47 !in host && path != [] && path[0] == 47 && 63 !in path
    ensures ReadsAs(scheme + Ascii("://") + host + path + [63] + q, scheme, host, path, q)
  {
    var tail := path + [63] + q;
    HttpsClean();
    var url := scheme + Ascii("://") + host + path + [63] + q;
    assert url == scheme + Ascii("://") + (host + tail);
    assert url == scheme + [58] + (Ascii("//") + (host + tail));
    SplitPrefix(58, scheme, Ascii("//") + (host + tail));
    SegLenOf(host, tail);
    SplitPrefix(63, path, q);
    assert url[|scheme| + 3..] == host + tail;
  }

  lemma HttpsClean()
    ensures 58 !in Ascii("https") && [58] + Ascii("//") == Ascii("://")
  {
  }

  function SignaturePair(sig: bytes): EncParam { EncParam(SIGNATURE, sig) }

  function TokenPairs(i: Request): seq<EncParam> {
    if i.token.Some? && i.tokenAfter then [EncParam(TOKEN, Encode(i.token.value, false))] else []
  }

  lemma OwnNameDiffers(i: Request, amzDate: bytes, signed: bytes, k: nat)
    requires ParamsOk(i.params) && k < |AllParams(i, amzDate, signed)|
    ensures Raw(AllParams(i, amzDate, signed)[k]).name != SIGNATURE
  {
    if k < |i.params| {
      assert OwnNames()[6] == SIGNATURE;
      assert AllParams(i, amzDate, signed)[k] == i.params[k];
    } else {
      assert Ascii("X-Amz-Algorithm")[6] != SIGNATURE[6];
      assert TOKEN[7] != SIGNATURE[7];
    }
  }

  lemma EncodedNameDiffers(name: bytes)
    requires name != SIGNATURE
    ensures Encode(name, false) != SIGNATURE
  {
    SignatureNamePlain();
    EncodePlain(SIGNATURE);
    if Encode(name, false) == SIGNATURE {
      EncodeInjective(name, SIGNATURE, false);
    }
  }

  /** Sorting and encoding only permute and rename. */
  lemma FromRaw(raws: seq<EncParam>, p: EncParam) returns (k: nat)
    requires p in SortPairs(EncodePairs(raws))
    ensures k < |raws| && p == EncodePair(raws[k])
  {
    var enc := EncodePairs(raws);
    SortPairsSorts(enc);
    assert p in multiset(SortPairs(enc));
    k :| 0 <= k < |enc| && enc[k] == p;
    MapLength(EncodePair, raws);
    MapAt(EncodePair, raws, k);
  }

  /** Nothing that is signed is called X-Amz-Signature. */
  lemma NotSigned(i: Request, amzDate: bytes, p: EncParam)
    requires HeadersOk(i) && ParamsOk(i.params) && p in SignedPairs(i, amzDate)
    ensures p.name != SIGNATURE
  {
    var params := AllParams(i, amzDate, SignedNames(i));
    var k := FromRaw(Raws(params), p);
    MapLength(Raw, params);
    MapAt(Raw, params, k);
    OwnNameDiffers(i, amzDate, SignedNames(i), k);
    EncodedNameDiffers(Raw(params[k]).name);
  }

  lemma Appended(q: bytes, ps: seq<EncParam>, p: EncParam)
    requires ps != [] && q == Join(AMPERSAND, Items(ps))
    ensures q + [AMPERSAND] + Item(p) == Join(AMPERSAND, Items(ps + [p]))
  {
    ItemsSnoc(ps, p);
    assert Items(ps) != [];
    JoinSnoc(AMPERSAND, Items(ps), Item(p));
  }

  /** A parameter appended as text is one more item. */
  lemma Extended(q: bytes, ps: seq<EncParam>, lit: bytes, p: EncParam)
    requires ps != [] && q == Join(AMPERSAND, Items(ps)) && lit == [AMPERSAND] + p.name + [EQUALS]
    ensures q + lit + p.value == Join(AMPERSAND, Items(ps + [p]))
  {
    Appended(q, ps, p);
    assert q + lit + p.value == q + [AMPERSAND] + Item(p);
  }

  lemma UrlQueryIs(i: Request, ps: seq<EncParam>, sig: bytes)
    requires ps != []
    ensures UrlQuery(i, Join(AMPERSAND, Items(ps)), sig) == Join(AMPERSAND, Items(ps + [SignaturePair(sig)] + TokenPairs(i)))
  {
    var q, more := Join(AMPERSAND, Items(ps)), ps + [SignaturePair(sig)];
    Extended(q, ps, SIGNATURE_TEXT, SignaturePair(sig));
    var q' := q + SIGNATURE_TEXT + sig;
    if i.token.Some? && i.tokenAfter {
      var t := EncParam(TOKEN, Encode(i.token.value, false));
      Extended(q', more, TOKEN_TEXT, t);
      Regroup(q', TOKEN_TEXT, t.value);
    } else {
      assert more + [] == more && q' + [] == q';
    }
  }

  lemma PlainIsClean(s: bytes)
    requires forall k :: 0 <= k < |s| ==> Unreserved(s[k])
    ensures EQUALS !in s && AMPERSAND !in s
  {
  }

  lemma TokenNamePlain()
    ensures forall k :: 0 <= k < |TOKEN| ==> Unreserved(TOKEN[k])
  {
  }

  lemma AllClean(i: Request, amzDate: bytes, mac: bytes)
    requires HeadersOk(i)
    ensures forall p :: p in SignedPairs(i, amzDate) + [SignaturePair(Hex(mac))] + TokenPairs(i) ==> Clean(p)
  {
    HexPlain(mac);
    PlainIsClean(Hex(mac));
    SignatureNamePlain();
    PlainIsClean(SIGNATURE);
    TokenNamePlain();
    PlainIsClean(TOKEN);
    if i.token.Some? {
      EncodeAlphabet(i.token.value, false);
    }
    forall p | p in SignedPairs(i, amzDate)
      ensures Clean(p)
    {
      var k := FromRaw(Raws(AllParams(i, amzDate, SignedNames(i))), p);
      EncodePairClean(Raws(AllParams(i, amzDate, SignedNames(i)))[k]);
    }
  }

  lemma SomethingSigned(i: Request, amzDate: bytes)
    requires HeadersOk(i)
    ensures SignedPairs(i, amzDate) != []
  {
    var raws := Raws(AllParams(i, amzDate, SignedNames(i)));
    MapLength(Raw, AllParams(i, amzDate, SignedNames(i)));
    MapLength(EncodePair, raws);
    SortPairsSorts(EncodePairs(raws));
    EmptyMultiset(SortPairs(EncodePairs(raws)), EncodePairs(raws));
  }

  /** A server reads the signed pairs out of the URL again, in the order they were signed in, then the
      signature, then the token if it was left unsigned; no signed pair is called X-Amz-Signature, so
      dropping what follows that name leaves exactly the query that was signed. */
  lemma UrlReadsBack(i: Request, amzDate: bytes, mac: bytes)
    requires HeadersOk(i) && ParamsOk(i.params)
    ensures ReadQuery(UrlQuery(i, SignedQuery(i, amzDate), Hex(mac)))
         == Some(SignedPairs(i, amzDate) + [SignaturePair(Hex(mac))] + TokenPairs(i))
    ensures Join(AMPERSAND, Items(SignedPairs(i, amzDate))) == SignedQuery(i, amzDate)
    ensures forall p :: p in SignedPairs(i, amzDate) ==> p.name != SIGNATURE
  {
    var ps := SignedPairs(i, amzDate);
    var all := ps + [SignaturePair(Hex(mac))] + TokenPairs(i);
    SomethingSigned(i, amzDate);
    UrlQueryIs(i, ps, Hex(mac));
    AllClean(i, amzDate, mac);
    ReadItemsOf(all);
    ItemsNonEmpty(all);
    SplitJoin(AMPERSAND, Items(all));
    forall p | p in ps
      ensures p.name != SIGNATURE
    {
      NotSigned(i, amzDate, p);
    }
  }
}
