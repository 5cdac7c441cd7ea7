/** esp_rmaker_aws_sign_send_request() end to end: query, credentials, default content type, signature,
    URL and transfer. What goes on the wire is exactly what was signed. */
module SignedRequest {
  import opened Bytes
  import opened CanonicalHeaders
  import opened CanonicalQuery
  import opened ConnectionPool
  import opened Permutations
  import opened RequestUrl
  import opened SigV4Signer
  import opened UriEncoding

  datatype Credentials = Credentials(accessKey: bytes, secret: bytes, token: bytes)

  datatype ApiRequest = ApiRequest(verb: bytes, host: bytes, path: bytes, params: seq<Param>, service: bytes, region: bytes,
                                   headers: seq<RawHeader>, payload: bytes, timeoutMs: int)

  datatype ApiError = BadRequest | NoCredentials | NotSigned | NotSent(cause: SendError)

  const CONTENT_TYPE: bytes := Ascii("Content-Type")

  /** method_to_enum(). */
  function VerbOf(m: bytes): Option<Verb> {
    if m == Ascii("GET") then Some(Get)
    else if m == Ascii("POST") then Some(Post)
    else if m == Ascii("PUT") then Some(Put)
    else if m == Ascii("DELETE") then Some(Delete)
    else if m == Ascii("PATCH") then Some(Patch)
    else None
  }

  /** The method's own text. */
  function VerbText(v: Verb): bytes {
    match v
    case Get => Ascii("GET")
    case Post => Ascii("POST")
    case Put => Ascii("PUT")
    case Delete => Ascii("DELETE")
    case Patch => Ascii("PATCH")
  }

  lemma VerbReadsBack(m: bytes, v: Verb)
    ensures VerbOf(m) == Some(v) <==> m == VerbText(v)
  {
    assert |Ascii("GET")| == |Ascii("PUT")| == 3 && |Ascii("POST")| == 4 && |Ascii("DELETE")| == 6 && |Ascii("PATCH")| == 5;
    assert Ascii("GET")[0] != Ascii("PUT")[0];
  }

  predicate HasContentType(hs: seq<RawHeader>) {
    exists i :: 0 <= i < |hs| && hs[i].name.Some? && Lower(hs[i].name.value) == Lower(CONTENT_TYPE)
  }

  /** needs_content_type() and with_content_type(). */
  function SentHeaders(req: ApiRequest): (hs: seq<RawHeader>)
    ensures req.headers <= hs && |hs| <= |req.headers| + 1
  {
    if req.payload != [] && !HasContentType(req.headers)
    then req.headers + [RawHeader(Some(CONTENT_TYPE), Some(Ascii("application/json")))]
    else req.headers
  }

  function SignerInput(req: ApiRequest, cr: Credentials): Input {
    Input(req.verb, req.host, req.path, SentHeaders(req), req.payload, None, true, cr.accessKey, cr.secret, Some(cr.token),
          req.region, req.service)
  }

  /** The query text, empty when there are no parameters. */
  function QueryText(params: seq<Param>): bytes { if params == [] then [] else Query(params) }

  /** The caller gave a header of this name, up to case. */
  predicate Gives(req: ApiRequest, n: bytes) {
    exists k :: 0 <= k < |req.headers| && req.headers[k].name.Some? && Lower(req.headers[k].name.value) == n
  }

  /** The k-th header of the caller is the last one of its name. */
  predicate LastGiven(req: ApiRequest, k: nat) {
    && k < |req.headers| && req.headers[k].name.Some? && req.headers[k].value.Some?
    && forall j :: k < j < |req.headers| && req.headers[j].name.Some? ==>
         Lower(req.headers[j].name.value) != Lower(req.headers[k].name.value)
  }

  /** The header block holds the caller's headers with the values given, the content type application/json
      if there is a payload and the caller gave none, the four signing headers, and nothing else. */
  ghost predicate SendsOwn(m: HeaderMap, req: ApiRequest) {
    && (forall k: nat :: LastGiven(req, k) ==>
          Lower(req.headers[k].name.value) in m && m[Lower(req.headers[k].name.value)] == req.headers[k].value.value)
    && (forall n :: n in m <==> n in SIGNING || Gives(req, n) || (n == Ascii("content-type") && req.payload != []))
    && (req.payload != [] && !Gives(req, Ascii("content-type")) ==> m[Ascii("content-type")] == Ascii("application/json"))
  }

  lemma LowerContentType()
    ensures Lower(CONTENT_TYPE) == Ascii("content-type")
  {
  }

  lemma SentHeadersOwn(s: Signed, req: ApiRequest)
    requires forall k :: 0 <= k < |SentHeaders(req)| ==> SentHeaders(req)[k].name.Some? && SentHeaders(req)[k].value.Some?
    ensures SendsOwn(WireHeaders(s, Plain(SentHeaders(req))), req)
  {
    var hs := Plain(SentHeaders(req));
    LowerContentType();
    WireHeadersLast(s, hs);
    KeysSent(req);
    assert forall k :: 0 <= k < |req.headers| ==> SentHeaders(req)[k] == req.headers[k];
    forall k: nat | LastGiven(req, k)
      ensures LastOfName(hs, k) && Key(hs[k]) in Keys(hs)
    {
    }
    if req.payload != [] && !Gives(req, Ascii("content-type")) {
      assert LastOfName(hs, |req.headers|);
    }
  }

  lemma KeysSent(req: ApiRequest)
    requires forall k :: 0 <= k < |SentHeaders(req)| ==> SentHeaders(req)[k].name.Some? && SentHeaders(req)[k].value.Some?
    ensures forall n :: n in Keys(Plain(SentHeaders(req))) <==>
      Gives(req, n) || (n == Ascii("content-type") && req.payload != [])
  {
    var hs := Plain(SentHeaders(req));
    LowerContentType();
    assert forall k :: 0 <= k < |req.headers| ==> SentHeaders(req)[k] == req.headers[k] && Key(hs[k]) in Keys(hs);
    if |hs| > |req.headers| {
      assert Key(hs[|req.headers|]) in Keys(hs);
    }
  }

  /** t carries the method and URL the signature covers, the reference's Authorization, and every header of
      the caller. */
  ghost predicate CarriesWhatWasSigned(t: Sent, c: Crypto, req: ApiRequest, cr: Credentials, amzDate: bytes)
    requires |amzDate| == 16
  {
    var i := Input(req.verb, req.host, req.path, SentHeaders(req), req.payload, None, true, cr.accessKey, cr.secret,
                   Some(cr.token), req.region, req.service);
    && Presentable(c, i, amzDate)
    && t.url == UrlText(req.host, req.path, QueryText(req.params)) && VerbText(t.verb) == req.verb
    && t.body == req.payload && SendsOwn(t.headers, req)
    && t.headers[Ascii("x-amz-date")] == amzDate && t.headers[Ascii("x-amz-security-token")] == cr.token
    && t.headers[Ascii("x-amz-content-sha256")] == Hex(c.sha256(req.payload))
    && (NamesNonEmpty(SentHeaders(req)) ==>
          t.headers[Ascii("authorization")] == ReferenceAuthorization(c, i, amzDate, QueryText(req.params)))
    && exists s: Signed ::
         && t.headers == WireHeaders(s, Plain(SentHeaders(req)))
         && s.amzDate == amzDate && s.token == cr.token && s.contentSha256 == Hex(c.sha256(req.payload))
         && (NamesNonEmpty(SentHeaders(req)) ==>
               s.authorization == ReferenceAuthorization(c, i, amzDate, QueryText(req.params)))
  }

  /** Names the signer adds are refused, so none of the caller's can stand in for a signed one. */
  lemma CallerNamesAreOwn(c: Crypto, req: ApiRequest, cr: Credentials, amzDate: bytes)
    requires Presentable(c, SignerInput(req, cr), amzDate)
    ensures forall h :: h in Plain(SentHeaders(req)) ==> Key(h) !in SIGNING
  {
    var i := SignerInput(req, cr);
    var b := Builtin(c, i, amzDate);
    LowerNames();
    assert Key(b[1]) == AMZ_DATE && Key(b[2]) == SECURITY_TOKEN && Key(b[3]) == CONTENT_SHA256;
    var hs := Plain(SentHeaders(req));
    forall h: Header | h in hs
      ensures Key(h) !in SIGNING
    {
      var k :| 0 <= k < |hs| && hs[k] == h;
      assert !Refused(b, i.headers[k]);
    }
  }

  /** The wire header block is the four signing headers as computed and each caller header as given. */
  lemma ExactHeaders(c: Crypto, req: ApiRequest, cr: Credentials, amzDate: bytes, s: Signed)
    requires Presentable(c, SignerInput(req, cr), amzDate) && DistinctNames(Plain(SentHeaders(req)))
    ensures var hs := Plain(SentHeaders(req)); var w := WireHeaders(s, hs);
      && w.Keys == SIGNING + Keys(hs)
      && (forall n :: n in SIGNING ==> w[n] == SigningHeaders(s)[n])
      && (forall k :: 0 <= k < |hs| ==> w[Key(hs[k])] == hs[k].value)
      && SendsOwn(w, req)
  {
    SentHeadersOwn(s, req);
    CallerNamesAreOwn(c, req, cr, amzDate);
    WireHeadersExact(s, Plain(SentHeaders(req)));
  }

  /** The request handed to the connection carries the URL the signature covers and the computed headers. */
  ghost predicate Prepared(wire: Request, c: Crypto, req: ApiRequest, cr: Credentials, amzDate: bytes)
    requires |amzDate| == 16
  {
    && Presentable(c, SignerInput(req, cr), amzDate)
    && wire.host == req.host && VerbText(wire.verb) == req.verb
    && wire.url == UrlText(req.host, req.path, QueryText(req.params)) && wire.payload == req.payload
    && wire.headers == Plain(SentHeaders(req)) && SendsOwn(WireHeaders(wire.signed, wire.headers), req)
    && wire.signed.amzDate == amzDate && wire.signed.token == cr.token && wire.signed.contentSha256 == Hex(c.sha256(req.payload))
    && (NamesNonEmpty(SentHeaders(req)) ==>
          wire.signed.authorization == ReferenceAuthorization(c, SignerInput(req, cr), amzDate, QueryText(req.params)))
  }

  /** Query, credentials, content type, signature and URL, up to the transfer. */
  method Prepare(c: Crypto, req: ApiRequest, creds: Option<Credentials>, amzDate: bytes) returns (r: Result<Request, ApiError>)
    requires |amzDate| == 16 && forall x :: |c.sha256(x)| == 32
    ensures creds.None? ==> r.Err?
    ensures r.Ok? ==> Prepared(r.value, c, req, creds.value, amzDate)
    ensures VerbOf(req.verb).None? || req.path == [] || req.path[0] != SLASH ==> r == Err(BadRequest)
  {
    var verb := VerbOf(req.verb);
    if verb.None? || req.path == [] || req.path[0] != SLASH {
      return Err(BadRequest);
    }
    var q, qlen := BuildQuery(req.params);
    if q.Err? {
      return Err(BadRequest);
    }
    if creds.None? {
      return Err(NoCredentials);
    }
    var query := if q.value == null then [] else q.value[..qlen];
    var i := SignerInput(req, creds.value);
    var sig := SigV4WithQuery(c, i, amzDate, if q.value == null then None else Some(query));
    if sig.Err? {
      return Err(NotSigned);
    }
    var url := BuildUrl(req.host, req.path, query);
    var signed := Signed(sig.value.authorization, sig.value.amzDate, sig.value.contentSha256, creds.value.token);
    VerbReadsBack(req.verb, verb.value);
    SentHeadersOwn(signed, req);
    r := Ok(Request(req.host, url[..url.Length - 1], verb.value, req.timeoutMs, Plain(SentHeaders(req)), req.payload, signed));
  }

  lemma TransmittedIsSigned(t: Sent, wire: Request, c: Crypto, req: ApiRequest, cr: Credentials, amzDate: bytes)
    requires |amzDate| == 16 && Prepared(wire, c, req, cr, amzDate)
    requires Faithful(t, wire)
    ensures CarriesWhatWasSigned(t, c, req, cr, amzDate)
  {
    CallerNamesAreOwn(c, req, cr, amzDate);
    WireHeadersLast(wire.signed, wire.headers);
    SigningSent(wire.signed, wire.headers);
  }

  lemma SigningSent(s: Signed, hs: seq<Header>)
    requires forall h :: h in hs ==> Key(h) !in SIGNING
    ensures var m := WireHeaders(s, hs);
      && Ascii("authorization") in m && m[Ascii("authorization")] == s.authorization
      && Ascii("x-amz-date") in m && m[Ascii("x-amz-date")] == s.amzDate
      && Ascii("x-amz-security-token") in m && m[Ascii("x-amz-security-token")] == s.token
      && Ascii("x-amz-content-sha256") in m && m[Ascii("x-amz-content-sha256")] == s.contentSha256
  {
    WireHeadersLast(s, hs);
    SigningDiffer();
    assert forall n :: n in SIGNING ==> n !in Keys(hs);
  }

  lemma SigningDiffer()
    ensures AUTHORIZATION != AMZ_DATE && AUTHORIZATION != CONTENT_SHA256 && AUTHORIZATION != SECURITY_TOKEN
    ensures AMZ_DATE != CONTENT_SHA256 && AMZ_DATE != SECURITY_TOKEN && CONTENT_SHA256 != SECURITY_TOKEN
  {
    assert |AUTHORIZATION| == 13 && |AMZ_DATE| == 10 && |CONTENT_SHA256| == 20 == |SECURITY_TOKEN|;
    assert CONTENT_SHA256[6] != SECURITY_TOKEN[6];
  }

  /** Whoever reads the URL of a request finds its host, its path, and its parameters in canonical order. */
  lemma SentUrlReadsBack(req: ApiRequest)
    requires SLASH !in req.host && req.path != [] && req.path[0] == SLASH
    ensures var url := UrlText(req.host, req.path, QueryText(req.params));
      && |url| >= 8
      && var rest := url[8..]; var parts := Split(63, rest[SegLen(rest)..]);
         && rest[..SegLen(rest)] == req.host
         && Decode(parts[0]) == Some(req.path)
         && (req.params == [] <==> |parts| == 1)
         && (req.params != [] ==>
               && |parts| == 2 && ReadQuery(parts[1]).Some? && DecodePairs(ReadQuery(parts[1]).value).Some?
               && multiset(DecodePairs(ReadQuery(parts[1]).value).value) == multiset(Raws(req.params)))
  {
    var query := QueryText(req.params);
    QueryAlphabet(req.params);
    assert 63 !in query;
    UrlReadsBack(req.host, req.path, query);
    QueryReadsBack(req.params);
    QueryNonEmpty(req.params);
  }

  lemma QueryNonEmpty(params: seq<Param>)
    ensures QueryText(params) == [] <==> params == []
  {
    if params != [] {
      var raws := Raws(params);
      MapLength(Raw, params);
      MapLength(EncodePair, raws);
      SortPairsSorts(EncodePairs(raws));
      EmptyMultiset(SortPairs(EncodePairs(raws)), EncodePairs(raws));
      ItemsNonEmpty(SortPairs(EncodePairs(raws)));
    }
  }

  /** esp_rmaker_aws_sign_send_request(). */
  method SendRequest(handle: Handle, c: Crypto, req: ApiRequest, creds: Option<Credentials>, amzDate: bytes,
                     first: Script, second: Script)
    returns (r: Result<Response, ApiError>, ghost sent: seq<Sent>)
    requires handle.Valid() && |amzDate| == 16 && forall x :: |c.sha256(x)| == 32
    modifies handle, handle.port, handle.conn
    ensures handle.Valid() && handle.port.log == old(handle.port.log) + sent && |sent| <= 2
    ensures creds.None? ==> r.Err? && sent == []
    ensures forall k :: 0 <= k < |sent| ==> CarriesWhatWasSigned(sent[k], c, req, creds.value, amzDate)
    ensures forall k :: 0 <= k < |sent| ==> sent[k].openHost == req.host || |sent[k].openHost| >= CONN_HOST_LEN
    ensures |sent| == 2 ==> old(handle.conn) != null && sent[0].conn == old(handle.conn.id) && first.rx == []
    ensures |sent| == 2 ==> sent[1].earlierSends == 0 && sent[1].openHost == req.host
    ensures r.Ok? ==> |sent| > 0 && r.value.body == Chunks((if |sent| == 2 then second else first).rx)
  {
    sent := [];
    var wire := Prepare(c, req, creds, amzDate);
    if wire.Err? {
      return Err(wire.error), sent;
    }
    var res;
    res, sent := handle.Send(wire.value, first, second);
    forall k | 0 <= k < |sent|
      ensures CarriesWhatWasSigned(sent[k], c, req, creds.value, amzDate)
    {
      TransmittedIsSigned(sent[k], wire.value, c, req, creds.value, amzDate);
    }
    r := match res case Ok(v) => Ok(v) case Err(e) => Err(NotSent(e));
  }
}
