/** esp_rmaker_aws_sign_send_request(): one pooled keep-alive connection, and one guarded retry. The
    HTTP port is an adversary whose answers are scripted per attempt; its log is what was transmitted. */
module ConnectionPool {
  import opened Bytes
  import opened CanonicalHeaders
  import opened ResponseAccum

  datatype Verb = Get | Post | Put | Delete | Patch

  type HeaderMap = map<bytes, bytes>

  /** One transmission: on which connection, opened to which host, after how many earlier ones. */
  datatype Sent = Sent(conn: nat, openHost: bytes, earlierSends: nat, url: bytes, verb: Verb, timeoutMs: int,
                       headers: HeaderMap, body: bytes)

  /** What the peer and the client library deliver to the receiver. */
  datatype RxEvent = HintEvent(contentLength: nat, allocOk: bool) | ChunkEvent(data: bytes, allocOk: bool)

  /** The port's answers during one attempt: headersOk set_header() calls succeed, and a port may
      ignore the receiver's wish to abort. */
  datatype Script = Script(now: int, setUrlOk: bool, setVerbOk: bool, openOk: bool, headersOk: nat,
                           rx: seq<RxEvent>, ignoresAbort: bool, performOk: bool, doneAt: int, status: int)

  /** The body the events carry. */
  function Chunks(rx: seq<RxEvent>): bytes {
    if rx == [] then []
    else Chunks(rx[..|rx| - 1]) + (if rx[|rx| - 1].ChunkEvent? then rx[|rx| - 1].data else [])
  }

  function WithHeader(m: HeaderMap, name: bytes, value: Option<bytes>): HeaderMap {
    if value.Some? then m[Lower(name) := value.value] else m - {Lower(name)}
  }

  class Port {
    var opens: nat
    var closes: nat
    var log: seq<Sent>

    constructor ()
      ensures opens == 0 && closes == 0 && log == []
    {
      opens, closes, log := 0, 0, [];
    }
  }

  /** A connection of the port; header names are kept up to case. */
  class Conn {
    const port: Port
    const id: nat
    const openHost: bytes
    const timeoutMs: int
    var url: bytes
    var verb: Verb
    var headers: HeaderMap
    var sends: nat

    /** open(). */
    constructor (port: Port, host: bytes, url: bytes, verb: Verb, timeoutMs: int)
      modifies port
      ensures this.port == port && id == old(port.opens) && openHost == host && this.timeoutMs == timeoutMs
      ensures this.url == url && this.verb == verb && headers == map[] && sends == 0
      ensures port.opens == old(port.opens) + 1 && port.closes == old(port.closes) && port.log == old(port.log)
    {
      this.port, id, openHost, this.timeoutMs := port, port.opens, host, timeoutMs;
      this.url, this.verb, headers, sends := url, verb, map[], 0;
      new;
      port.opens := port.opens + 1;
    }

    method Close()
      modifies port
      ensures port.closes == old(port.closes) + 1 && port.opens == old(port.opens) && port.log == old(port.log)
    {
      port.closes := port.closes + 1;
    }

    /** set_url() and set_method(). */
    method Retarget(url: bytes, verb: Verb, setUrlOk: bool, setVerbOk: bool) returns (ok: bool)
      modifies this`url, this`verb
      ensures ok <==> setUrlOk && setVerbOk
      ensures ok ==> this.url == url && this.verb == verb
    {
      if setUrlOk {
        this.url := url;
        if setVerbOk {
          this.verb := verb;
        }
      }
      ok := setUrlOk && setVerbOk;
    }

    /** set_header(): overwrites by name; None removes. */
    method SetHeader(name: bytes, value: Option<bytes>, ok: bool)
      modifies this`headers
      ensures headers == if ok then WithHeader(old(headers), name, value) else old(headers)
    {
      if ok {
        headers := WithHeader(headers, name, value);
      }
    }

    /** perform(): one transmission, then the response into the receiver. */
    method Perform(body: bytes, acc: Accum, script: Script) returns (ok: bool)
      requires acc.Valid() && acc.status == StatusOk && !acc.gotResponse && acc.body == []
      modifies this`sends, port`log, acc, acc.buf
      ensures acc.Valid() && (acc.buf == old(acc.buf) || fresh(acc.buf))
      ensures sends == old(sends) + 1
      ensures port.log == old(port.log) + [Sent(id, openHost, old(sends), url, verb, timeoutMs, headers, body)]
      ensures acc.gotResponse <==> script.rx != []
      ensures ok ==> script.performOk
      ensures ok && acc.status == StatusOk ==> acc.body == Chunks(script.rx)
      ensures script.rx == [] ==> acc.status == StatusOk && ok == script.performOk
    {
      port.log := port.log + [Sent(id, openHost, sends, url, verb, timeoutMs, headers, body)];
      sends := sends + 1;
      ok := Receive(acc, script.rx, script.ignoresAbort);
      ok := ok && script.performOk;
    }
  }

  /** The receive loop of a port. */
  method Receive(acc: Accum, rx: seq<RxEvent>, ignoresAbort: bool) returns (ok: bool)
    requires acc.Valid() && acc.status == StatusOk && !acc.gotResponse && acc.body == []
    modifies acc, acc.buf
    ensures acc.Valid() && (acc.buf == old(acc.buf) || fresh(acc.buf))
    ensures acc.gotResponse <==> rx != []
    ensures ok && acc.status == StatusOk ==> acc.body == Chunks(rx)
    ensures rx == [] ==> ok && acc.status == StatusOk
  {
    ok := true;
    for i := 0 to |rx|
      invariant acc.Valid() && (acc.buf == old(acc.buf) || fresh(acc.buf))
      invariant acc.gotResponse <==> i > 0
      invariant rx == [] ==> acc.status == StatusOk
      invariant acc.status == StatusOk ==> acc.body == Chunks(rx[..i])
    {
      assert rx[..i + 1][..i] == rx[..i];
      var taken := true;
      match rx[i] {
        case HintEvent(n, allocOk) =>
          taken := acc.Hint(n, allocOk);
        case ChunkEvent(data, allocOk) =>
          var n := acc.Sink(data, allocOk);
          taken := n == |data|;
      }
      if !taken && !ignoresAbort {
        return false;
      }
    }
    assert rx[..|rx|] == rx;
  }

  // ---------------------------------------------------------------- headers

  function SetAll(m: HeaderMap, hs: seq<Header>): HeaderMap {
    if hs == [] then m else SetAll(m, hs[..|hs| - 1])[Key(hs[|hs| - 1]) := hs[|hs| - 1].value]
  }

  const AUTHORIZATION: bytes := Ascii("authorization")
  const AMZ_DATE: bytes := Ascii("x-amz-date")
  const CONTENT_SHA256: bytes := Ascii("x-amz-content-sha256")
  const SECURITY_TOKEN: bytes := Ascii("x-amz-security-token")

  /** The names every request overwrites. */
  const SIGNING: set<bytes> := {AUTHORIZATION, AMZ_DATE, CONTENT_SHA256, SECURITY_TOKEN}

  /** What signing adds; the token comes with every credential set. */
  datatype Signed = Signed(authorization: bytes, amzDate: bytes, contentSha256: bytes, token: bytes)

  function SigningHeaders(s: Signed): HeaderMap {
    map[AUTHORIZATION := s.authorization, AMZ_DATE := s.amzDate, CONTENT_SHA256 := s.contentSha256, SECURITY_TOKEN := s.token]
  }

  /** The header block of a request: the four signing headers and the caller's, nothing else. */
  function WireHeaders(s: Signed, hs: seq<Header>): HeaderMap { SetAll(SigningHeaders(s), hs) }

  ghost predicate DistinctNames(hs: seq<Header>) {
    forall i, j :: 0 <= i < j < |hs| ==> Key(hs[i]) != Key(hs[j])
  }

  /** With names distinct up to case and none of the signer's, the wire carries each caller header as
      given, the four signing headers as computed, and no other. */
  lemma {:induction false} WireHeadersExact(s: Signed, hs: seq<Header>)
    requires DistinctNames(hs) && forall h :: h in hs ==> Key(h) !in SIGNING
    ensures WireHeaders(s, hs).Keys == SIGNING + Keys(hs)
    ensures forall n :: n in SIGNING ==> WireHeaders(s, hs)[n] == SigningHeaders(s)[n]
    ensures forall i :: 0 <= i < |hs| ==> WireHeaders(s, hs)[Key(hs[i])] == hs[i].value
  {
    if hs != [] {
      var init, last := hs[..|hs| - 1], hs[|hs| - 1];
      assert last in hs;
      WireHeadersExact(s, init);
      OneMore(WireHeaders(s, init), s, hs);
    }
  }

  /** The header is the last one of its name. */
  predicate LastOfName(hs: seq<Header>, i: nat) {
    i < |hs| && forall j :: i < j < |hs| ==> Key(hs[j]) != Key(hs[i])
  }

  lemma {:induction false} LastIsSet(m: HeaderMap, hs: seq<Header>, i: nat)
    requires LastOfName(hs, i)
    ensures Key(hs[i]) in SetAll(m, hs) && SetAll(m, hs)[Key(hs[i])] == hs[i].value
  {
    var init := hs[..|hs| - 1];
    if i < |init| {
      assert LastOfName(init, i);
      LastIsSet(m, init, i);
    }
  }

  lemma {:induction false} OthersStay(m: HeaderMap, hs: seq<Header>, n: bytes)
    requires n in m && n !in Keys(hs)
    ensures n in SetAll(m, hs) && SetAll(m, hs)[n] == m[n]
  {
    if hs != [] {
      KeysOf(hs);
      OthersStay(m, hs[..|hs| - 1], n);
    }
  }

  /** Whatever the names: the last header of each name is on the wire, and a signing header no caller name
      stands for, and no other. */
  lemma WireHeadersLast(s: Signed, hs: seq<Header>)
    ensures WireHeaders(s, hs).Keys == SIGNING + Keys(hs)
    ensures forall n :: n in SIGNING && n !in Keys(hs) ==> WireHeaders(s, hs)[n] == SigningHeaders(s)[n]
    ensures forall i: nat :: LastOfName(hs, i) ==> WireHeaders(s, hs)[Key(hs[i])] == hs[i].value
  {
    SetAllKeys(SigningHeaders(s), hs);
    forall n | n in SIGNING && n !in Keys(hs)
      ensures WireHeaders(s, hs)[n] == SigningHeaders(s)[n]
    {
      OthersStay(SigningHeaders(s), hs, n);
    }
    forall i: nat | LastOfName(hs, i)
      ensures Key(hs[i]) in WireHeaders(s, hs) && WireHeaders(s, hs)[Key(hs[i])] == hs[i].value
    {
      LastIsSet(SigningHeaders(s), hs, i);
    }
  }

  /** One more header with a new name. */
  lemma OneMore(m: HeaderMap, s: Signed, hs: seq<Header>)
    requires hs != [] && DistinctNames(hs) && Key(hs[|hs| - 1]) !in SIGNING
    requires m.Keys == SIGNING + Keys(hs[..|hs| - 1])
    requires forall n :: n in SIGNING ==> m[n] == SigningHeaders(s)[n]
    requires forall i :: 0 <= i < |hs| - 1 ==> Key(hs[i]) in m && m[Key(hs[i])] == hs[i].value
    ensures var last := hs[|hs| - 1]; var r := m[Key(last) := last.value];
      && r.Keys == SIGNING + Keys(hs)
      && (forall n :: n in SIGNING ==> r[n] == SigningHeaders(s)[n])
      && forall i :: 0 <= i < |hs| ==> r[Key(hs[i])] == hs[i].value
  {
    KeysOf(hs);
  }

  lemma {:induction false} SetAllKeys(m: HeaderMap, hs: seq<Header>)
    ensures SetAll(m, hs).Keys == m.Keys + Keys(hs)
  {
    if hs != [] {
      SetAllKeys(m, hs[..|hs| - 1]);
      KeysOf(hs);
    }
  }

  lemma Overwritten(m: HeaderMap, s: Signed)
    requires m.Keys <= SIGNING
    ensures m[AUTHORIZATION := s.authorization][AMZ_DATE := s.amzDate][CONTENT_SHA256 := s.contentSha256]
              [SECURITY_TOKEN := s.token] == SigningHeaders(s)
  {
  }

  lemma LowerNames()
    ensures Lower(Ascii("Authorization")) == AUTHORIZATION
    ensures Lower(AMZ_DATE) == AMZ_DATE && Lower(CONTENT_SHA256) == CONTENT_SHA256 && Lower(SECURITY_TOKEN) == SECURITY_TOKEN
  {
    assert Lower(Ascii("Authorization")) == AUTHORIZATION;
    LowerAmzNames();
  }

  lemma LowerAmzNames()
    ensures Lower(AMZ_DATE) == AMZ_DATE && Lower(CONTENT_SHA256) == CONTENT_SHA256 && Lower(SECURITY_TOKEN) == SECURITY_TOKEN
  {
  }

  /** One set_header() call; done counts those already made. */
  method SetOne(c: Conn, name: bytes, value: bytes, done: nat, limit: nat) returns (ok: bool)
    modifies c`headers
    ensures ok <==> done < limit
    ensures c.headers == if ok then old(c.headers)[Lower(name) := value] else old(c.headers)
  {
    ok := done < limit;
    c.SetHeader(name, Some(value), ok);
  }

  /** The four signing headers. */
  method SetSigning(c: Conn, s: Signed, limit: nat) returns (ok: bool)
    requires c.headers.Keys <= SIGNING
    modifies c`headers
    ensures c.headers.Keys <= SIGNING
    ensures ok ==> c.headers == SigningHeaders(s)
    ensures ok <==> limit >= 4
  {
    LowerNames();
    ghost var m := c.headers;
    ok := SetOne(c, Ascii("Authorization"), s.authorization, 0, limit);
    if ok {
      ok := SetOne(c, AMZ_DATE, s.amzDate, 1, limit);
    }
    if ok {
      ok := SetOne(c, CONTENT_SHA256, s.contentSha256, 2, limit);
    }
    if ok {
      ok := SetOne(c, SECURITY_TOKEN, s.token, 3, limit);
    }
    Overwritten(m, s);
  }

  /** set_request_headers(). */
  method SetRequestHeaders(c: Conn, s: Signed, hs: seq<Header>, limit: nat) returns (ok: bool)
    requires c.headers.Keys <= SIGNING
    modifies c`headers
    ensures c.headers.Keys <= SIGNING + Keys(hs)
    ensures ok ==> c.headers == WireHeaders(s, hs)
    ensures ok <==> limit >= 4 + |hs|
  {
    ok := SetSigning(c, s, limit);
    var i := 0;
    assert hs[..0] == [];
    while ok && i < |hs|
      invariant 0 <= i <= |hs|
      invariant c.headers.Keys <= SIGNING + Keys(hs)
      invariant ok ==> c.headers == WireHeaders(s, hs[..i])
      invariant ok <==> limit >= 4 + i
    {
      assert hs[..i + 1][..i] == hs[..i] && hs[..i + 1][i] == hs[i];
      assert Key(hs[i]) in Keys(hs);
      ok := SetOne(c, hs[i].name, hs[i].value, i + 4, limit);
      i := i + 1;
    }
    assert hs[..|hs|] == hs;
  }

  /** clear_caller_headers(): only the names every request overwrites stay. */
  method ClearCallerHeaders(c: Conn, hs: seq<Header>)
    requires c.headers.Keys <= SIGNING + Keys(hs)
    modifies c`headers
    ensures c.headers.Keys <= SIGNING
  {
    for i := 0 to |hs|
      invariant forall n :: n in c.headers.Keys ==>
        n in SIGNING || exists k {:trigger hs[k]} :: i <= k < |hs| && Key(hs[k]) == n
    {
      c.SetHeader(hs[i].name, None, true);
    }
  }

  // ---------------------------------------------------------------- the handle

  /** A send_request() call once signed. */
  datatype Request = Request(host: bytes, url: bytes, verb: Verb, timeoutMs: int, headers: seq<Header>, payload: bytes,
                             signed: Signed)

  datatype Response = Response(status: int, body: bytes)

  datatype SendError = NotConnected | HeaderFailed | TransferFailed

  const CONN_HOST_LEN: nat := 160

  /** The host as the handle remembers it: snprintf() into a 160-byte buffer. */
  function Remembered(host: bytes): bytes {
    if |host| < CONN_HOST_LEN then host else host[..CONN_HOST_LEN - 1]
  }

  const HTTP_TIMEOUT_MS: int := 15000

  /** A zero timeout selects the configured one. */
  function Timeout(req: Request): int { if req.timeoutMs != 0 then req.timeoutMs else HTTP_TIMEOUT_MS }

  /** A transmission that carries req and nothing of another request. */
  ghost predicate Faithful(t: Sent, req: Request) {
    && t.url == req.url && t.verb == req.verb && t.body == req.payload
    && t.timeoutMs == (if req.timeoutMs != 0 then req.timeoutMs else 15000)
    && t.headers == WireHeaders(req.signed, req.headers)
    && Remembered(t.openHost) == Remembered(req.host)
    && (t.openHost == req.host || |t.openHost| >= CONN_HOST_LEN)
  }

  class Handle {
    const port: Port
    const idleLimit: int          // seconds; 0 or less disables the idle check
    const limit: nat              // largest response body
    var conn: Conn?
    var connHost: bytes
    var connLastUse: int
    var connTimeoutMs: int

    /** Opens minus closes is one exactly when a connection is pooled, and the pooled connection holds
        no header of an earlier caller. */
    ghost predicate Valid()
      reads this, port, conn
    {
      && port.opens == port.closes + (if conn != null then 1 else 0)
      && (conn != null ==>
            && conn.port == port
            && conn.id < port.opens
            && conn.headers.Keys <= SIGNING
            && conn.timeoutMs == connTimeoutMs
            && connHost == Remembered(conn.openHost))
    }

    constructor (port: Port, idleLimit: int, limit: nat)
      requires port.opens == port.closes
      ensures Valid() && conn == null && this.port == port && this.idleLimit == idleLimit && this.limit == limit
    {
      this.port, this.idleLimit, this.limit := port, idleLimit, limit;
      conn, connHost, connLastUse, connTimeoutMs := null, [], 0, 0;
    }

    /** request_conn_close(). */
    method ConnClose()
      requires port.opens == port.closes + (if conn != null then 1 else 0)
      requires conn != null ==> conn.port == port
      modifies this, port
      ensures Valid() && conn == null && port.log == old(port.log) && port.opens == old(port.opens)
    {
      if conn != null {
        conn.Close();
        conn := null;
      }
      connHost, connLastUse, connTimeoutMs := [], 0, 0;
    }

    /** conn_idle_expired(): a clock that stepped back counts as stale. */
    function ConnIdleExpired(now: int): bool
      reads this
    {
      idleLimit > 0 && (now - connLastUse < 0 || now - connLastUse >= idleLimit)
    }

    /** conn_get(): the pooled connection when host and timeout match and it is not idle too long,
        else a new one. */
    method ConnGet(req: Request, s: Script) returns (h: Conn?, reused: bool)
      requires Valid()
      modifies this, port, conn
      ensures Valid() && conn == h && port.log == old(port.log) && port.opens >= old(port.opens)
      ensures h != null ==> h.url == req.url && h.verb == req.verb
      ensures h != null ==> h.timeoutMs == Timeout(req) == if req.timeoutMs != 0 then req.timeoutMs else 15000
      ensures h != null ==> Remembered(h.openHost) == Remembered(req.host)
      ensures h != null ==> (h.openHost == req.host <==> !(reused && |h.openHost| >= CONN_HOST_LEN))
      ensures h == null <==> !reused && !s.openOk
      ensures reused <==>
        && old(conn) != null && old(connHost) == req.host && old(connTimeoutMs) == Timeout(req)
        && (idleLimit <= 0 || 0 <= s.now - old(connLastUse) < idleLimit) && s.setUrlOk && s.setVerbOk
      ensures reused ==> connLastUse == old(connLastUse)
      ensures reused ==> h != null && h == old(conn) && h.sends == old(h.sends) && h.id < old(port.opens)
      ensures h != null && !reused ==> fresh(h) && h.sends == 0 && h.openHost == req.host && h.id >= old(port.opens)
    {
      if conn != null && (connHost != req.host || connTimeoutMs != Timeout(req)) {
        ConnClose();
      }
      if conn != null && ConnIdleExpired(s.now) {
        ConnClose();
      }
      reused := false;
      if conn != null {
        var ok := conn.Retarget(req.url, req.verb, s.setUrlOk, s.setVerbOk);
        if !ok {
          ConnClose();
        } else {
          return conn, true;
        }
      }
      if !s.openOk {
        return null, false;
      }
      conn := new Conn(port, req.host, req.url, req.verb, Timeout(req));
      connHost := Remembered(req.host);
      connTimeoutMs := Timeout(req);
      h := conn;
    }

    /** One turn of the retry loop once the connection is there. */
    method Transfer(h: Conn, req: Request, acc: Accum, s: Script, reused: bool)
      returns (err: Option<SendError>, retry: bool, ghost sent: seq<Sent>)
      requires Valid() && conn == h
      requires acc.Valid() && acc.status == StatusOk && !acc.gotResponse && acc.body == []
      modifies this, port, h, acc, acc.buf
      ensures Valid() && acc.Valid() && (acc.buf == old(acc.buf) || fresh(acc.buf))
      ensures conn == null || conn == h
      ensures port.log == old(port.log) + sent && port.opens == old(port.opens)
      ensures sent == [] || sent == [Sent(h.id, h.openHost, old(h.sends), old(h.url), old(h.verb), h.timeoutMs,
                                          WireHeaders(req.signed, req.headers), req.payload)]
      ensures err.None? ==> sent != [] && conn == h && acc.body == Chunks(s.rx)
      ensures sent != [] <==> s.headersOk >= 4 + |req.headers|
      ensures sent != [] ==> h.sends == old(h.sends) + 1
      ensures sent != [] && s.rx == [] && s.performOk ==> err.None? && connHost == old(connHost) && connTimeoutMs == old(connTimeoutMs)
      ensures retry ==> err.Some? && sent != [] && reused && s.rx == [] && conn == null
      ensures err.None? ==> connLastUse == s.doneAt
      ensures err == Some(HeaderFailed) ==> connLastUse == old(connLastUse)
    {
      sent, retry := [], false;
      var ok := SetRequestHeaders(h, req.signed, req.headers, s.headersOk);
      if !ok {
        ClearCallerHeaders(h, req.headers);
        return Some(HeaderFailed), false, [];
      }
      ok := h.Perform(req.payload, acc, s);
      sent := [port.log[|port.log| - 1]];
      if ok && acc.status == StatusOk {
        connLastUse := s.doneAt;
        SetAllKeys(SigningHeaders(req.signed), req.headers);
        ClearCallerHeaders(h, req.headers);
        return None, false, sent;
      }
      ConnClose();
      err := Some(TransferFailed);
      retry := reused && acc.status == StatusOk && !acc.gotResponse;
    }

    /** The retry loop of send_request(). Every transmission is req and only req, on a connection
        opened to its host; there are at most two; the second goes out on a connection opened for it,
        after the first was lost on a reused one before any part of a response; and on success the body
        is what the last attempt delivered, with nothing of the first. */
    method Send(req: Request, first: Script, second: Script)
      returns (r: Result<Response, SendError>, ghost sent: seq<Sent>)
      requires Valid()
      modifies this, port, conn
      ensures Valid()
      ensures port.log == old(port.log) + sent && |sent| <= 2
      ensures forall k :: 0 <= k < |sent| ==> Faithful(sent[k], req)
      ensures |sent| == 2 ==>
        && old(conn) != null && sent[0].conn == old(conn.id) && first.rx == []
        && sent[1].earlierSends == 0 && sent[1].openHost == req.host && sent[1].conn >= old(port.opens)
      ensures r.Ok? ==> |sent| > 0 && conn != null && conn.id == sent[|sent| - 1].conn
      ensures r.Ok? ==>
        var last := if |sent| == 2 then second else first;
        r.value == Response(last.status, Chunks(last.rx)) && connLastUse == last.doneAt
    {
      sent := [];
      var acc := new Accum(limit);
      var attempt := 0;
      while true
        invariant Valid() && acc.Valid() && fresh(acc) && (acc.buf == null || fresh(acc.buf))
        invariant acc.status == StatusOk && !acc.gotResponse && acc.body == []
        invariant 0 <= attempt <= 1 && |sent| == attempt
        invariant attempt == 0 ==> conn == old(conn) && port.log == old(port.log) && port.opens == old(port.opens)
        invariant attempt == 0 && conn != null ==> conn.sends == old(conn.sends) && conn.id == old(conn.id)
        invariant attempt == 1 ==>
          && conn == null && port.log == old(port.log) + sent && port.opens >= old(port.opens)
          && old(conn) != null && sent[0].conn == old(conn.id) && first.rx == [] && Faithful(sent[0], req)
        decreases 1 - attempt
      {
        var s := if attempt == 0 then first else second;
        var h, reused := ConnGet(req, s);
        if h == null {
          return Err(NotConnected), sent;
        }
        ghost var more;
        var err, retry;
        err, retry, more := Transfer(h, req, acc, s, reused);
        sent := sent + more;
        if err.None? {
          r := Ok(Response(s.status, if acc.buf == null then [] else acc.buf[..acc.len]));
          return;
        }
        if attempt == 0 && retry {
          acc.Reset();
          attempt := attempt + 1;
          continue;
        }
        return Err(err.value), sent;
      }
    }
  }

  // ---------------------------------------------------------------- a host name too long to remember

  function Name(n: nat): bytes { seq(n, _ => 97) }

  /** Two requests on one handle: the first to a host of 200 letters, the second to its first 159. The
      second is sent on the pooled connection to the first host. */
  method LongNameReused(signed: Signed) returns (first: Sent, second: Sent)
    ensures first.openHost == Name(200) && second.conn == first.conn && second.earlierSends == 1
    ensures second.openHost == Name(200) != Name(159)
  {
    var port := new Port();
    var handle := new Handle(port, 0, 0);
    var s := Script(0, true, true, true, 4, [], false, true, 0, 200);
    var to := Request(Name(200), [], Get, 0, [], [], signed);
    first := SendOnce(handle, to, s);
    assert Remembered(Name(200)) == Name(159) == Remembered(Name(159));
    second := SendOnce(handle, to.(host := Name(159)), s);
  }

  /** A request that goes through at the first attempt. */
  method SendOnce(handle: Handle, req: Request, s: Script) returns (t: Sent)
    requires handle.Valid() && handle.idleLimit <= 0
    requires s.setUrlOk && s.setVerbOk && s.openOk && s.headersOk >= 4 + |req.headers| && s.rx == [] && s.performOk
    modifies handle, handle.port, handle.conn
    ensures handle.Valid() && handle.conn != null && handle.conn.id == t.conn && handle.conn.openHost == t.openHost
    ensures handle.connTimeoutMs == Timeout(req) && handle.connHost == Remembered(t.openHost)
    ensures handle.conn == old(handle.conn) || fresh(handle.conn)
    ensures handle.conn.sends == t.earlierSends + 1
    ensures if old(handle.conn) != null && old(handle.connHost) == req.host && old(handle.connTimeoutMs) == Timeout(req)
            then t.conn == old(handle.conn.id) && t.openHost == old(handle.conn.openHost) && t.earlierSends == old(handle.conn.sends)
            else t.openHost == req.host && t.earlierSends == 0
  {
    var h, reused := handle.ConnGet(req, s);
    var acc := new Accum(handle.limit);
    ghost var sent;
    var err, retry;
    ghost var before := h.sends;
    err, retry, sent := handle.Transfer(h, req, acc, s, reused);
    t := handle.port.log[|handle.port.log| - 1];
    assert t == sent[0];
  }
}
