/** What a reader finds in the texts the signer builds: each of their parts, in place and unchanged. */
module SigV4Format {
  import opened Bytes
  import opened CanonicalHeaders
  import opened HeaderTrimming
  import opened SigV4Signer
  import opened UriEncoding
  import PathNormalizer

  // ---------------------------------------------------------------- the canonical request

  /** Items each followed by a newline. */
  function Terminated(items: seq<bytes>): bytes {
    if items == [] then [] else items[0] + [NEWLINE] + Terminated(items[1..])
  }

  /** A header line without its newline: the name, a colon, and the values with commas between. */
  function HeaderItem(name: bytes, values: seq<bytes>): bytes { name + [58] + Join(44, values) }

  function HeaderItems(names: seq<bytes>, m: map<bytes, seq<bytes>>): seq<bytes>
    requires forall n :: n in names ==> n in m
  {
    seq(|names|, i requires 0 <= i < |names| => HeaderItem(names[i], m[names[i]]))
  }

  lemma {:induction false} LinesTerminated(names: seq<bytes>, m: map<bytes, seq<bytes>>)
    requires forall n :: n in names ==> n in m
    ensures Lines(names, m) == Terminated(HeaderItems(names, m))
  {
    if names != [] {
      LinesTerminated(names[1..], m);
      assert HeaderItems(names, m)[1..] == HeaderItems(names[1..], m);
      assert names[0] in m;
    }
  }

  lemma {:induction false} JoinTerminated(items: seq<bytes>, rest: seq<bytes>)
    requires rest != []
    ensures Join(10, items + rest) == Terminated(items) + Join(10, rest)
  {
    if items == [] {
      assert items + rest == rest;
    } else {
      assert (items + rest)[1..] == items[1..] + rest;
      JoinTerminated(items[1..], rest);
      assert items[0] + [10] + (Terminated(items[1..]) + Join(10, rest)) == items[0] + [10] + Terminated(items[1..]) + Join(10, rest);
    }
  }

  lemma RequestLines(verb: bytes, uri: bytes, query: bytes, items: seq<bytes>, signed: bytes, hash: bytes)
    ensures RequestText(verb, uri, query, Terminated(items), signed, hash)
         == Join(10, [verb, uri, query] + items + [[], signed, hash])
  {
    var rest := [[], signed, hash];
    JoinTerminated([verb, uri, query], items + rest);
    JoinTerminated(items, rest);
    assert [verb, uri, query] + items + rest == [verb, uri, query] + (items + rest);
    ThreeTerminated(verb, uri, query);
    ThreeJoined(signed, hash);
    var top, bottom := verb + [10] + uri + [10] + query + [10], [10] + signed + [10] + hash;
    assert RequestText(verb, uri, query, Terminated(items), signed, hash) == top + (Terminated(items) + bottom);
  }

  lemma ThreeTerminated(a: bytes, b: bytes, c: bytes)
    ensures Terminated([a, b, c]) == a + [10] + b + [10] + c + [10]
  {
    assert [a, b, c][1..] == [b, c] && [b, c][1..] == [c] && [c][1..] == [];
    assert Terminated([c]) == c + [10] + [] == c + [10];
    assert Terminated([b, c]) == b + [10] + (c + [10]);
  }

  lemma ThreeJoined(a: bytes, b: bytes)
    ensures Join(10, [[], a, b]) == [10] + a + [10] + b
  {
    assert [[], a, b][1..] == [a, b] && [a, b][1..] == [b];
    assert Join(10, [a, b]) == a + [10] + b;
    assert [] + [10] + (a + [10] + b) == [10] + a + [10] + b;
  }

  // ---------------------------------------------------------------- no newline gets in

  lemma {:induction false} WordsClean(v: bytes, word: bytes, space: byte -> bool, c: byte)
    requires space(c) && c !in word
    ensures forall w :: w in Words(v, word, space) ==> c !in w
  {
    if v == [] {
    } else if space(v[0]) {
      WordsClean(v[1..], [], space, c);
    } else {
      WordsClean(v[1..], word + [v[0]], space, c);
    }
  }

  lemma {:induction false} JoinClean(sep: byte, parts: seq<bytes>, c: byte)
    requires c != sep && forall p :: p in parts ==> c !in p
    ensures c !in Join(sep, parts)
  {
    if parts != [] {
      assert parts[0] in parts;
      JoinClean(sep, parts[1..], c);
    }
  }

  lemma TrimClean(v: bytes)
    ensures 10 !in Trim(v)
  {
    WordsClean(v, [], IsSpace, 10);
    JoinClean(SPACE, Words(v, [], IsSpace), 10);
  }

  lemma UriClean(path: bytes, service: bytes)
    ensures 10 !in CanonUri(path, service)
  {
    if path != [] && service == S3 {
      EncodeAlphabet(path, true);
    } else if path != [] {
      EncodeAlphabet(Encode(PathNormalizer.Normalize(path), true), true);
    }
  }

  lemma NamesClean(hs: seq<Header>)
    requires forall h :: h in hs ==> 10 !in h.name
    ensures forall n :: n in SortedNames(hs) ==> 10 !in n
  {
    SortedNamesSorted(hs);
    forall n | n in SortedNames(hs)
      ensures 10 !in n
    {
      var i :| 0 <= i < |hs| && Key(hs[i]) == n;
      assert hs[i] in hs;
      forall k | 0 <= k < |n|
        ensures n[k] != 10
      {
        assert n[k] == ToLower(hs[i].name[k]) && hs[i].name[k] in hs[i].name;
      }
    }
  }

  lemma {:induction false} TrimsClean(hs: seq<Header>)
    ensures forall v :: v in Trims(hs) ==> 10 !in v
  {
    if hs != [] {
      TrimsClean(hs[..|hs| - 1]);
      TrimClean(hs[|hs| - 1].value);
    }
  }

  lemma ValuesClean(hs: seq<Header>, n: bytes)
    requires n in Merged(hs)
    ensures 10 !in Join(44, Merged(hs)[n])
  {
    MergedAt(hs, n);
    var group := WithName(hs, n);
    TrimsClean(group);
    JoinClean(44, Merged(hs)[n], 10);
  }

  lemma ItemsClean(hs: seq<Header>)
    requires forall h :: h in hs ==> 10 !in h.name
    requires forall n :: n in SortedNames(hs) ==> n in Merged(hs)
    ensures forall item :: item in HeaderItems(SortedNames(hs), Merged(hs)) ==> 10 !in item
  {
    NamesClean(hs);
    var names := SortedNames(hs);
    forall i | 0 <= i < |names|
      ensures 10 !in HeaderItems(names, Merged(hs))[i]
    {
      assert names[i] in names;
      ValuesClean(hs, names[i]);
    }
  }

  /** Split at its newlines a canonical request gives the method, the URI, the query, one line for each header
      name in ascending order with its trimmed values, an empty line, the signed names and the payload hash. */
  lemma RequestReadsBack(verb: bytes, path: bytes, service: bytes, query: bytes, hs: seq<Header>, hash: bytes)
    requires 10 !in verb && 10 !in query && 10 !in hash && forall h :: h in hs ==> 10 !in h.name
    ensures forall n :: n in SortedNames(hs) ==> n in Merged(hs)
    ensures Split(10, CanonicalRequest(verb, path, service, query, hs, hash))
         == [verb, CanonUri(path, service), query] + HeaderItems(SortedNames(hs), Merged(hs))
            + [[], Join(59, SortedNames(hs)), hash]
  {
    NamesAreKeys(hs);
    var items := HeaderItems(SortedNames(hs), Merged(hs));
    LinesTerminated(SortedNames(hs), Merged(hs));
    RequestLines(verb, CanonUri(path, service), query, items, Join(59, SortedNames(hs)), hash);
    UriClean(path, service);
    ItemsClean(hs);
    NamesClean(hs);
    JoinClean(59, SortedNames(hs), 10);
    SplitJoin(10, [verb, CanonUri(path, service), query] + items + [[], Join(59, SortedNames(hs)), hash]);
  }

  // ---------------------------------------------------------------- what is signed of the built-in headers

  predicate CallerNames(i: Input, n: bytes) {
    exists k :: 0 <= k < |i.headers| && i.headers[k].name.Some? && Lower(i.headers[k].name.value) == n
  }

  lemma LowerBuiltin()
    ensures forall n :: n in {Ascii("host"), Ascii("x-amz-date"), Ascii("x-amz-security-token"), Ascii("x-amz-content-sha256")} ==>
      Lower(n) == n
  {
    assert Lower(Ascii("host")) == Ascii("host");
    assert Lower(Ascii("x-amz-date")) == Ascii("x-amz-date");
    assert Lower(Ascii("x-amz-security-token")) == Ascii("x-amz-security-token");
    assert Lower(Ascii("x-amz-content-sha256")) == Ascii("x-amz-content-sha256");
  }

  /** What the signer adds on its own. */
  predicate Adds(i: Input, n: bytes) {
    || n == Ascii("host") || n == Ascii("x-amz-date")
    || (i.token.Some? && n == Ascii("x-amz-security-token"))
    || (i.signPayloadHash && n == Ascii("x-amz-content-sha256"))
  }

  /** The signed names are those the signer adds and those the caller gave. */
  lemma SignsAll(c: Crypto, i: Input, amzDate: bytes, n: bytes)
    requires Presentable(c, i, amzDate)
    ensures n in SortedNames(AllHeaders(c, i, amzDate)) <==> Adds(i, n) || CallerNames(i, n)
  {
    var b, p := Builtin(c, i, amzDate), Plain(i.headers);
    SortedNamesSorted(b + p);
    AddedNames(c, i, amzDate, n);
    if n in Keys(p) {
      var k :| 0 <= k < |p| && Key(p[k]) == n;
      assert (b + p)[|b| + k] == p[k] && i.headers[k].name.Some?;
    }
    if CallerNames(i, n) {
      var k :| 0 <= k < |i.headers| && i.headers[k].name.Some? && Lower(i.headers[k].name.value) == n;
      assert Key(p[k]) == n && (b + p)[|b| + k] == p[k];
    }
    KeysOfBoth(b, p, n);
  }

  lemma KeysOfBoth(a: seq<Header>, b: seq<Header>, n: bytes)
    ensures n in Keys(a + b) <==> n in Keys(a) || n in Keys(b)
  {
    if n in Keys(a) {
      var k :| 0 <= k < |a| && Key(a[k]) == n;
      assert (a + b)[k] == a[k];
    }
    if n in Keys(b) {
      var k :| 0 <= k < |b| && Key(b[k]) == n;
      assert (a + b)[|a| + k] == b[k];
    }
  }

  lemma AddedNames(c: Crypto, i: Input, amzDate: bytes, n: bytes)
    ensures n in Keys(Builtin(c, i, amzDate)) <==> Adds(i, n)
  {
    LowerBuiltin();
    var b := Builtin(c, i, amzDate);
    assert Key(b[0]) == Ascii("host") && Key(b[1]) == Ascii("x-amz-date");
    var t := if i.token.Some? then 1 else 0;
    assert i.token.Some? ==> Key(b[2]) == Ascii("x-amz-security-token");
    assert i.signPayloadHash ==> Key(b[2 + t]) == Ascii("x-amz-content-sha256");
    assert forall k :: 0 <= k < |b| ==> Adds(i, Key(b[k]));
  }

  /** Host, date, token and payload hash are signed with the one value each that was given. */
  lemma SignsValues(c: Crypto, i: Input, amzDate: bytes)
    requires Presentable(c, i, amzDate)
    ensures var m := Merged(AllHeaders(c, i, amzDate));
      && Ascii("host") in m && m[Ascii("host")] == [Trim(i.host)]
      && Ascii("x-amz-date") in m && m[Ascii("x-amz-date")] == [Trim(amzDate)]
      && (i.token.Some? ==>
            Ascii("x-amz-security-token") in m && m[Ascii("x-amz-security-token")] == [Trim(i.token.value)])
      && (i.signPayloadHash ==>
            && Ascii("x-amz-content-sha256") in m
            && m[Ascii("x-amz-content-sha256")] == [Trim(PayloadHex(c, i.payload, i.payloadHash))])
  {
    var b := Builtin(c, i, amzDate);
    var t := if i.token.Some? then 1 else 0;
    LowerBuiltin();
    BuiltinAlone(c, i, amzDate, 0);
    BuiltinAlone(c, i, amzDate, 1);
    if i.token.Some? {
      BuiltinAlone(c, i, amzDate, 2);
    }
    if i.signPayloadHash {
      BuiltinAlone(c, i, amzDate, 2 + t);
    }
  }

  lemma BuiltinAlone(c: Crypto, i: Input, amzDate: bytes, k: nat)
    requires Presentable(c, i, amzDate) && k < |Builtin(c, i, amzDate)|
    ensures var h := Builtin(c, i, amzDate)[k]; var m := Merged(AllHeaders(c, i, amzDate));
      Key(h) in m && m[Key(h)] == [Trim(h.value)]
  {
    var b, p := Builtin(c, i, amzDate), Plain(i.headers);
    var n := Key(b[k]);
    NamesDiffer(c, i, amzDate);
    forall j | 0 <= j < |p|
      ensures Key(p[j]) != n
    {
      assert !Refused(b, i.headers[j]);
    }
    OnlyOne(b, p, k);
  }

  lemma OnlyOne(b: seq<Header>, p: seq<Header>, k: nat)
    requires k < |b| && forall j :: 0 <= j < |p| ==> Key(p[j]) != Key(b[k])
    requires forall j :: 0 <= j < |b| && j != k ==> Key(b[j]) != Key(b[k])
    ensures Key(b[k]) in Merged(b + p) && Merged(b + p)[Key(b[k])] == [Trim(b[k].value)]
  {
    var n := Key(b[k]);
    OneNamed(b, k);
    WithNameNone(p, n);
    WithNameSplit(b, p, n);
    MergedAt(b + p, n);
    assert WithName(b + p, n) == [b[k]];
    OneTrimmed(b[k]);
  }

  lemma {:induction false} OneNamed(b: seq<Header>, k: nat)
    requires k < |b| && forall j :: 0 <= j < |b| && j != k ==> Key(b[j]) != Key(b[k])
    ensures WithName(b, Key(b[k])) == [b[k]]
  {
    if k == |b| - 1 {
      WithNameNone(b[..k], Key(b[k]));
    } else {
      OneNamed(b[..|b| - 1], k);
    }
  }

  lemma OneTrimmed(h: Header)
    ensures Trims([h]) == [Trim(h.value)]
  {
  }

  lemma NamesDiffer(c: Crypto, i: Input, amzDate: bytes)
    ensures var b := Builtin(c, i, amzDate); forall j, k :: 0 <= j < k < |b| ==> Key(b[j]) != Key(b[k])
  {
    LowerBuiltin();
    assert |Ascii("host")| == 4 && |Ascii("x-amz-date")| == 10;
    assert |Ascii("x-amz-security-token")| == 20 == |Ascii("x-amz-content-sha256")|;
    assert Ascii("x-amz-security-token")[6] != Ascii("x-amz-content-sha256")[6];
  }

  // ---------------------------------------------------------------- the texts around it

  lemma {:induction false} HexClean(s: bytes)
    ensures forall x :: x in Hex(s) ==> 48 <= x <= 57 || 97 <= x <= 102
  {
    if s != [] {
      HexClean(s[1..]);
    }
  }

  /** Split at its newlines the string to sign gives the algorithm, the date, the scope and the hash. */
  lemma StringToSignReadsBack(c: Crypto, amzDate: bytes, scope: bytes, creq: bytes)
    requires 10 !in amzDate && 10 !in scope
    ensures Split(10, StringToSign(c, amzDate, scope, creq)) == [Ascii("AWS4-HMAC-SHA256"), amzDate, scope, Hex(c.sha256(creq))]
  {
    HexClean(c.sha256(creq));
    var parts := [Ascii("AWS4-HMAC-SHA256"), amzDate, scope, Hex(c.sha256(creq))];
    FourJoined(10, parts[0], parts[1], parts[2], parts[3]);
    AlgorithmClean();
    SplitJoin(10, parts);
  }

  lemma AlgorithmClean()
    ensures 10 !in Ascii("AWS4-HMAC-SHA256") && 47 !in Ascii("aws4_request")
  {
  }

  lemma TextsClean()
    ensures 44 !in Ascii("AWS4-HMAC-SHA256 Credential=") && 44 !in Ascii(" SignedHeaders=") && 44 !in Ascii(" Signature=")
  {
  }

  lemma FourJoined(sep: byte, a: bytes, b: bytes, c: bytes, d: bytes)
    ensures Join(sep, [a, b, c, d]) == a + [sep] + b + [sep] + c + [sep] + d
  {
    assert [a, b, c, d][1..] == [b, c, d] && [b, c, d][1..] == [c, d] && [c, d][1..] == [d];
    assert Join(sep, [c, d]) == c + [sep] + d;
    assert Join(sep, [b, c, d]) == b + [sep] + (c + [sep] + d);
  }

  /** Split at its slashes the scope gives the day, the region, the service and the terminator. */
  lemma ScopeReadsBack(amzDate: bytes, region: bytes, service: bytes)
    requires |amzDate| >= 8 && 47 !in amzDate && 47 !in region && 47 !in service
    ensures Split(47, ScopeOf(amzDate, region, service)) == [amzDate[..8], region, service, Ascii("aws4_request")]
  {
    var parts := [amzDate[..8], region, service, Ascii("aws4_request")];
    assert |amzDate| == 8 ==> amzDate[..8] == amzDate;
    FourJoined(47, parts[0], parts[1], parts[2], parts[3]);
    AlgorithmClean();
    SplitJoin(47, parts);
  }

  /** The Authorization value: the credential, the signed names and the signature, in this order. */
  lemma AuthorizationReadsBack(accessKey: bytes, scope: bytes, signed: bytes, sig: bytes)
    requires 44 !in accessKey && 44 !in scope && 44 !in signed && 44 !in sig
    ensures Split(44, Authorization(accessKey, scope, signed, sig))
         == [Ascii("AWS4-HMAC-SHA256 Credential=") + accessKey + [47] + scope, Ascii(" SignedHeaders=") + signed,
             Ascii(" Signature=") + sig]
  {
    var a := Ascii("AWS4-HMAC-SHA256 Credential=") + accessKey + [47] + scope;
    var b, d := Ascii(" SignedHeaders=") + signed, Ascii(" Signature=") + sig;
    TextsClean();
    CommaTexts();
    assert Authorization(accessKey, scope, signed, sig) == a + [44] + (b + [44] + d);
    SplitThree(a, b, d);
  }

  lemma SplitThree(a: bytes, b: bytes, d: bytes)
    requires 44 !in a && 44 !in b && 44 !in d
    ensures Split(44, a + [44] + (b + [44] + d)) == [a, b, d]
  {
    SplitPrefix(44, a, b + [44] + d);
    SplitPrefix(44, b, d);
    SplitPrefix(44, d, []);
  }

  lemma CommaTexts()
    ensures Ascii(", SignedHeaders=") == [44] + Ascii(" SignedHeaders=") && Ascii(", Signature=") == [44] + Ascii(" Signature=")
  {
  }

  // ---------------------------------------------------------------- the key chain

  /** An HMAC that only records its key and message. */
  const TRACE: Crypto := Crypto(x => x, (k: bytes, m: bytes) => k + [0] + m)

  /** The signing key is derived from the secret through day, region, service and terminator, in this order,
      and then applied to the string to sign: an HMAC that records what it was given shows exactly this. */
  lemma KeyChain(secret: bytes, day: bytes, region: bytes, service: bytes, sts: bytes)
    ensures Signature(TRACE, secret, day, region, service, sts)
         == Hex(Join(0, [Ascii("AWS4") + secret, day, region, service, Ascii("aws4_request"), sts]))
  {
    var k, e := Ascii("AWS4") + secret, Ascii("aws4_request");
    var parts := [k, day, region, service];
    FourJoined(0, k, day, region, service);
    JoinSnoc(0, parts, e);
    JoinSnoc(0, parts + [e], sts);
    assert parts + [e] + [sts] == [k, day, region, service, e, sts];
  }
}
