/** build_url(): the URL that goes on the wire, built in one allocation. */
module RequestUrl {
  import opened Bytes
  import opened UriEncoding

  /** scheme, host, the path encoded once, and the canonical query if there is one. */
  function UrlText(host: bytes, path: bytes, query: bytes): bytes {
    Ascii("https://") + host + Uri(path, true, false) + (if query == [] then [] else [63] + query)
  }

  /** Whoever reads the URL finds the scheme, the host up to the first slash, the encoded path up to the
      first question mark, which decodes to the path given, and the query after it, if there is one. */
  lemma UrlReadsBack(host: bytes, path: bytes, query: bytes)
    requires SLASH !in host && path != [] && path[0] == SLASH && 63 !in query
    ensures var url := UrlText(host, path, query);
      && |url| >= 8 && url[..8] == Ascii("https://")
      && var rest := url[8..]; var tail := rest[SegLen(rest)..];
         && rest[..SegLen(rest)] == host
         && Split(63, tail) == [Uri(path, true, false)] + (if query == [] then [] else [query])
         && Decode(Split(63, tail)[0]) == Some(path)
  {
    var uri := Uri(path, true, false);
    var tail := uri + (if query == [] then [] else [63] + query);
    EncodeOne(SLASH, true);
    EncodeAppend([SLASH], path[1..], true);
    assert [SLASH] + path[1..] == path;
    EncodeAlphabet(path, true);
    DecodeEncode(path, true);
    assert tail[0] == SLASH;
    SegLenOf(host, tail);
    assert UrlText(host, path, query) == Ascii("https://") + (host + tail);
    SplitPrefix(63, uri, query);
    SplitPrefix(63, query, []);
    assert query == [] ==> uri + [] == uri;
    assert query != [] ==> uri + ([63] + query) == uri + [63] + query;
  }

  /** snprintf("%s") into dst at base: text and NUL; the caller has sized the room. */
  method CopyText(dst: array<byte>, base: nat, text: bytes)
    requires base + |text| < dst.Length
    modifies dst
    ensures dst[base..base + |text|] == text && dst[base + |text|] == 0
    ensures dst[..base] == old(dst[..base])
  {
    forall k | 0 <= k < |text| {
      dst[base + k] := text[k];
    }
    dst[base + |text|] := 0;
  }

  lemma Glue(a: array<byte>, x: bytes, y: bytes, i: nat, j: nat)
    requires i <= j <= a.Length && a[..i] == x && a[i..j] == y
    ensures a[..j] == x + y
  {
    assert a[..j] == a[..i] + a[i..j];
  }

  /** build_url(). The sizes computed up front are exact: the URL and its NUL fill the allocation. */
  method BuildUrl(host: bytes, path: bytes, query: bytes) returns (url: array<byte>)
    ensures fresh(url) && url.Length == |UrlText(host, path, query)| + 1
    ensures url[..url.Length - 1] == UrlText(host, path, query) && url[url.Length - 1] == 0
  {
    var prefix := Ascii("https://") + host;
    var pathLen := UriEncodeInto(null, 0, 0, path, true, false);
    var len := |prefix| + pathLen + (if query != [] then 1 + |query| else 0) + 1;
    url := new byte[len];
    WriteFront(url, prefix, path);
    if query != [] {
      CopyText(url, |prefix| + pathLen, [63] + query);
      Glue(url, prefix + Uri(path, true, false), [63] + query, |prefix| + pathLen, len - 1);
    } else {
      assert prefix + Uri(path, true, false) + [] == prefix + Uri(path, true, false);
    }
  }

  method WriteFront(url: array<byte>, prefix: bytes, path: bytes)
    requires |prefix| + |Uri(path, true, false)| < url.Length
    modifies url
    ensures url[..|prefix| + |Uri(path, true, false)|] == prefix + Uri(path, true, false)
    ensures url[|prefix| + |Uri(path, true, false)|] == 0
  {
    CopyText(url, 0, prefix);
    assert url[..|prefix|] == prefix;
    var n := EncodePathAt(url, |prefix|, path);
    Glue(url, prefix, Uri(path, true, false), |prefix|, |prefix| + n);
  }

  method EncodePathAt(url: array<byte>, base: nat, path: bytes) returns (n: nat)
    requires base + |Uri(path, true, false)| < url.Length
    modifies url
    ensures n == |Uri(path, true, false)|
    ensures url[..base] == old(url[..base])
    ensures url[base..base + n] == Uri(path, true, false) && url[base + n] == 0
  {
    n := UriEncodeInto(url, base, url.Length - base, path, true, false);
  }
}
