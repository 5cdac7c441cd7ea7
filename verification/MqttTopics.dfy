/** mqtt_topic_matches(): a two-cursor scan that must be the level-by-level rule of section 4.7.1.3 of
    MQTT 3.1.1 for the single-level wildcard. */
module MqttTopics {
  import opened Bytes

  const PLUS: byte := 43
  const ANY_LEVEL: bytes := [PLUS]

  /** What the scan decides from two positions on. */
  predicate Scan(f: bytes, t: bytes)
    decreases |f|
  {
    if f == [] || t == [] then f == [] && t == []
    else if f[0] == PLUS then Scan(f[1..], t[SegLen(t)..])
    else f[0] == t[0] && Scan(f[1..], t[1..])
  }

  /** mqtt_topic_matches(). */
  method TopicMatches(filter: bytes, topic: bytes) returns (r: bool)
    ensures r == Scan(filter, topic)
  {
    var i, j := 0, 0;
    assert filter[0..] == filter && topic[0..] == topic;
    while i < |filter| && j < |topic|
      invariant 0 <= i <= |filter| && 0 <= j <= |topic|
      invariant Scan(filter[i..], topic[j..]) == Scan(filter, topic)
      decreases |filter| - i
    {
      assert filter[i..][1..] == filter[i + 1..];
      if filter[i] == PLUS {
        j := SkipLevel(topic, j);
        i := i + 1;
      } else if filter[i] == topic[j] {
        assert topic[j..][1..] == topic[j + 1..];
        i, j := i + 1, j + 1;
      } else {
        return false;
      }
    }
    r := i == |filter| && j == |topic|;
  }

  /** The inner loop: to the next '/' or the end. */
  method SkipLevel(topic: bytes, from: nat) returns (j: nat)
    requires from <= |topic|
    ensures from <= j <= |topic| && topic[j..] == topic[from..][SegLen(topic[from..])..]
  {
    j := from;
    while j < |topic| && topic[j] != SLASH
      invariant from <= j <= |topic|
      invariant forall k :: from <= k < j ==> topic[k] != SLASH
    {
      j := j + 1;
    }
    SegLenAt(topic[from..], j - from);
  }

  // ---------------------------------------------------------------- the rule

  /** A '+' occupies a whole level. */
  predicate WildcardsFillLevels(levels: seq<bytes>) {
    forall k :: 0 <= k < |levels| ==> PLUS in levels[k] ==> levels[k] == ANY_LEVEL
  }

  /** Level by level: equal, or a wildcard. */
  predicate LevelsMatch(fs: seq<bytes>, ts: seq<bytes>) {
    |fs| == |ts| && forall k :: 0 <= k < |fs| ==> fs[k] == ANY_LEVEL || fs[k] == ts[k]
  }

  function Last(s: seq<bytes>): bytes
    requires s != []
  {
    s[|s| - 1]
  }

  /** The one case the scan misses: a trailing '+' against an empty last level. */
  predicate EmptyUnderWildcard(fs: seq<bytes>, ts: seq<bytes>)
    requires fs != [] && ts != []
  {
    Last(fs) == ANY_LEVEL && Last(ts) == []
  }

  /** The rule, split at the first level. */
  lemma LevelsSplit(f0: bytes, fs: seq<bytes>, t0: bytes, ts: seq<bytes>)
    ensures LevelsMatch([f0] + fs, [t0] + ts) <==> (f0 == ANY_LEVEL || f0 == t0) && LevelsMatch(fs, ts)
  {
    var a, b := [f0] + fs, [t0] + ts;
    if LevelsMatch(a, b) {
      forall k | 0 <= k < |fs|
        ensures fs[k] == ANY_LEVEL || fs[k] == ts[k]
      {
        assert a[k + 1] == ANY_LEVEL || a[k + 1] == b[k + 1];
      }
      assert a[0] == ANY_LEVEL || a[0] == b[0];
    }
  }

  /** A literal level is consumed byte by byte. */
  lemma {:induction false} ScanLiteral(lit: bytes, g: bytes, t: bytes)
    requires PLUS !in lit
    ensures Scan(lit + g, t) <==> |t| >= |lit| && t[..|lit|] == lit && Scan(g, t[|lit|..])
  {
    if lit == [] {
      assert lit + g == g && t[0..] == t;
    } else if t != [] {
      assert lit[0] in lit && (lit + g)[1..] == lit[1..] + g;
      ScanLiteral(lit[1..], g, t[1..]);
      assert t == [t[0]] + t[1..] && lit == [lit[0]] + lit[1..];
      if |t| >= |lit| {
        assert t[..|lit|] == [t[0]] + t[1..][..|lit| - 1];
        assert t[|lit|..] == t[1..][|lit| - 1..];
      }
    }
  }

  /** The levels after the first. */
  function LaterLevels(p: bytes): seq<bytes> {
    if SegLen(p) < |p| then Split(SLASH, p[SegLen(p) + 1..]) else []
  }

  lemma FirstLevel(p: bytes)
    ensures Split(SLASH, p) == [p[..SegLen(p)]] + LaterLevels(p)
  {
    SplitFirst(p);
    var s := Split(SLASH, p);
    assert s == [s[0]] + s[1..];
  }

  lemma FirstSlash(p: bytes)
    ensures var n := SegLen(p);
      && p == p[..n] + p[n..] && SLASH !in p[..n]
      && p[n..] == if n < |p| then [SLASH] + p[n + 1..] else []
  {
    SegLenStops(p);
    CutAt(p, SegLen(p));
  }

  lemma CutAt(p: bytes, n: nat)
    requires n <= |p| && (n < |p| ==> p[n] == SLASH) && forall k :: 0 <= k < n ==> p[k] != SLASH
    ensures p == p[..n] + p[n..] && SLASH !in p[..n]
    ensures p[n..] == if n < |p| then [SLASH] + p[n + 1..] else []
  {
  }

  lemma ScanSlash(g: bytes, t: bytes)
    ensures Scan([SLASH] + g, t) <==> t != [] && t[0] == SLASH && Scan(g, t[1..])
  {
    assert ([SLASH] + g)[1..] == g;
  }

  /** Where the level a literal names ends. */
  lemma LiteralLevel(lit: bytes, t: bytes)
    requires SLASH !in lit
    ensures (|t| >= |lit| && t[..|lit|] == lit && (|t| == |lit| || t[|lit|] == SLASH)) <==> t[..SegLen(t)] == lit
    ensures t[..SegLen(t)] == lit ==> SegLen(t) == |lit|
  {
    SegLenStops(t);
    if |t| >= |lit| && t[..|lit|] == lit && (|t| == |lit| || t[|lit|] == SLASH) {
      forall k | 0 <= k < |lit|
        ensures t[k] != SLASH
      {
        assert t[k] == lit[k] && lit[k] in lit;
      }
      SegLenAt(t, |lit|);
    }
  }

  /** One level of the scan: the first levels agree and the scan goes on after both slashes, or both end. */
  lemma ScanLevel(f: bytes, t: bytes)
    requires PLUS in f[..SegLen(f)] ==> f[..SegLen(f)] == ANY_LEVEL
    ensures var n := SegLen(f); var m := SegLen(t);
      Scan(f, t) <==>
        && (f[..n] == t[..m] || (f[..n] == ANY_LEVEL && t != []))
        && (if n == |f| then m == |t| else m < |t| && Scan(f[n + 1..], t[m + 1..]))
  {
    var n, m := SegLen(f), SegLen(t);
    FirstSlash(f);
    FirstSlash(t);
    if f[..n] == ANY_LEVEL {
      WildcardLevel(f, t, n, m);
    } else {
      ScanLiteral(f[..n], f[n..], t);
      LiteralLevel(f[..n], t);
      if n < |f| && n <= |t| {
        ScanSlash(f[n + 1..], t[n..]);
        assert n < |t| ==> t[n..][1..] == t[n + 1..];
      }
    }
  }

  lemma WildcardLevel(f: bytes, t: bytes, n: nat, m: nat)
    requires n <= |f| && f[..n] == ANY_LEVEL && f[n..] == if n < |f| then [SLASH] + f[n + 1..] else []
    requires m == SegLen(t) && t[m..] == if m < |t| then [SLASH] + t[m + 1..] else []
    ensures Scan(f, t) <==> t != [] && (if n == |f| then m == |t| else m < |t| && Scan(f[n + 1..], t[m + 1..]))
  {
    assert n == 1 && f[0] == f[..n][0] && f[1..] == f[n..];
    if n < |f| {
      ScanSlash(f[n + 1..], t[m..]);
      assert m < |t| ==> t[m..][1..] == t[m + 1..];
    }
  }

  lemma RestFills(first: bytes, rest: seq<bytes>)
    requires WildcardsFillLevels([first] + rest)
    ensures WildcardsFillLevels(rest)
  {
    forall k | 0 <= k < |rest|
      ensures PLUS in rest[k] ==> rest[k] == ANY_LEVEL
    {
      assert ([first] + rest)[k + 1] == rest[k];
    }
  }

  /** For every filter whose wildcards fill levels and every topic, the scan is the rule of section
      4.7.1.3, but for a trailing '+' against an empty last level. */
  lemma {:induction false} ScanIsRule(f: bytes, t: bytes)
    requires WildcardsFillLevels(Split(SLASH, f))
    ensures Scan(f, t) <==>
      LevelsMatch(Split(SLASH, f), Split(SLASH, t)) && !EmptyUnderWildcard(Split(SLASH, f), Split(SLASH, t))
    decreases |f|
  {
    var n, m := SegLen(f), SegLen(t);
    FirstLevel(f);
    FirstLevel(t);
    assert Split(SLASH, f)[0] == f[..n];
    ScanLevel(f, t);
    var fs, ts := LaterLevels(f), LaterLevels(t);
    LevelsSplit(f[..n], fs, t[..m], ts);
    if n < |f| && m < |t| {
      RestFills(f[..n], fs);
      ScanIsRule(f[n + 1..], t[m + 1..]);
      assert Last([f[..n]] + fs) == Last(fs) && Last([t[..m]] + ts) == Last(ts);
    }
  }
}
