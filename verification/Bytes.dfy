/** Byte strings and the few character classes the C sources use ("C" locale). */
module Bytes {

  type byte = n: int | 0 <= n < 256
  type bytes = seq<byte>

  datatype Option<+T> = None | Some(value: T)
  datatype Result<+T, +E> = Ok(value: T) | Err(error: E)

  const SPACE: byte := 32
  const PERCENT: byte := 37
  const AMPERSAND: byte := 38
  const COMMA: byte := 44
  const DOT: byte := 46
  const SLASH: byte := 47
  const COLON: byte := 58
  const SEMICOLON: byte := 59
  const EQUALS: byte := 61
  const NEWLINE: byte := 10

  lemma Regroup<T>(a: seq<T>, b: seq<T>, c: seq<T>)
    ensures a + b + c == a + (b + c)
  {
  }

  lemma SliceOfSlice<T>(s: seq<T>, k: nat, i: nat)
    requires k <= i <= |s|
    ensures s[..i][k..] == s[k..][..i - k]
  {
  }

  /** A string constant of the C source as bytes. */
  function Ascii(s: string): bytes {
    seq(|s|, i requires 0 <= i < |s| => s[i] as int % 256)
  }

  predicate IsDigit(c: byte) { 48 <= c <= 57 }
  predicate IsUpper(c: byte) { 65 <= c <= 90 }
  predicate IsLower(c: byte) { 97 <= c <= 122 }
  predicate IsAlnum(c: byte) { IsDigit(c) || IsUpper(c) || IsLower(c) }

  /** isspace(): space, \t, \n, \v, \f and \r. */
  predicate IsSpace(c: byte) { c == SPACE || 9 <= c <= 13 }

  /** tolower() on one byte. */
  function ToLower(c: byte): (r: byte)
    ensures if IsUpper(c) then IsLower(r) && r - 97 == c - 65 else r == c
  {
    if IsUpper(c) then c + 32 else c
  }

  function Lower(s: bytes): bytes {
    seq(|s|, i requires 0 <= i < |s| => ToLower(s[i]))
  }

  /** strcmp(a, b) <= 0: unsigned lexicographic order, a proper prefix first. */
  predicate LexLe(a: bytes, b: bytes) {
    if a == [] then true
    else if b == [] then false
    else if a[0] != b[0] then a[0] < b[0]
    else LexLe(a[1..], b[1..])
  }

  /** a is a proper prefix of b, or holds the smaller byte where the two first differ. */
  predicate Before(a: bytes, b: bytes) {
    a < b || exists k :: 0 <= k < |a| && k < |b| && a[..k] == b[..k] && a[k] < b[k]
  }

  /** The order is decided by the first difference. */
  lemma {:induction false} LexLeIs(a: bytes, b: bytes)
    ensures LexLe(a, b) <==> a == b || Before(a, b)
  {
    if a != [] && b != [] && a[0] == b[0] {
      LexLeIs(a[1..], b[1..]);
      assert a == [a[0]] + a[1..] && b == [b[0]] + b[1..];
      if k :| 0 <= k < |a| && k < |b| && a[..k] == b[..k] && a[k] < b[k] {
        assert k > 0 && a[1..][..k - 1] == a[..k][1..] && b[1..][..k - 1] == b[..k][1..];
        assert a[1..][k - 1] < b[1..][k - 1];
      }
      if k :| 0 <= k < |a| - 1 && k < |b| - 1 && a[1..][..k] == b[1..][..k] && a[1..][k] < b[1..][k] {
        assert a[..k + 1] == [a[0]] + a[1..][..k] && b[..k + 1] == [b[0]] + b[1..][..k];
        assert a[k + 1] < b[k + 1];
      }
    }
  }

  lemma LexTotal(a: bytes, b: bytes)
    ensures LexLe(a, b) || LexLe(b, a)
  {
  }

  lemma LexAntisymmetric(a: bytes, b: bytes)
    requires LexLe(a, b) && LexLe(b, a)
    ensures a == b
  {
    if a == [] || b == [] {
    } else {
      LexAntisymmetric(a[1..], b[1..]);
      assert a == [a[0]] + a[1..] && b == [b[0]] + b[1..];
    }
  }

  lemma LexTransitive(a: bytes, b: bytes, c: bytes)
    requires LexLe(a, b) && LexLe(b, c)
    ensures LexLe(a, c)
  {
    if a == [] {
    } else if a[0] == b[0] == c[0] {
      LexTransitive(a[1..], b[1..], c[1..]);
    }
  }

  /** All items one after the other. */
  function Concat(parts: seq<bytes>): bytes {
    if parts == [] then [] else parts[0] + Concat(parts[1..])
  }

  lemma ConcatAppend(a: seq<bytes>, b: seq<bytes>)
    ensures Concat(a + b) == Concat(a) + Concat(b)
  {
    if a == [] {
      assert a + b == b;
    } else {
      assert (a + b)[1..] == a[1..] + b;
      ConcatAppend(a[1..], b);
    }
  }

  /** The items with a separator byte between neighbours: Python's sep.join(parts). */
  function Join(sep: byte, parts: seq<bytes>): bytes {
    if parts == [] then []
    else if |parts| == 1 then parts[0]
    else parts[0] + [sep] + Join(sep, parts[1..])
  }

  lemma JoinSnoc(sep: byte, parts: seq<bytes>, last: bytes)
    requires parts != []
    ensures Join(sep, parts + [last]) == Join(sep, parts) + [sep] + last
  {
    if |parts| == 1 {
      assert (parts + [last])[1..] == [last];
    } else {
      assert (parts + [last])[1..] == parts[1..] + [last];
      JoinSnoc(sep, parts[1..], last);
    }
  }

  /** Python's p.split(sep): the items between separators, empty ones included. */
  function Split(sep: byte, p: bytes): (r: seq<bytes>)
    ensures r != []
  {
    if p == [] then [[]]
    else if p[0] == sep then [[]] + Split(sep, p[1..])
    else
      var t := Split(sep, p[1..]);
      [[p[0]] + t[0]] + t[1..]
  }

  lemma {:induction false} SplitPrefix(sep: byte, first: bytes, rest: bytes)
    requires sep !in first
    ensures Split(sep, first) == [first]
    ensures Split(sep, first + [sep] + rest) == [first] + Split(sep, rest)
  {
    if first == [] {
      assert first + [sep] + rest == [sep] + rest;
      assert ([sep] + rest)[1..] == rest;
    } else {
      SplitPrefix(sep, first[1..], rest);
      assert (first + [sep] + rest)[1..] == first[1..] + [sep] + rest;
      assert first == [first[0]] + first[1..];
    }
  }

  /** Splitting undoes joining. */
  lemma {:induction false} SplitJoin(sep: byte, parts: seq<bytes>)
    requires parts != [] && forall p :: p in parts ==> sep !in p
    ensures Split(sep, Join(sep, parts)) == parts
  {
    assert parts[0] in parts && parts == [parts[0]] + parts[1..];
    if |parts| == 1 {
      SplitPrefix(sep, parts[0], []);
    } else {
      SplitPrefix(sep, parts[0], Join(sep, parts[1..]));
      SplitJoin(sep, parts[1..]);
    }
  }

  // ---------------------------------------------------------------- '/'-separated segments

  /** Bytes of the segment that starts at p[0]. */
  function SegLen(p: bytes): (n: nat)
    ensures n <= |p|
  {
    if p == [] || p[0] == SLASH then 0 else 1 + SegLen(p[1..])
  }

  /** Python's split is the first segment followed by the split after its slash. */
  lemma {:induction false} SplitFirst(p: bytes)
    ensures Split(SLASH, p)[0] == p[..SegLen(p)]
    ensures Split(SLASH, p)[1..] == if SegLen(p) == |p| then [] else Split(SLASH, p[SegLen(p) + 1..])
  {
    if p != [] && p[0] != SLASH {
      SplitFirst(p[1..]);
      assert p[..SegLen(p)] == [p[0]] + p[1..][..SegLen(p[1..])];
      if SegLen(p) < |p| {
        assert p[SegLen(p) + 1..] == p[1..][SegLen(p[1..]) + 1..];
      }
    }
  }

  lemma SegLenStops(p: bytes)
    ensures SegLen(p) < |p| ==> p[SegLen(p)] == SLASH
    ensures forall k :: 0 <= k < SegLen(p) ==> p[k] != SLASH
  {
  }

  lemma {:induction false} SegLenOf(name: bytes, rest: bytes)
    requires SLASH !in name && (rest == [] || rest[0] == SLASH)
    ensures SegLen(name + rest) == |name|
  {
    if name == [] {
      assert name + rest == rest;
    } else {
      assert (name + rest)[1..] == name[1..] + rest;
      SegLenOf(name[1..], rest);
    }
  }

  lemma {:induction false} SegLenAt(p: bytes, n: nat)
    requires n <= |p| && (n < |p| ==> p[n] == SLASH)
    requires forall k :: 0 <= k < n ==> p[k] != SLASH
    ensures SegLen(p) == n
  {
    if n > 0 {
      SegLenAt(p[1..], n - 1);
    }
  }
}
