/** Dot-segment and empty-segment removal (section 5.2.4 of RFC 3986). The signer uses no stack and
    no buffer: it looks ahead to decide whether a later ".." removes a name. This module proves that
    this is the push/pop normaliser, and that it commutes with percent-encoding. */
module PathNormalizer {
  import opened Bytes
  import opened OutputSink
  import opened UriEncoding

  const DOTS: bytes := [DOT]
  const DOT_DOTS: bytes := [DOT, DOT]

  // ---------------------------------------------------------------- the reference (sigv4_ref.py)

  /** The body of normalize()'s loop: push a name, pop on "..", skip "" and ".". */
  function PushOne(seg: bytes, stack: seq<bytes>): seq<bytes> {
    if seg == DOT_DOTS then DropLast(stack, 1)
    else if seg == [] || seg == DOTS then stack
    else stack + [seg]
  }

  function PushPop(segs: seq<bytes>, stack: seq<bytes>): seq<bytes> {
    if segs == [] then stack else PushPop(segs[1..], PushOne(segs[0], stack))
  }

  function DropLast(s: seq<bytes>, n: nat): seq<bytes> {
    if n <= |s| then s[..|s| - n] else []
  }

  predicate EndsWithSlash(p: bytes) { p != [] && p[|p| - 1] == SLASH }

  /** normalize(): the simple specification. */
  function Normalize(path: bytes): bytes {
    var names := PushPop(Split(SLASH, path), []);
    [SLASH] + Join(SLASH, names) + (if names != [] && EndsWithSlash(path) then [SLASH] else [])
  }

  // ---------------------------------------------------------------- what the C code looks at

  /** The non-empty segments, in order. */
  function Segments(p: bytes): seq<bytes>
    decreases |p|
  {
    if p == [] then []
    else if p[0] == SLASH then Segments(p[1..])
    else [p[..SegLen(p)]] + Segments(p[SegLen(p)..])
  }

  predicate IsName(seg: bytes) { seg != DOTS && seg != DOT_DOTS }

  /** removed_later() over the segments still to come, with names of them seen so far unremoved. */
  predicate RemovedLater(segs: seq<bytes>, names: nat) {
    if segs == [] then false
    else if segs[0] == DOT_DOTS then names == 0 || RemovedLater(segs[1..], names - 1)
    else if segs[0] == DOTS then RemovedLater(segs[1..], names)
    else RemovedLater(segs[1..], names + 1)
  }

  /** The names put_normalized() keeps. */
  function Kept(segs: seq<bytes>): seq<bytes> {
    if segs == [] then []
    else if IsName(segs[0]) && !RemovedLater(segs[1..], 0) then [segs[0]] + Kept(segs[1..])
    else Kept(segs[1..])
  }

  /** Every name after a slash. */
  function Slashed(names: seq<bytes>): bytes {
    if names == [] then [] else [SLASH] + names[0] + Slashed(names[1..])
  }

  // ---------------------------------------------------------------- look-ahead == stack

  /** How many names already on the stack the segments pop. */
  function Pops(segs: seq<bytes>): nat {
    if segs == [] then 0
    else if segs[0] == DOT_DOTS then 1 + Pops(segs[1..])
    else if IsName(segs[0]) then var n: nat := Pops(segs[1..]); if n == 0 then 0 else n - 1
    else Pops(segs[1..])
  }

  lemma {:induction false} RemovedLaterIsPops(segs: seq<bytes>, names: nat)
    ensures RemovedLater(segs, names) <==> Pops(segs) > names
  {
    if segs == [] {
    } else if segs[0] == DOT_DOTS {
      if names > 0 {
        RemovedLaterIsPops(segs[1..], names - 1);
      }
    } else if segs[0] == DOTS {
      RemovedLaterIsPops(segs[1..], names);
    } else {
      RemovedLaterIsPops(segs[1..], names + 1);
    }
  }

  /** One segment shifts what the rest pops by one. */
  lemma PopsStep(seg: bytes, rest: seq<bytes>, stack: seq<bytes>)
    requires seg != []
    ensures DropLast(PushOne(seg, stack), Pops(rest)) + Kept(rest) == DropLast(stack, Pops([seg] + rest)) + Kept([seg] + rest)
  {
    RemovedLaterIsPops(rest, 0);
    assert ([seg] + rest)[1..] == rest;
    if IsName(seg) {
      if Pops(rest) == 0 {
        assert DropLast(stack + [seg], 0) == stack + [seg] && DropLast(stack, 0) == stack;
        assert stack + [seg] + Kept(rest) == stack + ([seg] + Kept(rest));
      } else {
        assert DropLast(stack + [seg], Pops(rest)) == DropLast(stack, Pops(rest) - 1);
      }
    }
  }

  /** The stack machine, in closed form: it loses what the segments pop and gains what look-ahead keeps. */
  lemma {:induction false} PushPopIsKept(segs: seq<bytes>, stack: seq<bytes>)
    requires [] !in segs
    ensures PushPop(segs, stack) == DropLast(stack, Pops(segs)) + Kept(segs)
  {
    if segs == [] {
      assert stack + [] == stack;
    } else {
      assert segs[0] in segs && segs == [segs[0]] + segs[1..];
      PushPopIsKept(segs[1..], PushOne(segs[0], stack));
      PopsStep(segs[0], segs[1..], stack);
    }
  }

  function NonEmpty(segs: seq<bytes>): seq<bytes> {
    if segs == [] then [] else (if segs[0] == [] then [] else [segs[0]]) + NonEmpty(segs[1..])
  }

  /** The cursor sees the non-empty items of the split, in order. */
  lemma {:induction false} SegmentsOfSplit(p: bytes)
    ensures Segments(p) == NonEmpty(Split(SLASH, p))
    decreases |p|
  {
    if p == [] {
      assert Split(SLASH, p) == [[]];
    } else if p[0] == SLASH {
      SegmentsOfSplit(p[1..]);
      assert ([[]] + Split(SLASH, p[1..]))[1..] == Split(SLASH, p[1..]);
    } else {
      var n := SegLen(p);
      SplitFirst(p);
      SegLenStops(p);
      assert Split(SLASH, p) == [p[..n]] + Split(SLASH, p)[1..];
      if n < |p| {
        SegmentsOfSplit(p[n + 1..]);
        assert p[n..][1..] == p[n + 1..];
        assert Segments(p[n..]) == Segments(p[n + 1..]);
      }
    }
  }

  lemma {:induction false} PushPopSkipsEmpty(segs: seq<bytes>, stack: seq<bytes>)
    ensures PushPop(segs, stack) == PushPop(NonEmpty(segs), stack)
  {
    if segs != [] {
      PushPopSkipsEmpty(segs[1..], PushOne(segs[0], stack));
      if segs[0] == [] {
        assert NonEmpty(segs) == NonEmpty(segs[1..]);
      } else {
        assert NonEmpty(segs)[1..] == NonEmpty(segs[1..]);
      }
    }
  }

  lemma {:induction false} NonEmptyHasNone(segs: seq<bytes>)
    ensures [] !in NonEmpty(segs)
  {
    if segs != [] {
      NonEmptyHasNone(segs[1..]);
    }
  }

  /** The stack normaliser keeps exactly the names the look-ahead keeps. */
  lemma StackIsLookAhead(path: bytes)
    ensures PushPop(Split(SLASH, path), []) == Kept(Segments(path))
  {
    PushPopSkipsEmpty(Split(SLASH, path), []);
    SegmentsOfSplit(path);
    NonEmptyHasNone(Split(SLASH, path));
    PushPopIsKept(Segments(path), []);
    assert [] + Kept(Segments(path)) == Kept(Segments(path));
  }

  lemma {:induction false} SlashedIsJoin(names: seq<bytes>)
    ensures Slashed(names) == if names == [] then [] else [SLASH] + Join(SLASH, names)
  {
    if |names| > 0 {
      SlashedIsJoin(names[1..]);
      if |names| == 1 {
        assert names[1..] == [];
        assert Slashed(names) == [SLASH] + names[0] + [];
      } else {
        assert [SLASH] + names[0] + ([SLASH] + Join(SLASH, names[1..])) == [SLASH] + (names[0] + [SLASH] + Join(SLASH, names[1..]));
      }
    }
  }

  /** What put_normalized() streams without encoding. */
  function LookAhead(path: bytes): bytes {
    var names := Kept(Segments(path));
    Slashed(names) + (if names == [] || EndsWithSlash(path) then [SLASH] else [])
  }

  /** The bufferless normaliser is the stack normaliser, trailing slash included. */
  lemma LookAheadIsNormalize(path: bytes)
    ensures LookAhead(path) == Normalize(path)
  {
    StackIsLookAhead(path);
    SlashedIsJoin(Kept(Segments(path)));
    assert Join(SLASH, []) == [];
  }

  // ---------------------------------------------------------------- fixed point

  ghost predicate CleanNames(names: seq<bytes>) {
    forall k :: 0 <= k < |names| ==> names[k] != [] && IsName(names[k]) && SLASH !in names[k]
  }

  lemma {:induction false} KeptIsClean(p: bytes)
    ensures CleanNames(Kept(Segments(p)))
    decreases |p|
  {
    if p == [] {
    } else if p[0] == SLASH {
      KeptIsClean(p[1..]);
    } else {
      var n := SegLen(p);
      KeptIsClean(p[n..]);
      SegLenStops(p);
      assert Segments(p)[1..] == Segments(p[n..]);
    }
  }

  lemma {:induction false} CleanNamesKept(names: seq<bytes>)
    requires CleanNames(names)
    ensures Kept(names) == names && Pops(names) == 0
  {
    if names != [] {
      CleanNamesKept(names[1..]);
      RemovedLaterIsPops(names[1..], 0);
      assert names == [names[0]] + names[1..];
    }
  }

  lemma {:induction false} SegmentsOfSlashed(names: seq<bytes>, tail: bytes)
    requires CleanNames(names) && (tail == [] || tail == [SLASH])
    ensures Segments(Slashed(names) + tail) == names
  {
    if names == [] {
      assert Slashed(names) + tail == tail;
      assert tail != [] ==> tail[1..] == [];
    } else {
      var rest := Slashed(names[1..]) + tail;
      assert Slashed(names) + tail == [SLASH] + names[0] + rest;
      SegmentsOfSlashed(names[1..], tail);
      SegmentsOfOne(names[0], rest);
    }
  }

  lemma SegmentsOfOne(name: bytes, rest: bytes)
    requires CleanNames([name]) && (rest == [] || rest[0] == SLASH)
    ensures Segments([SLASH] + name + rest) == [name] + Segments(rest)
  {
    assert [name][0] == name;
    assert ([SLASH] + name + rest)[1..] == name + rest;
    SegLenOf(name, rest);
    assert (name + rest)[..|name|] == name && (name + rest)[|name|..] == rest;
  }

  lemma {:induction false} SlashedEnd(names: seq<bytes>)
    requires CleanNames(names) && names != []
    ensures Slashed(names) != [] && !EndsWithSlash(Slashed(names))
  {
    if |names| > 1 {
      SlashedEnd(names[1..]);
    } else {
      assert Slashed(names) == [SLASH] + names[0] + [];
    }
  }

  /** Normalising twice changes nothing. */
  lemma NormalizeFixedPoint(path: bytes)
    ensures Normalize(Normalize(path)) == Normalize(path)
  {
    LookAheadIsNormalize(path);
    LookAheadIsNormalize(LookAhead(path));
    KeptIsClean(path);
    var names := Kept(Segments(path));
    var tail := if names == [] || EndsWithSlash(path) then [SLASH] else [];
    SegmentsOfSlashed(names, tail);
    CleanNamesKept(names);
    if names != [] {
      SlashedEnd(names);
      if tail == [] {
        assert Slashed(names) + tail == Slashed(names);
      }
    }
  }

  // ---------------------------------------------------------------- encoding commutes

  function EncodeAll(segs: seq<bytes>): seq<bytes> {
    if segs == [] then [] else [Encode(segs[0], true)] + EncodeAll(segs[1..])
  }

  /** A byte encodes to one that starts a segment exactly when it does itself. */
  lemma {:induction false} EncodeKeepsSlashes(p: bytes)
    ensures SLASH in p <==> SLASH in Encode(p, true)
    ensures p == [] <==> Encode(p, true) == []
    ensures EndsWithSlash(p) <==> EndsWithSlash(Encode(p, true))
  {
    if p != [] {
      EncodeKeepsSlashes(p[1..]);
      var e, t := EncodeByte(p[0], true), Encode(p[1..], true);
      assert p == [p[0]] + p[1..];
      assert SLASH in e <==> p[0] == SLASH;
      if p[1..] == [] {
        assert e + t == e;
      } else {
        assert (e + t)[|e + t| - 1] == t[|t| - 1];
      }
    }
  }

  /** Encoding keeps "." and ".." and makes no new ones. */
  lemma EncodeKeepsKind(seg: bytes)
    ensures Encode(seg, true) == DOTS <==> seg == DOTS
    ensures Encode(seg, true) == DOT_DOTS <==> seg == DOT_DOTS
  {
    EncodeOne(DOT, true);
    EncodeAppend([DOT], [DOT], true);
    assert [DOT] + [DOT] == DOT_DOTS;
    assert Encode(DOTS, true) == DOTS && Encode(DOT_DOTS, true) == DOT_DOTS;
    if Encode(seg, true) == DOTS {
      EncodeInjective(seg, DOTS, true);
    }
    if Encode(seg, true) == DOT_DOTS {
      EncodeInjective(seg, DOT_DOTS, true);
    }
  }

  lemma {:induction false} SegmentsEncode(p: bytes)
    ensures Segments(Encode(p, true)) == EncodeAll(Segments(p))
    decreases |p|
  {
    if p == [] {
    } else if p[0] == SLASH {
      SegmentsEncode(p[1..]);
      assert Encode(p, true) == [SLASH] + Encode(p[1..], true);
      assert ([SLASH] + Encode(p[1..], true))[1..] == Encode(p[1..], true);
    } else {
      var n := SegLen(p);
      var name, rest := p[..n], p[n..];
      SegLenStops(p);
      assert p == name + rest;
      EncodeAppend(name, rest, true);
      EncodeKeepsSlashes(name);
      EncodeKeepsSlashes(rest);
      var e, t := Encode(name, true), Encode(rest, true);
      if rest != [] {
        assert t == [SLASH] + Encode(rest[1..], true);
      }
      SegLenOf(e, t);
      assert (e + t)[..|e|] == e && (e + t)[|e|..] == t;
      assert e[0] != SLASH by { assert e[0] in e; }
      SegmentsEncode(rest);
      assert Segments(p) == [name] + Segments(rest);
      assert EncodeAll(Segments(p)) == [e] + EncodeAll(Segments(rest));
    }
  }

  lemma {:induction false} KeptEncode(segs: seq<bytes>)
    ensures Kept(EncodeAll(segs)) == EncodeAll(Kept(segs))
    ensures Pops(EncodeAll(segs)) == Pops(segs)
  {
    if segs != [] {
      KeptEncode(segs[1..]);
      EncodeKeepsKind(segs[0]);
      assert EncodeAll(segs)[1..] == EncodeAll(segs[1..]);
      RemovedLaterIsPops(segs[1..], 0);
      RemovedLaterIsPops(EncodeAll(segs[1..]), 0);
      assert ([segs[0]] + Kept(segs[1..]))[1..] == Kept(segs[1..]);
    }
  }

  lemma {:induction false} SlashedEncode(names: seq<bytes>)
    ensures Encode(Slashed(names), true) == Slashed(EncodeAll(names))
  {
    if names != [] {
      SlashedEncode(names[1..]);
      EncodeOne(SLASH, true);
      EncodeAppend([SLASH] + names[0], Slashed(names[1..]), true);
      EncodeAppend([SLASH], names[0], true);
      assert EncodeAll(names)[1..] == EncodeAll(names[1..]);
    }
  }

  /** Normalising and encoding commute, so the signer may do them in either order. */
  lemma NormalizeEncode(path: bytes)
    ensures Normalize(Encode(path, true)) == Encode(Normalize(path), true)
  {
    LookAheadIsNormalize(path);
    LookAheadIsNormalize(Encode(path, true));
    var names := Kept(Segments(path));
    SegmentsEncode(path);
    KeptEncode(Segments(path));
    SlashedEncode(names);
    EncodeKeepsSlashes(path);
    EncodeOne(SLASH, true);
    EncodeAppend(Slashed(names), [SLASH], true);
    EncodeAppend(Slashed(names), [], true);
    assert Slashed(EncodeAll(names)) + [] == Slashed(EncodeAll(names));
  }

  // ---------------------------------------------------------------- the streaming code

  datatype SegKind = SegEnd | SegName | SegDot | SegDotDot

  function KindOf(seg: bytes): SegKind {
    if seg == [] then SegEnd else if seg == DOTS then SegDot else if seg == DOT_DOTS then SegDotDot else SegName
  }

  lemma SegmentHere(path: bytes, seg: nat, next: nat)
    requires seg <= next <= |path|
    requires seg < |path| ==> path[seg] != SLASH
    requires next < |path| ==> path[next] == SLASH
    requires forall k :: seg <= k < next ==> path[k] != SLASH
    ensures Segments(path[seg..]) == if next == seg then [] else [path[seg..next]] + Segments(path[next..])
  {
    var q := path[seg..];
    SegLenAt(q, next - seg);
    assert q[..next - seg] == path[seg..next] && q[next - seg..] == path[next..];
  }

  /** next_segment(): moves the cursor past slashes and one segment, and classifies it. The segment is
      path[seg..next]; SegEnd is reported exactly when none is left. */
  method NextSegment(path: bytes, p: nat) returns (kind: SegKind, seg: nat, next: nat)
    requires p <= |path|
    ensures p <= seg <= next <= |path|
    ensures kind == KindOf(path[seg..next])
    ensures kind == SegEnd ==> Segments(path[p..]) == []
    ensures kind != SegEnd ==> next > p && Segments(path[p..]) == [path[seg..next]] + Segments(path[next..])
  {
    seg := SkipSlashes(path, p);
    next := seg;
    while next < |path| && path[next] != SLASH
      invariant seg <= next <= |path|
      invariant forall k :: seg <= k < next ==> path[k] != SLASH
    {
      next := next + 1;
    }
    SegmentHere(path, seg, next);
    kind := Classify(path, seg, next - seg);
  }

  /** The first loop: slashes carry no segment. */
  method SkipSlashes(path: bytes, p: nat) returns (seg: nat)
    requires p <= |path|
    ensures p <= seg <= |path| && (seg < |path| ==> path[seg] != SLASH)
    ensures Segments(path[seg..]) == Segments(path[p..])
  {
    seg := p;
    while seg < |path| && path[seg] == SLASH
      invariant p <= seg <= |path|
      invariant Segments(path[seg..]) == Segments(path[p..])
    {
      assert path[seg..][1..] == path[seg + 1..];
      seg := seg + 1;
    }
  }

  method Classify(path: bytes, seg: nat, len: nat) returns (kind: SegKind)
    requires seg + len <= |path|
    ensures kind == KindOf(path[seg..seg + len])
  {
    if len == 0 {
      kind := SegEnd;
    } else if len == 1 && path[seg] == DOT {
      kind := SegDot;
    } else if len == 2 && path[seg] == DOT && path[seg + 1] == DOT {
      kind := SegDotDot;
    } else {
      kind := SegName;
    }
  }

  /** removed_later(): whether a ".." further on removes the name just read. */
  method IsRemovedLater(path: bytes, rest: nat) returns (r: bool)
    requires rest <= |path|
    ensures r <==> RemovedLater(Segments(path[rest..]), 0)
  {
    var names: nat := 0;
    var p := rest;
    while true
      invariant rest <= p <= |path|
      invariant RemovedLater(Segments(path[p..]), names) <==> RemovedLater(Segments(path[rest..]), 0)
      decreases |path| - p
    {
      var kind, seg, next := NextSegment(path, p);
      if kind == SegEnd {
        return false;
      }
      assert Segments(path[p..])[1..] == Segments(path[next..]);
      if kind == SegName {
        names := names + 1;
      } else if kind == SegDotDot {
        if names == 0 {
          return true;
        }
        names := names - 1;
      }
      p := next;
    }
  }

  /** put_normalized()'s encode flag: the bytes as they are, or encoded twice. */
  function Rendered(s: bytes, encode: bool): bytes {
    if encode then Encoded(s, true, true) else s
  }

  lemma {:induction false} SlashedSnoc(names: seq<bytes>, name: bytes)
    ensures Slashed(names + [name]) == Slashed(names) + ([SLASH] + name)
  {
    if names == [] {
      assert [name][1..] == [];
      assert [] + ([SLASH] + name) == [SLASH] + name + [];
    } else {
      assert (names + [name])[1..] == names[1..] + [name];
      SlashedSnoc(names[1..], name);
    }
  }

  lemma RenderedSnoc(names: seq<bytes>, name: bytes, encode: bool)
    ensures Rendered(Slashed(names + [name]), encode) == Rendered(Slashed(names), encode) + [SLASH] + Rendered(name, encode)
  {
    SlashedSnoc(names, name);
    EncodedAppend(Slashed(names), [SLASH] + name, true, true);
    EncodedAppend([SLASH], name, true, true);
    EncodeOne(SLASH, true);
  }

  lemma KeptStep(done: seq<bytes>, seg: bytes, rest: seq<bytes>)
    ensures done + Kept([seg] + rest)
      == (if IsName(seg) && !RemovedLater(rest, 0) then done + [seg] else done) + Kept(rest)
  {
    assert ([seg] + rest)[1..] == rest;
    assert done + ([seg] + Kept(rest)) == done + [seg] + Kept(rest);
  }

  /** One turn of put_normalized()'s loop up to its output: the next segment, and whether to skip it. */
  method NextKept(path: bytes, p: nat, ghost done: seq<bytes>) returns (kind: SegKind, seg: nat, next: nat, skip: bool)
    requires p <= |path|
    ensures p <= seg <= next <= |path|
    ensures kind == SegEnd ==> Kept(Segments(path[p..])) == []
    ensures kind != SegEnd ==> next > p
    ensures kind != SegEnd ==>
      done + Kept(Segments(path[p..])) == (if skip then done else done + [path[seg..next]]) + Kept(Segments(path[next..]))
  {
    kind, seg, next := NextSegment(path, p);
    skip := true;
    if kind != SegEnd {
      KeptStep(done, path[seg..next], Segments(path[next..]));
      var removed := IsRemovedLater(path, next);
      skip := kind != SegName || removed;
    }
  }

  /** The output of one turn: a slash and the name. */
  method PutName(o: Sink, name: bytes, encode: bool, ghost start: bytes, ghost done: seq<bytes>)
    requires o.Valid() && o.fed == start + Rendered(Slashed(done), encode)
    modifies o, o.dst
    ensures o.Valid() && o.fed == start + Rendered(Slashed(done + [name]), encode)
    ensures o.OthersUnchanged()
  {
    RenderedSnoc(done, name, encode);
    o.PutByte(SLASH);
    PutRendered(o, name, encode);
    Regroup(start, Rendered(Slashed(done), encode), [SLASH]);
    Regroup(start, Rendered(Slashed(done), encode) + [SLASH], Rendered(name, encode));
  }

  method PutRendered(o: Sink, name: bytes, encode: bool)
    requires o.Valid()
    modifies o, o.dst
    ensures o.Valid() && o.fed == old(o.fed) + Rendered(name, encode)
    ensures o.OthersUnchanged()
  {
    if encode {
      PutEncoded(o, name, true, true);
    } else {
      o.Put(name);
    }
  }

  /** The loop: the names written so far and those still to be kept make up all the kept ones. */
  method PutNames(o: Sink, path: bytes, encode: bool) returns (any: bool)
    requires o.Valid()
    modifies o, o.dst
    ensures o.Valid() && o.fed == old(o.fed) + Rendered(Slashed(Kept(Segments(path))), encode)
    ensures any <==> Kept(Segments(path)) != []
    ensures o.OthersUnchanged()
  {
    any := false;
    var p := 0;
    ghost var start, done, all := o.fed, [], Kept(Segments(path));
    assert path[0..] == path && [] + all == all && start + [] == start;
    while true
      invariant 0 <= p <= |path| && o.Valid() && o.OthersUnchanged()
      invariant done + Kept(Segments(path[p..])) == all
      invariant any <==> done != []
      invariant o.fed == start + Rendered(Slashed(done), encode)
      decreases |path| - p
    {
      var kind, seg, next, skip := NextKept(path, p, done);
      if kind == SegEnd {
        assert done + [] == done;
        return;
      }
      p := next;
      if skip {
        continue;
      }
      PutName(o, path[seg..next], encode, start, done);
      done := done + [path[seg..next]];
      any := true;
    }
  }

  /** What is streamed is the kept names, and a slash when there are none or the path ends in one. */
  lemma NormalizedRendered(path: bytes, encode: bool)
    ensures var names := Kept(Segments(path)); var slash := names == [] || (path != [] && path[|path| - 1] == SLASH);
      Rendered(Normalize(path), encode) == Rendered(Slashed(names), encode) + if slash then [SLASH] else []
  {
    LookAheadIsNormalize(path);
    RenderedSlash(Slashed(Kept(Segments(path))), encode);
  }

  lemma RenderedSlash(s: bytes, encode: bool)
    ensures Rendered(s + [SLASH], encode) == Rendered(s, encode) + [SLASH]
    ensures s + [] == s && Rendered(s, encode) + [] == Rendered(s, encode)
  {
    EncodedAppend(s, [SLASH], true, true);
    EncodeOne(SLASH, true);
  }

  /** put_normalized(): streams the normalised path, encoded twice on request, from no buffer. */
  method PutNormalized(o: Sink, path: bytes, encode: bool)
    requires o.Valid()
    modifies o, o.dst
    ensures o.Valid() && o.fed == old(o.fed) + Rendered(Normalize(path), encode)
    ensures o.OthersUnchanged()
  {
    NormalizedRendered(path, encode);
    var any := PutNames(o, path, encode);
    if !any || (path != [] && path[|path| - 1] == SLASH) {
      o.PutByte(SLASH);
    }
  }

  /** esp_rmaker_aws_sign_normalize_path_into(). */
  method NormalizePathInto(dst: array?<byte>, cap: nat, src: bytes) returns (n: nat)
    requires dst != null ==> cap <= dst.Length
    modifies dst
    ensures n == |Normalize(src)|
    ensures dst != null && n < cap ==> dst[..n] == Normalize(src) && dst[n] == 0
  {
    var o := new Sink.Buffer(dst, 0, cap);
    PutNormalized(o, src, false);
    n := o.Finish();
  }
}
