/** put_trimmed(): a header value without surrounding whitespace and with inner runs collapsed. */
module HeaderTrimming {
  import opened Bytes
  import opened OutputSink

  /** Python's " ".join(v.split()), for a given notion of whitespace, read one byte at a time: the
      words so far are in words, the one being read in word. */
  function Words(v: bytes, word: bytes, space: byte -> bool): seq<bytes> {
    if v == [] then (if word == [] then [] else [word])
    else if space(v[0]) then (if word == [] then [] else [word]) + Words(v[1..], [], space)
    else Words(v[1..], word + [v[0]], space)
  }

  function JoinWords(v: bytes, space: byte -> bool): bytes {
    Join(SPACE, Words(v, [], space))
  }

  /** trim() of the reference, with the C notion of whitespace. */
  function Trim(v: bytes): bytes { JoinWords(v, IsSpace) }

  /** What put_trimmed()'s second loop still emits: pending is pending_space. */
  function Emit(v: bytes, pending: bool): bytes {
    if v == [] then []
    else if IsSpace(v[0]) then Emit(v[1..], true)
    else (if pending then [SPACE] else []) + [v[0]] + Emit(v[1..], false)
  }

  function SkipSpaces(v: bytes): bytes {
    if v != [] && IsSpace(v[0]) then SkipSpaces(v[1..]) else v
  }

  /** Inside a word, the rest of the value joins on to it. */
  lemma {:induction false} EmitIsJoin(v: bytes, word: bytes)
    requires word != []
    ensures Join(SPACE, Words(v, word, IsSpace)) == word + Emit(v, false)
    ensures Join(SPACE, [word] + Words(v, [], IsSpace)) == word + Emit(v, true)
    decreases |v|
  {
    if v == [] {
      assert word + [] == word && [word] + [] == [word];
    } else if IsSpace(v[0]) {
      EmitIsJoin(v[1..], word);
      assert [] + Words(v[1..], [], IsSpace) == Words(v[1..], [], IsSpace);
    } else {
      var c := v[0];
      EmitIsJoin(v[1..], word + [c]);
      EmitIsJoin(v[1..], [c]);
      assert word + [c] + Emit(v[1..], false) == word + ([] + [c] + Emit(v[1..], false));
      assert [] + [c] == [c];
      var ws := Words(v[1..], [c], IsSpace);
      WordsNonEmpty(v[1..], [c]);
      assert ([word] + ws)[1..] == ws;
      assert Join(SPACE, [word] + ws) == word + [SPACE] + ([c] + Emit(v[1..], false));
      assert word + [SPACE] + ([c] + Emit(v[1..], false)) == word + ([SPACE] + [c] + Emit(v[1..], false));
    }
  }

  lemma {:induction false} WordsNonEmpty(v: bytes, word: bytes)
    requires word != []
    ensures Words(v, word, IsSpace) != []
  {
    if v != [] && !IsSpace(v[0]) {
      WordsNonEmpty(v[1..], word + [v[0]]);
    }
  }

  /** The two-loop trimmer joins the whitespace-separated words. */
  lemma {:induction false} EmitIsTrim(v: bytes)
    ensures Emit(SkipSpaces(v), false) == Trim(v)
  {
    if v != [] {
      if IsSpace(v[0]) {
        EmitIsTrim(v[1..]);
        assert [] + Words(v[1..], [], IsSpace) == Words(v[1..], [], IsSpace);
      } else {
        assert [] + [v[0]] == [v[0]];
        EmitIsJoin(v[1..], [v[0]]);
        assert [] + [v[0]] + Emit(v[1..], false) == [v[0]] + Emit(v[1..], false);
      }
    }
  }

  /** One turn of put_trimmed()'s second loop, ahead of the bytes rest. */
  method PutCollapsed(o: Sink, c: byte, pending: bool, ghost rest: bytes) returns (pending': bool)
    requires o.Valid()
    modifies o, o.dst
    ensures o.Valid() && o.OthersUnchanged()
    ensures o.fed + Emit(rest, pending') == old(o.fed) + Emit([c] + rest, pending)
  {
    assert ([c] + rest)[1..] == rest;
    pending' := true;
    if !IsSpace(c) {
      if pending {
        o.PutByte(SPACE);
      }
      o.PutByte(c);
      pending' := false;
      assert old(o.fed) + ((if pending then [SPACE] else []) + [c] + Emit(rest, false)) == o.fed + Emit(rest, false);
    }
  }

  /** The second loop: what is out and what is still to come make up the trimmed value. */
  method PutWords(o: Sink, value: bytes)
    requires o.Valid()
    modifies o, o.dst
    ensures o.Valid() && o.fed == old(o.fed) + Emit(value, false)
    ensures o.OthersUnchanged()
  {
    ghost var start, all := o.fed, Emit(value, false);
    var pending := false;
    var p := 0;
    assert value[0..] == value;
    while p < |value|
      invariant p <= |value| && o.Valid() && o.OthersUnchanged()
      invariant o.fed + Emit(value[p..], pending) == start + all
    {
      assert value[p..] == [value[p]] + value[p + 1..];
      pending := PutCollapsed(o, value[p], pending, value[p + 1..]);
      p := p + 1;
    }
    assert o.fed + [] == o.fed;
  }

  /** put_trimmed(). */
  method PutTrimmed(o: Sink, value: bytes)
    requires o.Valid()
    modifies o, o.dst
    ensures o.Valid() && o.fed == old(o.fed) + Trim(value)
    ensures o.OthersUnchanged()
  {
    var p := 0;
    assert value[0..] == value;
    while p < |value| && IsSpace(value[p])
      invariant p <= |value| && SkipSpaces(value[p..]) == SkipSpaces(value)
    {
      assert value[p..][1..] == value[p + 1..];
      p := p + 1;
    }
    EmitIsTrim(value);
    PutWords(o, value[p..]);
  }

  // ---------------------------------------------------------------- against Python's str.split()

  /** str.split() also separates at the ASCII controls 0x1C to 0x1F, which isspace() does not. */
  /** What str.split() takes for white space among the ASCII characters. */
  predicate PythonSpace(c: byte) { c in {9, 10, 11, 12, 13, 28, 29, 30, 31, 32} }

  function PythonTrim(v: bytes): bytes { JoinWords(v, PythonSpace) }

  predicate HasSeparatorControl(v: bytes) { exists c :: c in v && 28 <= c <= 31 }

  lemma {:induction false} SameWords(v: bytes, word: bytes)
    requires !HasSeparatorControl(v)
    ensures Words(v, word, IsSpace) == Words(v, word, PythonSpace)
    decreases |v|
  {
    if v != [] {
      assert v[0] in v && forall c :: c in v[1..] ==> c in v;
      SameWords(v[1..], []);
      SameWords(v[1..], word + [v[0]]);
    }
  }

  lemma {:induction false} EmitKeeps(v: bytes, pending: bool, c: byte)
    requires c in v && !IsSpace(c)
    ensures c in Emit(v, pending)
    decreases |v|
  {
    if v[0] != c {
      assert v == [v[0]] + v[1..];
      EmitKeeps(v[1..], IsSpace(v[0]), c);
    }
  }

  lemma {:induction false} PythonWordsDrop(v: bytes, word: bytes, c: byte)
    requires 28 <= c <= 31 && c !in word
    ensures c !in Join(SPACE, Words(v, word, PythonSpace))
    ensures forall w :: w in Words(v, word, PythonSpace) ==> c !in w
    decreases |v|
  {
    if v != [] {
      PythonWordsDrop(v[1..], [], c);
      if !PythonSpace(v[0]) {
        PythonWordsDrop(v[1..], word + [v[0]], c);
      }
    }
    JoinOmits(Words(v, word, PythonSpace), c);
  }

  lemma {:induction false} JoinOmits(parts: seq<bytes>, c: byte)
    requires c != SPACE && forall w :: w in parts ==> c !in w
    ensures c !in Join(SPACE, parts)
  {
    if |parts| > 1 {
      JoinOmits(parts[1..], c);
    } else if |parts| == 1 {
      assert parts[0] in parts;
    }
  }

  /** The C trimmer agrees with " ".join(v.split()) exactly on ASCII values without those controls. */
  lemma TrimMatchesPython(v: bytes)
    requires forall k :: 0 <= k < |v| ==> v[k] < 128
    ensures Trim(v) == PythonTrim(v) <==> !HasSeparatorControl(v)
  {
    if HasSeparatorControl(v) {
      var c :| c in v && 28 <= c <= 31;
      EmitKeeps(SkipSpacesKeeps(v, c), false, c);
      EmitIsTrim(v);
      PythonWordsDrop(v, [], c);
    } else {
      SameWords(v, []);
    }
  }

  function SkipSpacesKeeps(v: bytes, c: byte): (r: bytes)
    requires c in v && !IsSpace(c)
    ensures r == SkipSpaces(v) && c in r
  {
    if v != [] && IsSpace(v[0]) then
      assert v == [v[0]] + v[1..];
      SkipSpacesKeeps(v[1..], c)
    else v
  }
}
